/** Records the components exchange with the shared transaction-history store and
    with the SDK's contract-call hooks. */
module Transactions {
  import opened Wrappers

  /** The summary text of a stored transaction. `AmountThen(amount, text)` is the
      message `${amount} ${text}`; how the i18n layer renders an absent amount is
      not part of this model. */
  datatype Summary = Plain(text: string) | AmountThen(amount: Option<string>, text: string)

  /** The payload of the store's `addTransaction` action. */
  datatype NewTransaction = NewTransaction(chainId: int, hash: string, from: string, summary: Summary)

  /** The `status` of a contract call as the SDK reports it; `Idle` is its `'None'`. */
  datatype TransactionState =
    Idle | PendingSignature | Mining | Success | Fail | Exception | CollectingSignaturePool

  /** A call's status together with its optional error message. */
  datatype TransactionStatus = TransactionStatus(status: TransactionState, errorMessage: Option<string>)

  /** A mined transaction's receipt; only its presence matters to the components. */
  datatype Receipt = Receipt(blockNumber: nat, transactionIndex: nat)

  /** One entry of the store, as the wallet status indicator reads it. */
  datatype TransactionDetails = TransactionDetails(
    hash: string, from: string, chainId: int, summary: Summary, addedTime: int, receipt: Option<Receipt>)
}
