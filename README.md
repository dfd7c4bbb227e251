# GoodDollar UI: the local decision logic, modelled and proved in Dafny

The GoodDollar web app (GoodProtocolUI) is mostly presentation over external SDKs.
This project models the small sequential layer that the app decides for itself. Every
SDK or wallet call becomes an abstract outcome: a receipt or none, a hash, a
confirmation, or an error.

- **Savings modal** (`savings_modal.dfy`). The tagged-action reducer over the modal's
  record state, the right fold `Run` that dispatches a sequence of actions, and the
  `withLoading` bracket of two `TOGGLE_LOADING` actions. Also the title and screen
  choice, the choice of submission helper and SDK call, the status effect, and the
  mounted component as a class whose state is always the reducer applied to every
  action dispatched so far.
- **Withdraw modal** (`withdraw.dfy`). The four-phase machine `none | pending | send |
  success` as a transition table; the model names these phases `Ready`, `Pending`,
  `Sent` and `Succeeded`, and the rows below use the source's names. The component
  is a class: the submit handler, the three SDK callbacks, the close handler, the
  open and percentage effects and a change of the `stake` prop update its fields one
  step at a time.
- **Claim page** (`claim.dfy`). The classifier that decides `claimed` and the polling
  cadence from the claim amount and the claim call's status, and the chain-switch
  reset. Also the claim and connect handlers (feature flag on or off) and the mapping
  of claim-button events to analytics actions.
- **Claim balance panel** (`claim_balance.dfy`). The alternative chain (FUSE or CELO),
  the `claimedAlt` effect, the visibility of the "Claim on X" button, and the wallet's
  4902 rejection code, which toggles the network dialog.
- **Wallet status** (`web3_status.dfy`). The recent transactions are sorted newest
  first by the source's comparator and split into pending and confirmed hash lists.
  Then comes the choice between the pending count, the ENS name, the short address
  and the connect button.
- **Application shell** (`app.dfy`). Preserving `utm_source` in the query string, and
  the case-insensitive `theme` parameter.
- **Swap page** (`swap.dfy`). The chain-to-widget lookup gated by feature flags.

Shared pieces:
- `wrappers.dfy`: `Option`.
- `chains.dfy`: the chain ids 1, 122 and 42220.
- `strings.dfy`: the JavaScript built-ins `toLowerCase`, `includes` and `Number`, as
  far as they are used.
- `transactions.dfy`: the record handed to the transaction store, the stored
  transaction, and the SDK's call status.

React state becomes class fields. Each `useEffect` body becomes a method that is
called when its dependencies change. Pure selections become functions with lemmas.

### Behaviour of the code worth knowing

- Withdraw: closing the modal does not clear the hash or the error. `handleClose`
  only sets the phase to `none`. The open effect clears the hash only when the phase
  is not `none` at the moment of re-opening, and it never clears the error.
  `WithdrawModal.HandleClose` and `WithdrawModal.OpenEffect` state exactly that.
- Withdraw: the amount on the button is recomputed only when the percentage changes,
  not when the `stake` prop does. Re-opening sets `'50'`, which changes nothing when
  it is already `'50'`. So after a stake change the label can show an amount of the
  old stake beside the new total (`Withdraw.StaleAmountScenario`).
- Claim balance: `claimedAlt` starts `true`. The effect then stores
  `claimed?.isZero()`, which is `undefined` while the other chain's amount is unknown.
  An `undefined` value is falsy, so the button is shown in that case.
  `ClaimBalance.AltButtonIff` states this.
- Savings modal: a deposit modal whose percentage is `'100'` calls `withdraw` while
  its status effect watches `transfer` (`SavingsModal.SubmissionCallsWatched`). The
  percentage control exists only on the withdraw form, but `type` is a prop and
  nothing resets the percentage when it changes or when the modal is dismissed. So
  one instance shown for a withdrawal at `'100'` and then as a deposit makes that
  mismatched call (`SavingsModal.ReusedAsDeposit`). `SavingsModal.SavingsModalView.Click`
  states that the call is the watched one exactly when this is not the case. Whether
  a parent reuses one instance in this way is not part of this model; the savings card
  row opens it as `withdraw` or `claim`.
- Savings modal: an error raised inside `withLoading` survives the closing toggle
  only when loading was off before the opening toggle, which is always the case on
  the form screen (`SavingsModal.WithLoadingKeepsError`).
- Savings modal: the helpers test `if (account)`, so an empty account string counts
  as no account (`SavingsModal.Connected`). A click with no receipt or no account is
  not a complete no-op: the opening toggle clears a stale error
  (`SavingsModal.ClickOutcome`).
- Savings modal: dismissing the modal while the SDK call is awaited dispatches
  `TOGGLE_INIT` between the two loading toggles. The closing toggle then turns
  loading back on. Without a receipt the modal is left on its loading screen with
  nothing running. With a receipt, `DONE` shows the success screen, but loading stays
  on (`SavingsModal.DismissDuringSubmission`).
- Claim page: on a chain switch, the `hasClaimed` effect runs before the reset effect,
  so the switching commit ends with `claimed` unknown and polling every block
  (`Claim.ChainSwitchForgets`). The cadence is itself a dependency of `hasClaimed`.
  When the switch moved the cadence, the next commit runs the classifier again and
  `claimed` becomes known again; when polling was already every block, `claimed`
  stays unknown until the amount changes (`Claim.CadenceChangeReruns`).
- Claim page: React runs both effects on mount, so the first committed state is
  `claimed` unknown and polling every block. The 12 s cadence the page starts with
  is never on screen. With the amount known, the next commit classifies, because
  the cadence moved (`Claim.PageMount`).
- Wallet status: the pending and confirmed lists share no hash only because the
  transaction store is keyed by hash. The model states this as `UniqueHashes`.

## Model

| member | source | states |
|---|---|---|
| Strings.ToLower | src/pages/App.tsx:95-97 | `toLowerCase` on ASCII letters; specified by `ToLowerPointwise` and `ToLowerIdempotent` |
| Strings.Includes | src/pages/App.tsx:50 | `includes`; specified by `IncludesPiece` and `App.UtmRewriteSpec` |
| Strings.ToLowerPointwise | src/pages/App.tsx:95-97 | Lower-casing keeps the length and works character by character |
| Strings.ToLowerIdempotent | src/pages/App.tsx:95-97 | Lower-casing twice equals lower-casing once, so comparing a lowered value with a lower-case literal ignores case |
| Strings.IncludesPiece | src/pages/App.tsx:50 | `includes` finds a piece whatever surrounds it |
| Strings.DecimalValue | src/components/Withdraw/index.tsx:45 | `Number` of a percentage is a number exactly when every character is a decimal digit |
| Strings.DecimalValuePresets | src/components/Withdraw/index.tsx:44 | `'50'` is 50 and `'100'` is 100 |
| SavingsModal.Reduce | src/pages/gd/SavingsV2/SavingsModal/index.tsx:161-214 | No action touches `dollarEquivalent` or `approved`; the form actions leave the submission fields alone, and every other action leaves token and value alone |
| SavingsModal.RunAppend | src/pages/gd/SavingsV2/SavingsModal/index.tsx:161-214 | Dispatching two batches in turn equals dispatching their concatenation |
| SavingsModal.Run | src/pages/gd/SavingsV2/SavingsModal/index.tsx:161-214 | The reducer over a sequence of dispatches; specified by `RunAppend`, `RunKeepsLoading` and the `withLoading` lemmas |
| SavingsModal.ToggleInitResets | src/pages/gd/SavingsV2/SavingsModal/index.tsx:173-181 | `TOGGLE_INIT` restores error, loading, done, signed and hash to their initial values, keeps token and value, and is idempotent |
| SavingsModal.ToggleTokenSelects | src/pages/gd/SavingsV2/SavingsModal/index.tsx:182-186 | Token is B iff the payload is true; nothing else changes; the last selection wins |
| SavingsModal.ChangeValueOnlyValue | src/pages/gd/SavingsV2/SavingsModal/index.tsx:187-191 | `CHANGE_VALUE` changes only the value; the last edit wins |
| SavingsModal.ToggleLoadingFlips | src/pages/gd/SavingsV2/SavingsModal/index.tsx:192-197 | Loading is negated; the error is cleared when loading turns on and kept when it turns off; nothing else changes; two toggles restore loading |
| SavingsModal.SetErrorAndDone | src/pages/gd/SavingsV2/SavingsModal/index.tsx:198-210 | `SET_ERROR` sets only the error; `DONE` sets only done, signed and the hash, and shows the success screen |
| SavingsModal.RunKeepsLoading | src/pages/gd/SavingsV2/SavingsModal/index.tsx:216-229 | Actions other than the two loading-related ones never change loading, however many are dispatched |
| SavingsModal.WithLoadingRestoresLoading | src/pages/gd/SavingsV2/SavingsModal/index.tsx:216-229 | Loading ends where it started after the bracket, whatever the callback dispatched |
| SavingsModal.WithLoadingKeepsError | src/pages/gd/SavingsV2/SavingsModal/index.tsx:216-229 | A thrown error's message survives the closing toggle when loading started off, and is wiped when it started on |
| SavingsModal.TitleMatchesScreen | src/pages/gd/SavingsV2/SavingsModal/index.tsx:241-262 | Loading-and-not-done gives the spinner and the loading copy; done gives the success screen and the done copy; otherwise the form and the init copy; the three copies of one type differ |
| SavingsModal.TitleText | src/pages/gd/SavingsV2/SavingsModal/index.tsx:38-66 | The title copy of each type and phase; specified by `TitleMatchesScreen` |
| SavingsModal.ScreenOf | src/pages/gd/SavingsV2/SavingsModal/index.tsx:253-262 | Which screen shows; specified by `TitleMatchesScreen` |
| SavingsModal.TitleOf | src/pages/gd/SavingsV2/SavingsModal/index.tsx:242-244 | Which title copy shows; specified by `TitleMatchesScreen` |
| SavingsModal.SubmissionCallsWatched | src/pages/gd/SavingsV2/SavingsModal/index.tsx:304-312 | Claim calls `claim`; percentage `'100'` calls `withdraw` with the whole balance and the account; otherwise `transfer` or `withdraw` by type; the call made is the watched one iff not (deposit and `'100'`) |
| SavingsModal.SubmissionFor | src/pages/gd/SavingsV2/SavingsModal/index.tsx:304-312 | The helper a click calls; specified by `SubmissionCallsWatched` |
| SavingsModal.SdkCallOf | src/pages/gd/SavingsV2/SavingsModal/index.tsx:116-147 | The SDK call each helper makes; specified by `SubmissionCallsWatched` |
| SavingsModal.CalledFunction | src/pages/gd/SavingsV2/SavingsModal/index.tsx:116-147 | The SDK function a call invokes; specified by `SubmissionCallsWatched` |
| SavingsModal.WatchedFunction | src/pages/gd/SavingsV2/SavingsModal/index.tsx:150-158 | The SDK function the status effect watches per type; specified by `SubmissionCallsWatched` and `WatchedStatusFollowsFunction` |
| SavingsModal.StoredSummary | src/pages/gd/SavingsV2/SavingsModal/index.tsx:38-70 | A claim stores no amount, a withdrawal of everything the savings balance, anything else the typed value; the three summary copies differ |
| SavingsModal.SummaryAmount | src/pages/gd/SavingsV2/SavingsModal/index.tsx:124-146 | The amount a helper passes to `addSavingsTransaction`; specified by `StoredSummary` |
| SavingsModal.CopySummary | src/pages/gd/SavingsV2/SavingsModal/index.tsx:38-70 | The summary copy of each type; specified by `StoredSummary` and `SavingsModalView.AddSavingsTransaction` |
| SavingsModal.WatchedStatusFollowsFunction | src/pages/gd/SavingsV2/SavingsModal/index.tsx:150-158 | The status shown is the state of the SDK function that belongs to the modal's type |
| SavingsModal.WatchedStatus | src/pages/gd/SavingsV2/SavingsModal/index.tsx:150-158 | The status the effect copies; specified by `WatchedStatusFollowsFunction` |
| SavingsModal.ErrorBanner | src/pages/gd/SavingsV2/SavingsModal/index.tsx:247-251 | The error line of a status; specified by `ErrorBannerWatched` |
| SavingsModal.ErrorBannerWatched | src/pages/gd/SavingsV2/SavingsModal/index.tsx:150-158 | The banner reports the watched call's status only: a deposit modal never shows a failed `withdraw`, and a withdraw modal shows its failure's message |
| SavingsModal.ClickOutcome | src/pages/gd/SavingsV2/SavingsModal/index.tsx:104-147 | From the form screen, a click ends with loading off and the form untouched; a receipt with a non-empty account gives exactly one `DONE` with its hash; a rejection records its message; no account, an empty one or no receipt only clears the stale error |
| SavingsModal.Connected | src/pages/gd/SavingsV2/SavingsModal/index.tsx:117 | `if (account)`: present and not the empty string; used by `ClickOutcome` and `SavingsModalView.Click` |
| SavingsModal.CallbackActions | src/pages/gd/SavingsV2/SavingsModal/index.tsx:104-147 | The dispatches a helper makes between the two toggles; specified by `ClickOutcome` |
| SavingsModal.ClickTrace | src/pages/gd/SavingsV2/SavingsModal/index.tsx:216-229 | The dispatches of one click; specified by `ClickOutcome` |
| SavingsModal.DismissDuringSubmission | src/pages/gd/SavingsV2/SavingsModal/index.tsx:216-235 | Dismissing between the two toggles leaves loading on: without a receipt on the loading screen, with one on the success screen |
| SavingsModal.SavingsModalView.Valid | src/pages/gd/SavingsV2/SavingsModal/index.tsx:79-85 | The class invariant: the state is always the reducer folded over every action dispatched since mount |
| SavingsModal.SavingsModalView.constructor | src/pages/gd/SavingsV2/SavingsModal/index.tsx:79-85 | Initial reducer state, balance `'0'`, percentage `'50'`, status none |
| SavingsModal.SavingsModalView.SetType | src/pages/gd/SavingsV2/SavingsModal/index.tsx:74-76 | A new `type` prop changes only the type: the reducer state and the percentage are kept |
| SavingsModal.SavingsModalView.Toggle | src/pages/gd/SavingsV2/SavingsModal/index.tsx:232-235 | The parent's toggle opens or closes the modal and changes nothing else |
| SavingsModal.SavingsModalView.Dispatch | src/pages/gd/SavingsV2/SavingsModal/index.tsx:161-214 | The new state is the reducer's, and the state stays the fold of every dispatched action |
| SavingsModal.SavingsModalView.SyncBalance | src/pages/gd/SavingsV2/SavingsModal/index.tsx:88-93 | The balance is the savings balance for withdraw and the wallet balance otherwise |
| SavingsModal.SavingsModalView.EditValue | src/pages/gd/SavingsV2/SavingsModal/index.tsx:281-286 | Typing dispatches `CHANGE_VALUE`, which sets only the value |
| SavingsModal.SavingsModalView.MaxValue | src/pages/gd/SavingsV2/SavingsModal/index.tsx:275-280 | Max sets the value to the balance, or `'0'` without one |
| SavingsModal.SavingsModalView.ChangePercentage | src/pages/gd/SavingsV2/SavingsModal/index.tsx:289-292 | The percentage changes only on the withdraw form |
| SavingsModal.SavingsModalView.SyncTxStatus | src/pages/gd/SavingsV2/SavingsModal/index.tsx:150-158 | The status is the deposit, withdraw or claim call's state according to the type |
| SavingsModal.SavingsModalView.Dismiss | src/pages/gd/SavingsV2/SavingsModal/index.tsx:232-235 | Dismissing dispatches `TOGGLE_INIT` and toggles the modal |
| SavingsModal.SavingsModalView.AddSavingsTransaction | src/pages/gd/SavingsV2/SavingsModal/index.tsx:104-114 | One `DONE` with the hash and one store record with chain id 122, the hash, the sender and the type's summary |
| SavingsModal.SavingsModalView.RunSubmission | src/pages/gd/SavingsV2/SavingsModal/index.tsx:116-147 | With a non-empty account one SDK call, then a `DONE` and one store record for a receipt or the message for a rejection; without one nothing |
| SavingsModal.SavingsModalView.Click | src/pages/gd/SavingsV2/SavingsModal/index.tsx:303-313 | The click dispatches the bracketed trace; the SDK is called once iff there is a non-empty account, and that call is the one the status effect watches iff not (deposit and `'100'`); a store record is added iff there is also a receipt |
| SavingsModal.ReusedAsDeposit | src/pages/gd/SavingsV2/SavingsModal/index.tsx:150-158 | A withdraw modal set to `'100'`, dismissed and shown again as a deposit calls `withdraw` for the whole balance while watching `transfer` |
| Withdraw.LastEventDecides | src/components/Withdraw/index.tsx:59-130 | The phase after any event sequence is set by its last event; an error, a throw, a close or a re-open always leads to `none` |
| Withdraw.Step | src/components/Withdraw/index.tsx:59-130 | The phase each handler sets; specified by `LastEventDecides`, `SubmissionScenario` and the `WithdrawModal` methods |
| Withdraw.SubmissionScenario | src/components/Withdraw/index.tsx:62-100 | Submit, hash and confirmation visit pending, send and success; submit then error visits pending and none |
| Withdraw.FormShown | src/components/Withdraw/index.tsx:138 | The form condition, none or pending; specified by `DisplayFollowsPhase` |
| Withdraw.ControlsDisabled | src/components/Withdraw/index.tsx:164-174 | The disabled condition of the percentage control and the button, pending; specified by `DisplayFollowsPhase` |
| Withdraw.DisplayFollowsPhase | src/components/Withdraw/index.tsx:138-174 | The form shows iff none or pending, controls are disabled iff pending, and the hash and the confirmation replace the form |
| Withdraw.WithdrawAmount | src/components/Withdraw/index.tsx:53-55 | The amount is defined iff the percentage is a number, and then amount × 100 = stake × percentage |
| Withdraw.WithdrawAmountPresets | src/components/Withdraw/index.tsx:45 | At `'50'` half the stake; at `'100'` all of it |
| Withdraw.WithdrawModal.Valid | src/components/Withdraw/index.tsx:41-55 | The class invariant: the amount is `WithdrawAmount` of the current percentage and of the stake as it was when the percentage last changed |
| Withdraw.WithdrawModal.constructor | src/components/Withdraw/index.tsx:40-57 | Phase none, no hash and no error, percentage `'50'` with its amount, switch off |
| Withdraw.WithdrawModal.SetStake | src/components/Withdraw/index.tsx:41 | A new stake changes the total only; the amount and the percentage are kept |
| Withdraw.WithdrawModal.SetPercentage | src/components/Withdraw/index.tsx:53-55 | The amount is recomputed from the current stake iff the percentage really changes |
| Withdraw.WithdrawModal.HandleWithdraw | src/components/Withdraw/index.tsx:59-74 | Without web3 nothing changes; otherwise pending, one confirm event, and a request for the percentage with the interest token iff not a governance stake and the switch is on |
| Withdraw.WithdrawModal.OnTransactionHash | src/components/Withdraw/index.tsx:75-93 | The hash is kept, the phase is send, one success event and exactly one store record with that hash and sender are added |
| Withdraw.WithdrawModal.OnConfirmed | src/components/Withdraw/index.tsx:94-96 | The phase is success |
| Withdraw.WithdrawModal.OnError | src/components/Withdraw/index.tsx:97-100 | The phase is none and the error is stored |
| Withdraw.WithdrawModal.OnResolved | src/components/Withdraw/index.tsx:102 | The parent is notified once |
| Withdraw.WithdrawModal.OnThrown | src/components/Withdraw/index.tsx:103-106 | The phase is none |
| Withdraw.WithdrawModal.OpenEffect | src/components/Withdraw/index.tsx:124-130 | Opening resets the percentage to `'50'`, recomputing the amount only if it was not `'50'` already; a phase other than none turns into none and loses its hash; the error stays |
| Withdraw.WithdrawModal.SetOpen | src/components/Withdraw/index.tsx:124-130 | The open effect runs only when `open` changes; re-opening from none keeps the hash |
| Withdraw.WithdrawModal.HandleClose | src/components/Withdraw/index.tsx:119-122 | Phase none and closed whatever the prior phase; hash, error, percentage and amount are kept |
| Withdraw.WithdrawModal.ChangePercentage | src/components/Withdraw/index.tsx:161-165 | Only while not pending; the amount follows the current stake iff the percentage really changes |
| Withdraw.WithdrawModal.ChangeInterestToken | src/components/Withdraw/index.tsx:155-159 | The switch exists only for a non-governance stake |
| Withdraw.StaleAmountScenario | src/components/Withdraw/index.tsx:41-55 | After a stake change from 100 to 60, closing and re-opening, the amount still reads 50; a change to `'100'` then reads 60 |
| Withdraw.HashThenConfirmedScenario | src/components/Withdraw/index.tsx:59-101 | Submit, hash, confirm: success with exactly one record whose hash is the one received; a governance stake never asks for the interest token |
| Claim.ClassifierDecides | src/pages/gd/Claim/index.tsx:85-107 | No amount or mining: nothing; zero: claimed, 12 s, call reset; success: claimed, cadence kept; otherwise not claimed, every block |
| Claim.Classify | src/pages/gd/Claim/index.tsx:85-107 | The classifier's verdict; specified by `ClassifierDecides` and `CardsFollowVerdict` |
| Claim.AfterHasClaimed | src/pages/gd/Claim/index.tsx:85-107 | The `hasClaimed` effect on the page state; specified by `ClassifierDecides` |
| Claim.ChainSwitchForgets | src/pages/gd/Claim/index.tsx:85-113 | At the end of the switching commit, claimed is unknown and polling is every block, whatever the classifier did |
| Claim.ResetForChain | src/pages/gd/Claim/index.tsx:110-113 | The chain-switch effect; specified by `ChainSwitchForgets` |
| Claim.Commit | src/pages/gd/Claim/index.tsx:85-113 | The effects of one commit, by changed dependency; specified by `CadenceChangeReruns` |
| Claim.CadenceChangeReruns | src/pages/gd/Claim/index.tsx:85-113 | The switching commit is both effects; a cadence it changed re-runs the classifier on the next commit, which makes claimed known again when an amount is known and nothing is mining; without a cadence change the page stays unknown |
| Claim.PageMount | src/pages/gd/Claim/index.tsx:65-113 | The mount commit runs both effects and shows claimed unknown, every block; the next commit classifies a known amount because the cadence moved; an amount that arrives later is classified as from any other state |
| Claim.ClaimCadence | src/pages/gd/Claim/index.tsx:85-107 | Over one claim: open polls every block through mining and success, and a zero amount returns to 12 s |
| Claim.EventMapping | src/pages/gd/Claim/index.tsx:115-137 | Only `finish` is silent; three events are renamed; any other passes through |
| Claim.EventAction | src/pages/gd/Claim/index.tsx:115-137 | The analytics action of an event; specified by `EventMapping` |
| Claim.CardsFollowVerdict | src/pages/gd/Claim/index.tsx:263-345 | The cards hide iff claimed; a settled claim hides them, an open one or a chain switch shows them; while claiming the verdict is never claimable |
| Claim.Claiming | src/pages/gd/Claim/index.tsx:345 | The claiming flag: mining or success; specified by `CardsFollowVerdict` |
| Claim.CardsHidden | src/pages/gd/Claim/index.tsx:265-319 | The cards hide and the balance shows iff claimed; specified by `CardsFollowVerdict` |
| Claim.ClaimPage.constructor | src/pages/gd/Claim/index.tsx:65-70 | Claimed unknown, 12 s cadence, idle call; the mount commit replaces the cadence before anything shows (`PageMount`) |
| Claim.ClaimPage.HasClaimed | src/pages/gd/Claim/index.tsx:85-107 | The effect does what the classifier decides |
| Claim.ClaimPage.ResetForChainSwitch | src/pages/gd/Claim/index.tsx:110-113 | Claimed unknown, every block |
| Claim.ClaimPage.OnChainChange | src/pages/gd/Claim/index.tsx:85-113 | Both effects run, the classifier first |
| Claim.ClaimPage.OnCommit | src/pages/gd/Claim/index.tsx:85-113 | One commit runs the effects whose dependencies changed, in declaration order |
| Claim.ClaimPage.OnCallState | src/pages/gd/Claim/index.tsx:68 | The SDK's call state is mirrored |
| Claim.ClaimPage.HandleEvent | src/pages/gd/Claim/index.tsx:115-137 | One analytics event for a mapped event, none for `finish` |
| Claim.ClaimPage.HandleClaim | src/pages/gd/Claim/index.tsx:139-153 | Always every block; true iff enabled and a receipt; `claim_success` only then; the dialog opens iff disabled |
| Claim.ClaimPage.HandleConnect | src/pages/gd/Claim/index.tsx:155-164 | True iff enabled and at least one wallet connected; the dialog opens iff disabled |
| ClaimBalance.AltChainIsTheOther | src/pages/gd/Claim/ClaimBalance.tsx:46 | The alternative is never the current chain, and the alternative's alternative is the original |
| ClaimBalance.AltChain | src/pages/gd/Claim/ClaimBalance.tsx:46 | The alternative chain; specified by `AltChainIsTheOther` |
| ClaimBalance.IsZero | src/pages/gd/Claim/ClaimBalance.tsx:49-53 | `?.isZero()`: unknown for no amount; specified by `ClaimedAltReadsAltChain` and `AltButtonIff` |
| ClaimBalance.AmountOn | src/pages/gd/Claim/ClaimBalance.tsx:49-53 | The claim amount on one chain; specified by `ClaimedAltReadsAltChain` and `AltButtonIff` |
| ClaimBalance.ClaimedAltFor | src/pages/gd/Claim/ClaimBalance.tsx:49-53 | The `claimedAlt` value; specified by `ClaimedAltReadsAltChain` |
| ClaimBalance.AltButtonShown | src/pages/gd/Claim/ClaimBalance.tsx:90 | The button condition; specified by `AltButtonIff` |
| ClaimBalance.ClaimedAltReadsAltChain | src/pages/gd/Claim/ClaimBalance.tsx:49-53 | `claimedAlt` is whether the other chain's amount is zero, and ignores the current chain's amount |
| ClaimBalance.AltButtonIff | src/pages/gd/Claim/ClaimBalance.tsx:90 | The button shows iff not simple mode and the other chain's amount is not known to be zero |
| ClaimBalance.ClaimBalanceView.constructor | src/pages/gd/Claim/ClaimBalance.tsx:37 | `claimedAlt` starts true, so the button starts hidden |
| ClaimBalance.ClaimBalanceView.SyncClaimedAlt | src/pages/gd/Claim/ClaimBalance.tsx:49-53 | The effect stores the other chain's is-zero |
| ClaimBalance.ClaimBalanceView.SwitchChain | src/pages/gd/Claim/ClaimBalance.tsx:55-63 | The request targets the other chain; code 4902 toggles the network dialog; any other rejection changes nothing |
| Web3Status.Insert | src/components/Web3Status/index.tsx:30 | Inserting adds exactly the one element |
| Web3Status.NewTransactionsFirst | src/components/Web3Status/index.tsx:15-17 | The comparator; specified by `InsertNewestFirst` and `SortIsNewestFirst` |
| Web3Status.SortNewestFirst | src/components/Web3Status/index.tsx:30 | The sort is a permutation |
| Web3Status.InsertNewestFirst | src/components/Web3Status/index.tsx:15-17 | Inserting by the comparator into a newest-first list keeps it newest first |
| Web3Status.SortIsNewestFirst | src/components/Web3Status/index.tsx:28-31 | The sorted list is newest first by `addedTime` |
| Web3Status.Filter | src/components/Web3Status/index.tsx:30 | A filter never lengthens the list |
| Web3Status.FilterMember | src/components/Web3Status/index.tsx:30 | An element is kept iff it is in the list and satisfies the predicate |
| Web3Status.FilterKeepsNewestFirst | src/components/Web3Status/index.tsx:33 | Filtering a newest-first list keeps it newest first |
| Web3Status.Hashes | src/components/Web3Status/index.tsx:33 | The hash list is the list of each transaction's hash, in order |
| Web3Status.HashesMember | src/components/Web3Status/index.tsx:75-76 | A hash is listed iff some transaction has it |
| Web3Status.SplitByReceipt | src/components/Web3Status/index.tsx:75-76 | The receipt-less and receipt filters together are a permutation of the list |
| Web3Status.SortKeepsHashes | src/components/Web3Status/index.tsx:72 | Sorting keeps every hash, as often as before |
| Web3Status.InsertKeepsHashes | src/components/Web3Status/index.tsx:72 | Inserting adds exactly one hash |
| Web3Status.MembershipIff | src/components/Web3Status/index.tsx:70-76 | A hash is pending iff a recent transaction without a receipt has it, and confirmed iff a recent one with a receipt has it |
| Web3Status.PendingConfirmedPartition | src/components/Web3Status/index.tsx:70-76 | Pending is newest first; pending and confirmed together are exactly the recent hashes; with hashes unique they are disjoint and no non-recent transaction appears |
| Web3Status.SortedRecent | src/components/Web3Status/index.tsx:28-31 | The recent transactions, newest first; specified by `PendingConfirmedPartition` and `MembershipIff` |
| Web3Status.PendingTxs | src/components/Web3Status/index.tsx:70-75 | The receipt-less recent transactions; specified by `MembershipIff` and `PendingConfirmedPartition` |
| Web3Status.DisplayChoice | src/components/Web3Status/index.tsx:41-60 | With an account: the pending count iff something is pending, else the ENS name, else the short address; without one, the connect button |
| Web3Status.Pending | src/components/Web3Status/index.tsx:75 | The pending hashes; specified by `MembershipIff` and `PendingConfirmedPartition` |
| Web3Status.Confirmed | src/components/Web3Status/index.tsx:76 | The confirmed hashes; specified by `MembershipIff` and `PendingConfirmedPartition` |
| Web3Status.Display | src/components/Web3Status/index.tsx:41-60 | What the indicator shows; specified by `DisplayChoice` |
| App.UtmRewriteSpec | src/pages/App.tsx:50-56 | A rewrite happens iff a non-empty source is preserved and the query lacks `utm_source`; it appends with `&` or `?`, keeps the old query as a prefix, and a second run changes nothing |
| App.WithSource | src/pages/App.tsx:53-55 | The search string with `utm_source` appended; specified by `UtmRewriteSpec` |
| App.UtmRewrite | src/pages/App.tsx:50-56 | The rewrite asked of the router; specified by `UtmRewriteSpec` |
| App.AppShell.constructor | src/pages/App.tsx:41 | The preserved source starts as the empty string |
| App.AppShell.UtmEffect | src/pages/App.tsx:43-58 | The source is updated iff the parsed value differs; the rewrite uses the value the effect started with |
| App.ThemeDecision | src/pages/App.tsx:82-100 | `light` gives dark mode off and `dark` on, whatever the case; a short query or a missing, non-string or other theme dispatches nothing |
| App.ThemeDarkMode | src/pages/App.tsx:82-100 | The dark-mode flag dispatched; specified by `ThemeDecision` |
| Swap.SwapChoice | src/pages/gd/Swap/index.tsx:13-26 | A widget renders iff the chain is mapped and its own flag is on; FUSE and MAINNET give the core swap, CELO gives Uniswap; an unmapped chain or a missing payload renders nothing |
| Swap.SwapComponentMapping | src/pages/gd/Swap/index.tsx:15-21 | The chain-to-widget table with each entry's flag; specified by `SwapChoice` |
| Swap.RenderedSwap | src/pages/gd/Swap/index.tsx:21-26 | The widget rendered; specified by `SwapChoice` |

## Left out

- SDK and wallet calls (`withdraw`, `transfer`, `claim`, `send`, `connect`, `switchNetwork`, the balance and claim hooks) are parameters: their outcome is an argument of the method that awaits them.
- A rejection of `send()` inside `handleClaim` is not modelled. It escapes the handler and changes nothing the page keeps except the cadence, which is already every block.
- A rejection of `await connect()` inside `handleConnect` is not modelled. It escapes the handler before the dialog or the return value.
- `SET_ERROR` stores `action.payload.message`. A thrown value that is not an `Error` stores `undefined`, and a thrown `null` makes the reducer throw. The model's `SetError` always carries a string.
- `handleWithdraw` reads `web3` and `stake` through a stale closure: its dependency list omits both. The model passes the web3 presence the handler sees as a parameter, and the request it returns does not carry the stake.
- The claim flag `enabled` is read through a stale closure in `handleClaim` and `handleConnect`. The model passes the value the handler sees as a parameter.
- Floating-point scaling and formatting (`toFixed(2)`, `parseFloat(...) * 1e2`, `parseInt`, `formatNumber`) are not modelled. The savings modal's own `withdrawAmount` is not modelled either, so a computed `withdraw` call carries no amount.
- Withdraw.WithdrawAmount: computes on exact reals, without floating-point rounding.
- Strings.DecimalValue: covers strings of decimal digits only. `Number`'s other forms (whitespace, signs, exponents, hexadecimal) are treated as not a number, because the percentage controls produce only digits.
- Strings.ToLower: folds ASCII letters only. JavaScript's `toLowerCase` follows Unicode, which also folds non-ASCII letters and can change the length; modelling the Unicode tables is out of scope.
- App.ThemeDecision: a theme that only Unicode folding turns into `light` or `dark` dispatches nothing in the model, while the source dispatches. An example is `DAR` followed by U+212A KELVIN SIGN, which JavaScript lower-cases to `dark`.
- The `qs` parser is not modelled. The utm effect receives what it parsed for `utm_source` as an option of a string, so an array value parsed from a repeated key is not modelled. The theme effect receives a value that is a string or not.
- Internationalised copy is not modelled. The savings summary is kept as the amount (possibly absent) followed by the type's copy, because how the translation layer renders an absent amount is not visible here.
- Web3Status.SortNewestFirst: its contract states the newest-first order and the permutation, not stability. `Array.prototype.sort` is stable, so the source keeps transactions added at the same time in store order; the model does not state the order of such ties.
- The analytics backend, PostHog and ReactGA are logs of events at most. Page views are not modelled.
- React scheduling is not modelled: effect timing, batching, and callbacks that fire after unmount. An effect is a method the caller runs when its dependencies change.
- Rendering and styles are not modelled, apart from the display choices stated above.
- The BuyGD page and the savings card row contain no local logic and are not part of this model.
- What counts as a recent transaction (`isTransactionRecent`) is a parameter.
