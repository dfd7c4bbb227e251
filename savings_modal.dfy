/** The savings modal: a reducer over the modal's record state, the choice of title
    and screen, the choice of submission path, and the click flow that brackets one
    submission with two loading toggles (`withLoading`). */
module SavingsModal {
  import opened Wrappers
  import opened Transactions

  /** The three operations the modal is opened for. */
  datatype ModalType = deposit | withdraw | claim

  datatype Token = A | B

  /** The reducer's state record. */
  datatype ModalState = ModalState(
    token: Token,
    value: string,
    dollarEquivalent: Option<string>,
    approved: bool,
    signed: bool,
    loading: bool,
    error: Option<string>,
    done: bool,
    transactionHash: Option<string>)

  const InitialState := ModalState(A, "", None, false, false, false, None, false, None)

  /** The reducer's tagged actions, each with its payload. */
  datatype Action =
    | ToggleInit
    | ToggleToken(isB: bool)
    | ToggleLoading
    | ChangeValue(text: string)
    | SetError(message: string)
    | Done(hash: string)

  /** The part of the state the user edits in the form. */
  function FormOf(s: ModalState): (Token, string) {
    (s.token, s.value)
  }

  /** The part of the state that tracks the submission. */
  function FlowOf(s: ModalState): (bool, Option<string>, bool, bool, Option<string>) {
    (s.loading, s.error, s.done, s.signed, s.transactionHash)
  }

  /** The reducer. No action touches `dollarEquivalent` or `approved`; the two form
      actions leave the submission part alone and every other action leaves the
      form part alone. */
  function Reduce(s: ModalState, a: Action): (r: ModalState)
    ensures r.dollarEquivalent == s.dollarEquivalent && r.approved == s.approved
    ensures (a.ToggleToken? || a.ChangeValue?) ==> FlowOf(r) == FlowOf(s)
    ensures !(a.ToggleToken? || a.ChangeValue?) ==> FormOf(r) == FormOf(s)
  {
    match a
    case ToggleInit =>
      s.(error := None, loading := false, done := false, signed := false, transactionHash := None)
    case ToggleToken(isB) =>
      s.(token := if isB then B else A)
    case ChangeValue(text) =>
      s.(value := text)
    case ToggleLoading =>
      s.(error := if s.loading then s.error else None, loading := !s.loading)
    case SetError(message) =>
      s.(error := Some(message))
    case Done(hash) =>
      s.(done := true, signed := true, transactionHash := Some(hash))
  }

  /** The state reached by dispatching `acts` in order, starting from `s`. */
  function Run(s: ModalState, acts: seq<Action>): ModalState
    decreases |acts|
  {
    if acts == [] then s else Run(Reduce(s, acts[0]), acts[1..])
  }

  /** Dispatching two batches in turn is dispatching their concatenation. */
  lemma {:induction false} RunAppend(s: ModalState, a: seq<Action>, b: seq<Action>)
    ensures Run(s, a + b) == Run(Run(s, a), b)
    decreases |a|
  {
    if a == [] {
      assert a + b == b;
    } else {
      assert (a + b)[1..] == a[1..] + b;
      RunAppend(Reduce(s, a[0]), a[1..], b);
    }
  }

  /** `TOGGLE_INIT` restores the submission part to its initial value, keeps the form,
      and is idempotent. */
  lemma ToggleInitResets(s: ModalState)
    ensures FlowOf(Reduce(s, ToggleInit)) == FlowOf(InitialState)
    ensures FormOf(Reduce(s, ToggleInit)) == FormOf(s)
    ensures Reduce(Reduce(s, ToggleInit), ToggleInit) == Reduce(s, ToggleInit)
  {
  }

  /** `TOGGLE_TOKEN` selects token B exactly when its payload is true, changes only the
      token, and the last selection wins. */
  lemma ToggleTokenSelects(s: ModalState, isB: bool, isB': bool)
    ensures Reduce(s, ToggleToken(isB)).token == B <==> isB
    ensures Reduce(s, ToggleToken(isB)) == s.(token := Reduce(s, ToggleToken(isB)).token)
    ensures Reduce(Reduce(s, ToggleToken(isB)), ToggleToken(isB')) == Reduce(s, ToggleToken(isB'))
  {
  }

  /** `CHANGE_VALUE` changes only the value, and the last edit wins. */
  lemma ChangeValueOnlyValue(s: ModalState, v: string, w: string)
    ensures Reduce(s, ChangeValue(v)) == s.(value := v)
    ensures Reduce(Reduce(s, ChangeValue(v)), ChangeValue(w)) == Reduce(s, ChangeValue(w))
  {
  }

  /** `TOGGLE_LOADING` negates `loading`; it clears the error when loading turns on and
      keeps it when loading turns off. Two toggles restore `loading`. */
  lemma ToggleLoadingFlips(s: ModalState)
    ensures Reduce(s, ToggleLoading).loading == !s.loading
    ensures Reduce(s, ToggleLoading).error == if s.loading then s.error else None
    ensures Reduce(s, ToggleLoading) == s.(loading := !s.loading, error := Reduce(s, ToggleLoading).error)
    ensures Run(s, [ToggleLoading, ToggleLoading]).loading == s.loading
  {
    assert [ToggleLoading, ToggleLoading][1..] == [ToggleLoading];
  }

  /** `SET_ERROR` records only the message; `DONE` marks the submission done and
      signed and records the hash, and nothing else. */
  lemma SetErrorAndDone(s: ModalState, m: string, h: string)
    ensures Reduce(s, SetError(m)) == s.(error := Some(m))
    ensures Reduce(s, Done(h)) == s.(done := true, signed := true, transactionHash := Some(h))
    ensures ScreenOf(Reduce(s, Done(h))) == SuccessScreen
  {
  }

  /** Actions a submission callback may dispatch between the two loading toggles. */
  predicate KeepsLoading(a: Action) {
    !a.ToggleLoading? && !a.ToggleInit?
  }

  lemma {:induction false} RunKeepsLoading(s: ModalState, acts: seq<Action>)
    requires forall i :: 0 <= i < |acts| ==> KeepsLoading(acts[i])
    ensures Run(s, acts).loading == s.loading
    decreases |acts|
  {
    if acts != [] {
      RunKeepsLoading(Reduce(s, acts[0]), acts[1..]);
    }
  }

  /** `withLoading`: whatever the callback dispatches in between (other than the two
      loading-related actions), loading ends where it started. */
  lemma WithLoadingRestoresLoading(s: ModalState, inner: seq<Action>)
    requires forall i :: 0 <= i < |inner| ==> KeepsLoading(inner[i])
    ensures Run(s, [ToggleLoading] + inner + [ToggleLoading]).loading == s.loading
  {
    RunAppend(s, [ToggleLoading] + inner, [ToggleLoading]);
    RunAppend(s, [ToggleLoading], inner);
    RunKeepsLoading(Reduce(s, ToggleLoading), inner);
    assert [ToggleLoading][1..] == [];
    assert [ToggleLoading] + inner + [ToggleLoading] == ([ToggleLoading] + inner) + [ToggleLoading];
  }

  /** `withLoading` with a callback that throws: the recorded message survives the
      closing toggle when the bracket started with loading off, and is wiped by
      it when loading was already on. */
  lemma WithLoadingKeepsError(s: ModalState, inner: seq<Action>, m: string)
    requires forall i :: 0 <= i < |inner| ==> KeepsLoading(inner[i])
    ensures Run(s, [ToggleLoading] + inner + [SetError(m), ToggleLoading]).error
            == if s.loading then None else Some(m)
  {
    var mid := Run(s, [ToggleLoading] + inner);
    RunAppend(s, [ToggleLoading] + inner, [SetError(m), ToggleLoading]);
    RunAppend(s, [ToggleLoading], inner);
    RunKeepsLoading(Reduce(s, ToggleLoading), inner);
    assert [ToggleLoading][1..] == [];
    assert [SetError(m), ToggleLoading][1..] == [ToggleLoading];
    assert [ToggleLoading] + inner + [SetError(m), ToggleLoading]
        == ([ToggleLoading] + inner) + [SetError(m), ToggleLoading];
    assert mid.loading == !s.loading;
  }

  // ---- Title and screen ------------------------------------------------------

  datatype Screen = LoadingScreen | SuccessScreen | FormScreen
  datatype TitleCopy = InitTitle | LoadingTitle | DoneTitle

  function ScreenOf(s: ModalState): Screen {
    if s.loading && !s.done then LoadingScreen
    else if s.done then SuccessScreen
    else FormScreen
  }

  function TitleOf(s: ModalState): TitleCopy {
    if s.loading && !s.done then LoadingTitle
    else if s.done then DoneTitle
    else InitTitle
  }

  /** The title copy of each operation. */
  function TitleText(t: ModalType, c: TitleCopy): string {
    match (t, c)
    case (deposit, InitTitle) => "Deposit to Savings Account"
    case (deposit, LoadingTitle) => "Depositing. . ."
    case (deposit, DoneTitle) => "Well Done!"
    case (withdraw, InitTitle) => "Withdraw from Savings account"
    case (withdraw, LoadingTitle) => "Withdrawing. . ."
    case (withdraw, DoneTitle) => "Success"
    case (claim, InitTitle) => "Claim Rewards"
    case (claim, LoadingTitle) => "Claiming. . ."
    case (claim, DoneTitle) => "Success"
  }

  /** The title and the screen always agree: the spinner goes with the loading copy
      while loading and not done, the success screen with the done copy once done,
      and the form with the init copy otherwise; within one operation the three
      titles differ, so the title tells the phase. */
  lemma TitleMatchesScreen(s: ModalState, t: ModalType)
    ensures ScreenOf(s) == LoadingScreen <==> TitleOf(s) == LoadingTitle
    ensures ScreenOf(s) == SuccessScreen <==> TitleOf(s) == DoneTitle
    ensures ScreenOf(s) == FormScreen <==> TitleOf(s) == InitTitle
    ensures ScreenOf(s) == LoadingScreen <==> s.loading && !s.done
    ensures ScreenOf(s) == SuccessScreen <==> s.done
    ensures ScreenOf(s) == FormScreen <==> !s.loading && !s.done
    ensures forall c, c' :: TitleText(t, c) == TitleText(t, c') ==> c == c'
  {
  }

  // ---- Submission path -------------------------------------------------------

  /** The three submission helpers the button can call. */
  datatype Submission = ClaimRewards | WithdrawAll | DepositOrWithdraw(amount: string)

  /** The SDK call a helper makes. Amounts of `transfer` and of the computed
      `withdraw` are scaled with floating point, which is not modelled: the transfer
      keeps the typed value, the computed withdraw keeps nothing. */
  datatype SdkCall =
    | TransferCall(value: string)
    | WithdrawCall
    | WithdrawAllCall(balance: string, account: string)
    | ClaimCall

  /** The SDK functions whose call states the modal can watch. */
  datatype SdkFunction = TransferFn | WithdrawFn | ClaimFn

  /** The button's dispatch: claim rewards for a claim modal, otherwise withdraw
      everything at percentage `'100'` and deposit or withdraw the amount otherwise. */
  function SubmissionFor(t: ModalType, percentage: string, value: string): Submission {
    if t == claim then ClaimRewards
    else if percentage == "100" then WithdrawAll
    else DepositOrWithdraw(value)
  }

  function SdkCallOf(t: ModalType, sub: Submission, savingsBalance: string, account: string): SdkCall {
    match sub
    case ClaimRewards => ClaimCall
    case WithdrawAll => WithdrawAllCall(savingsBalance, account)
    case DepositOrWithdraw(v) => if t == withdraw then WithdrawCall else TransferCall(v)
  }

  function CalledFunction(c: SdkCall): SdkFunction {
    match c
    case TransferCall(_) => TransferFn
    case WithdrawCall => WithdrawFn
    case WithdrawAllCall(_, _) => WithdrawFn
    case ClaimCall => ClaimFn
  }

  /** The call whose state the status effect watches, per operation. */
  function WatchedFunction(t: ModalType): SdkFunction {
    match t
    case deposit => TransferFn
    case withdraw => WithdrawFn
    case claim => ClaimFn
  }

  /** The amount written into the stored transaction's summary. */
  function SummaryAmount(sub: Submission, savingsBalance: string): Option<string> {
    match sub
    case ClaimRewards => None
    case WithdrawAll => Some(savingsBalance)
    case DepositOrWithdraw(v) => Some(v)
  }

  function CopySummary(t: ModalType): string {
    match t
    case deposit => "G$ deposited to savings"
    case withdraw => "G$ withdrawn from savings"
    case claim => "Claimed savings rewards"
  }

  /** What a click stores in the summary: a claim stores no amount, a withdrawal of
      everything stores the savings balance, anything else the typed value; the
      three copies differ, so the summary tells the operation. */
  lemma StoredSummary(t: ModalType, percentage: string, value: string, balance: string)
    ensures SummaryAmount(SubmissionFor(t, percentage, value), balance)
            == if t == claim then None else if percentage == "100" then Some(balance) else Some(value)
    ensures forall t' :: CopySummary(t) == CopySummary(t') ==> t == t'
  {
  }

  /** The dispatch calls `claim` for a claim modal, `withdraw` with the whole savings
      balance at percentage `'100'`, and `withdraw` or `transfer` by type otherwise;
      the call it makes is the one the status effect watches, except for a deposit
      modal whose percentage is `'100'`. */
  lemma SubmissionCallsWatched(t: ModalType, percentage: string, value: string, balance: string, account: string)
    ensures t == claim ==> SdkCallOf(t, SubmissionFor(t, percentage, value), balance, account) == ClaimCall
    ensures t != claim && percentage == "100" ==>
              SdkCallOf(t, SubmissionFor(t, percentage, value), balance, account) == WithdrawAllCall(balance, account)
    ensures t == deposit && percentage != "100" ==>
              SdkCallOf(t, SubmissionFor(t, percentage, value), balance, account) == TransferCall(value)
    ensures t == withdraw && percentage != "100" ==>
              SdkCallOf(t, SubmissionFor(t, percentage, value), balance, account) == WithdrawCall
    ensures CalledFunction(SdkCallOf(t, SubmissionFor(t, percentage, value), balance, account)) == WatchedFunction(t)
            <==> !(t == deposit && percentage == "100")
  {
  }

  /** The status effect: the state of the call that belongs to the modal's type. */
  function WatchedStatus(t: ModalType, transferState: TransactionStatus, withdrawState: TransactionStatus,
                         claimState: TransactionStatus): TransactionStatus
  {
    if t == deposit then transferState
    else if t == withdraw then withdrawState
    else claimState
  }

  lemma WatchedStatusFollowsFunction(t: ModalType, ts: TransactionStatus, ws: TransactionStatus, cs: TransactionStatus)
    ensures WatchedStatus(t, ts, ws, cs)
            == match WatchedFunction(t) case TransferFn => ts case WithdrawFn => ws case ClaimFn => cs
  {
  }

  /** The error line above the screen: shown only for an `Exception` status that
      carries a non-empty message. */
  function ErrorBanner(s: TransactionStatus): Option<string> {
    if s.status == Exception && s.errorMessage.Some? && s.errorMessage.value != "" then s.errorMessage else None
  }

  /** The banner reports only the watched call: a failure of any other call never
      shows. So a deposit modal at `'100'`, which calls `withdraw`, never shows that
      call's failure, while its transfer status, untouched, shows nothing. */
  lemma ErrorBannerWatched(t: ModalType, ts: TransactionStatus, ws: TransactionStatus, cs: TransactionStatus,
                           message: string)
    requires message != ""
    ensures ErrorBanner(WatchedStatus(t, ts, ws, cs))
            == ErrorBanner(match WatchedFunction(t) case TransferFn => ts case WithdrawFn => ws case ClaimFn => cs)
    ensures ErrorBanner(WatchedStatus(deposit, TransactionStatus(Idle, None), TransactionStatus(Exception, Some(message)), cs))
            == None
    ensures ErrorBanner(WatchedStatus(withdraw, ts, TransactionStatus(Exception, Some(message)), cs)) == Some(message)
  {
    WatchedStatusFollowsFunction(t, ts, ws, cs);
  }

  // ---- Click flow ------------------------------------------------------------

  /** What the SDK call of one submission yields. */
  datatype CallOutcome = Receipt(hash: string, from: string) | NoReceipt | Rejected(message: string)

  /** `if (account)`: an account is present and is not the empty string. */
  predicate Connected(account: Option<string>) {
    account.Some? && account.value != ""
  }

  /** The actions a click dispatches between the two loading toggles: `DONE` for a
      receipt, `SET_ERROR` for a rejection, nothing without an account or a receipt. */
  function CallbackActions(account: Option<string>, outcome: CallOutcome): seq<Action> {
    if !Connected(account) then []
    else match outcome
      case Receipt(h, _) => [Done(h)]
      case NoReceipt => []
      case Rejected(m) => [SetError(m)]
  }

  /** The actions one click dispatches, in order. */
  function ClickTrace(account: Option<string>, outcome: CallOutcome): seq<Action> {
    [ToggleLoading] + CallbackActions(account, outcome) + [ToggleLoading]
  }

  function CountDone(acts: seq<Action>): nat
    decreases |acts|
  {
    if acts == [] then 0 else (if acts[0].Done? then 1 else 0) + CountDone(acts[1..])
  }

  /** What one click does to a modal showing its form: loading ends off and the form
      is untouched. A receipt (with an account) dispatches exactly one `DONE`, which
      leaves the success screen up with the hash recorded; a rejection records its
      message and the form stays; anything else changes nothing but the stale
      error, which the opening toggle clears. */
  lemma ClickOutcome(s: ModalState, account: Option<string>, outcome: CallOutcome)
    requires ScreenOf(s) == FormScreen
    ensures Run(s, ClickTrace(account, outcome)).loading == false
    ensures FormOf(Run(s, ClickTrace(account, outcome))) == FormOf(s)
    ensures CountDone(ClickTrace(account, outcome)) == if Connected(account) && outcome.Receipt? then 1 else 0
    ensures Connected(account) && outcome.Receipt? ==>
              Run(s, ClickTrace(account, outcome))
              == s.(error := None, done := true, signed := true, transactionHash := Some(outcome.hash))
    ensures Connected(account) && outcome.Rejected? ==>
              Run(s, ClickTrace(account, outcome)) == s.(error := Some(outcome.message))
    ensures !Connected(account) || outcome.NoReceipt? ==>
              Run(s, ClickTrace(account, outcome)) == s.(error := None)
  {
    var trace := ClickTrace(account, outcome);
    if Connected(account) && outcome.Receipt? {
      assert trace == [ToggleLoading, Done(outcome.hash), ToggleLoading];
      RunThree(s, ToggleLoading, Done(outcome.hash), ToggleLoading);
    } else if Connected(account) && outcome.Rejected? {
      assert trace == [ToggleLoading, SetError(outcome.message), ToggleLoading];
      RunThree(s, ToggleLoading, SetError(outcome.message), ToggleLoading);
    } else {
      assert trace == [ToggleLoading, ToggleLoading];
      RunTwo(s, ToggleLoading, ToggleLoading);
    }
  }

  /** Dismissing the modal while the SDK call is awaited puts `TOGGLE_INIT` between
      the two toggles: the closing toggle then turns loading back on. Without a
      receipt the modal is left on its loading screen with no submission running;
      with one, `DONE` shows the success screen while loading stays on. */
  lemma DismissDuringSubmission(s: ModalState, hash: string)
    requires ScreenOf(s) == FormScreen
    ensures Run(s, [ToggleLoading, ToggleInit, ToggleLoading]).loading
    ensures ScreenOf(Run(s, [ToggleLoading, ToggleInit, ToggleLoading])) == LoadingScreen
    ensures Run(s, [ToggleLoading, ToggleInit, Done(hash), ToggleLoading]).loading
    ensures ScreenOf(Run(s, [ToggleLoading, ToggleInit, Done(hash), ToggleLoading])) == SuccessScreen
  {
    RunThree(s, ToggleLoading, ToggleInit, ToggleLoading);
    assert [ToggleLoading, ToggleInit, Done(hash), ToggleLoading][1..] == [ToggleInit, Done(hash), ToggleLoading];
    RunThree(Reduce(s, ToggleLoading), ToggleInit, Done(hash), ToggleLoading);
  }

  /** Dispatching one action. */
  lemma RunOne(s: ModalState, a: Action)
    ensures Run(s, [a]) == Reduce(s, a)
  {
    assert [a][1..] == [];
  }

  /** A click's trace: the opening toggle, the callback's actions, the closing toggle. */
  lemma ClickTraceRun(s: ModalState, account: Option<string>, outcome: CallOutcome)
    ensures Run(s, ClickTrace(account, outcome))
            == Reduce(Run(Reduce(s, ToggleLoading), CallbackActions(account, outcome)), ToggleLoading)
  {
    var cb := CallbackActions(account, outcome);
    RunAppend(s, [ToggleLoading] + cb, [ToggleLoading]);
    RunAppend(s, [ToggleLoading], cb);
    RunOne(s, ToggleLoading);
    RunOne(Run(s, [ToggleLoading] + cb), ToggleLoading);
  }

  /** Dispatching two actions, written out. */
  lemma RunTwo(s: ModalState, a: Action, b: Action)
    ensures Run(s, [a, b]) == Reduce(Reduce(s, a), b)
    ensures CountDone([a, b]) == (if a.Done? then 1 else 0) + (if b.Done? then 1 else 0)
  {
    assert [a, b][1..] == [b];
    assert [b][1..] == [];
    assert Run(Reduce(s, a), [b]) == Run(Reduce(Reduce(s, a), b), []);
    assert CountDone([b]) == (if b.Done? then 1 else 0) + CountDone([]);
  }

  /** Dispatching three actions, written out. */
  lemma RunThree(s: ModalState, a: Action, b: Action, c: Action)
    ensures Run(s, [a, b, c]) == Reduce(Reduce(Reduce(s, a), b), c)
    ensures CountDone([a, b, c]) == (if a.Done? then 1 else 0) + (if b.Done? then 1 else 0) + (if c.Done? then 1 else 0)
  {
    assert [a, b, c][1..] == [b, c];
    RunTwo(Reduce(s, a), b, c);
  }

  /** The chain id the savings flow writes into stored transactions (hard-coded). */
  const SavingsChainId: int := 122

  /** One mounted savings modal: the reducer state with the log of dispatched actions,
      the component's other state, and logs of the SDK calls made and of the records
      handed to the transaction store. */
  class SavingsModalView {
    var modalType: ModalType
    var state: ModalState
    var dispatched: seq<Action>
    var percentage: string
    var balance: Option<string>
    var txStatus: TransactionStatus
    var open: bool
    var calls: seq<SdkCall>
    var added: seq<NewTransaction>

    /** The state is the reducer applied to every action dispatched so far. */
    ghost predicate Valid()
      reads this
    {
      state == Run(InitialState, dispatched)
    }

    constructor (t: ModalType, isOpen: bool)
      ensures Valid()
      ensures modalType == t && state == InitialState && dispatched == []
      ensures percentage == "50" && balance == Some("0") && txStatus == TransactionStatus(Idle, None)
      ensures open == isOpen && calls == [] && added == []
    {
      modalType := t;
      state := InitialState;
      dispatched := [];
      percentage := "50";
      balance := Some("0");
      txStatus := TransactionStatus(Idle, None);
      open := isOpen;
      calls := [];
      added := [];
    }

    /** The parent renders the same instance with another type. Nothing resets: the
        reducer state and the percentage are kept. The balance and status effects
        depend on the type and run afterwards (`SyncBalance`, `SyncTxStatus`). */
    method SetType(t: ModalType)
      requires Valid()
      modifies this`modalType
      ensures Valid() && modalType == t
    {
      modalType := t;
    }

    method Dispatch(a: Action)
      requires Valid()
      modifies this`state, this`dispatched
      ensures Valid()
      ensures state == Reduce(old(state), a) && dispatched == old(dispatched) + [a]
    {
      RunAppend(InitialState, dispatched, [a]);
      assert [a][1..] == [];
      state := Reduce(state, a);
      dispatched := dispatched + [a];
    }

    /** The balance effect: the savings balance for a withdraw modal, the wallet
        balance otherwise. */
    method SyncBalance(walletBalance: Option<string>, savingsBalance: Option<string>)
      requires Valid()
      modifies this`balance
      ensures Valid()
      ensures balance == if modalType == withdraw then savingsBalance else walletBalance
    {
      balance := if modalType == withdraw then savingsBalance else walletBalance;
    }

    /** Typing into the amount input of the deposit form. */
    method EditValue(text: string)
      requires Valid() && modalType == deposit && ScreenOf(state) == FormScreen
      modifies this`state, this`dispatched
      ensures Valid()
      ensures state == old(state).(value := text) && dispatched == old(dispatched) + [ChangeValue(text)]
    {
      Dispatch(ChangeValue(text));
    }

    /** The input's max button: the balance, or `'0'` when there is none. */
    method MaxValue()
      requires Valid() && modalType == deposit && ScreenOf(state) == FormScreen
      modifies this`state, this`dispatched
      ensures Valid()
      ensures state == old(state).(value := balance.GetOr("0"))
      ensures dispatched == old(dispatched) + [ChangeValue(balance.GetOr("0"))]
    {
      Dispatch(ChangeValue(balance.GetOr("0")));
    }

    /** The percentage control, present on the withdraw form only. */
    method ChangePercentage(p: string)
      requires Valid() && modalType == withdraw && ScreenOf(state) == FormScreen
      modifies this`percentage
      ensures Valid() && percentage == p
    {
      percentage := p;
    }

    /** The status effect. */
    method SyncTxStatus(transferState: TransactionStatus, withdrawState: TransactionStatus,
                        claimState: TransactionStatus)
      requires Valid()
      modifies this`txStatus
      ensures Valid()
      ensures txStatus == WatchedStatus(modalType, transferState, withdrawState, claimState)
    {
      if modalType == deposit {
        txStatus := transferState;
      } else if modalType == withdraw {
        txStatus := withdrawState;
      } else {
        txStatus := claimState;
      }
    }

    /** The parent's `toggle`: opens or closes the modal and nothing else. */
    method Toggle()
      requires Valid()
      modifies this`open
      ensures Valid() && open == !old(open)
    {
      open := !open;
    }

    /** Dismissing the modal: `TOGGLE_INIT`, then the parent's toggle. */
    method Dismiss()
      requires Valid()
      modifies this`state, this`dispatched, this`open
      ensures Valid()
      ensures state == Reduce(old(state), ToggleInit) && dispatched == old(dispatched) + [ToggleInit]
      ensures open == !old(open)
    {
      Dispatch(ToggleInit);
      Toggle();
    }

    /** `addSavingsTransaction`: `DONE` with the hash, then one store record. */
    method AddSavingsTransaction(hash: string, from: string, amount: Option<string>)
      requires Valid()
      modifies this`state, this`dispatched, this`added
      ensures Valid()
      ensures state == Reduce(old(state), Done(hash)) && dispatched == old(dispatched) + [Done(hash)]
      ensures added == old(added) + [NewTransaction(SavingsChainId, hash, from, AmountThen(amount, CopySummary(modalType)))]
    {
      Dispatch(Done(hash));
      added := added + [NewTransaction(SavingsChainId, hash, from, AmountThen(amount, CopySummary(modalType)))];
    }

    /** The submission helpers (`claimRewards`, `withdrawAll`, `depositOrWithdraw`):
        with a connected account, one SDK call, then a stored transaction for a
        receipt or the error for a rejection; without one, nothing. */
    method RunSubmission(account: Option<string>, sub: Submission, savingsBalance: string, outcome: CallOutcome)
      requires Valid()
      modifies this`state, this`dispatched, this`calls, this`added
      ensures Valid()
      ensures dispatched == old(dispatched) + CallbackActions(account, outcome)
      ensures state == Run(old(state), CallbackActions(account, outcome))
      ensures calls == old(calls) + if Connected(account) then [SdkCallOf(modalType, sub, savingsBalance, account.value)] else []
      ensures added == old(added) +
        if Connected(account) && outcome.Receipt?
        then [NewTransaction(SavingsChainId, outcome.hash, outcome.from,
                AmountThen(SummaryAmount(sub, savingsBalance), CopySummary(modalType)))]
        else []
    {
      if Connected(account) {
        calls := calls + [SdkCallOf(modalType, sub, savingsBalance, account.value)];
        match outcome {
          case Receipt(h, f) =>
            RunOne(state, Done(h));
            AddSavingsTransaction(h, f, SummaryAmount(sub, savingsBalance));
          case NoReceipt =>
          case Rejected(m) =>
            RunOne(state, SetError(m));
            Dispatch(SetError(m));
        }
      }
    }

    /** The button's click handler: the submission chosen by `SubmissionFor`, run
        inside `withLoading`. Only a connected account lets a helper call the SDK; the call's
        outcome is a parameter. The button exists only on the form screen. */
    method Click(account: Option<string>, savingsBalance: string, outcome: CallOutcome)
      requires Valid() && ScreenOf(state) == FormScreen
      modifies this`state, this`dispatched, this`calls, this`added
      ensures Valid()
      ensures dispatched == old(dispatched) + ClickTrace(account, outcome)
      ensures state == Run(old(state), ClickTrace(account, outcome))
      ensures calls == old(calls) +
        if Connected(account)
        then [SdkCallOf(modalType, SubmissionFor(modalType, percentage, old(state).value), savingsBalance, account.value)]
        else []
      ensures added == old(added) +
        if Connected(account) && outcome.Receipt?
        then [NewTransaction(SavingsChainId, outcome.hash, outcome.from,
                AmountThen(SummaryAmount(SubmissionFor(modalType, percentage, old(state).value), savingsBalance),
                           CopySummary(modalType)))]
        else []
      ensures Connected(account) ==> |calls| > 0
      ensures Connected(account) ==>
                (CalledFunction(calls[|calls| - 1]) == WatchedFunction(modalType)
                 <==> !(modalType == deposit && percentage == "100"))
    {
      ghost var s0, d0 := state, dispatched;
      var sub := SubmissionFor(modalType, percentage, state.value);
      SubmissionCallsWatched(modalType, percentage, state.value, savingsBalance, account.GetOr(""));
      Dispatch(ToggleLoading);
      RunSubmission(account, sub, savingsBalance, outcome);
      Dispatch(ToggleLoading);
      ClickTraceRun(s0, account, outcome);
      RunAppend(InitialState, d0, ClickTrace(account, outcome));
    }
  }
  /** One instance shown for a withdrawal at `'100'`, dismissed, and shown again as a
      deposit: the percentage survives, so the deposit's click calls `withdraw` for
      the whole savings balance while the status effect watches `transfer`. */
  method ReusedAsDeposit() returns (view: SavingsModalView)
    ensures view.open && view.modalType == deposit && view.percentage == "100"
    ensures |view.calls| == 1 && view.calls[0] == WithdrawAllCall("10", "0xacc")
    ensures CalledFunction(view.calls[0]) != WatchedFunction(view.modalType)
  {
    view := new SavingsModalView(withdraw, true);
    view.ChangePercentage("100");
    view.Dismiss();
    view.SetType(deposit);
    view.Toggle();
    view.Click(Some("0xacc"), "10", NoReceipt);
  }
}
