/** The withdraw modal: a four-phase machine driven by the submit handler, the three
    callbacks handed to the SDK's `withdraw`, the close handler and the re-open effect. */
module Withdraw {
  import opened Wrappers
  import opened Strings
  import opened Transactions

  /** The modal's phase. The source spells them `'none'` (`Ready`: the form, nothing
      submitted), `'pending'`, `'send'` (`Sent`: the hash arrived) and `'success'`
      (`Succeeded`: confirmed). */
  datatype WithdrawState = Ready | Pending | Sent | Succeeded

  /** What can happen to the modal's phase. */
  datatype WithdrawEvent =
    | Submit        // `handleWithdraw` with a web3 client, before the SDK call
    | HashReceived  // the SDK's transaction-hash callback
    | Confirmed     // the SDK's confirmation callback
    | Failed        // the SDK's error callback
    | Threw         // the SDK call threw
    | Closed        // `handleClose`
    | Reopened      // the open effect, on the modal being opened

  /** The transition table. Every event sets the phase outright: callbacks that fire
      after the modal was closed still move it. */
  function Step(s: WithdrawState, e: WithdrawEvent): WithdrawState {
    match e
    case Submit => Pending
    case HashReceived => Sent
    case Confirmed => Succeeded
    case Failed => Ready
    case Threw => Ready
    case Closed => Ready
    case Reopened => Ready
  }

  /** The phases visited by a sequence of events, one per event. */
  function Phases(s: WithdrawState, evs: seq<WithdrawEvent>): (r: seq<WithdrawState>)
    ensures |r| == |evs|
    decreases |evs|
  {
    if evs == [] then [] else [Step(s, evs[0])] + Phases(Step(s, evs[0]), evs[1..])
  }

  /** The phase after a sequence of events depends only on the last one, and is the
      one an error, a throw, a close or a re-open always lead to when it is one of
      them. */
  lemma {:induction false} LastEventDecides(s: WithdrawState, evs: seq<WithdrawEvent>)
    requires evs != []
    ensures Phases(s, evs)[|evs| - 1] == Step(s, evs[|evs| - 1])
    ensures evs[|evs| - 1] in {Failed, Threw, Closed, Reopened} ==> Phases(s, evs)[|evs| - 1] == Ready
    decreases |evs|
  {
    if |evs| > 1 {
      LastEventDecides(Step(s, evs[0]), evs[1..]);
    }
  }

  /** The submission scenario: submit, hash, confirmation goes ready, pending, sent,
      succeeded; replacing the confirmation by an error returns to ready. */
  lemma SubmissionScenario()
    ensures Phases(Ready, [Submit, HashReceived, Confirmed]) == [Pending, Sent, Succeeded]
    ensures Phases(Ready, [Submit, Failed]) == [Pending, Ready]
  {
    assert [Submit, HashReceived, Confirmed][1..] == [HashReceived, Confirmed];
    assert [HashReceived, Confirmed][1..] == [Confirmed];
    assert [Confirmed][1..] == [];
    assert [Submit, Failed][1..] == [Failed];
    assert [Failed][1..] == [];
  }

  /** The form (inputs and button) is shown in the first two phases. */
  predicate FormShown(s: WithdrawState) {
    s == Ready || s == Pending
  }

  /** The percentage controls and the withdraw button are disabled while pending. */
  predicate ControlsDisabled(s: WithdrawState) {
    s == Pending
  }

  /** Disabled controls are always visible ones; once the hash arrives the form gives
      way to the waiting screen, and a confirmation to the success screen. */
  lemma DisplayFollowsPhase(s: WithdrawState)
    ensures ControlsDisabled(s) ==> FormShown(s)
    ensures FormShown(Step(s, Submit)) && ControlsDisabled(Step(s, Submit))
    ensures !FormShown(Step(s, HashReceived)) && !FormShown(Step(s, Confirmed))
    ensures FormShown(s) && !ControlsDisabled(s) <==> s == Ready
  {
  }

  /** `withdrawAmount`: the stake times the percentage over one hundred, when the
      percentage is a number (JavaScript's `NaN` otherwise, written `None`).
      Floating-point rounding is not modelled. */
  function WithdrawAmount(totalStake: real, percentage: string): (r: Option<real>)
    ensures r.Some? <==> DecimalValue(percentage).Some?
    ensures r.Some? ==> r.value * 100.0 == totalStake * DecimalValue(percentage).value as real
  {
    match DecimalValue(percentage)
    case Some(p) => Some(totalStake * p as real / 100.0)
    case None => None
  }

  /** At `'50'` half the stake, at `'100'` all of it. */
  lemma WithdrawAmountPresets(totalStake: real)
    ensures WithdrawAmount(totalStake, "50") == Some(totalStake / 2.0)
    ensures WithdrawAmount(totalStake, "100") == Some(totalStake)
  {
    DecimalValuePresets();
  }

  /** The arguments the submit handler passes to the SDK's `withdraw`, besides the
      client, the stake and the callbacks. */
  datatype WithdrawRequest = WithdrawRequest(percentage: string, asInterestToken: bool)

  /** An analytics event of the stake flow. */
  datatype StakeEvent = StakeEvent(action: string, amount: Option<real>, protocol: string, network: string)

  /** One mounted withdraw modal. The parent's `onWithdraw` notifications are counted
      in `completions`; the records handed to the transaction store and the analytics
      events are logged. */
  class WithdrawModal {
    var totalStake: real
    const protocol: string
    const stakeProtocol: string
    const isGovStake: bool
    const chainId: int
    const network: string

    var status: WithdrawState
    var transactionHash: Option<string>
    var error: Option<string>
    var percentage: string
    var withdrawAmount: Option<real>
    var withdrawInInterestToken: bool
    var open: bool
    var added: seq<NewTransaction>
    var events: seq<StakeEvent>
    var completions: nat
    /** The stake the percentage effect read when it last ran. */
    ghost var amountStake: real

    /** The amount is computed from the current percentage, but from the stake as it
        was when the percentage last changed, which need not be the current one. */
    ghost predicate Valid()
      reads this
    {
      withdrawAmount == WithdrawAmount(amountStake, percentage)
    }

    constructor (totalStake: real, protocol: string, stakeProtocol: string, isGovStake: bool,
                 chainId: int, network: string, isOpen: bool)
      ensures Valid()
      ensures this.totalStake == totalStake && this.protocol == protocol && this.stakeProtocol == stakeProtocol
      ensures this.isGovStake == isGovStake && this.chainId == chainId && this.network == network
      ensures status == Ready && transactionHash == None && error == None && percentage == "50"
      ensures withdrawAmount == WithdrawAmount(totalStake, "50")
      ensures !withdrawInInterestToken && open == isOpen && added == [] && events == [] && completions == 0
    {
      this.totalStake := totalStake;
      this.protocol := protocol;
      this.stakeProtocol := stakeProtocol;
      this.isGovStake := isGovStake;
      this.chainId := chainId;
      this.network := network;
      status := Ready;
      transactionHash := None;
      error := None;
      percentage := "50";
      withdrawAmount := WithdrawAmount(totalStake, "50");
      amountStake := totalStake;
      withdrawInInterestToken := false;
      open := isOpen;
      added := [];
      events := [];
      completions := 0;
    }

    /** The parent passes a new `stake`: the total follows, but the amount is not
        recomputed, because the percentage effect depends on the percentage only. */
    method SetStake(stake: real)
      requires Valid()
      modifies this`totalStake
      ensures Valid() && totalStake == stake
      ensures withdrawAmount == old(withdrawAmount) && percentage == old(percentage)
    {
      totalStake := stake;
    }

    /** `setPercentage` and the percentage effect it triggers: the amount is
        recomputed from the current stake only when the percentage really changes. */
    method SetPercentage(p: string)
      requires Valid()
      modifies this`percentage, this`withdrawAmount, this`amountStake
      ensures Valid() && percentage == p
      ensures p != old(percentage) ==> withdrawAmount == WithdrawAmount(totalStake, p)
      ensures p == old(percentage) ==> withdrawAmount == old(withdrawAmount)
    {
      if p != percentage {
        percentage := p;
        withdrawAmount := WithdrawAmount(totalStake, p);
        amountStake := totalStake;
      }
    }

    /** `handleWithdraw`: without a web3 client nothing happens; otherwise the phase
        becomes pending, the confirm event is sent, and the SDK is asked to withdraw
        the current percentage, in the interest token only for a non-governance stake
        whose switch is on. */
    method HandleWithdraw(hasWeb3: bool) returns (request: Option<WithdrawRequest>)
      requires Valid()
      modifies this`status, this`events
      ensures Valid()
      ensures !hasWeb3 ==> request == None && status == old(status) && events == old(events)
      ensures hasWeb3 ==> request == Some(WithdrawRequest(percentage, !isGovStake && withdrawInInterestToken))
      ensures hasWeb3 ==> status == Step(old(status), Submit)
      ensures hasWeb3 ==> events == old(events) + [StakeEvent("stake_withdraw_confirm", withdrawAmount, protocol, network)]
    {
      if !hasWeb3 {
        return None;
      }
      status := Pending;
      events := events + [StakeEvent("stake_withdraw_confirm", withdrawAmount, protocol, network)];
      request := Some(WithdrawRequest(percentage, !isGovStake && withdrawInInterestToken));
    }

    /** The transaction-hash callback: the hash is kept, the phase becomes sent, the
        success event is sent and exactly one record goes to the store. */
    method OnTransactionHash(hash: string, from: string)
      requires Valid()
      modifies this`transactionHash, this`status, this`events, this`added
      ensures Valid()
      ensures transactionHash == Some(hash) && status == Step(old(status), HashReceived)
      ensures events == old(events) + [StakeEvent("stake_withdraw_success", withdrawAmount, protocol, network)]
      ensures added == old(added) +
                [NewTransaction(chainId, hash, from, Plain("Withdrew funds from " + stakeProtocol + " "))]
    {
      transactionHash := Some(hash);
      status := Sent;
      events := events + [StakeEvent("stake_withdraw_success", withdrawAmount, protocol, network)];
      added := added + [NewTransaction(chainId, hash, from, Plain("Withdrew funds from " + stakeProtocol + " "))];
    }

    /** The confirmation callback. */
    method OnConfirmed()
      requires Valid()
      modifies this`status
      ensures Valid() && status == Step(old(status), Confirmed)
    {
      status := Succeeded;
    }

    /** The error callback: back to ready, with the error kept for display. */
    method OnError(message: string)
      requires Valid()
      modifies this`status, this`error
      ensures Valid() && status == Step(old(status), Failed) && error == Some(message)
    {
      status := Ready;
      error := Some(message);
    }

    /** The SDK call resolved: the parent is notified. */
    method OnResolved()
      requires Valid()
      modifies this`completions
      ensures Valid() && completions == old(completions) + 1
    {
      completions := completions + 1;
    }

    /** The SDK call threw: back to ready; the error is only logged. */
    method OnThrown()
      requires Valid()
      modifies this`status
      ensures Valid() && status == Step(old(status), Threw)
    {
      status := Ready;
    }

    /** The open effect, run when `open` changes: opening resets the percentage (and
        with it the amount, unless it was already `'50'`), and leaves a modal that
        is not ready without its hash. The error is never cleared. */
    method OpenEffect()
      requires Valid()
      modifies this`percentage, this`withdrawAmount, this`amountStake, this`status, this`transactionHash
      ensures Valid()
      ensures open ==> percentage == "50"
      ensures !open ==> percentage == old(percentage)
      ensures open && old(percentage) != "50" ==> withdrawAmount == WithdrawAmount(totalStake, "50")
      ensures !(open && old(percentage) != "50") ==> withdrawAmount == old(withdrawAmount)
      ensures open && old(status) != Ready ==> status == Step(old(status), Reopened) && transactionHash == None
      ensures !(open && old(status) != Ready) ==> status == old(status) && transactionHash == old(transactionHash)
    {
      if open {
        SetPercentage("50");
      }
      if open && status != Ready {
        status := Ready;
        transactionHash := None;
      }
    }

    /** The parent sets the `open` prop; the open effect runs when it changes. */
    method SetOpen(v: bool)
      requires Valid()
      modifies this`open, this`percentage, this`withdrawAmount, this`amountStake, this`status, this`transactionHash
      ensures Valid() && open == v
      ensures v && !old(open) ==> percentage == "50" && status == Ready
      ensures v && !old(open) && old(status) != Ready ==> transactionHash == None
      ensures v && !old(open) && old(status) == Ready ==> transactionHash == old(transactionHash)
      ensures v && !old(open) && old(percentage) != "50" ==> withdrawAmount == WithdrawAmount(totalStake, "50")
      ensures v && !old(open) && old(percentage) == "50" ==> withdrawAmount == old(withdrawAmount)
      ensures (v == old(open) || !v) ==>
                percentage == old(percentage) && withdrawAmount == old(withdrawAmount)
                && status == old(status) && transactionHash == old(transactionHash)
    {
      if v != open {
        open := v;
        OpenEffect();
      }
    }

    /** `handleClose`: phase ready, and the parent closes the modal, whatever the
        phase was. */
    method HandleClose()
      requires Valid()
      modifies this`status, this`open, this`percentage, this`withdrawAmount, this`amountStake, this`transactionHash
      ensures Valid()
      ensures status == Step(old(status), Closed) && !open
      ensures percentage == old(percentage) && withdrawAmount == old(withdrawAmount)
      ensures transactionHash == old(transactionHash) && error == old(error)
    {
      status := Ready;
      SetOpen(false);
    }

    /** The percentage controls, enabled unless pending. */
    method ChangePercentage(p: string)
      requires Valid() && FormShown(status) && !ControlsDisabled(status)
      modifies this`percentage, this`withdrawAmount, this`amountStake
      ensures Valid() && percentage == p
      ensures p != old(percentage) ==> withdrawAmount == WithdrawAmount(totalStake, p)
      ensures p == old(percentage) ==> withdrawAmount == old(withdrawAmount)
    {
      SetPercentage(p);
    }

    /** The interest-token switch, shown only for a non-governance stake. */
    method ChangeInterestToken(b: bool)
      requires Valid() && FormShown(status) && !isGovStake
      modifies this`withdrawInInterestToken
      ensures Valid() && withdrawInInterestToken == b
    {
      withdrawInInterestToken := b;
    }
  }

  /** The submission scenario run on a modal: `[onHash("0xabc"), onConfirmed()]` after
      the submit leaves the modal succeeded with exactly one stored record, whose
      hash is `"0xabc"`; a stake of 100 at the initial `'50'` withdraws 50; and a
      governance stake never asks for the interest token. */
  method HashThenConfirmedScenario(isGovStake: bool) returns (request: Option<WithdrawRequest>, modal: WithdrawModal)
    ensures request.Some? && request.value.percentage == "50"
    ensures isGovStake ==> !request.value.asInterestToken
    ensures modal.status == Succeeded
    ensures |modal.added| == 1 && modal.added[0].hash == "0xabc"
    ensures modal.withdrawAmount == Some(50.0)
  {
    modal := new WithdrawModal(100.0, "protocol", "stake", isGovStake, 122, "FUSE", true);
    if !isGovStake {
      modal.ChangeInterestToken(true);
    }
    request := modal.HandleWithdraw(true);
    assert modal.status == Pending;
    modal.OnTransactionHash("0xabc", "0xsender");
    assert modal.status == Sent;
    modal.OnConfirmed();
    WithdrawAmountPresets(100.0);
  }

  /** The label goes stale after a stake change. Opened at `'50'` on a stake of 100,
      the amount is 50; the stake becomes 60, and closing and re-opening sets `'50'`
      again, which changes nothing, so the label still reads 50 against a total of
      60. Only a real percentage change (here to `'100'`) reads the new stake. */
  method StaleAmountScenario() returns (shown: Option<real>, modal: WithdrawModal)
    ensures shown == Some(50.0) && shown != WithdrawAmount(60.0, "50")
    ensures modal.totalStake == 60.0 && modal.percentage == "100" && modal.withdrawAmount == Some(60.0)
  {
    WithdrawAmountPresets(100.0);
    WithdrawAmountPresets(60.0);
    modal := new WithdrawModal(100.0, "protocol", "stake", false, 122, "FUSE", true);
    modal.SetStake(60.0);
    modal.HandleClose();
    modal.SetOpen(true);
    shown := modal.withdrawAmount;
    modal.ChangePercentage("100");
  }
}
