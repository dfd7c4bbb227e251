/** The claim page: the classifier that decides whether today's claim is done and how
    often to poll, the reset on a chain switch, the claim and connect handlers, and
    the mapping of the claim button's events to analytics actions. */
module Claim {
  import opened Wrappers
  import opened Transactions

  /** The polling cadence handed to the claim hook: a number of seconds, or every block. */
  datatype Refresh = Seconds(n: nat) | EveryBlock

  /** The cadence the page starts with and returns to once the claim is settled. */
  const FixedRefresh: Refresh := Seconds(12)

  /** The page state the classifier reads and writes: whether the user has claimed
      (`None` is "not known yet"), the cadence, and the claim call's status. */
  datatype ClaimView = ClaimView(claimed: Option<bool>, refresh: Refresh, callState: TransactionState)

  /** The classifier's four outcomes. */
  datatype Verdict =
    | Skip           // no claim amount yet, or the claim is being mined
    | ClaimedToday   // the claim amount is zero
    | JustClaimed    // the claim call succeeded; the amount may not have caught up
    | Claimable      // a claim is available

  function Classify(status: TransactionState, claimAmount: Option<nat>): Verdict {
    if claimAmount.None? || status == Mining then Skip
    else if claimAmount.value == 0 then ClaimedToday
    else if status == Success then JustClaimed
    else Claimable
  }

  /** The `hasClaimed` effect. A zero amount also resets the claim call's state. */
  function AfterHasClaimed(v: ClaimView, claimAmount: Option<nat>): ClaimView {
    match Classify(v.callState, claimAmount)
    case Skip => v
    case ClaimedToday => v.(claimed := Some(true), refresh := FixedRefresh, callState := Idle)
    case JustClaimed => v.(claimed := Some(true))
    case Claimable => v.(claimed := Some(false), refresh := EveryBlock)
  }

  /** What the classifier decides, case by case: nothing without an amount or while
      mining; a zero amount means claimed, back to the fixed cadence, call state reset;
      a non-zero amount with a successful call means claimed and leaves the cadence;
      otherwise the claim is open and polling goes to every block. In every case the
      page knows afterwards whether the user has claimed, unless it skipped. */
  lemma ClassifierDecides(v: ClaimView, claimAmount: Option<nat>)
    ensures claimAmount.None? || v.callState == Mining ==> AfterHasClaimed(v, claimAmount) == v
    ensures claimAmount == Some(0) && v.callState != Mining ==>
              AfterHasClaimed(v, claimAmount) == ClaimView(Some(true), FixedRefresh, Idle)
    ensures claimAmount.Some? && claimAmount.value != 0 && v.callState == Success ==>
              AfterHasClaimed(v, claimAmount) == v.(claimed := Some(true))
    ensures claimAmount.Some? && claimAmount.value != 0 && v.callState !in {Mining, Success} ==>
              AfterHasClaimed(v, claimAmount) == v.(claimed := Some(false), refresh := EveryBlock)
    ensures AfterHasClaimed(v, claimAmount).claimed == Some(true) <==>
              Classify(v.callState, claimAmount) in {ClaimedToday, JustClaimed} || (Classify(v.callState, claimAmount) == Skip && v.claimed == Some(true))
  {
  }

  /** The chain-switch effect. */
  function ResetForChain(v: ClaimView): ClaimView {
    v.(claimed := None, refresh := EveryBlock)
  }

  /** On a chain switch both effects run, the classifier first: whatever it decided,
      the page ends with claimed unknown and polling every block; only the call state
      can keep a trace of the classifier (the reset of a zero amount). */
  lemma ChainSwitchForgets(v: ClaimView, claimAmount: Option<nat>)
    ensures ResetForChain(AfterHasClaimed(v, claimAmount)).claimed == None
    ensures ResetForChain(AfterHasClaimed(v, claimAmount)).refresh == EveryBlock
    ensures ResetForChain(AfterHasClaimed(v, claimAmount)).callState
            == if Classify(v.callState, claimAmount) == ClaimedToday then Idle else v.callState
  {
  }

  /** The effects of one commit of the page. `hasClaimed` depends on the claim amount,
      the chain and the cadence, so it runs when any of them differs from the previous
      commit; the chain reset depends on the chain only and runs after it. */
  function Commit(v: ClaimView, previousRefresh: Refresh, amountChanged: bool, chainChanged: bool,
                  claimAmount: Option<nat>): ClaimView
  {
    var w := if amountChanged || chainChanged || v.refresh != previousRefresh then AfterHasClaimed(v, claimAmount) else v;
    if chainChanged then ResetForChain(w) else w
  }

  /** A chain switch is two commits. The switching commit runs both effects and ends
      with claimed unknown and polling every block. When that moved the cadence, the
      next commit runs the classifier again on the new view, which with an amount
      known and no claim being mined makes claimed known again; when the cadence was
      already every block, the page waits, claimed unknown, for the amount to change.
      A user who had claimed on 12 s polling and still reads zero ends where they began. */
  lemma CadenceChangeReruns(v: ClaimView, claimAmount: Option<nat>)
    ensures Commit(v, v.refresh, false, true, claimAmount) == ResetForChain(AfterHasClaimed(v, claimAmount))
    ensures var w := Commit(v, v.refresh, false, true, claimAmount);
            var u := Commit(w, v.refresh, false, false, claimAmount);
            && (v.refresh == EveryBlock ==> u == w && u.claimed == None)
            && (v.refresh != EveryBlock && claimAmount.Some? && v.callState != Mining ==> u.claimed.Some?)
    ensures var v0 := ClaimView(Some(true), FixedRefresh, Idle);
            var w := Commit(v0, FixedRefresh, false, true, Some(0));
            var u := Commit(w, FixedRefresh, false, false, Some(0));
            && w == ClaimView(None, EveryBlock, Idle)
            && u == v0
            && Commit(u, EveryBlock, false, false, Some(0)) == u
  {
    ChainSwitchForgets(v, claimAmount);
  }

  /** The page's first commits. React runs both effects on mount, so the first state
      the page shows is claimed unknown, polling every block: the constructor's 12 s
      cadence is never on screen. The commit after it sees the cadence moved and
      classifies again; with the amount still unknown, the page waits until the
      amount arrives and then classifies as from any other state. */
  lemma PageMount(claimAmount: Option<nat>, amount: nat)
    ensures Commit(ClaimView(None, FixedRefresh, Idle), FixedRefresh, true, true, claimAmount)
            == ClaimView(None, EveryBlock, Idle)
    ensures var w := ClaimView(None, EveryBlock, Idle);
            Commit(w, FixedRefresh, false, false, claimAmount)
            == if claimAmount == Some(0) then ClaimView(Some(true), FixedRefresh, Idle)
               else if claimAmount.Some? then ClaimView(Some(false), EveryBlock, Idle)
               else w
    ensures Commit(ClaimView(None, EveryBlock, Idle), EveryBlock, true, false, Some(amount))
            == if amount == 0 then ClaimView(Some(true), FixedRefresh, Idle)
               else ClaimView(Some(false), EveryBlock, Idle)
  {
  }

  /** The polling cadence over one claim: an open claim polls every block, and keeps
      doing so while mining and after the call succeeds; once the amount reads zero
      the page says claimed, the cadence returns to the fixed one and the call state
      is reset. */
  lemma ClaimCadence(amount: nat)
    requires amount > 0
    ensures var open := AfterHasClaimed(ClaimView(None, FixedRefresh, Idle), Some(amount));
            && open == ClaimView(Some(false), EveryBlock, Idle)
            && AfterHasClaimed(open.(callState := Mining), Some(amount)) == open.(callState := Mining)
            && AfterHasClaimed(open.(callState := Success), Some(amount)) == ClaimView(Some(true), EveryBlock, Success)
            && AfterHasClaimed(ClaimView(Some(true), EveryBlock, Success), Some(0)) == ClaimView(Some(true), FixedRefresh, Idle)
  {
    ClassifierDecides(ClaimView(None, FixedRefresh, Idle), Some(amount));
  }

  /** The claim button's events, as analytics actions; `None` sends nothing. */
  function EventAction(event: string): Option<string> {
    if event == "switch_start" then Some("network_switch_start")
    else if event == "switch_succes" then Some("network_switch_success")
    else if event == "action_start" then Some("claim_start")
    else if event == "finish" then None
    else Some(event)
  }

  /** Only `finish` is silent; the three renamed events get their analytics names and
      every other event is passed through as it is. */
  lemma EventMapping(event: string)
    ensures EventAction(event).None? <==> event == "finish"
    ensures EventAction("switch_start") == Some("network_switch_start")
    ensures EventAction("switch_succes") == Some("network_switch_success")
    ensures EventAction("action_start") == Some("claim_start")
    ensures event !in {"switch_start", "switch_succes", "action_start", "finish"} ==> EventAction(event) == Some(event)
  {
  }

  /** The claim button shows its finalisation while the call is mining or has
      succeeded. */
  predicate Claiming(s: TransactionState) {
    s == Mining || s == Success
  }

  /** The how-does-it-work and how-to-collect cards hide, and the balance replaces the
      collect copy, exactly when the user is known to have claimed. */
  predicate CardsHidden(claimed: Option<bool>) {
    claimed == Some(true)
  }

  /** A success verdict hides the cards; an open claim, or not knowing, shows them. */
  lemma CardsFollowVerdict(v: ClaimView, claimAmount: Option<nat>)
    ensures Classify(v.callState, claimAmount) in {ClaimedToday, JustClaimed} ==>
              CardsHidden(AfterHasClaimed(v, claimAmount).claimed)
    ensures Classify(v.callState, claimAmount) == Claimable ==> !CardsHidden(AfterHasClaimed(v, claimAmount).claimed)
    ensures !CardsHidden(ResetForChain(v).claimed)
    ensures Claiming(v.callState) ==> Classify(v.callState, claimAmount) in {Skip, ClaimedToday, JustClaimed}
  {
  }

  /** An analytics event of the claim page. */
  datatype ClaimEvent = ClaimEvent(action: string, network: string)

  /** One mounted claim page. The claim call's status is the SDK's and changes through
      `OnCallState`; the disabled-claiming dialog's openings are counted. */
  class ClaimPage {
    const network: string
    var claimed: Option<bool>
    var refreshRate: Refresh
    var callState: TransactionState
    var events: seq<ClaimEvent>
    var dialogShown: nat

    function View(): ClaimView
      reads this
    {
      ClaimView(claimed, refreshRate, callState)
    }

    constructor (network: string)
      ensures this.network == network
      ensures View() == ClaimView(None, FixedRefresh, Idle) && events == [] && dialogShown == 0
    {
      this.network := network;
      claimed := None;
      refreshRate := FixedRefresh;
      callState := Idle;
      events := [];
      dialogShown := 0;
    }

    /** The `hasClaimed` effect, run on a new claim amount, chain or cadence. */
    method HasClaimed(claimAmount: Option<nat>)
      modifies this`claimed, this`refreshRate, this`callState
      ensures View() == AfterHasClaimed(old(View()), claimAmount)
    {
      if claimAmount.None? {
        return;
      }
      if callState == Mining {
        return;
      }
      if claimAmount.value == 0 {
        claimed := Some(true);
        refreshRate := FixedRefresh;
        callState := Idle;
        return;
      } else if callState == Success {
        claimed := Some(true);
        return;
      }
      claimed := Some(false);
      refreshRate := EveryBlock;
    }

    /** The chain-switch effect. */
    method ResetForChainSwitch()
      modifies this`claimed, this`refreshRate
      ensures View() == ResetForChain(old(View()))
    {
      claimed := None;
      refreshRate := EveryBlock;
    }

    /** A chain switch: both effects, in the order the page declares them. */
    method OnChainChange(claimAmount: Option<nat>)
      modifies this`claimed, this`refreshRate, this`callState
      ensures View() == ResetForChain(AfterHasClaimed(old(View()), claimAmount))
      ensures claimed == None && refreshRate == EveryBlock
    {
      HasClaimed(claimAmount);
      ResetForChainSwitch();
    }

    /** One commit: the effects whose dependencies changed, in declaration order. */
    method OnCommit(previousRefresh: Refresh, amountChanged: bool, chainChanged: bool, claimAmount: Option<nat>)
      modifies this`claimed, this`refreshRate, this`callState
      ensures View() == Commit(old(View()), previousRefresh, amountChanged, chainChanged, claimAmount)
    {
      if amountChanged || chainChanged || refreshRate != previousRefresh {
        HasClaimed(claimAmount);
      }
      if chainChanged {
        ResetForChainSwitch();
      }
    }

    /** The SDK reports a new status of the claim call. */
    method OnCallState(s: TransactionState)
      modifies this`callState
      ensures callState == s
    {
      callState := s;
    }

    /** `handleEvents`. */
    method HandleEvent(event: string)
      modifies this`events
      ensures events == old(events) + match EventAction(event) case Some(a) => [ClaimEvent(a, network)] case None => []
    {
      var action := EventAction(event);
      if action.Some? {
        events := events + [ClaimEvent(action.value, network)];
      }
    }

    /** `handleClaim`: polling goes to every block first. With claiming enabled it
        reports whether the call returned a receipt and sends `claim_success` only
        then; with claiming disabled it opens the dialog and reports failure. */
    method HandleClaim(claimEnabled: bool, receipt: bool) returns (ok: bool)
      modifies this`refreshRate, this`events, this`dialogShown
      ensures refreshRate == EveryBlock
      ensures ok <==> claimEnabled && receipt
      ensures events == old(events) + if ok then [ClaimEvent("claim_success", network)] else []
      ensures dialogShown == old(dialogShown) + if claimEnabled then 0 else 1
    {
      refreshRate := EveryBlock;
      if claimEnabled {
        if !receipt {
          return false;
        }
        events := events + [ClaimEvent("claim_success", network)];
        return true;
      }
      dialogShown := dialogShown + 1;
      return false;
    }

    /** `handleConnect`: with claiming enabled, whether the wallet connected at least
        one account; otherwise the dialog opens and the answer is no. */
    method HandleConnect(claimEnabled: bool, connectedWallets: nat) returns (ok: bool)
      modifies this`dialogShown
      ensures ok <==> claimEnabled && connectedWallets > 0
      ensures dialogShown == old(dialogShown) + if claimEnabled then 0 else 1
    {
      if claimEnabled {
        return connectedWallets > 0;
      }
      dialogShown := dialogShown + 1;
      return false;
    }
  }
}
