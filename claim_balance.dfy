/** The claim balance panel: which other chain the user can still claim on, whether to
    offer "Claim on X", and what a refused network switch does. */
module ClaimBalance {
  import opened Wrappers
  import Chains

  /** The two chains a user can claim on. */
  datatype ClaimChain = FUSE | CELO

  function ChainId(c: ClaimChain): int {
    match c
    case FUSE => Chains.FUSE
    case CELO => Chains.CELO
  }

  /** `altChain`: CELO when connected to FUSE, FUSE on every other chain. */
  function AltChain(chainId: int): ClaimChain {
    if chainId == Chains.FUSE then CELO else FUSE
  }

  /** The alternative is never the chain the user is on, and going to the alternative
      and asking again leads back. */
  lemma AltChainIsTheOther(c: ClaimChain, chainId: int)
    ensures AltChain(ChainId(c)) != c
    ensures AltChain(ChainId(AltChain(ChainId(c)))) == c
    ensures ChainId(AltChain(chainId)) != chainId
  {
  }

  /** A claim amount read from one chain; `None` while the hook has no data. */
  function IsZero(amount: Option<nat>): Option<bool> {
    match amount
    case Some(a) => Some(a == 0)
    case None => None
  }

  /** The amount the hook reports for a chain. */
  function AmountOn(c: ClaimChain, claimedCelo: Option<nat>, claimedFuse: Option<nat>): Option<nat> {
    match c
    case CELO => claimedCelo
    case FUSE => claimedFuse
  }

  /** The `claimedAlt` effect: whether the amount on the other chain is zero,
      unknown (`None`) while that chain's amount is. */
  function ClaimedAltFor(chainId: int, claimedCelo: Option<nat>, claimedFuse: Option<nat>): Option<bool> {
    if chainId == Chains.FUSE then IsZero(claimedCelo) else IsZero(claimedFuse)
  }

  /** The effect reads the alternative chain's amount and never the current one's:
      changing the current chain's amount does not change the outcome. */
  lemma ClaimedAltReadsAltChain(chainId: int, claimedCelo: Option<nat>, claimedFuse: Option<nat>, other: Option<nat>)
    ensures ClaimedAltFor(chainId, claimedCelo, claimedFuse) == IsZero(AmountOn(AltChain(chainId), claimedCelo, claimedFuse))
    ensures chainId == Chains.FUSE ==> ClaimedAltFor(chainId, claimedCelo, other) == ClaimedAltFor(chainId, claimedCelo, claimedFuse)
    ensures chainId != Chains.FUSE ==> ClaimedAltFor(chainId, other, claimedFuse) == ClaimedAltFor(chainId, claimedCelo, claimedFuse)
  {
  }

  /** The "Claim on X" button: not in simple mode, and only while `claimedAlt` is not
      true (an unknown value is falsy and shows it). */
  predicate AltButtonShown(isSimpleApp: bool, claimedAlt: Option<bool>) {
    !isSimpleApp && claimedAlt != Some(true)
  }

  /** The button is offered exactly when the app is not simple and the other chain's
      amount is not known to be zero. */
  lemma AltButtonIff(isSimpleApp: bool, chainId: int, claimedCelo: Option<nat>, claimedFuse: Option<nat>)
    ensures AltButtonShown(isSimpleApp, ClaimedAltFor(chainId, claimedCelo, claimedFuse))
            <==> !isSimpleApp && AmountOn(AltChain(chainId), claimedCelo, claimedFuse) != Some(0)
  {
  }

  /** How the wallet answers a switch request; a rejection may carry a numeric code. */
  datatype SwitchOutcome = Switched | Rejected(code: Option<int>)

  /** The wallet's code for a chain it does not know; the user must add the network
      by hand. */
  const UnrecognizedChain: int := 4902

  /** One mounted panel. */
  class ClaimBalanceView {
    var claimedAlt: Option<bool>
    var networkModalOpen: bool

    /** `claimedAlt` starts true, so the first render hides the button. */
    constructor (networkModalOpen: bool)
      ensures claimedAlt == Some(true) && this.networkModalOpen == networkModalOpen
      ensures forall isSimpleApp :: !AltButtonShown(isSimpleApp, claimedAlt)
    {
      claimedAlt := Some(true);
      this.networkModalOpen := networkModalOpen;
    }

    /** The `claimedAlt` effect, run on a new chain or new amounts. */
    method SyncClaimedAlt(chainId: int, claimedCelo: Option<nat>, claimedFuse: Option<nat>)
      modifies this`claimedAlt
      ensures claimedAlt == IsZero(AmountOn(AltChain(chainId), claimedCelo, claimedFuse))
    {
      if chainId == Chains.FUSE {
        claimedAlt := IsZero(claimedCelo);
      } else {
        claimedAlt := IsZero(claimedFuse);
      }
    }

    /** `switchChain`: asks the wallet for the alternative chain; a rejection with
        the unrecognized-chain code toggles the network dialog, any other rejection
        is swallowed. */
    method SwitchChain(chainId: int, outcome: SwitchOutcome) returns (target: int)
      modifies this`networkModalOpen
      ensures target == ChainId(AltChain(chainId)) && target != chainId
      ensures networkModalOpen == if outcome == Rejected(Some(UnrecognizedChain)) then !old(networkModalOpen)
                                  else old(networkModalOpen)
    {
      target := ChainId(AltChain(chainId));
      if outcome.Rejected? && outcome.code == Some(UnrecognizedChain) {
        networkModalOpen := !networkModalOpen;
      }
    }
  }
}
