/** The swap page: which swap widget a chain gets, gated by its feature flag. */
module Swap {
  import opened Wrappers
  import Chains

  datatype SwapComponent = SwapCore | UniSwap

  /** The truthiness of the three flags of the `swap-feature` payload. */
  datatype SwapFlags = SwapFlags(fuseEnabled: bool, celoEnabled: bool, reserveEnabled: bool)

  /** A mapping entry: the component and its enabled flag. */
  datatype ChainConfig = ChainConfig(component: SwapComponent, enabled: bool)

  /** The flags of a missing payload (`payload || {}`): all undefined. */
  const NoFlags := SwapFlags(false, false, false)

  /** `swapComponentMapping[chainId]`. */
  function SwapComponentMapping(chainId: int, flags: SwapFlags): Option<ChainConfig> {
    if chainId == Chains.FUSE then Some(ChainConfig(SwapCore, flags.fuseEnabled))
    else if chainId == Chains.MAINNET then Some(ChainConfig(SwapCore, flags.reserveEnabled))
    else if chainId == Chains.CELO then Some(ChainConfig(UniSwap, flags.celoEnabled))
    else None
  }

  /** What the page renders: the entry's component when the entry exists and is
      enabled, nothing otherwise. */
  function RenderedSwap(chainId: int, payload: Option<SwapFlags>): Option<SwapComponent> {
    var config := SwapComponentMapping(chainId, payload.GetOr(NoFlags));
    if config.Some? && config.value.enabled then Some(config.value.component) else None
  }

  /** Something renders exactly when the chain has an entry whose flag is on; FUSE
      and MAINNET get the core swap and CELO the Uniswap widget, each behind its own
      flag; an unmapped chain or a missing payload renders nothing. */
  lemma SwapChoice(chainId: int, payload: Option<SwapFlags>)
    ensures RenderedSwap(chainId, payload).Some? <==>
              SwapComponentMapping(chainId, payload.GetOr(NoFlags)).Some? &&
              SwapComponentMapping(chainId, payload.GetOr(NoFlags)).value.enabled
    ensures payload.None? ==> RenderedSwap(chainId, payload) == None
    ensures chainId !in {Chains.FUSE, Chains.MAINNET, Chains.CELO} ==> RenderedSwap(chainId, payload) == None
    ensures payload.Some? ==>
              && RenderedSwap(Chains.FUSE, payload) == (if payload.value.fuseEnabled then Some(SwapCore) else None)
              && RenderedSwap(Chains.MAINNET, payload) == (if payload.value.reserveEnabled then Some(SwapCore) else None)
              && RenderedSwap(Chains.CELO, payload) == (if payload.value.celoEnabled then Some(UniSwap) else None)
  {
  }
}
