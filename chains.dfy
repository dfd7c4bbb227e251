/** Chain identifiers of the SDK's `SupportedChains` enumeration that the modelled
    components compare against. */
module Chains {

  const MAINNET: int := 1
  const FUSE: int := 122
  const CELO: int := 42220
}
