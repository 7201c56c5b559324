/**
 * The arithmetic both monitors share: the signed difference between the
 * futures (reference) price and a spot price, the same difference as a
 * percentage of the spot price, and the breach test against the threshold.
 */
module Divergence {

  /** Auxiliary ticker fields (mark price, funding rate, 24h statistics), last write wins. */
  type Extra = map<string, string>

  function Abs(x: real): (r: real)
    ensures r >= 0.0
    ensures r == x || r == -x
  {
    if x < 0.0 then -x else x
  }

  /** `price_diff = futures_price - spot_price`: positive when futures trade at a premium. */
  function Diff(futuresPrice: real, spotPrice: real): real
  {
    futuresPrice - spotPrice
  }

  /** `(price_diff / spot_price) * 100`; the source divides without a guard, so a zero spot is excluded. */
  function DiffPct(futuresPrice: real, spotPrice: real): real
    requires spotPrice != 0.0
  {
    Diff(futuresPrice, spotPrice) / spotPrice * 100.0
  }

  /** The value compared with the threshold: |diff %| in percentage mode, |diff| in absolute mode. */
  function Measure(usePercentage: bool, futuresPrice: real, spotPrice: real): real
    requires usePercentage ==> spotPrice != 0.0
  {
    if usePercentage then Abs(DiffPct(futuresPrice, spotPrice)) else Abs(Diff(futuresPrice, spotPrice))
  }

  /** A breach: the measure meets or exceeds the threshold (`>=`, so equality counts). */
  predicate Breaches(usePercentage: bool, threshold: real, futuresPrice: real, spotPrice: real)
    requires usePercentage ==> spotPrice != 0.0
  {
    Measure(usePercentage, futuresPrice, spotPrice) >= threshold
  }
}
