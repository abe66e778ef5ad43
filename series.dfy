/**
 * Price-series helpers used by every detector: positivity of the series and
 * the maximum and minimum price over a window `[lo, hi)` (the source's
 * `Math.max(...slice.map(p => p.price))` and its `Math.min` twin).
 */
module Series {
  import opened Types

  /** `Math.max` and `Math.min` on integers (indices and counts). */
  function Max(a: int, b: int): int { if a < b then b else a }
  function Min(a: int, b: int): int { if a < b then a else b }

  /** Every price in the series is strictly positive (the detectors divide by prices). */
  predicate PositivePrices(ps: seq<PricePoint>) {
    forall k :: 0 <= k < |ps| ==> ps[k].price > 0.0
  }

  /** Every price in the series equals `c`. */
  predicate Flat(ps: seq<PricePoint>, c: real) {
    forall k :: 0 <= k < |ps| ==> ps[k].price == c
  }

  /** Timestamps never decrease along the series. */
  predicate NonDecreasingTimes(ps: seq<PricePoint>) {
    forall a, b :: 0 <= a <= b < |ps| ==> ps[a].time <= ps[b].time
  }

  /** The two series hold the same prices on the window `[lo, hi)`. */
  predicate SamePrices(ps: seq<PricePoint>, qs: seq<PricePoint>, lo: nat, hi: nat)
    requires hi <= |ps| && hi <= |qs|
  {
    forall k :: lo <= k < hi ==> ps[k].price == qs[k].price
  }

  /** The highest price on `[lo, hi)`: an upper bound of the window (attained: MaxPriceAttained). */
  function MaxPrice(ps: seq<PricePoint>, lo: nat, hi: nat): (m: real)
    requires lo < hi <= |ps|
    ensures forall k :: lo <= k < hi ==> ps[k].price <= m
    decreases hi - lo
  {
    if lo + 1 == hi then ps[lo].price
    else
      var rest := MaxPrice(ps, lo + 1, hi);
      if ps[lo].price > rest then ps[lo].price else rest
  }

  /** The lowest price on `[lo, hi)`: a lower bound of the window (attained: MinPriceAttained). */
  function MinPrice(ps: seq<PricePoint>, lo: nat, hi: nat): (m: real)
    requires lo < hi <= |ps|
    ensures forall k :: lo <= k < hi ==> m <= ps[k].price
    decreases hi - lo
  {
    if lo + 1 == hi then ps[lo].price
    else
      var rest := MinPrice(ps, lo + 1, hi);
      if ps[lo].price < rest then ps[lo].price else rest
  }

  /** Some point of the window carries the maximum price. */
  lemma {:induction false} MaxPriceAttained(ps: seq<PricePoint>, lo: nat, hi: nat) returns (k: nat)
    requires lo < hi <= |ps|
    ensures lo <= k < hi && ps[k].price == MaxPrice(ps, lo, hi)
    decreases hi - lo
  {
    if lo + 1 == hi || ps[lo].price > MaxPrice(ps, lo + 1, hi) {
      k := lo;
    } else {
      k := MaxPriceAttained(ps, lo + 1, hi);
    }
  }

  /** Some point of the window carries the minimum price. */
  lemma {:induction false} MinPriceAttained(ps: seq<PricePoint>, lo: nat, hi: nat) returns (k: nat)
    requires lo < hi <= |ps|
    ensures lo <= k < hi && ps[k].price == MinPrice(ps, lo, hi)
    decreases hi - lo
  {
    if lo + 1 == hi || ps[lo].price < MinPrice(ps, lo + 1, hi) {
      k := lo;
    } else {
      k := MinPriceAttained(ps, lo + 1, hi);
    }
  }

  /** The window maximum depends only on the prices inside the window. */
  lemma MaxDependsOnWindowOnly(ps: seq<PricePoint>, qs: seq<PricePoint>, lo: nat, hi: nat)
    requires lo < hi <= |ps| && hi <= |qs|
    requires SamePrices(ps, qs, lo, hi)
    ensures MaxPrice(ps, lo, hi) == MaxPrice(qs, lo, hi)
  {
    var ka := MaxPriceAttained(ps, lo, hi);
    var kb := MaxPriceAttained(qs, lo, hi);
  }

  /** The window minimum depends only on the prices inside the window. */
  lemma MinDependsOnWindowOnly(ps: seq<PricePoint>, qs: seq<PricePoint>, lo: nat, hi: nat)
    requires lo < hi <= |ps| && hi <= |qs|
    requires SamePrices(ps, qs, lo, hi)
    ensures MinPrice(ps, lo, hi) == MinPrice(qs, lo, hi)
  {
    var kc := MinPriceAttained(ps, lo, hi);
    var kd := MinPriceAttained(qs, lo, hi);
  }

  /** On a flat window both extremes equal the common price. */
  lemma FlatExtremes(ps: seq<PricePoint>, c: real, lo: nat, hi: nat)
    requires lo < hi <= |ps| && Flat(ps, c)
    ensures MaxPrice(ps, lo, hi) == c && MinPrice(ps, lo, hi) == c
  {
    var a := MaxPriceAttained(ps, lo, hi);
    var b := MinPriceAttained(ps, lo, hi);
  }

  /** On a series of positive prices the window extremes are positive. */
  lemma PositiveExtremes(ps: seq<PricePoint>, lo: nat, hi: nat)
    requires lo < hi <= |ps| && PositivePrices(ps)
    ensures MaxPrice(ps, lo, hi) > 0.0 && MinPrice(ps, lo, hi) > 0.0
  {
    var a := MinPriceAttained(ps, lo, hi);
  }
}
