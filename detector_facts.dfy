/**
 * What every detector promises: the shape of its signal (entry at the
 * current point, sane levels, risk:reward 2), causality for the four
 * detectors that only look back, silence on a flat series, and the
 * look-ahead of the order-block confirmation.
 */
module DetectorFacts {
  import opened Wrappers
  import opened Types
  import opened Series
  import opened Detectors

  /** A signal enters at `ps[i]`, passes the sanity check and keeps risk:reward 2. */
  predicate WellFormedAt(s: Signal, ps: seq<PricePoint>, i: nat)
    requires i < |ps|
  {
    && s.entryTime == ps[i].time
    && s.entryPrice == ps[i].price
    && Sane(s)
    && RiskRewardTwo(s)
    && Abs(s.takeProfit - s.entryPrice) == 2.0 * Abs(s.entryPrice - s.stopLoss)
  }

  lemma LongSignalWellFormed(ps: seq<PricePoint>, i: nat, stop: real)
    requires i < |ps| && stop < ps[i].price
    ensures WellFormedAt(LongSignal(ps[i], stop), ps, i)
  {}

  lemma ShortSignalWellFormed(ps: seq<PricePoint>, i: nat, stop: real)
    requires i < |ps| && stop > ps[i].price
    ensures WellFormedAt(ShortSignal(ps[i], stop), ps, i)
  {}

  lemma MarketStructureShiftWellFormed(ps: seq<PricePoint>, i: nat)
    requires Eligible(ps, i)
    ensures MarketStructureShiftSignal(ps, i).Some? ==> WellFormedAt(MarketStructureShiftSignal(ps, i).value, ps, i)
  {
    var swingHigh := MaxPrice(ps, i - 10, i);
    var swingLow := MinPrice(ps, i - 10, i);
    assert swingLow <= ps[i - 1].price <= swingHigh;
    if ps[i].price > swingHigh {
      LongSignalWellFormed(ps, i, swingLow);
    }
    if ps[i].price < swingLow {
      ShortSignalWellFormed(ps, i, swingHigh);
    }
  }

  lemma ObSideWellFormed(ps: seq<PricePoint>, i: nat, side: Direction)
    requires Eligible(ps, i)
    ensures ObSideSignal(ps, i, side).Some? ==> WellFormedAt(ObSideSignal(ps, i, side).value, ps, i)
  {
    if StrongMove(ps, i, side) && ObCandle(ps, i, side, i - 1).Some? {
      var j := ObCandle(ps, i, side, i - 1).value;
      assert ps[j].price > 0.0;
      var obLow, obHigh := ps[j].price * 0.999, ps[j].price * 1.001;
      if side == Long && ps[i].price >= obLow {
        LongSignalWellFormed(ps, i, obLow * 0.998);
      } else if side == Short && ps[i].price <= obHigh {
        ShortSignalWellFormed(ps, i, obHigh * 1.002);
      }
    }
  }

  lemma FairValueGapWellFormed(ps: seq<PricePoint>, i: nat)
    requires Eligible(ps, i)
    ensures FairValueGapSignal(ps, i).Some? ==> WellFormedAt(FairValueGapSignal(ps, i).value, ps, i)
  {
    var p0 := ps[i - 2].price;
    assert p0 > 0.0;
    if p0 < ps[i].price { LongSignalWellFormed(ps, i, p0 * 0.998); }
    if p0 > ps[i].price { ShortSignalWellFormed(ps, i, p0 * 1.002); }
  }

  lemma BreakerBlockWellFormed(ps: seq<PricePoint>, i: nat)
    requires Eligible(ps, i)
    ensures BreakerBlockSignal(ps, i).Some? ==> WellFormedAt(BreakerBlockSignal(ps, i).value, ps, i)
  {
    if i >= BreakerLookback + 5 {
      var lo, hi := i - BreakerLookback, i - 3;
      var swingHigh := MaxPrice(ps, lo, hi);
      var swingLow := MinPrice(ps, lo, hi);
      PositiveExtremes(ps, lo, hi);
      if ps[i].price <= swingHigh * 1.001 { ShortSignalWellFormed(ps, i, swingHigh * 1.001 * 1.002); }
      if ps[i].price >= swingLow * 0.999 { LongSignalWellFormed(ps, i, swingLow * 0.999 * 0.998); }
    }
  }

  lemma LiquiditySweepWellFormed(ps: seq<PricePoint>, i: nat)
    requires Eligible(ps, i)
    ensures LiquiditySweepSignal(ps, i).Some? ==> WellFormedAt(LiquiditySweepSignal(ps, i).value, ps, i)
  {
    var prevHigh := MaxPrice(ps, i - 11, i - 1);
    var prevLow := MinPrice(ps, i - 11, i - 1);
    if ps[i - 1].price > prevHigh && ps[i].price < prevHigh {
      ShortSignalWellFormed(ps, i, ps[i - 1].price);
    } else if ps[i - 1].price < prevLow && ps[i].price > prevLow {
      LongSignalWellFormed(ps, i, ps[i - 1].price);
    }
  }

  /**
   * Every signal of every detector enters at the current point, already
   * passes the driver's sanity check, and puts the target at twice the stop
   * distance in the trade's direction.
   */
  lemma DetectedSignalWellFormed(strategy: Strategy, ps: seq<PricePoint>, i: nat)
    requires Eligible(ps, i)
    ensures Detect(strategy, ps, i).Some? ==> WellFormedAt(Detect(strategy, ps, i).value, ps, i)
  {
    match strategy
    case MarketStructureShift => MarketStructureShiftWellFormed(ps, i);
    case OrderBlock => ObSideWellFormed(ps, i, Long); ObSideWellFormed(ps, i, Short);
    case FairValueGap => FairValueGapWellFormed(ps, i);
    case BreakerBlock => BreakerBlockWellFormed(ps, i);
    case LiquiditySweep => LiquiditySweepWellFormed(ps, i);
  }

  /** The sweep detector's stop is exactly the sweep candle's price, with no offset. */
  lemma LiquiditySweepStopAtSweepCandle(ps: seq<PricePoint>, i: nat)
    requires Eligible(ps, i)
    ensures LiquiditySweepSignal(ps, i).Some? ==> LiquiditySweepSignal(ps, i).value.stopLoss == ps[i - 1].price
    ensures LiquiditySweepSignal(ps, i).Some? ==>
      (LiquiditySweepSignal(ps, i).value.direction == Short <==> ps[i - 1].price > MaxPrice(ps, i - 11, i - 1))
  {
    var prevHigh := MaxPrice(ps, i - 11, i - 1);
    var prevLow := MinPrice(ps, i - 11, i - 1);
    assert prevLow <= ps[i - 2].price <= prevHigh;
  }

  /** The market-structure-shift stop is the low (long) or high (short) of the previous ten points. */
  lemma MarketStructureShiftStopAtSwing(ps: seq<PricePoint>, i: nat)
    requires Eligible(ps, i)
    ensures MarketStructureShiftSignal(ps, i).Some? ==>
      MarketStructureShiftSignal(ps, i).value.stopLoss ==
        if MarketStructureShiftSignal(ps, i).value.direction == Long then MinPrice(ps, i - 10, i) else MaxPrice(ps, i - 10, i)
  {}

  /** In the breaker detector the source's `findIndex(...) > -1` guard always holds. */
  lemma BreakerSwingIndexAlwaysFound(ps: seq<PricePoint>, i: nat)
    requires Eligible(ps, i) && i >= BreakerLookback + 5
    ensures exists k: int | i - BreakerLookback <= k < i - 3 :: ps[k].price == MaxPrice(ps, i - BreakerLookback, i - 3)
    ensures exists k: int | i - BreakerLookback <= k < i - 3 :: ps[k].price == MinPrice(ps, i - BreakerLookback, i - 3)
  {
    var kh := MaxPriceAttained(ps, i - BreakerLookback, i - 3);
    var kl := MinPriceAttained(ps, i - BreakerLookback, i - 3);
  }

  // ------------------------------------------------------------ Causality

  /** The two series hold the same points up to and including index `i`. */
  predicate AgreeUpTo(ps: seq<PricePoint>, qs: seq<PricePoint>, i: nat)
    requires i < |ps| && i < |qs|
  {
    ps[..i + 1] == qs[..i + 1]
  }


  lemma AgreeAt(ps: seq<PricePoint>, qs: seq<PricePoint>, i: nat, k: nat)
    requires i < |ps| && i < |qs| && AgreeUpTo(ps, qs, i) && k <= i
    ensures ps[k] == qs[k]
  {
    assert ps[..i + 1][k] == qs[..i + 1][k];
  }

  /** The maximum of a window that ends at or before `i + 1` agrees on two series that agree up to `i`. */
  lemma WindowMaxAgrees(ps: seq<PricePoint>, qs: seq<PricePoint>, i: nat, lo: nat, hi: nat)
    requires i < |ps| && i < |qs| && AgreeUpTo(ps, qs, i) && lo < hi <= i + 1
    ensures MaxPrice(ps, lo, hi) == MaxPrice(qs, lo, hi)
  {
    forall k | lo <= k < hi ensures ps[k].price == qs[k].price { AgreeAt(ps, qs, i, k); }
    MaxDependsOnWindowOnly(ps, qs, lo, hi);
  }

  /** The minimum of a window that ends at or before `i + 1` agrees on two series that agree up to `i`. */
  lemma WindowMinAgrees(ps: seq<PricePoint>, qs: seq<PricePoint>, i: nat, lo: nat, hi: nat)
    requires i < |ps| && i < |qs| && AgreeUpTo(ps, qs, i) && lo < hi <= i + 1
    ensures MinPrice(ps, lo, hi) == MinPrice(qs, lo, hi)
  {
    forall k | lo <= k < hi ensures ps[k].price == qs[k].price { AgreeAt(ps, qs, i, k); }
    MinDependsOnWindowOnly(ps, qs, lo, hi);
  }

  /**
   * No look-ahead: the market-structure-shift, fair-value-gap, breaker and
   * sweep detectors give the same answer at `i` on any two series that agree
   * on `ps[0..i]`. The order block is excluded: see OrderBlockReadsAhead.
   */
  lemma DetectorIsCausal(strategy: Strategy, ps: seq<PricePoint>, qs: seq<PricePoint>, i: nat)
    requires strategy != OrderBlock
    requires Eligible(ps, i) && Eligible(qs, i) && AgreeUpTo(ps, qs, i)
    ensures Detect(strategy, ps, i) == Detect(strategy, qs, i)
  {
    match strategy
    case MarketStructureShift => MarketStructureShiftIsCausal(ps, qs, i);
    case FairValueGap => FairValueGapIsCausal(ps, qs, i);
    case BreakerBlock => BreakerBlockIsCausal(ps, qs, i);
    case LiquiditySweep => LiquiditySweepIsCausal(ps, qs, i);
  }

  lemma MarketStructureShiftIsCausal(ps: seq<PricePoint>, qs: seq<PricePoint>, i: nat)
    requires Eligible(ps, i) && Eligible(qs, i) && AgreeUpTo(ps, qs, i)
    ensures MarketStructureShiftSignal(ps, i) == MarketStructureShiftSignal(qs, i)
  {
    AgreeAt(ps, qs, i, i);
    AgreeAt(ps, qs, i, i - 1);
    AgreeAt(ps, qs, i, i - LookbackPeriod);
    WindowMaxAgrees(ps, qs, i, i - 10, i);
    WindowMinAgrees(ps, qs, i, i - 10, i);
    MarketStructureShiftFromInputs(ps, qs, i);
  }

  /** The market-structure-shift signal is a function of the current, previous and 15-back points and the swing extremes. */
  lemma MarketStructureShiftFromInputs(ps: seq<PricePoint>, qs: seq<PricePoint>, i: nat)
    requires Eligible(ps, i) && Eligible(qs, i)
    requires ps[i] == qs[i] && ps[i - 1] == qs[i - 1] && ps[i - LookbackPeriod] == qs[i - LookbackPeriod]
    requires MaxPrice(ps, i - 10, i) == MaxPrice(qs, i - 10, i) && MinPrice(ps, i - 10, i) == MinPrice(qs, i - 10, i)
    ensures MarketStructureShiftSignal(ps, i) == MarketStructureShiftSignal(qs, i)
  {}

  lemma FairValueGapIsCausal(ps: seq<PricePoint>, qs: seq<PricePoint>, i: nat)
    requires Eligible(ps, i) && Eligible(qs, i) && AgreeUpTo(ps, qs, i)
    ensures FairValueGapSignal(ps, i) == FairValueGapSignal(qs, i)
  {
    AgreeAt(ps, qs, i, i);
    AgreeAt(ps, qs, i, i - 1);
    AgreeAt(ps, qs, i, i - 2);
  }

  lemma LiquiditySweepIsCausal(ps: seq<PricePoint>, qs: seq<PricePoint>, i: nat)
    requires Eligible(ps, i) && Eligible(qs, i) && AgreeUpTo(ps, qs, i)
    ensures LiquiditySweepSignal(ps, i) == LiquiditySweepSignal(qs, i)
  {
    AgreeAt(ps, qs, i, i);
    AgreeAt(ps, qs, i, i - 1);
    WindowMaxAgrees(ps, qs, i, i - 11, i - 1);
    WindowMinAgrees(ps, qs, i, i - 11, i - 1);
    LiquiditySweepFromInputs(ps, qs, i);
  }

  /** The sweep signal is a function of the last two points and the extremes of the ten before them. */
  lemma LiquiditySweepFromInputs(ps: seq<PricePoint>, qs: seq<PricePoint>, i: nat)
    requires Eligible(ps, i) && Eligible(qs, i) && ps[i - 1] == qs[i - 1] && ps[i] == qs[i]
    requires MaxPrice(ps, i - 11, i - 1) == MaxPrice(qs, i - 11, i - 1)
    requires MinPrice(ps, i - 11, i - 1) == MinPrice(qs, i - 11, i - 1)
    ensures LiquiditySweepSignal(ps, i) == LiquiditySweepSignal(qs, i)
  {}

  lemma BreakerBlockIsCausal(ps: seq<PricePoint>, qs: seq<PricePoint>, i: nat)
    requires Eligible(ps, i) && Eligible(qs, i) && AgreeUpTo(ps, qs, i)
    ensures BreakerBlockSignal(ps, i) == BreakerBlockSignal(qs, i)
  {
    if i >= BreakerLookback + 5 {
      AgreeAt(ps, qs, i, i);
      WindowMaxAgrees(ps, qs, i, i - BreakerLookback, i - 3);
      WindowMinAgrees(ps, qs, i, i - BreakerLookback, i - 3);
      WindowMaxAgrees(ps, qs, i, i - 5, i);
      WindowMinAgrees(ps, qs, i, i - 5, i);
      BreakerBlockFromInputs(ps, qs, i);
    }
  }

  /** The breaker signal is a function of the current point and the four window extremes. */
  lemma BreakerBlockFromInputs(ps: seq<PricePoint>, qs: seq<PricePoint>, i: nat)
    requires Eligible(ps, i) && Eligible(qs, i) && i >= BreakerLookback + 5 && ps[i] == qs[i]
    requires MaxPrice(ps, i - BreakerLookback, i - 3) == MaxPrice(qs, i - BreakerLookback, i - 3)
    requires MinPrice(ps, i - BreakerLookback, i - 3) == MinPrice(qs, i - BreakerLookback, i - 3)
    requires MaxPrice(ps, i - 5, i) == MaxPrice(qs, i - 5, i) && MinPrice(ps, i - 5, i) == MinPrice(qs, i - 5, i)
    ensures BreakerBlockSignal(ps, i) == BreakerBlockSignal(qs, i)
  {
    BreakerSwingIndexAlwaysFound(ps, i);
    BreakerSwingIndexAlwaysFound(qs, i);
  }

  // ---------------------------------------------------------- Flat series

  lemma FlatObSide(ps: seq<PricePoint>, i: nat, c: real, side: Direction)
    requires Eligible(ps, i) && Flat(ps, c)
    ensures ObSideSignal(ps, i, side) == None
  {
    assert !StrongMove(ps, i, side) by {
      forall k: int | i - 4 <= k <= i
        ensures (ps[k].price - ps[k - 1].price) / ps[k - 1].price == 0.0
        ensures (ps[k - 1].price - ps[k].price) / ps[k - 1].price == 0.0
      {
        assert ps[k].price == c && ps[k - 1].price == c;
      }
    }
  }

  lemma FlatBreaker(ps: seq<PricePoint>, i: nat, c: real)
    requires Eligible(ps, i) && Flat(ps, c)
    ensures BreakerBlockSignal(ps, i) == None
  {
    if i >= BreakerLookback + 5 {
      FlatExtremes(ps, c, i - BreakerLookback, i - 3);
      FlatExtremes(ps, c, i - 5, i);
    }
  }

  /** No detector fires anywhere on a series whose prices are all equal. */
  lemma FlatSeriesNoSignal(strategy: Strategy, ps: seq<PricePoint>, i: nat, c: real)
    requires Eligible(ps, i) && Flat(ps, c)
    ensures Detect(strategy, ps, i) == None
  {
    match strategy
    case MarketStructureShift =>
      FlatExtremes(ps, c, i - 10, i);
    case OrderBlock =>
      FlatObSide(ps, i, c, Long);
      FlatObSide(ps, i, c, Short);
    case FairValueGap =>
      assert ps[i - 2].price == c && ps[i - 1].price == c;
    case BreakerBlock =>
      FlatBreaker(ps, i, c);
    case LiquiditySweep =>
      FlatExtremes(ps, c, i - 11, i - 1);
      assert ps[i - 1].price == c && ps[i].price == c;
  }

  // ------------------------------------------------- Order-block look-ahead

  /**
   * A series of 21 points: 100 up to index 10, 101 from 11 to 14, 100.95 at
   * the current index 15, then either a 1% rise at index 16 (`rise`) or
   * 100.95 throughout.
   */
  function LookAheadPrice(k: int, rise: bool): real {
    if k <= 10 then 100.0
    else if k <= 14 then 101.0
    else if k == 16 && rise then 102.0
    else 100.95
  }

  function LookAheadSeries(rise: bool): (ps: seq<PricePoint>)
    ensures |ps| == 21 && Eligible(ps, 15)
    ensures forall k :: 0 <= k < 21 ==> ps[k] == PricePoint(k, LookAheadPrice(k, rise))
  {
    seq(21, k => PricePoint(k, LookAheadPrice(k, rise)))
  }

  /** Neither series has a 0.4% drop among the last five points, so the bearish side stays silent. */
  lemma LookAheadNoBearishSide(rise: bool)
    ensures ObSideSignal(LookAheadSeries(rise), 15, Short) == None
  {
    var ps := LookAheadSeries(rise);
    assert forall k :: 10 <= k <= 15 ==> ps[k].price == LookAheadPrice(k, rise);
    assert !StrongMove(ps, 15, Short);
  }

  /** With the rise at index 16, candle 14 is an order block whose zone holds the current price: a long signal. */
  lemma LookAheadWithRise(rise: bool)
    requires rise
    ensures OrderBlockSignal(LookAheadSeries(rise), 15).Some?
  {
    var ps := LookAheadSeries(rise);
    LookAheadNoBearishSide(rise);
    assert ps[11].price == 101.0 && ps[10].price == 100.0;
    assert StrongMove(ps, 15, Long);
    LookAheadCandleWithRise(rise);
    assert ps[15].price == 100.95;
  }

  /** With the rise, the backward scan stops at once at candle 14, confirmed by the point after the current one. */
  lemma LookAheadCandleWithRise(rise: bool)
    requires rise
    ensures ObCandle(LookAheadSeries(rise), 15, Long, 14) == Some(14)
  {
    var ps := LookAheadSeries(rise);
    assert ps[14].price == 101.0 && ps[13].price == 101.0 && ps[16].price == 102.0;
    assert StrongMoveAfter(ps, 14, Long);
  }

  /** Without the rise, the backward scan stops at candle 10, whose zone misses the current price. */
  lemma LookAheadWithoutRise(rise: bool)
    requires !rise
    ensures OrderBlockSignal(LookAheadSeries(rise), 15).None?
  {
    var ps := LookAheadSeries(rise);
    LookAheadNoBearishSide(rise);
    LookAheadCandleWithoutRise(rise);
    assert ps[10].price == 100.0 && ps[15].price == 100.95;
  }

  /** Without the rise, candles 14 to 11 are passed over and candle 10 is the first order block met. */
  lemma LookAheadCandleWithoutRise(rise: bool)
    requires !rise
    ensures ObCandle(LookAheadSeries(rise), 15, Long, 14) == Some(10)
  {
    var ps := LookAheadSeries(rise);
    assert forall k :: 9 <= k <= 17 ==> ps[k].price == LookAheadPrice(k, rise);
    assert !StrongMoveAfter(ps, 14, Long);
    assert !StrongMoveAfter(ps, 13, Long);
    assert !StrongMoveAfter(ps, 12, Long);
    assert !ObCandidate(ps, 11, Long);
    assert StrongMoveAfter(ps, 10, Long);
  }

  /**
   * The order-block detector looks ahead: the strong move confirming a
   * candidate candle is looked for in the three points after it, so for a
   * candidate just before `i` the signal at `i` depends on the points at
   * `i + 1` and `i + 2`. Two series that agree up to index 15 differ at 15,
   * one giving a signal and the other none.
   */
  lemma OrderBlockReadsAhead() returns (ps: seq<PricePoint>, qs: seq<PricePoint>)
    ensures Eligible(ps, 15) && Eligible(qs, 15) && AgreeUpTo(ps, qs, 15)
    ensures OrderBlockSignal(ps, 15).Some? && OrderBlockSignal(qs, 15).None?
  {
    ps := LookAheadSeries(true);
    qs := LookAheadSeries(false);
    LookAheadWithRise(true);
    LookAheadWithoutRise(false);
    LookAheadSeriesAgree(true, false);
  }

  /** The two look-ahead series differ only after the current index. */
  lemma LookAheadSeriesAgree(a: bool, b: bool)
    ensures AgreeUpTo(LookAheadSeries(a), LookAheadSeries(b), 15)
  {
    var ps, qs := LookAheadSeries(a), LookAheadSeries(b);
    forall k | 0 <= k < 16
      ensures ps[..16][k] == qs[..16][k]
    {
      assert ps[k] == PricePoint(k, LookAheadPrice(k, a));
    }
  }
}
