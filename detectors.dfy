/**
 * The five strategy detectors of services/simulationService.ts. Each one is
 * consulted by the driver at an index `i` with 15 <= i < |ps| and either
 * declines or proposes a signal entering at `ps[i]`; every proposal puts the
 * take-profit twice the stop distance away from the entry (risk:reward 2).
 *
 * Within the driver's range (i >= 15) the length guards of the source
 * (a trend slice longer than 5, i >= 15 for the order block, a recent slice
 * of at least 4 points, a sweep window of 10) always pass and are not repeated.
 */
module Detectors {
  import opened Wrappers
  import opened Types
  import opened Series

  const RiskRewardRatio: real := 2.0
  const LookbackPeriod: nat := 15
  const ObLookback: nat := 10
  const BreakerLookback: nat := 12

  /** A candidate trade before resolution. */
  datatype Signal = Signal(entryTime: int, entryPrice: real, direction: Direction, stopLoss: real, takeProfit: real)

  /** A long entry at `p` with the given stop, take-profit placed at risk:reward 2 above. */
  function LongSignal(p: PricePoint, stopLoss: real): Signal {
    Signal(p.time, p.price, Long, stopLoss, p.price + (p.price - stopLoss) * RiskRewardRatio)
  }

  /** A short entry at `p` with the given stop, take-profit placed at risk:reward 2 below. */
  function ShortSignal(p: PricePoint, stopLoss: real): Signal {
    Signal(p.time, p.price, Short, stopLoss, p.price - (stopLoss - p.price) * RiskRewardRatio)
  }

  /** The driver's sanity check: the entry lies strictly between stop and target, on the right sides. */
  predicate Sane(s: Signal) {
    Bracketed(s.direction, s.entryPrice, s.stopLoss, s.takeProfit)
  }

  /** The target is twice the stop distance from the entry, in the trade's favour. */
  predicate RiskRewardTwo(s: Signal) {
    if s.direction == Long then s.takeProfit - s.entryPrice == 2.0 * (s.entryPrice - s.stopLoss)
    else s.entryPrice - s.takeProfit == 2.0 * (s.stopLoss - s.entryPrice)
  }

  /** The index range in which the driver consults a detector. */
  predicate Eligible(ps: seq<PricePoint>, i: nat) {
    LookbackPeriod <= i < |ps| && PositivePrices(ps)
  }

  // ---------------------------------------------------------------- MSS

  /**
   * Market structure shift: the current price closes beyond the extreme of
   * the previous 10 points while the point 15 back shows the opposite trend.
   * The bullish test shadows the bearish one: if it matches but the trend
   * filter fails, the bearish test is not tried.
   */
  function MarketStructureShiftSignal(ps: seq<PricePoint>, i: nat): Option<Signal>
    requires Eligible(ps, i)
  {
    MarketStructureShiftDecision(ps[i], ps[i - 1].price, ps[i - LookbackPeriod].price,
                                 MaxPrice(ps, i - 10, i), MinPrice(ps, i - 10, i))
  }

  /** The shift test given the current point, the previous price, the price 15 back and the swing extremes. */
  function MarketStructureShiftDecision(cur: PricePoint, prev: real, trendStart: real, swingHigh: real, swingLow: real): Option<Signal> {
    if cur.price > swingHigh && prev <= swingHigh then
      if trendStart > prev then Some(LongSignal(cur, swingLow)) else None
    else if cur.price < swingLow && prev >= swingLow then
      if trendStart < prev then Some(ShortSignal(cur, swingHigh)) else None
    else None
  }

  // ---------------------------------------------------------- Order block

  /** Some step among the last five (ending at `i`) moves more than 0.4% in direction `side`. */
  predicate StrongMove(ps: seq<PricePoint>, i: nat, side: Direction)
    requires 5 <= i < |ps| && PositivePrices(ps)
  {
    exists k: int | i - 4 <= k <= i ::
      if side == Long then (ps[k].price - ps[k - 1].price) / ps[k - 1].price > 0.004
      else (ps[k - 1].price - ps[k].price) / ps[k - 1].price > 0.004
  }

  /** One of the (up to three) points after `j` moves 0.3% beyond `ps[j]` in direction `side`. */
  predicate StrongMoveAfter(ps: seq<PricePoint>, j: nat, side: Direction)
    requires j < |ps|
  {
    exists c: int | j + 1 <= c < Min(j + 4, |ps|) ::
      if side == Long then ps[c].price > ps[j].price * 1.003 else ps[c].price < ps[j].price * 0.997
  }

  /** `j` is an order-block candle: a pull-back against `side` followed by a strong move with it. */
  predicate ObCandidate(ps: seq<PricePoint>, j: int, side: Direction)
    requires j < |ps|
  {
    && j > 0
    && (if side == Long then ps[j].price <= ps[j - 1].price else ps[j].price >= ps[j - 1].price)
    && StrongMoveAfter(ps, j, side)
  }

  /** The order-block candle found by scanning backwards from `j` down to `i - 10`: the first candidate met. */
  function ObCandle(ps: seq<PricePoint>, i: nat, side: Direction, j: int): (r: Option<nat>)
    requires ObLookback <= i < |ps| && i - ObLookback - 1 <= j < i
    ensures r.Some? ==> i - ObLookback <= r.value <= j && ObCandidate(ps, r.value, side)
    ensures r.Some? ==> forall m :: r.value < m <= j ==> !ObCandidate(ps, m, side)
    ensures r.None? ==> forall m :: i - ObLookback <= m <= j ==> !ObCandidate(ps, m, side)
    decreases j - (i - ObLookback) + 1
  {
    if j < i - ObLookback then None
    else if ObCandidate(ps, j, side) then Some(j)
    else ObCandle(ps, i, side, j - 1)
  }

  /** The signal of one side of the order-block detector: a retest of the block's +-0.1% zone. */
  function ObSideSignal(ps: seq<PricePoint>, i: nat, side: Direction): Option<Signal>
    requires Eligible(ps, i)
  {
    if !StrongMove(ps, i, side) then None
    else
      match ObCandle(ps, i, side, i - 1)
      case None => None
      case Some(j) =>
        var obLow := ps[j].price * 0.999;
        var obHigh := ps[j].price * 1.001;
        var cur := ps[i];
        if side == Long then
          if cur.price >= obLow && cur.price <= obHigh && cur.price < ps[i - 1].price
          then Some(LongSignal(cur, obLow * 0.998)) else None
        else
          if cur.price >= obLow && cur.price <= obHigh && cur.price > ps[i - 1].price
          then Some(ShortSignal(cur, obHigh * 1.002)) else None
  }

  /** Order block: the bullish test runs first and a bearish match overrides it. */
  function OrderBlockSignal(ps: seq<PricePoint>, i: nat): Option<Signal>
    requires Eligible(ps, i)
  {
    var bullish := ObSideSignal(ps, i, Long);
    var bearish := ObSideSignal(ps, i, Short);
    if bearish.Some? then bearish else bullish
  }

  /** The backward search loop of the order-block detector; -1 when no candle qualifies. */
  method FindOrderBlockCandle(ps: seq<PricePoint>, i: nat, side: Direction) returns (obCandleIndex: int)
    requires ObLookback <= i < |ps|
    ensures obCandleIndex == match ObCandle(ps, i, side, i - 1) case Some(j) => j case None => -1
  {
    obCandleIndex := -1;
    var j: int := i - 1;
    while j >= i - ObLookback
      invariant i - ObLookback - 1 <= j <= i - 1
      invariant ObCandle(ps, i, side, i - 1) == ObCandle(ps, i, side, j)
    {
      if j > 0 && (if side == Long then ps[j].price <= ps[j - 1].price else ps[j].price >= ps[j - 1].price) {
        var hasStrongMoveAfter := StrongMoveAfter(ps, j, side);
        if hasStrongMoveAfter {
          obCandleIndex := j;
          return;
        }
      }
      j := j - 1;
    }
  }

  /** One side of the order-block detector as the source runs it: momentum test, backward search, zone retest. */
  method DetectOrderBlockSide(ps: seq<PricePoint>, i: nat, side: Direction) returns (signal: Option<Signal>)
    requires Eligible(ps, i)
    ensures signal == ObSideSignal(ps, i, side)
  {
    var cur := ps[i];
    signal := None;
    if StrongMove(ps, i, side) {
      var obCandleIndex := FindOrderBlockCandle(ps, i, side);
      if obCandleIndex > -1 {
        var obLow := ps[obCandleIndex].price * 0.999;
        var obHigh := ps[obCandleIndex].price * 1.001;
        if side == Long {
          if cur.price >= obLow && cur.price <= obHigh && cur.price < ps[i - 1].price {
            signal := Some(LongSignal(cur, obLow * 0.998));
          }
        } else {
          if cur.price >= obLow && cur.price <= obHigh && cur.price > ps[i - 1].price {
            signal := Some(ShortSignal(cur, obHigh * 1.002));
          }
        }
      }
    }
  }

  /** The order-block detector: the bullish search first, then the bearish one, whose match overwrites. */
  method DetectOrderBlock(ps: seq<PricePoint>, i: nat) returns (signal: Option<Signal>)
    requires Eligible(ps, i)
    ensures signal == OrderBlockSignal(ps, i)
  {
    signal := DetectOrderBlockSide(ps, i, Long);
    var bearish := DetectOrderBlockSide(ps, i, Short);
    if bearish.Some? {
      signal := bearish;
    }
  }

  // ------------------------------------------------------- Fair value gap

  /**
   * Fair value gap over `ps[i-2..i]`: a step of more than 0.3% from p0 to p1
   * and p2 back inside the half of the gap nearer p0. The bearish test runs
   * last and overrides.
   */
  function FairValueGapSignal(ps: seq<PricePoint>, i: nat): Option<Signal>
    requires Eligible(ps, i)
  {
    var p0, p1, p2 := ps[i - 2].price, ps[i - 1].price, ps[i].price;
    var bullish :=
      if (p1 - p0) / p0 > 0.003 && p0 < p2 && p2 < p1 && p2 > p0 && p2 < (p1 + p0) / 2.0
      then Some(LongSignal(ps[i], p0 * 0.998)) else None;
    var bearish :=
      if (p0 - p1) / p0 > 0.003 && p0 > p2 && p2 > p1 && p2 < p0 && p2 > (p0 + p1) / 2.0
      then Some(ShortSignal(ps[i], p0 * 1.002)) else None;
    if bearish.Some? then bearish else bullish
  }

  // -------------------------------------------------------- Breaker block

  /**
   * Breaker block: the swing extremes of `ps[i-12..i-4]`, a break of one
   * extreme within the last five points, the current price beyond the other
   * extreme and retesting the broken one within +-0.1%. The bullish test
   * runs last and overrides. Needs i >= 17.
   */
  function BreakerBlockSignal(ps: seq<PricePoint>, i: nat): Option<Signal>
    requires Eligible(ps, i)
  {
    if i < BreakerLookback + 5 then None
    else
      var lo, hi := i - BreakerLookback, i - 3;
      var swingHigh := MaxPrice(ps, lo, hi);
      var swingLow := MinPrice(ps, lo, hi);
      BreakerBlockDecision(ps[i], swingHigh, swingLow,
                           exists k: int | lo <= k < hi :: ps[k].price == swingHigh,
                           exists k: int | lo <= k < hi :: ps[k].price == swingLow,
                           MaxPrice(ps, i - 5, i), MinPrice(ps, i - 5, i))
  }

  /**
   * The breaker test given the current point, the swing extremes, whether
   * each extreme was found in the window (`findIndex(...) > -1`), and the
   * extremes of the last five points.
   */
  function BreakerBlockDecision(cur: PricePoint, swingHigh: real, swingLow: real,
                                swingHighFound: bool, swingLowFound: bool,
                                recentHigh: real, recentLow: real): Option<Signal> {
    var bearish :=
      if recentHigh > swingHigh && cur.price < swingLow && swingHighFound
         && cur.price >= swingHigh * 0.999 && cur.price <= swingHigh * 1.001
      then Some(ShortSignal(cur, swingHigh * 1.001 * 1.002)) else None;
    var bullish :=
      if recentLow < swingLow && cur.price > swingHigh && swingLowFound
         && cur.price >= swingLow * 0.999 && cur.price <= swingLow * 1.001
      then Some(LongSignal(cur, swingLow * 0.999 * 0.998)) else None;
    if bullish.Some? then bullish else bearish
  }

  // ------------------------------------------------------ Liquidity sweep

  /**
   * Liquidity sweep: `ps[i-1]` breaches the extreme of the ten points before
   * it and `ps[i]` closes back inside; the stop sits exactly at the sweep price.
   */
  function LiquiditySweepSignal(ps: seq<PricePoint>, i: nat): Option<Signal>
    requires Eligible(ps, i)
  {
    SweepDecision(MaxPrice(ps, i - 11, i - 1), MinPrice(ps, i - 11, i - 1), ps[i - 1], ps[i])
  }

  /** The sweep test given the previous window's extremes, the sweep candle and the current point. */
  function SweepDecision(prevHigh: real, prevLow: real, sweep: PricePoint, cur: PricePoint): Option<Signal> {
    if sweep.price > prevHigh && cur.price < prevHigh then Some(ShortSignal(cur, sweep.price))
    else if sweep.price < prevLow && cur.price > prevLow then Some(LongSignal(cur, sweep.price))
    else None
  }

  // ------------------------------------------------------------- Dispatch

  /** The detector selected by the strategy, consulted at index `i`. */
  function Detect(strategy: Strategy, ps: seq<PricePoint>, i: nat): Option<Signal>
    requires Eligible(ps, i)
  {
    match strategy
    case MarketStructureShift => MarketStructureShiftSignal(ps, i)
    case OrderBlock => OrderBlockSignal(ps, i)
    case FairValueGap => FairValueGapSignal(ps, i)
    case BreakerBlock => BreakerBlockSignal(ps, i)
    case LiquiditySweep => LiquiditySweepSignal(ps, i)
  }

  /** The `switch (params.strategy)` of the driver, with the order block run by its search loops. */
  method DetectSignal(strategy: Strategy, ps: seq<PricePoint>, i: nat) returns (signal: Option<Signal>)
    requires Eligible(ps, i)
    ensures signal == Detect(strategy, ps, i)
  {
    match strategy {
      case OrderBlock => signal := DetectOrderBlock(ps, i);
      case MarketStructureShift => signal := MarketStructureShiftSignal(ps, i);
      case FairValueGap => signal := FairValueGapSignal(ps, i);
      case BreakerBlock => signal := BreakerBlockSignal(ps, i);
      case LiquiditySweep => signal := LiquiditySweepSignal(ps, i);
    }
  }
}
