/**
 * The forward scan of services/simulationService.ts that settles an opened
 * trade: walking the points after the entry, the first point that reaches
 * the take-profit wins and the first that reaches the stop loses, the
 * take-profit being tested first at each point. When no point touches
 * either level, the last point of the series closes the trade: a win when
 * it is on the profitable side of the entry, else a loss, and still pending
 * when it lies within a tenth of the stop distance of the entry. The profit
 * is the signed distance from entry to exit, computed once the scan is over.
 */
module Resolver {
  import opened Wrappers
  import opened Types

  /** The point reaches the take-profit level of the trade. */
  predicate ReachesTakeProfit(t: Trade, p: PricePoint) {
    if t.direction == Long then p.price >= t.takeProfit else p.price <= t.takeProfit
  }

  /** The point reaches the stop-loss level of the trade. */
  predicate ReachesStopLoss(t: Trade, p: PricePoint) {
    if t.direction == Long then p.price <= t.stopLoss else p.price >= t.stopLoss
  }

  predicate Touches(t: Trade, p: PricePoint) {
    ReachesTakeProfit(t, p) || ReachesStopLoss(t, p)
  }

  /** The distance from entry to stop. */
  function Risk(t: Trade): real { Abs(t.stopLoss - t.entryPrice) }

  /** The distance from entry to target. */
  function Reward(t: Trade): real { Abs(t.takeProfit - t.entryPrice) }

  /** The outcome assigned at the last point when no level was touched. */
  function EndOfSeriesOutcome(t: Trade, last: PricePoint): Outcome {
    if Abs(last.price - t.entryPrice) < Risk(t) * 0.1 then Pending
    else if (t.direction == Long && last.price > t.entryPrice) || (t.direction == Short && last.price < t.entryPrice) then Win
    else Loss
  }

  /** The trade closed at a point with the given outcome and exit price. */
  function ClosedAt(t: Trade, outcome: Outcome, p: PricePoint, exitPrice: real): Trade {
    t.(outcome := outcome, exitTime := Some(p.time), exitPrice := Some(exitPrice))
  }

  /** The trade's fields the scan never changes. */
  predicate SameTerms(t: Trade, r: Trade) {
    && r.entryTime == t.entryTime && r.entryPrice == t.entryPrice
    && r.stopLoss == t.stopLoss && r.takeProfit == t.takeProfit && r.direction == t.direction
    && r.strategy == t.strategy && r.instrument == t.instrument && r.timeFrame == t.timeFrame
  }

  /** The state of the trade once the scan has gone through every point from `j` on. */
  function ScanFrom(ps: seq<PricePoint>, t: Trade, j: nat): (r: Trade)
    ensures SameTerms(t, r) && r.profit == t.profit
    ensures j >= |ps| ==> r == t
    ensures j < |ps| ==> r.exitTime.Some? && r.exitPrice.Some?
    decreases |ps| - j
  {
    if j >= |ps| then t
    else if ReachesTakeProfit(t, ps[j]) then ClosedAt(t, Win, ps[j], t.takeProfit)
    else if ReachesStopLoss(t, ps[j]) then ClosedAt(t, Loss, ps[j], t.stopLoss)
    else if j == |ps| - 1 then ClosedAt(t, EndOfSeriesOutcome(t, ps[j]), ps[j], ps[j].price)
    else ScanFrom(ps, t, j + 1)
  }

  /** The profit of a trade with an exit: exit minus entry for a long, entry minus exit for a short. */
  function WithProfit(t: Trade): (r: Trade)
    ensures t.exitPrice.None? ==> r == t
    ensures t.exitPrice.Some? ==> r == t.(profit := r.profit)
    ensures t.exitPrice.Some? && t.direction == Long ==> r.profit == Some(t.exitPrice.value - t.entryPrice)
    ensures t.exitPrice.Some? && t.direction == Short ==> r.profit == Some(t.entryPrice - t.exitPrice.value)
  {
    if t.exitPrice.Some? then
      t.(profit := Some(if t.direction == Long then t.exitPrice.value - t.entryPrice else t.entryPrice - t.exitPrice.value))
    else t
  }

  /** The trade opened at index `i`, settled by the points after it. */
  function Resolution(ps: seq<PricePoint>, i: nat, t: Trade): Trade {
    WithProfit(ScanFrom(ps, t, i + 1))
  }

  /** The `for (let j = i + 1; ...)` loop with its `break`s, followed by the profit computation. */
  method ResolveTrade(ps: seq<PricePoint>, i: nat, t: Trade) returns (trade: Trade)
    requires i < |ps|
    ensures trade == Resolution(ps, i, t)
  {
    trade := t;
    var j := i + 1;
    while j < |ps|
      invariant i + 1 <= j <= |ps|
      invariant ScanFrom(ps, t, i + 1) == if j < |ps| then ScanFrom(ps, t, j) else trade
      invariant j < |ps| ==> trade == t
    {
      var futureCandle := ps[j];
      if ReachesTakeProfit(trade, futureCandle) {
        trade := ClosedAt(trade, Win, futureCandle, trade.takeProfit);
        break;
      }
      if ReachesStopLoss(trade, futureCandle) {
        trade := ClosedAt(trade, Loss, futureCandle, trade.stopLoss);
        break;
      }
      if j == |ps| - 1 {
        trade := ClosedAt(trade, EndOfSeriesOutcome(trade, futureCandle), futureCandle, futureCandle.price);
      }
      j := j + 1;
    }
    if trade.exitPrice.Some? {
      trade := trade.(profit := Some(if trade.direction == Long then trade.exitPrice.value - trade.entryPrice
                                     else trade.entryPrice - trade.exitPrice.value));
    }
  }

  // ------------------------------------------------------------------ Facts

  /** The scan from `j` stops at the first touching point `k`. */
  lemma {:induction false} ScanStopsAtFirstTouch(ps: seq<PricePoint>, t: Trade, j: nat, k: nat)
    requires j <= k < |ps| && Touches(t, ps[k])
    requires forall m :: j <= m < k ==> !Touches(t, ps[m])
    ensures ScanFrom(ps, t, j) ==
      if ReachesTakeProfit(t, ps[k]) then ClosedAt(t, Win, ps[k], t.takeProfit) else ClosedAt(t, Loss, ps[k], t.stopLoss)
    decreases k - j
  {
    if j < k {
      assert !Touches(t, ps[j]);
      ScanStopsAtFirstTouch(ps, t, j + 1, k);
    }
  }

  /** With no touching point from `j` on, the scan closes the trade at the last point by the end-of-series rule. */
  lemma {:induction false} ScanWithoutTouch(ps: seq<PricePoint>, t: Trade, j: nat)
    requires j < |ps|
    requires forall m :: j <= m < |ps| ==> !Touches(t, ps[m])
    ensures ScanFrom(ps, t, j) == ClosedAt(t, EndOfSeriesOutcome(t, ps[|ps| - 1]), ps[|ps| - 1], ps[|ps| - 1].price)
    decreases |ps| - j
  {
    assert !Touches(t, ps[j]);
    if j < |ps| - 1 {
      ScanWithoutTouch(ps, t, j + 1);
    }
  }

  /**
   * A trade opened at `i` is settled at the first later point touching a
   * level, the take-profit winning a tie, with the exit at that level.
   */
  lemma ResolutionAtFirstTouch(ps: seq<PricePoint>, i: nat, t: Trade, k: nat)
    requires i < k < |ps| && Touches(t, ps[k])
    requires forall m :: i < m < k ==> !Touches(t, ps[m])
    ensures Resolution(ps, i, t).outcome == if ReachesTakeProfit(t, ps[k]) then Win else Loss
    ensures Resolution(ps, i, t).exitTime == Some(ps[k].time)
    ensures Resolution(ps, i, t).exitPrice == Some(if ReachesTakeProfit(t, ps[k]) then t.takeProfit else t.stopLoss)
  {
    ScanStopsAtFirstTouch(ps, t, i + 1, k);
  }

  /** A trade whose levels are never touched is closed at the last point of the series. */
  lemma ResolutionWithoutTouch(ps: seq<PricePoint>, i: nat, t: Trade)
    requires i + 1 < |ps|
    requires forall m :: i < m < |ps| ==> !Touches(t, ps[m])
    ensures Resolution(ps, i, t).outcome == EndOfSeriesOutcome(t, ps[|ps| - 1])
    ensures Resolution(ps, i, t).exitTime == Some(ps[|ps| - 1].time)
    ensures Resolution(ps, i, t).exitPrice == Some(ps[|ps| - 1].price)
  {
    ScanWithoutTouch(ps, t, i + 1);
  }

  /** A trade opened at the last point has nothing to scan and stays as opened. */
  lemma ResolutionAtLastPoint(ps: seq<PricePoint>, i: nat, t: Trade)
    requires i + 1 >= |ps| && t.exitPrice.None?
    ensures Resolution(ps, i, t) == t
  {}

  /**
   * What a settled trade's profit tells about its outcome: a win earns
   * something but never more than the target distance, a loss loses
   * something but never more than the stop distance, and a trade left
   * pending exits within a tenth of the stop distance of its entry.
   */
  predicate ProfitMatchesOutcome(r: Trade) {
    && r.exitTime.Some? && r.exitPrice.Some? && r.profit.Some?
    && (r.outcome == Win ==> 0.0 < r.profit.value <= Reward(r))
    && (r.outcome == Loss ==> -Risk(r) <= r.profit.value < 0.0)
    && (r.outcome == Pending ==> Abs(r.profit.value) < Risk(r) * 0.1)
  }

  /** Every bracketed trade with at least one later point settles with a profit that matches its outcome. */
  lemma SettledProfitMatchesOutcome(ps: seq<PricePoint>, i: nat, t: Trade)
    requires i + 1 < |ps| && Bracketed(t.direction, t.entryPrice, t.stopLoss, t.takeProfit)
    ensures ProfitMatchesOutcome(Resolution(ps, i, t))
    ensures SameTerms(t, Resolution(ps, i, t))
  {
    var k := FirstTouchFrom(ps, t, i + 1);
    if k < |ps| {
      ScanStopsAtFirstTouch(ps, t, i + 1, k);
    } else {
      ScanWithoutTouch(ps, t, i + 1);
    }
  }

  /** The first touching index at or after `j`, or |ps| when there is none. */
  lemma {:induction false} FirstTouchFrom(ps: seq<PricePoint>, t: Trade, j: nat) returns (k: nat)
    requires j <= |ps|
    ensures j <= k <= |ps|
    ensures k < |ps| ==> Touches(t, ps[k])
    ensures forall m :: j <= m < k ==> !Touches(t, ps[m])
    decreases |ps| - j
  {
    if j == |ps| || Touches(t, ps[j]) {
      k := j;
    } else {
      k := FirstTouchFrom(ps, t, j + 1);
    }
  }

  /** The settled exit time is the time of a point after the entry. */
  lemma ResolutionExitsLater(ps: seq<PricePoint>, i: nat, t: Trade) returns (k: nat)
    requires i + 1 < |ps|
    ensures i < k < |ps| && Resolution(ps, i, t).exitTime == Some(ps[k].time)
  {
    k := FirstTouchFrom(ps, t, i + 1);
    if k < |ps| {
      ScanStopsAtFirstTouch(ps, t, i + 1, k);
    } else {
      ScanWithoutTouch(ps, t, i + 1);
      k := |ps| - 1;
    }
  }
}
