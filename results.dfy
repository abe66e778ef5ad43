/**
 * The statistics shown by components/ResultsDisplay.tsx for a list of
 * trades: counts of wins and losses, win rate, total profit, gross profit
 * and gross loss, the average win and loss, and the profit factor (which
 * the source makes `Infinity` when there are profits and no losses).
 */
module Results {
  import opened Wrappers
  import opened Types
  import opened Series
  import opened Resolver
  import opened Simulation

  /** A profit factor: a finite ratio, or the source's `Infinity`. */
  datatype ProfitFactor = Ratio(value: real) | Infinite

  datatype Stats = Stats(
    totalTrades: nat,
    winningTrades: nat,
    losingTrades: nat,
    winRate: real,
    totalProfit: real,
    grossProfit: real,
    grossLoss: real,
    averageWin: real,
    averageLoss: real,
    profitFactor: ProfitFactor)

  /** The outcome of every trade, in order. */
  function Outcomes(trades: seq<Trade>): (os: seq<Outcome>)
    ensures |os| == |trades| && forall k :: 0 <= k < |trades| ==> os[k] == trades[k].outcome
  {
    seq(|trades|, k requires 0 <= k < |trades| => trades[k].outcome)
  }

  /** The number of trades with the given outcome (`filter(...).length`). */
  function CountOutcome(trades: seq<Trade>, o: Outcome): (c: nat)
    ensures c == multiset(Outcomes(trades))[o]
    ensures c <= |trades|
    ensures c == 0 <==> forall k :: 0 <= k < |trades| ==> trades[k].outcome != o
  {
    if |trades| == 0 then 0
    else
      assert Outcomes(trades) == [trades[0].outcome] + Outcomes(trades[1..]);
      (if trades[0].outcome == o then 1 else 0) + CountOutcome(trades[1..], o)
  }

  /** A missing profit counts as 0. */
  function ProfitOrZero(t: Trade): real {
    if t.profit.Some? then t.profit.value else 0.0
  }

  /** The sum of every trade's profit. */
  function TotalProfit(trades: seq<Trade>): real {
    if |trades| == 0 then 0.0 else ProfitOrZero(trades[0]) + TotalProfit(trades[1..])
  }

  /** The signed sum of the profits of the trades with outcome `o`. */
  function OutcomeProfit(trades: seq<Trade>, o: Outcome): real {
    if |trades| == 0 then 0.0
    else (if trades[0].outcome == o then ProfitOrZero(trades[0]) else 0.0) + OutcomeProfit(trades[1..], o)
  }

  /** The sum of the absolute profits of the losing trades. */
  function GrossLoss(trades: seq<Trade>): (g: real)
    ensures g >= 0.0
  {
    if |trades| == 0 then 0.0
    else (if trades[0].outcome == Loss then Abs(ProfitOrZero(trades[0])) else 0.0) + GrossLoss(trades[1..])
  }

  /** `wins / total * 100`, or 0 for no trades. */
  function WinRate(wins: nat, total: nat): (r: real)
    requires wins <= total
    ensures 0.0 <= r <= 100.0
    ensures total == 0 || wins == 0 <==> r == 0.0
    ensures total > 0 && wins == total ==> r == 100.0
    ensures total > 0 ==> r * total as real == wins as real * 100.0
  {
    if total > 0 then (wins as real / total as real) * 100.0 else 0.0
  }

  /** `grossLoss > 0 ? grossProfit / grossLoss : (grossProfit > 0 ? Infinity : 0)`. */
  function ProfitFactorOf(grossProfit: real, grossLoss: real): (pf: ProfitFactor)
    requires grossLoss >= 0.0
    ensures pf.Infinite? <==> grossLoss == 0.0 && grossProfit > 0.0
    ensures pf.Ratio? && grossLoss > 0.0 ==> pf.value * grossLoss == grossProfit
    ensures pf.Ratio? && grossLoss == 0.0 ==> pf.value == 0.0
  {
    if grossLoss > 0.0 then Ratio(grossProfit / grossLoss)
    else if grossProfit > 0.0 then Infinite
    else Ratio(0.0)
  }

  /** `count > 0 ? sum / count : 0`. */
  function Average(sum: real, count: nat): (a: real)
    ensures count == 0 ==> a == 0.0
    ensures count > 0 ==> a * count as real == sum
  {
    if count > 0 then sum / count as real else 0.0
  }

  /** The statistics panel's figures for a list of trades. */
  function ComputeStats(trades: seq<Trade>): (s: Stats)
    ensures s.totalTrades == |trades|
    ensures s.winningTrades == CountOutcome(trades, Win) && s.losingTrades == CountOutcome(trades, Loss)
    ensures s.winningTrades + s.losingTrades <= s.totalTrades
    ensures s.winRate == WinRate(s.winningTrades, s.totalTrades) && 0.0 <= s.winRate <= 100.0
    ensures s.totalProfit == TotalProfit(trades)
    ensures s.grossProfit == OutcomeProfit(trades, Win)
    ensures s.grossLoss == GrossLoss(trades) && s.grossLoss >= 0.0
    ensures s.averageWin == Average(s.grossProfit, s.winningTrades)
    ensures s.averageLoss == Average(s.grossLoss, s.losingTrades)
    ensures s.profitFactor == ProfitFactorOf(s.grossProfit, s.grossLoss)
  {
    CountsPartition(trades);
    var wins := CountOutcome(trades, Win);
    var losses := CountOutcome(trades, Loss);
    var grossProfit := OutcomeProfit(trades, Win);
    var grossLoss := GrossLoss(trades);
    var averageWin := Average(grossProfit, wins);
    var averageLoss := Average(grossLoss, losses);
    Stats(|trades|, wins, losses, WinRate(wins, |trades|), TotalProfit(trades), grossProfit, grossLoss,
          averageWin, averageLoss, ProfitFactorOf(grossProfit, grossLoss))
  }

  // ------------------------------------------------------------------ Facts

  /** Every trade is a win, a loss or pending. */
  lemma {:induction false} CountsPartition(trades: seq<Trade>)
    ensures CountOutcome(trades, Win) + CountOutcome(trades, Loss) + CountOutcome(trades, Pending) == |trades|
  {
    if |trades| > 0 {
      CountsPartition(trades[1..]);
    }
  }

  /** The total profit is the sum of the per-outcome profits. */
  lemma {:induction false} TotalProfitSplits(trades: seq<Trade>)
    ensures TotalProfit(trades) == OutcomeProfit(trades, Win) + OutcomeProfit(trades, Loss) + OutcomeProfit(trades, Pending)
  {
    if |trades| > 0 {
      TotalProfitSplits(trades[1..]);
    }
  }

  /** When no losing trade shows a positive profit, the gross loss is the negated sum of the losing profits. */
  lemma {:induction false} GrossLossIsNegatedLossProfit(trades: seq<Trade>)
    requires forall k :: 0 <= k < |trades| && trades[k].outcome == Loss ==> ProfitOrZero(trades[k]) <= 0.0
    ensures GrossLoss(trades) == -OutcomeProfit(trades, Loss)
  {
    if |trades| > 0 {
      GrossLossIsNegatedLossProfit(trades[1..]);
    }
  }

  /** When every winning trade has a positive profit, wins imply a positive gross profit. */
  lemma {:induction false} GrossProfitPositive(trades: seq<Trade>)
    requires forall k :: 0 <= k < |trades| && trades[k].outcome == Win ==> ProfitOrZero(trades[k]) > 0.0
    ensures OutcomeProfit(trades, Win) >= 0.0
    ensures CountOutcome(trades, Win) > 0 ==> OutcomeProfit(trades, Win) > 0.0
  {
    if |trades| > 0 {
      GrossProfitPositive(trades[1..]);
    }
  }

  /**
   * On the trades a simulation returns, nothing is pending, so wins and
   * losses make up every trade, the total profit is gross profit minus
   * gross loss, and a single win makes the gross profit positive.
   */
  lemma SimulatedStats(params: SimulationParams, ps: seq<PricePoint>)
    requires PositivePrices(ps)
    ensures var s := ComputeStats(SimulatedTrades(params, ps));
            && s.totalTrades <= MaxTrades
            && s.winningTrades + s.losingTrades == s.totalTrades
            && s.totalProfit == s.grossProfit - s.grossLoss
            && (s.winningTrades > 0 ==> s.grossProfit > 0.0)
  {
    var trades := SimulatedTrades(params, ps);
    SimulationFillsValid(params, ps);
    assert forall k :: 0 <= k < |trades| ==> trades[k].outcome != Pending && ProfitMatchesOutcome(trades[k]);
    CountsPartition(trades);
    TotalProfitSplits(trades);
    NoPendingProfit(trades);
    GrossLossIsNegatedLossProfit(trades);
    GrossProfitPositive(trades);
  }

  lemma {:induction false} NoPendingProfit(trades: seq<Trade>)
    requires forall k :: 0 <= k < |trades| ==> trades[k].outcome != Pending
    ensures OutcomeProfit(trades, Pending) == 0.0
  {
    if |trades| > 0 {
      NoPendingProfit(trades[1..]);
    }
  }
}
