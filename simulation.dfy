/**
 * The driver of services/simulationService.ts (`generateSimulatedTrades`):
 * it walks the series from index 15 while five points remain after the
 * current one, asks the selected detector for a signal, opens a trade when
 * fewer than 30 trades exist and the signal passes the sanity check,
 * settles it with the forward scan, keeps it unless it is still pending,
 * and then skips the next five points. Also the flat fallback series that
 * `getMarketData` returns when fetching fails.
 */
module Simulation {
  import opened Wrappers
  import opened Types
  import opened Series
  import opened Detectors
  import opened DetectorFacts
  import opened Resolver
  import opened MockData

  const MaxTrades: nat := 30
  const MinSeriesLength: nat := 20
  /** Points skipped after an accepted trade (the `i += 5` before the loop's own `i++`). */
  const Cooldown: nat := 5

  /** An accepted trade together with the index of the point it entered at. */
  datatype Fill = Fill(index: nat, trade: Trade)

  /** The pending trade the driver opens from a signal. */
  function OpenTrade(s: Signal, params: SimulationParams): Trade {
    Trade(s.entryTime, s.entryPrice, s.stopLoss, s.takeProfit, s.direction, Pending,
          params.strategy, params.instrument, params.timeframe, None, None, None)
  }

  /**
   * The trade the driver would accept at index `i` below the cap: a
   * detected signal that passes the sanity check and whose forward scan
   * does not leave it pending.
   */
  function Offer(params: SimulationParams, ps: seq<PricePoint>, i: nat): Option<Trade>
    requires Eligible(ps, i)
  {
    Accept(params, ps, i, Detect(params.strategy, ps, i))
  }

  /** The sanity check, the forward scan and the rejection of a pending result, for a signal at `i`. */
  function Accept(params: SimulationParams, ps: seq<PricePoint>, i: nat, signal: Option<Signal>): Option<Trade>
    requires i < |ps|
  {
    if signal.None? || !Sane(signal.value) then None
    else
      var trade := Resolution(ps, i, OpenTrade(signal.value, params));
      if trade.outcome == Pending then None else Some(trade)
  }

  /** The body of the driver's `if (tradeSignal && ...)`: the sanity check, opening the trade and settling it. */
  method SettleSignal(params: SimulationParams, ps: seq<PricePoint>, i: nat, signal: Signal) returns (accepted: Option<Trade>)
    requires i < |ps|
    ensures accepted == Accept(params, ps, i, Some(signal))
  {
    accepted := None;
    if Sane(signal) {
      var trade := ResolveTrade(ps, i, OpenTrade(signal, params));
      if trade.outcome != Pending {
        accepted := Some(trade);
      }
    }
  }

  /** The offer at index `k` of the series; nothing before index 15, where the driver starts. */
  function OfferAt(params: SimulationParams, ps: seq<PricePoint>, k: nat): Option<Trade>
    requires PositivePrices(ps) && k < |ps|
  {
    if k < LookbackPeriod then None else Offer(params, ps, k)
  }

  /** The offer function of a series, defined at every index of it. */
  function OfferFn(params: SimulationParams, ps: seq<PricePoint>): nat --> Option<Trade>
    requires PositivePrices(ps)
  {
    (k: nat) requires k < |ps| => OfferAt(params, ps, k)
  }

  /** The values of `f` at the indices `k` to `n - 1`, in order. */
  function Tabulate<T>(f: nat --> T, k: nat, n: nat): (r: seq<T>)
    requires k <= n && forall j :: k <= j < n ==> f.requires(j)
    ensures |r| == n - k
    decreases n - k
  {
    if k == n then [] else [f(k)] + Tabulate(f, k + 1, n)
  }

  /** The offer at every index of the series. */
  function Offers(params: SimulationParams, ps: seq<PricePoint>): seq<Option<Trade>>
    requires PositivePrices(ps)
  {
    Tabulate(OfferFn(params, ps), 0, |ps|)
  }

  lemma {:induction false} TabulateAt<T>(f: nat --> T, k: nat, n: nat, m: nat)
    requires k <= m < n && forall j :: k <= j < n ==> f.requires(j)
    ensures Tabulate(f, k, n)[m - k] == f(m)
    decreases m - k
  {
    if k < m {
      TabulateAt(f, k + 1, n, m);
    }
  }

  /** Element `m` of the offers is the offer at index `m`. */
  lemma OffersAt(params: SimulationParams, ps: seq<PricePoint>, m: nat)
    requires PositivePrices(ps) && m < |ps|
    ensures |Offers(params, ps)| == |ps|
    ensures Offers(params, ps)[m] == OfferAt(params, ps, m)
  {
    TabulateAt(OfferFn(params, ps), 0, |ps|, m);
  }

  /**
   * The driver's loop from index `i` over the offers, with the fills accepted
   * so far in `acc`: an offer is taken while fewer than 30 trades exist, and
   * then five indices are skipped. It only ever appends to `acc`.
   */
  function RunFrom(offers: seq<Option<Trade>>, i: nat, acc: seq<Fill>): (r: seq<Fill>)
    ensures |acc| <= |r| && r[..|acc|] == acc
    decreases |offers| - i
  {
    if i + Cooldown >= |offers| then acc
    else if offers[i].Some? && |acc| < MaxTrades then
      RunFrom(offers, i + Cooldown + 1, acc + [Fill(i, offers[i].value)])
    else RunFrom(offers, i + 1, acc)
  }

  /** Every accepted trade with its entry index; nothing for a series shorter than 20 points. */
  function SimulationFills(params: SimulationParams, ps: seq<PricePoint>): seq<Fill>
    requires PositivePrices(ps)
  {
    if |ps| < MinSeriesLength then [] else RunFrom(Offers(params, ps), LookbackPeriod, [])
  }

  function TradesOf(fills: seq<Fill>): (r: seq<Trade>)
    ensures |r| == |fills| && forall k :: 0 <= k < |fills| ==> r[k] == fills[k].trade
  {
    if |fills| == 0 then [] else TradesOf(fills[..|fills| - 1]) + [fills[|fills| - 1].trade]
  }

  /** The trades `generateSimulatedTrades` returns. */
  function SimulatedTrades(params: SimulationParams, ps: seq<PricePoint>): seq<Trade>
    requires PositivePrices(ps)
  {
    TradesOf(SimulationFills(params, ps))
  }

  /**
   * One pass of the loop body at index `i` with `count` trades taken: the
   * detector, then, below the cap, the sanity check and the forward scan.
   */
  method TryIndex(params: SimulationParams, ps: seq<PricePoint>, i: nat, count: nat) returns (accepted: Option<Trade>)
    requires Eligible(ps, i)
    ensures accepted == if count < MaxTrades then Offers(params, ps)[i] else None
  {
    OffersAt(params, ps, i);
    var signal := DetectSignal(params.strategy, ps, i);
    accepted := None;
    if signal.Some? && count < MaxTrades {
      accepted := SettleSignal(params, ps, i, signal.value);
    }
  }

  /** The source's loop: each index in turn, a taken trade skipping the next five. */
  method GenerateSimulatedTrades(params: SimulationParams, ps: seq<PricePoint>) returns (trades: seq<Trade>)
    requires PositivePrices(ps)
    ensures trades == SimulatedTrades(params, ps)
  {
    trades := [];
    if |ps| < MinSeriesLength {
      return;
    }
    ghost var offers := Offers(params, ps);
    assert |offers| == |ps|;
    ghost var fills: seq<Fill> := [];
    var i := LookbackPeriod;
    while i < |ps| - Cooldown
      invariant LookbackPeriod <= i
      invariant RunFrom(offers, i, fills) == RunFrom(offers, LookbackPeriod, [])
      invariant trades == TradesOf(fills)
      decreases |ps| - i
    {
      var accepted := TryIndex(params, ps, i, |trades|);
      if accepted.Some? {
        assert (fills + [Fill(i, accepted.value)])[..|fills|] == fills;
        trades := trades + [accepted.value];
        fills := fills + [Fill(i, accepted.value)];
        i := i + Cooldown;
      }
      i := i + 1;
    }
  }

  // ------------------------------------------------------------------ Facts

  /** An accepted trade: entered at `ps[i]`, bracketed, at risk:reward 2, settled and not pending. */
  predicate AcceptedTrade(params: SimulationParams, ps: seq<PricePoint>, i: nat, t: Trade)
    requires i < |ps|
  {
    && t.entryTime == ps[i].time && t.entryPrice == ps[i].price
    && t.strategy == params.strategy && t.instrument == params.instrument && t.timeFrame == params.timeframe
    && Bracketed(t.direction, t.entryPrice, t.stopLoss, t.takeProfit)
    && Abs(t.takeProfit - t.entryPrice) == 2.0 * Abs(t.entryPrice - t.stopLoss)
    && t.outcome != Pending
    && ProfitMatchesOutcome(t)
  }

  /** Whatever the driver would accept at an index is an accepted trade in the above sense. */
  lemma OfferIsAccepted(params: SimulationParams, ps: seq<PricePoint>, i: nat)
    requires Eligible(ps, i) && i + 1 < |ps|
    ensures Offer(params, ps, i).Some? ==> AcceptedTrade(params, ps, i, Offer(params, ps, i).value)
  {
    var signal := Detect(params.strategy, ps, i);
    if signal.Some? && Sane(signal.value) {
      DetectedSignalWellFormed(params.strategy, ps, i);
      SettledProfitMatchesOutcome(ps, i, OpenTrade(signal.value, params));
    }
  }

  /** Every offer sits at an index from 15 on and is an accepted trade. */
  predicate OffersValid(params: SimulationParams, ps: seq<PricePoint>, offers: seq<Option<Trade>>) {
    && |offers| == |ps|
    && forall k :: 0 <= k < |offers| && offers[k].Some? ==>
         LookbackPeriod <= k && AcceptedTrade(params, ps, k, offers[k].value)
  }

  lemma AllOffersValid(params: SimulationParams, ps: seq<PricePoint>)
    requires PositivePrices(ps)
    ensures OffersValid(params, ps, Offers(params, ps))
  {
    var offers := Offers(params, ps);
    forall k | 0 <= k < |offers| && offers[k].Some?
      ensures LookbackPeriod <= k && AcceptedTrade(params, ps, k, offers[k].value)
    {
      OffersAt(params, ps, k);
      if k + 1 < |ps| {
        OfferIsAccepted(params, ps, k);
      }
    }
  }

  /** The fills are spaced at least six indices apart, in order, at most 30 of them, each an accepted trade. */
  predicate FillsValid(params: SimulationParams, ps: seq<PricePoint>, fills: seq<Fill>) {
    && |fills| <= MaxTrades
    && (forall k :: 0 <= k < |fills| ==>
          LookbackPeriod <= fills[k].index && fills[k].index + Cooldown < |ps|
          && AcceptedTrade(params, ps, fills[k].index, fills[k].trade))
    && (forall a, b :: 0 <= a < b < |fills| ==> fills[a].index + Cooldown + 1 <= fills[b].index)
  }

  /** Taking the offer at `i`, six or more indices after the last fill, keeps the log valid. */
  lemma AppendFillValid(params: SimulationParams, ps: seq<PricePoint>, offers: seq<Option<Trade>>, i: nat, acc: seq<Fill>)
    requires OffersValid(params, ps, offers) && FillsValid(params, ps, acc)
    requires |acc| > 0 ==> acc[|acc| - 1].index + Cooldown + 1 <= i
    requires i + Cooldown < |offers| && offers[i].Some? && |acc| < MaxTrades
    ensures FillsValid(params, ps, acc + [Fill(i, offers[i].value)])
  {
    var next := acc + [Fill(i, offers[i].value)];
    forall k | 0 <= k < |next|
      ensures LookbackPeriod <= next[k].index && next[k].index + Cooldown < |ps|
      ensures AcceptedTrade(params, ps, next[k].index, next[k].trade)
    {
      if k < |acc| {
        assert next[k] == acc[k];
      }
    }
    forall a, b | 0 <= a < b < |next| ensures next[a].index + Cooldown + 1 <= next[b].index {
      if b == |acc| && a < |acc| - 1 {
        assert acc[a].index + Cooldown + 1 <= acc[|acc| - 1].index;
      }
    }
  }

  lemma {:induction false} RunFromValid(params: SimulationParams, ps: seq<PricePoint>, offers: seq<Option<Trade>>, i: nat, acc: seq<Fill>)
    requires OffersValid(params, ps, offers) && FillsValid(params, ps, acc)
    requires |acc| > 0 ==> acc[|acc| - 1].index + Cooldown + 1 <= i
    ensures FillsValid(params, ps, RunFrom(offers, i, acc))
    decreases |offers| - i
  {
    if i + Cooldown < |offers| {
      if offers[i].Some? && |acc| < MaxTrades {
        var next := acc + [Fill(i, offers[i].value)];
        assert RunFrom(offers, i, acc) == RunFrom(offers, i + Cooldown + 1, next);
        AppendFillValid(params, ps, offers, i, acc);
        RunFromValid(params, ps, offers, i + Cooldown + 1, next);
      } else {
        assert RunFrom(offers, i, acc) == RunFrom(offers, i + 1, acc);
        RunFromValid(params, ps, offers, i + 1, acc);
      }
    }
  }

  /**
   * Every trade the simulation returns entered at a point at least 15 in
   * and with at least five points after it, passed the sanity check with
   * the target at twice the stop distance, and settled (not pending) with a
   * profit that matches its outcome; entries are at least six points apart,
   * and there are at most 30 of them.
   */
  lemma SimulationFillsValid(params: SimulationParams, ps: seq<PricePoint>)
    requires PositivePrices(ps)
    ensures FillsValid(params, ps, SimulationFills(params, ps))
  {
    if |ps| >= MinSeriesLength {
      AllOffersValid(params, ps);
      RunFromValid(params, ps, Offers(params, ps), LookbackPeriod, []);
    }
  }

  /** No trade is possible on a series of at most 20 points: no index has five points after it. */
  lemma ShortSeriesHasNoTrades(params: SimulationParams, ps: seq<PricePoint>)
    requires PositivePrices(ps) && |ps| <= MinSeriesLength
    ensures SimulatedTrades(params, ps) == []
  {
    if |ps| == MinSeriesLength {
      OffersAt(params, ps, 0);
      assert RunFrom(Offers(params, ps), LookbackPeriod, []) == [];
    }
  }

  /** Every fill holds the offer at its own index. */
  predicate FillsAreOffers(offers: seq<Option<Trade>>, fills: seq<Fill>) {
    forall k :: 0 <= k < |fills| ==> fills[k].index < |offers| && offers[fills[k].index] == Some(fills[k].trade)
  }

  lemma {:induction false} RunFromTakesOffers(offers: seq<Option<Trade>>, i: nat, acc: seq<Fill>)
    requires FillsAreOffers(offers, acc)
    ensures FillsAreOffers(offers, RunFrom(offers, i, acc))
    decreases |offers| - i
  {
    if i + Cooldown < |offers| {
      if offers[i].Some? && |acc| < MaxTrades {
        var next := acc + [Fill(i, offers[i].value)];
        assert RunFrom(offers, i, acc) == RunFrom(offers, i + Cooldown + 1, next);
        assert FillsAreOffers(offers, next) by {
          forall k | 0 <= k < |next|
            ensures next[k].index < |offers| && offers[next[k].index] == Some(next[k].trade)
          {
            if k < |acc| {
              assert next[k] == acc[k];
            }
          }
        }
        RunFromTakesOffers(offers, i + Cooldown + 1, next);
      } else {
        assert RunFrom(offers, i, acc) == RunFrom(offers, i + 1, acc);
        RunFromTakesOffers(offers, i + 1, acc);
      }
    }
  }

  /**
   * Each trade the simulation keeps is what the loop body produces at its
   * entry index: with `SimulationIsComplete` and `SimulationFillsValid` this
   * pins down the output.
   */
  lemma SimulationTakesOffers(params: SimulationParams, ps: seq<PricePoint>, k: nat)
    requires PositivePrices(ps) && k < |SimulationFills(params, ps)|
    ensures LookbackPeriod <= SimulationFills(params, ps)[k].index < |ps|
    ensures Offer(params, ps, SimulationFills(params, ps)[k].index) == Some(SimulationFills(params, ps)[k].trade)
  {
    var fills := SimulationFills(params, ps);
    RunFromTakesOffers(Offers(params, ps), LookbackPeriod, []);
    SimulationFillsValid(params, ps);
    var j := fills[k].index;
    OffersAt(params, ps, j);
    assert LookbackPeriod <= j;
  }

  /** Index `j` lies on the entry point of a fill or in the five points skipped after it. */
  predicate Covered(fills: seq<Fill>, j: nat) {
    exists k :: 0 <= k < |fills| && fills[k].index <= j <= fills[k].index + Cooldown
  }

  lemma {:induction false} RunFromComplete(offers: seq<Option<Trade>>, i: nat, acc: seq<Fill>, j: nat)
    requires i <= j && j + Cooldown < |offers| && offers[j].Some?
    ensures Covered(RunFrom(offers, i, acc), j) || |RunFrom(offers, i, acc)| >= MaxTrades
    decreases |offers| - i
  {
    var r := RunFrom(offers, i, acc);
    if offers[i].Some? && |acc| < MaxTrades {
      var next := acc + [Fill(i, offers[i].value)];
      if j <= i + Cooldown {
        assert r[..|next|] == next;
        assert r[..|next|][|acc|] == r[|acc|];
        assert r[|acc|].index <= j <= r[|acc|].index + Cooldown;
      } else {
        RunFromComplete(offers, i + Cooldown + 1, next, j);
      }
    } else if j > i {
      RunFromComplete(offers, i + 1, acc, j);
    }
  }

  /**
   * The scan misses nothing: every index from 15 on with five points after
   * it where a trade would be accepted is either an entry, one of the five
   * points skipped after an entry, or met once the cap of 30 was reached.
   */
  lemma SimulationIsComplete(params: SimulationParams, ps: seq<PricePoint>, j: nat)
    requires PositivePrices(ps) && LookbackPeriod <= j && j + Cooldown < |ps|
    requires Offer(params, ps, j).Some?
    ensures Covered(SimulationFills(params, ps), j) || |SimulationFills(params, ps)| == MaxTrades
  {
    SimulationFillsValid(params, ps);
    OffersAt(params, ps, j);
    RunFromComplete(Offers(params, ps), LookbackPeriod, [], j);
  }

  /** On a series with non-decreasing times, the trades come out in entry-time order. */
  lemma SimulatedTradesInEntryOrder(params: SimulationParams, ps: seq<PricePoint>)
    requires PositivePrices(ps) && NonDecreasingTimes(ps)
    ensures forall a, b :: 0 <= a < b < |SimulatedTrades(params, ps)| ==>
      SimulatedTrades(params, ps)[a].entryTime <= SimulatedTrades(params, ps)[b].entryTime
  {
    var fills := SimulationFills(params, ps);
    SimulationFillsValid(params, ps);
    forall a, b | 0 <= a < b < |fills| ensures fills[a].trade.entryTime <= fills[b].trade.entryTime {
      assert fills[a].index <= fills[b].index;
    }
  }

  lemma {:induction false} RunFromNoOffers(offers: seq<Option<Trade>>, i: nat)
    requires forall k :: 0 <= k < |offers| ==> offers[k].None?
    ensures RunFrom(offers, i, []) == []
    decreases |offers| - i
  {
    if i + Cooldown < |offers| {
      RunFromNoOffers(offers, i + 1);
    }
  }

  /** A series at one constant price produces no trade, whatever the strategy. */
  lemma FlatSeriesHasNoTrades(params: SimulationParams, ps: seq<PricePoint>, c: real)
    requires PositivePrices(ps) && Flat(ps, c)
    ensures SimulatedTrades(params, ps) == []
  {
    if |ps| >= MinSeriesLength {
      var offers := Offers(params, ps);
      forall k | 0 <= k < |offers| ensures offers[k].None? {
        OffersAt(params, ps, k);
        if k >= LookbackPeriod {
          FlatSeriesNoSignal(params.strategy, ps, k, c);
        }
      }
      RunFromNoOffers(offers, LookbackPeriod);
    }
  }

  // --------------------------------------------------------- Fallback series

  const EmergencyIntervalMs: int := 60 * 60 * 1000

  /** The `getMarketData` fallback: `n` hourly points at price 1, from the explicit start or ending at the user's end. */
  function FallbackSeries(n: nat, userEnd: int, explicitStart: Option<int>): (r: seq<PricePoint>)
    ensures |r| == n
  {
    var start := if HasExplicitStart(explicitStart) then explicitStart.value else userEnd - (n - 1) * EmergencyIntervalMs;
    seq(n, k => PricePoint(start + k * EmergencyIntervalMs, 1.0))
  }

  /**
   * The fallback series is hourly and flat at 1; it starts at the explicit
   * start when one is given and otherwise ends exactly at the user's end.
   */
  lemma FallbackSeriesShape(n: nat, userEnd: int, explicitStart: Option<int>)
    ensures Flat(FallbackSeries(n, userEnd, explicitStart), 1.0)
    ensures PositivePrices(FallbackSeries(n, userEnd, explicitStart))
    ensures forall k :: 0 < k < n ==>
      FallbackSeries(n, userEnd, explicitStart)[k].time == FallbackSeries(n, userEnd, explicitStart)[k - 1].time + EmergencyIntervalMs
    ensures n > 0 && HasExplicitStart(explicitStart) ==> FallbackSeries(n, userEnd, explicitStart)[0].time == explicitStart.value
    ensures n > 0 && !HasExplicitStart(explicitStart) ==> FallbackSeries(n, userEnd, explicitStart)[n - 1].time == userEnd
  {}

  /** The fallback series never yields a trade. */
  lemma FallbackSeriesHasNoTrades(params: SimulationParams, n: nat, userEnd: int, explicitStart: Option<int>)
    ensures PositivePrices(FallbackSeries(n, userEnd, explicitStart))
    ensures SimulatedTrades(params, FallbackSeries(n, userEnd, explicitStart)) == []
  {
    FallbackSeriesShape(n, userEnd, explicitStart);
    FlatSeriesHasNoTrades(params, FallbackSeries(n, userEnd, explicitStart), 1.0);
  }
}
