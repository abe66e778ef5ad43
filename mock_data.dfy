/**
 * The data-window logic of services/mockFinancialDataAPI.ts: the bar
 * interval of each timeframe, and how `fetchMockPriceData` picks a window of
 * a stored template series, shifts it in time so that it ends at the
 * user's end timestamp, filters it to the requested range, and falls back
 * to emergency data when nothing can be taken from the template. The
 * template is an input here; the random generators that fill the store
 * are not part of this model.
 */
module MockData {
  import opened Wrappers
  import opened Types
  import opened Series

  /** The template series end on 2025-12-31T16:00:00Z, in epoch milliseconds. */
  const TemplateDataEndTimestamp: int := 1767196800000

  const MinuteMs: int := 60 * 1000

  /** getTimeframeIntervalMs: the length of one bar in milliseconds. */
  function IntervalMs(tf: TimeFrame): (ms: int)
    ensures ms > 0 && ms % MinuteMs == 0
    ensures MinuteMs <= ms <= 24 * 60 * MinuteMs
  {
    match tf
    case M1 => 60 * 1000
    case M5 => 5 * 60 * 1000
    case M15 => 15 * 60 * 1000
    case H1 => 60 * 60 * 1000
    case H4 => 4 * 60 * 60 * 1000
    case D1 => 24 * 60 * 60 * 1000
  }

  /** Each timeframe's bar is a whole number of the previous one's bars. */
  lemma IntervalsNest()
    ensures IntervalMs(M1) == MinuteMs
    ensures IntervalMs(M5) == 5 * IntervalMs(M1) && IntervalMs(M15) == 3 * IntervalMs(M5)
    ensures IntervalMs(H1) == 4 * IntervalMs(M15) && IntervalMs(H4) == 4 * IntervalMs(H1)
    ensures IntervalMs(D1) == 6 * IntervalMs(H4)
  {}

  /** JavaScript truthiness of the optional start timestamp: absent and 0 both count as missing. */
  predicate HasExplicitStart(explicitStart: Option<int>) {
    explicitStart.Some? && explicitStart.value != 0
  }

  /** `generateEmergencyData`: `count` points one interval apart ending at `endTs`; prices come from `price`. */
  function EmergencyData(count: nat, endTs: int, intervalMs: int, price: nat -> real): (r: seq<PricePoint>)
    ensures |r| == count
  {
    seq(count, k requires 0 <= k < count => PricePoint(endTs - (count - 1 - k) * intervalMs, price(k)))
  }

  /** Emergency data ends at `endTs` and advances by one interval per point. */
  lemma EmergencyDataShape(count: nat, endTs: int, intervalMs: int, price: nat -> real)
    ensures count > 0 ==> EmergencyData(count, endTs, intervalMs, price)[count - 1].time == endTs
    ensures forall k :: 0 < k < count ==>
      EmergencyData(count, endTs, intervalMs, price)[k].time == EmergencyData(count, endTs, intervalMs, price)[k - 1].time + intervalMs
    ensures intervalMs >= 0 ==> forall k :: 0 <= k < count ==> EmergencyData(count, endTs, intervalMs, price)[k].time <= endTs
  {
    var r := EmergencyData(count, endTs, intervalMs, price);
    forall k | 0 < k < count ensures r[k].time == r[k - 1].time + intervalMs {
      var a := count - 1 - k;
      assert (a + 1) * intervalMs == a * intervalMs + intervalMs;
    }
    forall k | 0 <= k < count && intervalMs >= 0 ensures r[k].time <= endTs {
      var a := count - 1 - k;
      assert a * intervalMs >= 0;
    }
  }

  /** `findIndex(p => p.time >= target)` from index `from`: the first such index, or -1. */
  function FirstIndexAtOrAfter(template: seq<PricePoint>, target: int, from: nat): (r: int)
    requires from <= |template|
    ensures r == -1 || from <= r < |template|
    ensures r == -1 ==> forall k :: from <= k < |template| ==> template[k].time < target
    ensures r != -1 ==> template[r].time >= target && forall k :: from <= k < r ==> template[k].time < target
    decreases |template| - from
  {
    if from == |template| then -1
    else if template[from].time >= target then from
    else FirstIndexAtOrAfter(template, target, from + 1)
  }

  /** Where the window starts when an explicit start is given. */
  function ExplicitStartIndex(template: seq<PricePoint>, n: nat, userEnd: int, start: int): (s: nat)
    ensures s <= |template|
    ensures n > 0 && |template| > 0 ==> s < |template|
  {
    var targetTemplateStartTime := start + (TemplateDataEndTimestamp - userEnd);
    var found := FirstIndexAtOrAfter(template, targetTemplateStartTime, 0);
    if found == -1 then Max(0, |template| - n) else found
  }

  /** The template points taken: from the explicit start onward, or the latest `n`. */
  function Selection(template: seq<PricePoint>, n: nat, userEnd: int, explicitStart: Option<int>): seq<PricePoint> {
    if HasExplicitStart(explicitStart) then
      var s := ExplicitStartIndex(template, n, userEnd, explicitStart.value);
      template[s..Min(|template|, s + n)]
    else
      template[Max(0, |template| - n)..]
  }

  /** Every point moved by the same offset so that the last one lands on `userEnd`. */
  function TimeShifted(selected: seq<PricePoint>, userEnd: int): (r: seq<PricePoint>)
    requires |selected| > 0
    ensures |r| == |selected|
  {
    var timeShift := userEnd - selected[|selected| - 1].time;
    seq(|selected|, k requires 0 <= k < |selected| => PricePoint(selected[k].time + timeShift, selected[k].price))
  }

  /** The elements of `s` that `keep` accepts, in their original order. */
  function Filter<T>(s: seq<T>, keep: T -> bool): (r: seq<T>)
    ensures |r| <= |s|
    ensures forall k :: 0 <= k < |r| ==> keep(r[k]) && r[k] in s
    ensures forall x :: x in s && keep(x) ==> x in r
  {
    if |s| == 0 then []
    else
      var rest := Filter(s[1..], keep);
      assert forall x :: x in s[1..] ==> x in s;
      if keep(s[0]) then [s[0]] + rest else rest
  }

  /** The filter `dp => dp.time <= bound`. */
  function NotAfter(bound: int): PricePoint -> bool {
    (dp: PricePoint) => dp.time <= bound
  }

  /** The filter `dp => dp.time >= bound`. */
  function NotBefore(bound: int): PricePoint -> bool {
    (dp: PricePoint) => dp.time >= bound
  }

  /**
   * The final trim: the first `n` points with an explicit start, else the
   * last `n`. JavaScript's `slice(-0)` is `slice(0)`, so without an explicit
   * start a count of 0 keeps every point.
   */
  function TrimToCount(pts: seq<PricePoint>, n: nat, explicit: bool): (r: seq<PricePoint>)
    ensures explicit ==> r == pts[..Min(|pts|, n)]
    ensures !explicit && n > 0 ==> r == pts[|pts| - Min(|pts|, n)..]
    ensures !explicit && n == 0 ==> r == pts
  {
    if |pts| <= n then pts
    else if explicit then pts[..n]
    else if n == 0 then pts
    else pts[|pts| - n..]
  }

  /** What `fetchMockPriceData` resolves with, for a given template series (empty when the store has none). */
  function FetchedData(template: seq<PricePoint>, n: nat, userEnd: int, explicitStart: Option<int>,
                       intervalMs: int, price: nat -> real): seq<PricePoint>
  {
    if |template| == 0 then EmergencyData(n, userEnd, intervalMs, price)
    else
      var selected := Selection(template, n, userEnd, explicitStart);
      if |selected| == 0 then EmergencyData(n, userEnd, intervalMs, price)
      else
        var upToEnd := Filter(TimeShifted(selected, userEnd), NotAfter(userEnd));
        var inRange :=
          if HasExplicitStart(explicitStart) then Filter(upToEnd, NotBefore(explicitStart.value))
          else upToEnd;
        TrimToCount(inRange, n, HasExplicitStart(explicitStart))
  }

  /** The source's steps with their reassignments of the selection and the result. */
  method FetchMockPriceData(template: seq<PricePoint>, numDataPoints: nat, userEndTimestamp: int,
                            explicitStartTimestamp: Option<int>, intervalMs: int, price: nat -> real)
    returns (resultData: seq<PricePoint>)
    ensures resultData == FetchedData(template, numDataPoints, userEndTimestamp, explicitStartTimestamp, intervalMs, price)
  {
    if |template| == 0 {
      return EmergencyData(numDataPoints, userEndTimestamp, intervalMs, price);
    }
    var templateSelectedPoints: seq<PricePoint>;
    if HasExplicitStart(explicitStartTimestamp) {
      var timeOffsetFromUserEndToTemplateEnd := TemplateDataEndTimestamp - userEndTimestamp;
      var targetTemplateStartTime := explicitStartTimestamp.value + timeOffsetFromUserEndToTemplateEnd;
      var startIndex := FirstIndexAtOrAfter(template, targetTemplateStartTime, 0);
      if startIndex == -1 {
        startIndex := Max(0, |template| - numDataPoints);
      }
      var endIndex := Min(|template|, startIndex + numDataPoints);
      templateSelectedPoints := template[startIndex..endIndex];
    } else {
      var startIndexSlice := Max(0, |template| - numDataPoints);
      templateSelectedPoints := template[startIndexSlice..];
    }
    assert templateSelectedPoints == Selection(template, numDataPoints, userEndTimestamp, explicitStartTimestamp);
    if |templateSelectedPoints| == 0 {
      return EmergencyData(numDataPoints, userEndTimestamp, intervalMs, price);
    }
    var finalData := TimeShifted(templateSelectedPoints, userEndTimestamp);
    resultData := Filter(finalData, NotAfter(userEndTimestamp));
    if HasExplicitStart(explicitStartTimestamp) {
      resultData := Filter(resultData, NotBefore(explicitStartTimestamp.value));
    }
    resultData := TrimToCount(resultData, numDataPoints, HasExplicitStart(explicitStartTimestamp));
  }

  // ------------------------------------------------------------------ Facts

  /** Without an explicit start the window is the latest min(n, |template|) template points. */
  lemma SelectionWithoutStart(template: seq<PricePoint>, n: nat, userEnd: int, explicitStart: Option<int>)
    requires !HasExplicitStart(explicitStart)
    ensures |Selection(template, n, userEnd, explicitStart)| == Min(n, |template|)
    ensures forall k :: 0 <= k < Min(n, |template|) ==>
      Selection(template, n, userEnd, explicitStart)[k] == template[|template| - Min(n, |template|) + k]
  {}

  /**
   * With an explicit start the window begins at the first template point at
   * or after the start carried over to the template's clock, or else at the
   * latest `n` points, and holds at most `n` points.
   */
  lemma SelectionWithStart(template: seq<PricePoint>, n: nat, userEnd: int, start: int)
    requires start != 0 && |template| > 0
    ensures var s := ExplicitStartIndex(template, n, userEnd, start);
            var target := start + (TemplateDataEndTimestamp - userEnd);
            && Selection(template, n, userEnd, Some(start)) == template[s..Min(|template|, s + n)]
            && (s < |template| && template[s].time >= target ==> forall k :: 0 <= k < s ==> template[k].time < target)
            && (s == |template| || template[s].time < target ==>
                  s == Max(0, |template| - n) && forall k :: 0 <= k < |template| ==> template[k].time < target)
  {}

  /** The selection never exceeds `n` points and is empty only for an empty template or `n` = 0. */
  lemma SelectionSize(template: seq<PricePoint>, n: nat, userEnd: int, explicitStart: Option<int>)
    ensures |Selection(template, n, userEnd, explicitStart)| <= n
    ensures |Selection(template, n, userEnd, explicitStart)| == 0 <==> |template| == 0 || n == 0
  {}

  /** The shift puts the last point on `userEnd`, keeps the prices and every gap between neighbours. */
  lemma TimeShiftKeepsShape(selected: seq<PricePoint>, userEnd: int)
    requires |selected| > 0
    ensures TimeShifted(selected, userEnd)[|selected| - 1].time == userEnd
    ensures forall k :: 0 <= k < |selected| ==> TimeShifted(selected, userEnd)[k].price == selected[k].price
    ensures forall k :: 0 < k < |selected| ==>
      TimeShifted(selected, userEnd)[k].time - TimeShifted(selected, userEnd)[k - 1].time == selected[k].time - selected[k - 1].time
  {}

  /** A template taken from the store yields at most `n` points, none after `userEnd` and none before an explicit start. */
  lemma FetchedDataInRange(template: seq<PricePoint>, n: nat, userEnd: int, explicitStart: Option<int>,
                           intervalMs: int, price: nat -> real)
    requires |Selection(template, n, userEnd, explicitStart)| > 0
    ensures |FetchedData(template, n, userEnd, explicitStart, intervalMs, price)| <= n
    ensures forall k :: 0 <= k < |FetchedData(template, n, userEnd, explicitStart, intervalMs, price)| ==>
      FetchedData(template, n, userEnd, explicitStart, intervalMs, price)[k].time <= userEnd
    ensures HasExplicitStart(explicitStart) ==>
      forall k :: 0 <= k < |FetchedData(template, n, userEnd, explicitStart, intervalMs, price)| ==>
        FetchedData(template, n, userEnd, explicitStart, intervalMs, price)[k].time >= explicitStart.value
  {
    SelectionSize(template, n, userEnd, explicitStart);
  }

  /** The final trim never cuts anything: the filtered window already holds at most `n` points. */
  lemma TrimNeverCuts(template: seq<PricePoint>, n: nat, userEnd: int, explicitStart: Option<int>)
    requires |Selection(template, n, userEnd, explicitStart)| > 0
    ensures var upToEnd := Filter(TimeShifted(Selection(template, n, userEnd, explicitStart), userEnd), NotAfter(userEnd));
            var inRange := if HasExplicitStart(explicitStart) then Filter(upToEnd, NotBefore(explicitStart.value)) else upToEnd;
            TrimToCount(inRange, n, HasExplicitStart(explicitStart)) == inRange
  {
    SelectionSize(template, n, userEnd, explicitStart);
  }

  /** An empty template, or a request for no points, falls back to exactly `n` emergency points ending at `userEnd`. */
  lemma EmptySelectionGivesEmergencyData(template: seq<PricePoint>, n: nat, userEnd: int, explicitStart: Option<int>,
                                         intervalMs: int, price: nat -> real)
    requires |template| == 0 || n == 0
    ensures FetchedData(template, n, userEnd, explicitStart, intervalMs, price) == EmergencyData(n, userEnd, intervalMs, price)
    ensures |FetchedData(template, n, userEnd, explicitStart, intervalMs, price)| == n
  {
    SelectionSize(template, n, userEnd, explicitStart);
  }

  /** Filtering with a predicate that every element satisfies keeps the sequence as it is. */
  lemma {:induction false} FilterKeepsAll<T>(s: seq<T>, keep: T -> bool)
    requires forall k :: 0 <= k < |s| ==> keep(s[k])
    ensures Filter(s, keep) == s
  {
    if |s| > 0 {
      FilterKeepsAll(s[1..], keep);
    }
  }

  /**
   * For a template in time order and no explicit start, nothing is
   * filtered out: the result is the latest min(n, |template|) template
   * points, shifted to end at `userEnd`.
   */
  lemma SortedTemplateKeepsWholeWindow(template: seq<PricePoint>, n: nat, userEnd: int, explicitStart: Option<int>,
                                       intervalMs: int, price: nat -> real)
    requires NonDecreasingTimes(template) && |template| > 0 && n > 0 && !HasExplicitStart(explicitStart)
    ensures FetchedData(template, n, userEnd, explicitStart, intervalMs, price)
            == TimeShifted(template[|template| - Min(n, |template|)..], userEnd)
  {
    var selected := Selection(template, n, userEnd, explicitStart);
    assert selected == template[|template| - Min(n, |template|)..];
    var shifted := TimeShifted(selected, userEnd);
    forall k | 0 <= k < |shifted| ensures shifted[k].time <= userEnd {
      assert selected[k].time <= selected[|selected| - 1].time;
    }
    FilterKeepsAll(shifted, NotAfter(userEnd));
  }
}
