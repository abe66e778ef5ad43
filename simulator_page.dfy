/**
 * The date-range checks and point-count arithmetic `runTest` performs in
 * pages/SimulatorPage.tsx before fetching data: the start must precede the
 * current time by at least an hour, a lookback beyond 90 days is cut to 90
 * days, the point count is the number of bars in the lookback (at least
 * one), and a count above 1000 pulls the start forward to 999 bars before
 * the end. The current time is a parameter.
 */
module SimulatorPage {
  import opened Wrappers

  const OneHourMs: int := 60 * 60 * 1000
  const OneDayMs: int := 24 * OneHourMs
  const MinLookbackMs: int := OneHourMs
  const MaxLookbackMs: int := 90 * OneDayMs
  const MaxDataPointsAllowed: int := 1000

  /** The errors `runTest` reports instead of running. */
  datatype RunError = StartNotBeforeEnd | LookbackTooShort | NonPositiveInterval

  /** The window and point count handed to the data fetch. */
  datatype RunPlan = RunPlan(startTs: int, endTs: int, numDataPoints: int)

  /** `Math.max(1, Math.floor(lookback / interval) + 1)` for a positive lookback and interval. */
  function EstimatedPoints(lookbackMs: int, intervalMs: int): (n: int)
    requires lookbackMs > 0 && intervalMs > 0
    ensures n >= 1
    ensures (n - 1) * intervalMs <= lookbackMs < n * intervalMs
  {
    var q := lookbackMs / intervalMs;
    FloorBrackets(lookbackMs, intervalMs);
    if q + 1 < 1 then 1 else q + 1
  }

  /** The floor of a quotient and its successor bracket the dividend. */
  lemma FloorBrackets(a: int, b: int)
    requires a >= 0 && b > 0
    ensures 0 <= a / b && (a / b) * b <= a < (a / b + 1) * b
  {
    var q, rem := a / b, a % b;
    assert a == q * b + rem && 0 <= rem < b;
    assert (q + 1) * b == q * b + b;
  }

  lemma {:induction false} MulNonnegative(x: int, b: int)
    requires x >= 0 && b >= 0
    ensures x * b >= 0
    decreases x
  {
    if x > 0 {
      MulNonnegative(x - 1, b);
      assert x * b == (x - 1) * b + b;
    }
  }

  /** Only one count of bars of a given length brackets a lookback as EstimatedPoints does. */
  lemma PointsAreUnique(n: int, m: int, lookbackMs: int, intervalMs: int)
    requires intervalMs > 0
    requires (n - 1) * intervalMs <= lookbackMs < n * intervalMs
    requires (m - 1) * intervalMs <= lookbackMs < m * intervalMs
    ensures n == m
  {
    if n < m {
      MulNonnegative(m - 1 - n, intervalMs);
    } else if m < n {
      MulNonnegative(n - 1 - m, intervalMs);
    }
  }

  /** The start after the 90-day cut: at most 90 days before `now`, and the requested start otherwise. */
  function LookbackStart(startTimestamp: int, now: int): (s: int)
    ensures now - s <= MaxLookbackMs
    ensures s >= startTimestamp
    ensures now - startTimestamp <= MaxLookbackMs ==> s == startTimestamp
    ensures now - startTimestamp > MaxLookbackMs ==> now - s == MaxLookbackMs
  {
    if now - startTimestamp > MaxLookbackMs then now - MaxLookbackMs else startTimestamp
  }

  /** The checks and adjustments of `runTest`, step by step. */
  method PlanRun(startTimestamp: int, now: int, intervalMs: int) returns (r: Result<RunPlan, RunError>)
    ensures r == Err(StartNotBeforeEnd) <==> startTimestamp >= now
    ensures r == Err(LookbackTooShort) <==> startTimestamp < now && now - startTimestamp < MinLookbackMs
    ensures r == Err(NonPositiveInterval) <==> now - startTimestamp >= MinLookbackMs && intervalMs <= 0
    ensures r.Ok? ==> r.value.endTs == now && r.value.startTs < now && now - r.value.startTs <= MaxLookbackMs
    ensures r.Ok? ==> 1 <= r.value.numDataPoints <= MaxDataPointsAllowed
    ensures r.Ok? ==> r.value.numDataPoints == EstimatedPoints(now - r.value.startTs, intervalMs)
    ensures r.Ok? ==> intervalMs > 0 && now - startTimestamp >= MinLookbackMs
    ensures r.Ok? && EstimatedPoints(now - LookbackStart(startTimestamp, now), intervalMs) <= MaxDataPointsAllowed
            ==> r.value.startTs == LookbackStart(startTimestamp, now)
    ensures r.Ok? && EstimatedPoints(now - LookbackStart(startTimestamp, now), intervalMs) > MaxDataPointsAllowed
            ==> r.value.numDataPoints == MaxDataPointsAllowed
                && r.value.startTs == now - (MaxDataPointsAllowed - 1) * intervalMs
  {
    var startTsForTest := startTimestamp;
    var endTsForTest := now;
    if startTsForTest >= endTsForTest {
      return Err(StartNotBeforeEnd);
    }
    if endTsForTest - startTsForTest < MinLookbackMs {
      return Err(LookbackTooShort);
    }
    if endTsForTest - startTsForTest > MaxLookbackMs {
      startTsForTest := endTsForTest - MaxLookbackMs;
    }
    if intervalMs <= 0 {
      return Err(NonPositiveInterval);
    }
    var currentLookbackMs := endTsForTest - startTsForTest;
    var numDataPointsCalc := EstimatedPoints(currentLookbackMs, intervalMs);
    if numDataPointsCalc > MaxDataPointsAllowed {
      startTsForTest := endTsForTest - (MaxDataPointsAllowed - 1) * intervalMs;
      numDataPointsCalc := MaxDataPointsAllowed;
      MulNonnegative(EstimatedPoints(currentLookbackMs, intervalMs) - 1 - MaxDataPointsAllowed, intervalMs);
      assert (EstimatedPoints(currentLookbackMs, intervalMs) - 1) * intervalMs
          == MaxDataPointsAllowed * intervalMs + (EstimatedPoints(currentLookbackMs, intervalMs) - 1 - MaxDataPointsAllowed) * intervalMs;
      PointsAreUnique(EstimatedPoints(endTsForTest - startTsForTest, intervalMs), MaxDataPointsAllowed,
                      endTsForTest - startTsForTest, intervalMs);
    }
    return Ok(RunPlan(startTsForTest, endTsForTest, numDataPointsCalc));
  }
}
