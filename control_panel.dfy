/**
 * Two pieces of components/ControlPanel.tsx: `formatMillisecondsToDHMS`,
 * which shows a lookback as whole days and hours ("<d> 天 <h> 小時"), and
 * the clamp `handleStartTimeChange` applies to a chosen start time.
 */
module ControlPanel {

  const OneHourMs: int := 60 * 60 * 1000
  const HoursPerDay: int := 24

  /** The decimal digit character for `d`. */
  function DigitChar(d: nat): char
    requires d < 10
  {
    "0123456789"[d]
  }

  predicate IsDigit(c: char) { '0' <= c <= '9' }

  /** A natural number in decimal, as JavaScript's template literal prints it. */
  function NatToString(n: nat): (s: string)
    ensures |s| > 0 && forall k :: 0 <= k < |s| ==> IsDigit(s[k])
    ensures s[0] == '0' ==> n == 0
  {
    if n < 10 then [DigitChar(n)] else NatToString(n / 10) + [DigitChar(n % 10)]
  }

  function DigitValue(c: char): nat
    requires IsDigit(c)
  {
    c as int - '0' as int
  }

  /** The number a string of decimal digits denotes. */
  function DigitsValue(s: string): nat
    requires forall k :: 0 <= k < |s| ==> IsDigit(s[k])
  {
    if |s| == 0 then 0
    else
      assert IsDigit(s[|s| - 1]);
      DigitsValue(s[..|s| - 1]) * 10 + DigitValue(s[|s| - 1])
  }

  /** Printing a number and reading it back gives the number. */
  lemma {:induction false} NatToStringRoundTrip(n: nat)
    ensures DigitsValue(NatToString(n)) == n
  {
    if n >= 10 {
      NatToStringRoundTrip(n / 10);
      var s := NatToString(n);
      assert s[..|s| - 1] == NatToString(n / 10);
    }
  }

  /** Different numbers print differently. */
  lemma NatToStringInjective(a: nat, b: nat)
    requires NatToString(a) == NatToString(b)
    ensures a == b
  {
    NatToStringRoundTrip(a);
    NatToStringRoundTrip(b);
  }

  /** Drops the leading spaces: what is left is a suffix that does not start with one. */
  function TrimStart(s: string): (r: string)
    ensures |r| <= |s| && r == s[|s| - |r|..]
    ensures |r| > 0 ==> r[0] != ' '
    ensures forall k :: 0 <= k < |s| - |r| ==> s[k] == ' '
  {
    if |s| > 0 && s[0] == ' ' then TrimStart(s[1..]) else s
  }

  /** Drops the trailing spaces: what is left is a prefix that does not end with one. */
  function TrimEnd(s: string): (r: string)
    ensures |r| <= |s| && r == s[..|r|]
    ensures |r| > 0 ==> r[|r| - 1] != ' '
    ensures forall k :: |r| <= k < |s| ==> s[k] == ' '
  {
    if |s| > 0 && s[|s| - 1] == ' ' then TrimEnd(s[..|s| - 1]) else s
  }

  /** `String.prototype.trim` on the strings built here, whose only whitespace is the space. */
  function Trim(s: string): string {
    TrimEnd(TrimStart(s))
  }

  /**
   * What the formatter shows: days and hours of the lookback, the hours
   * omitted on a whole number of days, and "0 小時" for a negative duration.
   */
  function DurationText(ms: int): string {
    if ms < 0 then "0 小時"
    else
      var totalHours := ms / OneHourMs;
      var days := totalHours / HoursPerDay;
      var hours := totalHours % HoursPerDay;
      if days == 0 then NatToString(hours) + " 小時"
      else if hours == 0 then NatToString(days) + " 天"
      else NatToString(days) + " 天 " + NatToString(hours) + " 小時"
  }

  /** The minute-level fallbacks the source keeps for an empty result. */
  function EmptyResultFallback(milliseconds: int, totalMinutes: int, totalHours: int, days: int): string {
    if milliseconds < 60000 && totalMinutes < 1 then "少於 1 分鐘"
    else if totalMinutes > 0 && totalHours == 0 && days == 0 then NatToString(totalMinutes) + " 分鐘"
    else "0 小時"
  }

  /** The source's formatter: floor divisions, conditional appends, trim and the fallback for an empty result. */
  method FormatMillisecondsToDhms(milliseconds: int) returns (formatted: string)
    ensures formatted == DurationText(milliseconds)
  {
    if milliseconds < 0 {
      return "0 小時";
    }
    var totalSeconds := milliseconds / 1000;
    var totalMinutes := totalSeconds / 60;
    var totalHours := totalMinutes / 60;
    assert totalHours == milliseconds / OneHourMs;
    var days := totalHours / HoursPerDay;
    var hours := totalHours % HoursPerDay;
    var result := "";
    if days > 0 {
      result := result + NatToString(days) + " 天 ";
    }
    if hours > 0 || days == 0 {
      result := result + NatToString(hours) + " 小時";
    }
    TrimBuiltText(days, hours, result);
    formatted := if Trim(result) == "" then EmptyResultFallback(milliseconds, totalMinutes, totalHours, days) else Trim(result);
  }

  lemma TrimKeeps(s: string)
    requires |s| > 0 && s[0] != ' ' && s[|s| - 1] != ' '
    ensures Trim(s) == s
  {}

  /** Trimming the built text drops only the space after "天" when the hours are omitted. */
  lemma TrimBuiltText(days: nat, hours: nat, result: string)
    requires result == (if days > 0 then NatToString(days) + " 天 " else "")
                       + (if hours > 0 || days == 0 then NatToString(hours) + " 小時" else "")
    ensures Trim(result) != ""
    ensures Trim(result) == if days == 0 then NatToString(hours) + " 小時"
                            else if hours == 0 then NatToString(days) + " 天"
                            else NatToString(days) + " 天 " + NatToString(hours) + " 小時"
  {
    if days == 0 {
      var t := NatToString(hours) + " 小時";
      assert result == t;
      assert t[0] == NatToString(hours)[0];
      assert t[|t| - 1] == '時';
      TrimKeeps(t);
    } else if hours == 0 {
      var t := NatToString(days) + " 天";
      assert result == t + " ";
      assert t[0] == NatToString(days)[0];
      TrimDropsLastSpace(t);
    } else {
      var t := NatToString(days) + " 天 " + NatToString(hours) + " 小時";
      assert result == t;
      assert t[0] == NatToString(days)[0];
      assert t[|t| - 1] == '時';
      TrimKeeps(t);
    }
  }

  lemma TrimDropsLastSpace(d: string)
    requires |d| > 0 && d[0] != ' ' && d[|d| - 1] != ' '
    ensures Trim(d + " ") == d
  {
    var s := d + " ";
    assert s[0] == d[0];
    assert TrimStart(s) == s;
    assert s[..|s| - 1] == d;
    TrimKeeps(d);
  }

  /** Hours never reach a full day, and days and hours together make up the whole hours of the duration. */
  lemma DurationTextParts(ms: int)
    requires ms >= 0
    ensures var totalHours := ms / OneHourMs;
            DurationText(ms) == (if totalHours < HoursPerDay then NatToString(totalHours) + " 小時"
                                 else if totalHours % HoursPerDay == 0 then NatToString(totalHours / HoursPerDay) + " 天"
                                 else NatToString(totalHours / HoursPerDay) + " 天 " + NatToString(totalHours % HoursPerDay) + " 小時")
  {
    var totalHours := ms / OneHourMs;
    assert totalHours >= 0;
    DaysZeroBelowOneDay(totalHours);
  }

  /** Whole days are zero exactly when the hours stay below a day, and then the hours are all that remain. */
  lemma DaysZeroBelowOneDay(h: int)
    requires h >= 0
    ensures h / HoursPerDay == 0 <==> h < HoursPerDay
    ensures h < HoursPerDay ==> h % HoursPerDay == h
  {
  }

  /** Anything under an hour, including under a minute, shows as "0 小時": the minute fallbacks never show. */
  lemma SubHourShowsZeroHours(ms: int)
    requires ms < OneHourMs
    ensures DurationText(ms) == "0 小時"
  {
    if ms >= 0 {
      assert ms / OneHourMs == 0 by { DivBelow(ms, OneHourMs); }
      assert 0 / HoursPerDay == 0 && 0 % HoursPerDay == 0;
      assert NatToString(0) == "0";
    }
  }

  /** A non-negative number below the divisor floors to zero. */
  lemma DivBelow(a: int, b: int)
    requires 0 <= a < b
    ensures a / b == 0
  {
  }

  /** The text is never empty and never starts or ends with a space. */
  lemma DurationTextIsTrimmed(ms: int)
    ensures DurationText(ms) != "" && Trim(DurationText(ms)) == DurationText(ms)
  {
    TrimKeeps(DurationText(ms));
  }

  /** The clamp of `handleStartTimeChange`: below the minimum gives the minimum, above the maximum the maximum. */
  method ClampStartTimestamp(newTimestamp: int, minAllowed: int, maxAllowed: int) returns (clamped: int)
    ensures newTimestamp < minAllowed ==> clamped == minAllowed
    ensures minAllowed <= newTimestamp && maxAllowed < newTimestamp ==> clamped == maxAllowed
    ensures minAllowed <= newTimestamp <= maxAllowed ==> clamped == newTimestamp
    ensures minAllowed <= maxAllowed ==> minAllowed <= clamped <= maxAllowed
  {
    clamped := newTimestamp;
    if clamped < minAllowed {
      clamped := minAllowed;
    } else if clamped > maxAllowed {
      clamped := maxAllowed;
    }
  }
}
