/**
 * The rows of the day grid: the start days of the weeks shown for the
 * anchor month. Days are numbered consecutively; the anchor month is the
 * days monthStart .. monthStart + monthLength - 1; the first row starts on
 * the locale's start of the week that holds monthStart, which the caller
 * passes in as weekStart.
 */
module Weeks {

  /** The number of rows a fixed-height page shows before any lookahead. */
  const FixedHeightWeekCount: nat := 6

  predicate InMonth(d: int, monthStart: int, monthLength: nat)
  {
    monthStart <= d < monthStart + monthLength
  }

  /** isWeekInMonth: the week's first or last day is in the anchor month. */
  predicate IsWeekInMonth(startOfWeek: int, monthStart: int, monthLength: nat)
    ensures IsWeekInMonth(startOfWeek, monthStart, monthLength) ==>
      startOfWeek < monthStart + monthLength && monthStart < startOfWeek + 7
    ensures monthLength >= 7 ==> (IsWeekInMonth(startOfWeek, monthStart, monthLength) <==>
      startOfWeek < monthStart + monthLength && monthStart < startOfWeek + 7)
  {
    InMonth(startOfWeek, monthStart, monthLength) || InMonth(startOfWeek + 6, monthStart, monthLength)
  }

  /** `count` consecutive weeks from `weekStart`. */
  function WeekStarts(weekStart: int, count: nat): (r: seq<int>)
    ensures |r| == count
    ensures forall k :: 0 <= k < count ==> r[k] == weekStart + 7 * k
  {
    seq(count, k => weekStart + 7 * k)
  }

  /** The fewest weeks from weekStart that cover every day of the month. */
  function CoveringWeekCount(weekStart: int, monthStart: int, monthLength: nat): (n: nat)
    requires weekStart <= monthStart < weekStart + 7
    requires monthLength >= 1
    ensures n >= 1
    ensures weekStart + 7 * n >= monthStart + monthLength
    ensures weekStart + 7 * (n - 1) < monthStart + monthLength
  {
    (monthStart + monthLength - weekStart + 6) / 7
  }

  /** The rows the page shows: six when fixed, the covering weeks otherwise,
      and one more when peeking into the next month. */
  function WeekCount(fixedHeight: bool, peekNextMonth: bool, weekStart: int, monthStart: int, monthLength: nat): nat
    requires weekStart <= monthStart < weekStart + 7
    requires monthLength >= 1
  {
    (if fixedHeight then FixedHeightWeekCount else CoveringWeekCount(weekStart, monthStart, monthLength))
    + (if peekNextMonth then 1 else 0)
  }

  /** The variable-height stopping rule: every week after the first up to the
      covering count touches the month, and the week after them does not. */
  lemma CoveringCountIsStopRule(weekStart: int, monthStart: int, monthLength: nat, i: int)
    requires weekStart <= monthStart < weekStart + 7
    requires monthLength >= 1
    requires 1 <= i <= CoveringWeekCount(weekStart, monthStart, monthLength)
    ensures IsWeekInMonth(weekStart + 7 * i, monthStart, monthLength) <==> i < CoveringWeekCount(weekStart, monthStart, monthLength)
  {
    var n := CoveringWeekCount(weekStart, monthStart, monthLength);
    if i < n {
      assert weekStart + 7 * i <= weekStart + 7 * (n - 1);
    }
  }

  /** The covering weeks hold every day of the month, and no fewer weeks do. */
  lemma CoveringWeeksCoverMonth(weekStart: int, monthStart: int, monthLength: nat, d: int)
    requires weekStart <= monthStart < weekStart + 7
    requires monthLength >= 1
    ensures InMonth(d, monthStart, monthLength) ==>
      weekStart <= d < weekStart + 7 * CoveringWeekCount(weekStart, monthStart, monthLength)
    ensures var lastDay := monthStart + monthLength - 1;
      InMonth(lastDay, monthStart, monthLength) &&
      lastDay >= weekStart + 7 * (CoveringWeekCount(weekStart, monthStart, monthLength) - 1)
  {
  }

  /** A real month (28 to 31 days) needs four to six rows, so six fixed rows
      always cover it. */
  lemma RealMonthNeedsAtMostSixWeeks(weekStart: int, monthStart: int, monthLength: nat)
    requires weekStart <= monthStart < weekStart + 7
    requires 28 <= monthLength <= 31
    ensures 4 <= CoveringWeekCount(weekStart, monthStart, monthLength) <= FixedHeightWeekCount
  {
  }

  /** renderWeeks: the loop that pushes one row per week until its stopping
      rule, or one row past it when peeking into the next month. */
  method RenderWeeks(weekStart: int, monthStart: int, monthLength: nat, fixedHeight: bool, peekNextMonth: bool)
    returns (weeks: seq<int>)
    requires weekStart <= monthStart < weekStart + 7
    requires monthLength >= 1
    ensures weeks == WeekStarts(weekStart, WeekCount(fixedHeight, peekNextMonth, weekStart, monthStart, monthLength))
    ensures forall k :: 0 < k < |weeks| ==> weeks[k] == weeks[k - 1] + 7
  {
    ghost var base := if fixedHeight then FixedHeightWeekCount else CoveringWeekCount(weekStart, monthStart, monthLength);
    weeks := [];
    var i := 0;
    var breakAfterNextPush := false;
    var currentWeekStart := weekStart;
    while true
      invariant 0 <= i <= base
      invariant currentWeekStart == weekStart + 7 * i
      invariant weeks == WeekStarts(weekStart, i)
      invariant breakAfterNextPush ==> peekNextMonth && i == base
      invariant !breakAfterNextPush ==> i < base
      decreases base - i + (if breakAfterNextPush then 0 else 1)
    {
      weeks := weeks + [currentWeekStart];
      if breakAfterNextPush {
        break;
      }
      i := i + 1;
      currentWeekStart := currentWeekStart + 7;
      var isFixedAndFinalWeek := fixedHeight && i >= FixedHeightWeekCount;
      var isNonFixedAndOutOfMonth := !fixedHeight && !IsWeekInMonth(currentWeekStart, monthStart, monthLength);
      if !fixedHeight {
        CoveringCountIsStopRule(weekStart, monthStart, monthLength, i);
      }
      if isFixedAndFinalWeek || isNonFixedAndOutOfMonth {
        if peekNextMonth {
          breakAfterNextPush := true;
        } else {
          break;
        }
      }
    }
  }

  /** A fixed-height page of a 28-day February that starts on a Thursday,
      with weeks starting on Sunday, shows six rows, the last of them wholly
      in March. */
  method FebruaryStartingThursday() returns (weeks: seq<int>)
    ensures |weeks| == 6
    ensures forall d :: weeks[5] <= d < weeks[5] + 7 ==> !InMonth(d, 0, 28) && d >= 28
  {
    weeks := RenderWeeks(-4, 0, 28, true, false);
  }
}
