/**
 * The disabled checks a month or quarter cell makes before it reacts to a
 * click: the flattening of `excludeDates` into bare dates, the gating of the
 * month check on the presence of any date constraint, and the quarter check.
 */
module Constraints {
  import opened Options
  import opened Dates
  import opened Props

  /** The date an exclude entry contributes, if it has one. */
  function EntryDate(e: ExcludeEntry): Option<Date>
  {
    match e
    case ExcludedDate(d) => Some(d)
    case ExcludedWithMessage(d, _) => d
  }

  /** One step of the fold: append the entry's date, if any. */
  function PushEntry(acc: seq<Date>, e: ExcludeEntry): (r: seq<Date>)
    ensures r == acc + ToSeq(EntryDate(e))
  {
    match e
    case ExcludedDate(d) => acc + [d]
    case ExcludedWithMessage(d, _) => if d.Some? then acc + [d.value] else acc
  }

  /** The left fold over `excludeDates` that keeps bare dates and the dates
      of records, in order, and drops records without a date. */
  function FlattenExcludeDates(entries: seq<ExcludeEntry>): (r: seq<Date>)
    ensures |r| <= |entries|
    ensures forall d :: d in r ==> exists i :: 0 <= i < |entries| && EntryDate(entries[i]) == Some(d)
    decreases |entries|
  {
    if entries == [] then []
    else
      var init := entries[..|entries| - 1];
      var r := PushEntry(FlattenExcludeDates(init), entries[|entries| - 1]);
      assert forall i :: 0 <= i < |init| ==> init[i] == entries[i];
      r
  }

  /** The fold distributes over concatenation of entry lists. */
  lemma {:induction false} FlattenAppend(a: seq<ExcludeEntry>, b: seq<ExcludeEntry>)
    ensures FlattenExcludeDates(a + b) == FlattenExcludeDates(a) + FlattenExcludeDates(b)
    decreases |b|
  {
    if b == [] {
      assert a + b == a;
    } else {
      var bInit := b[..|b| - 1];
      assert (a + b)[..|a + b| - 1] == a + bInit;
      assert (a + b)[|a + b| - 1] == b[|b| - 1];
      FlattenAppend(a, bInit);
    }
  }

  /** Every entry that carries a date contributes it. */
  lemma {:induction false} FlattenKeepsEveryDate(entries: seq<ExcludeEntry>, i: int)
    requires 0 <= i < |entries| && EntryDate(entries[i]).Some?
    ensures EntryDate(entries[i]).value in FlattenExcludeDates(entries)
  {
    var left, right := entries[..i], entries[i + 1..];
    assert entries == left + [entries[i]] + right;
    FlattenAppend(left + [entries[i]], right);
    FlattenAppend(left, [entries[i]]);
    assert [entries[i]][..0] == [];
    assert FlattenExcludeDates([entries[i]]) == [EntryDate(entries[i]).value];
  }

  /** A list of bare dates flattens to those dates. */
  lemma {:induction false} FlattenBareDates(entries: seq<ExcludeEntry>)
    requires forall i :: 0 <= i < |entries| ==> entries[i].ExcludedDate?
    ensures |FlattenExcludeDates(entries)| == |entries|
    ensures forall i :: 0 <= i < |entries| ==> FlattenExcludeDates(entries)[i] == entries[i].date
    decreases |entries|
  {
    if entries != [] {
      var init := entries[..|entries| - 1];
      assert forall i :: 0 <= i < |init| ==> init[i] == entries[i];
      FlattenBareDates(init);
      assert FlattenExcludeDates(entries) == FlattenExcludeDates(init) + [entries[|entries| - 1].date];
    }
  }

  /** propsToOnDisableClick: the options the month and quarter checks get. */
  function PropsToOnDisableClick(p: MonthProps): (o: DisableOptions)
    ensures o.minDate == p.minDate && o.maxDate == p.maxDate && o.includeDates == p.includeDates
    ensures o.filterDate == p.filterDate
    ensures o.excludeDates.Some? <==> p.excludeDates.Some?
    ensures p.excludeDates.Some? ==> o.excludeDates.value == FlattenExcludeDates(p.excludeDates.value)
  {
    DisableOptions(
      p.minDate,
      p.maxDate,
      match p.excludeDates
      case None => None
      case Some(entries) => Some(FlattenExcludeDates(entries)),
      p.includeDates,
      p.filterDate)
  }

  /** Whether any of minDate, maxDate, excludeDates, includeDates is given;
      an empty list counts as given. */
  predicate HasDateConstraint(p: MonthProps)
  {
    p.minDate.Some? || p.maxDate.Some? || p.excludeDates.Some? || p.includeDates.Some?
  }

  datatype MonthDisabledResult = MonthDisabledResult(isDisabled: bool, labelDate: Date)

  /** isMonthDisabledForLabelDate: month `m` of the anchor year, and whether
      it is disabled; without any date constraint it never is. */
  function MonthDisabledForLabelDate(p: MonthProps, u: DateUtils, m: int): (r: MonthDisabledResult)
    ensures r.labelDate == SetMonth(p.day, m)
    ensures r.isDisabled <==> HasDateConstraint(p) && u.isMonthDisabled(SetMonth(p.day, m), PropsToOnDisableClick(p))
  {
    var labelDate := SetMonth(p.day, m);
    MonthDisabledResult(
      if HasDateConstraint(p) then u.isMonthDisabled(labelDate, PropsToOnDisableClick(p)) else false,
      labelDate)
  }

  predicate IsMonthDisabled(p: MonthProps, u: DateUtils, m: int)
    ensures !HasDateConstraint(p) ==> !IsMonthDisabled(p, u, m)
    ensures HasDateConstraint(p) ==> (IsMonthDisabled(p, u, m) <==> u.isMonthDisabled(SetMonth(p.day, m), PropsToOnDisableClick(p)))
  {
    MonthDisabledForLabelDate(p, u, m).isDisabled
  }

  /** What onMonthClick hands to onDayClick: the first day of the month, or
      nothing when the month is disabled. */
  function MonthClick(p: MonthProps, u: DateUtils, m: int): (r: Option<Date>)
    ensures r.None? <==> IsMonthDisabled(p, u, m)
    ensures r.Some? ==> r.value == StartOfMonth(SetMonth(p.day, m)) && r.value.dayOfMonth == 1
  {
    var res := MonthDisabledForLabelDate(p, u, m);
    if res.isDisabled then None else Some(StartOfMonth(res.labelDate))
  }

  /** What onQuarterClick hands to onDayClick: the first day of the quarter,
      or nothing when the quarter is disabled (no gating on constraints). */
  function QuarterClick(p: MonthProps, u: DateUtils, q: int): (r: Option<Date>)
    ensures r.None? <==> u.isQuarterDisabled(SetQuarter(p.day, q), PropsToOnDisableClick(p))
    ensures r.Some? ==> r.value == StartOfQuarter(SetQuarter(p.day, q))
    ensures r.Some? && 1 <= q <= 4 ==> Quarter(r.value) == q && Year(r.value) == Year(p.day)
  {
    var labelDate := SetQuarter(p.day, q);
    if u.isQuarterDisabled(labelDate, PropsToOnDisableClick(p)) then None else Some(StartOfQuarter(labelDate))
  }

  /** The "disabled" flag a quarter cell shows: only with a minDate or maxDate. */
  predicate QuarterCellDisabled(p: MonthProps, u: DateUtils, q: int)
    ensures QuarterCellDisabled(p, u, q) <==> (p.minDate.Some? || p.maxDate.Some?) && QuarterClick(p, u, q).None?
  {
    (p.minDate.Some? || p.maxDate.Some?) && u.isQuarterDisabled(SetQuarter(p.day, q), PropsToOnDisableClick(p))
  }

  /** A quarter shown disabled never reacts to a click. */
  lemma DisabledQuarterIgnoresClick(p: MonthProps, u: DateUtils, q: int)
    requires QuarterCellDisabled(p, u, q)
    ensures QuarterClick(p, u, q).None?
  {
  }
}
