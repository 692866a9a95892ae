/**
 * The per-cell range flags of the month and quarter pickers: committed range
 * endpoints, the provisional "selecting" range while a range is open, and
 * the selected, keyboard-selected and current-month flags.
 */
module Ranges {
  import opened Options
  import opened Dates
  import opened Props

  /** isRangeStartMonth: the cell of startDate's month, once both ends are set. */
  predicate IsRangeStartMonth(p: MonthProps, m: int)
    ensures IsRangeStartMonth(p, m) ==> p.startDate.Some? && p.endDate.Some?
    ensures 0 <= m < 12 ==> (IsRangeStartMonth(p, m) <==>
      p.startDate.Some? && p.endDate.Some? && Year(p.startDate.value) == Year(p.day) && Month(p.startDate.value) == m)
  {
    p.startDate.Some? && p.endDate.Some? && IsSameMonth(SetMonth(p.day, m), p.startDate.value)
  }

  /** isRangeEndMonth: the cell of endDate's month, once both ends are set. */
  predicate IsRangeEndMonth(p: MonthProps, m: int)
    ensures IsRangeEndMonth(p, m) ==> p.startDate.Some? && p.endDate.Some?
    ensures 0 <= m < 12 ==> (IsRangeEndMonth(p, m) <==>
      p.startDate.Some? && p.endDate.Some? && Year(p.endDate.value) == Year(p.day) && Month(p.endDate.value) == m)
  {
    p.startDate.Some? && p.endDate.Some? && IsSameMonth(SetMonth(p.day, m), p.endDate.value)
  }

  /** isRangeStartQuarter: the cell of startDate's quarter, once both ends are set. */
  predicate IsRangeStartQuarter(p: MonthProps, q: int)
    ensures IsRangeStartQuarter(p, q) ==> p.startDate.Some? && p.endDate.Some?
    ensures 1 <= q <= 4 ==> (IsRangeStartQuarter(p, q) <==>
      p.startDate.Some? && p.endDate.Some? && Year(p.startDate.value) == Year(p.day) && Quarter(p.startDate.value) == q)
  {
    p.startDate.Some? && p.endDate.Some? && IsSameQuarter(SetQuarter(p.day, q), p.startDate.value)
  }

  /** isRangeEndQuarter: the cell of endDate's quarter, once both ends are set. */
  predicate IsRangeEndQuarter(p: MonthProps, q: int)
    ensures IsRangeEndQuarter(p, q) ==> p.startDate.Some? && p.endDate.Some?
    ensures 1 <= q <= 4 ==> (IsRangeEndQuarter(p, q) <==>
      p.startDate.Some? && p.endDate.Some? && Year(p.endDate.value) == Year(p.day) && Quarter(p.endDate.value) == q)
  {
    p.startDate.Some? && p.endDate.Some? && IsSameQuarter(SetQuarter(p.day, q), p.endDate.value)
  }

  /** The "in range" flag of a month cell: only with both ends set. */
  predicate IsInRangeMonth(p: MonthProps, u: DateUtils, m: int)
    ensures IsInRangeMonth(p, u, m) ==> p.startDate.Some? && p.endDate.Some?
  {
    p.startDate.Some? && p.endDate.Some? && u.isMonthInRange(p.startDate.value, p.endDate.value, m, p.day)
  }

  /** The "in range" flag of a quarter cell: only with both ends set. */
  predicate IsInRangeQuarter(p: MonthProps, u: DateUtils, q: int)
    ensures IsInRangeQuarter(p, u, q) ==> p.startDate.Some? && p.endDate.Some?
  {
    p.startDate.Some? && p.endDate.Some? && u.isQuarterInRange(p.startDate.value, p.endDate.value, q, p.day)
  }

  /** The cell flagged as range start (or end) is the cell of that end's own
      month or quarter, and its in-range flag is the range check asked about
      that month or quarter: so whenever the check accepts its own ends, the
      end cells are shown in range. */
  lemma RangeEndsAreInRange(p: MonthProps, u: DateUtils, m: int, q: int)
    requires 0 <= m < 12 && 1 <= q <= 4
    ensures IsRangeStartMonth(p, m) ==> (m == Month(p.startDate.value) &&
      (IsInRangeMonth(p, u, m) <==> u.isMonthInRange(p.startDate.value, p.endDate.value, Month(p.startDate.value), p.day)))
    ensures IsRangeEndMonth(p, m) ==> (m == Month(p.endDate.value) &&
      (IsInRangeMonth(p, u, m) <==> u.isMonthInRange(p.startDate.value, p.endDate.value, Month(p.endDate.value), p.day)))
    ensures IsRangeStartQuarter(p, q) ==> (q == Quarter(p.startDate.value) &&
      (IsInRangeQuarter(p, u, q) <==> u.isQuarterInRange(p.startDate.value, p.endDate.value, Quarter(p.startDate.value), p.day)))
    ensures IsRangeEndQuarter(p, q) ==> (q == Quarter(p.endDate.value) &&
      (IsInRangeQuarter(p, u, q) <==> u.isQuarterInRange(p.startDate.value, p.endDate.value, Quarter(p.endDate.value), p.day)))
  {
  }

  /** isInSelectingRangeMonth, with its precedence chain: only while a
      range flag is set and a provisional date exists. */
  predicate IsInSelectingRangeMonth(p: MonthProps, u: DateUtils, m: int)
    ensures IsInSelectingRangeMonth(p, u, m) ==>
      (p.selectsStart || p.selectsEnd || p.selectsRange) && SelectingDate(p).Some? && !ModeOf(p).NotSelecting?
  {
    var selecting := SelectingDate(p);
    if !(p.selectsStart || p.selectsEnd || p.selectsRange) || selecting.None? then false
    else if p.selectsStart && p.endDate.Some? then u.isMonthInRange(selecting.value, p.endDate.value, m, p.day)
    else if p.selectsEnd && p.startDate.Some? then u.isMonthInRange(p.startDate.value, selecting.value, m, p.day)
    else if p.selectsRange && p.startDate.Some? && p.endDate.None? then u.isMonthInRange(p.startDate.value, selecting.value, m, p.day)
    else false
  }

  /** isInSelectingRangeQuarter, with the same precedence chain. */
  predicate IsInSelectingRangeQuarter(p: MonthProps, u: DateUtils, q: int)
    ensures IsInSelectingRangeQuarter(p, u, q) ==>
      (p.selectsStart || p.selectsEnd || p.selectsRange) && SelectingDate(p).Some? && !ModeOf(p).NotSelecting?
  {
    var selecting := SelectingDate(p);
    if !(p.selectsStart || p.selectsEnd || p.selectsRange) || selecting.None? then false
    else if p.selectsStart && p.endDate.Some? then u.isQuarterInRange(selecting.value, p.endDate.value, q, p.day)
    else if p.selectsEnd && p.startDate.Some? then u.isQuarterInRange(p.startDate.value, selecting.value, q, p.day)
    else if p.selectsRange && p.startDate.Some? && p.endDate.None? then u.isQuarterInRange(p.startDate.value, selecting.value, q, p.day)
    else false
  }

  /** isSelectingMonthRangeStart. */
  predicate IsSelectingMonthRangeStart(p: MonthProps, u: DateUtils, m: int)
    ensures IsSelectingMonthRangeStart(p, u, m) ==> IsInSelectingRangeMonth(p, u, m)
  {
    if !IsInSelectingRangeMonth(p, u, m) then false
    else if p.selectsStart then IsSameMonth(SetMonth(p.day, m), SelectingDate(p).value)
    else IsSameMonth(SetMonth(p.day, m), p.startDate.value)
  }

  /** isSelectingMonthRangeEnd. */
  predicate IsSelectingMonthRangeEnd(p: MonthProps, u: DateUtils, m: int)
    ensures IsSelectingMonthRangeEnd(p, u, m) ==> IsInSelectingRangeMonth(p, u, m)
  {
    if !IsInSelectingRangeMonth(p, u, m) then false
    else if p.selectsEnd || p.selectsRange then IsSameMonth(SetMonth(p.day, m), SelectingDate(p).value)
    else IsSameMonth(SetMonth(p.day, m), p.endDate.value)
  }

  /** The two ends of a provisional range, lower then upper. */
  datatype Bounds = Bounds(lo: Date, hi: Date)

  /** Which range selection is in progress, resolved once from the flags:
      choosing the start against a committed end, choosing the end against a
      committed start, or an open free range. */
  datatype SelectingMode =
    | ChoosingStart(committedEnd: Date)
    | ChoosingEnd(committedStart: Date)
    | OpenRange(committedStart: Date)
    | NotSelecting

  function ModeOf(p: MonthProps): SelectingMode
  {
    if p.selectsStart && p.endDate.Some? then ChoosingStart(p.endDate.value)
    else if p.selectsEnd && p.startDate.Some? then ChoosingEnd(p.startDate.value)
    else if p.selectsRange && p.startDate.Some? && p.endDate.None? then OpenRange(p.startDate.value)
    else NotSelecting
  }

  /** The provisional range: the committed end paired with the provisional
      date, which stands in for the end that is not committed. */
  function SelectingBounds(p: MonthProps): (r: Option<Bounds>)
    ensures r.Some? ==> SelectingDate(p).Some?
    ensures r.Some? ==> (r.value.lo == SelectingDate(p).value || r.value.hi == SelectingDate(p).value)
  {
    match SelectingDate(p)
    case None => None
    case Some(s) =>
      match ModeOf(p)
      case ChoosingStart(e) => Some(Bounds(s, e))
      case ChoosingEnd(b) => Some(Bounds(b, s))
      case OpenRange(b) => Some(Bounds(b, s))
      case NotSelecting => None
  }

  /** The month and quarter predicates agree on which range is provisional. */
  lemma SelectingRangePrecedence(p: MonthProps, u: DateUtils, m: int, q: int)
    ensures IsInSelectingRangeMonth(p, u, m) <==>
      SelectingBounds(p).Some? && u.isMonthInRange(SelectingBounds(p).value.lo, SelectingBounds(p).value.hi, m, p.day)
    ensures IsInSelectingRangeQuarter(p, u, q) <==>
      SelectingBounds(p).Some? && u.isQuarterInRange(SelectingBounds(p).value.lo, SelectingBounds(p).value.hi, q, p.day)
  {
  }

  /** Nothing is in the selecting range without a range flag or a provisional date. */
  lemma NoSelectingRangeWithoutFlagOrDate(p: MonthProps, u: DateUtils, m: int, q: int)
    requires !(p.selectsStart || p.selectsEnd || p.selectsRange) || (p.selectingDate.None? && p.preSelection.None?)
    ensures !IsInSelectingRangeMonth(p, u, m) && !IsInSelectingRangeQuarter(p, u, q)
    ensures !IsSelectingMonthRangeStart(p, u, m) && !IsSelectingMonthRangeEnd(p, u, m)
  {
  }

  /** In a free range whose end is committed there is no provisional range,
      so a cell is never both a range end and in the selecting range. */
  lemma CommittedFreeRangeHasNoSelectingRange(p: MonthProps, u: DateUtils, m: int)
    requires p.selectsRange && !p.selectsStart && !p.selectsEnd && p.endDate.Some?
    ensures !IsInSelectingRangeMonth(p, u, m)
    ensures !(IsRangeStartMonth(p, m) && IsInSelectingRangeMonth(p, u, m))
  {
  }

  predicate AtMostOneRangeFlag(p: MonthProps)
  {
    !(p.selectsStart && p.selectsEnd) && !(p.selectsStart && p.selectsRange) && !(p.selectsEnd && p.selectsRange)
  }

  /** With one range flag, the selecting-start cell is the month of the
      provisional range's lower end, and the selecting-end cell that of its
      upper end. */
  lemma SelectingEndsAreBounds(p: MonthProps, u: DateUtils, m: int)
    requires AtMostOneRangeFlag(p)
    ensures IsSelectingMonthRangeStart(p, u, m) <==>
      IsInSelectingRangeMonth(p, u, m) && IsSameMonth(SetMonth(p.day, m), SelectingBounds(p).value.lo)
    ensures IsSelectingMonthRangeEnd(p, u, m) <==>
      IsInSelectingRangeMonth(p, u, m) && IsSameMonth(SetMonth(p.day, m), SelectingBounds(p).value.hi)
  {
    SelectingRangePrecedence(p, u, m, 1);
  }

  /** With selectsStart and selectsRange both set, the selecting-start cell is
      the provisional date's month although the provisional range starts at
      startDate: the flags are meant to be exclusive. */
  lemma OverlappingFlagsSplitStartFromBounds()
    ensures var u := DateUtils(d => false, d => false, (d, o) => false, (d, o) => false,
                               (a, b, m, d) => true, (a, b, q, d) => true);
            var p := MonthProps(Date(24288, 1), None, Some(Date(24290, 1)), None, Some(Date(24288, 1)), None,
                                true, false, true, None, None, None, None, None, false, true, false, false, false,
                                None, None, None);
            IsSelectingMonthRangeStart(p, u, 2) && SelectingBounds(p).value.lo == Date(24288, 1)
  {
  }

  /** The page's own "selecting-range" class: it reads the raw selectingDate,
      without the preSelection fallback, and only the start and end flags. */
  predicate PageSelectingRange(p: MonthProps)
    ensures PageSelectingRange(p) ==> SelectingDate(p).Some? && SelectingDate(p) == p.selectingDate
    ensures !p.selectsStart && !p.selectsEnd ==> !PageSelectingRange(p)
  {
    p.selectingDate.Some? && (p.selectsStart || p.selectsEnd)
  }

  /** An open free range shows a selecting range on its cells, through the
      preSelection fallback, while the page's selecting-range class is off. */
  lemma SelectingCellsWithoutPageFlag()
    ensures var u := DateUtils(d => false, d => false, (d, o) => false, (d, o) => false,
                               (a, b, m, d) => true, (a, b, q, d) => true);
            var p := MonthProps(Date(24288, 1), None, Some(Date(24290, 1)), None, Some(Date(24288, 1)), None,
                                false, false, true, None, None, None, None, None, false, true, false, false, false,
                                None, None, None);
            IsInSelectingRangeMonth(p, u, 1) && IsInSelectingRangeQuarter(p, u, 1) && !PageSelectingRange(p)
  {
  }

  /** isSelectedMonth: month `m` of the anchor year holds `selected`. */
  predicate IsSelectedMonth(day: Date, m: int, selected: Date)
    ensures 0 <= m < 12 ==> (IsSelectedMonth(day, m, selected) <==> IsSameMonth(SetMonth(day, m), selected))
  {
    Month(selected) == m && Year(day) == Year(selected)
  }

  /** isSelectedQuarter: compares `q` with the anchor day's quarter, not with
      that of `selected`; only the year of `selected` is read. */
  predicate IsSelectedQuarter(day: Date, q: int, selected: Date)
    ensures 1 <= q <= 4 ==> (IsSelectedQuarter(day, q, selected) <==>
      IsSameQuarter(SetQuarter(day, q), day) && Year(selected) == Year(day))
    ensures IsSelectedQuarter(day, q, selected) ==> 1 <= q <= 4
  {
    Quarter(day) == q && Year(day) == Year(selected)
  }

  /** The quarter flag ignores the quarter of `selected`: in a year that
      matches, the anchor day's quarter is flagged whatever is selected. */
  lemma SelectedQuarterIgnoresSelected(day: Date, q: int, s1: Date, s2: Date)
    requires Year(s1) == Year(s2)
    ensures IsSelectedQuarter(day, q, s1) == IsSelectedQuarter(day, q, s2)
    ensures Year(s1) == Year(day) ==> IsSelectedQuarter(day, Quarter(day), s1)
  {
  }

  /** At most one month cell of the page is flagged selected. */
  lemma SelectedMonthUnique(day: Date, m1: int, m2: int, selected: Date)
    requires IsSelectedMonth(day, m1, selected) && IsSelectedMonth(day, m2, selected)
    ensures m1 == m2
  {
  }

  /** The "keyboard-selected" flag of a month cell. */
  predicate IsKeyboardSelectedMonth(p: MonthProps, m: int)
    ensures 0 <= m < 12 ==> (IsKeyboardSelectedMonth(p, m) <==>
      !p.disabledKeyboardNavigation && p.preSelection.Some? && IsSameMonth(SetMonth(p.day, m), p.preSelection.value))
  {
    !p.disabledKeyboardNavigation && p.preSelection.Some? && IsSelectedMonth(p.day, m, p.preSelection.value)
  }

  /** The "keyboard-selected" flag of a quarter cell. */
  predicate IsKeyboardSelectedQuarter(p: MonthProps, q: int)
    ensures IsKeyboardSelectedQuarter(p, q) <==>
      !p.disabledKeyboardNavigation && p.preSelection.Some? &&
      q == Quarter(p.day) && Year(p.preSelection.value) == Year(p.day)
  {
    !p.disabledKeyboardNavigation && p.preSelection.Some? && IsSelectedQuarter(p.day, q, p.preSelection.value)
  }

  /** isCurrentMonth, with today's date passed in. */
  predicate IsCurrentMonth(day: Date, m: int, today: Date)
    ensures 0 <= m < 12 ==> (IsCurrentMonth(day, m, today) <==> IsSameMonth(SetMonth(day, m), today))
  {
    Year(day) == Year(today) && m == Month(today)
  }

  /** isCurrentQuarter, with today's date passed in. */
  predicate IsCurrentQuarter(day: Date, q: int, today: Date)
    ensures 1 <= q <= 4 ==> (IsCurrentQuarter(day, q, today) <==> IsSameQuarter(SetQuarter(day, q), today))
  {
    Year(day) == Year(today) && q == Quarter(today)
  }
}
