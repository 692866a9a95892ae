/**
 * The properties a month page receives from its host, reduced to what the
 * page's logic reads, and the date-utility judgements it consults.
 */
module Props {
  import opened Options
  import opened Dates

  /** One entry of `excludeDates`: a bare date, or a record that carries a
      date (possibly missing) and a message. */
  datatype ExcludeEntry =
    | ExcludedDate(date: Date)
    | ExcludedWithMessage(annotated: Option<Date>, message: string)

  datatype MonthProps = MonthProps(
    day: Date,                           // the anchor day of the page
    selected: Option<Date>,
    preSelection: Option<Date>,
    selectingDate: Option<Date>,
    startDate: Option<Date>,
    endDate: Option<Date>,
    selectsStart: bool,
    selectsEnd: bool,
    selectsRange: bool,
    minDate: Option<Date>,
    maxDate: Option<Date>,
    excludeDates: Option<seq<ExcludeEntry>>,
    includeDates: Option<seq<Date>>,
    filterDate: Option<Date -> bool>,
    disabledKeyboardNavigation: bool,
    showMonthYearPicker: bool,
    showQuarterYearPicker: bool,
    showTwoColumnMonthYearPicker: bool,
    showFourColumnMonthYearPicker: bool,
    ariaLabelPrefix: Option<string>,
    chooseDayAriaLabelPrefix: Option<string>,
    disabledDayAriaLabelPrefix: Option<string>)

  /** The narrower option set the month and quarter "disabled" checks take. */
  datatype DisableOptions = DisableOptions(
    minDate: Option<Date>,
    maxDate: Option<Date>,
    excludeDates: Option<seq<Date>>,
    includeDates: Option<seq<Date>>,
    filterDate: Option<Date -> bool>)

  /**
   * The date-utility judgements the page consults but does not define.
   * `isDayDisabled` and `isDayExcluded` are already applied to the page's
   * own min/max/include/exclude/filter properties; `isMonthDisabled` and
   * `isQuarterDisabled` take theirs, filter included, as a DisableOptions.
   */
  datatype DateUtils = DateUtils(
    isDayDisabled: Date -> bool,
    isDayExcluded: Date -> bool,
    isMonthDisabled: (Date, DisableOptions) -> bool,
    isQuarterDisabled: (Date, DisableOptions) -> bool,
    isMonthInRange: (Date, Date, int, Date) -> bool,
    isQuarterInRange: (Date, Date, int, Date) -> bool)

  /** `selectingDate ?? preSelection`: the provisional end of a range. */
  function SelectingDate(p: MonthProps): (r: Option<Date>)
    ensures r.Some? <==> p.selectingDate.Some? || p.preSelection.Some?
    ensures p.selectingDate.Some? ==> r == p.selectingDate
    ensures p.selectingDate.None? ==> r == p.preSelection
  {
    if p.selectingDate.Some? then p.selectingDate else p.preSelection
  }
}
