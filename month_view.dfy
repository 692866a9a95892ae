/**
 * The month page as an object: the properties it is rendered with (of which
 * key presses change preSelection, through the host's setPreSelection), the
 * cell that last received focus, the dates it handed to onDayClick, and the
 * key events it forwarded to handleOnMonthKeyDown.
 */
module MonthView {
  import opened Options
  import opened Dates
  import opened Props
  import opened Keyboard
  import MonthGrid
  import Constraints

  /** Which page the component renders: the month picker wins over the
      quarter picker; otherwise the rows of weeks. */
  datatype PageMode = MonthPicker(layout: MonthGrid.ColumnLayout) | QuarterPicker | WeekRows

  function PageModeOf(p: MonthProps): (r: PageMode)
    ensures r.MonthPicker? <==> p.showMonthYearPicker
    ensures r.QuarterPicker? <==> !p.showMonthYearPicker && p.showQuarterYearPicker
    ensures r.WeekRows? <==> !p.showMonthYearPicker && !p.showQuarterYearPicker
    ensures r.MonthPicker? ==> r.layout == Layout(p)
  {
    if p.showMonthYearPicker then MonthPicker(MonthGrid.MonthColumnsLayout(p.showFourColumnMonthYearPicker, p.showTwoColumnMonthYearPicker))
    else if p.showQuarterYearPicker then QuarterPicker
    else WeekRows
  }

  class MonthPage {
    var props: MonthProps
    const utils: DateUtils
    var focusedMonth: Option<int>     // the month cell that last received focus
    var focusedQuarter: Option<int>   // the quarter cell that last received focus
    var clicks: seq<Date>             // the dates handed to onDayClick, in order
    var forwardedKeys: seq<Key>       // the keys handed to handleOnMonthKeyDown, in order

    /** Focus only ever lands on an existing cell. */
    ghost predicate Valid()
      reads this
    {
      (focusedMonth.Some? ==> 0 <= focusedMonth.value < 12) &&
      (focusedQuarter.Some? ==> 1 <= focusedQuarter.value <= 4)
    }

    /** The month page's state is `t` applied to the state (p0, focus0, clicks0):
        preSelection replaced, focus moved if `t` moves it, the click appended. */
    ghost predicate AppliedToMonth(t: Transition, p0: MonthProps, focus0: Option<int>, clicks0: seq<Date>)
      reads this`props, this`focusedMonth, this`clicks
    {
      props == p0.(preSelection := t.preSelection) &&
      focusedMonth == (if t.focus.Some? then t.focus else focus0) &&
      clicks == clicks0 + ToSeq(t.click)
    }

    /** The same for the quarter cells. */
    ghost predicate AppliedToQuarter(t: Transition, p0: MonthProps, focus0: Option<int>, clicks0: seq<Date>)
      reads this`props, this`focusedQuarter, this`clicks
    {
      props == p0.(preSelection := t.preSelection) &&
      focusedQuarter == (if t.focus.Some? then t.focus else focus0) &&
      clicks == clicks0 + ToSeq(t.click)
    }

    constructor (props: MonthProps, utils: DateUtils)
      ensures Valid()
      ensures this.props == props && this.utils == utils
      ensures focusedMonth.None? && focusedQuarter.None? && clicks == [] && forwardedKeys == []
    {
      this.props := props;
      this.utils := utils;
      focusedMonth, focusedQuarter := None, None;
      clicks, forwardedKeys := [], [];
    }

    /** handleMonthNavigation. */
    method HandleMonthNavigation(newMonth: int, newDate: Date)
      requires Valid()
      modifies this
      ensures Valid()
      ensures AppliedToMonth(MonthNavigation(old(props), utils, newMonth, newDate), old(props), old(focusedMonth), old(clicks))
      ensures focusedQuarter == old(focusedQuarter) && forwardedKeys == old(forwardedKeys)
    {
      if utils.isDayDisabled(newDate) || utils.isDayExcluded(newDate) {
        return;
      }
      props := props.(preSelection := Some(newDate));
      if 0 <= newMonth < 12 {
        focusedMonth := Some(newMonth);
      }
    }

    /** onMonthClick. */
    method OnMonthClick(m: int)
      modifies this
      ensures clicks == old(clicks) + ToSeq(Constraints.MonthClick(old(props), utils, m))
      ensures props == old(props) && focusedMonth == old(focusedMonth) && focusedQuarter == old(focusedQuarter)
      ensures forwardedKeys == old(forwardedKeys)
    {
      var res := Constraints.MonthDisabledForLabelDate(props, utils, m);
      if res.isDisabled {
        return;
      }
      clicks := clicks + [StartOfMonth(res.labelDate)];
    }

    /** The Enter case of onMonthKeyDown: click and reset preSelection to
        `selected`, unless the month is disabled. */
    method OnMonthEnter(m: int)
      requires Valid() && !props.disabledKeyboardNavigation
      modifies this
      ensures Valid()
      ensures AppliedToMonth(MonthKeyTransition(old(props), utils, Enter, m), old(props), old(focusedMonth), old(clicks))
      ensures focusedQuarter == old(focusedQuarter) && forwardedKeys == old(forwardedKeys)
    {
      if !Constraints.IsMonthDisabled(props, utils, m) {
        OnMonthClick(m);
        props := props.(preSelection := props.selected);
      }
    }

    /** The arrow cases of onMonthKeyDown: move cell and preSelection, with
        wrap-around on the cell index and none on the date. */
    method OnMonthArrow(k: Key, m: int)
      requires Valid() && !props.disabledKeyboardNavigation && IsArrow(k)
      modifies this
      ensures Valid()
      ensures AppliedToMonth(MonthKeyTransition(old(props), utils, k, m), old(props), old(focusedMonth), old(clicks))
      ensures focusedQuarter == old(focusedQuarter) && forwardedKeys == old(forwardedKeys)
    {
      if props.preSelection.None? {
        return;
      }
      var layout := MonthGrid.MonthColumnsLayout(props.showFourColumnMonthYearPicker, props.showTwoColumnMonthYearPicker);
      var verticalOffset := MonthGrid.VerticalOffset(layout);
      var preSelection := props.preSelection.value;
      var newMonth, newDate;
      match k {
        case ArrowRight =>
          newMonth, newDate := if m == 11 then 0 else m + 1, AddMonths(preSelection, 1);
        case ArrowLeft =>
          newMonth, newDate := if m == 0 then 11 else m - 1, AddMonths(preSelection, -1);
        case ArrowUp =>
          var firstRow := MonthGrid.Grid(layout)[0];
          newMonth := if m in firstRow then m + 12 - verticalOffset else m - verticalOffset;
          newDate := AddMonths(preSelection, -verticalOffset);
        case ArrowDown =>
          var grid := MonthGrid.Grid(layout);
          var lastRow := grid[|grid| - 1];
          newMonth := if m in lastRow then m - 12 + verticalOffset else m + verticalOffset;
          newDate := AddMonths(preSelection, verticalOffset);
      }
      assert newMonth == MonthArrowTarget(Layout(props), k, m);
      assert newDate == AddMonths(preSelection, MonthArrowShift(Layout(props), k));
      HandleMonthNavigation(newMonth, newDate);
    }

    /** The key switch of onMonthKeyDown, skipped when keyboard navigation is disabled. */
    method ApplyMonthKey(k: Key, m: int)
      requires Valid()
      modifies this
      ensures Valid()
      ensures AppliedToMonth(MonthKeyTransition(old(props), utils, k, m), old(props), old(focusedMonth), old(clicks))
      ensures focusedQuarter == old(focusedQuarter) && forwardedKeys == old(forwardedKeys)
    {
      if props.disabledKeyboardNavigation {
        DisabledNavigationIsInert(props, utils, k, m, 1);
      } else if k == Enter {
        OnMonthEnter(m);
      } else if IsArrow(k) {
        OnMonthArrow(k, m);
      } else {
        UnhandledMonthKeysAreInert(props, utils, k, m);
      }
    }

    /** onMonthKeyDown: returns whether the browser's default is suppressed. */
    method OnMonthKeyDown(k: Key, m: int) returns (defaultPrevented: bool)
      requires Valid()
      modifies this
      ensures Valid()
      ensures defaultPrevented == MonthKeyPreventsDefault(k)
      ensures AppliedToMonth(MonthKeyTransition(old(props), utils, k, m), old(props), old(focusedMonth), old(clicks))
      ensures focusedQuarter == old(focusedQuarter)
      ensures forwardedKeys == old(forwardedKeys) + [k]
    {
      defaultPrevented := k != Tab;
      ApplyMonthKey(k, m);
      forwardedKeys := forwardedKeys + [k];
    }

    /** The key handler of a month cell: Space is handled as Enter. */
    method OnMonthCellKeyDown(k: Key, m: int) returns (defaultPrevented: bool)
      requires Valid()
      modifies this
      ensures Valid()
      ensures defaultPrevented == MonthKeyPreventsDefault(k)
      ensures AppliedToMonth(MonthKeyTransition(old(props), utils, MonthCellKey(k), m), old(props), old(focusedMonth), old(clicks))
      ensures focusedQuarter == old(focusedQuarter)
      ensures forwardedKeys == old(forwardedKeys) + [MonthCellKey(k)]
    {
      var key := k;
      if key == Space {
        key := Enter;
      }
      defaultPrevented := OnMonthKeyDown(key, m);
    }

    /** handleQuarterNavigation. */
    method HandleQuarterNavigation(newQuarter: int, newDate: Date)
      requires Valid()
      modifies this
      ensures Valid()
      ensures AppliedToQuarter(QuarterNavigation(old(props), utils, newQuarter, newDate), old(props), old(focusedQuarter), old(clicks))
      ensures focusedMonth == old(focusedMonth) && forwardedKeys == old(forwardedKeys)
    {
      if utils.isDayDisabled(newDate) || utils.isDayExcluded(newDate) {
        return;
      }
      props := props.(preSelection := Some(newDate));
      if 1 <= newQuarter <= 4 {
        focusedQuarter := Some(newQuarter);
      }
    }

    /** onQuarterClick. */
    method OnQuarterClick(q: int)
      modifies this
      ensures clicks == old(clicks) + ToSeq(Constraints.QuarterClick(old(props), utils, q))
      ensures props == old(props) && focusedMonth == old(focusedMonth) && focusedQuarter == old(focusedQuarter)
      ensures forwardedKeys == old(forwardedKeys)
    {
      var labelDate := SetQuarter(props.day, q);
      if utils.isQuarterDisabled(labelDate, Constraints.PropsToOnDisableClick(props)) {
        return;
      }
      clicks := clicks + [StartOfQuarter(labelDate)];
    }

    /** The Enter case of onQuarterKeyDown: click, then reset preSelection to
        `selected` whether or not the click was suppressed. */
    method OnQuarterEnter(q: int)
      requires Valid() && !props.disabledKeyboardNavigation
      modifies this
      ensures Valid()
      ensures AppliedToQuarter(QuarterKeyTransition(old(props), utils, Enter, q), old(props), old(focusedQuarter), old(clicks))
      ensures focusedMonth == old(focusedMonth) && forwardedKeys == old(forwardedKeys)
    {
      OnQuarterClick(q);
      props := props.(preSelection := props.selected);
    }

    /** The Right and Left cases of onQuarterKeyDown: move cell and
        preSelection by one quarter, with wrap-around on the cell index. */
    method OnQuarterArrow(k: Key, q: int)
      requires Valid() && !props.disabledKeyboardNavigation && (k == ArrowRight || k == ArrowLeft)
      modifies this
      ensures Valid()
      ensures AppliedToQuarter(QuarterKeyTransition(old(props), utils, k, q), old(props), old(focusedQuarter), old(clicks))
      ensures focusedMonth == old(focusedMonth) && forwardedKeys == old(forwardedKeys)
    {
      if props.preSelection.None? {
        return;
      }
      if k == ArrowRight {
        HandleQuarterNavigation(if q == 4 then 1 else q + 1, AddMonths(props.preSelection.value, 3));
      } else {
        HandleQuarterNavigation(if q == 1 then 4 else q - 1, AddMonths(props.preSelection.value, -3));
      }
    }

    /** onQuarterKeyDown: never suppresses the default and forwards nothing. */
    method OnQuarterKeyDown(k: Key, q: int)
      requires Valid()
      modifies this
      ensures Valid()
      ensures AppliedToQuarter(QuarterKeyTransition(old(props), utils, k, q), old(props), old(focusedQuarter), old(clicks))
      ensures focusedMonth == old(focusedMonth) && forwardedKeys == old(forwardedKeys)
    {
      if props.disabledKeyboardNavigation {
        DisabledNavigationIsInert(props, utils, k, 1, q);
      } else if k == Enter {
        OnQuarterEnter(q);
      } else if k == ArrowRight || k == ArrowLeft {
        OnQuarterArrow(k, q);
      } else {
        UnhandledQuarterKeysAreInert(props, utils, k, q);
      }
    }
  }

  /** The props of a three-column month picker whose preSelection is 15 January 2024. */
  function JanuaryPicker(): (p: MonthProps)
    ensures p.preSelection == Some(Date(12 * 2024, 15))
    ensures PageModeOf(p) == MonthPicker(MonthGrid.ThreeColumns)
  {
    var jan := Date(12 * 2024, 15);
    MonthProps(jan, Some(jan), Some(jan), None, None, None, false, false, false, None, None, None, None, None,
               false, true, false, false, false, None, None, None)
  }

  /** Up from January wraps to October of the previous year; Down comes back. */
  method VerticalSession(u: DateUtils) returns (upFocus: Option<int>, upPre: Option<Date>, backFocus: Option<int>, backPre: Option<Date>)
    requires forall d: Date :: !u.isDayDisabled(d) && !u.isDayExcluded(d)
    ensures upFocus == Some(9) && upPre == Some(Date(12 * 2023 + 9, 15))
    ensures backFocus == Some(0) && backPre == Some(Date(12 * 2024, 15))
  {
    var page := new MonthPage(JanuaryPicker(), u);
    var prevented := page.OnMonthKeyDown(ArrowUp, 0);
    assert prevented;
    upFocus, upPre := page.focusedMonth, page.props.preSelection;
    prevented := page.OnMonthKeyDown(ArrowDown, 9);
    backFocus, backPre := page.focusedMonth, page.props.preSelection;
  }

  /** Right then Left comes back to January; Tab is left to the browser. */
  method HorizontalSession(u: DateUtils) returns (rightPre: Option<Date>, backPre: Option<Date>, tabPrevented: bool, forwarded: seq<Key>)
    requires forall d: Date :: !u.isDayDisabled(d) && !u.isDayExcluded(d)
    ensures rightPre == Some(Date(12 * 2024 + 1, 15)) && backPre == Some(Date(12 * 2024, 15))
    ensures !tabPrevented && forwarded == [ArrowRight, ArrowLeft, Tab]
  {
    var page := new MonthPage(JanuaryPicker(), u);
    var prevented := page.OnMonthKeyDown(ArrowRight, 0);
    assert page.focusedMonth == Some(1);
    rightPre := page.props.preSelection;
    prevented := page.OnMonthKeyDown(ArrowLeft, 1);
    assert page.focusedMonth == Some(0);
    backPre := page.props.preSelection;
    tabPrevented := page.OnMonthKeyDown(Tab, 0);
    forwarded := page.forwardedKeys;
  }
}
