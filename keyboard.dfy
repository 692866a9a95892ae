/**
 * What one key press on a month or quarter cell does: the preSelection
 * afterwards, the cell that receives focus, and the date handed on as a
 * click. The page object that applies these is in module MonthView.
 */
module Keyboard {
  import opened Options
  import opened Dates
  import opened Props
  import opened MonthGrid
  import Constraints

  datatype Key = Enter | Space | Tab | ArrowLeft | ArrowRight | ArrowUp | ArrowDown | OtherKey

  predicate IsArrow(k: Key)
  {
    k.ArrowLeft? || k.ArrowRight? || k.ArrowUp? || k.ArrowDown?
  }

  /** The effect of a key press: the new preSelection, the cell index that
      receives focus (None: focus stays), and the date handed to onDayClick
      (None: no click). */
  datatype Transition = Transition(preSelection: Option<Date>, focus: Option<int>, click: Option<Date>)

  /** Nothing happens: preSelection kept, no focus move, no click. */
  function NoChange(p: MonthProps): Transition
  {
    Transition(p.preSelection, None, None)
  }

  /** The navigation guard: a target that is disabled or excluded is dropped. */
  predicate Blocked(u: DateUtils, d: Date)
  {
    u.isDayDisabled(d) || u.isDayExcluded(d)
  }

  /** handleMonthNavigation: move preSelection to `newDate` and focus cell
      `newMonth`, unless the date is blocked. */
  function MonthNavigation(p: MonthProps, u: DateUtils, newMonth: int, newDate: Date): (t: Transition)
    ensures Blocked(u, newDate) ==> t == NoChange(p)
    ensures !Blocked(u, newDate) ==> t.preSelection == Some(newDate) && t.click.None?
    ensures !Blocked(u, newDate) && 0 <= newMonth < 12 ==> t.focus == Some(newMonth)
  {
    if Blocked(u, newDate) then NoChange(p)
    else Transition(Some(newDate), if 0 <= newMonth < 12 then Some(newMonth) else None, None)
  }

  /** handleQuarterNavigation: as for months, focusing quarter cell `newQuarter`. */
  function QuarterNavigation(p: MonthProps, u: DateUtils, newQuarter: int, newDate: Date): (t: Transition)
    ensures Blocked(u, newDate) ==> t == NoChange(p)
    ensures !Blocked(u, newDate) ==> t.preSelection == Some(newDate) && t.click.None?
    ensures !Blocked(u, newDate) && 1 <= newQuarter <= 4 ==> t.focus == Some(newQuarter)
  {
    if Blocked(u, newDate) then NoChange(p)
    else Transition(Some(newDate), if 1 <= newQuarter <= 4 then Some(newQuarter) else None, None)
  }

  function Layout(p: MonthProps): ColumnLayout
  {
    MonthColumnsLayout(p.showFourColumnMonthYearPicker, p.showTwoColumnMonthYearPicker)
  }

  /** The cell an arrow key moves to from cell `m`. */
  function MonthArrowTarget(l: ColumnLayout, k: Key, m: int): int
    requires IsArrow(k)
  {
    match k
    case ArrowRight => RightMonth(m)
    case ArrowLeft => LeftMonth(m)
    case ArrowUp => UpMonth(l, m)
    case ArrowDown => DownMonth(l, m)
  }

  /** The months an arrow key moves preSelection by (negative: back). */
  function MonthArrowShift(l: ColumnLayout, k: Key): int
    requires IsArrow(k)
  {
    match k
    case ArrowRight => 1
    case ArrowLeft => -1
    case ArrowUp => -VerticalOffset(l)
    case ArrowDown => VerticalOffset(l)
  }

  /** onMonthKeyDown's effect on the page, for a key pressed on month cell `m`. */
  function MonthKeyTransition(p: MonthProps, u: DateUtils, k: Key, m: int): (t: Transition)
    ensures p.disabledKeyboardNavigation ==> t == NoChange(p)
    ensures t.click.Some? ==> k == Enter && t.preSelection == p.selected && t.focus.None?
    ensures t.focus.Some? ==> IsArrow(k) && p.preSelection.Some? && t.preSelection.Some?
  {
    if p.disabledKeyboardNavigation then NoChange(p)
    else match k
      case Enter =>
        if Constraints.IsMonthDisabled(p, u, m) then NoChange(p)
        else Transition(p.selected, None, Constraints.MonthClick(p, u, m))
      case ArrowLeft | ArrowRight | ArrowUp | ArrowDown =>
        if p.preSelection.None? then NoChange(p)
        else MonthNavigation(p, u, MonthArrowTarget(Layout(p), k, m),
                             AddMonths(p.preSelection.value, MonthArrowShift(Layout(p), k)))
      case _ => NoChange(p)
  }

  /** onQuarterKeyDown's effect on the page, for a key pressed on quarter cell `q`. */
  function QuarterKeyTransition(p: MonthProps, u: DateUtils, k: Key, q: int): (t: Transition)
    ensures p.disabledKeyboardNavigation ==> t == NoChange(p)
    ensures k == Enter && !p.disabledKeyboardNavigation ==> t.preSelection == p.selected && t.focus.None?
    ensures t.click.Some? ==> k == Enter
    ensures t.focus.Some? ==> (k == ArrowLeft || k == ArrowRight) && p.preSelection.Some? && t.preSelection.Some?
  {
    if p.disabledKeyboardNavigation then NoChange(p)
    else match k
      case Enter => Transition(p.selected, None, Constraints.QuarterClick(p, u, q))
      case ArrowRight =>
        if p.preSelection.None? then NoChange(p)
        else QuarterNavigation(p, u, RightQuarter(q), AddMonths(p.preSelection.value, 3))
      case ArrowLeft =>
        if p.preSelection.None? then NoChange(p)
        else QuarterNavigation(p, u, LeftQuarter(q), AddMonths(p.preSelection.value, -3))
      case _ => NoChange(p)
  }

  /** The month handler suppresses the browser's default for every key but Tab. */
  function MonthKeyPreventsDefault(k: Key): (r: bool)
    ensures r <==> !k.Tab?
  {
    k != Tab
  }

  /** The month cell turns Space into Enter before handling the key. */
  function MonthCellKey(k: Key): (r: Key)
    ensures r != Space
    ensures k == Space ==> r == Enter
    ensures k != Space ==> r == k
  {
    if k == Space then Enter else k
  }

  /** With keyboard navigation disabled, no key changes anything. */
  lemma DisabledNavigationIsInert(p: MonthProps, u: DateUtils, k: Key, m: int, q: int)
    requires p.disabledKeyboardNavigation
    ensures MonthKeyTransition(p, u, k, m) == NoChange(p)
    ensures QuarterKeyTransition(p, u, k, q) == NoChange(p)
  {
  }

  /** On a month cell, keys other than Enter and the arrows do nothing
      (Tab moves focus natively). */
  lemma UnhandledMonthKeysAreInert(p: MonthProps, u: DateUtils, k: Key, m: int)
    requires k != Enter && !IsArrow(k)
    ensures MonthKeyTransition(p, u, k, m) == NoChange(p)
  {
  }

  /** On a quarter cell only Enter, Right and Left are handled: Up and Down
      do nothing there. */
  lemma UnhandledQuarterKeysAreInert(p: MonthProps, u: DateUtils, k: Key, q: int)
    requires k != Enter && k != ArrowRight && k != ArrowLeft
    ensures QuarterKeyTransition(p, u, k, q) == NoChange(p)
  {
  }

  /** Arrow keys without a preSelection do nothing. */
  lemma ArrowWithoutPreSelectionIsInert(p: MonthProps, u: DateUtils, k: Key, m: int, q: int)
    requires IsArrow(k) && p.preSelection.None?
    ensures MonthKeyTransition(p, u, k, m) == NoChange(p)
    ensures QuarterKeyTransition(p, u, k, q) == NoChange(p)
  {
  }

  /** An arrow key moves preSelection by exactly its shift, across a year
      boundary too, and focuses the wrapped cell; a blocked target changes
      nothing. */
  lemma MonthArrowMovesPreSelection(p: MonthProps, u: DateUtils, k: Key, m: int)
    requires IsArrow(k) && !p.disabledKeyboardNavigation && p.preSelection.Some?
    requires 0 <= m < 12
    ensures var target := AddMonths(p.preSelection.value, MonthArrowShift(Layout(p), k));
      var t := MonthKeyTransition(p, u, k, m);
      target.absMonth == p.preSelection.value.absMonth + MonthArrowShift(Layout(p), k) &&
      (Blocked(u, target) ==> t == NoChange(p)) &&
      (!Blocked(u, target) ==> t == Transition(Some(target), Some(MonthArrowTarget(Layout(p), k, m)), None))
  {
  }

  /** A quarter arrow moves preSelection by exactly three months, which is
      one quarter forward or back with the fourth quarter wrapping to the
      first, and focuses the wrapped quarter cell; a blocked target changes
      nothing. */
  lemma QuarterArrowMovesPreSelection(p: MonthProps, u: DateUtils, k: Key, q: int)
    requires (k == ArrowLeft || k == ArrowRight) && !p.disabledKeyboardNavigation && p.preSelection.Some?
    requires 1 <= q <= 4
    ensures var pre := p.preSelection.value;
      var shift := if k == ArrowRight then 3 else -3;
      var target := AddMonths(pre, shift);
      var t := QuarterKeyTransition(p, u, k, q);
      target.absMonth == pre.absMonth + shift &&
      Quarter(target) == (if k == ArrowRight then RightQuarter(Quarter(pre)) else LeftQuarter(Quarter(pre))) &&
      (Blocked(u, target) ==> t == NoChange(p)) &&
      (!Blocked(u, target) ==>
        t == Transition(Some(target), Some(if k == ArrowRight then RightQuarter(q) else LeftQuarter(q)), None))
  {
    var pre := p.preSelection.value;
    var shift := if k == ArrowRight then 3 else -3;
    assert Month(AddMonths(pre, shift)) == (Month(pre) + shift) % 12;
  }

  /** When the key is pressed on preSelection's own cell and the move goes
      through, focus lands on the cell of the new preSelection's month. */
  lemma MonthFocusFollowsPreSelection(p: MonthProps, u: DateUtils, k: Key)
    requires IsArrow(k) && !p.disabledKeyboardNavigation && p.preSelection.Some?
    requires !Blocked(u, AddMonths(p.preSelection.value, MonthArrowShift(Layout(p), k)))
    ensures var t := MonthKeyTransition(p, u, k, Month(p.preSelection.value));
      t.preSelection.Some? && t.focus == Some(Month(t.preSelection.value))
  {
    var m := Month(p.preSelection.value);
    var l := Layout(p);
    assert MonthArrowTarget(l, k, m) == (m + MonthArrowShift(l, k)) % 12;
  }

  /** The same for quarters: focus lands on the new preSelection's quarter. */
  lemma QuarterFocusFollowsPreSelection(p: MonthProps, u: DateUtils, k: Key)
    requires (k == ArrowLeft || k == ArrowRight) && !p.disabledKeyboardNavigation && p.preSelection.Some?
    requires !Blocked(u, AddMonths(p.preSelection.value, if k == ArrowRight then 3 else -3))
    ensures var t := QuarterKeyTransition(p, u, k, Quarter(p.preSelection.value));
      t.preSelection.Some? && t.focus == Some(Quarter(t.preSelection.value))
  {
    var pre := p.preSelection.value;
    var shift := if k == ArrowRight then 3 else -3;
    var next := AddMonths(pre, shift);
    assert Month(next) == (Month(pre) + shift) % 12;
  }

  /** Right then Left on the month grid returns focus to the starting cell
      and preSelection to its starting month, when neither move is blocked. */
  lemma RightThenLeftReturns(p: MonthProps, u: DateUtils, m: int)
    requires 0 <= m < 12 && !p.disabledKeyboardNavigation && p.preSelection.Some?
    requires !Blocked(u, AddMonths(p.preSelection.value, 1))
    requires !Blocked(u, AddMonths(AddMonths(p.preSelection.value, 1), -1))
    ensures var next := AddMonths(p.preSelection.value, 1);
      var back := AddMonths(next, -1);
      MonthKeyTransition(p, u, ArrowRight, m) == Transition(Some(next), Some(RightMonth(m)), None) &&
      MonthKeyTransition(p.(preSelection := Some(next)), u, ArrowLeft, RightMonth(m)) == Transition(Some(back), Some(m), None) &&
      back.absMonth == p.preSelection.value.absMonth
  {
    HorizontalRoundTrip(m);
  }

  /** Down then Up on the month grid returns focus to the starting cell and
      preSelection to its starting month, when neither move is blocked. */
  lemma DownThenUpReturns(p: MonthProps, u: DateUtils, m: int)
    requires 0 <= m < 12 && !p.disabledKeyboardNavigation && p.preSelection.Some?
    requires var offset := VerticalOffset(Layout(p));
      !Blocked(u, AddMonths(p.preSelection.value, offset)) &&
      !Blocked(u, AddMonths(AddMonths(p.preSelection.value, offset), -offset))
    ensures var l := Layout(p);
      var next := AddMonths(p.preSelection.value, VerticalOffset(l));
      var back := AddMonths(next, -VerticalOffset(l));
      MonthKeyTransition(p, u, ArrowDown, m) == Transition(Some(next), Some(DownMonth(l, m)), None) &&
      MonthKeyTransition(p.(preSelection := Some(next)), u, ArrowUp, DownMonth(l, m)) == Transition(Some(back), Some(m), None) &&
      back.absMonth == p.preSelection.value.absMonth
  {
    VerticalRoundTrip(Layout(p), m);
  }

  /** The month does not come back to the same day: 31 January, Right, Left
      gives 28 January (2023 is not a leap year). */
  lemma RightThenLeftMayLoseDay()
    ensures AddMonths(AddMonths(Date(12 * 2023, 31), 1), -1) == Date(12 * 2023, 28)
  {
  }

  /** Enter on a month cell clicks it and resets preSelection to `selected`
      exactly when the month is not disabled. */
  lemma MonthEnter(p: MonthProps, u: DateUtils, m: int)
    requires !p.disabledKeyboardNavigation
    ensures var t := MonthKeyTransition(p, u, Enter, m);
      (t.click.Some? <==> !Constraints.IsMonthDisabled(p, u, m)) &&
      (t.click.Some? ==> t.preSelection == p.selected && t.click.value == StartOfMonth(SetMonth(p.day, m))) &&
      (t.click.None? ==> t == NoChange(p))
  {
  }

  /** Enter on a quarter cell resets preSelection to `selected` even when the
      quarter is disabled and the click is dropped. */
  lemma QuarterEnterAlwaysResets(p: MonthProps, u: DateUtils, q: int)
    requires !p.disabledKeyboardNavigation
    ensures var t := QuarterKeyTransition(p, u, Enter, q);
      t.preSelection == p.selected && t.focus.None? &&
      (t.click.None? <==> u.isQuarterDisabled(SetQuarter(p.day, q), Constraints.PropsToOnDisableClick(p)))
  {
  }

  /** Month focus targets are always cells of the grid, quarter targets cells of the row. */
  lemma FocusStaysOnGrid(p: MonthProps, u: DateUtils, k: Key, m: int, q: int)
    requires 0 <= m < 12 && 1 <= q <= 4
    ensures var t := MonthKeyTransition(p, u, k, m); t.focus.Some? ==> 0 <= t.focus.value < 12
    ensures var t := QuarterKeyTransition(p, u, k, q); t.focus.Some? ==> 1 <= t.focus.value <= 4
  {
  }
}
