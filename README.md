# react-datepicker month page, modelled in Dafny

The month page of react-datepicker (`src/month.tsx`) is the body of one calendar
page. It renders one of three things:

- the rows of weeks of the anchor month;
- a twelve-cell month picker, laid out in two, three or four columns;
- a four-cell quarter picker.

Around these it keeps the logic that this project models:

- arrow-key navigation over the month grid and the quarter row;
- Enter and Space on a cell;
- the "disabled" checks that gate clicks;
- the per-cell range, selected, keyboard-selected and current flags;
- the roving tab stop;
- the accessible labels;
- the loop that decides how many week rows a page shows.

The modules follow the component's structure:

- `Dates`: calendar arithmetic on an absolute month number and a day of the
  month. This is the Gregorian meaning of the date-utility helpers the page
  calls (`setMonth`, `addMonths`, `setQuarter`, `startOfMonth`, `isSameMonth`, ...).
- `Props`: the page's properties, as a datatype. Also the date-utility
  judgements it consults but does not define, as given functions.
- `MonthGrid`: the three month layouts. Also the index arithmetic of the arrow
  keys on months and quarters.
- `Constraints`: flattening `excludeDates` for the disabled checks; the month
  check, gated on the presence of a date constraint; the quarter check; the
  dates a click hands on.
- `Ranges`: the committed-range endpoints and the provisional "selecting"
  range, with the precedence of `selectsStart`, `selectsEnd` and `selectsRange`.
  Also the selected, keyboard-selected and current-month flags.
- `Accessibility`: the tab indices, the month cell's label, and the page
  label's prefix. The prefix comes with a model of JavaScript's `trim`.
- `Weeks`: the `renderWeeks` loop. It is an imperative method, proved to emit
  exactly the covering weeks, or six on a fixed-height page, plus one when
  peeking into the next month.
- `Keyboard`: one key press as a pure transition. The transition gives the new
  preSelection, the cell that receives focus, and the date handed on as a click.
- `MonthView`: the page as a class. Its fields are the properties, the focused
  cell and the forwarded events. Its key and click handlers follow the source's
  switch statements. Each handler's postcondition ties the new state to the
  `Keyboard` transition, and the lemmas in `Keyboard` prove what those
  transitions do.

Three behaviours of the source are kept as written, with lemmas that exhibit them:

- `isSelectedQuarter` compares the quarter of the anchor day, not that of `selected`.
- `getTabIndex` compares only the month of preSelection, not its year.
- Enter on a quarter cell resets preSelection to `selected` even when the
  quarter is disabled and the click is dropped.

The page chooses among three branches, not four: month picker, quarter picker,
otherwise weeks. A week picker is rendered by the weeks branch.

## Model

| member | source | states |
|---|---|---|
| Dates.SetMonth | src/month.tsx:742 | setMonth lands on absolute month 12 * year + m, so it carries over out of range; for 0..11 it keeps the year and sets the month. The day is kept, or clamped to the target month's last day when that month is shorter. It keeps the date valid |
| Dates.AddMonths | src/month.tsx:602 | addMonths moves the absolute month by k, and so the month number modulo 12. The day is kept, or clamped to the target month's last day when that month is shorter. It keeps the date valid |
| Dates.SetQuarter | src/month.tsx:671 | setQuarter moves the absolute month by three per quarter of difference; for a quarter 1..4 it keeps the year, sets the quarter, and keeps the month's position inside the quarter. The day is kept, or clamped to the target month's last day when that month is shorter. It keeps the date valid |
| Dates.StartOfMonth | src/month.tsx:537 | the first day of the same month and year |
| Dates.StartOfQuarter | src/month.tsx:679 | the first day of the first month of the same quarter and year |
| Props.SelectingDate | src/month.tsx:308 | the provisional date is selectingDate when given, else preSelection; it exists iff one of them does |
| MonthGrid.MonthColumnsLayout | src/month.tsx:51-62 | four columns iff the four-column flag; two columns iff only the two-column flag; three otherwise |
| MonthGrid.VerticalOffset | src/month.tsx:19-48 | the row offset of every layout is 2, 3 or 4 and divides 12 |
| MonthGrid.GridShape | src/month.tsx:19-48 | every layout lists 0..11 once each, in order, in rows as long as its offset; row r, column c holds r * offset + c |
| MonthGrid.RowTests | src/month.tsx:614-637 | the first-row test holds iff 0 <= m < offset and the last-row test iff 12 - offset <= m < 12 |
| MonthGrid.RightMonth | src/month.tsx:596-604 | on a cell index, ArrowRight is +1 modulo 12 |
| MonthGrid.LeftMonth | src/month.tsx:605-613 | on a cell index, ArrowLeft is -1 modulo 12 |
| MonthGrid.UpMonth | src/month.tsx:614-625 | on a cell index, ArrowUp is -offset modulo 12 and keeps the column |
| MonthGrid.DownMonth | src/month.tsx:626-637 | on a cell index, ArrowDown is +offset modulo 12 and keeps the column |
| MonthGrid.RowStepArithmetic | src/month.tsx:614-637 | a wrapped row step by an offset dividing 12 is a step modulo 12 that keeps the column |
| MonthGrid.HorizontalRoundTrip | src/month.tsx:596-613 | Left undoes Right and Right undoes Left on every cell |
| MonthGrid.VerticalRoundTrip | src/month.tsx:614-637 | Up undoes Down and Down undoes Up on every cell of every layout |
| MonthGrid.RightQuarter | src/month.tsx:713-721 | on a quarter cell, ArrowRight is the next quarter, 4 wrapping to 1 |
| MonthGrid.LeftQuarter | src/month.tsx:722-730 | on a quarter cell, ArrowLeft is the previous quarter, 1 wrapping to 4 |
| MonthGrid.QuarterRoundTrip | src/month.tsx:713-730 | the two quarter moves undo each other |
| Constraints.PushEntry | src/month.tsx:655-662 | one fold step appends the entry's date when it has one and nothing otherwise |
| Constraints.FlattenExcludeDates | src/month.tsx:655-662 | the flattened list is no longer than the entries, and each of its dates comes from some entry |
| Constraints.FlattenAppend | src/month.tsx:655-662 | flattening distributes over concatenation of entry lists |
| Constraints.FlattenKeepsEveryDate | src/month.tsx:655-662 | every entry that carries a date contributes it |
| Constraints.FlattenBareDates | src/month.tsx:655-662 | a list of bare dates flattens to the same dates, in order |
| Constraints.PropsToOnDisableClick | src/month.tsx:644-665 | min, max and include dates and the filter pass through; exclude dates are present iff given, and are then the flattened list |
| Constraints.MonthDisabledForLabelDate | src/month.tsx:735-753 | the label date is month m of the anchor year; it is disabled iff some date constraint is given and the month check says so |
| Constraints.MonthClick | src/month.tsx:525-538 | a click hands on the first day of the label month, and nothing iff the month is disabled |
| Constraints.QuarterClick | src/month.tsx:667-680 | a click hands on the first day of the label quarter, which is quarter q of the anchor year, and nothing iff the quarter check says disabled |
| Constraints.IsMonthDisabled | src/month.tsx:755-758 | without any date constraint no month is disabled; with one, a month is disabled iff the month check says so |
| Constraints.QuarterCellDisabled | src/month.tsx:853-858 | the quarter cell shows disabled iff a min or max date is given and a click on it would be dropped |
| Constraints.DisabledQuarterIgnoresClick | src/month.tsx:853-858 | a quarter cell shown disabled does not react to a click |
| Ranges.IsRangeStartMonth | src/month.tsx:272-278 | with both ends set, the flag marks exactly the cell of startDate's month, in the anchor year |
| Ranges.IsRangeStartQuarter | src/month.tsx:280-286 | with both ends set, the flag marks exactly the cell of startDate's quarter, in the anchor year |
| Ranges.IsRangeEndMonth | src/month.tsx:288-294 | with both ends set, the flag marks exactly the cell of endDate's month, in the anchor year |
| Ranges.IsRangeEndQuarter | src/month.tsx:296-302 | with both ends set, the flag marks exactly the cell of endDate's quarter, in the anchor year |
| Ranges.IsSelectingMonthRangeStart | src/month.tsx:329-343 | a selecting-start cell is in the selecting range |
| Ranges.IsSelectingMonthRangeEnd | src/month.tsx:345-359 | a selecting-end cell is in the selecting range |
| Ranges.IsInSelectingRangeMonth | src/month.tsx:304-327 | a month cell is in the selecting range only with a range flag, a provisional date and a selection in progress (see SelectingRangePrecedence for the exact range) |
| Ranges.IsInSelectingRangeQuarter | src/month.tsx:361-384 | a quarter cell is in the selecting range only with a range flag, a provisional date and a selection in progress (see SelectingRangePrecedence) |
| Ranges.IsInRangeMonth | src/month.tsx:781-784 | a month cell is in range only when both ends are set |
| Ranges.IsInRangeQuarter | src/month.tsx:868-871 | a quarter cell is in range only when both ends are set |
| Ranges.RangeEndsAreInRange | src/month.tsx:781-786 | the cell flagged as range start or range end is the cell of that end's own month or quarter, and its in-range flag is exactly the given range check at that month or quarter |
| Ranges.SelectingBounds | src/month.tsx:304-327 | a provisional range exists only with a provisional date, which is one of its two ends |
| Ranges.SelectingRangePrecedence | src/month.tsx:304-384 | the month and quarter selecting-range flags are the range check against the one provisional range the flag precedence picks |
| Ranges.NoSelectingRangeWithoutFlagOrDate | src/month.tsx:304-359 | without a range flag or a provisional date, no cell is in, starts or ends a selecting range |
| Ranges.CommittedFreeRangeHasNoSelectingRange | src/month.tsx:304-327 | in a free range whose end is committed, nothing is in the selecting range |
| Ranges.SelectingEndsAreBounds | src/month.tsx:329-359 | with one range flag, the selecting start and end cells are the months of the provisional range's lower and upper ends |
| Ranges.OverlappingFlagsSplitStartFromBounds | src/month.tsx:329-343 | with selectsStart and selectsRange both set, the selecting-start cell can be a different cell from the provisional range's lower end |
| Ranges.IsSelectedQuarter | src/month.tsx:406-408 | a quarter cell is selected iff it is the anchor day's own quarter and `selected` is in the anchor year; the quarter of `selected` is not read |
| Ranges.IsKeyboardSelectedMonth | src/month.tsx:775-778 | for a cell 0..11, the flag holds iff keyboard navigation is on, a preSelection is set, and month m of the anchor year is the month of preSelection |
| Ranges.IsKeyboardSelectedQuarter | src/month.tsx:862-865 | the flag holds iff keyboard navigation is on, a preSelection is set, q is the anchor day's own quarter and preSelection is in the anchor year; the quarter of preSelection is not read |
| Ranges.PageSelectingRange | src/month.tsx:1004-1005 | the page's selecting-range class: when on, the provisional date is the raw selectingDate; never on without selectsStart or selectsEnd |
| Ranges.SelectingCellsWithoutPageFlag | src/month.tsx:1004-1005 | an open free range can show selecting-range cells, through the preSelection fallback, while the page's class is off |
| Ranges.IsSelectedMonth | src/month.tsx:402-404 | a month cell is selected iff month m of the anchor year is the selected date's month |
| Ranges.SelectedMonthUnique | src/month.tsx:402-404 | at most one month cell is selected |
| Ranges.SelectedQuarterIgnoresSelected | src/month.tsx:406-408 | the quarter flag reads only the year of `selected`, and flags the anchor day's quarter in a matching year |
| Ranges.IsCurrentMonth | src/month.tsx:394-396 | a month cell is current iff month m of the anchor year is today's month |
| Ranges.IsCurrentQuarter | src/month.tsx:398-400 | a quarter cell is current iff quarter q of the anchor year is today's quarter |
| Accessibility.TabIndex | src/month.tsx:796-807 | the index is 0 or -1; it is 0 iff there is a preSelection, keyboard navigation is on, and m is preSelection's month |
| Accessibility.QuarterTabIndex | src/month.tsx:809-820 | the index is 0 or -1; it is 0 iff there is a preSelection, keyboard navigation is on, and q is preSelection's quarter |
| Accessibility.OneTabStop | src/month.tsx:796-820 | at most one month cell and one quarter cell are tab stops; with a preSelection and navigation on, some cell is |
| Accessibility.KeyboardSelectedMonthIsTabStop | src/month.tsx:775-778 | a keyboard-selected month cell is the tab stop |
| Accessibility.TabStopIgnoresYear | src/month.tsx:796-807 | on a page of another year, preSelection's month cell is a tab stop but not keyboard-selected |
| Accessibility.KeyboardSelectedQuarterMayNotBeTabStop | src/month.tsx:862-865 | the keyboard-selected quarter and the quarter tab stop can be different cells |
| Accessibility.ChoosePhrase | src/month.tsx:824 | the choose phrase is the given chooseDayAriaLabelPrefix, or "Choose" when none is given |
| Accessibility.NotAvailablePhrase | src/month.tsx:825 | the not-available phrase is the given disabledDayAriaLabelPrefix, or "Not available" when none is given |
| Accessibility.MonthAriaPrefix | src/month.tsx:822-833 | the prefix is one of the two phrases; whenever they differ, it is the not-available phrase exactly when the label date is disabled or excluded |
| Accessibility.DefaultPhrasesDiffer | src/month.tsx:824-825 | the two default phrases differ, so with the defaults a blocked month is always told apart |
| Accessibility.MonthAriaLabel | src/month.tsx:822-836 | the label is the prefix, one space, then the formatted date |
| Accessibility.TrimStart | src/month.tsx:1021-1023 | the result is a suffix of the input, does not start with white space, and only white space was removed |
| Accessibility.TrimEnd | src/month.tsx:1021-1023 | the result is a prefix of the input, does not end with white space, and only white space was removed |
| Accessibility.Trim | src/month.tsx:1021-1023 | the result is no longer than the input and has no white space at either end |
| Accessibility.TrimIsSlice | src/month.tsx:1021-1023 | the trimmed string is the slice between a white-space prefix and a white-space suffix |
| Accessibility.TrimOfTrimmed | src/month.tsx:1021-1023 | a string without white space at its ends is its own trim |
| Accessibility.TrimIdempotent | src/month.tsx:1021-1023 | trimming twice is trimming once |
| Accessibility.PageAriaLabelPrefix | src/month.tsx:1018-1023 | an empty prefix gives nothing; otherwise the trimmed prefix and one space; "Month " by default |
| Accessibility.BlankPrefixLeavesOneSpace | src/month.tsx:1021-1023 | a prefix of only spaces leaves a single space |
| Weeks.IsWeekInMonth | src/month.tsx:386-392 | a week in the month overlaps it; for a month of at least seven days, a week is in the month iff it overlaps it |
| Weeks.CoveringWeekCount | src/month.tsx:505-519 | the covering count is at least one; that many weeks reach past the month's last day and one fewer do not |
| Weeks.CoveringCountIsStopRule | src/month.tsx:508-513 | the i-th week after the first touches the month iff i is below the covering count |
| Weeks.CoveringWeeksCoverMonth | src/month.tsx:410-523 | every day of the month lies within the covering weeks, and the last week holds the month's last day |
| Weeks.RealMonthNeedsAtMostSixWeeks | src/month.tsx:12 | a month of 28 to 31 days needs four to six rows |
| Weeks.RenderWeeks | src/month.tsx:410-523 | the loop emits consecutive week starts: six on a fixed-height page, the covering count otherwise, one more when peeking |
| Weeks.FebruaryStartingThursday | src/month.tsx:410-523 | a fixed-height 28-day page shows six rows, the last wholly in the next month |
| Keyboard.MonthNavigation | src/month.tsx:550-558 | a blocked target changes nothing; otherwise preSelection becomes the target and focus goes to an existing cell |
| Keyboard.QuarterNavigation | src/month.tsx:694-700 | a blocked target changes nothing; otherwise preSelection becomes the target and focus goes to an existing quarter cell |
| Keyboard.MonthKeyPreventsDefault | src/month.tsx:574-577 | the month handler suppresses the default for every key except Tab |
| Keyboard.MonthCellKey | src/month.tsx:920-926 | Space reaches the handler as Enter; other keys are unchanged |
| Keyboard.DisabledNavigationIsInert | src/month.tsx:578 | with keyboard navigation disabled, no key changes anything on either picker |
| Keyboard.UnhandledMonthKeysAreInert | src/month.tsx:589-639 | on a month cell, keys other than Enter and the arrows change nothing |
| Keyboard.UnhandledQuarterKeysAreInert | src/month.tsx:708-731 | on a quarter cell, keys other than Enter, Right and Left change nothing |
| Keyboard.ArrowWithoutPreSelectionIsInert | src/month.tsx:596-637 | arrow keys change nothing without a preSelection |
| Keyboard.QuarterArrowMovesPreSelection | src/month.tsx:713-730 | a quarter arrow moves preSelection by exactly three months, one quarter forward or back with wrap-around, and focuses the wrapped cell; a blocked target changes nothing |
| Keyboard.MonthKeyTransition | src/month.tsx:578-639 | with navigation disabled nothing changes; a click happens only on Enter, and then preSelection becomes `selected` and focus stays; focus moves only on an arrow with a preSelection |
| Keyboard.QuarterKeyTransition | src/month.tsx:707-732 | with navigation disabled nothing changes; Enter always resets preSelection to `selected`; only Enter clicks; focus moves only on Right or Left with a preSelection |
| Keyboard.MonthArrowMovesPreSelection | src/month.tsx:596-637 | an arrow moves preSelection by its shift, across years too, and focuses the wrapped cell; a blocked target changes nothing |
| Keyboard.MonthFocusFollowsPreSelection | src/month.tsx:596-637 | from preSelection's own cell, focus lands on the new preSelection's month |
| Keyboard.QuarterFocusFollowsPreSelection | src/month.tsx:713-730 | from preSelection's own quarter, focus lands on the new preSelection's quarter |
| Keyboard.RightThenLeftReturns | src/month.tsx:596-613 | Right then Left returns focus to the cell and preSelection to its month |
| Keyboard.DownThenUpReturns | src/month.tsx:614-637 | Down then Up returns focus to the cell and preSelection to its month |
| Keyboard.RightThenLeftMayLoseDay | src/month.tsx:596-613 | 31 January, Right, Left gives 28 January: the day is clamped |
| Keyboard.MonthEnter | src/month.tsx:590-595 | Enter clicks the month's first day and resets preSelection to `selected` iff the month is not disabled; otherwise nothing changes |
| Keyboard.QuarterEnterAlwaysResets | src/month.tsx:709-712 | Enter on a quarter resets preSelection to `selected`, and the click is dropped iff the quarter is disabled |
| Keyboard.FocusStaysOnGrid | src/month.tsx:550-558 | focus targets are always existing month cells and existing quarter cells |
| MonthView.JanuaryPicker | src/month.tsx:1037-1041 | scenario fixture: a three-column month picker whose preSelection is 15 January 2024 |
| MonthView.VerticalSession | src/month.tsx:614-637 | scenario check: from January, ArrowUp focuses October and moves preSelection to October of the previous year; ArrowDown comes back to 15 January |
| MonthView.HorizontalSession | src/month.tsx:574-613 | scenario check: ArrowRight then ArrowLeft returns preSelection to 15 January; Tab is not prevented; all three keys are forwarded |
| MonthView.PageModeOf | src/month.tsx:1037-1041 | month picker iff its flag; quarter picker iff only its flag; weeks otherwise; the month picker uses the chosen layout |
| MonthView.MonthPage.constructor | src/month.tsx:230-232 | a fresh page has its properties and no focus, clicks or forwarded keys |
| MonthView.MonthPage.HandleMonthNavigation | src/month.tsx:550-558 | the new state is the month navigation transition applied to the old state |
| MonthView.MonthPage.OnMonthClick | src/month.tsx:525-538 | the clicks grow by the month click's date, if any; nothing else changes |
| MonthView.MonthPage.OnMonthEnter | src/month.tsx:590-595 | the new state is the Enter transition applied to the old state |
| MonthView.MonthPage.OnMonthArrow | src/month.tsx:596-637 | the new state is the arrow key's transition applied to the old state |
| MonthView.MonthPage.ApplyMonthKey | src/month.tsx:578-639 | the new state is the key's transition applied to the old state |
| MonthView.MonthPage.OnMonthKeyDown | src/month.tsx:560-642 | the default is suppressed for every key but Tab; the new state is the key's transition applied; the key is forwarded |
| MonthView.MonthPage.OnMonthCellKeyDown | src/month.tsx:920-927 | as the month handler, with Space handled and forwarded as Enter |
| MonthView.MonthPage.HandleQuarterNavigation | src/month.tsx:694-700 | the new state is the quarter navigation transition applied to the old state |
| MonthView.MonthPage.OnQuarterClick | src/month.tsx:667-680 | the clicks grow by the quarter click's date, if any; nothing else changes |
| MonthView.MonthPage.OnQuarterEnter | src/month.tsx:709-712 | the new state is the quarter Enter transition applied to the old state |
| MonthView.MonthPage.OnQuarterArrow | src/month.tsx:713-730 | the new state is the quarter arrow's transition applied to the old state |
| MonthView.MonthPage.OnQuarterKeyDown | src/month.tsx:702-733 | the new state is the key's quarter transition applied to the old state |

## Left out

- Rendering: the JSX tree, the class-name strings (`getMonthClassNames`,
  `getQuarterClassNames`, `getClassNames`) and the month and quarter content
  text. They produce markup and locale text. The flags they combine are
  modelled, including the page's selecting-range class (`PageSelectingRange`);
  the page's picker and week-picker classes are not.
- Localisation and formatting. `formatDate` and the locale month and quarter
  names belong to the date utilities; a formatted date comes in as a string.
- The date-utility file is not part of this model:
  - `isDayDisabled`, `isDayExcluded`, `isMonthDisabled`, `isQuarterDisabled`,
    `isMonthInRange` and `isQuarterInRange` are given functions.
  - The calendar helpers are written as their Gregorian meaning on whole days.
  - Time of day and time zones are not modelled.
- Focus through refs. `.focus()` on a cell is recorded as the focused cell
  index. An index outside the grid focuses nothing, as the optional chaining does.
- The host's callbacks:
  - `onDayClick` is recorded as the list of clicked dates.
  - `handleOnMonthKeyDown` as the list of forwarded keys.
  - `setPreSelection` as an update of the page's own preSelection. When the
    host gives no `setPreSelection`, the source changes nothing; the model
    always applies the update.
- Mouse enter/leave handlers. `onMonthMouseEnter` and
  `onQuarterMouseEnter` forward the first day of the month or quarter to the
  host's hover callback, behind the same disabled checks that `MonthClick` and
  `QuarterClick` model. `handleDayMouseEnter` and `handleMouseLeave` forward to
  the host's callbacks with no check at all. None of them changes the page's state.
- The `Week` child component, and the week-picker mapping of `selected` and
  `preSelection` to week starts in `renderWeeks`. They belong to the week and
  day components.
- `excludeDateIntervals` and `includeDateIntervals`. They are forwarded to the
  `Week` and day children, which are not part of this model, and reach the day
  checks `isDayDisabled` and `isDayExcluded` (given functions here, already
  applied to the page's properties). `propsToOnDisableClick` drops them, so
  the month and quarter checks never see them. `filterDate` is modelled as an
  optional predicate: it reaches the month and quarter checks through
  `PropsToOnDisableClick`, but the constraint gate of
  `isMonthDisabledForLabelDate` ignores it, as it ignores the interval lists.
- The wall clock. `isCurrentMonth` and `isCurrentQuarter` take today's date
  as a parameter.
- Weeks.RenderWeeks: days are consecutive integers, and the first week start
  is passed in. The locale's start of the week is the date utilities' concern.
