/**
 * Keyboard tab stops and accessible labels of the month and quarter cells,
 * and the label prefix of the whole page.
 */
module Accessibility {
  import opened Options
  import opened Dates
  import opened Props
  import Ranges

  /** getTabIndex, as the number the cell receives: 0 for the one tab stop,
      -1 otherwise. Only the month of preSelection is compared, not its year. */
  function TabIndex(p: MonthProps, m: int): (r: int)
    ensures r == 0 || r == -1
    ensures r == 0 <==> p.preSelection.Some? && !p.disabledKeyboardNavigation && m == Month(p.preSelection.value)
  {
    if p.preSelection.None? then -1
    else
      var preSelectedMonth := Month(p.preSelection.value);
      if !p.disabledKeyboardNavigation && m == preSelectedMonth then 0 else -1
  }

  /** getQuarterTabIndex: 0 for the quarter of preSelection, -1 otherwise. */
  function QuarterTabIndex(p: MonthProps, q: int): (r: int)
    ensures r == 0 || r == -1
    ensures r == 0 <==> p.preSelection.Some? && !p.disabledKeyboardNavigation && q == Quarter(p.preSelection.value)
  {
    if p.preSelection.None? then -1
    else
      var preSelectedQuarter := Quarter(p.preSelection.value);
      if !p.disabledKeyboardNavigation && q == preSelectedQuarter then 0 else -1
  }

  /** At most one month cell and one quarter cell are tab stops; with a
      preSelection and keyboard navigation on, exactly one of 0..11 and one of 1..4 is. */
  lemma OneTabStop(p: MonthProps, m1: int, m2: int, q1: int, q2: int)
    ensures TabIndex(p, m1) == 0 && TabIndex(p, m2) == 0 ==> m1 == m2
    ensures QuarterTabIndex(p, q1) == 0 && QuarterTabIndex(p, q2) == 0 ==> q1 == q2
    ensures p.preSelection.Some? && !p.disabledKeyboardNavigation ==>
      exists m :: 0 <= m < 12 && TabIndex(p, m) == 0
    ensures p.preSelection.Some? && !p.disabledKeyboardNavigation ==>
      exists q :: 1 <= q <= 4 && QuarterTabIndex(p, q) == 0
  {
    if p.preSelection.Some? && !p.disabledKeyboardNavigation {
      assert TabIndex(p, Month(p.preSelection.value)) == 0;
      assert QuarterTabIndex(p, Quarter(p.preSelection.value)) == 0;
    }
  }

  /** A keyboard-selected month cell is the tab stop. */
  lemma KeyboardSelectedMonthIsTabStop(p: MonthProps, m: int)
    requires Ranges.IsKeyboardSelectedMonth(p, m)
    ensures TabIndex(p, m) == 0
  {
  }

  /** The tab stop ignores the year: on a page of another year the cell of
      preSelection's month is still a tab stop, though not keyboard-selected. */
  lemma TabStopIgnoresYear()
    ensures var p := MonthProps(Date(12 * 2024 + 5, 1), None, Some(Date(12 * 2023 + 5, 1)), None, None, None,
                                false, false, false, None, None, None, None, None, false, true, false, false, false,
                                None, None, None);
            TabIndex(p, 5) == 0 && !Ranges.IsKeyboardSelectedMonth(p, 5)
  {
    assert Year(Date(12 * 2024 + 5, 1)) == 2024 && Month(Date(12 * 2023 + 5, 1)) == 5;
    assert Year(Date(12 * 2023 + 5, 1)) == 2023;
  }

  /** The keyboard-selected quarter cell follows the anchor day's quarter, the
      tab stop follows preSelection's: the two can be different cells. */
  lemma KeyboardSelectedQuarterMayNotBeTabStop()
    ensures var p := MonthProps(Date(12 * 2024, 1), None, Some(Date(12 * 2024 + 7, 1)), None, None, None,
                                false, false, false, None, None, None, None, None, false, false, true, false, false,
                                None, None, None);
            Ranges.IsKeyboardSelectedQuarter(p, 1) && QuarterTabIndex(p, 1) == -1 && QuarterTabIndex(p, 3) == 0
  {
    assert Year(Date(12 * 2024, 1)) == 2024 && Quarter(Date(12 * 2024, 1)) == 1;
    assert Year(Date(12 * 2024 + 7, 1)) == 2024 && Quarter(Date(12 * 2024 + 7, 1)) == 3;
  }

  const DefaultChoosePrefix: string := "Choose"
  const DefaultDisabledPrefix: string := "Not available"

  /** The phrase offered on a cell that can be chosen: the given one, or "Choose". */
  function ChoosePhrase(p: MonthProps): (r: string)
    ensures p.chooseDayAriaLabelPrefix.None? ==> r == DefaultChoosePrefix
    ensures p.chooseDayAriaLabelPrefix.Some? ==> r == p.chooseDayAriaLabelPrefix.value
  {
    match p.chooseDayAriaLabelPrefix
    case Some(s) => s
    case None => DefaultChoosePrefix
  }

  /** The phrase on a cell that cannot be chosen: the given one, or "Not available". */
  function NotAvailablePhrase(p: MonthProps): (r: string)
    ensures p.disabledDayAriaLabelPrefix.None? ==> r == DefaultDisabledPrefix
    ensures p.disabledDayAriaLabelPrefix.Some? ==> r == p.disabledDayAriaLabelPrefix.value
  {
    match p.disabledDayAriaLabelPrefix
    case Some(s) => s
    case None => DefaultDisabledPrefix
  }

  /** The prefix of a month cell's label: one of the two phrases, and,
      whenever the two differ, the "not available" one exactly for a label
      date that is disabled or excluded. */
  function MonthAriaPrefix(p: MonthProps, u: DateUtils, m: int): (r: string)
    ensures r == ChoosePhrase(p) || r == NotAvailablePhrase(p)
    ensures ChoosePhrase(p) != NotAvailablePhrase(p) ==>
      (r == NotAvailablePhrase(p) <==> u.isDayDisabled(SetMonth(p.day, m)) || u.isDayExcluded(SetMonth(p.day, m)))
  {
    var labelDate := SetMonth(p.day, m);
    if u.isDayDisabled(labelDate) || u.isDayExcluded(labelDate) then NotAvailablePhrase(p) else ChoosePhrase(p)
  }

  /** With the default phrases a blocked month is always told apart: the two
      defaults differ. */
  lemma DefaultPhrasesDiffer(p: MonthProps)
    requires p.chooseDayAriaLabelPrefix.None? && p.disabledDayAriaLabelPrefix.None?
    ensures ChoosePhrase(p) != NotAvailablePhrase(p)
  {
    assert ChoosePhrase(p)[0] == 'C' && NotAvailablePhrase(p)[0] == 'N';
  }

  /** getAriaLabel: the prefix, a space, and the formatted label date
      (formatting is the date utility's and comes in as `formatted`). */
  function MonthAriaLabel(p: MonthProps, u: DateUtils, m: int, formatted: string): (r: string)
    ensures var prefix := MonthAriaPrefix(p, u, m);
      |r| == |prefix| + 1 + |formatted| && r[..|prefix|] == prefix && r[|prefix|] == ' ' && r[|prefix| + 1..] == formatted
  {
    MonthAriaPrefix(p, u, m) + " " + formatted
  }

  /** The characters JavaScript's `trim` removes: white space and line terminators. */
  predicate IsJsWhitespace(c: char)
  {
    c in {'\U{9}', '\U{A}', '\U{B}', '\U{C}', '\U{D}', '\U{20}', '\U{A0}', '\U{1680}',
          '\U{2000}', '\U{2001}', '\U{2002}', '\U{2003}', '\U{2004}', '\U{2005}', '\U{2006}', '\U{2007}',
          '\U{2008}', '\U{2009}', '\U{200A}', '\U{2028}', '\U{2029}', '\U{202F}', '\U{205F}', '\U{3000}',
          '\U{FEFF}'}
  }

  function TrimStart(s: string): (r: string)
    ensures |r| <= |s| && r == s[|s| - |r|..]
    ensures r == [] || !IsJsWhitespace(r[0])
    ensures forall i :: 0 <= i < |s| - |r| ==> IsJsWhitespace(s[i])
  {
    if s != [] && IsJsWhitespace(s[0]) then TrimStart(s[1..]) else s
  }

  function TrimEnd(s: string): (r: string)
    ensures |r| <= |s| && r == s[..|r|]
    ensures r == [] || !IsJsWhitespace(r[|r| - 1])
    ensures forall i :: |r| <= i < |s| ==> IsJsWhitespace(s[i])
  {
    if s != [] && IsJsWhitespace(s[|s| - 1]) then TrimEnd(s[..|s| - 1]) else s
  }

  /** `trim`: white space removed from both ends. */
  function Trim(s: string): (r: string)
    ensures |r| <= |s|
    ensures r == [] || (!IsJsWhitespace(r[0]) && !IsJsWhitespace(r[|r| - 1]))
  {
    TrimEnd(TrimStart(s))
  }

  /** The trim of `s` is the slice of `s` between a white-space prefix and a
      white-space suffix. */
  lemma TrimIsSlice(s: string)
    ensures var i, r := |s| - |TrimStart(s)|, Trim(s);
      0 <= i <= i + |r| <= |s| && r == s[i..i + |r|] &&
      (forall k :: 0 <= k < i ==> IsJsWhitespace(s[k])) &&
      (forall k :: i + |r| <= k < |s| ==> IsJsWhitespace(s[k]))
  {
    var front := TrimStart(s);
    var r := TrimEnd(front);
    var i := |s| - |front|;
    assert front == s[i..];
    forall k | i + |r| <= k < |s|
      ensures IsJsWhitespace(s[k])
    {
      assert s[k] == front[k - i];
    }
  }

  /** A string without white space at either end is its own trim. */
  lemma {:induction false} TrimOfTrimmed(s: string)
    requires s == [] || (!IsJsWhitespace(s[0]) && !IsJsWhitespace(s[|s| - 1]))
    ensures Trim(s) == s
  {
  }

  /** Trimming twice is trimming once. */
  lemma TrimIdempotent(s: string)
    ensures Trim(Trim(s)) == Trim(s)
  {
    TrimOfTrimmed(Trim(s));
  }

  const DefaultAriaLabelPrefix: string := "Month "

  /** The prefix of the page's own label: the given prefix (by default
      "Month ") trimmed and followed by one space, or nothing when the given
      prefix is the empty string. */
  function PageAriaLabelPrefix(ariaLabelPrefix: Option<string>): (r: string)
    ensures ariaLabelPrefix == Some("") <==> r == ""
    ensures r != "" ==> r[|r| - 1] == ' ' && r[..|r| - 1] == Trim(if ariaLabelPrefix.Some? then ariaLabelPrefix.value else DefaultAriaLabelPrefix)
    ensures ariaLabelPrefix.None? ==> r == "Month "
  {
    var prefix := match ariaLabelPrefix case Some(s) => s case None => DefaultAriaLabelPrefix;
    if prefix != "" then
      assert Trim(DefaultAriaLabelPrefix) == "Month" by {
        assert TrimStart(DefaultAriaLabelPrefix) == DefaultAriaLabelPrefix;
        assert TrimEnd(DefaultAriaLabelPrefix) == DefaultAriaLabelPrefix[..5];
      }
      Trim(prefix) + " "
    else ""
  }

  /** A prefix made only of white space leaves a single space. */
  lemma BlankPrefixLeavesOneSpace()
    ensures PageAriaLabelPrefix(Some("   ")) == " "
  {
    assert TrimStart("   ") == "";
  }
}
