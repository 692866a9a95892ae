/**
 * Calendar dates as the month page sees them.
 *
 * A date is an absolute month number (12 * year + zero-based month) and a
 * one-based day of the month. The operations below are the Gregorian-calendar
 * meaning of the date-utility helpers the page calls (setMonth, addMonths,
 * setQuarter, startOfMonth, isSameMonth, ...); the date-utility file itself is
 * not part of this model. Times of day are not modelled.
 */
module Dates {

  datatype Date = Date(absMonth: int, dayOfMonth: int)

  function Year(d: Date): int
  {
    d.absMonth / 12
  }

  /** Zero-based month, as getMonth returns it. */
  function Month(d: Date): (m: int)
    ensures 0 <= m < 12
    ensures d.absMonth == 12 * Year(d) + m
  {
    d.absMonth % 12
  }

  /** One-based quarter, as getQuarter returns it. */
  function Quarter(d: Date): (q: int)
    ensures 1 <= q <= 4
    ensures 3 * (q - 1) <= Month(d) < 3 * q
  {
    Month(d) / 3 + 1
  }

  predicate IsLeapYear(y: int)
  {
    y % 4 == 0 && (y % 100 != 0 || y % 400 == 0)
  }

  function DaysInMonth(absMonth: int): (n: int)
    ensures 28 <= n <= 31
  {
    var m := absMonth % 12;
    if m == 1 then (if IsLeapYear(absMonth / 12) then 29 else 28)
    else if m == 3 || m == 5 || m == 8 || m == 10 then 30
    else 31
  }

  /** A date whose day exists in its month. */
  predicate ValidDate(d: Date)
  {
    1 <= d.dayOfMonth <= DaysInMonth(d.absMonth)
  }

  /** The date in month `absMonth` with the given day, moved back to the
      month's last day when the month is shorter (how moving a date to
      another month behaves). */
  function ClampedDate(absMonth: int, dayOfMonth: int): (r: Date)
    ensures r.absMonth == absMonth
    ensures r.dayOfMonth <= dayOfMonth
    ensures 1 <= dayOfMonth ==> ValidDate(r)
    ensures dayOfMonth <= DaysInMonth(absMonth) ==> r.dayOfMonth == dayOfMonth
    ensures dayOfMonth > DaysInMonth(absMonth) ==> r.dayOfMonth == DaysInMonth(absMonth)
  {
    Date(absMonth, if dayOfMonth <= DaysInMonth(absMonth) then dayOfMonth else DaysInMonth(absMonth))
  }

  lemma MonthShift(x: int, k: int)
    ensures (x + k) % 12 == (x % 12 + k) % 12
  {
    var q := x / 12;
    assert x == 12 * q + x % 12;
    assert x + k == (x % 12 + k) + 12 * q;
  }

  /** addMonths (subMonths is a negative `k`). */
  function AddMonths(d: Date, k: int): (r: Date)
    ensures r.absMonth == d.absMonth + k
    ensures Month(r) == (Month(d) + k) % 12
    ensures r.dayOfMonth == if d.dayOfMonth <= DaysInMonth(r.absMonth) then d.dayOfMonth else DaysInMonth(r.absMonth)
    ensures r.dayOfMonth <= d.dayOfMonth
    ensures ValidDate(d) ==> ValidDate(r)
  {
    MonthShift(d.absMonth, k);
    ClampedDate(d.absMonth + k, d.dayOfMonth)
  }

  /** setMonth: same year, month `m`; a month outside 0..11 carries into
      the neighbouring years. */
  function SetMonth(d: Date, m: int): (r: Date)
    ensures r.absMonth == 12 * Year(d) + m
    ensures 0 <= m < 12 ==> Year(r) == Year(d) && Month(r) == m
    ensures r.dayOfMonth == if d.dayOfMonth <= DaysInMonth(r.absMonth) then d.dayOfMonth else DaysInMonth(r.absMonth)
    ensures ValidDate(d) ==> ValidDate(r)
  {
    ClampedDate(12 * Year(d) + m, d.dayOfMonth)
  }

  /** setQuarter: moves the date by whole quarters within its year, keeping
      its position inside the quarter. */
  function SetQuarter(d: Date, q: int): (r: Date)
    ensures r.absMonth == d.absMonth + 3 * (q - Quarter(d))
    ensures 1 <= q <= 4 ==> Year(r) == Year(d) && Quarter(r) == q && Month(r) - 3 * (q - 1) == Month(d) - 3 * (Quarter(d) - 1)
    ensures r.dayOfMonth == if d.dayOfMonth <= DaysInMonth(r.absMonth) then d.dayOfMonth else DaysInMonth(r.absMonth)
    ensures ValidDate(d) ==> ValidDate(r)
  {
    SetMonth(d, Month(d) + 3 * (q - Quarter(d)))
  }

  function StartOfMonth(d: Date): (r: Date)
    ensures ValidDate(r) && r.dayOfMonth == 1
    ensures Year(r) == Year(d) && Month(r) == Month(d)
  {
    Date(d.absMonth, 1)
  }

  function StartOfQuarter(d: Date): (r: Date)
    ensures ValidDate(r) && r.dayOfMonth == 1
    ensures Year(r) == Year(d) && Quarter(r) == Quarter(d) && Month(r) == 3 * (Quarter(d) - 1)
  {
    Date(d.absMonth - Month(d) % 3, 1)
  }

  predicate IsSameMonth(a: Date, b: Date)
  {
    Year(a) == Year(b) && Month(a) == Month(b)
  }

  predicate IsSameQuarter(a: Date, b: Date)
  {
    Year(a) == Year(b) && Quarter(a) == Quarter(b)
  }
}
