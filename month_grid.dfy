/**
 * The month-picker grid: three fixed layouts of the twelve months, the
 * choice between them, and the index arithmetic of arrow-key movement over
 * the month grid and the single row of quarters.
 */
module MonthGrid {

  datatype ColumnLayout = TwoColumns | ThreeColumns | FourColumns

  /** Four columns win over two; three is the default. */
  function MonthColumnsLayout(showFourColumns: bool, showTwoColumns: bool): (l: ColumnLayout)
    ensures showFourColumns <==> l == FourColumns
    ensures l == TwoColumns <==> !showFourColumns && showTwoColumns
    ensures l == ThreeColumns <==> !showFourColumns && !showTwoColumns
  {
    if showFourColumns then FourColumns
    else if showTwoColumns then TwoColumns
    else ThreeColumns
  }

  /** The rows of month indices each layout shows. */
  function Grid(l: ColumnLayout): seq<seq<int>>
  {
    match l
    case TwoColumns => [[0, 1], [2, 3], [4, 5], [6, 7], [8, 9], [10, 11]]
    case ThreeColumns => [[0, 1, 2], [3, 4, 5], [6, 7, 8], [9, 10, 11]]
    case FourColumns => [[0, 1, 2, 3], [4, 5, 6, 7], [8, 9, 10, 11]]
  }

  /** verticalNavigationOffset: the index distance between two rows. */
  function VerticalOffset(l: ColumnLayout): (n: int)
    ensures 2 <= n <= 4 && 12 % n == 0
  {
    match l
    case TwoColumns => 2
    case ThreeColumns => 3
    case FourColumns => 4
  }

  function Flatten(rows: seq<seq<int>>): seq<int>
  {
    if rows == [] then [] else rows[0] + Flatten(rows[1..])
  }

  function MonthIndices(): seq<int>
  {
    [0, 1, 2, 3, 4, 5, 6, 7, 8, 9, 10, 11]
  }

  /** Dropping the first of the rows of consecutive numbers from `start`
      leaves rows of consecutive numbers from `start + n`. */
  lemma RestRowsConsecutive(rows: seq<seq<int>>, start: int, n: nat)
    requires rows != []
    requires forall r, c :: 0 <= r < |rows| && 0 <= c < |rows[r]| ==> rows[r][c] == start + r * n + c
    ensures forall r, c :: 0 <= r < |rows| - 1 && 0 <= c < |rows[1..][r]| ==> rows[1..][r][c] == (start + n) + r * n + c
  {
    forall r, c | 0 <= r < |rows| - 1 && 0 <= c < |rows[1..][r]|
      ensures rows[1..][r][c] == (start + n) + r * n + c
    {
      assert rows[1..][r] == rows[r + 1];
      assert (r + 1) * n == r * n + n;
    }
  }

  /** A run of `(k + 1) * n` consecutive numbers is a run of `n` followed by
      a run of `k * n`. */
  lemma RunSplit(start: int, n: nat, k: nat)
    ensures seq((k + 1) * n, i => start + i) == seq(n, i => start + i) + seq(k * n, i => start + n + i)
  {
    assert (k + 1) * n == n + k * n;
  }

  /** Rows of `n` consecutive numbers from `start` flatten to one run of
      consecutive numbers. */
  lemma {:induction false} FlattenConsecutive(rows: seq<seq<int>>, start: int, n: nat)
    requires forall r :: 0 <= r < |rows| ==> |rows[r]| == n
    requires forall r, c :: 0 <= r < |rows| && 0 <= c < |rows[r]| ==> rows[r][c] == start + r * n + c
    ensures Flatten(rows) == seq(|rows| * n, i => start + i)
  {
    if rows != [] {
      RestRowsConsecutive(rows, start, n);
      FlattenConsecutive(rows[1..], start + n, n);
      assert rows[0] == seq(n, i => start + i);
      RunSplit(start, n, |rows| - 1);
      assert |rows| - 1 + 1 == |rows|;
    }
  }

  /** Every layout lists each of 0..11 exactly once, in order, in rows as
      long as its vertical offset; row r, column c holds r * offset + c. */
  lemma GridShape(l: ColumnLayout)
    ensures Flatten(Grid(l)) == MonthIndices()
    ensures |Grid(l)| * VerticalOffset(l) == 12
    ensures forall r :: 0 <= r < |Grid(l)| ==> |Grid(l)[r]| == VerticalOffset(l)
    ensures forall r, c :: 0 <= r < |Grid(l)| && 0 <= c < |Grid(l)[r]| ==> Grid(l)[r][c] == r * VerticalOffset(l) + c
  {
    FlattenConsecutive(Grid(l), 0, VerticalOffset(l));
    assert seq(12, i => 0 + i) == MonthIndices();
  }

  predicate InFirstRow(l: ColumnLayout, m: int)
  {
    m in Grid(l)[0]
  }

  predicate InLastRow(l: ColumnLayout, m: int)
  {
    m in Grid(l)[|Grid(l)| - 1]
  }

  /** The first-row and last-row tests are bounds on the index. */
  lemma RowTests(l: ColumnLayout, m: int)
    ensures InFirstRow(l, m) <==> 0 <= m < VerticalOffset(l)
    ensures InLastRow(l, m) <==> 12 - VerticalOffset(l) <= m < 12
  {
  }

  /** ArrowRight: 11 wraps to 0. */
  function RightMonth(m: int): (r: int)
    ensures 0 <= m < 12 ==> 0 <= r < 12 && r == (m + 1) % 12
  {
    if m == 11 then 0 else m + 1
  }

  /** ArrowLeft: 0 wraps to 11. */
  function LeftMonth(m: int): (r: int)
    ensures 0 <= m < 12 ==> 0 <= r < 12 && r == (m - 1) % 12
  {
    if m == 0 then 11 else m - 1
  }

  /** Stepping by a row offset `n` that divides 12, with wrap-around, is a
      step modulo 12 that keeps the column. */
  lemma RowStepArithmetic(n: int, m: int)
    requires n == 2 || n == 3 || n == 4
    ensures var up := if m < n then m + 12 - n else m - n;
      0 <= m < 12 ==> 0 <= up < 12 && up == (m - n) % 12 && up % n == m % n
    ensures var down := if 12 - n <= m then m - 12 + n else m + n;
      0 <= m < 12 ==> 0 <= down < 12 && down == (m + n) % 12 && down % n == m % n
  {
    if n == 2 {
    } else if n == 3 {
    } else {
    }
  }

  /** ArrowUp: the first row wraps to the last. */
  function UpMonth(l: ColumnLayout, m: int): (r: int)
    ensures 0 <= m < 12 ==> 0 <= r < 12 && r == (m - VerticalOffset(l)) % 12
    ensures 0 <= m < 12 ==> r % VerticalOffset(l) == m % VerticalOffset(l)
  {
    RowTests(l, m);
    RowStepArithmetic(VerticalOffset(l), m);
    if InFirstRow(l, m) then m + 12 - VerticalOffset(l) else m - VerticalOffset(l)
  }

  /** ArrowDown: the last row wraps to the first. */
  function DownMonth(l: ColumnLayout, m: int): (r: int)
    ensures 0 <= m < 12 ==> 0 <= r < 12 && r == (m + VerticalOffset(l)) % 12
    ensures 0 <= m < 12 ==> r % VerticalOffset(l) == m % VerticalOffset(l)
  {
    RowTests(l, m);
    RowStepArithmetic(VerticalOffset(l), m);
    if InLastRow(l, m) then m - 12 + VerticalOffset(l) else m + VerticalOffset(l)
  }

  lemma HorizontalRoundTrip(m: int)
    requires 0 <= m < 12
    ensures LeftMonth(RightMonth(m)) == m
    ensures RightMonth(LeftMonth(m)) == m
  {
  }

  lemma VerticalRoundTrip(l: ColumnLayout, m: int)
    requires 0 <= m < 12
    ensures UpMonth(l, DownMonth(l, m)) == m
    ensures DownMonth(l, UpMonth(l, m)) == m
  {
    RowTests(l, m);
    RowTests(l, DownMonth(l, m));
    RowTests(l, UpMonth(l, m));
  }

  /** Quarter ArrowRight: 4 wraps to 1. */
  function RightQuarter(q: int): (r: int)
    ensures 1 <= q <= 4 ==> 1 <= r <= 4 && r == q % 4 + 1
  {
    if q == 4 then 1 else q + 1
  }

  /** Quarter ArrowLeft: 1 wraps to 4. */
  function LeftQuarter(q: int): (r: int)
    ensures 1 <= q <= 4 ==> 1 <= r <= 4 && r == (q + 2) % 4 + 1
  {
    if q == 1 then 4 else q - 1
  }

  lemma QuarterRoundTrip(q: int)
    requires 1 <= q <= 4
    ensures LeftQuarter(RightQuarter(q)) == q
    ensures RightQuarter(LeftQuarter(q)) == q
  {
  }
}
