/** The data effects of the workbook formatter, applied to each saved sheet: the
    safety row for a sheet without cells, the column widths, and the range and name
    of the table object registered over the sheet. Fonts, borders, the table style
    and the frozen header carry no data and are not modelled. */
module Formatter {
  import opened Wrappers
  import opened Strings

  /** A cell as read back from the file: empty, or the text of its value. */
  type Cell = Option<string>

  /** A sheet as rows of cells, row 1 first; rows may be ragged. */
  type Grid = seq<seq<Cell>>

  const WidthPadding := 3
  const NoDataText := "No data detected"

  /** The length of the longest row. */
  function Widest(g: Grid): (w: nat)
    ensures forall r :: 0 <= r < |g| ==> |g[r]| <= w
    ensures |g| > 0 ==> exists r :: 0 <= r < |g| && |g[r]| == w
    ensures |g| == 0 ==> w == 0
    decreases |g|
  {
    if |g| == 0 then 0
    else
      var rest := Widest(g[..|g| - 1]);
      assert forall r :: 0 <= r < |g| - 1 ==> g[..|g| - 1][r] == g[r];
      if |g[|g| - 1]| > rest then |g[|g| - 1]| else rest
  }

  /** `ws.max_row`: the last row holding cells, and 1 for a sheet without any. */
  function MaxRow(g: Grid): nat
  {
    if |g| == 0 then 1 else |g|
  }

  /** `ws.max_column`: the last column holding cells, and 1 for a sheet without any. */
  function MaxColumn(g: Grid): nat
  {
    if Widest(g) == 0 then 1 else Widest(g)
  }

  /** `len(str(cell.value)) if cell.value else 0` at 0-based row r, column c. */
  function CellLength(g: Grid, r: nat, c: nat): nat
  {
    if r < |g| && c < |g[r]| then
      match g[r][c]
      case None => 0
      case Some(s) => |s|
    else 0
  }

  /** The longest cell of column c among the first n rows. */
  function ColumnMax(g: Grid, c: nat, n: nat): (m: nat)
    ensures forall r :: 0 <= r < n ==> CellLength(g, r, c) <= m
    ensures n > 0 ==> exists r :: 0 <= r < n && CellLength(g, r, c) == m
    ensures n == 0 ==> m == 0
    decreases n
  {
    if n == 0 then 0
    else
      var rest := ColumnMax(g, c, n - 1);
      if CellLength(g, n - 1, c) > rest then CellLength(g, n - 1, c) else rest
  }

  /** The width given to each column, first column first: its longest cell plus the
      padding, taken over every row up to `max_row`. */
  function Widths(g: Grid): (w: seq<nat>)
    ensures |w| == MaxColumn(g)
    ensures forall c :: 0 <= c < |w| ==>
      (forall r :: 0 <= r < MaxRow(g) ==> CellLength(g, r, c) + WidthPadding <= w[c])
      && (exists r :: 0 <= r < MaxRow(g) && CellLength(g, r, c) + WidthPadding == w[c])
  {
    seq(MaxColumn(g), c requires 0 <= c => ColumnMax(g, c, MaxRow(g)) + WidthPadding)
  }

  function Letter(d: nat): char
    requires d < 26
  {
    ('A' as int + d) as char
  }

  /** openpyxl's column letters: bijective base 26, A..Z, AA..AZ, ... */
  function ColumnLetter(n: nat): (s: string)
    requires n >= 1
    ensures |s| >= 1
    ensures forall i :: 0 <= i < |s| ==> 'A' <= s[i] <= 'Z'
    decreases n
  {
    if n <= 26 then [Letter(n - 1)]
    else ColumnLetter((n - 1) / 26) + [Letter((n - 1) % 26)]
  }

  /** Reads column letters back as a column number. */
  function ColumnIndex(s: string): nat
    decreases |s|
  {
    if |s| == 0 then 0
    else
      var c := s[|s| - 1];
      ColumnIndex(s[..|s| - 1]) * 26 + (if 'A' <= c <= 'Z' then c as int - 'A' as int + 1 else 0)
  }

  lemma {:induction false} ColumnLetterRoundTrip(n: nat)
    requires n >= 1
    ensures ColumnIndex(ColumnLetter(n)) == n
    decreases n
  {
    if n > 26 {
      var s := ColumnLetter(n);
      ColumnLetterRoundTrip((n - 1) / 26);
      assert s[..|s| - 1] == ColumnLetter((n - 1) / 26);
    }
  }

  /** A cell coordinate such as `B7`. */
  function Coordinate(row: nat, col: nat): string
    requires col >= 1
  {
    ColumnLetter(col) + NatToString(row)
  }

  /** The number of leading capital letters. */
  function LetterRun(s: string): (n: nat)
    ensures n <= |s|
    ensures forall i :: 0 <= i < n ==> 'A' <= s[i] <= 'Z'
    ensures n < |s| ==> !('A' <= s[n] <= 'Z')
    decreases |s|
  {
    if |s| > 0 && 'A' <= s[0] <= 'Z' then 1 + LetterRun(s[1..]) else 0
  }

  /** Splits a coordinate into its column and row numbers. */
  function ParseCoordinate(s: string): (int, int)
  {
    var n := LetterRun(s);
    (DecimalValue(s[n..]), ColumnIndex(s[..n]))
  }

  lemma {:induction false} LetterRunOfCoordinate(row: nat, col: nat)
    requires col >= 1
    ensures LetterRun(Coordinate(row, col)) == |ColumnLetter(col)|
  {
    var s := Coordinate(row, col);
    var n := LetterRun(s);
    var k := |ColumnLetter(col)|;
    assert s[k] == NatToString(row)[0];
  }

  /** A coordinate names the cell it was built from. */
  lemma CoordinateRoundTrip(row: nat, col: nat)
    requires col >= 1
    ensures ParseCoordinate(Coordinate(row, col)) == (row, col)
  {
    var s := Coordinate(row, col);
    LetterRunOfCoordinate(row, col);
    var k := |ColumnLetter(col)|;
    assert s[..k] == ColumnLetter(col);
    assert s[k..] == NatToString(row);
    ColumnLetterRoundTrip(col);
    DecimalRoundTrip(row);
  }

  /** The data effects of formatting one sheet. */
  datatype Formatted = Formatted(grid: Grid, widths: seq<nat>, tableRef: string, tableName: string)

  /** The registered table spans A1 to the cell at (max_row, max_column) and is
      named after the sheet. */
  function Layout(title: string, g: Grid): Formatted
  {
    Formatted(g, Widths(g), "A1:" + Coordinate(MaxRow(g), MaxColumn(g)), "Table_" + title)
  }

  /** The safety test as written: `max_row < 1 or max_column < 1`. */
  predicate SafetyGuardAsWritten(g: Grid)
  {
    MaxRow(g) < 1 || MaxColumn(g) < 1
  }

  /** The formatter as written: the safety row is appended only when the guard holds. */
  function FormatAsWritten(title: string, g: Grid): Formatted
  {
    Layout(title, if SafetyGuardAsWritten(g) then g + [[Some(NoDataText)]] else g)
  }

  /** `max_row` and `max_column` never drop below 1, so the guard never holds. */
  lemma AsWrittenGuardNeverFires(g: Grid)
    ensures !SafetyGuardAsWritten(g)
  {
  }

  /** A sheet without cells keeps no cells under the formatter as written, and its
      table is registered over the single empty cell A1. */
  lemma AsWrittenEmptySheetStaysEmpty(title: string)
    ensures FormatAsWritten(title, []).grid == []
    ensures FormatAsWritten(title, []).tableRef == "A1:A1"
  {
    assert Coordinate(1, 1) == "A1";
  }

  /** No row holds a cell. */
  predicate HasNoCells(g: Grid)
  {
    Widest(g) == 0
  }

  /** The formatter with the safety row it evidently intends: a sheet without cells
      first gets the single cell "No data detected"; every other sheet keeps its
      cells exactly. */
  function Format(title: string, g: Grid): (r: Formatted)
    ensures HasNoCells(g) ==> r.grid == [[Some(NoDataText)]]
    ensures !HasNoCells(g) ==> r.grid == g
    ensures !HasNoCells(r.grid)
    ensures |r.widths| == MaxColumn(r.grid)
    ensures r.tableRef == "A1:" + Coordinate(MaxRow(r.grid), MaxColumn(r.grid))
  {
    var filled := if HasNoCells(g) then [[Some(NoDataText)]] else g;
    assert |filled[0]| == 1 ==> Widest(filled) >= 1;
    Layout(title, filled)
  }

  /** Formatting a formatted sheet again changes nothing. */
  lemma FormatIdempotent(title: string, g: Grid)
    ensures Format(title, Format(title, g).grid) == Format(title, g)
  {
  }

  /** The registered range runs from A1 to exactly the last row and last column. */
  lemma TableRefSpansSheet(title: string, g: Grid)
    ensures var r := Format(title, g);
      && r.tableRef[..3] == "A1:"
      && ParseCoordinate(r.tableRef[3..]) == (MaxRow(r.grid), MaxColumn(r.grid))
  {
    var r := Format(title, g);
    var c := Coordinate(MaxRow(r.grid), MaxColumn(r.grid));
    assert r.tableRef[3..] == c;
    CoordinateRoundTrip(MaxRow(r.grid), MaxColumn(r.grid));
  }
}
