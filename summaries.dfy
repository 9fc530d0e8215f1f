/** Sequencing-summary tables as the scripts see them after pandas has read a
    tab-separated file: a list of column names and a list of rows, each row a map
    from column name to cell. Reading and writing the files is not modelled. */
module Summaries {

  /** One cell: text, an integer, or a missing value (pandas NaN). */
  datatype Cell = Str(text: string) | Int(number: int) | Missing

  type Row = map<string, Cell>

  datatype Table = Table(columns: seq<string>, rows: seq<Row>)

  /** A summary file: the path under which glob lists it, and its parsed table. */
  datatype SummaryFile = SummaryFile(path: string, table: Table)

  /** `row[column]`; a column the row does not have reads as missing, as it does in a
      frame concatenated from tables with different columns. */
  function Get(row: Row, column: string): Cell
  {
    if column in row then row[column] else Missing
  }

  /** The cells of a column, in row order, of the given rows. */
  function Values(rows: seq<Row>, column: string): (cells: seq<Cell>)
    ensures |cells| == |rows|
  {
    seq(|rows|, i requires 0 <= i < |rows| => Get(rows[i], column))
  }

  /** `df[column].tolist()`: the column's cells in row order. */
  function Column(t: Table, column: string): (cells: seq<Cell>)
    ensures |cells| == |t.rows|
  {
    Values(t.rows, column)
  }

  predicate IsDigit(c: char)
  {
    '0' <= c <= '9'
  }

  /** The decimal digits of n, most significant first, without leading zeros. */
  function NatText(n: nat): (r: string)
    ensures r != [] && forall k :: 0 <= k < |r| ==> IsDigit(r[k])
    ensures |r| > 1 ==> r[0] != '0'
  {
    var d := ('0' as int + n % 10) as char;
    if n < 10 then [d] else NatText(n / 10) + [d]
  }

  /** The number NatText spells. */
  function DigitsValue(s: string): int
  {
    if s == [] then 0 else DigitsValue(s[..|s| - 1]) * 10 + (s[|s| - 1] as int - '0' as int)
  }

  /** NatText spells n. */
  lemma {:induction false} NatTextValue(n: nat)
    ensures DigitsValue(NatText(n)) == n
  {
    var r := NatText(n);
    if n >= 10 {
      NatTextValue(n / 10);
      assert r[..|r| - 1] == NatText(n / 10);
    }
  }

  /** Python's str(cell): the text itself, the decimal numeral of an integer, and "nan"
      for a missing value. Only a text cell can contain a line break. */
  function CellText(c: Cell): (r: string)
    ensures !c.Str? ==> r != [] && '\n' !in r
  {
    match c
    case Str(s) => s
    case Int(i) => if i < 0 then "-" + NatText(-i) else NatText(i)
    case Missing => "nan"
  }

  /** `list(map(str, cells))`. */
  function CellTexts(cells: seq<Cell>): (r: seq<string>)
    ensures |r| == |cells|
  {
    seq(|cells|, i requires 0 <= i < |cells| => CellText(cells[i]))
  }
}
