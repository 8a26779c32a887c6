/** `generateCSV` (src/lib/export/csvGenerator.ts): every report row is turned into
    a record of strings before `json2csv` writes it. */
module CsvExport {
  import opened Common

  /** The values report rows hold. */
  datatype Cell = Str(s: string) | Int(i: int) | Date(t: Instant) | Null | Undefined

  /** A report row: its keys in `Object.keys` order, with their values. */
  type Row = seq<(string, Cell)>

  /** A sanitised row: every value is a string. */
  type TextRow = seq<(string, string)>

  /** `/^\d{4}-\d{2}-\d{2}$/.test(s) ? `\t${s}` : s`: a leading tab keeps a
      spreadsheet from reading a day as a number. */
  function Shielded(s: string): (r: string)
    ensures DateShaped(s) ==> r == "\t" + s
    ensures !DateShaped(s) ==> r == s
  {
    if DateShaped(s) then "\t" + s else s
  }

  /** The string each kind of value ends up as. */
  function CellText(v: Cell): (r: string)
    ensures v.Null? || v.Undefined? ==> r == ""
    ensures v.Int? ==> r == IntText(v.i)
    ensures v.Str? ==> !DateShaped(r) && (r == v.s || r == "\t" + v.s)
    ensures v.Str? && !DateShaped(v.s) ==> r == v.s
  {
    match v
    case Str(s) => Shielded(s)
    case Date(t) => Shielded(DayText(t))
    case Int(i) => IntText(i)
    case Null => ""
    case Undefined => ""
  }

  function SanitizedRow(row: Row): (r: TextRow) {
    seq(|row|, i requires 0 <= i < |row| => (row[i].0, CellText(row[i].1)))
  }

  /** `data.map(row => ...)`. */
  function Sanitized(rows: seq<Row>): (r: seq<TextRow>)
    ensures |r| == |rows|
  {
    seq(|rows|, i requires 0 <= i < |rows| => SanitizedRow(rows[i]))
  }

  /** `String(value)` for the values that are neither null nor undefined. */
  function Display(v: Cell): string
    requires v.Str? || v.Int?
  {
    if v.Str? then v.s else IntText(v.i)
  }

  /** The `for (const key of Object.keys(row))` loop: `value` is rewritten by the
      date fix and the tab fix, then stored under its key. */
  method SanitizeRow(row: Row) returns (newRow: TextRow)
    ensures |newRow| == |row|
    ensures forall i :: 0 <= i < |row| ==> newRow[i] == (row[i].0, CellText(row[i].1))
  {
    newRow := [];
    var k := 0;
    while k < |row|
      invariant 0 <= k <= |row|
      invariant |newRow| == k
      invariant forall i :: 0 <= i < k ==> newRow[i] == (row[i].0, CellText(row[i].1))
    {
      var key := row[k].0;
      var value := row[k].1;
      if value.Date? {
        value := Str(DayText(value.t));
      }
      if value.Str? && DateShaped(value.s) {
        value := Str("\t" + value.s);
      }
      var text := if value.Null? || value.Undefined? then "" else Display(value);
      newRow := newRow + [(key, text)];
      k := k + 1;
    }
  }

  /** A sanitised value never looks like a bare day, so sanitising it again changes
      nothing: the tab is added once. */
  lemma CellTextIdempotent(v: Cell)
    ensures !DateShaped(CellText(v))
    ensures CellText(Str(CellText(v))) == CellText(v)
  {
    match v
    case Int(i) => {
      var t := IntText(i);
      if |t| == 10 {
        if i < 0 {
          assert t[1..] == NatText(-i);
          assert IsDigit(t[5]);
        } else {
          assert IsDigit(t[4]);
        }
      }
    }
    case Str(s) =>
    case Date(t) =>
    case Null =>
    case Undefined =>
  }

  /** Sanitising keeps every row and every key in place; `null` and `undefined`
      become "", a day-shaped string gains a tab, a date becomes its day. */
  lemma SanitizedLaws(rows: seq<Row>, i: nat, j: nat)
    requires i < |rows| && j < |rows[i]|
    ensures |Sanitized(rows)[i]| == |rows[i]|
    ensures Sanitized(rows)[i][j].0 == rows[i][j].0
    ensures (rows[i][j].1.Null? || rows[i][j].1.Undefined?) ==> Sanitized(rows)[i][j].1 == ""
    ensures rows[i][j].1.Str? && DateShaped(rows[i][j].1.s) ==> Sanitized(rows)[i][j].1 == "\t" + rows[i][j].1.s
    ensures rows[i][j].1.Str? && !DateShaped(rows[i][j].1.s) ==> Sanitized(rows)[i][j].1 == rows[i][j].1.s
    ensures rows[i][j].1.Date? ==> Sanitized(rows)[i][j].1 == CellText(Str(DayText(rows[i][j].1.t)))
  {
  }
}
