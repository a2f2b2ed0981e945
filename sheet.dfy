/**
 * The uploaded workbook as the handlers see it once the spreadsheet library has decoded it:
 * named worksheets of rows of optional text cells, the upload checks of `/skuimg`, and the
 * cell readers the stages share (`row[i] ?? ""`, truthiness, image lists, `Number(...)`).
 */
module Sheet {
  import opened Wrappers
  import opened Strings

  /** A cell; `None` is a cell the decoder left `undefined`. */
  type Cell = Option<string>
  type Row = seq<Cell>
  type Grid = seq<Row>

  /** A worksheet as read with `header: 1, range: 4`: its rows from the fifth on. */
  datatype Worksheet = Worksheet(name: string, rows: Grid)

  /** An uploaded file: its name, its size in bytes and its decoded worksheets, in workbook order. */
  datatype Upload = Upload(name: string, size: nat, sheets: seq<Worksheet>)

  datatype Error =
    | NoFileUploaded   // the request carries no file
    | InvalidFileType  // the name does not end in ".xlsx"
    | FileTooLarge     // more than 25 MiB
    | WrongFileName    // the name does not start with "skuimg"
    | Unreadable       // the workbook has no worksheet to read
    | NoData           // a later stage was called before `/skuimg` produced any record

  const MaxUploadSize: nat := 25 * 1024 * 1024

  /** The checks `/skuimg` makes on its upload, in the order it makes them. */
  function ValidateUpload(upload: Option<Upload>): (r: Option<Error>)
    ensures r.None? <==> (upload.Some? && EndsWith(upload.value.name, ".xlsx")
      && upload.value.size <= MaxUploadSize && StartsWith(upload.value.name, "skuimg"))
    ensures r == Some(NoFileUploaded) <==> upload.None?
    ensures r == Some(InvalidFileType) <==> upload.Some? && !EndsWith(upload.value.name, ".xlsx")
    ensures r == Some(FileTooLarge) <==> (upload.Some? && EndsWith(upload.value.name, ".xlsx")
      && upload.value.size > MaxUploadSize)
    ensures r == Some(WrongFileName) <==> (upload.Some? && EndsWith(upload.value.name, ".xlsx")
      && upload.value.size <= MaxUploadSize && !StartsWith(upload.value.name, "skuimg"))
  {
    match upload
    case None => Some(NoFileUploaded)
    case Some(u) =>
      if !EndsWith(u.name, ".xlsx") then Some(InvalidFileType)
      else if u.size > MaxUploadSize then Some(FileTooLarge)
      else if !StartsWith(u.name, "skuimg") then Some(WrongFileName)
      else None
  }

  /** `wb.Sheets[wb.SheetNames[0]]` read as rows; a workbook without sheets cannot be read. */
  function FirstSheet(u: Upload): Option<Grid> {
    if |u.sheets| > 0 then Some(u.sheets[0].rows) else None
  }

  /** `row[i]`: past the end of the row the cell is `undefined`. */
  function At(row: Row, i: nat): Cell {
    if i < |row| then row[i] else None
  }

  /** JavaScript truthiness of a cell: present and not the empty string. */
  predicate Truthy(c: Cell) {
    c.Some? && c.value != ""
  }

  /** `cell ?? ""` */
  function Text(c: Cell): string {
    c.GetOr("")
  }

  /** `cells.filter(Boolean)`: the non-empty texts, in order. */
  function Compact(cells: seq<Cell>): (r: seq<string>)
    ensures forall i :: 0 <= i < |r| ==> r[i] != ""
  {
    if cells == [] then []
    else
      var r := Compact(cells[..|cells| - 1]);
      if Truthy(cells[|cells| - 1]) then r + [cells[|cells| - 1].value] else r
  }

  /** The texts kept are exactly the non-empty texts of the cells. */
  lemma {:induction false} CompactMember(cells: seq<Cell>, x: string)
    ensures x in Compact(cells) <==> x != "" && exists i :: 0 <= i < |cells| && cells[i] == Some(x)
  {
    if cells != [] {
      var p := cells[..|cells| - 1];
      CompactMember(p, x);
      assert forall i :: 0 <= i < |p| ==> p[i] == cells[i];
      if x != "" && exists i :: 0 <= i < |cells| && cells[i] == Some(x) {
        var i :| 0 <= i < |cells| && cells[i] == Some(x);
        if i < |p| {
          assert p[i] == Some(x);
        }
      }
    }
  }

  /** `row.slice(lo, hi).filter(Boolean).join(",")`: the image links in columns lo..hi-1. */
  function ImageList(row: Row, lo: nat, hi: nat): string
    requires lo <= hi
  {
    Join(Compact(seq(hi - lo, k requires 0 <= k < hi - lo => At(row, lo + k))), ",")
  }

  /** An image list is empty exactly when none of its cells holds text. */
  lemma ImageListEmpty(row: Row, lo: nat, hi: nat)
    requires lo <= hi
    ensures ImageList(row, lo, hi) == "" <==> Compact(seq(hi - lo, k requires 0 <= k < hi - lo => At(row, lo + k))) == []
  {
    JoinEmptyIff(Compact(seq(hi - lo, k requires 0 <= k < hi - lo => At(row, lo + k))), ",");
  }

  /** A JavaScript number as the stages see it: an integer or `NaN`. */
  datatype Num = NaN | Int(n: int)

  predicate IsDigit(c: char) {
    '0' <= c <= '9'
  }

  predicate AllDigits(s: string) {
    forall k :: 0 <= k < |s| ==> IsDigit(s[k])
  }

  function DigitsValue(s: string): nat
    requires AllDigits(s)
  {
    if s == [] then 0 else 10 * DigitsValue(s[..|s| - 1]) + (s[|s| - 1] as int - '0' as int)
  }

  /** `Number(cell)`: `undefined` is NaN, the empty string 0, a decimal integer its value. */
  function NumberOf(c: Cell): (r: Num)
    ensures c.None? ==> r == NaN
    ensures c == Some("") ==> r == Int(0)
    ensures c.Some? && c.value != "" && AllDigits(c.value) ==> r.Int? && r.n >= 0
    ensures r.Int? && r.n < 0 ==> c.Some? && |c.value| > 1 && c.value[0] == '-' && AllDigits(c.value[1..])
    ensures r.Int? ==> c.Some? && (c.value == "" || AllDigits(c.value) || (c.value[0] == '-' && AllDigits(c.value[1..])))
  {
    match c
    case None => NaN
    case Some(s) =>
      if s == "" then Int(0)
      else if AllDigits(s) then Int(DigitsValue(s))
      else if |s| > 1 && s[0] == '-' && AllDigits(s[1..]) then Int(-(DigitsValue(s[1..]) as int))
      else NaN
  }

  /** Decimal text of a natural number, as a numeric cell is rendered. */
  function DecimalText(n: nat): (s: string)
    ensures |s| > 0 && AllDigits(s)
  {
    if n < 10 then [('0' as int + n) as char]
    else DecimalText(n / 10) + [('0' as int + n % 10) as char]
  }

  /** A cell holding the decimal text of a number reads back as that number. */
  lemma {:induction false} DecimalRoundTrip(n: nat)
    ensures DigitsValue(DecimalText(n)) == n
    ensures NumberOf(Some(DecimalText(n))) == Int(n)
  {
    var s := DecimalText(n);
    if n >= 10 {
      DecimalRoundTrip(n / 10);
      assert s[..|s| - 1] == DecimalText(n / 10);
    }
  }

  function Pow10(k: nat): nat {
    if k == 0 then 1 else 10 * Pow10(k - 1)
  }

  /** A number with k + 1 digits is rendered with k + 1 characters. */
  lemma {:induction false} DecimalLength(n: nat, k: nat)
    requires Pow10(k) <= n < Pow10(k + 1)
    ensures |DecimalText(n)| == k + 1
  {
    if k > 0 {
      DecimalLength(n / 10, k - 1);
    }
  }

  /** The five warehouse cells of a price/stock row, columns 12 to 16. */
  function StockCells(row: Row): seq<Cell> {
    [At(row, 12), At(row, 13), At(row, 14), At(row, 15), At(row, 16)]
  }

  /** `isNaN(num) ? 0 : num` */
  function NumberOrZero(c: Cell): int {
    match NumberOf(c)
    case Int(n) => n
    case NaN => 0
  }

  /** `cells.map(v => isNaN(Number(v)) ? 0 : Number(v)).reduce((s, v) => s + v, 0)` */
  function GuardedSum(cells: seq<Cell>): int {
    if cells == [] then 0 else GuardedSum(cells[..|cells| - 1]) + NumberOrZero(cells[|cells| - 1])
  }

  /** `cells.map(v => Number(v)).reduce((s, v) => s + v, 0)`: one NaN makes the sum NaN. */
  function RawSum(cells: seq<Cell>): Num {
    if cells == [] then Int(0)
    else
      match (RawSum(cells[..|cells| - 1]), NumberOf(cells[|cells| - 1]))
      case (Int(a), Int(b)) => Int(a + b)
      case _ => NaN
  }

  /** The unguarded sum is NaN exactly when a cell is not a number, and otherwise agrees with the guarded one. */
  lemma {:induction false} RawSumAgrees(cells: seq<Cell>)
    ensures RawSum(cells) == if exists i :: 0 <= i < |cells| && NumberOf(cells[i]) == NaN then NaN else Int(GuardedSum(cells))
  {
    if cells != [] {
      var p := cells[..|cells| - 1];
      RawSumAgrees(p);
      assert forall i :: 0 <= i < |p| ==> p[i] == cells[i];
      if exists i :: 0 <= i < |p| && NumberOf(p[i]) == NaN {
        var i :| 0 <= i < |p| && NumberOf(p[i]) == NaN;
        assert NumberOf(cells[i]) == NaN;
      }
    }
  }
}
