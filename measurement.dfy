/**
 * Measurement-bulletin import of components/MeasurementModule.tsx: the loop that
 * turns the rows of an already-read spreadsheet into bulletin items, and the
 * guarded save that totals them. Reading the file and the workbook is outside
 * the model; the rows arrive as cells, and parseFloat is a parameter.
 */
module Measurement {
  import opened Types
  import opened Seqs

  /** A spreadsheet cell as the workbook reader yields it, row by row. */
  datatype Cell = Num(n: int) | Text(s: string) | Blank

  /** A row: absent from the array, or its cells (holes read as Blank). */
  datatype Row = Missing | Cells(cells: seq<Cell>)

  // ---------------------------------------------------------------------------
  // Cell conversions
  // ---------------------------------------------------------------------------

  /** The number a string of decimal digits denotes, most significant digit first. */
  function DecimalValue(r: string): int
    decreases |r|
  {
    if r == [] then 0 else 10 * DecimalValue(r[..|r| - 1]) + (r[|r| - 1] as int - '0' as int)
  }

  /** The decimal numeral of a natural number: no leading zero, and it denotes n. */
  function Digits(n: nat): (r: string)
    ensures |r| > 0
    ensures forall k :: 0 <= k < |r| ==> '0' <= r[k] <= '9'
    ensures DecimalValue(r) == n
    ensures r[0] == '0' <==> n == 0
    ensures n == 0 ==> r == "0"
  {
    var d := ['0' + (n % 10) as char];
    if n < 10 then d
    else
      var hi := Digits(n / 10);
      assert (hi + d)[..|hi + d| - 1] == hi;
      hi + d
  }

  /** How the source prints an integer: a minus sign for negatives, then the decimal
      digits of its magnitude, without a leading zero. */
  function Numeral(n: int): (r: string)
    ensures r != []
    ensures n < 0 ==> |r| >= 2 && r[0] == '-' && DecimalValue(r[1..]) == -n && r[1] != '0'
    ensures n < 0 ==> forall k :: 1 <= k < |r| ==> '0' <= r[k] <= '9'
    ensures n >= 0 ==> DecimalValue(r) == n && (r[0] == '0' <==> n == 0)
    ensures n >= 0 ==> forall k :: 0 <= k < |r| ==> '0' <= r[k] <= '9'
    ensures n == 0 ==> r == "0"
  {
    if n < 0 then
      var d := Digits(-n);
      assert ("-" + d)[1..] == d;
      "-" + d
    else Digits(n)
  }

  /** The text of a cell when a missing cell and the number 0 both fall back to the
      empty string: blanks, zero and empty text read as "", text as itself and any
      other number as its decimal numeral. */
  function CellString(c: Cell): (r: string)
    ensures r == "" <==> c == Blank || c == Num(0) || c == Text("")
    ensures c.Text? ==> r == c.s
    ensures c.Num? && c.n != 0 ==> r == Numeral(c.n)
  {
    match c
    case Blank => ""
    case Text(s) => s
    case Num(n) => if n == 0 then "" else Numeral(n)
  }

  /** The position of the first comma in s, or |s| when s has none. */
  function FirstComma(s: string): (k: nat)
    ensures k <= |s|
    ensures k < |s| ==> s[k] == ','
    ensures forall j :: 0 <= j < k ==> s[j] != ','
    decreases |s|
  {
    if s == [] || s[0] == ',' then 0 else 1 + FirstComma(s[1..])
  }

  /** The decimal-comma fix-up: only the first comma becomes a point, and text
      without a comma is returned as it is. */
  function ReplaceFirstComma(s: string): (r: string)
    ensures |r| == |s|
    ensures ',' !in s ==> r == s
    ensures FirstComma(s) < |s| ==> r == s[..FirstComma(s)] + "." + s[FirstComma(s) + 1..]
    decreases |s|
  {
    if s == [] then []
    else if s[0] == ',' then ['.'] + s[1..]
    else
      var rest := ReplaceFirstComma(s[1..]);
      CommaAfterHead(s, FirstComma(s[1..]));
      assert [s[0]] + s[1..] == s;
      [s[0]] + rest
  }

  /** Fixing the comma at position k of the tail is fixing the one at k + 1 of s. */
  lemma CommaAfterHead(s: string, k: nat)
    requires s != []
    ensures k < |s| - 1 ==> [s[0]] + (s[1..][..k] + "." + s[1..][k + 1..]) == s[..k + 1] + "." + s[k + 2..]
  {
    if k < |s| - 1 {
      assert s[1..][..k] == s[1..k + 1];
      assert s[1..][k + 1..] == s[k + 2..];
      assert [s[0]] + s[1..k + 1] == s[..k + 1];
    }
  }

  /** A cell as a number: numbers verbatim; text through the comma fix-up and the
      parser, with empty text read as "0"; a missing cell parses as "undefined". */
  function CellNumber(c: Cell, parse: string -> int): (r: int)
    ensures c.Num? ==> r == c.n
    ensures c == Blank ==> r == parse("undefined")
    ensures c == Text("") ==> r == parse("0")
    ensures c.Text? && c.s != "" && ',' !in c.s ==> r == parse(c.s)
    ensures c.Text? && FirstComma(c.s) < |c.s| ==>
      r == parse(c.s[..FirstComma(c.s)] + "." + c.s[FirstComma(c.s) + 1..])
  {
    match c
    case Num(n) => n
    case Text(s) => var t := ReplaceFirstComma(s); parse(if t == "" then "0" else t)
    case Blank => parse("undefined")
  }

  /** The white-space characters that trimming removes: the ASCII blanks, the
      no-break and other Unicode space separators, line and paragraph separators
      and the byte-order mark. */
  predicate IsSpace(c: char)
  {
    c == ' ' || c == '\t' || c == '\n' || c == '\r' || c == '\U{000B}' || c == '\U{000C}' ||
    c == '\U{00A0}' || c == '\U{1680}' || ('\U{2000}' <= c <= '\U{200A}') ||
    c == '\U{2028}' || c == '\U{2029}' || c == '\U{202F}' || c == '\U{205F}' ||
    c == '\U{3000}' || c == '\U{FEFF}'
  }

  /** Drops the leading white space and nothing else. */
  function TrimStart(s: string): (r: string)
    ensures |r| <= |s|
    ensures r == [] || !IsSpace(r[0])
    ensures r == s[|s| - |r|..]
    ensures forall j :: 0 <= j < |s| - |r| ==> IsSpace(s[j])
    decreases |s|
  {
    if s != [] && IsSpace(s[0]) then
      var r := TrimStart(s[1..]);
      assert forall j :: 1 <= j < |s| - |r| ==> s[j] == s[1..][j - 1];
      r
    else s
  }

  /** r is the slice s[a..b] of s, and s holds only white space outside it. */
  ghost predicate SpaceAround(r: string, s: string)
  {
    exists a, b :: 0 <= a <= b <= |s| && r == s[a..b] &&
      (forall j :: 0 <= j < a ==> IsSpace(s[j])) && (forall j :: b <= j < |s| ==> IsSpace(s[j]))
  }

  /** Trimming the end after the start leaves a slice of s with white space outside it. */
  lemma TrimBounds(s: string, t: string, r: string)
    requires |t| <= |s| && t == s[|s| - |t|..] && forall j :: 0 <= j < |s| - |t| ==> IsSpace(s[j])
    requires |r| <= |t| && r == t[..|r|] && forall j :: |r| <= j < |t| ==> IsSpace(t[j])
    ensures SpaceAround(r, s)
  {
    var a := |s| - |t|;
    var b := a + |r|;
    assert r == s[a..b];
    forall j | b <= j < |s| ensures IsSpace(s[j]) {
      assert s[j] == t[j - a];
    }
  }

  /** Drops the trailing white space and nothing else. */
  function TrimEnd(s: string): (r: string)
    ensures |r| <= |s|
    ensures r == [] || !IsSpace(r[|r| - 1])
    ensures r == s[..|r|]
    ensures forall j :: |r| <= j < |s| ==> IsSpace(s[j])
    decreases |s|
  {
    if s != [] && IsSpace(s[|s| - 1]) then TrimEnd(s[..|s| - 1]) else s
  }

  /** Trimming: the result is the part of s between its leading and its trailing
      white space, and neither starts nor ends with white space. */
  function Trim(s: string): (r: string)
    ensures |r| <= |s|
    ensures r == [] || (!IsSpace(r[0]) && !IsSpace(r[|r| - 1]))
    ensures SpaceAround(r, s)
  {
    var t := TrimStart(s);
    var r := TrimEnd(t);
    TrimBounds(s, t, r);
    r
  }

  predicate StartsWith(s: string, prefix: string)
  {
    |prefix| <= |s| && s[..|prefix|] == prefix
  }

  // ---------------------------------------------------------------------------
  // Row selection
  // ---------------------------------------------------------------------------

  /** The trimmed code in column 0 (column A). */
  function RowCode(cells: seq<Cell>): string
    requires |cells| > 0
  {
    Trim(CellString(cells[0]))
  }

  /** What every imported item satisfies: a real code and value = quantity x price. */
  predicate WellFormed(it: MeasurementItem)
  {
    it.codeSAP != "" && !StartsWith(it.codeSAP, "Total") && it.measuredValue == it.measuredQuantity * it.unitPrice
  }

  /** One pass of the `handleFile` loop body: the item a data row yields, if any. */
  function RowItem(row: Row, parse: string -> int): (r: Option<MeasurementItem>)
    ensures row.Missing? || |row.cells| < 10 ==> r.None?
    ensures row.Cells? && |row.cells| >= 10 && (RowCode(row.cells) == "" || StartsWith(RowCode(row.cells), "Total")) ==> r.None?
    ensures r.Some? ==> WellFormed(r.value)
    ensures row.Cells? && |row.cells| >= 10 && RowCode(row.cells) != "" && !StartsWith(RowCode(row.cells), "Total") ==>
      && r.Some?
      && r.value.codeSAP == RowCode(row.cells)
      && r.value.unitPrice == CellNumber(row.cells[6], parse)
      && r.value.measuredQuantity == CellNumber(row.cells[9], parse)
  {
    match row
    case Missing => None
    case Cells(cells) =>
      if |cells| < 10 then None
      else
        var codeSAP := RowCode(cells);
        if codeSAP == "" || StartsWith(codeSAP, "Total") then None
        else
          var qtyMonth := CellNumber(cells[9], parse);
          var unitPrice := CellNumber(cells[6], parse);
          Some(MeasurementItem(codeSAP, CellString(cells[3]), CellString(cells[5]), unitPrice, qtyMonth, qtyMonth * unitPrice))
  }

  /** Every row with ten columns, a non-empty code and no "Total" prefix is accepted, and
      its item is read from columns A (code), D, F, G (unit price) and J (quantity). */
  lemma RowItemAccepted(row: Row, parse: string -> int)
    ensures row.Cells? && |row.cells| >= 10 && RowCode(row.cells) != "" && !StartsWith(RowCode(row.cells), "Total") ==>
      RowItem(row, parse) == Some(MeasurementItem(
        RowCode(row.cells), CellString(row.cells[3]), CellString(row.cells[5]),
        CellNumber(row.cells[6], parse), CellNumber(row.cells[9], parse),
        CellNumber(row.cells[9], parse) * CellNumber(row.cells[6], parse)))
  {
  }

  /** The columns an accepted row is read from: A (code), D, F, G (unit price) and J (quantity). */
  lemma RowItemColumns(row: Row, parse: string -> int)
    ensures RowItem(row, parse).Some? ==> row.Cells? && |row.cells| >= 10
    ensures RowItem(row, parse).Some? ==>
      var it := RowItem(row, parse).value;
      && it.codeSAP == RowCode(row.cells)
      && it.description == CellString(row.cells[3])
      && it.unit == CellString(row.cells[5])
      && it.unitPrice == CellNumber(row.cells[6], parse)
      && it.measuredQuantity == CellNumber(row.cells[9], parse)
  {
  }

  // ---------------------------------------------------------------------------
  // A loop that pushes or skips, one element at a time
  // ---------------------------------------------------------------------------

  /** The present results of a per-element extraction, in order. */
  function Collect<R, I>(rows: seq<R>, f: R -> Option<I>): (r: seq<I>)
    ensures |r| <= |rows|
    decreases |rows|
  {
    if rows == [] then []
    else
      var last := f(rows[|rows| - 1]);
      Collect(rows[..|rows| - 1], f) + (if last.Some? then [last.value] else [])
  }

  /** Every collected value is the result of one of the elements. */
  lemma {:induction false} CollectFrom<R, I>(rows: seq<R>, f: R -> Option<I>)
    ensures forall v :: v in Collect(rows, f) ==> exists i :: 0 <= i < |rows| && f(rows[i]) == Some(v)
    decreases |rows|
  {
    if rows != [] {
      var init := rows[..|rows| - 1];
      CollectFrom(init, f);
      forall v | v in Collect(rows, f)
        ensures exists i :: 0 <= i < |rows| && f(rows[i]) == Some(v)
      {
        if v in Collect(init, f) {
          var i :| 0 <= i < |init| && f(init[i]) == Some(v);
          assert init[i] == rows[i];
        } else {
          assert f(rows[|rows| - 1]) == Some(v);
        }
      }
    }
  }

  /** Every value collected after the first element is the result of a later element. */
  lemma CollectFromTail<R, I>(rows: seq<R>, f: R -> Option<I>)
    requires rows != []
    ensures forall v :: v in Collect(rows[1..], f) ==> exists i :: 1 <= i < |rows| && f(rows[i]) == Some(v)
  {
    var tail := rows[1..];
    CollectFrom(tail, f);
    forall v | v in Collect(tail, f) ensures exists i :: 1 <= i < |rows| && f(rows[i]) == Some(v) {
      var j :| 0 <= j < |tail| && f(tail[j]) == Some(v);
      assert tail[j] == rows[j + 1];
    }
  }

  lemma {:induction false} CollectAppend<R, I>(a: seq<R>, b: seq<R>, f: R -> Option<I>)
    ensures Collect(a + b, f) == Collect(a, f) + Collect(b, f)
    decreases |b|
  {
    if b == [] {
      assert a + b == a;
    } else {
      assert (a + b)[..|a + b| - 1] == a + b[..|b| - 1];
      CollectAppend(a, b[..|b| - 1], f);
    }
  }

  /** When every element yields a value, the values are all kept, in order. */
  lemma {:induction false} CollectAll<R, I>(rows: seq<R>, f: R -> Option<I>)
    requires forall i :: 0 <= i < |rows| ==> f(rows[i]).Some?
    ensures |Collect(rows, f)| == |rows|
    ensures forall k :: 0 <= k < |rows| ==> Collect(rows, f)[k] == f(rows[k]).value
    decreases |rows|
  {
    if rows != [] {
      var init := rows[..|rows| - 1];
      CollectAll(init, f);
      var prev := Collect(init, f);
      var r := Collect(rows, f);
      assert r == prev + [f(rows[|rows| - 1]).value];
      forall k | 0 <= k < |rows| ensures r[k] == f(rows[k]).value {
        if k < |init| {
          assert r[k] == prev[k] == f(init[k]).value;
        }
      }
    }
  }

  // ---------------------------------------------------------------------------
  // The items of a sheet
  // ---------------------------------------------------------------------------

  /** The loop body of `handleFile` as a function of the row. */
  function RowExtractor(parse: string -> int): Row -> Option<MeasurementItem>
  {
    row => RowItem(row, parse)
  }

  /** The items a run of data rows yields, in row order. */
  function ItemsFrom(rows: seq<Row>, parse: string -> int): (r: seq<MeasurementItem>)
    ensures |r| <= |rows|
    ensures forall k :: 0 <= k < |r| ==> WellFormed(r[k])
  {
    var r := Collect(rows, RowExtractor(parse));
    CollectFrom(rows, RowExtractor(parse));
    assert forall k :: 0 <= k < |r| ==> r[k] in r;
    r
  }

  /** Every item is the item of one of the rows. */
  lemma ItemsFromRows(rows: seq<Row>, parse: string -> int)
    ensures forall it :: it in ItemsFrom(rows, parse) ==> exists i :: 0 <= i < |rows| && RowItem(rows[i], parse) == Some(it)
  {
    CollectFrom(rows, RowExtractor(parse));
  }

  lemma ItemsFromStep(rows: seq<Row>, i: nat, parse: string -> int)
    requires 1 <= i < |rows|
    ensures ItemsFrom(rows[1..i + 1], parse) ==
      ItemsFrom(rows[1..i], parse) + (if RowItem(rows[i], parse).Some? then [RowItem(rows[i], parse).value] else [])
  {
    assert rows[1..i + 1][..i - 1] == rows[1..i];
    assert rows[1..i + 1][i - 1] == rows[i];
  }

  /** The items of a whole sheet: row 0 is the header and is never read. */
  function BulletinItems(rows: seq<Row>, parse: string -> int): seq<MeasurementItem>
  {
    if rows == [] then [] else ItemsFrom(rows[1..], parse)
  }

  /** One pass of the body of the `handleFile` loop: skips absent and short rows and
      rows whose code is empty or a totals line, and reads the item of any other row. */
  method ReadRow(row: Row, parse: string -> int) returns (item: Option<MeasurementItem>)
    ensures item == RowItem(row, parse)
    ensures item.Some? ==> WellFormed(item.value)
  {
    if row.Missing? || |row.cells| < 10 {
      // skip absent and short rows
      return None;
    }
    var codeSAP := Trim(CellString(row.cells[0]));
    if codeSAP == "" || StartsWith(codeSAP, "Total") {
      // skip totals and empty codes
      return None;
    }
    var qtyMonth := CellNumber(row.cells[9], parse);
    var unitPrice := CellNumber(row.cells[6], parse);
    var measuredVal := qtyMonth * unitPrice;
    RowItemAccepted(row, parse);
    return Some(MeasurementItem(codeSAP, CellString(row.cells[3]), CellString(row.cells[5]), unitPrice, qtyMonth, measuredVal));
  }

  /** The row-selection loop of `handleFile`. */
  method ParseRows(rows: seq<Row>, parse: string -> int) returns (items: seq<MeasurementItem>)
    ensures items == BulletinItems(rows, parse)
    ensures rows != [] ==> |items| <= |rows| - 1
    ensures forall k :: 0 <= k < |items| ==> exists i :: 1 <= i < |rows| && RowItem(rows[i], parse) == Some(items[k])
  {
    items := [];
    var i := 1;
    while i < |rows|
      invariant rows != [] ==> 1 <= i <= |rows| && items == ItemsFrom(rows[1..i], parse)
      invariant rows == [] ==> items == []
    {
      var item := ReadRow(rows[i], parse);
      ItemsFromStep(rows, i, parse);
      if item.Some? {
        items := items + [item.value];
      }
      i := i + 1;
    }
    if rows != [] {
      assert rows[1..i] == rows[1..];
    }
    BulletinItemsFromDataRows(rows, parse);
  }

  /** Every bulletin item comes from a data row: the header row 0 never yields one. */
  lemma BulletinItemsFromDataRows(rows: seq<Row>, parse: string -> int)
    ensures var items := BulletinItems(rows, parse);
      forall k :: 0 <= k < |items| ==> exists i :: 1 <= i < |rows| && RowItem(rows[i], parse) == Some(items[k])
  {
    if rows != [] {
      var f := RowExtractor(parse);
      var items := Collect(rows[1..], f);
      CollectFromTail(rows, f);
      forall k | 0 <= k < |items| ensures exists j :: 1 <= j < |rows| && RowItem(rows[j], parse) == Some(items[k]) {
        assert items[k] in items;
      }
    }
  }

  // ---------------------------------------------------------------------------
  // Properties of the row selection
  // ---------------------------------------------------------------------------

  /** The items of consecutive runs of rows are concatenated, in row order. */
  lemma ItemsFromAppend(a: seq<Row>, b: seq<Row>, parse: string -> int)
    ensures ItemsFrom(a + b, parse) == ItemsFrom(a, parse) + ItemsFrom(b, parse)
  {
    CollectAppend(a, b, RowExtractor(parse));
  }

  /** A skipped row (absent, short, empty code, totals line) yields nothing wherever it stands. */
  lemma SkippedRowIgnored(a: seq<Row>, row: Row, b: seq<Row>, parse: string -> int)
    requires RowItem(row, parse).None?
    ensures ItemsFrom(a + [row] + b, parse) == ItemsFrom(a + b, parse)
  {
    var f := RowExtractor(parse);
    assert f(row) == RowItem(row, parse);
    CollectSkip(row, f);
    CollectAppend(a, [row], f);
    CollectAppend(a + [row], b, f);
    CollectAppend(a, b, f);
  }

  /** An element whose result is absent collects to nothing. */
  lemma CollectSkip<R, I>(x: R, f: R -> Option<I>)
    requires f(x).None?
    ensures Collect([x], f) == []
  {
    assert [x][..0] == [];
  }

  /** When every row is a data row, each yields exactly one item, in row order. */
  lemma EveryAcceptedRowKept(rows: seq<Row>, parse: string -> int)
    requires forall i :: 0 <= i < |rows| ==> RowItem(rows[i], parse).Some?
    ensures |ItemsFrom(rows, parse)| == |rows|
    ensures forall k :: 0 <= k < |rows| ==> ItemsFrom(rows, parse)[k] == RowItem(rows[k], parse).value
  {
    CollectAll(rows, RowExtractor(parse));
  }

  function MeasuredValue(it: MeasurementItem): int { it.measuredValue }

  /** The bulletin total is the sum over items of quantity times unit price. */
  function LineProduct(it: MeasurementItem): int { it.measuredQuantity * it.unitPrice }

  lemma {:induction false} BulletinTotalIsProducts(rows: seq<Row>, parse: string -> int)
    ensures Sum(BulletinItems(rows, parse), MeasuredValue) == Sum(BulletinItems(rows, parse), LineProduct)
  {
    var items := BulletinItems(rows, parse);
    if rows != [] {
      SumOfProducts(items);
    }
  }

  lemma {:induction false} SumOfProducts(items: seq<MeasurementItem>)
    requires forall k :: 0 <= k < |items| ==> items[k].measuredValue == items[k].measuredQuantity * items[k].unitPrice
    ensures Sum(items, MeasuredValue) == Sum(items, LineProduct)
    decreases |items|
  {
    if items != [] {
      SumOfProducts(items[..|items| - 1]);
    }
  }

  // ---------------------------------------------------------------------------
  // The screen's state
  // ---------------------------------------------------------------------------

  class MeasurementSession {
    var selectedProject: string
    var referenceDate: string
    var bulletinType: IndexType
    var parsedItems: seq<MeasurementItem>
    var fileName: string

    /** Every previewed item was accepted by the row filter. */
    ghost predicate Valid()
      reads this
    {
      forall k :: 0 <= k < |parsedItems| ==> WellFormed(parsedItems[k])
    }

    /** A fresh screen for a project: construction type, nothing parsed. */
    constructor (project: string, today: string)
      ensures selectedProject == project && referenceDate == today && bulletinType == Construtora
      ensures parsedItems == [] && fileName == ""
      ensures Valid()
    {
      selectedProject := project;
      referenceDate := today;
      bulletinType := Construtora;
      parsedItems := [];
      fileName := "";
    }

    /** `handleFile`, from the rows the workbook reader returned. */
    method HandleFile(name: string, rows: seq<Row>, parse: string -> int)
      modifies this`fileName, this`parsedItems
      ensures fileName == name
      ensures parsedItems == BulletinItems(rows, parse)
      ensures Valid()
    {
      fileName := name;
      parsedItems := ParseRows(rows, parse);
    }

    /** `totalParsedValue`: the preview total, which is the sum of quantity times unit price. */
    function TotalParsedValue(): (t: int)
      reads this
      requires Valid()
      ensures t == Sum(parsedItems, LineProduct)
    {
      SumOfProducts(parsedItems);
      Sum(parsedItems, MeasuredValue)
    }

    /** `handleSave`: without a project or without items nothing happens; otherwise the
        bulletin handed to the store holds the items verbatim and the preview total,
        and the screen is cleared. */
    method HandleSave(id: string, uploadDate: string) returns (saved: Option<MeasurementBulletin>)
      requires Valid()
      modifies this`parsedItems, this`fileName
      ensures Valid()
      ensures old(selectedProject) == "" || old(parsedItems) == [] ==>
                saved.None? && parsedItems == old(parsedItems) && fileName == old(fileName)
      ensures old(selectedProject) != "" && old(parsedItems) != [] ==>
                && saved == Some(MeasurementBulletin(id, selectedProject, referenceDate, bulletinType,
                                                     old(parsedItems), old(TotalParsedValue()), uploadDate, old(fileName)))
                && parsedItems == [] && fileName == ""
    {
      if selectedProject == "" || |parsedItems| == 0 {
        return None;
      }
      var bulletin := MeasurementBulletin(id, selectedProject, referenceDate, bulletinType,
                                          parsedItems, TotalParsedValue(), uploadDate, fileName);
      parsedItems := [];
      fileName := "";
      saved := Some(bulletin);
    }
  }
}
