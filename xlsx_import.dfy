/** The product import of the backend (backend/app/main.py): spreadsheet
    column letters to indices, the placement of already-parsed cells into
    row value lists, and the mapping of rows to product records. */
module XlsxImport {
  import opened Wrappers
  import opened Text
  import opened Seqs

  // ------------------------------------------------------- column letters

  /** The letters `[A-Z]` a cell reference may start with. */
  predicate IsUpper(c: char) {
    'A' <= c <= 'Z'
  }

  predicate IsColumnName(s: string) {
    s != [] && forall i :: 0 <= i < |s| ==> IsUpper(s[i])
  }

  /** The bijective base-26 value of a column name: A = 1, …, Z = 26, AA = 27. */
  function ColumnValue(s: string): int {
    if s == [] then 0 else ColumnValue(s[..|s| - 1]) * 26 + (s[|s| - 1] as int - 'A' as int + 1)
  }

  /** A column name of `n` letters has value at least `n`. */
  lemma {:induction false} ColumnValueAtLeastLength(s: string)
    requires forall i :: 0 <= i < |s| ==> IsUpper(s[i])
    ensures ColumnValue(s) >= |s|
  {
    if s != [] {
      ColumnValueAtLeastLength(s[..|s| - 1]);
    }
  }

  /** `_column_to_index(column)`: the accumulating loop, minus one. */
  method ColumnToIndex(column: string) returns (index: int)
    ensures index == ColumnValue(column) - 1
  {
    index := 0;
    for i := 0 to |column|
      invariant index == ColumnValue(column[..i])
    {
      assert column[..i + 1][..i] == column[..i];
      index := index * 26 + (column[i] as int - 'A' as int + 1);
    }
    assert column[..|column|] == column;
    index := index - 1;
  }

  /** Appending a letter multiplies by 26 and adds the letter's offset. */
  lemma ColumnRecurrence(s: string, c: char)
    ensures ColumnValue(s + [c]) - 1 == (ColumnValue(s) - 1 + 1) * 26 + (c as int - 'A' as int)
  {
    assert (s + [c])[..|s + [c]| - 1] == s;
  }

  lemma ColumnExamples()
    ensures ColumnValue("A") - 1 == 0 && ColumnValue("Z") - 1 == 25
    ensures ColumnValue("AA") - 1 == 26 && ColumnValue("AZ") - 1 == 51 && ColumnValue("BA") - 1 == 52
  {
    assert "AA"[..1] == "A" && "AZ"[..1] == "A" && "BA"[..1] == "B";
    assert "A"[..0] == "" && "Z"[..0] == "" && "B"[..0] == "";
  }

  function Letter(d: int): char
    requires 0 <= d < 26
  {
    ('A' as int + d) as char
  }

  /** The column name of a positive bijective base-26 value. */
  function ColumnName(n: int): (s: string)
    requires n >= 1
    ensures IsColumnName(s)
    decreases n
  {
    if n <= 26 then [Letter(n - 1)] else ColumnName((n - 1) / 26) + [Letter((n - 1) % 26)]
  }

  lemma DivMod26(q: int, r: int)
    requires 0 <= r < 26
    ensures (q * 26 + r) / 26 == q && (q * 26 + r) % 26 == r
  {
  }

  /** The name of a value has that value. */
  lemma {:induction false} ValueOfName(n: int)
    requires n >= 1
    ensures ColumnValue(ColumnName(n)) == n
    decreases n
  {
    var s := ColumnName(n);
    if n <= 26 {
      assert s[..0] == "";
    } else {
      var q := (n - 1) / 26;
      ValueOfName(q);
      assert s[..|s| - 1] == ColumnName(q);
    }
  }

  /** The value of a name gives back that name, so distinct names have
      distinct indices. */
  lemma {:induction false} NameOfValue(s: string)
    requires IsColumnName(s)
    ensures ColumnValue(s) >= 1 && ColumnName(ColumnValue(s)) == s
  {
    var t := s[..|s| - 1];
    var d := s[|s| - 1] as int - 'A' as int;
    ColumnValueAtLeastLength(t);
    if t == [] {
      assert s == [s[0]];
    } else {
      NameOfValue(t);
      DivMod26(ColumnValue(t), d);
      assert s == t + [s[|s| - 1]];
    }
  }

  lemma ColumnIndexInjective(s: string, t: string)
    requires IsColumnName(s) && IsColumnName(t)
    requires ColumnValue(s) - 1 == ColumnValue(t) - 1
    ensures s == t
  {
    NameOfValue(s);
    NameOfValue(t);
  }

  /** `re.match(r"([A-Z]+)", ref)`: the longest run of letters at the start of
      the reference ("" when there is no match). */
  function LeadingLetters(ref: string): (r: string)
    ensures |r| <= |ref| && r == ref[..|r|]
    ensures forall i :: 0 <= i < |r| ==> IsUpper(r[i])
    ensures |r| < |ref| ==> !IsUpper(ref[|r|])
  {
    if ref != [] && IsUpper(ref[0]) then [ref[0]] + LeadingLetters(ref[1..]) else []
  }

  // ------------------------------------------------------ cell placement

  /** The `v` node of a cell: missing, or present with its text (`None` for
      an empty node such as `<v/>`). */
  datatype ValueNode = Missing | Node(text: Option<string>)

  /** An already-parsed cell: its reference, its `t` attribute and its `v` node. */
  datatype Cell = Cell(ref: string, cellType: Option<string>, value: ValueNode)

  /** A row's values; `None` is Python's `None`. */
  type Row = seq<Option<string>>

  /** `_column_to_index` of the leading letters of a reference that has some. */
  function CellIndex(ref: string): (index: nat)
    requires LeadingLetters(ref) != []
    ensures index + 1 == ColumnValue(LeadingLetters(ref))
  {
    ColumnValueAtLeastLength(LeadingLetters(ref));
    ColumnValue(LeadingLetters(ref)) - 1
  }

  /** The characters Python's `str.strip` removes (`str.isspace`). */
  predicate IsPySpace(c: char) {
    c == ' ' || ('\t' <= c <= '\r') || ('\U{001C}' <= c <= '\U{001F}') || c == '\U{0085}'
    || c == '\U{00A0}' || c == '\U{1680}' || ('\U{2000}' <= c <= '\U{200A}')
    || c == '\U{2028}' || c == '\U{2029}' || c == '\U{202F}' || c == '\U{205F}' || c == '\U{3000}'
  }

  /** `text.strip()` */
  function PyStrip(text: string): (r: string)
    ensures |r| <= |text|
    ensures r != [] ==> !IsPySpace(r[0]) && !IsPySpace(r[|r| - 1])
    ensures forall c :: c in r ==> c in text
    decreases |text|
  {
    if text != [] && IsPySpace(text[0]) then PyStrip(text[1..])
    else if text != [] && IsPySpace(text[|text| - 1]) then PyStrip(text[..|text| - 1])
    else text
  }

  predicate IsDigit(c: char) {
    '0' <= c <= '9'
  }

  predicate AllDigitsOrUnderscores(text: string) {
    forall i :: 0 <= i < |text| ==> IsDigit(text[i]) || text[i] == '_'
  }

  /** Decimal digits, where a single underscore may stand between two digits. */
  predicate IsDigitGroups(text: string) {
    text != [] && AllDigitsOrUnderscores(text) && IsDigit(text[0]) && IsDigit(text[|text| - 1])
    && forall i :: 0 < i < |text| - 1 && text[i] == '_' ==> IsDigit(text[i - 1]) && IsDigit(text[i + 1])
  }

  /** The value of digits and underscores, the underscores ignored. */
  function GroupsValue(text: string): nat
    requires AllDigitsOrUnderscores(text)
  {
    if text == [] then 0
    else
      var c := text[|text| - 1];
      if c == '_' then GroupsValue(text[..|text| - 1])
      else GroupsValue(text[..|text| - 1]) * 10 + ((c as int - '0' as int) as nat)
  }

  /** `int` of an unsigned literal. */
  function ParseNat(text: string): Option<nat> {
    if IsDigitGroups(text) then Some(GroupsValue(text)) else None
  }

  /** `int(text)` for a `str`: surrounding white space is ignored, then an
      optional sign, then decimal digits with single underscores between
      them; any other text raises. */
  function ParseInt(text: string): (r: Option<int>)
    ensures (forall i :: 0 <= i < |text| ==> !IsDigit(text[i])) ==> r.None?
  {
    var t := PyStrip(text);
    if t != [] && (t[0] == '-' || t[0] == '+') then
      match ParseNat(t[1..])
      case None => None
      case Some(n) =>
        assert t[1..][0] in text;
        var m: int := n; Some(if t[0] == '-' then -m else m)
    else
      match ParseNat(t)
      case None => None
      case Some(n) => assert t[0] in text; Some(n)
  }

  /** `shared_strings[int(text)]` with Python's negative indexing: an empty
      node (`int(None)`), a text that is no integer, or an index out of range
      raises. */
  function SharedString(shared: seq<string>, text: Option<string>): (r: Result<string>)
    ensures r.Ok? <==> text.Some? && ParseInt(text.value).Some? && -|shared| <= ParseInt(text.value).value < |shared|
    ensures r.Ok? ==> r.value in shared
  {
    match text
    case None => Err(0, "int() argument must be a string, not 'NoneType'")
    case Some(t) =>
      match ParseInt(t)
      case None => Err(0, "invalid literal for int()")
      case Some(k) =>
        if 0 <= k < |shared| then Ok(shared[k])
        else if -|shared| <= k < 0 then Ok(shared[|shared| + k])
        else Err(0, "list index out of range")
  }

  /** `int(str(k))` gives back `k`. */
  lemma {:induction false} DigitsOfNatToString(k: nat)
    ensures ParseNat(NatToString(k)) == Some(k)
  {
    var s := NatToString(k);
    assert AllDigitsOrUnderscores(s);
    if k >= 10 {
      DigitsOfNatToString(k / 10);
      assert s[..|s| - 1] == NatToString(k / 10);
      assert GroupsValue(s) == GroupsValue(NatToString(k / 10)) * 10 + k % 10;
    } else {
      assert s[..0] == [];
    }
    assert GroupsValue(s) == k;
  }

  /** White space has no effect on a string without any. */
  lemma {:induction false} PyStripNoSpace(text: string)
    requires forall i :: 0 <= i < |text| ==> !IsPySpace(text[i])
    ensures PyStrip(text) == text
  {
  }

  lemma NoSpaceInNegative(k: nat)
    ensures forall i :: 0 <= i < |"-" + NatToString(k)| ==> !IsPySpace(("-" + NatToString(k))[i])
  {
    var t := "-" + NatToString(k);
    forall i | 0 <= i < |t| ensures !IsPySpace(t[i]) {
      if i > 0 {
        assert t[i] == NatToString(k)[i - 1];
      }
    }
  }

  /** `int("-" + str(k))` is `-k`. */
  lemma ParseNegative(k: nat)
    ensures ParseInt("-" + NatToString(k)) == Some(-(k as int))
  {
    DigitsOfNatToString(k);
    var t := "-" + NatToString(k);
    NoSpaceInNegative(k);
    PyStripNoSpace(t);
    assert t[1..] == NatToString(k);
  }

  /** Python's negative indexing counts from the end of the shared strings. */
  lemma SharedStringFromEnd(shared: seq<string>, k: nat)
    requires 1 <= k <= |shared|
    ensures SharedString(shared, Some("-" + NatToString(k))) == Ok(shared[|shared| - k])
  {
    ParseNegative(k);
    SharedStringAtNegative(shared, "-" + NatToString(k), -(k as int));
  }

  lemma SharedStringAtNegative(shared: seq<string>, t: string, k: int)
    requires ParseInt(t) == Some(k) && -|shared| <= k < 0
    ensures SharedString(shared, Some(t)) == Ok(shared[|shared| + k])
  {
  }

  /** `int()` ignores surrounding white space, a leading `+` and underscores
      between digits: " +1_0 " is 10. */
  lemma ParseIntExample()
    ensures ParseInt(" +1_0 ") == Some(10)
  {
    assert PyStrip(" +1_0 ") == "+1_0" by {
      assert " +1_0 "[1..] == "+1_0 ";
      assert "+1_0 "[..4] == "+1_0";
    }
    assert "+1_0"[1..] == "1_0";
    assert IsDigitGroups("1_0");
    assert "1_0"[..2] == "1_" && "1_"[..1] == "1" && "1"[..0] == "";
    assert GroupsValue("1_0") == 10;
  }

  /** The row with `value` at `index`, padded with `None` as far as needed. */
  function Place(values: Row, index: nat, value: Option<string>): (r: Row)
    ensures |r| == if index < |values| then |values| else index + 1
    ensures r[index] == value
    ensures forall j :: 0 <= j < |values| && j != index ==> r[j] == values[j]
    ensures forall j :: |values| <= j < |r| && j != index ==> r[j] == None
  {
    var padded := if index < |values| then values else values + seq(index + 1 - |values|, _ => None);
    padded[index := value]
  }

  /** The `while` loop that pads `values`, then the slot assignment. */
  method PlaceValue(values: Row, index: nat, value: Option<string>) returns (r: Row)
    ensures r == Place(values, index, value)
  {
    r := values;
    while |r| <= index
      invariant |values| <= |r| <= if index < |values| then |values| else index + 1
      invariant r == values + seq(|r| - |values|, _ => None)
      decreases index + 1 - |r|
    {
      r := r + [None];
    }
    r := r[index := value];
  }

  /** The effect of one cell on the row: skipped without leading letters,
      otherwise stored at its column, a shared-string reference resolved. */
  function ApplyCell(values: Row, cell: Cell, shared: seq<string>): (r: Result<Row>)
    ensures LeadingLetters(cell.ref) == [] ==> r == Ok(values)
    ensures r.Ok? ==> |r.value| >= |values|
    ensures r.Ok? && LeadingLetters(cell.ref) != [] ==> r.value != []
    ensures r.Err? <==> LeadingLetters(cell.ref) != [] && cell.cellType == Some("s") && cell.value.Node?
                        && SharedString(shared, cell.value.text).Err?
    ensures r.Ok? && LeadingLetters(cell.ref) != [] ==>
      r.value == Place(values, CellIndex(cell.ref),
        match cell.value
        case Missing => None
        case Node(text) => if cell.cellType == Some("s") then Some(SharedString(shared, text).value) else text)
  {
    var letters := LeadingLetters(cell.ref);
    if letters == [] then Ok(values)
    else
      var index := ColumnValue(letters) - 1;
      ColumnValueAtLeastLength(letters);
      match cell.value
      case Missing => Ok(Place(values, index, None))
      case Node(text) =>
        if cell.cellType == Some("s") then
          match SharedString(shared, text)
          case Err(s, d) => Err(s, d)
          case Ok(str) => Ok(Place(values, index, Some(str)))
        else Ok(Place(values, index, text))
  }

  /** The cells of a row applied in order, starting from `values`. */
  function ApplyCells(values: Row, cells: seq<Cell>, shared: seq<string>): (r: Result<Row>)
    ensures r.Err? ==> exists i :: 0 <= i < |cells| && cells[i].cellType == Some("s") && cells[i].value.Node?
    decreases |cells|
  {
    if cells == [] then Ok(values)
    else
      match ApplyCell(values, cells[0], shared)
      case Err(s, d) => Err(s, d)
      case Ok(next) =>
        var r := ApplyCells(next, cells[1..], shared);
        assert r.Err? ==> exists i :: 1 <= i < |cells| && cells[i].cellType == Some("s") && cells[i].value.Node? by {
          if r.Err? {
            var i :| 0 <= i < |cells[1..]| && cells[1..][i].cellType == Some("s") && cells[1..][i].value.Node?;
            assert cells[i + 1] == cells[1..][i];
          }
        }
        r
  }

  /** The inner loop over the cells of one row. */
  method ReadRow(cells: seq<Cell>, shared: seq<string>) returns (result: Result<Row>)
    ensures result == ApplyCells([], cells, shared)
  {
    var values: Row := [];
    for i := 0 to |cells|
      invariant ApplyCells(values, cells[i..], shared) == ApplyCells([], cells, shared)
    {
      assert cells[i..][1..] == cells[i + 1..];
      var letters := LeadingLetters(cells[i].ref);
      if letters == [] {
        continue;
      }
      ColumnValueAtLeastLength(letters);
      var index := ColumnToIndex(letters);
      var value: Option<string>;
      match cells[i].value {
        case Missing =>
          value := None;
        case Node(text) =>
          if cells[i].cellType == Some("s") {
            var s := SharedString(shared, text);
            if s.Err? {
              return Err(s.status, s.detail);
            }
            value := Some(s.value);
          } else {
            value := text;
          }
      }
      values := PlaceValue(values, index, value);
    }
    return Ok(values);
  }

  /** A cell without leading letters leaves the row as it is. */
  lemma SkippedCell(values: Row, cell: Cell, shared: seq<string>)
    requires cell.ref == [] || !IsUpper(cell.ref[0])
    ensures ApplyCell(values, cell, shared) == Ok(values)
  {
  }

  /** Applying cells never shortens a row, and a cell with leading letters
      leaves it non-empty. */
  lemma {:induction false} ApplyCellsGrows(values: Row, cells: seq<Cell>, shared: seq<string>)
    requires ApplyCells(values, cells, shared).Ok?
    ensures |ApplyCells(values, cells, shared).value| >= |values|
    decreases |cells|
  {
    if cells != [] {
      ApplyCellsGrows(ApplyCell(values, cells[0], shared).value, cells[1..], shared);
    }
  }

  /** A row stays empty exactly while none of its cells has leading letters,
      which is when it is not appended. */
  lemma {:induction false} EmptyRowIffAllSkipped(values: Row, cells: seq<Cell>, shared: seq<string>)
    requires ApplyCells(values, cells, shared).Ok?
    ensures ApplyCells(values, cells, shared).value == [] <==>
      values == [] && forall i :: 0 <= i < |cells| ==> LeadingLetters(cells[i].ref) == []
    decreases |cells|
  {
    if cells != [] {
      assert ApplyCell(values, cells[0], shared).Ok?;
      var next := ApplyCell(values, cells[0], shared).value;
      assert ApplyCells(values, cells, shared) == ApplyCells(next, cells[1..], shared);
      EmptyRowIffAllSkipped(next, cells[1..], shared);
      ApplyCellsGrows(next, cells[1..], shared);
      if LeadingLetters(cells[0].ref) == [] {
        assert next == values;
      } else {
        assert next != [];
      }
      assert forall i :: 1 <= i < |cells| ==> cells[1..][i - 1] == cells[i];
    }
  }

  /** The rows of the sheet that are kept: every row with a value. */
  function ReadRows(sheet: seq<seq<Cell>>, shared: seq<string>): (r: Result<seq<Row>>)
    ensures r.Ok? ==> |r.value| <= |sheet|
    decreases |sheet|
  {
    if sheet == [] then Ok([])
    else
      match ReadRows(sheet[..|sheet| - 1], shared)
      case Err(s, d) => Err(s, d)
      case Ok(rows) =>
        match ApplyCells([], sheet[|sheet| - 1], shared)
        case Err(s, d) => Err(s, d)
        case Ok(values) => Ok(if values != [] then rows + [values] else rows)
  }

  /** The outer loop over the rows of the sheet. */
  method LoadRows(sheet: seq<seq<Cell>>, shared: seq<string>) returns (result: Result<seq<Row>>)
    ensures result == ReadRows(sheet, shared)
  {
    var rows: seq<Row> := [];
    for i := 0 to |sheet|
      invariant ReadRows(sheet[..i], shared) == Ok(rows)
    {
      assert sheet[..i + 1][..i] == sheet[..i];
      var values := ReadRow(sheet[i], shared);
      if values.Err? {
        assert ReadRows(sheet[..i + 1], shared) == Err(values.status, values.detail);
        PrefixErr(sheet, shared, i + 1, |sheet|);
        assert sheet[..|sheet|] == sheet;
        return Err(values.status, values.detail);
      }
      if values.value != [] {
        rows := rows + [values.value];
      }
    }
    assert sheet[..|sheet|] == sheet;
    return Ok(rows);
  }

  lemma {:induction false} PrefixErr(sheet: seq<seq<Cell>>, shared: seq<string>, i: nat, k: nat)
    requires i <= k <= |sheet|
    requires ReadRows(sheet[..i], shared).Err?
    ensures ReadRows(sheet[..k], shared) == ReadRows(sheet[..i], shared)
    decreases k - i
  {
    if k > i {
      PrefixErr(sheet, shared, i, k - 1);
      assert sheet[..k][..k - 1] == sheet[..k - 1];
    }
  }

  /** Every kept row has a value. */
  lemma {:induction false} KeptRowsNonEmpty(sheet: seq<seq<Cell>>, shared: seq<string>)
    requires ReadRows(sheet, shared).Ok?
    ensures forall k :: 0 <= k < |ReadRows(sheet, shared).value| ==> ReadRows(sheet, shared).value[k] != []
    decreases |sheet|
  {
    if sheet != [] {
      KeptRowsNonEmpty(sheet[..|sheet| - 1], shared);
    }
  }

  // ----------------------------------------------------- product mapping

  /** A product as `_load_products_from_xlsx` returns it; the price is left
      as the text of its cell (`None` for 0.0). */
  datatype ProductRecord = ProductRecord(
    name: string,
    category: Option<string>,
    priceText: Option<string>,
    imageUrl: string,
    tags: string)

  /** Python truthiness of a cell value. */
  predicate IsTruthy(v: Option<string>) {
    v.Some? && v.value != ""
  }

  /** The product of a kept row. */
  function RowProduct(row: Row): (p: ProductRecord)
    requires |row| >= 1 && IsTruthy(row[0])
    ensures p.name == row[0].value
    ensures p.category == if |row| > 1 then row[1] else Some("")
    ensures p.priceText == if |row| > 2 && IsTruthy(row[2]) then row[2] else None
    ensures p.imageUrl == if |row| > 3 && IsTruthy(row[3]) then "/images/" + row[3].value else ""
    ensures p.tags == if IsTruthy(p.category) then p.category.value else ""
    ensures p.imageUrl == "" || StartsWith(p.imageUrl, "/images/")
  {
    var category := if |row| > 1 then row[1] else Some("");
    var imageName := if |row| > 3 then row[3] else Some("");
    ProductRecord(
      row[0].value,
      category,
      if |row| > 2 && IsTruthy(row[2]) then row[2] else None,
      if IsTruthy(imageName) then "/images/" + imageName.value else "",
      if IsTruthy(category) then category.value else "")
  }

  predicate Kept(row: Row) {
    |row| >= 1 && IsTruthy(row[0])
  }

  /** The products of the given rows, skipping rows with an empty first cell. */
  function RowProducts(rows: seq<Row>): (r: seq<ProductRecord>)
    ensures |r| <= |rows|
  {
    if rows == [] then []
    else
      var last := rows[|rows| - 1];
      RowProducts(rows[..|rows| - 1]) + (if Kept(last) then [RowProduct(last)] else [])
  }

  /** One product per kept row, in the rows' order. */
  lemma {:induction false} RowProductsOfKept(rows: seq<Row>)
    ensures |RowProducts(rows)| == Count(rows, Kept)
    ensures forall k :: 0 <= k < |RowProducts(rows)| ==> RowProducts(rows)[k] == RowProduct(Filter(rows, Kept)[k])
  {
    if rows != [] {
      var init, last := rows[..|rows| - 1], rows[|rows| - 1];
      RowProductsOfKept(init);
      assert rows == init + [last];
      FilterSnoc(init, last, Kept);
    }
  }

  /** The product loop over `rows[1:]`: the header row is never a product. */
  method MapProducts(rows: seq<Row>) returns (products: seq<ProductRecord>)
    ensures products == if rows == [] then [] else RowProducts(rows[1..])
  {
    products := [];
    if rows == [] {
      return;
    }
    var body := rows[1..];
    for i := 0 to |body|
      invariant products == RowProducts(body[..i])
    {
      assert body[..i + 1][..i] == body[..i];
      var row := body[i];
      if !Kept(row) {
        continue;
      }
      products := products + [RowProduct(row)];
    }
    assert body[..|body|] == body;
  }

  /** Every product has a non-empty name. */
  lemma {:induction false} ProductNamesNonEmpty(rows: seq<Row>)
    ensures forall k :: 0 <= k < |RowProducts(rows)| ==> RowProducts(rows)[k].name != ""
  {
    if rows != [] {
      ProductNamesNonEmpty(rows[..|rows| - 1]);
    }
  }
}
