/** The spreadsheet as the report builder sees it (ozon_bot.py:33-53): the
    search for the header row among the first ten rows, the column labels
    with their whitespace trimmed, the lookup of the four accounting columns
    and of the product column, and the conversion of each data row into a
    record with numbers coerced the permissive way. */
module Sheet {
  import opened Wrappers
  import opened Strings
  import opened Numbers

  /** A decoded spreadsheet cell: empty (NaN for pandas), text, or a number. */
  datatype Cell = Blank | Text(s: string) | Number(v: real)

  type Row = seq<Cell>

  const TypeColumn: string := "Тип начисления"
  const QtyColumn: string := "Количество"
  const PriceColumn: string := "Цена продавца"
  const TotalColumn: string := "Сумма итого, руб"

  /** Only the first ten rows are searched for the header. */
  const ScanLimit: nat := 10

  /** The row holds a cell whose text is exactly the accounting-type header. */
  predicate HasMarker(row: Row)
  {
    Text(TypeColumn) in row
  }

  /** Row `h` is the first row among the first ten that holds the marker. */
  predicate IsHeaderAt(rows: seq<Row>, h: nat)
  {
    h < ScanLimit && h < |rows| && HasMarker(rows[h])
    && forall k :: 0 <= k < h ==> !HasMarker(rows[k])
  }

  /** None of the first ten rows holds the marker. */
  predicate NoHeader(rows: seq<Row>)
  {
    |rows| >= ScanLimit && forall k :: 0 <= k < ScanLimit ==> !HasMarker(rows[k])
  }

  /** The search never reads past the end of the sheet: either the sheet has
      ten rows, or a marker row comes before its end. */
  predicate ScanSafe(rows: seq<Row>)
  {
    |rows| >= ScanLimit || exists k :: 0 <= k < |rows| && k < ScanLimit && HasMarker(rows[k])
  }

  /** There is at most one header row. */
  lemma HeaderUnique(rows: seq<Row>, h1: nat, h2: nat)
    requires IsHeaderAt(rows, h1) && IsHeaderAt(rows, h2)
    ensures h1 == h2
  {
  }

  /** The header row found by a scan that starts at row `i`. */
  function HeaderFrom(rows: seq<Row>, i: nat): (r: Option<nat>)
    requires i <= ScanLimit
    requires forall k :: 0 <= k < i ==> k < |rows| && !HasMarker(rows[k])
    requires ScanSafe(rows)
    ensures r.Some? ==> IsHeaderAt(rows, r.value)
    ensures r.None? ==> NoHeader(rows)
    decreases ScanLimit - i
  {
    if i == ScanLimit then None
    else
      assert i < |rows|;
      if HasMarker(rows[i]) then Some(i) else HeaderFrom(rows, i + 1)
  }

  /** Where the header search of the source stops: the first marker row
      among the first ten, or none. */
  function HeaderRow(rows: seq<Row>): (r: Option<nat>)
    requires ScanSafe(rows)
    ensures r.Some? ==> IsHeaderAt(rows, r.value)
    ensures r.None? ==> NoHeader(rows)
  {
    HeaderFrom(rows, 0)
  }

  /** The `for`/`break`/`else` loop over the first ten rows. */
  method FindHeader(rows: seq<Row>) returns (h: Option<nat>)
    requires ScanSafe(rows)
    ensures h.Some? ==> IsHeaderAt(rows, h.value)
    ensures h.None? ==> NoHeader(rows)
  {
    for i := 0 to ScanLimit
      invariant forall k :: 0 <= k < i ==> k < |rows| && !HasMarker(rows[k])
    {
      if |rows| < ScanLimit {
        var k :| 0 <= k < |rows| && k < ScanLimit && HasMarker(rows[k]);
        assert i <= k;
      }
      if HasMarker(rows[i]) {
        return Some(i);
      }
    }
    return None;
  }

  /** A column label after `df.columns.str.strip()`: a trimmed string, or the
      missing value pandas produces for a label that is not a string. */
  datatype Label = Name(s: string) | NonText

  /** The label of column `k` whose header cell is `c`: text is trimmed, an
      empty cell is named "Unnamed: k", and a number is not a string. */
  function LabelOf(c: Cell, k: nat): Label
  {
    match c
    case Text(s) => Name(Strip(s))
    case Blank => Name(Strip("Unnamed: " + IntToString(k)))
    case Number(_) => NonText
  }

  /** The labels of all columns of a header row, one per cell, in column
      order. The second ensures only names the element each position holds,
      for the lemmas below; what a label is, case by case, is `LabelCases`. */
  function Labels(header: Row): (ls: seq<Label>)
    ensures |ls| == |header|
    ensures forall k :: 0 <= k < |header| ==> ls[k] == LabelOf(header[k], k)
  {
    seq(|header|, k requires 0 <= k < |header| => LabelOf(header[k], k))
  }

  /** Column `k` is labelled by its header cell: a text cell gives its text
      with only the surrounding whitespace cut off, an empty cell gives
      "Unnamed: k" as it is, and a number gives no string label. */
  lemma LabelCases(header: Row, k: nat, i: nat, j: nat)
    requires k < |header|
    ensures header[k].Text? && Padded(header[k].s, i, j)
            && (i == j || (!IsSpace(header[k].s[i]) && !IsSpace(header[k].s[j - 1])))
            ==> Labels(header)[k] == Name(header[k].s[i..j])
    ensures header[k].Blank? ==> Labels(header)[k] == Name("Unnamed: " + IntToString(k))
    ensures header[k].Number? ==> Labels(header)[k] == NonText
  {
    var c := header[k];
    if c.Text? && Padded(c.s, i, j) && (i == j || (!IsSpace(c.s[i]) && !IsSpace(c.s[j - 1]))) {
      StripPadded(c.s, i, j);
    }
    if c.Blank? {
      var u := "Unnamed: " + IntToString(k);
      NaturalRoundTrip(k);
      assert u[|u| - 1] == IntToString(k)[|IntToString(k)| - 1];
      StripUnchanged(u);
    }
  }

  /** The first column at or after `i` labelled `name`. */
  function ColumnFrom(ls: seq<Label>, name: string, i: nat): (r: Option<nat>)
    requires i <= |ls|
    ensures r.Some? ==> (i <= r.value < |ls| && ls[r.value] == Name(name)
                         && forall j :: i <= j < r.value ==> ls[j] != Name(name))
    ensures r.None? ==> forall j :: i <= j < |ls| ==> ls[j] != Name(name)
    decreases |ls| - i
  {
    if i == |ls| then None
    else if ls[i] == Name(name) then Some(i)
    else ColumnFrom(ls, name, i + 1)
  }

  /** Column `c` is the first one labelled `name`. */
  predicate FirstLabelled(ls: seq<Label>, name: string, c: nat)
  {
    c < |ls| && ls[c] == Name(name) && forall j :: 0 <= j < c ==> ls[j] != Name(name)
  }

  /** Only one column is the first labelled `name`. */
  lemma FirstLabelledUnique(ls: seq<Label>, name: string, c: nat, d: nat)
    requires FirstLabelled(ls, name, c) && FirstLabelled(ls, name, d)
    ensures c == d
  {
  }

  /** `df[name]`: the column labelled `name`, or none (a KeyError in the source). */
  function ColumnIndex(ls: seq<Label>, name: string): (r: Option<nat>)
    ensures r.Some? ==> FirstLabelled(ls, name, r.value)
    ensures r.None? <==> forall j :: 0 <= j < |ls| ==> ls[j] != Name(name)
  {
    ColumnFrom(ls, name, 0)
  }

  /** The header row holds the accounting-type column, since the marker text
      has no surrounding whitespace to trim. */
  lemma MarkerColumnExists(header: Row)
    requires HasMarker(header)
    ensures ColumnIndex(Labels(header), TypeColumn).Some?
  {
    var k :| 0 <= k < |header| && header[k] == Text(TypeColumn);
    StripUnchanged(TypeColumn);
    assert Labels(header)[k] == Name(TypeColumn);
  }

  /** A label names the product column when, lower-cased, it contains one of
      the three markers. */
  predicate IsProductName(s: string)
  {
    exists i :: 0 <= i < |ProductMarkers| && Contains(Lower(s), ProductMarkers[i])
  }

  /** The markers of the product column, in the order the source tests them. */
  const ProductMarkers: seq<string> := ["артикул", "sku", "объявление"]

  /** The outcome of scanning the labels for the product column: found at a
      position, missing, or stopped at a label that is not a string (whose
      `.lower()` raises in the source). */
  datatype ProductScan = Found(k: nat) | Missing | Unreadable(k: nat)

  /** All labels in `[i, k)` are strings that do not name the product column. */
  predicate PlainLabels(ls: seq<Label>, i: nat, k: nat)
    requires i <= k <= |ls|
  {
    forall j :: i <= j < k ==> ls[j].Name? && !IsProductName(ls[j].s)
  }

  /** `next(col for col in df.columns if ...)` from position `i` on. */
  function ScanFrom(ls: seq<Label>, i: nat): (r: ProductScan)
    requires i <= |ls|
    ensures r.Found? ==> i <= r.k < |ls| && ls[r.k].Name? && IsProductName(ls[r.k].s) && PlainLabels(ls, i, r.k)
    ensures r.Unreadable? ==> i <= r.k < |ls| && ls[r.k] == NonText && PlainLabels(ls, i, r.k)
    ensures r.Missing? <==> PlainLabels(ls, i, |ls|)
    decreases |ls| - i
  {
    if i == |ls| then Missing
    else match ls[i]
      case NonText => Unreadable(i)
      case Name(s) => if IsProductName(s) then Found(i) else ScanFrom(ls, i + 1)
  }

  /** The product column: the first label, in header order, that names it. */
  function ProductColumn(ls: seq<Label>): (r: ProductScan)
    ensures r.Found? ==> r.k < |ls| && ls[r.k].Name? && IsProductName(ls[r.k].s) && PlainLabels(ls, 0, r.k)
    ensures r.Missing? <==> PlainLabels(ls, 0, |ls|)
  {
    ScanFrom(ls, 0)
  }

  /** The data of a sheet once its header row is known: the labels and the
      rows below the header. */
  datatype Table = Table(labels: seq<Label>, rows: seq<Row>)

  function TableAt(rows: seq<Row>, h: nat): Table
    requires h < |rows|
  {
    Table(Labels(rows[h]), rows[h + 1..])
  }

  /** The cell of `row` in column `k`; short rows are padded with empty cells. */
  function CellAt(row: Row, k: nat): Cell
  {
    if k < |row| then row[k] else Blank
  }

  /** `pd.to_numeric(..., errors="coerce").fillna(0)` on one cell. */
  function ToNumber(c: Cell): (r: real)
    ensures c.Number? ==> r == c.v
    ensures c.Blank? ==> r == 0.0
    ensures c.Text? && ParseDecimal(c.s).None? ==> r == 0.0
  {
    match c
    case Blank => 0.0
    case Number(v) => v
    case Text(s) => ParseDecimal(s).GetOr(0.0)
  }

  /** Text that spells an integer coerces to that integer. */
  lemma CoerceInteger(n: int)
    ensures ToNumber(Text(IntToString(n))) == n as real
  {
    IntToStringRoundTrip(n);
  }

  /** Where the columns the report reads are. */
  datatype Columns = Columns(typ: nat, qty: nat, price: nat, total: nat, sku: nat)

  /** All data rows carry text in column `k`. */
  predicate AllText(rows: seq<Row>, k: nat)
  {
    forall i :: 0 <= i < |rows| ==> CellAt(rows[i], k).Text?
  }

  /** A table the source processes without raising: the three numeric
      columns exist (else `KeyError`), no label before the product column is
      a non-string (else `AttributeError` in `.lower()`), the type column is
      not entirely non-text (else the `.str` accessor fails), and, when the
      product column is found, every type cell is text (else the `~` mask of
      the expense filter fails on a missing value). */
  predicate TableReadable(t: Table)
  {
    && ColumnIndex(t.labels, TypeColumn).Some?
    && ColumnIndex(t.labels, QtyColumn).Some?
    && ColumnIndex(t.labels, PriceColumn).Some?
    && ColumnIndex(t.labels, TotalColumn).Some?
    && !ProductColumn(t.labels).Unreadable?
    && var k := ColumnIndex(t.labels, TypeColumn).value;
       && (|t.rows| > 0 ==> exists i :: 0 <= i < |t.rows| && CellAt(t.rows[i], k).Text?)
       && (ProductColumn(t.labels).Found? ==> AllText(t.rows, k))
  }

  /** A sheet the source processes without raising. */
  predicate Readable(rows: seq<Row>)
  {
    ScanSafe(rows) && (HeaderRow(rows).Some? ==> TableReadable(TableAt(rows, HeaderRow(rows).value)))
  }
}
