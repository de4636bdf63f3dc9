/** `extract_report` (ozon_bot.py:32-100): from the rows of the first sheet
    to the text the bot sends back, which is either one of two error
    messages or the report. */
module Report {
  import opened Wrappers
  import opened Strings
  import opened Sheet
  import opened Catalog
  import opened Ledger
  import opened Render

  const HeaderMissingMessage: string := "❌ Не найдена строка с заголовками."
  const ProductMissingMessage: string := "❌ Не найдена колонка с артикулами товара."

  /** What the extraction ends with. */
  datatype Outcome = HeaderNotFound | ProductColumnNotFound | Report(lines: seq<string>)

  /** The text sent back for an outcome: the message, or the report lines
      joined by line breaks. */
  function Reply(o: Outcome): string
  {
    match o
    case HeaderNotFound => HeaderMissingMessage
    case ProductColumnNotFound => ProductMissingMessage
    case Report(lines) => Join(lines, "\n")
  }

  /** Where the five columns the report reads are, in a readable table whose
      product column was found at `k`. */
  function ColumnsOf(ls: seq<Label>, k: nat): (cols: Columns)
    requires ColumnIndex(ls, TypeColumn).Some? && ColumnIndex(ls, QtyColumn).Some?
    requires ColumnIndex(ls, PriceColumn).Some? && ColumnIndex(ls, TotalColumn).Some?
    ensures cols.sku == k
    ensures FirstLabelled(ls, TypeColumn, cols.typ) && FirstLabelled(ls, QtyColumn, cols.qty)
    ensures FirstLabelled(ls, PriceColumn, cols.price) && FirstLabelled(ls, TotalColumn, cols.total)
  {
    Columns(ColumnIndex(ls, TypeColumn).value, ColumnIndex(ls, QtyColumn).value,
            ColumnIndex(ls, PriceColumn).value, ColumnIndex(ls, TotalColumn).value, k)
  }

  /** The record of each data row takes its type from the first column
      labelled "Тип начисления", its quantity, price and total, coerced, from
      the first columns labelled "Количество", "Цена продавца" and "Сумма
      итого, руб", and its product cell from the product column. */
  lemma TableRecords(tab: Table, i: nat)
    requires TableReadable(tab) && ProductColumn(tab.labels).Found? && i < |tab.rows|
    ensures var ls, row := tab.labels, tab.rows[i];
      var rs := Records(tab.rows, ColumnsOf(ls, ProductColumn(ls).k));
      && |rs| == |tab.rows|
      && (forall c :: FirstLabelled(ls, TypeColumn, c) ==> Text(rs[i].typ) == CellAt(row, c))
      && (forall c :: FirstLabelled(ls, QtyColumn, c) ==> rs[i].qty == ToNumber(CellAt(row, c)))
      && (forall c :: FirstLabelled(ls, PriceColumn, c) ==> rs[i].price == ToNumber(CellAt(row, c)))
      && (forall c :: FirstLabelled(ls, TotalColumn, c) ==> rs[i].total == ToNumber(CellAt(row, c)))
      && rs[i].sku == CellAt(row, ProductColumn(ls).k)
  {
    var ls := tab.labels;
    var cols := ColumnsOf(ls, ProductColumn(ls).k);
    forall c | FirstLabelled(ls, TypeColumn, c) ensures c == cols.typ {
      FirstLabelledUnique(ls, TypeColumn, c, cols.typ);
    }
    forall c | FirstLabelled(ls, QtyColumn, c) ensures c == cols.qty {
      FirstLabelledUnique(ls, QtyColumn, c, cols.qty);
    }
    forall c | FirstLabelled(ls, PriceColumn, c) ensures c == cols.price {
      FirstLabelledUnique(ls, PriceColumn, c, cols.price);
    }
    forall c | FirstLabelled(ls, TotalColumn, c) ensures c == cols.total {
      FirstLabelledUnique(ls, TotalColumn, c, cols.total);
    }
  }

  /** The summary of a readable table whose product column is found. */
  function TableSummary(t: Tables, tab: Table): Summary
    requires TableReadable(tab) && ProductColumn(tab.labels).Found?
  {
    Summarize(t, Records(tab.rows, ColumnsOf(tab.labels, ProductColumn(tab.labels).k)))
  }

  /** The outcome once the header row is known: the product-column message,
      or the report on the records of the table. */
  function FromTable(t: Tables, tab: Table, filename: string): Outcome
    requires TableReadable(tab)
  {
    if ProductColumn(tab.labels).Found? then Report(ReportLines(t, TableSummary(t, tab), filename))
    else ProductColumnNotFound
  }

  /** The outcome of the extraction on a sheet the source processes without
      raising. */
  function Extract(t: Tables, rows: seq<Row>, filename: string): Outcome
    requires Readable(rows)
  {
    match HeaderRow(rows)
    case None => HeaderNotFound
    case Some(h) => FromTable(t, TableAt(rows, h), filename)
  }

  /** The header message is sent exactly when none of the first ten rows
      holds the accounting-type header. */
  lemma HeaderMessageIff(t: Tables, rows: seq<Row>, filename: string)
    requires Readable(rows)
    ensures Extract(t, rows, filename) == HeaderNotFound <==> NoHeader(rows)
  {
    if HeaderRow(rows).Some? {
      var h := HeaderRow(rows).value;
      assert HasMarker(rows[h]);
    }
  }

  /** The product message is sent exactly when a header row is found and no
      label of it names the product column. */
  lemma ProductMessageIff(t: Tables, rows: seq<Row>, filename: string)
    requires Readable(rows)
    ensures Extract(t, rows, filename) == ProductColumnNotFound
            <==> exists h: nat :: IsHeaderAt(rows, h) && PlainLabels(Labels(rows[h]), 0, |rows[h]|)
  {
    if HeaderRow(rows).Some? {
      var h := HeaderRow(rows).value;
      forall h' | IsHeaderAt(rows, h') ensures h' == h {
        HeaderUnique(rows, h, h');
      }
    } else {
      assert !exists h: nat :: IsHeaderAt(rows, h);
    }
  }

  /** A report is produced exactly when the product column is found, and
      it holds every block: three heading lines, one line per product for
      costs and again for quantities, the expense heading with one line per
      category, and six more summary lines. */
  lemma ReportShape(t: Tables, tab: Table, filename: string)
    requires TableReadable(tab)
    ensures FromTable(t, tab, filename).Report? <==> ProductColumn(tab.labels).Found?
    ensures ProductColumn(tab.labels).Found? ==>
      |FromTable(t, tab, filename).lines| == 10 + 2 * |t.costs| + |TableSummary(t, tab).expenses|
  {
    if ProductColumn(tab.labels).Found? {
      ReportLength(t, TableSummary(t, tab), filename);
    }
  }

  /** The amounts printed on the cost lines, keyed by product in the order
      of the cost table. */
  function PrintedCosts(t: Tables, s: Summary): seq<(string, real)>
  {
    seq(|t.costs|, i requires 0 <= i < |t.costs| => (t.costs[i].0, Get(s.costBySku, t.costs[i].0, 0.0)))
  }

  /** The cost lines print every product's cost, in table order, looked up
      by key as the source does. The amounts then add up to the total cost
      because `totalCost` is defined as the sum of `costBySku`; the point of
      the lemma is that the by-key lookups give back exactly that list. */
  lemma CostLinesSum(t: Tables, records: seq<Record>)
    requires DistinctKeys(t.costs)
    ensures var s := Summarize(t, records);
      PrintedCosts(t, s) == s.costBySku && SumValues(PrintedCosts(t, s)) == s.totalCost
  {
    var s := Summarize(t, records);
    var d := s.costBySku;
    assert DistinctKeys(d) by {
      forall i, j | 0 <= i < j < |d| ensures d[i].0 != d[j].0 {
        assert d[i].0 == t.costs[i].0 && d[j].0 == t.costs[j].0;
      }
    }
    forall i | 0 <= i < |t.costs| ensures PrintedCosts(t, s)[i] == d[i] {
      GetAt(d, i, 0.0);
    }
  }

  /** Strictly ascending keys are distinct. */
  lemma SortedDistinct(d: Dict<real>)
    requires forall i, j :: 0 <= i < j < |d| ==> Below(d[i].0, d[j].0)
    ensures DistinctKeys(d)
  {
    forall i, j | 0 <= i < j < |d| ensures d[i].0 != d[j].0 {
      if d[i].0 == d[j].0 {
        BelowIrreflexive(d[i].0);
      }
    }
  }

  /** The expense line of each category, which the model reads by position,
      prints `expenses_sum[key]` for its own key, since the keys are distinct.
      The second conjunct, that the categories add up to the total of the
      other expenses, holds by the definition of `totalExpenses`. */
  lemma ExpenseLinesSum(t: Tables, records: seq<Record>, i: nat)
    requires i < |Summarize(t, records).expenses|
    ensures var s := Summarize(t, records);
      && Get(s.expenses, s.expenses[i].0, 0.0) == s.expenses[i].1
      && SumValues(s.expenses) == s.totalExpenses
  {
    var s := Summarize(t, records);
    ExpenseSumsShape(ExpenseRows(KeptRows(records)));
    SortedDistinct(s.expenses);
    GetAt(s.expenses, i, 0.0);
  }

  /** With the product column found, the outcome is the report of the
      rendered summary. */
  lemma FoundLines(t: Tables, tab: Table, filename: string, lines: seq<string>)
    requires TableReadable(tab) && ProductColumn(tab.labels).Found?
    requires lines == ReportLines(t, TableSummary(t, tab), filename)
    ensures FromTable(t, tab, filename) == Report(lines)
  {
  }

  /** The text of a report is its lines joined by line breaks. */
  lemma ReportReply(lines: seq<string>)
    ensures Reply(Report(lines)) == Join(lines, "\n")
  {
  }

  /** The part of `extract_report` after the header row is found: finds
      the product column, computes the summary and renders it. */
  method ReportFromTable(t: Tables, tab: Table, filename: string) returns (text: string)
    requires ValidTables(t) && TableReadable(tab)
    ensures text == Reply(FromTable(t, tab, filename))
  {
    var product := ProductColumn(tab.labels);
    if !product.Found? {
      return ProductMissingMessage;
    }
    var lines := RenderLines(t, TableSummary(t, tab), filename);
    FoundLines(t, tab, filename, lines);
    ReportReply(lines);
    text := Join(lines, "\n");
  }

  /** `extract_report`: looks for the header row, then reads the table below
      it, or returns the header message. */
  method ExtractReport(t: Tables, rows: seq<Row>, filename: string) returns (text: string)
    requires ValidTables(t) && Readable(rows)
    ensures text == Reply(Extract(t, rows, filename))
  {
    var header := FindHeader(rows);
    if header.None? {
      return HeaderMissingMessage;
    }
    var h := header.value;
    assert HeaderRow(rows) == Some(h) by {
      assert HasMarker(rows[h]);
      HeaderUnique(rows, h, HeaderRow(rows).value);
    }
    text := ReportFromTable(t, TableAt(rows, h), filename);
  }
}
