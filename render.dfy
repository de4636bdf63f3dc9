/** The text of the report (ozon_bot.py:70-100): a title naming the file,
    the revenue, the cost of goods with one branch per product of the cost
    table, the other expenses with one branch per category, the tax, the net
    profit, the number of units sold with one branch per product, the
    average check and the two margins. Inside each block every branch is
    drawn with "├─" except the last, drawn with "└─". */
module Render {
  import opened Strings
  import opened Numbers
  import opened Sheet
  import opened Catalog
  import opened Ledger

  const Indent: string := "   "
  const OpenBranch: string := "├─"
  const LastBranch: string := "└─"

  /** The connector of branch `i` of `n`. */
  function Connector(i: nat, n: nat): string
  {
    if i == n - 1 then LastBranch else OpenBranch
  }

  /** Branch `i` of a block of `n` branches. */
  function Branch(i: nat, n: nat, text: string): string
  {
    Indent + Connector(i, n) + " " + text
  }

  /** `expense_labels.get(key, "▫️ " + key)`. */
  function ExpenseLabel(t: Tables, key: string): (r: string)
    ensures !HasKey(t.labels, key) ==> r == "▫️ " + key
  {
    Get(t.labels, key, "▫️ " + key)
  }

  function Title(filename: string): string
  {
    "📊 Финансовый отчёт на основе: " + filename + "\n"
  }

  /** What the branch of product `sku` says in the cost block. */
  function CostText(t: Tables, s: Summary, sku: string): string
  {
    DisplayName(t, sku) + ": " + FormatRub(Get(s.costBySku, sku, 0.0))
  }

  /** What the branch of product `sku` says in the quantity block. */
  function QtyText(t: Tables, s: Summary, sku: string): string
  {
    DisplayName(t, sku) + ": " + IntToString(Trunc(GroupOf(s.qtyBySku, Text(sku)))) + " шт."
  }

  /** What the branch of expense category `i` says. */
  function ExpenseText(t: Tables, s: Summary, i: nat): string
    requires i < |s.expenses|
  {
    ExpenseLabel(t, s.expenses[i].0) + ": " + FormatRub(s.expenses[i].1)
  }

  /** A block of branches, one per text, the last one closed. */
  function Block(texts: seq<string>): seq<string>
  {
    seq(|texts|, i requires 0 <= i < |texts| => Branch(i, |texts|, texts[i]))
  }

  /** The texts of the cost branches, in the order of the cost table. */
  function CostTexts(t: Tables, s: Summary): (r: seq<string>)
    ensures |r| == |t.costs|
  {
    seq(|t.costs|, i requires 0 <= i < |t.costs| => CostText(t, s, t.costs[i].0))
  }

  /** The texts of the quantity branches, in the order of the cost table. */
  function QtyTexts(t: Tables, s: Summary): (r: seq<string>)
    ensures |r| == |t.costs|
  {
    seq(|t.costs|, i requires 0 <= i < |t.costs| => QtyText(t, s, t.costs[i].0))
  }

  /** The texts of the expense branches, in the order of the categories. */
  function ExpenseTexts(t: Tables, s: Summary): (r: seq<string>)
    ensures |r| == |s.expenses|
  {
    seq(|s.expenses|, i requires 0 <= i < |s.expenses| => ExpenseText(t, s, i))
  }

  function CostBlock(t: Tables, s: Summary): seq<string>
  {
    Block(CostTexts(t, s))
  }

  function QtyBlock(t: Tables, s: Summary): seq<string>
  {
    Block(QtyTexts(t, s))
  }

  function ExpenseBlock(t: Tables, s: Summary): seq<string>
  {
    Block(ExpenseTexts(t, s))
  }

  function Head(s: Summary, filename: string): seq<string>
  {
    [Title(filename),
     "💰 Общая выручка: " + FormatRub(s.revenue),
     "🧾 Себестоимость: " + FormatRub(s.totalCost)]
  }

  function ExpenseHead(s: Summary): string
  {
    "\n💸 Прочие расходы: " + FormatRub(s.totalExpenses)
  }

  function Middle(s: Summary): seq<string>
  {
    ["\n📉 Налог по УСН (4%): " + FormatRub(s.tax),
     "\n🟢 Чистая прибыль: " + FormatRub(s.netProfit) + "\n",
     "🧮 Количество продаж: " + IntToString(Trunc(s.totalQty)) + " шт."]
  }

  function Tail(s: Summary): seq<string>
  {
    ["\n💳 Средний чек: " + FormatRub(s.avgCheck),
     "📈 Валовая маржа: " + FormatPercent(s.grossMargin),
     "📊 Чистая маржа: " + FormatPercent(s.netMargin)]
  }

  /** The lines of the report, section by section. */
  function ReportLines(t: Tables, s: Summary, filename: string): seq<string>
  {
    Head(s, filename) + CostBlock(t, s) + [ExpenseHead(s)] + ExpenseBlock(t, s)
    + Middle(s) + QtyBlock(t, s) + Tail(s)
  }

  /** Only the last branch of a block is drawn closed. */
  lemma ConnectorClosesLast(i: nat, n: nat)
    requires i < n
    ensures Connector(i, n) == LastBranch <==> i == n - 1
    ensures Connector(i, n) == OpenBranch <==> i < n - 1
  {
  }

  /** The report has three heading lines, a cost block of one line per
      product of the cost table, the expense heading, one line per expense
      category, three summary lines, a quantity block of one line per
      product, and three closing lines. */
  lemma ReportLength(t: Tables, s: Summary, filename: string)
    ensures |ReportLines(t, s, filename)| == 10 + 2 * |t.costs| + |s.expenses|
    ensures ReportLines(t, s, filename)[..3] == Head(s, filename)
    ensures ReportLines(t, s, filename)[3 + |t.costs|] == ExpenseHead(s)
  {
    Sections(Head(s, filename), CostBlock(t, s), ExpenseHead(s), ExpenseBlock(t, s),
             Middle(s), QtyBlock(t, s), Tail(s));
  }

  /** The report is its sections one after the other. */
  lemma ReportSections(t: Tables, s: Summary, filename: string)
    ensures ReportLines(t, s, filename)
            == Head(s, filename) + CostBlock(t, s) + [ExpenseHead(s)] + ExpenseBlock(t, s)
               + Middle(s) + QtyBlock(t, s) + Tail(s)
    ensures |Head(s, filename)| == 3 && |Middle(s)| == 3
    ensures |CostBlock(t, s)| == |QtyBlock(t, s)| == |t.costs|
    ensures |ExpenseBlock(t, s)| == |s.expenses|
  {
  }

  /** The cost block follows the heading lines: line `i` of it is the branch
      of product `i` of the cost table, closed only for the last product. */
  lemma CostLinesAt(t: Tables, s: Summary, filename: string, i: nat)
    requires i < |t.costs|
    ensures ReportLines(t, s, filename)[3 + i] == Branch(i, |t.costs|, CostText(t, s, t.costs[i].0))
  {
    ReportSections(t, s, filename);
    CostSectionLine(ReportLines(t, s, filename), Head(s, filename), CostBlock(t, s), ExpenseHead(s),
             ExpenseBlock(t, s), Middle(s), QtyBlock(t, s), Tail(s), i, 3 + i);
  }

  /** The expense lines follow the expense heading: line `i` of them is the
      branch of category `i`, closed only for the last category. */
  lemma ExpenseLinesAt(t: Tables, s: Summary, filename: string, i: nat)
    requires i < |s.expenses|
    ensures ReportLines(t, s, filename)[4 + |t.costs| + i] == Branch(i, |s.expenses|, ExpenseText(t, s, i))
  {
    ReportSections(t, s, filename);
    ExpenseSectionLine(ReportLines(t, s, filename), Head(s, filename), CostBlock(t, s), ExpenseHead(s),
             ExpenseBlock(t, s), Middle(s), QtyBlock(t, s), Tail(s), i, 4 + |t.costs| + i);
  }

  /** The quantity block follows the three summary lines after the expenses:
      line `i` of it is the branch of product `i` of the cost table, closed
      only for the last product. */
  lemma QtyLinesAt(t: Tables, s: Summary, filename: string, i: nat)
    requires i < |t.costs|
    ensures ReportLines(t, s, filename)[7 + |t.costs| + |s.expenses| + i]
            == Branch(i, |t.costs|, QtyText(t, s, t.costs[i].0))
  {
    ReportSections(t, s, filename);
    QtySectionLine(ReportLines(t, s, filename), Head(s, filename), CostBlock(t, s), ExpenseHead(s),
            ExpenseBlock(t, s), Middle(s), QtyBlock(t, s), Tail(s), i, 7 + |t.costs| + |s.expenses| + i);
  }

  /** Line `i` of the cost section sits at `k`, after the heading lines. */
  lemma CostSectionLine(lines: seq<string>, h: seq<string>, c: seq<string>, x: string, e: seq<string>,
                 mid: seq<string>, q: seq<string>, tl: seq<string>, i: nat, k: nat)
    requires lines == h + c + [x] + e + mid + q + tl
    requires i < |c| && k == |h| + i
    ensures k < |lines| && lines[k] == c[i]
  {
    Sections(h, c, x, e, mid, q, tl);
  }

  /** Line `i` of the expense section sits at `k`, after the heading lines, the
      cost section and the expense heading. */
  lemma ExpenseSectionLine(lines: seq<string>, h: seq<string>, c: seq<string>, x: string, e: seq<string>,
                 mid: seq<string>, q: seq<string>, tl: seq<string>, i: nat, k: nat)
    requires lines == h + c + [x] + e + mid + q + tl
    requires i < |e| && k == |h| + |c| + 1 + i
    ensures k < |lines| && lines[k] == e[i]
  {
    Sections(h, c, x, e, mid, q, tl);
  }

  /** Line `i` of the quantity section sits at `k`, after everything up to and
      including the sales-count lines. */
  lemma QtySectionLine(lines: seq<string>, h: seq<string>, c: seq<string>, x: string, e: seq<string>,
                mid: seq<string>, q: seq<string>, tl: seq<string>, i: nat, k: nat)
    requires lines == h + c + [x] + e + mid + q + tl
    requires i < |q| && k == |h| + |c| + 1 + |e| + |mid| + i
    ensures k < |lines| && lines[k] == q[i]
  {
    Sections(h, c, x, e, mid, q, tl);
  }

  /** The positions of the sections of a report, whatever their lines. */
  lemma Sections(h: seq<string>, c: seq<string>, x: string, e: seq<string>,
                 mid: seq<string>, q: seq<string>, tl: seq<string>)
    ensures var lines := h + c + [x] + e + mid + q + tl;
      var k1, k2 := |h| + |c| + 1 + |e|, |h| + |c| + 1 + |e| + |mid| + |q|;
      && |lines| == k2 + |tl|
      && lines[..|h|] == h
      && (forall i :: 0 <= i < |c| ==> lines[|h| + i] == c[i])
      && lines[|h| + |c|] == x
      && (forall i :: 0 <= i < |e| ==> lines[|h| + |c| + 1 + i] == e[i])
      && lines[k1..k1 + |mid|] == mid
      && (forall i :: 0 <= i < |q| ==> lines[k1 + |mid| + i] == q[i])
      && lines[k2..] == tl
  {
    var a := h + c + [x] + e;
    var b := a + mid + q;
    var lines := b + tl;
    assert lines[..|h|] == h;
    assert lines[|a|..|a| + |mid|] == mid;
    assert lines[|b|..] == tl;
  }

  /** Replacing the open connector by the closing one in an open branch
      closes it and touches nothing else, as long as the text holds no
      connector character. */
  lemma CloseBranch(text: string)
    requires BranchMark !in text
    ensures ReplaceAll(Indent + OpenBranch + " " + text, OpenBranch, LastBranch)
            == Indent + LastBranch + " " + text
  {
    var rest := " " + text;
    var inner := ReplaceAll(OpenBranch + rest, OpenBranch, LastBranch);
    assert inner == LastBranch + rest by {
      assert BranchMark !in rest;
      Untouched(rest);
      ReplaceAllAfterPrefix(rest, OpenBranch, LastBranch);
    }
    assert ReplaceAll(Indent + (OpenBranch + rest), OpenBranch, LastBranch) == Indent + inner by {
      ReplaceAllPad(Indent, OpenBranch + rest, OpenBranch, LastBranch);
    }
    assert Indent + OpenBranch + " " + text == Indent + (OpenBranch + rest);
    assert Indent + LastBranch + " " + text == Indent + (LastBranch + rest);
  }

  /** Characters that cannot start the pattern are copied as they are. */
  lemma {:induction false} ReplaceAllPad(pad: string, s: string, pat: string, rep: string)
    requires pat != [] && pat[0] !in pad
    ensures ReplaceAll(pad + s, pat, rep) == pad + ReplaceAll(s, pat, rep)
    decreases |pad|
  {
    if pad != [] {
      calc {
        ReplaceAll(pad + s, pat, rep);
        { assert pad + s == [pad[0]] + (pad[1..] + s); }
        ReplaceAll([pad[0]] + (pad[1..] + s), pat, rep);
        { ReplaceAllSkip(pad[0], pad[1..] + s, pat, rep); }
        [pad[0]] + ReplaceAll(pad[1..] + s, pat, rep);
        { ReplaceAllPad(pad[1..], s, pat, rep); }
        [pad[0]] + (pad[1..] + ReplaceAll(s, pat, rep));
        { assert pad == [pad[0]] + pad[1..]; }
        pad + ReplaceAll(s, pat, rep);
      }
    } else {
      assert pad + s == s;
    }
  }

  /** A character that cannot start the pattern is copied as is. */
  lemma ReplaceAllSkip(c: char, s: string, pat: string, rep: string)
    requires pat != [] && c != pat[0]
    ensures ReplaceAll([c] + s, pat, rep) == [c] + ReplaceAll(s, pat, rep)
  {
    assert ([c] + s)[1..] == s;
  }

  /** A line without a connector character is left alone by the replacement. */
  lemma Untouched(line: string)
    requires BranchMark !in line
    ensures ReplaceAll(line, OpenBranch, LastBranch) == line
  {
    NotContainsHead(line, OpenBranch);
  }

  /** Money and counts are printed without connector characters. */
  lemma NumbersUnmarked(x: real, n: int)
    ensures BranchMark !in FormatRub(x)
    ensures BranchMark !in IntToString(n)
  {
    FormatRubChars(x);
    IntToStringChars(n);
  }

  /** The line the cost block follows holds no connector character. */
  lemma CostHeadUnmarked(s: Summary, filename: string)
    ensures BranchMark !in Head(s, filename)[2]
  {
    NumbersUnmarked(s.totalCost, 0);
    UnmarkedConcat("🧾 Себестоимость: ", FormatRub(s.totalCost));
  }

  /** The line the quantity block follows holds no connector character. */
  lemma CountLineUnmarked(s: Summary)
    ensures BranchMark !in Middle(s)[2]
  {
    NumbersUnmarked(0.0, Trunc(s.totalQty));
    UnmarkedConcat("🧮 Количество продаж: ", IntToString(Trunc(s.totalQty)));
    UnmarkedConcat("🧮 Количество продаж: " + IntToString(Trunc(s.totalQty)), " шт.");
  }

  /** Two texts without connector characters make one without them. */
  lemma UnmarkedConcat(a: string, b: string)
    requires BranchMark !in a && BranchMark !in b
    ensures BranchMark !in a + b
  {
  }

  /** The last line of two concatenated parts is the last line of the second. */
  lemma LastOf(a: seq<string>, b: seq<string>)
    requires b != []
    ensures (a + b)[|a + b| - 1] == b[|b| - 1]
  {
  }

  /** The text of a product branch holds no connector character. */
  lemma ProductTextsUnmarked(t: Tables, s: Summary, i: nat)
    requires ValidTables(t) && i < |t.costs|
    ensures BranchMark !in CostText(t, s, t.costs[i].0)
    ensures BranchMark !in QtyText(t, s, t.costs[i].0)
  {
    var sku := t.costs[i].0;
    DisplayNameUnmarked(t, sku);
    NumbersUnmarked(Get(s.costBySku, sku, 0.0), Trunc(GroupOf(s.qtyBySku, Text(sku))));
  }

  /** Branches `0..i` of a block of open branches. */
  function OpenLines(texts: seq<string>, i: nat): seq<string>
    requires i <= |texts|
  {
    seq(i, j requires 0 <= j < i <= |texts| => Indent + OpenBranch + " " + texts[j])
  }

  /** Closing the last of a block of open branches gives the block with its
      connectors; an empty block leaves the line before it alone. */
  lemma CloseBlock(before: seq<string>, texts: seq<string>)
    requires before != []
    requires BranchMark !in before[|before| - 1]
    requires forall j :: 0 <= j < |texts| ==> BranchMark !in texts[j]
    ensures var lines := before + OpenLines(texts, |texts|);
      lines[|lines| - 1 := ReplaceAll(lines[|lines| - 1], OpenBranch, LastBranch)]
      == before + Block(texts)
  {
    var n := |texts|;
    var lines := before + OpenLines(texts, n);
    var closed := Block(texts);
    if n == 0 {
      Untouched(before[|before| - 1]);
      assert lines == before;
    } else {
      CloseBranch(texts[n - 1]);
      var r := lines[|lines| - 1 := ReplaceAll(lines[|lines| - 1], OpenBranch, LastBranch)];
      forall j | 0 <= j < |r| ensures r[j] == (before + closed)[j] {
        if j >= |before| {
          assert r[j] == Branch(j - |before|, n, texts[j - |before|]);
        }
      }
    }
  }

  /** Appending one more open branch extends the open block by that branch. */
  lemma OpenLinesStep(head: seq<string>, texts: seq<string>, i: nat, lines: seq<string>, text: string)
    requires i < |texts| && lines == head + OpenLines(texts, i) && text == texts[i]
    ensures lines + [Indent + OpenBranch + " " + text] == head + OpenLines(texts, i + 1)
  {
    assert OpenLines(texts, i + 1) == OpenLines(texts, i) + [Indent + OpenBranch + " " + texts[i]];
  }

  /** Closing the open cost branches gives the cost block. */
  lemma CostBlockClosed(t: Tables, s: Summary, head: seq<string>)
    requires ValidTables(t)
    requires head != [] && BranchMark !in head[|head| - 1]
    ensures var lines := head + OpenLines(CostTexts(t, s), |t.costs|);
      lines[|lines| - 1 := ReplaceAll(lines[|lines| - 1], OpenBranch, LastBranch)]
      == head + CostBlock(t, s)
  {
    var texts := CostTexts(t, s);
    forall i | 0 <= i < |texts| ensures BranchMark !in texts[i] {
      ProductTextsUnmarked(t, s, i);
    }
    CloseBlock(head, texts);
  }

  /** Closing the open quantity branches gives the quantity block. */
  lemma QtyBlockClosed(t: Tables, s: Summary, head: seq<string>)
    requires ValidTables(t)
    requires head != [] && BranchMark !in head[|head| - 1]
    ensures var lines := head + OpenLines(QtyTexts(t, s), |t.costs|);
      lines[|lines| - 1 := ReplaceAll(lines[|lines| - 1], OpenBranch, LastBranch)]
      == head + QtyBlock(t, s)
  {
    var texts := QtyTexts(t, s);
    forall i | 0 <= i < |texts| ensures BranchMark !in texts[i] {
      ProductTextsUnmarked(t, s, i);
    }
    CloseBlock(head, texts);
  }

  /** Appends the cost block: every product branch open, then the
      connector of the last line rewritten (ozon_bot.py:74-77). */
  method AppendCostBlock(t: Tables, s: Summary, head: seq<string>) returns (lines: seq<string>)
    requires ValidTables(t)
    requires head != [] && BranchMark !in head[|head| - 1]
    ensures lines == head + CostBlock(t, s)
  {
    lines := head;
    for i := 0 to |t.costs|
      invariant lines == head + OpenLines(CostTexts(t, s), i)
    {
      var sku := t.costs[i].0;
      var skuName := DisplayName(t, sku);
      var text := skuName + ": " + FormatRub(Get(s.costBySku, sku, 0.0));
      OpenLinesStep(head, CostTexts(t, s), i, lines, text);
      lines := lines + [Indent + OpenBranch + " " + text];
    }
    CostBlockClosed(t, s, head);
    lines := lines[|lines| - 1 := ReplaceAll(lines[|lines| - 1], OpenBranch, LastBranch)];
  }

  /** Appends the quantity block the same way (ozon_bot.py:91-94). */
  method AppendQtyBlock(t: Tables, s: Summary, head: seq<string>) returns (lines: seq<string>)
    requires ValidTables(t)
    requires head != [] && BranchMark !in head[|head| - 1]
    ensures lines == head + QtyBlock(t, s)
  {
    lines := head;
    for i := 0 to |t.costs|
      invariant lines == head + OpenLines(QtyTexts(t, s), i)
    {
      var sku := t.costs[i].0;
      var skuName := DisplayName(t, sku);
      var text := skuName + ": " + IntToString(Trunc(GroupOf(s.qtyBySku, Text(sku)))) + " шт.";
      OpenLinesStep(head, QtyTexts(t, s), i, lines, text);
      lines := lines + [Indent + OpenBranch + " " + text];
    }
    QtyBlockClosed(t, s, head);
    lines := lines[|lines| - 1 := ReplaceAll(lines[|lines| - 1], OpenBranch, LastBranch)];
  }

  /** The line the expense loop appends for category `i` is branch `i` of
      the expense block. */
  lemma ExpenseLine(t: Tables, s: Summary, i: nat, prefix: string, text: string)
    requires i < |s.expenses|
    requires prefix == if i == |s.expenses| - 1 then "└─" else "├─"
    requires text == Get(t.labels, s.expenses[i].0, "▫️ " + s.expenses[i].0) + ": " + FormatRub(s.expenses[i].1)
    ensures Indent + prefix + " " + text == ExpenseBlock(t, s)[i]
  {
  }

  /** A prefix one longer is the shorter prefix and the next element. */
  lemma PrefixStep(xs: seq<string>, i: nat)
    requires i < |xs|
    ensures xs[..i + 1] == xs[..i] + [xs[i]]
  {
  }

  /** Appends the expense heading and one branch per category, the last one
      closed (ozon_bot.py:79-84). */
  method AppendExpenseBlock(t: Tables, s: Summary, head: seq<string>) returns (lines: seq<string>)
    ensures lines == head + [ExpenseHead(s)] + ExpenseBlock(t, s)
  {
    lines := head + ["\n💸 Прочие расходы: " + FormatRub(s.totalExpenses)];
    var keys := seq(|s.expenses|, i requires 0 <= i < |s.expenses| => s.expenses[i].0);
    ghost var upper := lines;
    for i := 0 to |keys|
      invariant lines == upper + ExpenseBlock(t, s)[..i]
    {
      var key := keys[i];
      var caption := Get(t.labels, key, "▫️ " + key);
      var prefix := if i == |keys| - 1 then "└─" else "├─";
      var text := caption + ": " + FormatRub(s.expenses[i].1);
      ExpenseLine(t, s, i, prefix, text);
      PrefixStep(ExpenseBlock(t, s), i);
      lines := lines + [Indent + prefix + " " + text];
    }
    assert ExpenseBlock(t, s)[..|keys|] == ExpenseBlock(t, s);
  }

  /** Builds the report line by line as the source does. */
  method RenderLines(t: Tables, s: Summary, filename: string) returns (lines: seq<string>)
    requires ValidTables(t)
    ensures lines == ReportLines(t, s, filename)
  {
    var head := [Title(filename)];
    head := head + ["💰 Общая выручка: " + FormatRub(s.revenue)];
    head := head + ["🧾 Себестоимость: " + FormatRub(s.totalCost)];
    assert head == Head(s, filename);
    CostHeadUnmarked(s, filename);
    var costs := AppendCostBlock(t, s, head);
    var expenses := AppendExpenseBlock(t, s, costs);
    var middle := [
      "\n📉 Налог по УСН (4%): " + FormatRub(s.tax),
      "\n🟢 Чистая прибыль: " + FormatRub(s.netProfit) + "\n",
      "🧮 Количество продаж: " + IntToString(Trunc(s.totalQty)) + " шт."
    ];
    assert middle == Middle(s);
    CountLineUnmarked(s);
    LastOf(expenses, middle);
    var quantities := AppendQtyBlock(t, s, expenses + middle);
    var tail := [
      "\n💳 Средний чек: " + FormatRub(s.avgCheck),
      "📈 Валовая маржа: " + FormatPercent(s.grossMargin),
      "📊 Чистая маржа: " + FormatPercent(s.netMargin)
    ];
    assert tail == Tail(s);
    lines := quantities + tail;
  }
}
