/** The accounting of the report (ozon_bot.py:42-68): the records of the
    table, their classification into revenue, excluded loyalty points and
    expenses, the per-product quantities and costs, the per-category
    expenses, and the derived metrics. */
module Ledger {
  import opened Strings
  import opened Numbers
  import opened Sheet
  import opened Catalog

  /** One data row once its columns are known: the accounting type, the
      product cell, and the three coerced numbers. */
  datatype Record = Record(typ: string, sku: Cell, qty: real, price: real, total: real)

  /** The record of a data row. */
  function RecordOf(row: Row, cols: Columns): (r: Record)
    requires CellAt(row, cols.typ).Text?
    ensures Text(r.typ) == CellAt(row, cols.typ) && r.sku == CellAt(row, cols.sku)
  {
    Record(CellAt(row, cols.typ).s, CellAt(row, cols.sku),
           ToNumber(CellAt(row, cols.qty)), ToNumber(CellAt(row, cols.price)),
           ToNumber(CellAt(row, cols.total)))
  }

  /** The records of all data rows, one per row, in sheet order. The second
      ensures only names the record each position holds, for the lemmas
      that use it; what a record holds for a row of the table is
      `TableRecords`. */
  function Records(rows: seq<Row>, cols: Columns): (rs: seq<Record>)
    requires AllText(rows, cols.typ)
    ensures |rs| == |rows|
    ensures forall i :: 0 <= i < |rows| ==> rs[i] == RecordOf(rows[i], cols)
  {
    seq(|rows|, i requires 0 <= i < |rows| && AllText(rows, cols.typ) => RecordOf(rows[i], cols))
  }

  const BlankType: string := " "
  const RevenueType: string := "выручка"
  const PointsMark: string := "баллы"

  /** The rows kept by the first filter: lower-cased type other than a single space. */
  predicate Kept(r: Record)
  {
    Lower(r.typ) != BlankType
  }

  /** A revenue row: lower-cased type equal to "выручка". */
  predicate IsSale(r: Record)
  {
    Lower(r.typ) == RevenueType
  }

  /** An expense row: lower-cased type not in ["выручка"] and not containing "баллы". */
  predicate IsExpense(r: Record)
  {
    Lower(r.typ) !in [RevenueType] && !Contains(Lower(r.typ), PointsMark)
  }

  /** Lower-casing never produces a space from anything but a space. */
  lemma LowerCharSpace(c: char)
    ensures LowerChar(c) == ' ' <==> c == ' '
  {
  }

  /** The first filter drops exactly the rows whose type is a single space. */
  lemma KeptIff(r: Record)
    ensures Kept(r) <==> r.typ != BlankType
  {
    if |r.typ| == 1 {
      LowerCharSpace(r.typ[0]);
      assert Lower(r.typ) == [LowerChar(r.typ[0])];
    }
  }

  /** The three kinds of accounting row. */
  datatype Bucket = Revenue | Excluded | Expense

  /** The classification the three filters implement together. */
  function Classify(r: Record): (b: Bucket)
    ensures b == Revenue <==> Lower(r.typ) == RevenueType
    ensures b == Excluded <==> Lower(r.typ) != RevenueType && Contains(Lower(r.typ), PointsMark)
  {
    var t := Lower(r.typ);
    if t == RevenueType then Revenue
    else if Contains(t, PointsMark) then Excluded
    else Expense
  }

  /** Every row is in exactly one bucket: the revenue filter and the expense
      filters select the revenue and expense buckets. */
  lemma ClassifyAgrees(r: Record)
    ensures IsSale(r) <==> Classify(r) == Revenue
    ensures IsExpense(r) <==> Classify(r) == Expense
    ensures !IsSale(r) || !IsExpense(r)
  {
  }

  /** The records of `s` satisfying `p`, in order. */
  function Filter(s: seq<Record>, p: Record -> bool): (r: seq<Record>)
    ensures |r| <= |s|
    ensures forall x :: x in r <==> x in s && p(x)
  {
    if s == [] then [] else (if p(s[0]) then [s[0]] else []) + Filter(s[1..], p)
  }

  /** Filtering distributes over concatenation. */
  lemma {:induction false} FilterConcat(s: seq<Record>, t: seq<Record>, p: Record -> bool)
    ensures Filter(s + t, p) == Filter(s, p) + Filter(t, p)
    decreases |s|
  {
    if s == [] {
      assert s + t == t;
    } else {
      assert (s + t)[1..] == s[1..] + t;
      FilterConcat(s[1..], t, p);
    }
  }

  /** `df[df["Тип начисления"].str.lower() != " "]`. */
  function KeptRows(rs: seq<Record>): seq<Record>
  {
    Filter(rs, Kept)
  }

  /** The revenue rows (ozon_bot.py:47). */
  function Sales(rs: seq<Record>): seq<Record>
  {
    Filter(rs, IsSale)
  }

  /** The expense rows (ozon_bot.py:58-59). */
  function ExpenseRows(rs: seq<Record>): seq<Record>
  {
    Filter(rs, IsExpense)
  }

  /** Revenue, excluded and expense rows together are all the rows. */
  lemma {:induction false} Partition(rs: seq<Record>)
    ensures |Sales(rs)| + |ExpenseRows(rs)| + |Filter(rs, (r: Record) => Classify(r) == Excluded)| == |rs|
    decreases |rs|
  {
    if rs != [] {
      Partition(rs[1..]);
      ClassifyAgrees(rs[0]);
    }
  }

  /** The sum of the values of a list of pairs. */
  function SumValues<K>(d: seq<(K, real)>): real
  {
    if d == [] then 0.0 else SumValues(d[..|d| - 1]) + d[|d| - 1].1
  }

  /** `sales["Количество"] * sales["Цена продавца"]` for one row. */
  function Amount(r: Record): real
  {
    r.qty * r.price
  }

  function SumAmounts(rs: seq<Record>): real
  {
    if rs == [] then 0.0 else SumAmounts(rs[..|rs| - 1]) + Amount(rs[|rs| - 1])
  }

  /** `total_revenue`: the amount of every revenue row. */
  function TotalRevenue(rs: seq<Record>): real
  {
    SumAmounts(Sales(rs))
  }

  /** The amount each row contributes to revenue: its own for a revenue row,
      nothing otherwise. */
  function RevenueShare(rs: seq<Record>): real
  {
    if rs == [] then 0.0
    else RevenueShare(rs[..|rs| - 1]) + (if IsSale(rs[|rs| - 1]) then Amount(rs[|rs| - 1]) else 0.0)
  }

  /** Revenue comes from revenue rows only, each counted once. */
  lemma {:induction false} TotalRevenueShare(rs: seq<Record>)
    ensures TotalRevenue(rs) == RevenueShare(rs)
    decreases |rs|
  {
    if rs != [] {
      var init, last := rs[..|rs| - 1], rs[|rs| - 1];
      assert rs == init + [last];
      FilterConcat(init, [last], IsSale);
      FilterOne(last, IsSale);
      TotalRevenueShare(init);
      SumAmountsAppend(Sales(init), if IsSale(last) then [last] else []);
    }
  }

  /** Filtering one row keeps it exactly when it passes. */
  lemma FilterOne(r: Record, p: Record -> bool)
    ensures Filter([r], p) == if p(r) then [r] else []
  {
    assert [r][1..] == [];
  }

  /** Appending no row or one row to a list adds its amount to the sum. */
  lemma SumAmountsAppend(s: seq<Record>, tail: seq<Record>)
    requires |tail| <= 1
    ensures SumAmounts(s + tail) == SumAmounts(s) + (if tail == [] then 0.0 else Amount(tail[0]))
  {
    if tail == [] {
      assert s + tail == s;
    } else {
      assert (s + tail)[..|s|] == s;
    }
  }

  /** The quantities grouped by product cell, in first-seen order:
      `sales.groupby(sku_column)["Количество"].sum()`. */
  type Groups = seq<(Cell, real)>

  /** The group of `key`, or 0 when there is none (`.get(key, 0)`). */
  function GroupOf(g: Groups, key: Cell): real
  {
    if g == [] then 0.0 else if g[0].0 == key then g[0].1 else GroupOf(g[1..], key)
  }

  /** Adds `q` to the group of `key`, opening a group at the end when there is none. */
  function AddQty(g: Groups, key: Cell, q: real): (r: Groups)
    ensures forall i :: 0 <= i < |r| ==> r[i].0 == key || exists j :: 0 <= j < |g| && g[j].0 == r[i].0
  {
    if g == [] then [(key, q)]
    else if g[0].0 == key then [(key, g[0].1 + q)] + g[1..]
    else [g[0]] + AddQty(g[1..], key, q)
  }

  /** Adding to one group changes that group's total by `q` and no other. */
  lemma {:induction false} AddQtyGroup(g: Groups, key: Cell, q: real, other: Cell)
    ensures GroupOf(AddQty(g, key, q), other) == GroupOf(g, other) + (if other == key then q else 0.0)
    decreases |g|
  {
    if g != [] && g[0].0 != key {
      AddQtyGroup(g[1..], key, q, other);
      assert AddQty(g, key, q)[1..] == AddQty(g[1..], key, q);
    } else if g != [] {
      assert AddQty(g, key, q)[1..] == g[1..];
    }
  }

  /** Adding to one group raises the sum of all groups by `q`. */
  lemma {:induction false} AddQtySum(g: Groups, key: Cell, q: real)
    ensures SumValues(AddQty(g, key, q)) == SumValues(g) + q
    decreases |g|
  {
    if g == [] {
      assert SumValues([(key, q)]) == SumValues<Cell>([]) + q;
    } else {
      var a := AddQty(g, key, q);
      if g[0].0 == key {
        SumFirst(g);
        SumFirst(a);
        assert a[1..] == g[1..];
      } else {
        AddQtySum(g[1..], key, q);
        SumFirst(g);
        SumFirst(a);
        assert a[1..] == AddQty(g[1..], key, q);
      }
    }
  }

  /** The sum of a list is its first value plus the sum of the rest. */
  lemma {:induction false} SumFirst<K>(d: seq<(K, real)>)
    requires d != []
    ensures SumValues(d) == d[0].1 + SumValues(d[1..])
    decreases |d|
  {
    if |d| > 1 {
      var init := d[..|d| - 1];
      SumFirst(init);
      assert init[1..] == d[1..][..|d[1..]| - 1];
      assert init[0] == d[0];
    } else {
      assert d[..0] == [];
      assert d[1..] == [];
    }
  }

  /** The groups of a list of revenue rows; rows with an empty product cell
      fall out of the grouping. */
  function GroupQty(sales: seq<Record>): Groups
  {
    if sales == [] then []
    else
      var g, r := GroupQty(sales[..|sales| - 1]), sales[|sales| - 1];
      if r.sku.Blank? then g else AddQty(g, r.sku, r.qty)
  }

  /** The quantity of the rows of `sales` whose product cell is `key`. */
  function SkuQty(sales: seq<Record>, key: Cell): real
  {
    if sales == [] then 0.0
    else SkuQty(sales[..|sales| - 1], key) + (if sales[|sales| - 1].sku == key then sales[|sales| - 1].qty else 0.0)
  }

  /** The quantity of the rows of `sales` that have a product cell. */
  function ProductQty(sales: seq<Record>): real
  {
    if sales == [] then 0.0
    else ProductQty(sales[..|sales| - 1]) + (if sales[|sales| - 1].sku.Blank? then 0.0 else sales[|sales| - 1].qty)
  }

  /** The group of a product holds the quantity of exactly its rows. */
  lemma {:induction false} GroupQtyOf(sales: seq<Record>, key: Cell)
    requires !key.Blank?
    ensures GroupOf(GroupQty(sales), key) == SkuQty(sales, key)
    decreases |sales|
  {
    if sales != [] {
      var init, r := sales[..|sales| - 1], sales[|sales| - 1];
      GroupQtyOf(init, key);
      if !r.sku.Blank? {
        AddQtyGroup(GroupQty(init), r.sku, r.qty, key);
      }
    }
  }

  /** The groups together hold the quantity of every row with a product cell. */
  lemma {:induction false} GroupQtySum(sales: seq<Record>)
    ensures SumValues(GroupQty(sales)) == ProductQty(sales)
    decreases |sales|
  {
    if sales != [] {
      var init, r := sales[..|sales| - 1], sales[|sales| - 1];
      GroupQtySum(init);
      if !r.sku.Blank? {
        AddQtySum(GroupQty(init), r.sku, r.qty);
      }
    }
  }

  /** `cost_by_sku`: for each product of the cost table, in table order, its
      grouped quantity times its unit cost. */
  function CostBySku(costs: Dict<real>, g: Groups): (r: Dict<real>)
    ensures |r| == |costs|
    ensures forall i :: 0 <= i < |costs| ==> r[i].0 == costs[i].0
  {
    seq(|costs|, i requires 0 <= i < |costs| => (costs[i].0, GroupOf(g, Text(costs[i].0)) * costs[i].1))
  }

  /** Each product's cost is the quantity of its own revenue rows times its
      unit cost. */
  lemma CostOfProduct(costs: Dict<real>, sales: seq<Record>, i: nat)
    requires i < |costs|
    ensures CostBySku(costs, GroupQty(sales))[i].1 == SkuQty(sales, Text(costs[i].0)) * costs[i].1
  {
    GroupQtyOf(sales, Text(costs[i].0));
  }

  /** The quantity of a product changes only with rows of that product. */
  lemma SkuQtyAppend(sales: seq<Record>, r: Record, key: Cell)
    requires r.sku != key
    ensures SkuQty(sales + [r], key) == SkuQty(sales, key)
  {
    assert (sales + [r])[..|sales|] == sales;
  }

  /** A revenue row for a product missing from the cost table adds nothing
      to any product's cost. */
  lemma UnknownProductNoCost(costs: Dict<real>, sales: seq<Record>, r: Record)
    requires forall i :: 0 <= i < |costs| ==> r.sku != Text(costs[i].0)
    ensures CostBySku(costs, GroupQty(sales + [r])) == CostBySku(costs, GroupQty(sales))
  {
    forall i | 0 <= i < |costs|
      ensures CostBySku(costs, GroupQty(sales + [r]))[i] == CostBySku(costs, GroupQty(sales))[i]
    {
      OtherProductCost(costs, sales, r, i);
    }
  }

  /** A revenue row of another product leaves the cost of product `i` alone. */
  lemma OtherProductCost(costs: Dict<real>, sales: seq<Record>, r: Record, i: nat)
    requires i < |costs| && r.sku != Text(costs[i].0)
    ensures CostBySku(costs, GroupQty(sales + [r]))[i] == CostBySku(costs, GroupQty(sales))[i]
  {
    CostOfProduct(costs, sales + [r], i);
    CostOfProduct(costs, sales, i);
    SkuQtyAppend(sales, r, Text(costs[i].0));
    var a, b := CostBySku(costs, GroupQty(sales + [r]))[i], CostBySku(costs, GroupQty(sales))[i];
    assert a.0 == b.0 && a.1 == b.1;
  }

  /** Python's `<` on strings: code point by code point, a proper prefix first. */
  predicate Below(a: string, b: string)
  {
    if a == [] then b != []
    else if b == [] then false
    else if a[0] != b[0] then a[0] < b[0]
    else Below(a[1..], b[1..])
  }

  lemma {:induction false} BelowIrreflexive(a: string)
    ensures !Below(a, a)
    decreases |a|
  {
    if a != [] {
      BelowIrreflexive(a[1..]);
    }
  }

  lemma {:induction false} BelowTransitive(a: string, b: string, c: string)
    requires Below(a, b) && Below(b, c)
    ensures Below(a, c)
    decreases |a|
  {
    if a != [] && b != [] && c != [] && a[0] == b[0] && b[0] == c[0] {
      BelowTransitive(a[1..], b[1..], c[1..]);
    }
  }

  lemma {:induction false} BelowTotal(a: string, b: string)
    requires a != b
    ensures Below(a, b) || Below(b, a)
    decreases |a|
  {
    if a != [] && b != [] && a[0] == b[0] {
      assert a == [a[0]] + a[1..] && b == [b[0]] + b[1..];
      BelowTotal(a[1..], b[1..]);
    }
  }

  /** Strictly increasing, hence without repetition. */
  predicate StrictlySorted(keys: seq<string>)
  {
    forall i, j :: 0 <= i < j < |keys| ==> Below(keys[i], keys[j])
  }

  /** Adds `k` to a sorted list of keys, at its place, unless it is there already. */
  function Insert(keys: seq<string>, k: string): (r: seq<string>)
    requires StrictlySorted(keys)
    ensures StrictlySorted(r)
    ensures forall x :: x in r <==> x in keys || x == k
    decreases |keys|
  {
    if keys == [] then [k]
    else if keys[0] == k then keys
    else if Below(k, keys[0]) then
      assert StrictlySorted([k] + keys) by {
        forall j | 0 < j < |keys| + 1 ensures Below(k, ([k] + keys)[j]) {
          if j > 1 {
            BelowTransitive(k, keys[0], keys[j - 1]);
          }
        }
      }
      [k] + keys
    else
      BelowTotal(k, keys[0]);
      var rest := Insert(keys[1..], k);
      assert forall x :: x in rest ==> Below(keys[0], x) by {
        forall x | x in rest ensures Below(keys[0], x) {
          if x != k {
            var j :| 0 <= j < |keys[1..]| && keys[1..][j] == x;
            assert keys[j + 1] == x;
          }
        }
      }
      assert StrictlySorted([keys[0]] + rest) by {
        forall i, j | 0 <= i < j < |rest| + 1 ensures Below(([keys[0]] + rest)[i], ([keys[0]] + rest)[j]) {
          if i == 0 {
            assert rest[j - 1] in rest;
          }
        }
      }
      [keys[0]] + rest
  }

  /** Some row of `rs` has type `k`. */
  predicate HasType(rs: seq<Record>, k: string)
  {
    exists i :: 0 <= i < |rs| && rs[i].typ == k
  }

  /** The types of a list are those of all but its last row, and the last one's. */
  lemma HasTypeLast(rs: seq<Record>, k: string)
    requires rs != []
    ensures HasType(rs, k) <==> HasType(rs[..|rs| - 1], k) || rs[|rs| - 1].typ == k
  {
    var init := rs[..|rs| - 1];
    if HasType(rs, k) && rs[|rs| - 1].typ != k {
      var i :| 0 <= i < |rs| && rs[i].typ == k;
      assert init[i].typ == k;
    }
    if HasType(init, k) {
      var i :| 0 <= i < |init| && init[i].typ == k;
      assert rs[i].typ == k;
    }
  }

  /** The distinct types of `rs` in ascending order: the keys of
      `groupby("Тип начисления")`, which sorts them. */
  function TypeKeys(rs: seq<Record>): (keys: seq<string>)
    ensures StrictlySorted(keys)
    ensures forall k :: k in keys <==> HasType(rs, k)
  {
    if rs == [] then []
    else
      var keys := Insert(TypeKeys(rs[..|rs| - 1]), rs[|rs| - 1].typ);
      assert forall k :: HasType(rs, k) <==> HasType(rs[..|rs| - 1], k) || rs[|rs| - 1].typ == k by {
        forall k ensures HasType(rs, k) <==> HasType(rs[..|rs| - 1], k) || rs[|rs| - 1].typ == k {
          HasTypeLast(rs, k);
        }
      }
      keys
  }

  /** The sum of the `Сумма итого, руб` amounts of the rows of type `k`. */
  function TypeTotal(rs: seq<Record>, k: string): real
  {
    if rs == [] then 0.0
    else TypeTotal(rs[..|rs| - 1], k) + (if rs[|rs| - 1].typ == k then rs[|rs| - 1].total else 0.0)
  }

  /** `expenses_sum`: for each expense type, in ascending order, the absolute
      value of its summed amounts. */
  function ExpenseSums(rs: seq<Record>): (d: Dict<real>)
    ensures |d| == |TypeKeys(rs)|
    ensures forall i :: 0 <= i < |d| ==> d[i].0 == TypeKeys(rs)[i] && d[i].1 >= 0.0
    ensures forall i :: 0 <= i < |d| ==> d[i].1 == Abs(TypeTotal(rs, d[i].0))
  {
    var keys := TypeKeys(rs);
    seq(|keys|, i requires 0 <= i < |keys| => (keys[i], Abs(TypeTotal(rs, keys[i]))))
  }

  /** No category occurs twice, since the keys are strictly ascending. */
  lemma ExpenseKeysDistinct(rs: seq<Record>)
    ensures DistinctKeys(ExpenseSums(rs))
  {
    var d := ExpenseSums(rs);
    forall i, j | 0 <= i < j < |d| ensures d[i].0 != d[j].0 {
      if d[i].0 == d[j].0 {
        BelowIrreflexive(d[i].0);
      }
    }
  }

  /** The amount of a row's type grows by that row's amount; other types keep theirs. */
  lemma TypeTotalAppend(rs: seq<Record>, r: Record, k: string)
    ensures TypeTotal(rs + [r], k) == TypeTotal(rs, k) + (if r.typ == k then r.total else 0.0)
  {
    assert (rs + [r])[..|rs|] == rs;
  }

  /** `expenses_sum.get(k, 0)`: the absolute value of the summed amounts of
      the rows of type `k`, or 0 when no row has that type. */
  lemma ExpenseSumsGet(rs: seq<Record>, k: string)
    ensures Get(ExpenseSums(rs), k, 0.0) == if HasType(rs, k) then Abs(TypeTotal(rs, k)) else 0.0
  {
    var d := ExpenseSums(rs);
    if HasType(rs, k) {
      var i :| 0 <= i < |TypeKeys(rs)| && TypeKeys(rs)[i] == k;
      ExpenseKeysDistinct(rs);
      GetAt(d, i, 0.0);
    }
  }

  /** One more expense row puts its amount into its own category, which
      then holds the absolute value of its new sum, and leaves every other
      category as it was. */
  lemma ExpenseSumsAppend(rs: seq<Record>, r: Record, k: string)
    ensures Get(ExpenseSums(rs + [r]), k, 0.0)
            == if k == r.typ then Abs(TypeTotal(rs, k) + r.total) else Get(ExpenseSums(rs), k, 0.0)
  {
    var rs' := rs + [r];
    assert rs'[..|rs|] == rs;
    HasTypeLast(rs', k);
    TypeTotalAppend(rs, r, k);
    ExpenseSumsGet(rs', k);
    if k != r.typ {
      ExpenseSumsGet(rs, k);
    }
  }

  /** A sum of non-negative values is non-negative. */
  lemma {:induction false} SumNonNegative(d: Dict<real>)
    requires forall i :: 0 <= i < |d| ==> d[i].1 >= 0.0
    ensures SumValues(d) >= 0.0
    decreases |d|
  {
    if d != [] {
      SumNonNegative(d[..|d| - 1]);
    }
  }

  /** Every expense category holds a non-negative total, its key is an
      expense type of the rows, the keys are strictly ascending, and the
      categories together are non-negative. */
  lemma ExpenseSumsShape(rs: seq<Record>)
    ensures forall i :: 0 <= i < |ExpenseSums(rs)| ==> ExpenseSums(rs)[i].1 >= 0.0
    ensures forall i, j :: 0 <= i < j < |ExpenseSums(rs)| ==> Below(ExpenseSums(rs)[i].0, ExpenseSums(rs)[j].0)
    ensures SumValues(ExpenseSums(rs)) >= 0.0
  {
    SumNonNegative(ExpenseSums(rs));
  }

  /** The simplified-tax-regime rate, 4%. */
  const TaxRate: real := 0.04

  /** `tax`: a twenty-fifth of the revenue. */
  function Tax(revenue: real): (t: real)
    ensures 25.0 * t == revenue
  {
    revenue * TaxRate
  }

  /** `part / revenue * 100`, or 0 when there is no revenue. */
  function Margin(part: real, revenue: real): (m: real)
    ensures revenue == 0.0 ==> m == 0.0
    ensures revenue != 0.0 ==> m * revenue == part * 100.0
  {
    if revenue != 0.0 then part / revenue * 100.0 else 0.0
  }

  /** `avg_check`: revenue per unit sold, or 0 when nothing was sold. */
  function AvgCheck(revenue: real, qty: real): (a: real)
    ensures qty == 0.0 ==> a == 0.0
    ensures qty != 0.0 ==> a * qty == revenue
  {
    if qty != 0.0 then revenue / qty else 0.0
  }

  /** Everything the report prints, computed from the records of the table. */
  datatype Summary = Summary(
    revenue: real,
    qtyBySku: Groups,
    costBySku: Dict<real>,
    totalCost: real,
    expenses: Dict<real>,
    totalExpenses: real,
    tax: real,
    netProfit: real,
    grossMargin: real,
    netMargin: real,
    totalQty: real,
    avgCheck: real)

  /** ozon_bot.py:42-68 on the records of a table. */
  function Summarize(t: Tables, records: seq<Record>): Summary
  {
    var rs := KeptRows(records);
    Aggregate(t, Sales(rs), ExpenseRows(rs))
  }

  /** ozon_bot.py:48-68 on the revenue rows and the expense rows. */
  function Aggregate(t: Tables, sales: seq<Record>, expenseRows: seq<Record>): Summary
  {
    var revenue := SumAmounts(sales);
    var groups := GroupQty(sales);
    var costBySku := CostBySku(t.costs, groups);
    var totalCost := SumValues(costBySku);
    var expenses := ExpenseSums(expenseRows);
    var totalExpenses := SumValues(expenses);
    var tax := Tax(revenue);
    var netProfit := revenue - totalCost - totalExpenses - tax;
    var totalQty := SumValues(groups);
    Summary(revenue, groups, costBySku, totalCost, expenses, totalExpenses, tax, netProfit,
            Margin(revenue - totalCost, revenue), Margin(netProfit, revenue),
            totalQty, AvgCheck(revenue, totalQty))
  }

  /** The metrics as the business reads them: net profit is 96% of revenue
      less cost and expenses; the expense total is non-negative; the total
      quantity counts every revenue row that names a product, known to the
      cost table or not; without revenue both margins are 0, and without
      quantity so is the average check. */
  lemma SummaryMetrics(t: Tables, records: seq<Record>)
    ensures var s := Summarize(t, records);
      && s.netProfit == s.revenue * 0.96 - s.totalCost - s.totalExpenses
      && s.totalExpenses >= 0.0
      && s.totalQty == ProductQty(Sales(KeptRows(records)))
      && (s.revenue == 0.0 ==> s.grossMargin == 0.0 && s.netMargin == 0.0)
      && (s.totalQty == 0.0 ==> s.avgCheck == 0.0)
  {
    var rs := KeptRows(records);
    ExpenseSumsShape(ExpenseRows(rs));
    GroupQtySum(Sales(rs));
  }

  /** Appending a row to the records appends it to the kept rows, unless the
      first filter drops it. */
  lemma KeptAppend(records: seq<Record>, r: Record)
    ensures KeptRows(records + [r]) == KeptRows(records) + (if Kept(r) then [r] else [])
  {
    FilterConcat(records, [r], Kept);
    assert [r][1..] == [];
  }

  /** Appending a row that is neither revenue nor expense leaves both the
      revenue rows and the expense rows as they were. */
  lemma IgnoredAppend(rs: seq<Record>, r: Record)
    requires !IsSale(r) && !IsExpense(r)
    ensures Sales(rs + [r]) == Sales(rs) && ExpenseRows(rs + [r]) == ExpenseRows(rs)
  {
    FilterConcat(rs, [r], IsSale);
    FilterConcat(rs, [r], IsExpense);
    assert [r][1..] == [];
  }

  /** A row of loyalty points changes nothing in the summary. */
  lemma PointsRowIgnored(t: Tables, records: seq<Record>, r: Record)
    requires Classify(r) == Excluded
    ensures Summarize(t, records + [r]) == Summarize(t, records)
  {
    var rs, rs2 := KeptRows(records), KeptRows(records + [r]);
    assert Sales(rs2) == Sales(rs) && ExpenseRows(rs2) == ExpenseRows(rs) by {
      KeptAppend(records, r);
      ClassifyAgrees(r);
      if Kept(r) {
        IgnoredAppend(rs, r);
      }
    }
  }

  /** A revenue row never reaches the expenses: the categories and their
      totals are what they were without it. */
  lemma RevenueRowNoExpense(t: Tables, records: seq<Record>, r: Record)
    requires IsSale(r)
    ensures var s, s' := Summarize(t, records), Summarize(t, records + [r]);
      s'.expenses == s.expenses && s'.totalExpenses == s.totalExpenses
  {
    var rs := KeptRows(records);
    assert ExpenseRows(KeptRows(records + [r])) == ExpenseRows(rs) by {
      KeptAppend(records, r);
      ClassifyAgrees(r);
      FilterConcat(rs, [r], IsExpense);
      FilterOne(r, IsExpense);
    }
  }

  /** An expense row that the first filter keeps adds its amount to its own
      category of the report, and leaves every other category as it was. */
  lemma ExpenseRowAdded(t: Tables, records: seq<Record>, r: Record, k: string)
    requires Kept(r) && IsExpense(r)
    ensures var rs := ExpenseRows(KeptRows(records));
      var s, s' := Summarize(t, records), Summarize(t, records + [r]);
      Get(s'.expenses, k, 0.0) == if k == r.typ then Abs(TypeTotal(rs, k) + r.total) else Get(s.expenses, k, 0.0)
  {
    var rs := ExpenseRows(KeptRows(records));
    calc {
      Get(Summarize(t, records + [r]).expenses, k, 0.0);
      == { ExpenseRowsAppend(records, r); }
      Get(ExpenseSums(rs + [r]), k, 0.0);
      == { ExpenseSumsAppend(rs, r, k); }
      if k == r.typ then Abs(TypeTotal(rs, k) + r.total) else Get(ExpenseSums(rs), k, 0.0);
      ==
      if k == r.typ then Abs(TypeTotal(rs, k) + r.total) else Get(Summarize(t, records).expenses, k, 0.0);
    }
  }

  /** A kept expense row appended to the sheet is appended to the expense rows. */
  lemma ExpenseRowsAppend(records: seq<Record>, r: Record)
    requires Kept(r) && IsExpense(r)
    ensures ExpenseRows(KeptRows(records + [r])) == ExpenseRows(KeptRows(records)) + [r]
  {
    KeptAppend(records, r);
    FilterConcat(KeptRows(records), [r], IsExpense);
    FilterOne(r, IsExpense);
  }

  /** A revenue row for a product missing from the cost table raises the
      revenue by its amount and the quantity by its quantity, but leaves
      every cost unchanged. */
  lemma UnknownProductSale(t: Tables, records: seq<Record>, r: Record)
    requires IsSale(r) && !r.sku.Blank?
    requires forall i :: 0 <= i < |t.costs| ==> r.sku != Text(t.costs[i].0)
    ensures var s, s' := Summarize(t, records), Summarize(t, records + [r]);
      && s'.revenue == s.revenue + Amount(r)
      && s'.totalQty == s.totalQty + r.qty
      && s'.costBySku == s.costBySku
      && s'.totalCost == s.totalCost
  {
    var sales := Sales(KeptRows(records));
    assert Sales(KeptRows(records + [r])) == sales + [r] by {
      KeptAppend(records, r);
      FilterConcat(KeptRows(records), [r], IsSale);
      FilterOne(r, IsSale);
    }
    SumAmountsAppend(sales, [r]);
    assert GroupQty(sales + [r]) == AddQty(GroupQty(sales), r.sku, r.qty) by {
      assert (sales + [r])[..|sales|] == sales;
    }
    AddQtySum(GroupQty(sales), r.sku, r.qty);
    UnknownProductNoCost(t.costs, sales, r);
  }
}
