/** A worked example of the summary on a small sheet: one sale of ten units
    of a known product at 500 and one logistics charge of 300. */
module Scenarios {
  import opened Strings
  import opened Numbers
  import opened Sheet
  import opened Catalog
  import opened Ledger

  /** A row whose type lower-cases to "выручка" is a revenue row. */
  lemma SaleIsSale(r: Record)
    requires Lower(r.typ) == RevenueType
    ensures Kept(r) && IsSale(r) && !IsExpense(r)
  {
  }

  /** "логистика" does not contain "баллы". */
  lemma LogisticsNoPoints()
    ensures !Contains("логистика", PointsMark)
  {
    NotContainsHead("логистика", PointsMark);
  }

  /** A row whose type lower-cases to "логистика" is an expense row. */
  lemma LogisticsIsExpense(r: Record)
    requires Lower(r.typ) == "логистика"
    ensures Kept(r) && !IsSale(r) && IsExpense(r)
  {
    LogisticsNoPoints();
  }

  /** Filtering two rows keeps each of them that passes. */
  lemma FilterTwo(a: Record, b: Record, p: Record -> bool)
    ensures Filter([a, b], p) == (if p(a) then [a] else []) + (if p(b) then [b] else [])
  {
    assert [a, b][1..] == [b];
    assert [b][1..] == [];
  }

  /** Of a revenue row followed by an expense row, the first filter keeps
      both, the revenue filter the first and the expense filters the second. */
  lemma SaleThenExpense(a: Record, b: Record)
    requires Kept(a) && IsSale(a) && !IsExpense(a)
    requires Kept(b) && !IsSale(b) && IsExpense(b)
    ensures KeptRows([a, b]) == [a, b]
    ensures Sales([a, b]) == [a]
    ensures ExpenseRows([a, b]) == [b]
  {
    FilterTwo(a, b, Kept);
    FilterTwo(a, b, IsSale);
    FilterTwo(a, b, IsExpense);
  }

  /** One revenue row with a product cell makes one group. */
  lemma OneGroup(r: Record)
    requires !r.sku.Blank?
    ensures GroupQty([r]) == [(r.sku, r.qty)]
    ensures ProductQty([r]) == r.qty
  {
    assert [r][..0] == [];
  }

  /** The costs of the cost table when one product was sold `q` times. */
  lemma OneProductCosts(costs: Dict<real>, key: string, q: real)
    requires |costs| == 3 && costs[0].0 == key && costs[1].0 != key && costs[2].0 != key
    ensures CostBySku(costs, [(Text(key), q)])
            == [(costs[0].0, q * costs[0].1), (costs[1].0, 0.0), (costs[2].0, 0.0)]
  {
    var g := [(Text(key), q)];
    assert g[1..] == [];
    var r := CostBySku(costs, g);
    assert GroupOf(g, Text(costs[0].0)) == q;
    assert r[0].1 == GroupOf(g, Text(costs[0].0)) * costs[0].1;
    assert r[0].1 == q * costs[0].1;
    assert r[0] == (costs[0].0, q * costs[0].1);
    assert GroupOf(g, Text(costs[1].0)) == 0.0;
    assert r[1] == (costs[1].0, 0.0);
    assert GroupOf(g, Text(costs[2].0)) == 0.0;
    assert r[2] == (costs[2].0, 0.0);
  }

  /** The sum of three values. */
  lemma SumThree<K>(a: (K, real), b: (K, real), c: (K, real))
    ensures SumValues([a, b, c]) == a.1 + b.1 + c.1
  {
    assert [a, b, c][..2] == [a, b];
    assert [a, b][..1] == [a];
    assert [a][..0] == [];
    assert SumValues([a]) == a.1;
    assert SumValues([a, b]) == a.1 + b.1;
  }

  /** Ten units of the first product cost 2150; the other products cost nothing. */
  lemma TenUnitsCost(sale: Record)
    requires sale.sku == Text("ФСО_MAX_2") && sale.qty == 10.0
    ensures GroupQty([sale]) == [(Text("ФСО_MAX_2"), 10.0)]
    ensures ProductQty([sale]) == 10.0
    ensures CostBySku(OzonTables.costs, GroupQty([sale]))
            == [("ФСО_MAX_2", 2150.0), ("ФСО_MAX_4", 0.0), ("FARA_NIVA_2", 0.0)]
    ensures SumValues(CostBySku(OzonTables.costs, GroupQty([sale]))) == 2150.0
  {
    OneGroup(sale);
    assert "ФСО_MAX_4" != "ФСО_MAX_2" by { assert "ФСО_MAX_4"[8] != "ФСО_MAX_2"[8]; }
    assert "FARA_NIVA_2" != "ФСО_MAX_2" by { assert "FARA_NIVA_2"[0] != "ФСО_MAX_2"[0]; }
    OneProductCosts(OzonTables.costs, "ФСО_MAX_2", 10.0);
    SumThree(("ФСО_MAX_2", 2150.0), ("ФСО_MAX_4", 0.0), ("FARA_NIVA_2", 0.0));
  }

  /** One expense row makes one category holding the absolute value of its amount. */
  lemma OneCategory(r: Record)
    ensures ExpenseSums([r]) == [(r.typ, Abs(r.total))]
    ensures SumValues(ExpenseSums([r])) == Abs(r.total)
  {
    assert [r][..0] == [];
    assert TypeKeys([r]) == [r.typ];
    assert TypeTotal([r], r.typ) == r.total;
    var d := ExpenseSums([r]);
    assert d[..0] == [];
  }

  /** The summary of a sheet with one revenue row of ten units of
      "ФСО_MAX_2" at 500 and one logistics charge of 300, whatever the
      capitalisation of their types: revenue 10 × 500 = 5000, cost of goods
      10 × 215 = 2150 for the one product sold and nothing for the others,
      other expenses 300 under the logistics category, tax 4% = 200, net
      profit 2350, ten units, an average check of 500. */
  lemma TwoRowSummary(sale: Record, logistics: Record)
    requires Lower(sale.typ) == RevenueType
    requires sale.sku == Text("ФСО_MAX_2") && sale.qty == 10.0 && sale.price == 500.0
    requires Lower(logistics.typ) == "логистика" && logistics.total == -300.0
    ensures var s := Summarize(OzonTables, [sale, logistics]);
      && s.revenue == 5000.0
      && s.costBySku == [("ФСО_MAX_2", 2150.0), ("ФСО_MAX_4", 0.0), ("FARA_NIVA_2", 0.0)]
      && s.totalCost == 2150.0
      && s.expenses == [(logistics.typ, 300.0)]
      && s.totalExpenses == 300.0
      && s.tax == 200.0
      && s.netProfit == 2350.0
      && s.totalQty == 10.0
      && s.avgCheck == 500.0
  {
    SaleIsSale(sale);
    LogisticsIsExpense(logistics);
    SaleThenExpense(sale, logistics);
    TenUnitsCost(sale);
    OneCategory(logistics);
    GroupQtySum([sale]);
    assert SumAmounts([sale]) == 5000.0 by {
      assert [sale][..0] == [];
    }
  }
}
