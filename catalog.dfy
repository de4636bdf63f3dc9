/** The three read-only lookup tables of the bot (ozon_bot.py:9-27): the unit
    cost of each product, its display name, and the display label of each
    known expense category. Python dictionaries keep insertion order, and the
    report lists products in that order, so each table is an ordered sequence
    of key/value pairs. */
module Catalog {
  import opened Strings

  /** An insertion-ordered dictionary with string keys. */
  type Dict<V> = seq<(string, V)>

  /** No key occurs twice. */
  predicate DistinctKeys<V>(d: Dict<V>)
  {
    forall i, j :: 0 <= i < j < |d| ==> d[i].0 != d[j].0
  }

  /** `k in d`. */
  predicate HasKey<V>(d: Dict<V>, k: string)
  {
    exists i :: 0 <= i < |d| && d[i].0 == k
  }

  /** `d.get(k, default)`: the value of the entry with key `k`, or `default`
      when there is none. */
  function Get<V>(d: Dict<V>, k: string, default: V): (r: V)
    ensures !HasKey(d, k) ==> r == default
  {
    if d == [] then default
    else if d[0].0 == k then d[0].1
    else
      assert !HasKey(d, k) ==> !HasKey(d[1..], k) by {
        if HasKey(d[1..], k) {
          var i :| 0 <= i < |d[1..]| && d[1..][i].0 == k;
          assert d[i + 1].0 == k;
        }
      }
      Get(d[1..], k, default)
  }

  /** In a dictionary with distinct keys, looking up the key of an entry gives
      that entry's value. */
  lemma {:induction false} GetAt<V>(d: Dict<V>, i: nat, default: V)
    requires DistinctKeys(d) && i < |d|
    ensures Get(d, d[i].0, default) == d[i].1
    decreases i
  {
    if i > 0 {
      assert d[0].0 != d[i].0;
      assert DistinctKeys(d[1..]) by {
        forall a, b | 0 <= a < b < |d[1..]| ensures d[1..][a].0 != d[1..][b].0 {
          assert d[1..][a] == d[a + 1] && d[1..][b] == d[b + 1];
        }
      }
      GetAt(d[1..], i - 1, default);
      assert d[1..][i - 1] == d[i];
    }
  }

  /** The three tables the report is built from. */
  datatype Tables = Tables(costs: Dict<real>, names: Dict<string>, labels: Dict<string>)

  /** `sku_costs`, `sku_names` and `expense_labels` as the bot defines them. */
  const OzonTables: Tables := Tables(
    [("ФСО_MAX_2", 215.0), ("ФСО_MAX_4", 415.0), ("FARA_NIVA_2", 1060.0)],
    [("ФСО_MAX_2", "📦 ФСО_MAX_2"), ("ФСО_MAX_4", "📦 ФСО_MAX_4"), ("FARA_NIVA_2", "📦 FARA_NIVA_2")],
    [("Бонусы продавца", "🎁 Бонусы продавца"),
     ("Вознаграждение за продажу", "💼 Вознаграждение за продажу"),
     ("Логистика", "🚚 Логистика"),
     ("Продвижение с оплатой за заказ", "📢 Продвижение (оплата за заказ)"),
     ("Эквайринг", "💳 Эквайринг")])

  /** The first character of the branch glyph "├─" that the report rewrites
      on the last line of a block. */
  const BranchMark: char := '├'

  /** `sku_names.get(sku, sku)`: the display name of a product. */
  function DisplayName(t: Tables, sku: string): (r: string)
    ensures !HasKey(t.names, sku) ==> r == sku
  {
    Get(t.names, sku, sku)
  }

  /** Tables the report can be rendered from: no key twice in any of the
      three tables, and no product key or display name containing the
      branch glyph. */
  predicate ValidTables(t: Tables)
  {
    && DistinctKeys(t.costs) && DistinctKeys(t.names) && DistinctKeys(t.labels)
    && (forall i :: 0 <= i < |t.costs| ==> BranchMark !in t.costs[i].0)
    && (forall i :: 0 <= i < |t.names| ==> BranchMark !in t.names[i].1)
  }

  /** A product's display name never holds the branch glyph. */
  lemma DisplayNameUnmarked(t: Tables, sku: string)
    requires forall i :: 0 <= i < |t.names| ==> BranchMark !in t.names[i].1
    requires BranchMark !in sku
    ensures BranchMark !in DisplayName(t, sku)
  {
    ValuesUnmarked(t.names, sku, sku);
  }

  /** Looking up a dictionary whose values all avoid the branch glyph, with a
      default that avoids it too, gives a value that avoids it. */
  lemma {:induction false} ValuesUnmarked(d: Dict<string>, k: string, default: string)
    requires forall i :: 0 <= i < |d| ==> BranchMark !in d[i].1
    requires BranchMark !in default
    ensures BranchMark !in Get(d, k, default)
    decreases |d|
  {
    if d != [] && d[0].0 != k {
      assert forall i :: 0 <= i < |d[1..]| ==> d[1..][i] == d[i + 1];
      ValuesUnmarked(d[1..], k, default);
    }
  }

  /** The bot's own tables are valid, and every product has a display name. */
  lemma OzonTablesValid()
    ensures ValidTables(OzonTables)
    ensures forall i :: 0 <= i < |OzonTables.costs| ==> HasKey(OzonTables.names, OzonTables.costs[i].0)
  {
    var t := OzonTables;
    assert t.names[0].0 == t.costs[0].0;
    assert t.names[1].0 == t.costs[1].0;
    assert t.names[2].0 == t.costs[2].0;
    OzonNamesDistinct();
    OzonLabelsDistinct();
  }

  /** No product is named twice. */
  lemma OzonNamesDistinct()
    ensures DistinctKeys(OzonTables.names)
  {
    var ns := OzonTables.names;
    assert ns[0].0[8] != ns[1].0[8];
    assert ns[0].0[0] != ns[2].0[0] && ns[1].0[0] != ns[2].0[0];
  }

  /** No expense category is labelled twice: the five keys already differ
      in their first letter. */
  lemma OzonLabelsDistinct()
    ensures DistinctKeys(OzonTables.labels)
  {
    var ls := OzonTables.labels;
    assert forall i, j :: 0 <= i < j < |ls| ==> ls[i].0[0] != ls[j].0[0];
  }
}
