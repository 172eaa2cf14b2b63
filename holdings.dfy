/** Portfolio holdings and their aggregation by category: the
    `sum(item['amount'] ...)` total and the category-grouping loop that
    portfolio_analyzer.py and advanced_analytics.py each run before any weighting. */
module Holdings {
  import opened Tables

  /** One portfolio line item as the input form stores it: a name, a category label and an amount. */
  datatype Holding = Holding(name: string, category: string, amount: real)

  /** The input form admits only amounts above zero. */
  predicate PositiveAmounts(items: seq<Holding>)
  {
    forall i :: 0 <= i < |items| ==> items[i].amount > 0.0
  }

  /** Some holding is in category `c`. */
  predicate HasCategory(items: seq<Holding>, c: string)
  {
    exists i :: 0 <= i < |items| && items[i].category == c
  }

  /** `sum(item['amount'] for item in portfolio)`. */
  function TotalAmount(items: seq<Holding>): real
  {
    if items == [] then 0.0 else TotalAmount(items[..|items| - 1]) + items[|items| - 1].amount
  }

  /** The amounts of all holdings in category `c`, added up. */
  function CategorySum(items: seq<Holding>, c: string): real
  {
    if items == [] then 0.0
    else
      var last := items[|items| - 1];
      CategorySum(items[..|items| - 1], c) + (if last.category == c then last.amount else 0.0)
  }

  /** The category -> amount dictionary built by the grouping loop, in first-seen order. */
  function CategoryTotals(items: seq<Holding>): Table
  {
    if items == [] then []
    else
      var last := items[|items| - 1];
      Accumulate(CategoryTotals(items[..|items| - 1]), last.category, last.amount)
  }

  /** Groups the holdings' amounts by category, one pass in portfolio order. */
  method GroupByCategory(items: seq<Holding>) returns (totals: Table)
    ensures totals == CategoryTotals(items)
  {
    totals := [];
    var i := 0;
    while i < |items|
      invariant 0 <= i <= |items|
      invariant totals == CategoryTotals(items[..i])
    {
      var item := items[i];
      if !HasKey(totals, item.category) {
        totals := totals + [Entry(item.category, 0.0)];
        assert totals[|totals| - 1].key == item.category;
      }
      var k := IndexOf(totals, item.category);
      totals := totals[k := Entry(item.category, totals[k].value + item.amount)];
      assert items[..i + 1][..i] == items[..i];
      i := i + 1;
    }
    assert items[..|items|] == items;
  }

  /** The grouped table has one entry per category that occurs in the portfolio, each
      holding exactly the sum of that category's amounts, and its values add up to the total. */
  lemma CategoryTotalsCorrect(items: seq<Holding>)
    ensures DistinctKeys(CategoryTotals(items))
    ensures forall c :: HasKey(CategoryTotals(items), c) <==> HasCategory(items, c)
    ensures forall c :: Get(CategoryTotals(items), c, 0.0) == CategorySum(items, c)
    ensures Sum(CategoryTotals(items)) == TotalAmount(items)
  {
    CategoryTotalsEntries(items);
    CategoryTotalsSum(items);
  }

  lemma {:induction false} CategoryTotalsEntries(items: seq<Holding>)
    ensures DistinctKeys(CategoryTotals(items))
    ensures forall c :: HasKey(CategoryTotals(items), c) <==> HasCategory(items, c)
    ensures forall c :: Get(CategoryTotals(items), c, 0.0) == CategorySum(items, c)
  {
    if items != [] {
      var n := |items| - 1;
      var prefix := items[..n];
      CategoryTotalsEntries(prefix);
      AccumulateEntries(CategoryTotals(prefix), items[n].category, items[n].amount);
      forall c ensures HasKey(CategoryTotals(items), c) <==> HasCategory(items, c) {
        if HasCategory(items, c) {
          var i :| 0 <= i < |items| && items[i].category == c;
          if i < n {
            assert prefix[i].category == c;
          }
        }
        if HasKey(CategoryTotals(prefix), c) {
          var i :| 0 <= i < |prefix| && prefix[i].category == c;
          assert items[i].category == c;
        }
      }
    }
  }

  lemma {:induction false} CategoryTotalsSum(items: seq<Holding>)
    ensures Sum(CategoryTotals(items)) == TotalAmount(items)
  {
    if items != [] {
      var n := |items| - 1;
      CategoryTotalsSum(items[..n]);
      AccumulateSum(CategoryTotals(items[..n]), items[n].category, items[n].amount);
    }
  }

  lemma {:induction false} CategorySumPositive(items: seq<Holding>, c: string)
    requires PositiveAmounts(items)
    ensures CategorySum(items, c) >= 0.0
    ensures HasCategory(items, c) ==> CategorySum(items, c) > 0.0
  {
    if items != [] {
      var n := |items| - 1;
      CategorySumPositive(items[..n], c);
      if exists i :: 0 <= i < n && items[i].category == c {
        var i :| 0 <= i < n && items[i].category == c;
        assert items[..n][i].category == c;
      }
    }
  }

  lemma {:induction false} TotalAmountPositive(items: seq<Holding>)
    requires PositiveAmounts(items)
    ensures TotalAmount(items) >= 0.0
    ensures items != [] ==> TotalAmount(items) > 0.0
  {
    if items != [] {
      TotalAmountPositive(items[..|items| - 1]);
    }
  }

  /** With positive amounts every grouped category total is positive. */
  lemma CategoryTotalsPositive(items: seq<Holding>)
    requires PositiveAmounts(items)
    ensures forall i :: 0 <= i < |CategoryTotals(items)| ==> CategoryTotals(items)[i].value > 0.0
  {
    var t := CategoryTotals(items);
    CategoryTotalsCorrect(items);
    forall i | 0 <= i < |t| ensures t[i].value > 0.0 {
      assert HasKey(t, t[i].key);
      CategorySumPositive(items, t[i].key);
    }
  }

  /** `{category: (amount / total) * 100 for category, amount in d.items()}`. */
  function ToPercentages(t: Table, total: real): (r: Table)
    requires total != 0.0
    ensures |r| == |t| && Keys(r) == Keys(t)
    ensures forall i :: 0 <= i < |t| ==> r[i].value == (t[i].value / total) * 100.0
  {
    seq(|t|, i requires 0 <= i < |t| => Entry(t[i].key, (t[i].value / total) * 100.0))
  }

  /** Converting to percentages scales the sum: the percentages of a table add up to
      100 exactly when the table adds up to the divisor. */
  lemma {:induction false} PercentagesSum(t: Table, total: real)
    requires total != 0.0
    ensures Sum(ToPercentages(t, total)) == (Sum(t) / total) * 100.0
  {
    if t != [] {
      var n := |t| - 1;
      assert ToPercentages(t, total)[..n] == ToPercentages(t[..n], total);
      PercentagesSum(t[..n], total);
      PercentagesAdd(Sum(t[..n]), t[n].value, total);
    }
  }

  lemma PercentagesAdd(a: real, b: real, total: real)
    requires total != 0.0
    ensures (a / total) * 100.0 + (b / total) * 100.0 == ((a + b) / total) * 100.0
  {
  }

  /** Looking up a percentage gives the category's amount over the total, times 100. */
  lemma PercentagesGet(t: Table, total: real, c: string)
    requires total != 0.0 && DistinctKeys(t)
    ensures DistinctKeys(ToPercentages(t, total))
    ensures HasKey(ToPercentages(t, total), c) <==> HasKey(t, c)
    ensures HasKey(t, c) ==> Get(ToPercentages(t, total), c, 0.0) == (Get(t, c, 0.0) / total) * 100.0
  {
    var p := ToPercentages(t, total);
    assert forall i :: 0 <= i < |t| ==> p[i].key == t[i].key;
    if HasKey(t, c) {
      var i := IndexOf(t, c);
      assert p[i].key == c;
      GetAt(t, i, 0.0);
      GetAt(p, i, 0.0);
    }
    if HasKey(p, c) {
      var i :| 0 <= i < |p| && p[i].key == c;
      assert t[i].key == c;
    }
  }
}
