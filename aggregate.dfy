/**
 * The year aggregator (`calculateYearTotals`) and the dashboard summary
 * (`getTotalMetrics`). Totals are kept per display year, in the order of
 * `YEARS`, together with the chart rows built from them.
 */
module Aggregate {
  import opened Seqs
  import opened Slate

  /** `YEARS`: the display years, in order. */
  const Years: seq<string> := ["2025", "2026", "2027", "2028", "2029"]

  /** The totals of one year. ROI is a percentage, kept exact. */
  datatype Totals = Totals(production: int, marketing: int, revenue: int, titles: nat, roi: real)

  const Zero: Totals := Totals(0, 0, 0, 0, 0.0)

  /** One entry of `chartData`. */
  datatype ChartRow = ChartRow(year: string, revenue: int, investment: int, titles: nat, roi: real)

  /** The `totals` object: one property per display year, in insertion order. */
  type YearTotals = seq<(string, Totals)>

  function YearsOf(totals: YearTotals): seq<string> {
    seq(|totals|, i requires 0 <= i < |totals| => totals[i].0)
  }

  /**
   * One item added to its year's totals. Revenue is read as
   * `projectedRevenue || revenue || 0`; no slate item carries `revenue`, so
   * this is the projected revenue (0 when that is 0).
   */
  function Add(t: Totals, item: Item): Totals {
    t.(production := t.production + item.productionBudget,
       marketing := t.marketing + item.marketingBudget,
       revenue := t.revenue + item.projectedRevenue,
       titles := t.titles + 1)
  }

  /** What the accumulation loop has added up for year `y` after visiting `items`. */
  function Accumulated(items: seq<Item>, y: string): Totals {
    if items == [] then Zero
    else
      var n := |items| - 1;
      var t := Accumulated(items[..n], y);
      if items[n].year == y then Add(t, items[n]) else t
  }

  /** `investment > 0 ? (revenue - investment) / investment * 100 : 0`, over exact reals. */
  function Roi(production: int, marketing: int, revenue: int): real {
    var investment := production + marketing;
    if investment > 0 then (revenue - investment) as real / investment as real * 100.0 else 0.0
  }

  /** The final totals of year `y`. */
  function YearTotal(items: seq<Item>, y: string): Totals {
    var t := Accumulated(items, y);
    t.(roi := Roi(t.production, t.marketing, t.revenue))
  }

  /** The `totals` object that `calculateYearTotals` builds. */
  function Table(items: seq<Item>): YearTotals {
    seq(|Years|, i requires 0 <= i < |Years| => (Years[i], YearTotal(items, Years[i])))
  }

  /** The chart row of one year. */
  function Row(year: string, t: Totals): ChartRow {
    ChartRow(year, t.revenue, t.production + t.marketing, t.titles, t.roi)
  }

  function ChartRows(totals: YearTotals): seq<ChartRow> {
    seq(|totals|, i requires 0 <= i < |totals| => Row(totals[i].0, totals[i].1))
  }

  /**
   * `calculateYearTotals`: zero every display year, add each item to its year
   * when that year is displayed, then compute each year's ROI and chart row.
   */
  method CalculateYearTotals(items: seq<Item>) returns (totals: YearTotals, chart: seq<ChartRow>)
    ensures totals == Table(items)
    ensures chart == ChartRows(totals)
  {
    totals := [];
    var k := 0;
    while k < |Years|
      invariant 0 <= k <= |Years|
      invariant |totals| == k
      invariant forall i :: 0 <= i < k ==> totals[i] == (Years[i], Zero)
    {
      totals := totals + [(Years[k], Zero)];
      k := k + 1;
    }

    assert items[..0] == [];
    var n := 0;
    while n < |items|
      invariant 0 <= n <= |items|
      invariant AccumulatedUpTo(totals, items, n)
    {
      var item := items[n];
      KeysAreYears(totals);
      ghost var before := totals;
      var slot := IndexOf(YearsOf(totals), item.year);
      if slot >= 0 {
        totals := totals[slot := (totals[slot].0, Add(totals[slot].1, item))];
      }
      AccumulateStep(items, n, before, totals);
      n := n + 1;
    }
    assert items[..n] == items;

    chart := [];
    k := 0;
    while k < |Years|
      invariant 0 <= k <= |Years|
      invariant |totals| == |Years| && |chart| == k
      invariant forall i :: 0 <= i < k ==> totals[i] == (Years[i], YearTotal(items, Years[i]))
      invariant forall i :: k <= i < |Years| ==> totals[i] == (Years[i], Accumulated(items, Years[i]))
      invariant forall i :: 0 <= i < k ==> chart[i] == Row(totals[i].0, totals[i].1)
    {
      var data := totals[k].1;
      var investment := data.production + data.marketing;
      var roi := if investment > 0 then (data.revenue - investment) as real / investment as real * 100.0 else 0.0;
      data := data.(roi := roi);
      totals := totals[k := (Years[k], data)];
      chart := chart + [ChartRow(Years[k], data.revenue, investment, data.titles, data.roi)];
      k := k + 1;
    }
    TableAndRows(items, totals, chart);
  }

  /** The totals after the accumulation loop has visited the first `n` items. */
  predicate AccumulatedUpTo(totals: YearTotals, items: seq<Item>, n: nat)
    requires n <= |items|
  {
    |totals| == |Years| && forall i :: 0 <= i < |Years| ==> totals[i] == (Years[i], Accumulated(items[..n], Years[i]))
  }

  /** One pass of the accumulation `forEach`. */
  lemma AccumulateStep(items: seq<Item>, n: nat, before: YearTotals, after: YearTotals)
    requires n < |items| && AccumulatedUpTo(before, items, n)
    requires var slot := IndexOf(Years, items[n].year);
      after == if slot >= 0 then before[slot := (before[slot].0, Add(before[slot].1, items[n]))] else before
    ensures AccumulatedUpTo(after, items, n + 1)
  {
    var prefix := items[..n + 1];
    assert prefix[..n] == items[..n] && prefix[n] == items[n];
    var slot := IndexOf(Years, items[n].year);
    forall i | 0 <= i < |Years| ensures after[i] == (Years[i], Accumulated(prefix, Years[i])) {
      if i == slot {
        assert Years[i] == items[n].year;
      } else {
        assert Years[i] != items[n].year;
      }
    }
  }

  lemma KeysAreYears(totals: YearTotals)
    requires |totals| == |Years| && forall i :: 0 <= i < |Years| ==> totals[i].0 == Years[i]
    ensures YearsOf(totals) == Years
  {
  }

  /** Totals and rows that agree with `Table` and `Row` year by year are the table and its chart. */
  lemma TableAndRows(items: seq<Item>, totals: YearTotals, chart: seq<ChartRow>)
    requires |totals| == |Years| && |chart| == |Years|
    requires forall i :: 0 <= i < |Years| ==> totals[i] == (Years[i], YearTotal(items, Years[i]))
    requires forall i :: 0 <= i < |Years| ==> chart[i] == Row(totals[i].0, totals[i].1)
    ensures totals == Table(items) && chart == ChartRows(totals)
  {
  }

  // ---------------------------------------------------------------------------
  // What the totals mean
  // ---------------------------------------------------------------------------

  function ItemYears(items: seq<Item>): seq<string> {
    seq(|items|, i requires 0 <= i < |items| => items[i].year)
  }

  /** A year's title count is the number of items filed under that year. */
  lemma {:induction false} TitlesCountItems(items: seq<Item>, y: string)
    ensures YearTotal(items, y).titles == multiset(ItemYears(items))[y]
  {
    if items != [] {
      var n := |items| - 1;
      TitlesCountItems(items[..n], y);
      assert ItemYears(items) == ItemYears(items[..n]) + [items[n].year];
    }
  }

  /** Items all filed under one year count there and leave every other year at zero. */
  lemma {:induction false} SingleYear(items: seq<Item>, y: string, other: string)
    requires forall i :: 0 <= i < |items| ==> items[i].year == y
    requires other != y
    ensures YearTotal(items, y).titles == |items|
    ensures Accumulated(items, other) == Zero && YearTotal(items, other) == Zero
  {
    if items != [] {
      SingleYear(items[..|items| - 1], y, other);
    }
  }

  /** An item filed under a year that is not displayed changes no total. */
  lemma OutsideYearsIgnored(items: seq<Item>, x: Item)
    requires x.year !in Years
    ensures Table(items + [x]) == Table(items)
  {
    forall i | 0 <= i < |Years| ensures Accumulated(items + [x], Years[i]) == Accumulated(items, Years[i]) {
      assert (items + [x])[..|items|] == items;
    }
  }

  /** With no items every displayed year is all zero, ROI included. */
  lemma EmptyTable()
    ensures forall i :: 0 <= i < |Years| ==> Table([])[i] == (Years[i], Zero)
  {
  }

  /**
   * ROI is the gain over investment as a percentage, and exactly 0 (never a
   * division by zero) when there is no positive investment.
   */
  lemma RoiMeaning(production: int, marketing: int, revenue: int)
    ensures var investment := production + marketing;
      && (investment <= 0 ==> Roi(production, marketing, revenue) == 0.0)
      && (investment > 0 ==> Roi(production, marketing, revenue) * investment as real == (revenue - investment) as real * 100.0)
      && (investment > 0 ==> (Roi(production, marketing, revenue) > 0.0 <==> revenue > investment))
  {
    var investment := production + marketing;
    if investment > 0 {
      var q := (revenue - investment) as real / investment as real;
      assert q * investment as real == (revenue - investment) as real;
      assert Roi(production, marketing, revenue) == q * 100.0;
      assert q > 0.0 <==> revenue > investment;
    }
  }

  /** Totals of two batches add up. */
  function Plus(a: Totals, b: Totals): Totals {
    Totals(a.production + b.production, a.marketing + b.marketing, a.revenue + b.revenue, a.titles + b.titles, a.roi + b.roi)
  }

  lemma {:induction false} AccumulatedAppend(a: seq<Item>, b: seq<Item>, y: string)
    ensures Accumulated(a + b, y) == Plus(Accumulated(a, y), Accumulated(b, y))
  {
    if b == [] {
      assert a + b == a;
    } else {
      var n := |b| - 1;
      AccumulatedAppend(a, b[..n], y);
      assert (a + b)[..|a| + n] == a + b[..n];
    }
  }

  /** The totals do not depend on the order in which the two batches arrive. */
  lemma OrderIrrelevant(a: seq<Item>, b: seq<Item>)
    ensures Table(a + b) == Table(b + a)
  {
    forall i | 0 <= i < |Years| ensures YearTotal(a + b, Years[i]) == YearTotal(b + a, Years[i]) {
      AccumulatedAppend(a, b, Years[i]);
      AccumulatedAppend(b, a, Years[i]);
    }
  }

  /** Taking one item out of a batch takes its contribution out of the totals. */
  lemma AccumulatedRemove(b: seq<Item>, j: nat, y: string)
    requires j < |b|
    ensures Accumulated(b, y) == Plus(Accumulated(b[..j] + b[j + 1..], y), Accumulated([b[j]], y))
  {
    assert b == b[..j] + [b[j]] + b[j + 1..];
    AccumulatedAppend(b[..j] + [b[j]], b[j + 1..], y);
    AccumulatedAppend(b[..j], [b[j]], y);
    AccumulatedAppend(b[..j], b[j + 1..], y);
  }

  /** Removing the last item of `a` and the same item from `b` keeps the two batches equal as multisets. */
  lemma RemoveSame(a: seq<Item>, b: seq<Item>, j: nat)
    requires multiset(a) == multiset(b) && a != [] && j < |b| && b[j] == a[|a| - 1]
    ensures multiset(a[..|a| - 1]) == multiset(b[..j] + b[j + 1..])
  {
    var n := |a| - 1;
    assert a == a[..n] + [a[n]];
    assert multiset(a) == multiset(a[..n]) + multiset{a[n]};
    assert b == b[..j] + [b[j]] + b[j + 1..];
    assert multiset(b) == multiset(b[..j]) + multiset{b[j]} + multiset(b[j + 1..]);
    assert multiset(b[..j] + b[j + 1..]) == multiset(b[..j]) + multiset(b[j + 1..]);
    assert multiset(a[..n]) == multiset(a) - multiset{a[n]};
    assert multiset(b[..j]) + multiset(b[j + 1..]) == multiset(b) - multiset{b[j]};
  }

  /** Two batches holding the same items, in any order, have the same totals. */
  lemma {:induction false} AccumulatedPermutation(a: seq<Item>, b: seq<Item>, y: string)
    requires multiset(a) == multiset(b)
    ensures Accumulated(a, y) == Accumulated(b, y)
    decreases |a|
  {
    if a == [] {
      assert |b| == |multiset(b)| == 0;
    } else {
      var n := |a| - 1;
      var x := a[n];
      assert a == a[..n] + [x];
      assert x in multiset(b);
      var j :| 0 <= j < |b| && b[j] == x;
      var rest := b[..j] + b[j + 1..];
      RemoveSame(a, b, j);
      AccumulatedPermutation(a[..n], rest, y);
      AccumulatedAppend(a[..n], [x], y);
      AccumulatedRemove(b, j, y);
    }
  }

  /** The totals depend only on which items there are, not on their order. */
  lemma TablePermutation(a: seq<Item>, b: seq<Item>)
    requires multiset(a) == multiset(b)
    ensures Table(a) == Table(b)
  {
    forall i | 0 <= i < |Years| ensures YearTotal(a, Years[i]) == YearTotal(b, Years[i]) {
      AccumulatedPermutation(a, b, Years[i]);
    }
  }

  /**
   * The worked example: two titles of 2025, (100, 50, 300) and (200, 0, 100),
   * give production 300, marketing 50, revenue 400, two titles and an ROI of
   * (400 - 350) / 350 * 100 = 100/7, about 14.29.
   */
  lemma TwoTitleExample(a: Item, b: Item)
    requires a.year == "2025" && a.productionBudget == 100 && a.marketingBudget == 50 && a.projectedRevenue == 300
    requires b.year == "2025" && b.productionBudget == 200 && b.marketingBudget == 0 && b.projectedRevenue == 100
    ensures YearTotal([a, b], "2025") == Totals(300, 50, 400, 2, 100.0 / 7.0)
  {
    assert [a, b][..1] == [a];
    assert [a][..0] == [];
    assert Accumulated([a], "2025") == Add(Zero, a);
    assert Accumulated([a, b], "2025") == Add(Add(Zero, a), b);
    assert Roi(300, 50, 400) == 50.0 / 350.0 * 100.0;
  }

  // ---------------------------------------------------------------------------
  // getTotalMetrics
  // ---------------------------------------------------------------------------

  datatype Metrics = Metrics(totalRevenue: int, totalInvestment: int, totalTitles: int)

  /** `getTotalMetrics`: revenue, investment and titles summed over the values of the totals object. */
  function TotalMetrics(totals: YearTotals): Metrics {
    if totals == [] then Metrics(0, 0, 0)
    else
      var n := |totals| - 1;
      var m := TotalMetrics(totals[..n]);
      var t := totals[n].1;
      Metrics(m.totalRevenue + t.revenue, m.totalInvestment + t.production + t.marketing, m.totalTitles + t.titles)
  }

  /** The revenue, investment and number of the items filed under a displayed year. */
  function InYears(items: seq<Item>): Metrics {
    if items == [] then Metrics(0, 0, 0)
    else
      var n := |items| - 1;
      var m := InYears(items[..n]);
      var x := items[n];
      if x.year in Years
      then Metrics(m.totalRevenue + x.projectedRevenue, m.totalInvestment + x.productionBudget + x.marketingBudget, m.totalTitles + 1)
      else m
  }

  /** The summary over the given years of the accumulated totals. */
  function Across(items: seq<Item>, ys: seq<string>): Metrics {
    if ys == [] then Metrics(0, 0, 0)
    else
      var n := |ys| - 1;
      var m := Across(items, ys[..n]);
      var t := Accumulated(items, ys[n]);
      Metrics(m.totalRevenue + t.revenue, m.totalInvestment + t.production + t.marketing, m.totalTitles + t.titles)
  }

  /** One more item changes the summary over distinct years only when its year is one of them. */
  lemma {:induction false} AcrossStep(items: seq<Item>, x: Item, ys: seq<string>)
    requires NoDuplicates(ys)
    ensures var before, after := Across(items, ys), Across(items + [x], ys);
      after == if x.year in ys
               then Metrics(before.totalRevenue + x.projectedRevenue,
                            before.totalInvestment + x.productionBudget + x.marketingBudget,
                            before.totalTitles + 1)
               else before
  {
    if ys != [] {
      var n := |ys| - 1;
      AcrossStep(items, x, ys[..n]);
      assert (items + [x])[..|items|] == items;
      assert ys == ys[..n] + [ys[n]];
      assert x.year in ys <==> x.year in ys[..n] || x.year == ys[n];
    }
  }

  lemma YearsAreDistinct()
    ensures NoDuplicates(Years)
  {
  }

  lemma {:induction false} AcrossNothing(ys: seq<string>)
    ensures Across([], ys) == Metrics(0, 0, 0)
  {
    if ys != [] {
      AcrossNothing(ys[..|ys| - 1]);
    }
  }

  lemma {:induction false} AcrossIsInYears(items: seq<Item>)
    ensures Across(items, Years) == InYears(items)
  {
    if items != [] {
      YearsAreDistinct();
      var n := |items| - 1;
      AcrossIsInYears(items[..n]);
      assert items == items[..n] + [items[n]];
      AcrossStep(items[..n], items[n], Years);
    } else {
      AcrossNothing(Years);
    }
  }

  lemma {:induction false} TotalMetricsOfPrefix(items: seq<Item>, k: nat)
    requires k <= |Years|
    ensures TotalMetrics(Table(items)[..k]) == Across(items, Years[..k])
  {
    if k > 0 {
      TotalMetricsOfPrefix(items, k - 1);
      assert Table(items)[..k][..k - 1] == Table(items)[..k - 1];
      assert Years[..k][..k - 1] == Years[..k - 1];
    }
  }

  /**
   * The dashboard summary counts exactly the items filed under a displayed
   * year: their number, their projected revenue and their investment.
   */
  lemma TotalMetricsCountsDisplayedItems(items: seq<Item>)
    ensures TotalMetrics(Table(items)) == InYears(items)
  {
    TotalMetricsOfPrefix(items, |Years|);
    assert Table(items)[..|Years|] == Table(items);
    assert Years[..|Years|] == Years;
    AcrossIsInYears(items);
  }
}
