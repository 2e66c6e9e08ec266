/**
 * The dashboard's views of the slate: the three-way filter, the option lists
 * of its dropdowns, the grouping by year, and the two local list edits (the
 * optimistic title move and the edit merge), plus the theme cycle.
 */
module Projection {
  import opened Wrappers
  import opened Seqs
  import opened Slate

  /** The sentinel option that switches a filter off. */
  const All: string := "All"

  /** The three dropdown selections. */
  datatype Selection = Selection(year: string, genre: string, status: string)

  /** An item passes when every selection is `All` or equals the item's field. */
  predicate Admits(sel: Selection, item: Item) {
    && (sel.year == All || item.year == sel.year)
    && (sel.genre == All || item.genre == sel.genre)
    && (sel.status == All || item.status == sel.status)
  }

  /** `items.filter(...)` with the three selections. */
  function Filter(items: seq<Item>, sel: Selection): (r: seq<Item>)
    ensures |r| <= |items|
    ensures forall i :: 0 <= i < |r| ==> Admits(sel, r[i])
  {
    if items == [] then []
    else
      var n := |items| - 1;
      Filter(items[..n], sel) + (if Admits(sel, items[n]) then [items[n]] else [])
  }

  /** Filtering a concatenation filters each part and keeps their order. */
  lemma {:induction false} FilterAppend(a: seq<Item>, b: seq<Item>, sel: Selection)
    ensures Filter(a + b, sel) == Filter(a, sel) + Filter(b, sel)
  {
    if b == [] {
      assert a + b == a;
    } else {
      var n := |b| - 1;
      var ab := a + b;
      var tail: seq<Item> := if Admits(sel, b[n]) then [b[n]] else [];
      assert ab[..|ab| - 1] == a + b[..n] && ab[|ab| - 1] == b[n];
      calc {
        Filter(ab, sel);
        Filter(a + b[..n], sel) + tail;
        { FilterAppend(a, b[..n], sel); }
        (Filter(a, sel) + Filter(b[..n], sel)) + tail;
        Filter(a, sel) + (Filter(b[..n], sel) + tail);
        Filter(a, sel) + Filter(b, sel);
      }
    }
  }

  /**
   * Together with `FilterAppend`, this pins the filter down as the
   * order-preserving subsequence of the admitted items.
   */
  lemma FilterSingle(x: Item, sel: Selection)
    ensures Filter([x], sel) == if Admits(sel, x) then [x] else []
  {
    assert [x][..0] == [];
  }

  /** An item is in the result exactly when it is in the input and passes. */
  lemma {:induction false} FilterMembership(items: seq<Item>, sel: Selection, x: Item)
    ensures x in Filter(items, sel) <==> x in items && Admits(sel, x)
  {
    if items != [] {
      var n := |items| - 1;
      FilterMembership(items[..n], sel, x);
      assert items == items[..n] + [items[n]];
    }
  }

  /** With every dropdown on `All` the list is shown unchanged. */
  lemma {:induction false} FilterAllIsIdentity(items: seq<Item>)
    ensures Filter(items, Selection(All, All, All)) == items
  {
    if items != [] {
      var n := |items| - 1;
      FilterAllIsIdentity(items[..n]);
      assert items == items[..n] + [items[n]];
    }
  }

  /** Filtering twice with the same selections changes nothing more. */
  lemma {:induction false} FilterIdempotent(items: seq<Item>, sel: Selection)
    ensures Filter(Filter(items, sel), sel) == Filter(items, sel)
  {
    if items != [] {
      var n := |items| - 1;
      FilterIdempotent(items[..n], sel);
      FilterAppend(Filter(items[..n], sel), if Admits(sel, items[n]) then [items[n]] else [], sel);
      if Admits(sel, items[n]) {
        FilterSingle(items[n], sel);
      } else {
        assert Filter([], sel) == [];
      }
    }
  }

  // ---------------------------------------------------------------------------
  // Option lists
  // ---------------------------------------------------------------------------

  function Years(items: seq<Item>): seq<string> {
    seq(|items|, i requires 0 <= i < |items| => items[i].year)
  }

  function Genres(items: seq<Item>): seq<string> {
    seq(|items|, i requires 0 <= i < |items| => items[i].genre)
  }

  function Statuses(items: seq<Item>): seq<string> {
    seq(|items|, i requires 0 <= i < |items| => items[i].status)
  }

  /** `.filter(Boolean)` on strings: the empty string is dropped. */
  function NonEmpty(xs: seq<string>): (r: seq<string>)
    ensures forall i :: 0 <= i < |r| ==> r[i] != ""
    ensures forall i :: 0 <= i < |r| ==> r[i] in xs
    ensures forall i :: 0 <= i < |xs| && xs[i] != "" ==> xs[i] in r
  {
    if xs == [] then []
    else
      var n := |xs| - 1;
      NonEmpty(xs[..n]) + (if xs[n] != "" then [xs[n]] else [])
  }

  /** `.filter(Boolean)` keeps order: it distributes over concatenation. */
  lemma {:induction false} NonEmptyAppend(a: seq<string>, b: seq<string>)
    ensures NonEmpty(a + b) == NonEmpty(a) + NonEmpty(b)
  {
    if b == [] {
      assert a + b == a;
    } else {
      var n := |b| - 1;
      var ab := a + b;
      var tail: seq<string> := if b[n] != "" then [b[n]] else [];
      assert ab[..|ab| - 1] == a + b[..n] && ab[|ab| - 1] == b[n];
      calc {
        NonEmpty(ab);
        NonEmpty(a + b[..n]) + tail;
        { NonEmptyAppend(a, b[..n]); }
        (NonEmpty(a) + NonEmpty(b[..n])) + tail;
        NonEmpty(a) + (NonEmpty(b[..n]) + tail);
        NonEmpty(a) + NonEmpty(b);
      }
    }
  }

  /** A single string is kept exactly when it is non-empty. */
  lemma NonEmptySingle(x: string)
    ensures NonEmpty([x]) == if x != "" then [x] else []
  {
    assert [x][..0] == [];
  }

  /** `['All', ...new Set(values)]`. */
  function Options(values: seq<string>): seq<string> {
    [All] + Distinct(values)
  }

  function YearOptions(items: seq<Item>): seq<string> {
    Options(Years(items))
  }

  function GenreOptions(items: seq<Item>): seq<string> {
    Options(NonEmpty(Genres(items)))
  }

  function StatusOptions(items: seq<Item>): seq<string> {
    Options(NonEmpty(Statuses(items)))
  }

  /**
   * An option list is `All` followed by each value once, in the order in
   * which the values first appear.
   */
  lemma OptionsMeaning(values: seq<string>)
    ensures |Options(values)| >= 1 && Options(values)[0] == All
    ensures NoDuplicates(Options(values)[1..])
    ensures forall v :: v in Options(values)[1..] <==> v in values
    ensures forall i, j :: 1 <= i < j < |Options(values)| ==>
      IndexOf(values, Options(values)[i]) < IndexOf(values, Options(values)[j])
  {
    var d := Distinct(values);
    assert Options(values)[1..] == d;
    forall v ensures v in d <==> v in values {
      if v in values {
        var k :| 0 <= k < |values| && values[k] == v;
        assert values[k] in d;
      }
    }
  }

  /** The year dropdown offers every year of the slate, the empty one included. */
  lemma YearOptionsOffer(items: seq<Item>, i: nat)
    requires i < |items|
    ensures items[i].year in YearOptions(items)[1..]
  {
    OptionsMeaning(Years(items));
    assert Years(items)[i] == items[i].year;
  }

  /** The genre and status dropdowns offer exactly the non-empty values of the slate. */
  lemma GenreOptionsOffer(items: seq<Item>, g: string)
    ensures g in GenreOptions(items)[1..] <==> g != "" && g in Genres(items)
  {
    OptionsMeaning(NonEmpty(Genres(items)));
    if g != "" && g in Genres(items) {
      var k :| 0 <= k < |Genres(items)| && Genres(items)[k] == g;
    }
    if g in NonEmpty(Genres(items)) {
      var k :| 0 <= k < |NonEmpty(Genres(items))| && NonEmpty(Genres(items))[k] == g;
    }
  }

  lemma StatusOptionsOffer(items: seq<Item>, s: string)
    ensures s in StatusOptions(items)[1..] <==> s != "" && s in Statuses(items)
  {
    OptionsMeaning(NonEmpty(Statuses(items)));
    if s != "" && s in Statuses(items) {
      var k :| 0 <= k < |Statuses(items)| && Statuses(items)[k] == s;
    }
    if s in NonEmpty(Statuses(items)) {
      var k :| 0 <= k < |NonEmpty(Statuses(items))| && NonEmpty(Statuses(items))[k] == s;
    }
  }

  // ---------------------------------------------------------------------------
  // Group by year
  // ---------------------------------------------------------------------------

  /** The `itemsByYear` object: one bucket per year, keys in first-appearance order. */
  type Buckets = seq<(string, seq<Item>)>

  function BucketKeys(g: Buckets): seq<string> {
    seq(|g|, i requires 0 <= i < |g| => g[i].0)
  }

  function Bucket(g: Buckets, k: string): Option<seq<Item>> {
    if g == [] then None
    else
      var n := |g| - 1;
      if g[n].0 == k then Some(g[n].1) else Bucket(g[..n], k)
  }

  /** `acc[year].push(item)`, creating the bucket at the end when the year is new. */
  function Push(g: Buckets, k: string, x: Item): Buckets {
    if k !in BucketKeys(g) then g + [(k, [x])]
    else
      var n := |g| - 1;
      if g[n].0 == k then g[..n] + [(k, g[n].1 + [x])]
      else Push(g[..n], k, x) + [g[n]]
  }

  /** The `reduce` that builds `itemsByYear`. */
  function GroupByYear(items: seq<Item>): Buckets {
    if items == [] then []
    else
      var n := |items| - 1;
      Push(GroupByYear(items[..n]), items[n].year, items[n])
  }

  /** The items of one year, in list order. */
  function OfYear(items: seq<Item>, y: string): (r: seq<Item>)
    ensures forall i :: 0 <= i < |r| ==> r[i].year == y
  {
    if items == [] then []
    else
      var n := |items| - 1;
      OfYear(items[..n], y) + (if items[n].year == y then [items[n]] else [])
  }

  lemma {:induction false} BucketAbsent(g: Buckets, k: string)
    requires k !in BucketKeys(g)
    ensures Bucket(g, k) == None
  {
    if g != [] {
      var n := |g| - 1;
      assert BucketKeys(g) == BucketKeys(g[..n]) + [g[n].0];
      BucketAbsent(g[..n], k);
    }
  }

  lemma {:induction false} PushKeys(g: Buckets, k: string, x: Item)
    ensures BucketKeys(Push(g, k, x)) == if k in BucketKeys(g) then BucketKeys(g) else BucketKeys(g) + [k]
  {
    if k !in BucketKeys(g) {
      assert BucketKeys(g + [(k, [x])]) == BucketKeys(g) + [k];
    } else {
      var n := |g| - 1;
      assert BucketKeys(g) == BucketKeys(g[..n]) + [g[n].0];
      if g[n].0 != k {
        PushKeys(g[..n], k, x);
        assert BucketKeys(Push(g, k, x)) == BucketKeys(Push(g[..n], k, x)) + [g[n].0];
      } else {
        assert BucketKeys(Push(g, k, x)) == BucketKeys(g[..n]) + [k];
      }
    }
  }

  lemma {:induction false} PushBucket(g: Buckets, k: string, x: Item, j: string)
    ensures Bucket(Push(g, k, x), j) ==
      if j != k then Bucket(g, j)
      else Some(Bucket(g, k).GetOr([]) + [x])
  {
    if k !in BucketKeys(g) {
      BucketAbsent(g, k);
      assert (g + [(k, [x])])[..|g|] == g;
      assert Bucket(g, k).GetOr([]) + [x] == [x];
    } else {
      var n := |g| - 1;
      if g[n].0 == k {
        assert (g[..n] + [(k, g[n].1 + [x])])[..n] == g[..n];
      } else {
        PushBucket(g[..n], k, x, j);
        assert (Push(g[..n], k, x) + [g[n]])[..|Push(g[..n], k, x)|] == Push(g[..n], k, x);
      }
    }
  }

  /** The keys of `itemsByYear` are the distinct years, in first-appearance order. */
  lemma {:induction false} GroupKeys(items: seq<Item>)
    ensures BucketKeys(GroupByYear(items)) == Distinct(Years(items))
  {
    if items != [] {
      var n := |items| - 1;
      var ys, init := Years(items), Distinct(Years(items[..n]));
      GroupKeys(items[..n]);
      PushKeys(GroupByYear(items[..n]), items[n].year, items[n]);
      assert ys[..n] == Years(items[..n]) && ys[n] == items[n].year;
      assert Distinct(ys) == if ys[n] in init then init else init + [ys[n]];
    }
  }

  /** Each year's bucket holds exactly that year's items, in list order. */
  lemma {:induction false} GroupBuckets(items: seq<Item>, y: string)
    ensures Bucket(GroupByYear(items), y) == if y in Years(items) then Some(OfYear(items, y)) else None
  {
    if items != [] {
      var n := |items| - 1;
      GroupBuckets(items[..n], y);
      PushBucket(GroupByYear(items[..n]), items[n].year, items[n], y);
      assert Years(items) == Years(items[..n]) + [items[n].year];
      if y !in Years(items[..n]) {
        OfYearSplits(items[..n], y);
        assert multiset(Years(items[..n]))[y] == 0;
        assert OfYear(items[..n], y) == [];
        assert Bucket(GroupByYear(items[..n]), y).GetOr([]) == [];
      }
      if y != items[n].year {
        assert OfYear(items, y) == OfYear(items[..n], y) + [];
        assert OfYear(items[..n], y) + [] == OfYear(items[..n], y);
        assert y in Years(items) <==> y in Years(items[..n]);
      }
    }
  }

  /** The buckets share the items out: their sizes add up to the list's length. */
  lemma {:induction false} OfYearSplits(items: seq<Item>, y: string)
    ensures |OfYear(items, y)| == multiset(Years(items))[y]
  {
    if items != [] {
      var n := |items| - 1;
      OfYearSplits(items[..n], y);
      assert Years(items) == Years(items[..n]) + [items[n].year];
    }
  }

  // ---------------------------------------------------------------------------
  // Local list edits
  // ---------------------------------------------------------------------------

  /** The optimistic update of `handleTitleMove`: every item with the id gets the new year. */
  function MoveTitle(items: seq<Item>, id: string, newYear: string): (r: seq<Item>)
    ensures |r| == |items|
    ensures forall i :: 0 <= i < |r| ==> r[i].(year := items[i].year) == items[i]
    ensures forall i :: 0 <= i < |r| ==> r[i].year == if items[i].id == id then newYear else items[i].year
  {
    seq(|items|, i requires 0 <= i < |items| =>
      if items[i].id == id then items[i].(year := newYear) else items[i])
  }

  /** Items with another id come through the move untouched. */
  lemma MoveKeepsOthers(items: seq<Item>, id: string, newYear: string, i: nat)
    requires i < |items| && items[i].id != id
    ensures MoveTitle(items, id, newYear)[i] == items[i]
  {
    assert MoveTitle(items, id, newYear)[i].(year := items[i].year) == items[i];
  }

  /** Moving twice to the same year is moving once; moving back restores the list. */
  lemma MoveIdempotent(items: seq<Item>, id: string, y: string)
    ensures MoveTitle(MoveTitle(items, id, y), id, y) == MoveTitle(items, id, y)
  {
  }

  lemma MoveBack(items: seq<Item>, i: nat, y: string)
    requires i < |items|
    requires forall j :: 0 <= j < |items| && j != i ==> items[j].id != items[i].id
    ensures MoveTitle(MoveTitle(items, items[i].id, y), items[i].id, items[i].year) == items
  {
    var r := MoveTitle(MoveTitle(items, items[i].id, y), items[i].id, items[i].year);
    forall j | 0 <= j < |items| ensures r[j] == items[j] {
      if j != i {
        MoveKeepsOthers(items, items[i].id, y, j);
        MoveKeepsOthers(MoveTitle(items, items[i].id, y), items[i].id, items[i].year, j);
      }
    }
  }

  /**
   * The edit buffer: `handleEditStart` fills these four fields, and
   * `handleEditCancel` empties it. A missing field leaves the item's own.
   */
  datatype EditValues = EditValues(
    productionBudget: Option<int>,
    marketingBudget: Option<int>,
    projectedRevenue: Option<int>,
    status: Option<string>)

  const NoEdits: EditValues := EditValues(None, None, None, None)

  /** What `handleEditStart` copies from the item. */
  function EditStart(item: Item): EditValues {
    EditValues(Some(item.productionBudget), Some(item.marketingBudget), Some(item.projectedRevenue), Some(item.status))
  }

  /** `{ ...item, ...editValues }`. */
  function Merge(item: Item, ev: EditValues): (r: Item)
    ensures r.(productionBudget := item.productionBudget, marketingBudget := item.marketingBudget,
               projectedRevenue := item.projectedRevenue, status := item.status) == item
    ensures ev.productionBudget.Some? ==> r.productionBudget == ev.productionBudget.value
    ensures ev.productionBudget.None? ==> r.productionBudget == item.productionBudget
    ensures ev.marketingBudget.Some? ==> r.marketingBudget == ev.marketingBudget.value
    ensures ev.marketingBudget.None? ==> r.marketingBudget == item.marketingBudget
    ensures ev.projectedRevenue.Some? ==> r.projectedRevenue == ev.projectedRevenue.value
    ensures ev.projectedRevenue.None? ==> r.projectedRevenue == item.projectedRevenue
    ensures ev.status.Some? ==> r.status == ev.status.value
    ensures ev.status.None? ==> r.status == item.status
  {
    item.(productionBudget := ev.productionBudget.GetOr(item.productionBudget),
          marketingBudget := ev.marketingBudget.GetOr(item.marketingBudget),
          projectedRevenue := ev.projectedRevenue.GetOr(item.projectedRevenue),
          status := ev.status.GetOr(item.status))
  }

  /** Saving an unchanged edit buffer, or an empty one, leaves the item as it was. */
  lemma MergeUnchanged(item: Item)
    ensures Merge(item, EditStart(item)) == item
    ensures Merge(item, NoEdits) == item
  {
  }

  /** Merging the same buffer twice is merging it once. */
  lemma MergeIdempotent(item: Item, ev: EditValues)
    ensures Merge(Merge(item, ev), ev) == Merge(item, ev)
  {
  }

  /** The list after a successful save: the item with the id gets the merged fields. */
  function ApplyEdit(items: seq<Item>, id: string, ev: EditValues): (r: seq<Item>)
    ensures |r| == |items|
    ensures forall i :: 0 <= i < |r| ==> r[i].id == items[i].id && r[i].name == items[i].name && r[i].year == items[i].year
    ensures forall i :: 0 <= i < |r| && items[i].id != id ==> r[i] == items[i]
  {
    seq(|items|, i requires 0 <= i < |items| => if items[i].id == id then Merge(items[i], ev) else items[i])
  }

  /** An edit never moves a title, so the year grouping keeps its keys. */
  lemma EditKeepsYears(items: seq<Item>, id: string, ev: EditValues)
    ensures Years(ApplyEdit(items, id, ev)) == Years(items)
  {
  }

  // ---------------------------------------------------------------------------
  // Theme cycle
  // ---------------------------------------------------------------------------

  const Themes: seq<string> := ["regular", "dark", "night"]

  /** `themes[(themes.indexOf(mode) + 1) % themes.length]`. */
  function NextTheme(mode: string): (r: string)
    ensures r in Themes
  {
    Themes[(IndexOf(Themes, mode) + 1) % |Themes|]
  }

  lemma ThemeIndices()
    ensures IndexOf(Themes, "regular") == 0
    ensures IndexOf(Themes, "dark") == 1
    ensures IndexOf(Themes, "night") == 2
  {
    assert Themes[0] == "regular" && Themes[1] == "dark" && Themes[2] == "night";
  }

  /** The cycle goes regular, dark, night, regular; an unknown mode restarts at regular. */
  lemma ThemeCycle(mode: string)
    ensures mode == "regular" ==> NextTheme(mode) == "dark"
    ensures mode == "dark" ==> NextTheme(mode) == "night"
    ensures mode == "night" ==> NextTheme(mode) == "regular"
    ensures mode !in Themes ==> NextTheme(mode) == "regular"
  {
    ThemeIndices();
  }

  /** Three presses bring a known theme back; from an unknown mode they end on night. */
  lemma ThemeThreeSteps(mode: string)
    ensures NextTheme(NextTheme(NextTheme(mode))) == if mode in Themes then mode else "night"
  {
    ThemeCycle(mode);
    ThemeCycle("regular");
    ThemeCycle("dark");
    ThemeCycle("night");
    assert mode in Themes <==> mode == "regular" || mode == "dark" || mode == "night";
  }
}
