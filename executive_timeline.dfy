/**
 * The executive timeline: its time axis over one chosen date field of the
 * items, the genre swim lanes and the items placed in them, and the date
 * field it starts with.
 */
module ExecutiveTimeline {
  import opened Wrappers
  import opened Text
  import opened Seqs
  import opened Calendar
  import opened Records

  /** One entry of the date-field selector. */
  datatype DateColumn = DateColumn(key: string, caption: string)

  /** `SAMPLE_DATE_COLUMNS`, used when no date columns are passed in. */
  const SampleDateColumns: seq<DateColumn> := [
    DateColumn("releaseDate", "Release Date"), DateColumn("premiereDate", "Premiere"), DateColumn("wrapDate", "Wrap Date")]

  /** `dateColumns[0]?.key || 'releaseDate'`, with the sample columns as the default argument. */
  function InitialDateKey(dateColumns: Option<seq<DateColumn>>): (key: string)
    ensures key != ""
    ensures dateColumns.None? ==> key == "releaseDate"
    ensures dateColumns.Some? && |dateColumns.value| > 0 && dateColumns.value[0].key != "" ==> key == dateColumns.value[0].key
    ensures dateColumns.Some? && (|dateColumns.value| == 0 || dateColumns.value[0].key == "") ==> key == "releaseDate"
    // The selector starts on a column it offers, or on the release date.
    ensures key == "releaseDate" || exists c :: c in dateColumns.GetOr(SampleDateColumns) && c.key == key
  {
    var cols := dateColumns.GetOr(SampleDateColumns);
    if |cols| > 0 && cols[0].key != "" then cols[0].key else "releaseDate"
  }

  /** Without columns, or with the sample ones, the timeline starts on the release date. */
  lemma InitialDateKeyDefaults()
    ensures InitialDateKey(None) == "releaseDate"
    ensures InitialDateKey(Some([])) == "releaseDate"
  {
  }

  // ---------------------------------------------------------------------------
  // Time axis
  // ---------------------------------------------------------------------------

  /** `items.map(i => parseDate(i[dateKey])).filter(Boolean)`. */
  function DatesOf(items: seq<Record>, dateKey: string, parse: string -> Option<CivilDate>): (ds: seq<CivilDate>)
    ensures |ds| <= |items|
    ensures forall d :: d in ds <==> exists i :: 0 <= i < |items| && ParseDate(parse, Field(items[i], dateKey)) == Some(d)
  {
    if items == [] then []
    else
      var n := |items| - 1;
      var d := ParseDate(parse, Field(items[n], dateKey));
      DatesOf(items[..n], dateKey, parse) + (if d.Some? then [d.value] else [])
  }

  /** A tick of the axis: its caption and its date. */
  datatype Tick = Tick(caption: string, value: CivilDate)

  /** The year ticks: captioned with the year in decimal. */
  function YearTicks(ws: seq<CivilDate>): (ts: seq<Tick>)
    ensures |ts| == |ws|
    ensures forall i :: 0 <= i < |ts| ==> ts[i] == Tick(DecimalString(ws[i].year), ws[i])
  {
    seq(|ws|, i requires 0 <= i < |ws| => Tick(DecimalString(ws[i].year), ws[i]))
  }

  /** Month and day ticks: the captions come from the locale, a parameter here. */
  function CaptionedTicks(ws: seq<CivilDate>, caption: CivilDate -> string): (ts: seq<Tick>)
    ensures |ts| == |ws|
    ensures forall i :: 0 <= i < |ts| ==> ts[i].value == ws[i]
  {
    seq(|ws|, i requires 0 <= i < |ws| => Tick(caption(ws[i]), ws[i]))
  }

  /**
   * What `getTimeTicks(items, dateKey, zoomLevel)` returns. `monthCaption`
   * and `dayCaption` stand for the `toLocaleString` and
   * `toLocaleDateString` captions.
   */
  function TimeTicks(items: seq<Record>, dateKey: string, zoomLevel: string, parse: string -> Option<CivilDate>,
                     monthCaption: CivilDate -> string, dayCaption: CivilDate -> string): seq<Tick>
  {
    var dates := DatesOf(items, dateKey, parse);
    if dates == [] then []
    else
      var lo, hi := Earliest(dates), Latest(dates);
      if zoomLevel == "year" then YearTicks(YearWalk(lo.year, hi.year))
      else if zoomLevel == "month" then CaptionedTicks(MonthWalk(MonthStart(lo), hi), monthCaption)
      else if zoomLevel == "day" then CaptionedTicks(DayWalk(lo, hi), dayCaption)
      else []
  }

  lemma YearTicksStep(y: int, last: int)
    requires y <= last
    ensures YearTicks(YearWalk(y, last)) == [Tick(DecimalString(y), YearStart(y))] + YearTicks(YearWalk(y + 1, last))
  {
    assert YearWalk(y, last) == [YearStart(y)] + YearWalk(y + 1, last);
  }

  lemma CaptionedTicksStep(d: CivilDate, ws: seq<CivilDate>, caption: CivilDate -> string)
    ensures CaptionedTicks([d] + ws, caption) == [Tick(caption(d), d)] + CaptionedTicks(ws, caption)
  {
  }

  /** `getTimeTicks`: drop the undated items, then walk first the earliest date last the latest. */
  method GetTimeTicks(items: seq<Record>, dateKey: string, zoomLevel: string, parse: string -> Option<CivilDate>,
                      monthCaption: CivilDate -> string, dayCaption: CivilDate -> string) returns (ticks: seq<Tick>)
    ensures ticks == TimeTicks(items, dateKey, zoomLevel, parse, monthCaption, dayCaption)
  {
    var dates := DatesOf(items, dateKey, parse);
    if |dates| == 0 {
      return [];
    }
    var lo, hi := Earliest(dates), Latest(dates);
    if zoomLevel == "year" {
      ticks := YearLoop(lo.year, hi.year);
    } else if zoomLevel == "month" {
      ticks := MonthLoop(MonthStart(lo), hi, monthCaption);
    } else if zoomLevel == "day" {
      ticks := DayLoop(lo, hi, dayCaption);
    } else {
      ticks := [];
    }
  }

  /** The `for` loop over the years. */
  method YearLoop(first: int, last: int) returns (ticks: seq<Tick>)
    ensures ticks == YearTicks(YearWalk(first, last))
  {
    ticks := [];
    var y := first;
    assert ticks + YearTicks(YearWalk(y, last)) == YearTicks(YearWalk(first, last));
    while y <= last
      invariant ticks + YearTicks(YearWalk(y, last)) == YearTicks(YearWalk(first, last))
      decreases last - y
    {
      YearTicksStep(y, last);
      ticks := ticks + [Tick(DecimalString(y), YearStart(y))];
      y := y + 1;
    }
  }

  /** The `while` loop that advances a first of month with `setMonth`. */
  method MonthLoop(start: CivilDate, end: CivilDate, caption: CivilDate -> string) returns (ticks: seq<Tick>)
    requires start.day == 1
    ensures ticks == CaptionedTicks(MonthWalk(start, end), caption)
  {
    ticks := [];
    var d := start;
    while NotAfter(d, end)
      invariant d.day == 1
      invariant ticks + CaptionedTicks(MonthWalk(d, end), caption) == CaptionedTicks(MonthWalk(start, end), caption)
      decreases Ord(end) - Ord(d)
    {
      assert MonthWalk(d, end) == [d] + MonthWalk(NextMonth(d), end);
      CaptionedTicksStep(d, MonthWalk(NextMonth(d), end), caption);
      ticks := ticks + [Tick(caption(d), d)];
      d := NextMonth(d);
    }
  }

  /** The `while` loop that advances a day with `setDate`. */
  method DayLoop(start: CivilDate, end: CivilDate, caption: CivilDate -> string) returns (ticks: seq<Tick>)
    ensures ticks == CaptionedTicks(DayWalk(start, end), caption)
  {
    ticks := [];
    var d := start;
    while NotAfter(d, end)
      invariant ticks + CaptionedTicks(DayWalk(d, end), caption) == CaptionedTicks(DayWalk(start, end), caption)
      decreases Ord(end) - Ord(d)
    {
      assert DayWalk(d, end) == [d] + DayWalk(NextDay(d), end);
      CaptionedTicksStep(d, DayWalk(NextDay(d), end), caption);
      ticks := ticks + [Tick(caption(d), d)];
      d := NextDay(d);
    }
  }

  /** An item whose date field is missing or does not parse changes no tick. */
  lemma {:induction false} UndatedItemsIgnored(items: seq<Record>, x: Record, dateKey: string, parse: string -> Option<CivilDate>)
    requires ParseDate(parse, Field(x, dateKey)).None?
    ensures DatesOf(items + [x], dateKey, parse) == DatesOf(items, dateKey, parse)
  {
    assert (items + [x])[..|items|] == items;
  }

  /** With no parsable date there are no ticks, at any zoom. */
  lemma NoDatesNoTicks(items: seq<Record>, dateKey: string, zoomLevel: string, parse: string -> Option<CivilDate>,
                       monthCaption: CivilDate -> string, dayCaption: CivilDate -> string)
    requires forall i :: 0 <= i < |items| ==> ParseDate(parse, Field(items[i], dateKey)).None?
    ensures TimeTicks(items, dateKey, zoomLevel, parse, monthCaption, dayCaption) == []
  {
    NoDates(items, dateKey, parse);
  }

  lemma {:induction false} NoDates(items: seq<Record>, dateKey: string, parse: string -> Option<CivilDate>)
    requires forall i :: 0 <= i < |items| ==> ParseDate(parse, Field(items[i], dateKey)).None?
    ensures DatesOf(items, dateKey, parse) == []
  {
    if items != [] {
      NoDates(items[..|items| - 1], dateKey, parse);
    }
  }

  /**
   * At year zoom the ticks are Jan 1 of each year from the earliest date's
   * to the latest's, captioned with that year.
   */
  lemma YearTicksMeaning(items: seq<Record>, dateKey: string, parse: string -> Option<CivilDate>,
                         monthCaption: CivilDate -> string, dayCaption: CivilDate -> string)
    requires DatesOf(items, dateKey, parse) != []
    ensures var dates := DatesOf(items, dateKey, parse);
      var lo, hi := Earliest(dates).year, Latest(dates).year;
      var ts := TimeTicks(items, dateKey, "year", parse, monthCaption, dayCaption);
      && |ts| == hi - lo + 1
      && (forall i :: 0 <= i < |ts| ==> ts[i] == Tick(DecimalString(lo + i), Date(lo + i, 1, 1)))
  {
    var dates := DatesOf(items, dateKey, parse);
    var lo, hi := Earliest(dates).year, Latest(dates).year;
    YearWalkMeaning(lo, hi);
    assert NotAfter(Earliest(dates), Latest(dates));
  }

  /** Each year caption reads back, through `parseInt`, as its tick's year. */
  lemma YearCaptionsReadBack(ts: seq<CivilDate>, i: nat)
    requires i < |ts|
    ensures ParseInt(YearTicks(ts)[i].caption) == Some(YearTicks(ts)[i].value.year)
  {
    ParseIntOfDecimalString(ts[i].year);
  }

  /**
   * At month and day zoom the tick dates strictly increase from the first of
   * the earliest date's month (or from the earliest date) and never pass the
   * latest date.
   */
  lemma MonthTicksMeaning(items: seq<Record>, dateKey: string, parse: string -> Option<CivilDate>,
                          monthCaption: CivilDate -> string, dayCaption: CivilDate -> string)
    requires DatesOf(items, dateKey, parse) != []
    ensures var dates := DatesOf(items, dateKey, parse);
      var ts := TimeTicks(items, dateKey, "month", parse, monthCaption, dayCaption);
      && (|ts| > 0 && ts[0].value == MonthStart(Earliest(dates)))
      && (forall i :: 0 <= i < |ts| ==> ts[i].value.day == 1 && NotAfter(ts[i].value, Latest(dates)))
      && (forall i :: 0 <= i < |ts| - 1 ==> Ord(ts[i].value) < Ord(ts[i + 1].value))
  {
    var dates := DatesOf(items, dateKey, parse);
    MonthWalkMeaning(MonthStart(Earliest(dates)), Latest(dates));
  }

  lemma DayTicksMeaning(items: seq<Record>, dateKey: string, parse: string -> Option<CivilDate>,
                        monthCaption: CivilDate -> string, dayCaption: CivilDate -> string)
    requires DatesOf(items, dateKey, parse) != []
    ensures var dates := DatesOf(items, dateKey, parse);
      var ts := TimeTicks(items, dateKey, "day", parse, monthCaption, dayCaption);
      && (|ts| > 0 && ts[0].value == Earliest(dates))
      && (forall i :: 0 <= i < |ts| ==> NotAfter(ts[i].value, Latest(dates)))
      && (forall i :: 0 <= i < |ts| - 1 ==> ts[i + 1].value == NextDay(ts[i].value))
  {
    var dates := DatesOf(items, dateKey, parse);
    DayWalkMeaning(Earliest(dates), Latest(dates));
  }

  // ---------------------------------------------------------------------------
  // Genre lanes
  // ---------------------------------------------------------------------------

  /** `item.genre || 'Other'`. */
  function GenreOf(item: Record): (g: string)
    ensures g != ""
  {
    FieldOr(item, "genre", "Other")
  }

  function ItemGenres(items: seq<Record>): seq<string> {
    seq(|items|, i requires 0 <= i < |items| => GenreOf(items[i]))
  }

  /** `genresList`: the distinct genres, in first-appearance order. */
  function GenresList(items: seq<Record>): (gs: seq<string>)
    ensures NoDuplicates(gs)
    ensures forall k :: 0 <= k < |gs| ==> gs[k] != "" && gs[k] in ItemGenres(items)
    ensures forall i :: 0 <= i < |items| ==> GenreOf(items[i]) in gs
    ensures forall k, l :: 0 <= k < l < |gs| ==> IndexOf(ItemGenres(items), gs[k]) < IndexOf(ItemGenres(items), gs[l])
  {
    var gs := Distinct(ItemGenres(items));
    assert forall i :: 0 <= i < |items| ==> ItemGenres(items)[i] == GenreOf(items[i]);
    gs
  }

  /** `{ ...item, _date: date }`. */
  datatype Dated = Dated(item: Record, date: CivilDate)

  /** The items of genre `g` whose date parses, with their dates, in list order. */
  function DatedOfGenre(items: seq<Record>, g: string, dateKey: string, parse: string -> Option<CivilDate>): seq<Dated> {
    if items == [] then []
    else
      var n := |items| - 1;
      var d := ParseDate(parse, Field(items[n], dateKey));
      DatedOfGenre(items[..n], g, dateKey, parse)
        + (if GenreOf(items[n]) == g && d.Some? then [Dated(items[n], d.value)] else [])
  }

  /** The `genreItems` object: one bucket per entry of `genresList`, in that order. */
  function GenreBuckets(items: seq<Record>, dateKey: string, parse: string -> Option<CivilDate>): seq<(string, seq<Dated>)> {
    var gs := GenresList(items);
    seq(|gs|, k requires 0 <= k < |gs| => (gs[k], DatedOfGenre(items, gs[k], dateKey, parse)))
  }

  /** The buckets after the first `n` items have been pushed. */
  function BucketsAfter(items: seq<Record>, n: nat, gs: seq<string>, dateKey: string, parse: string -> Option<CivilDate>): seq<(string, seq<Dated>)>
    requires n <= |items|
  {
    seq(|gs|, k requires 0 <= k < |gs| => (gs[k], DatedOfGenre(items[..n], gs[k], dateKey, parse)))
  }

  /** `genreItems`: empty buckets for every genre, then each dated item pushed onto its genre's bucket. */
  method GenreItems(items: seq<Record>, dateKey: string, parse: string -> Option<CivilDate>)
    returns (buckets: seq<(string, seq<Dated>)>)
    ensures buckets == GenreBuckets(items, dateKey, parse)
  {
    var gs := GenresList(items);
    buckets := seq(|gs|, k requires 0 <= k < |gs| => (gs[k], []));
    BucketsBeforeAndAfter(items, gs, dateKey, parse);
    var n := 0;
    while n < |items|
      invariant 0 <= n <= |items|
      invariant buckets == BucketsAfter(items, n, gs, dateKey, parse)
    {
      buckets := PushItem(items, n, gs, dateKey, parse, buckets);
      n := n + 1;
    }
  }

  /** Before the `forEach` every bucket is empty; after it they are the `genreItems` buckets. */
  lemma BucketsBeforeAndAfter(items: seq<Record>, gs: seq<string>, dateKey: string, parse: string -> Option<CivilDate>)
    ensures BucketsAfter(items, 0, gs, dateKey, parse) == seq(|gs|, k requires 0 <= k < |gs| => (gs[k], []))
    ensures gs == GenresList(items) ==> BucketsAfter(items, |items|, gs, dateKey, parse) == GenreBuckets(items, dateKey, parse)
  {
    assert items[..|items|] == items;
  }

  /** The `forEach` callback: push the item, with its date, onto its genre's bucket when the date parses. */
  method PushItem(items: seq<Record>, n: nat, gs: seq<string>, dateKey: string, parse: string -> Option<CivilDate>,
                  buckets: seq<(string, seq<Dated>)>) returns (pushed: seq<(string, seq<Dated>)>)
    requires n < |items| && NoDuplicates(gs) && GenreOf(items[n]) in gs
    requires buckets == BucketsAfter(items, n, gs, dateKey, parse)
    ensures pushed == BucketsAfter(items, n + 1, gs, dateKey, parse)
  {
    var item := items[n];
    var genre := GenreOf(item);
    var date := ParseDate(parse, Field(item, dateKey));
    pushed := buckets;
    if genre != "" && date.Some? {
      var slot := IndexOf(gs, genre);
      pushed := buckets[slot := (gs[slot], buckets[slot].1 + [Dated(item, date.value)])];
    }
    BucketsStep(items, n, gs, dateKey, parse, buckets, pushed);
  }

  /** One pass of the `forEach`: pushing item `n` onto its genre's bucket gives the buckets of one more item. */
  lemma BucketsStep(items: seq<Record>, n: nat, gs: seq<string>, dateKey: string, parse: string -> Option<CivilDate>,
                    before: seq<(string, seq<Dated>)>, after: seq<(string, seq<Dated>)>)
    requires n < |items| && NoDuplicates(gs) && GenreOf(items[n]) in gs
    requires before == BucketsAfter(items, n, gs, dateKey, parse)
    requires var d := ParseDate(parse, Field(items[n], dateKey));
      var slot := IndexOf(gs, GenreOf(items[n]));
      after == if d.Some? then before[slot := (gs[slot], before[slot].1 + [Dated(items[n], d.value)])] else before
    ensures after == BucketsAfter(items, n + 1, gs, dateKey, parse)
  {
    var d := ParseDate(parse, Field(items[n], dateKey));
    var slot := IndexOf(gs, GenreOf(items[n]));
    var next := BucketsAfter(items, n + 1, gs, dateKey, parse);
    forall k | 0 <= k < |gs| ensures after[k] == next[k] {
      DatedOfGenreStep(items, n, gs[k], dateKey, parse);
      if k != slot || d.None? {
        assert gs[k] != GenreOf(items[n]) || d.None?;
        assert DatedOfGenre(items[..n], gs[k], dateKey, parse) + [] == DatedOfGenre(items[..n], gs[k], dateKey, parse);
      }
    }
  }

  lemma DatedOfGenreStep(items: seq<Record>, n: nat, g: string, dateKey: string, parse: string -> Option<CivilDate>)
    requires n < |items|
    ensures var d := ParseDate(parse, Field(items[n], dateKey));
      DatedOfGenre(items[..n + 1], g, dateKey, parse) == DatedOfGenre(items[..n], g, dateKey, parse)
        + (if GenreOf(items[n]) == g && d.Some? then [Dated(items[n], d.value)] else [])
  {
    assert items[..n + 1][..n] == items[..n];
  }

  /** The buckets have exactly the genres of `genresList` as keys. */
  lemma BucketKeys(items: seq<Record>, dateKey: string, parse: string -> Option<CivilDate>)
    ensures |GenreBuckets(items, dateKey, parse)| == |GenresList(items)|
    ensures forall k :: 0 <= k < |GenresList(items)| ==> GenreBuckets(items, dateKey, parse)[k].0 == GenresList(items)[k]
  {
  }

  /** An item is in its genre's bucket exactly when its date parses; other buckets never hold it. */
  lemma {:induction false} DatedOfGenreMembership(items: seq<Record>, g: string, dateKey: string,
                                                  parse: string -> Option<CivilDate>, x: Record, d: CivilDate)
    ensures Dated(x, d) in DatedOfGenre(items, g, dateKey, parse) <==>
      x in items && GenreOf(x) == g && ParseDate(parse, Field(x, dateKey)) == Some(d)
  {
    if items != [] {
      var n := |items| - 1;
      DatedOfGenreMembership(items[..n], g, dateKey, parse, x, d);
      assert items == items[..n] + [items[n]];
    }
  }
}
