/**
 * The custom timeline widget: which items it shows, the pill built for
 * each, the genre swim lanes, the time axis at year, month and day zoom,
 * and which screen it renders.
 */
module CustomTimeline {
  import opened Wrappers
  import opened Seqs
  import opened Calendar
  import opened Records

  // ---------------------------------------------------------------------------
  // Ticks
  // ---------------------------------------------------------------------------

  /** What `getTimeTicks(start, end, zoomLevel)` returns. */
  function TimeTicks(start: Option<CivilDate>, end: Option<CivilDate>, zoomLevel: string): seq<CivilDate> {
    if start.None? || end.None? then []
    else if zoomLevel == "year" then YearWalk(start.value.year, end.value.year)
    else if zoomLevel == "month" then MonthWalk(MonthStart(start.value), end.value)
    else if zoomLevel == "day" then DayWalk(start.value, end.value)
    else []
  }

  /** `getTimeTicks`: a loop per zoom level, advancing a date and pushing each tick. */
  method GetTimeTicks(start: Option<CivilDate>, end: Option<CivilDate>, zoomLevel: string) returns (ticks: seq<CivilDate>)
    ensures ticks == TimeTicks(start, end, zoomLevel)
  {
    if start.None? || end.None? {
      return [];
    }
    var s, e := start.value, end.value;
    ticks := [];
    if zoomLevel == "year" {
      var y := s.year;
      while y <= e.year
        invariant ticks + YearWalk(y, e.year) == YearWalk(s.year, e.year)
        decreases e.year - y
      {
        ticks := ticks + [YearStart(y)];
        y := y + 1;
      }
    } else if zoomLevel == "month" {
      var d := MonthStart(s);
      while NotAfter(d, e)
        invariant d.day == 1
        invariant ticks + MonthWalk(d, e) == MonthWalk(MonthStart(s), e)
        decreases Ord(e) - Ord(d)
      {
        ticks := ticks + [d];
        d := NextMonth(d);
      }
    } else if zoomLevel == "day" {
      var d := s;
      while NotAfter(d, e)
        invariant ticks + DayWalk(d, e) == DayWalk(s, e)
        decreases Ord(e) - Ord(d)
      {
        ticks := ticks + [d];
        d := NextDay(d);
      }
    }
  }

  /** No bound, no ticks; at year zoom one Jan 1 per year from the start's year to the end's. */
  lemma YearTicks(start: Option<CivilDate>, end: Option<CivilDate>)
    ensures start.None? || end.None? ==> TimeTicks(start, end, "year") == []
    ensures start.Some? && end.Some? && start.value.year <= end.value.year ==>
      |TimeTicks(start, end, "year")| == end.value.year - start.value.year + 1
    ensures start.Some? && end.Some? ==> forall i :: 0 <= i < |TimeTicks(start, end, "year")| ==>
      TimeTicks(start, end, "year")[i] == Date(start.value.year + i, 1, 1)
  {
    if start.Some? && end.Some? {
      YearWalkMeaning(start.value.year, end.value.year);
    }
  }

  /** What `getMonthTicks(start, end)` returns. */
  function MonthTicks(start: Option<CivilDate>, end: Option<CivilDate>): seq<CivilDate> {
    if start.None? || end.None? then [] else MonthWalk(MonthStart(start.value), end.value)
  }

  /** `getMonthTicks`. */
  method GetMonthTicks(start: Option<CivilDate>, end: Option<CivilDate>) returns (ticks: seq<CivilDate>)
    ensures ticks == MonthTicks(start, end)
  {
    if start.None? || end.None? {
      return [];
    }
    var e := end.value;
    ticks := [];
    var d := MonthStart(start.value);
    while NotAfter(d, e)
      invariant d.day == 1
      invariant ticks + MonthWalk(d, e) == MonthWalk(MonthStart(start.value), e)
      decreases Ord(e) - Ord(d)
    {
      ticks := ticks + [d];
      d := NextMonth(d);
    }
  }

  /**
   * Month ticks, from either function, are firsts of months from the
   * start's month on, each the month after the last, strictly increasing,
   * and none after the end.
   */
  lemma MonthTicksMeaning(start: CivilDate, end: CivilDate)
    ensures MonthTicks(Some(start), Some(end)) == TimeTicks(Some(start), Some(end), "month")
    ensures var w := MonthTicks(Some(start), Some(end));
      && (|w| > 0 ==> w[0] == MonthStart(start))
      && (forall i :: 0 <= i < |w| ==> w[i].day == 1 && NotAfter(w[i], end))
      && (forall i :: 0 <= i < |w| - 1 ==> w[i + 1] == NextMonth(w[i]) && Ord(w[i]) < Ord(w[i + 1]))
  {
    MonthWalkMeaning(MonthStart(start), end);
  }

  /** Day ticks are the consecutive calendar days from the start to the end, all of them. */
  lemma DayTicksMeaning(start: CivilDate, end: CivilDate)
    ensures var w := TimeTicks(Some(start), Some(end), "day");
      && (NotAfter(start, end) ==> |w| > 0 && w[0] == start)
      && (forall i :: 0 <= i < |w| - 1 ==> w[i + 1] == NextDay(w[i]))
      && (forall i :: 0 <= i < |w| ==> NotAfter(start, w[i]) && NotAfter(w[i], end))
      && (forall x: CivilDate :: NotAfter(start, x) && NotAfter(x, end) ==> x in w)
  {
    DayWalkMeaning(start, end);
    forall x: CivilDate | NotAfter(start, x) && NotAfter(x, end) ensures x in DayWalk(start, end) {
      DayWalkComplete(start, end, x);
    }
  }

  /** A tick of the day axis: its date and its caption. */
  datatype DayTick = DayTick(date: CivilDate, text: string)

  /**
   * What `getDayTicks` adds from the month starting at `d` on: the 1st,
   * then the 15th when it lies within `[start, end]`.
   */
  function DayMarks(d: CivilDate, start: CivilDate, end: CivilDate): seq<DayTick>
    requires d.day == 1
    decreases Ord(end) - Ord(d)
  {
    if NotAfter(d, end) then
      [DayTick(d, "1")]
      + (if NotAfter(start, Fifteenth(d)) && NotAfter(Fifteenth(d), end) then [DayTick(Fifteenth(d), "15")] else [])
      + DayMarks(NextMonth(d), start, end)
    else []
  }

  function DayTicks(start: Option<CivilDate>, end: Option<CivilDate>): seq<DayTick> {
    if start.None? || end.None? then [] else DayMarks(MonthStart(start.value), start.value, end.value)
  }

  /** `getDayTicks`. */
  method GetDayTicks(start: Option<CivilDate>, end: Option<CivilDate>) returns (ticks: seq<DayTick>)
    ensures ticks == DayTicks(start, end)
  {
    if start.None? || end.None? {
      return [];
    }
    var s, e := start.value, end.value;
    ticks := [];
    var d := MonthStart(s);
    while NotAfter(d, e)
      invariant d.day == 1
      invariant ticks + DayMarks(d, s, e) == DayMarks(MonthStart(s), s, e)
      decreases Ord(e) - Ord(d)
    {
      DayMarksStep(ticks, d, s, e);
      ticks := ticks + [DayTick(d, "1")];
      var fifteenth := Fifteenth(d);
      if NotAfter(s, fifteenth) && NotAfter(fifteenth, e) {
        ticks := ticks + [DayTick(fifteenth, "15")];
      }
      d := NextMonth(d);
    }
  }

  /** One pass of the `getDayTicks` loop: the 1st, then the 15th when it is in range. */
  lemma DayMarksStep(ticks: seq<DayTick>, d: CivilDate, start: CivilDate, end: CivilDate)
    requires d.day == 1 && NotAfter(d, end)
    ensures var f := Fifteenth(d);
      var withFirst := ticks + [DayTick(d, "1")];
      var after := if NotAfter(start, f) && NotAfter(f, end) then withFirst + [DayTick(f, "15")] else withFirst;
      after + DayMarks(NextMonth(d), start, end) == ticks + DayMarks(d, start, end)
  {
    var f := Fifteenth(d);
    var mid: seq<DayTick> := if NotAfter(start, f) && NotAfter(f, end) then [DayTick(f, "15")] else [];
    var first := [DayTick(d, "1")];
    var rest := DayMarks(NextMonth(d), start, end);
    assert DayMarks(d, start, end) == first + mid + rest;
    calc {
      ticks + DayMarks(d, start, end);
      ticks + (first + mid + rest);
      (ticks + first + mid) + rest;
    }
  }

  /** The dates of the ticks labelled `caption`, in order. */
  function Labelled(ticks: seq<DayTick>, caption: string): seq<CivilDate> {
    if ticks == [] then []
    else Labelled(ticks[..|ticks| - 1], caption) + (if ticks[|ticks| - 1].text == caption then [ticks[|ticks| - 1].date] else [])
  }

  lemma {:induction false} LabelledAppend(a: seq<DayTick>, b: seq<DayTick>, caption: string)
    ensures Labelled(a + b, caption) == Labelled(a, caption) + Labelled(b, caption)
  {
    if b == [] {
      assert a + b == a;
    } else {
      var n := |b| - 1;
      LabelledAppend(a, b[..n], caption);
      assert (a + b)[..|a| + n] == a + b[..n];
    }
  }

  lemma LabelledOne(t: DayTick, caption: string)
    ensures Labelled([t], caption) == if t.text == caption then [t.date] else []
  {
    assert [t][..0] == [];
  }

  /**
   * The 1st-labelled ticks are exactly the month walk from the start's
   * month: every month's 1st is there, even when it precedes the start.
   */
  lemma {:induction false} FirstsAreMonthWalk(d: CivilDate, start: CivilDate, end: CivilDate)
    requires d.day == 1
    ensures Labelled(DayMarks(d, start, end), "1") == MonthWalk(d, end)
    decreases Ord(end) - Ord(d)
  {
    if NotAfter(d, end) {
      var f := Fifteenth(d);
      var mid: seq<DayTick> := if NotAfter(start, f) && NotAfter(f, end) then [DayTick(f, "15")] else [];
      FirstsAreMonthWalk(NextMonth(d), start, end);
      LabelledAppend([DayTick(d, "1")] + mid, DayMarks(NextMonth(d), start, end), "1");
      LabelledAppend([DayTick(d, "1")], mid, "1");
      LabelledOne(DayTick(d, "1"), "1");
      if mid != [] {
        LabelledOne(DayTick(f, "15"), "1");
      }
    }
  }

  /** The 15th-labelled ticks are the 15ths of those months that lie within `[start, end]`. */
  lemma {:induction false} FifteenthsInRange(d: CivilDate, start: CivilDate, end: CivilDate)
    requires d.day == 1
    ensures forall x :: x in Labelled(DayMarks(d, start, end), "15") <==>
      x.day == 15 && MonthStart(x) in MonthWalk(d, end) && NotAfter(start, x) && NotAfter(x, end)
    decreases Ord(end) - Ord(d)
  {
    MonthWalkMeaning(d, end);
    if NotAfter(d, end) {
      var f := Fifteenth(d);
      var mid: seq<DayTick> := if NotAfter(start, f) && NotAfter(f, end) then [DayTick(f, "15")] else [];
      FifteenthsInRange(NextMonth(d), start, end);
      LabelledAppend([DayTick(d, "1")] + mid, DayMarks(NextMonth(d), start, end), "15");
      LabelledAppend([DayTick(d, "1")], mid, "15");
      LabelledOne(DayTick(d, "1"), "15");
      if mid != [] {
        LabelledOne(DayTick(f, "15"), "15");
      }
      assert MonthWalk(d, end) == [d] + MonthWalk(NextMonth(d), end);
      forall x: CivilDate | x.day == 15 && MonthStart(x) == d ensures x == f {}
    }
  }

  /** When the start is past the 1st, the first tick is still its month's 1st, before the start. */
  lemma FirstTickMayPrecedeStart(start: CivilDate, end: CivilDate)
    requires NotAfter(start, end) && start.day > 1
    ensures |DayTicks(Some(start), Some(end))| > 0
    ensures DayTicks(Some(start), Some(end))[0] == DayTick(MonthStart(start), "1")
    ensures Ord(MonthStart(start)) < Ord(start)
  {
  }

  // ---------------------------------------------------------------------------
  // Items and pills
  // ---------------------------------------------------------------------------

  /** `MOCK_TITLES`, the demonstration items. */
  const MockTitles: seq<Record> := [
    map["id" := "1", "title" := "Movie Alpha", "genre" := "Action", "revenue" := "$100M", "date" := "2024-06-01"],
    map["id" := "2", "title" := "Movie Beta", "genre" := "Comedy", "revenue" := "$80M", "date" := "2024-06-10"],
    map["id" := "3", "title" := "Movie Gamma", "genre" := "Drama", "revenue" := "$120M", "date" := "2024-07-05"],
    map["id" := "4", "title" := "Movie Delta", "genre" := "SciFi", "revenue" := "$90M", "date" := "2024-08-15"],
    map["id" := "5", "title" := "Movie Epsilon", "genre" := "Romance", "revenue" := "$60M", "date" := "2024-09-01"]]

  /** The items shown: the given ones when there are any, else the mock titles locally and none in Monday. */
  function SelectItems(propItems: Option<seq<Record>>, isLocal: bool): (r: seq<Record>)
    ensures propItems.Some? && |propItems.value| > 0 ==> r == propItems.value
    ensures (propItems.None? || |propItems.value| == 0) && isLocal ==> r == MockTitles
    ensures (propItems.None? || |propItems.value| == 0) && !isLocal ==> r == []
  {
    if propItems.Some? && |propItems.value| > 0 then propItems.value
    else if isLocal then MockTitles
    else []
  }

  /** The column ids read from the widget settings. */
  datatype ColumnIds = ColumnIds(date: string, genre: string, revenue: string, title: string)

  /** `settings?.dateColId || 'date'` and its three siblings. */
  function ColumnIdsOf(settings: Option<Record>): (r: ColumnIds)
    ensures settings.None? ==> r == ColumnIds("date", "genre", "revenue", "title")
    ensures r.date != "" && r.genre != "" && r.revenue != "" && r.title != ""
    // A configured, non-empty id is used as it is.
    ensures settings.Some? && "dateColId" in settings.value && settings.value["dateColId"] != "" ==> r.date == settings.value["dateColId"]
    ensures settings.Some? && "genreColId" in settings.value && settings.value["genreColId"] != "" ==> r.genre == settings.value["genreColId"]
    ensures settings.Some? && "revenueColId" in settings.value && settings.value["revenueColId"] != "" ==> r.revenue == settings.value["revenueColId"]
    ensures settings.Some? && "titleColId" in settings.value && settings.value["titleColId"] != "" ==> r.title == settings.value["titleColId"]
    // A missing or empty entry falls back to its default, entry by entry.
    ensures settings.Some? && ("dateColId" !in settings.value || settings.value["dateColId"] == "") ==> r.date == "date"
    ensures settings.Some? && ("genreColId" !in settings.value || settings.value["genreColId"] == "") ==> r.genre == "genre"
    ensures settings.Some? && ("revenueColId" !in settings.value || settings.value["revenueColId"] == "") ==> r.revenue == "revenue"
    ensures settings.Some? && ("titleColId" !in settings.value || settings.value["titleColId"] == "") ==> r.title == "title"
  {
    match settings
    case None => ColumnIds("date", "genre", "revenue", "title")
    case Some(s) => ColumnIds(FieldOr(s, "dateColId", "date"), FieldOr(s, "genreColId", "genre"),
                              FieldOr(s, "revenueColId", "revenue"), FieldOr(s, "titleColId", "title"))
  }

  datatype Pill = Pill(id: string, title: string, genre: string, revenue: string, date: string)

  /** The pill of one item. */
  function PillOf(item: Record, ids: ColumnIds): (p: Pill)
    ensures p.id == Field(item, "id")
    ensures p.genre != ""
    ensures p.title == (if Field(item, ids.title) != "" then Field(item, ids.title) else Field(item, "name"))
    ensures p.genre == (if Field(item, ids.genre) != "" then Field(item, ids.genre) else "Other")
    ensures Field(item, ids.revenue) == "" <==> p.revenue == ""
    ensures Field(item, ids.revenue) != "" ==> p.revenue == "$" + Field(item, ids.revenue)
    ensures p.date == Field(item, ids.date)
  {
    Pill(
      id := Field(item, "id"),
      title := FieldOr(item, ids.title, FieldOr(item, "name", "")),
      genre := FieldOr(item, ids.genre, "Other"),
      revenue := if Field(item, ids.revenue) != "" then "$" + Field(item, ids.revenue) else "",
      date := FieldOr(item, ids.date, ""))
  }

  /** `items.map(...)`: one pill per item, same order. */
  function Pills(items: seq<Record>, settings: Option<Record>): (ps: seq<Pill>)
    ensures |ps| == |items|
    ensures forall i :: 0 <= i < |ps| ==> ps[i] == PillOf(items[i], ColumnIdsOf(settings))
  {
    seq(|items|, i requires 0 <= i < |items| => PillOf(items[i], ColumnIdsOf(settings)))
  }

  // ---------------------------------------------------------------------------
  // Swim lanes
  // ---------------------------------------------------------------------------

  function PillGenres(ps: seq<Pill>): seq<string> {
    seq(|ps|, i requires 0 <= i < |ps| => ps[i].genre)
  }

  /** `titles.filter(t => t.genre === genre)`. */
  function OfGenre(ps: seq<Pill>, g: string): (r: seq<Pill>)
    ensures forall i :: 0 <= i < |r| ==> r[i].genre == g
  {
    if ps == [] then []
    else OfGenre(ps[..|ps| - 1], g) + (if ps[|ps| - 1].genre == g then [ps[|ps| - 1]] else [])
  }

  /** `titlesByGenre` over `genres`: one lane per distinct genre, in first-appearance order. */
  function Lanes(ps: seq<Pill>): seq<(string, seq<Pill>)> {
    var genres := Distinct(PillGenres(ps));
    seq(|genres|, k requires 0 <= k < |genres| => (genres[k], OfGenre(ps, genres[k])))
  }

  lemma {:induction false} OfGenreMembership(ps: seq<Pill>, g: string, p: Pill)
    ensures p in OfGenre(ps, g) <==> p in ps && p.genre == g
  {
    if ps != [] {
      var n := |ps| - 1;
      OfGenreMembership(ps[..n], g, p);
      assert ps == ps[..n] + [ps[n]];
    }
  }

  lemma {:induction false} OfGenreAppend(a: seq<Pill>, b: seq<Pill>, g: string)
    ensures OfGenre(a + b, g) == OfGenre(a, g) + OfGenre(b, g)
  {
    if b == [] {
      assert a + b == a;
    } else {
      var n := |b| - 1;
      OfGenreAppend(a, b[..n], g);
      assert (a + b)[..|a| + n] == a + b[..n];
    }
  }

  /** The lanes are the distinct genres of the pills, in first-appearance order. */
  lemma LaneKeys(ps: seq<Pill>)
    ensures var lanes := Lanes(ps);
      && (forall k, l :: 0 <= k < l < |lanes| ==> lanes[k].0 != lanes[l].0)
      && (forall k, l :: 0 <= k < l < |lanes| ==> IndexOf(PillGenres(ps), lanes[k].0) < IndexOf(PillGenres(ps), lanes[l].0))
      && (forall k :: 0 <= k < |lanes| ==> lanes[k].0 in PillGenres(ps))
  {
    var genres := Distinct(PillGenres(ps));
    assert forall k :: 0 <= k < |genres| ==> Lanes(ps)[k].0 == genres[k];
  }

  /** Every pill has a lane, and that lane is the only one with its genre. */
  lemma EveryPillHasItsLane(ps: seq<Pill>, i: nat)
    requires i < |ps|
    ensures exists k :: 0 <= k < |Lanes(ps)| && Lanes(ps)[k].0 == ps[i].genre
  {
    var genres := Distinct(PillGenres(ps));
    assert PillGenres(ps)[i] == ps[i].genre;
    var k :| 0 <= k < |genres| && genres[k] == ps[i].genre;
    assert Lanes(ps)[k].0 == ps[i].genre;
  }

  /** A pill is in a lane exactly when it has that lane's genre; each lane keeps the pills' order. */
  lemma LaneContents(ps: seq<Pill>, k: nat, p: Pill)
    requires k < |Lanes(ps)|
    ensures p in Lanes(ps)[k].1 <==> p in ps && p.genre == Lanes(ps)[k].0
    ensures Lanes(ps)[k].1 == OfGenre(ps, Lanes(ps)[k].0)
  {
    OfGenreMembership(ps, Lanes(ps)[k].0, p);
  }

  // ---------------------------------------------------------------------------
  // Axis and screen
  // ---------------------------------------------------------------------------

  /** The dates of the pills that parse, in order. */
  function PillDates(ps: seq<Pill>, parse: string -> Option<CivilDate>): (ds: seq<CivilDate>)
    ensures |ds| <= |ps|
    ensures forall d :: d in ds <==> exists i :: 0 <= i < |ps| && ParseDate(parse, ps[i].date) == Some(d)
  {
    if ps == [] then []
    else
      var n := |ps| - 1;
      var d := ParseDate(parse, ps[n].date);
      PillDates(ps[..n], parse) + (if d.Some? then [d.value] else [])
  }

  /** `minDate` and `maxDate`: the earliest and the latest parsed date, or none. */
  function Bounds(ds: seq<CivilDate>): (r: (Option<CivilDate>, Option<CivilDate>))
    ensures ds == [] <==> r.0.None?
    ensures ds == [] <==> r.1.None?
    ensures ds != [] ==> r.0.value in ds && forall i :: 0 <= i < |ds| ==> NotAfter(r.0.value, ds[i])
    ensures ds != [] ==> r.1.value in ds && forall i :: 0 <= i < |ds| ==> NotAfter(ds[i], r.1.value)
  {
    if ds == [] then (None, None) else (Some(Earliest(ds)), Some(Latest(ds)))
  }

  /** The three tick lists the widget draws. */
  datatype Axis = Axis(ticks: seq<CivilDate>, dayTicks: seq<DayTick>, monthTicks: seq<CivilDate>)

  function AxisOf(ps: seq<Pill>, parse: string -> Option<CivilDate>, zoomLevel: string): Axis {
    var (lo, hi) := Bounds(PillDates(ps, parse));
    Axis(TimeTicks(lo, hi, zoomLevel),
         if zoomLevel == "day" then DayTicks(lo, hi) else [],
         if zoomLevel == "day" then MonthTicks(lo, hi) else [])
  }

  /** Without a parsable date there is no axis; away from day zoom only the main ticks exist. */
  lemma AxisMeaning(ps: seq<Pill>, parse: string -> Option<CivilDate>, zoomLevel: string)
    ensures PillDates(ps, parse) == [] ==> AxisOf(ps, parse, zoomLevel) == Axis([], [], [])
    ensures zoomLevel != "day" ==> AxisOf(ps, parse, zoomLevel).dayTicks == [] && AxisOf(ps, parse, zoomLevel).monthTicks == []
  {
  }

  datatype Screen = SettingsPanel | ConfigurePrompt | Timeline

  /** The render gate: settings mode first, then missing settings, then the timeline. */
  function RenderScreen(settingsMode: bool, settings: Option<Record>): (r: Screen)
    ensures r == SettingsPanel <==> settingsMode
    ensures r == ConfigurePrompt <==> !settingsMode && settings.None?
    ensures r == Timeline <==> !settingsMode && settings.Some?
  {
    if settingsMode then SettingsPanel
    else if settings.None? then ConfigurePrompt
    else Timeline
  }
}
