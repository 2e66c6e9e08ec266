/**
 * Civil dates and the three walks that the timelines take through them:
 * year by year, month by month (first of each month) and day by day. A
 * JavaScript `Date` is reduced to its calendar day; time of day and time
 * zones are not part of this model.
 */
module Calendar {
  import opened Wrappers

  datatype Date = Date(year: int, month: int, day: int)

  /** The proleptic Gregorian leap rule that JavaScript dates follow. */
  predicate IsLeap(y: int) {
    y % 4 == 0 && (y % 100 != 0 || y % 400 == 0)
  }

  function DaysIn(y: int, m: int): (n: int)
    ensures 28 <= n <= 31
  {
    if m == 2 then (if IsLeap(y) then 29 else 28)
    else if m == 4 || m == 6 || m == 9 || m == 11 then 30
    else 31
  }

  predicate ValidDate(d: Date) {
    1 <= d.month <= 12 && 1 <= d.day <= DaysIn(d.year, d.month)
  }

  /** A day of the calendar. */
  type CivilDate = d: Date | ValidDate(d) witness Date(1970, 1, 1)

  /**
   * A rank that orders days as time does: a 31-day slot per month and
   * twelve per year. It is not a day count, only an order.
   */
  function Ord(d: Date): int {
    d.year * 372 + (d.month - 1) * 31 + (d.day - 1)
  }

  /** `a <= b` between two dates. */
  predicate NotAfter(a: Date, b: Date) {
    Ord(a) <= Ord(b)
  }

  /** On calendar days the rank is the order of (year, month, day). */
  lemma OrdIsChronological(a: CivilDate, b: CivilDate)
    ensures Ord(a) < Ord(b) <==>
      a.year < b.year || (a.year == b.year && (a.month < b.month || (a.month == b.month && a.day < b.day)))
    ensures Ord(a) == Ord(b) <==> a == b
  {
  }

  /** `new Date(y, 0, 1)`. */
  function YearStart(y: int): CivilDate {
    Date(y, 1, 1)
  }

  /** `new Date(d.getFullYear(), d.getMonth(), 1)`. */
  function MonthStart(d: CivilDate): (r: CivilDate)
    ensures r.year == d.year && r.month == d.month && r.day == 1
    ensures NotAfter(r, d)
  {
    Date(d.year, d.month, 1)
  }

  /** `new Date(d.getFullYear(), d.getMonth(), 15)`. */
  function Fifteenth(d: CivilDate): (r: CivilDate)
    ensures r.year == d.year && r.month == d.month && r.day == 15
  {
    Date(d.year, d.month, 15)
  }

  /** `d.setMonth(d.getMonth() + 1)` on the first of a month: the first of the next month. */
  function NextMonth(d: CivilDate): (r: CivilDate)
    requires d.day == 1
    ensures r.day == 1 && Ord(d) < Ord(r)
    ensures r.month == (if d.month == 12 then 1 else d.month + 1)
    ensures r.year == (if d.month == 12 then d.year + 1 else d.year)
  {
    if d.month == 12 then Date(d.year + 1, 1, 1) else Date(d.year, d.month + 1, 1)
  }

  /** `d.setDate(d.getDate() + 1)`: the next calendar day. */
  function NextDay(d: CivilDate): (r: CivilDate)
    ensures Ord(d) < Ord(r)
    ensures d.day < DaysIn(d.year, d.month) ==> r == Date(d.year, d.month, d.day + 1)
    ensures d.day == DaysIn(d.year, d.month) ==> r.day == 1
  {
    if d.day < DaysIn(d.year, d.month) then Date(d.year, d.month, d.day + 1)
    else if d.month < 12 then Date(d.year, d.month + 1, 1)
    else Date(d.year + 1, 1, 1)
  }

  /** No calendar day lies strictly between a day and the next. */
  lemma NextDayIsNext(d: CivilDate, x: CivilDate)
    ensures !(Ord(d) < Ord(x) < Ord(NextDay(d)))
  {
    OrdIsChronological(d, x);
    OrdIsChronological(x, NextDay(d));
  }

  /** No first of a month lies strictly between a first of a month and the next. */
  lemma NextMonthIsNext(d: CivilDate, x: CivilDate)
    requires d.day == 1 && x.day == 1
    ensures !(Ord(d) < Ord(x) < Ord(NextMonth(d)))
  {
    OrdIsChronological(d, x);
    OrdIsChronological(x, NextMonth(d));
  }

  // ---------------------------------------------------------------------------
  // The walks
  // ---------------------------------------------------------------------------

  /** Jan 1 of every year from `from` to `to`. */
  function YearWalk(from: int, to: int): (r: seq<CivilDate>)
    decreases to - from
  {
    if from > to then [] else [YearStart(from)] + YearWalk(from + 1, to)
  }

  /** The firsts of months from `d` while not after `end`. */
  function MonthWalk(d: CivilDate, end: CivilDate): seq<CivilDate>
    requires d.day == 1
    decreases Ord(end) - Ord(d)
  {
    if NotAfter(d, end) then [d] + MonthWalk(NextMonth(d), end) else []
  }

  /** The days from `d` while not after `end`. */
  function DayWalk(d: CivilDate, end: CivilDate): seq<CivilDate>
    decreases Ord(end) - Ord(d)
  {
    if NotAfter(d, end) then [d] + DayWalk(NextDay(d), end) else []
  }

  lemma {:induction false} YearWalkMeaning(from: int, to: int)
    decreases to - from
    ensures |YearWalk(from, to)| == if from > to then 0 else to - from + 1
    ensures forall i :: 0 <= i < |YearWalk(from, to)| ==> YearWalk(from, to)[i] == Date(from + i, 1, 1)
  {
    if from <= to {
      YearWalkMeaning(from + 1, to);
    }
  }

  /**
   * The month walk lists firsts of months, each the month after the one
   * before, none after `end`, and stops only at the first one past `end`.
   */
  lemma {:induction false} MonthWalkMeaning(d: CivilDate, end: CivilDate)
    requires d.day == 1
    ensures var w := MonthWalk(d, end);
      && (NotAfter(d, end) <==> |w| > 0)
      && (|w| > 0 ==> w[0] == d)
      && (forall i :: 0 <= i < |w| ==> w[i].day == 1 && NotAfter(w[i], end) && NotAfter(d, w[i]))
      && (forall i :: 0 <= i < |w| - 1 ==> w[i + 1] == NextMonth(w[i]))
      && (|w| > 0 ==> !NotAfter(NextMonth(w[|w| - 1]), end))
    decreases Ord(end) - Ord(d)
  {
    if NotAfter(d, end) {
      MonthWalkMeaning(NextMonth(d), end);
      var w := MonthWalk(d, end);
      var rest := MonthWalk(NextMonth(d), end);
      assert w == [d] + rest;
      forall i | 0 <= i < |w| - 1 ensures w[i + 1] == NextMonth(w[i]) {
        if i > 0 {
          assert w[i] == rest[i - 1] && w[i + 1] == rest[i];
        }
      }
    }
  }

  /** The month walk strictly increases. */
  lemma MonthWalkIncreases(d: CivilDate, end: CivilDate, i: nat, j: nat)
    requires d.day == 1
    requires i < j < |MonthWalk(d, end)|
    ensures Ord(MonthWalk(d, end)[i]) < Ord(MonthWalk(d, end)[j])
    decreases j - i
  {
    MonthWalkMeaning(d, end);
    if j > i + 1 {
      MonthWalkIncreases(d, end, i, j - 1);
    }
  }

  /**
   * The day walk is consecutive calendar days from `d`, none after `end`,
   * and stops only at the first day past `end`.
   */
  lemma {:induction false} DayWalkMeaning(d: CivilDate, end: CivilDate)
    ensures var w := DayWalk(d, end);
      && (NotAfter(d, end) <==> |w| > 0)
      && (|w| > 0 ==> w[0] == d)
      && (forall i :: 0 <= i < |w| ==> NotAfter(w[i], end) && NotAfter(d, w[i]))
      && (forall i :: 0 <= i < |w| - 1 ==> w[i + 1] == NextDay(w[i]))
      && (|w| > 0 ==> !NotAfter(NextDay(w[|w| - 1]), end))
    decreases Ord(end) - Ord(d)
  {
    if NotAfter(d, end) {
      DayWalkMeaning(NextDay(d), end);
      var w := DayWalk(d, end);
      var rest := DayWalk(NextDay(d), end);
      assert w == [d] + rest;
      forall i | 0 <= i < |w| - 1 ensures w[i + 1] == NextDay(w[i]) {
        if i > 0 {
          assert w[i] == rest[i - 1] && w[i + 1] == rest[i];
        }
      }
    }
  }

  /** Every calendar day from `d` to `end` is on the day walk. */
  lemma {:induction false} DayWalkComplete(d: CivilDate, end: CivilDate, x: CivilDate)
    requires NotAfter(d, x) && NotAfter(x, end)
    ensures x in DayWalk(d, end)
    decreases Ord(end) - Ord(d)
  {
    if x != d {
      OrdIsChronological(d, x);
      NextDayIsNext(d, x);
      DayWalkComplete(NextDay(d), end, x);
    }
  }

  // ---------------------------------------------------------------------------
  // Earliest and latest
  // ---------------------------------------------------------------------------

  /** `new Date(Math.min(...dates))`. */
  function Earliest(ds: seq<CivilDate>): (r: CivilDate)
    requires |ds| > 0
    ensures r in ds && forall i :: 0 <= i < |ds| ==> NotAfter(r, ds[i])
  {
    if |ds| == 1 then ds[0]
    else
      var m := Earliest(ds[1..]);
      if NotAfter(ds[0], m) then ds[0] else m
  }

  /** `new Date(Math.max(...dates))`. */
  function Latest(ds: seq<CivilDate>): (r: CivilDate)
    requires |ds| > 0
    ensures r in ds && forall i :: 0 <= i < |ds| ==> NotAfter(ds[i], r)
  {
    if |ds| == 1 then ds[0]
    else
      var m := Latest(ds[1..]);
      if NotAfter(m, ds[0]) then ds[0] else m
  }

  /** `parseDate`: the empty string is no date; any other text is read by `parse`, which may fail. */
  function ParseDate(parse: string -> Option<CivilDate>, text: string): (r: Option<CivilDate>)
    ensures text == "" ==> r == None
    ensures text != "" ==> r == parse(text)
  {
    if text == "" then None else parse(text)
  }
}
