/**
 * The board-item normaliser of `fetchBoardData`: a board item (its id, its
 * name and its column values) becomes one canonical slate item. Column values
 * are first flattened into an object keyed by column id; each field is then
 * looked up through an ordered list of aliases and falls back to a fixed
 * default. The user's column mapping plays no part here.
 */
module Normalize {
  import opened Wrappers
  import opened Text
  import opened Seqs
  import opened Slate

  /** One entry of `column_values`; `text` is `None` when the API returns null. */
  datatype ColumnValue = ColumnValue(id: string, text: Option<string>)

  /** One entry of `items_page.items`. */
  datatype BoardItem = BoardItem(id: string, name: string, columnValues: seq<ColumnValue>)

  /** A JavaScript object with string keys, as its entries in property order. */
  type Entries = seq<(string, string)>

  function Keys(e: Entries): seq<string> {
    seq(|e|, i requires 0 <= i < |e| => e[i].0)
  }

  /** `obj[k]`, or `None` when `k` is not a property of `obj`. */
  function Lookup(e: Entries, k: string): Option<string> {
    if e == [] then None
    else if e[0].0 == k then Some(e[0].1)
    else Lookup(e[1..], k)
  }

  /** `obj[k] = v`: an existing property keeps its place and takes the new value; a new one goes last. */
  function Put(e: Entries, k: string, v: string): Entries {
    if e == [] then [(k, v)]
    else if e[0].0 == k then [(k, v)] + e[1..]
    else [e[0]] + Put(e[1..], k, v)
  }

  /** `cv.text || ''`. */
  function TextOf(cv: ColumnValue): string {
    cv.text.GetOr("")
  }

  function Ids(cvs: seq<ColumnValue>): seq<string> {
    seq(|cvs|, i requires 0 <= i < |cvs| => cvs[i].id)
  }

  /** The object that the `forEach` over `column_values` builds. */
  function Flattened(cvs: seq<ColumnValue>): Entries {
    if cvs == [] then []
    else
      var n := |cvs| - 1;
      Put(Flattened(cvs[..n]), cvs[n].id, TextOf(cvs[n]))
  }

  /** The text of the last column value carrying id `k`. */
  function LastTextOf(cvs: seq<ColumnValue>, k: string): Option<string> {
    if cvs == [] then None
    else
      var n := |cvs| - 1;
      if cvs[n].id == k then Some(TextOf(cvs[n])) else LastTextOf(cvs[..n], k)
  }

  /** Builds the column-value object: `columnValues[cv.id] = cv.text || ''` for each value in turn. */
  method Flatten(cvs: seq<ColumnValue>) returns (e: Entries)
    ensures e == Flattened(cvs)
  {
    e := [];
    var i := 0;
    while i < |cvs|
      invariant 0 <= i <= |cvs|
      invariant e == Flattened(cvs[..i])
    {
      assert cvs[..i + 1][..i] == cvs[..i];
      e := Put(e, cvs[i].id, TextOf(cvs[i]));
      i := i + 1;
    }
    assert cvs[..|cvs|] == cvs;
  }

  lemma {:induction false} PutKeys(e: Entries, k: string, v: string)
    ensures Keys(Put(e, k, v)) == if k in Keys(e) then Keys(e) else Keys(e) + [k]
  {
    if e != [] {
      assert Keys(e) == [e[0].0] + Keys(e[1..]);
      if e[0].0 == k {
        assert Keys(Put(e, k, v)) == [k] + Keys(e[1..]);
      } else {
        PutKeys(e[1..], k, v);
        assert Keys(Put(e, k, v)) == [e[0].0] + Keys(Put(e[1..], k, v));
      }
    }
  }

  lemma {:induction false} PutLookup(e: Entries, k: string, v: string, j: string)
    ensures Lookup(Put(e, k, v), j) == if j == k then Some(v) else Lookup(e, j)
  {
    if e != [] && e[0].0 != k {
      PutLookup(e[1..], k, v, j);
    }
  }

  /**
   * The flattened object has one property per distinct column id, in the order
   * in which the ids first appear.
   */
  lemma {:induction false} FlattenedKeys(cvs: seq<ColumnValue>)
    ensures Keys(Flattened(cvs)) == Distinct(Ids(cvs))
  {
    if cvs != [] {
      var n := |cvs| - 1;
      FlattenedKeys(cvs[..n]);
      assert Ids(cvs)[..n] == Ids(cvs[..n]);
      PutKeys(Flattened(cvs[..n]), cvs[n].id, TextOf(cvs[n]));
    }
  }

  /** A later column value with the same id overwrites an earlier one. */
  lemma {:induction false} FlattenedLookup(cvs: seq<ColumnValue>, k: string)
    ensures Lookup(Flattened(cvs), k) == LastTextOf(cvs, k)
  {
    if cvs != [] {
      var n := |cvs| - 1;
      FlattenedLookup(cvs[..n], k);
      PutLookup(Flattened(cvs[..n]), cvs[n].id, TextOf(cvs[n]), k);
    }
  }

  // ---------------------------------------------------------------------------
  // getValue: the alias search
  // ---------------------------------------------------------------------------

  /** A column id answers to an alias when its lower-cased form contains the lower-cased alias. */
  predicate ColumnMatches(columnId: string, alias: string) {
    Contains(Lower(columnId), Lower(alias))
  }

  /**
   * `Object.entries(columnValues).find(([k, v]) => ...)?.[1]`: the value of the
   * first property whose key answers to `alias`, empty or not.
   */
  function FirstMatch(e: Entries, alias: string): (r: Option<string>)
    ensures r.None? <==> forall i :: 0 <= i < |e| ==> !ColumnMatches(e[i].0, alias)
  {
    if e == [] then None
    else if ColumnMatches(e[0].0, alias) then Some(e[0].1)
    else
      var r := FirstMatch(e[1..], alias);
      assert forall i :: 0 < i < |e| ==> e[i] == e[1..][i - 1];
      r
  }

  /** The value found is that of the first property whose key answers to the alias. */
  lemma {:induction false} FirstMatchIsFirst(e: Entries, alias: string)
    requires FirstMatch(e, alias).Some?
    ensures exists i :: 0 <= i < |e| && ColumnMatches(e[i].0, alias) && FirstMatch(e, alias).value == e[i].1
              && forall j :: 0 <= j < i ==> !ColumnMatches(e[j].0, alias)
  {
    if !ColumnMatches(e[0].0, alias) {
      assert FirstMatch(e, alias) == FirstMatch(e[1..], alias);
      FirstMatchIsFirst(e[1..], alias);
      var i :| 0 <= i < |e[1..]| && ColumnMatches(e[1..][i].0, alias) && FirstMatch(e[1..], alias).value == e[1..][i].1
               && forall j :: 0 <= j < i ==> !ColumnMatches(e[1..][j].0, alias);
      assert forall j :: 0 < j <= i ==> e[j] == e[1..][j - 1];
      assert ColumnMatches(e[i + 1].0, alias);
    }
  }

  /** A lookup result that `if (value)` accepts: present and not the empty string. */
  predicate Usable(v: Option<string>) {
    v.Some? && v.value != ""
  }

  /**
   * What `getValue(aliases)` returns: for the first alias whose first matching
   * column holds a non-empty text, that text; `None` (null) when there is none.
   */
  function Extract(e: Entries, aliases: seq<string>): (r: Option<string>)
    ensures r.Some? ==> r.value != ""
  {
    if aliases == [] then None
    else
      var v := FirstMatch(e, aliases[0]);
      if Usable(v) then v else Extract(e, aliases[1..])
  }

  /**
   * The lookup yields null exactly when no alias finds a non-empty text, and
   * otherwise the text found through the first alias that finds one.
   */
  lemma {:induction false} ExtractIsFirstUsable(e: Entries, aliases: seq<string>)
    ensures Extract(e, aliases).None? <==> forall i :: 0 <= i < |aliases| ==> !Usable(FirstMatch(e, aliases[i]))
    ensures Extract(e, aliases).Some? ==>
              exists i :: 0 <= i < |aliases| && FirstMatch(e, aliases[i]) == Extract(e, aliases)
                && forall j :: 0 <= j < i ==> !Usable(FirstMatch(e, aliases[j]))
  {
    if aliases != [] && !Usable(FirstMatch(e, aliases[0])) {
      assert Extract(e, aliases) == Extract(e, aliases[1..]);
      ExtractIsFirstUsable(e, aliases[1..]);
      assert forall i :: 0 < i < |aliases| ==> aliases[i] == aliases[1..][i - 1];
      if Extract(e, aliases).Some? {
        var i :| 0 <= i < |aliases[1..]| && FirstMatch(e, aliases[1..][i]) == Extract(e, aliases)
                   && forall j :: 0 <= j < i ==> !Usable(FirstMatch(e, aliases[1..][j]));
        assert FirstMatch(e, aliases[i + 1]) == Extract(e, aliases);
      }
    }
  }

  /** `getValue`: try each alias in turn and return the first non-empty text found. */
  method GetValue(e: Entries, aliases: seq<string>) returns (r: Option<string>)
    ensures r == Extract(e, aliases)
  {
    var i := 0;
    while i < |aliases|
      invariant 0 <= i <= |aliases|
      invariant Extract(e, aliases) == Extract(e, aliases[i..])
    {
      var value := FirstMatch(e, aliases[i]);
      if value.Some? && value.value != "" {
        return value;
      }
      assert aliases[i..][1..] == aliases[i + 1..];
      i := i + 1;
    }
    return None;
  }

  /** Every property of the flattened object is the id of some column value. */
  lemma FlattenedKeyIsColumnId(cvs: seq<ColumnValue>, i: nat) returns (c: nat)
    requires i < |Flattened(cvs)|
    ensures c < |cvs| && cvs[c].id == Flattened(cvs)[i].0
  {
    var e := Flattened(cvs);
    FlattenedKeys(cvs);
    assert Keys(e)[i] == e[i].0;
    c := IndexOf(Ids(cvs), e[i].0);
  }

  /** No column id answers to any alias: the lookup yields null. */
  lemma NoMatchingColumn(cvs: seq<ColumnValue>, aliases: seq<string>)
    requires NoColumnFor(cvs, aliases)
    ensures Extract(Flattened(cvs), aliases) == None
  {
    var e := Flattened(cvs);
    forall a | 0 <= a < |aliases| ensures FirstMatch(e, aliases[a]) == None {
      forall i | 0 <= i < |e| ensures !ColumnMatches(e[i].0, aliases[a]) {
        var c := FlattenedKeyIsColumnId(cvs, i);
      }
    }
    ExtractIsFirstUsable(e, aliases);
  }

  // ---------------------------------------------------------------------------
  // The canonical item
  // ---------------------------------------------------------------------------

  const YearAliases: seq<string> := ["year", "date", "release"]
  const GenreAliases: seq<string> := ["genre", "category", "type"]
  const ProductionBudgetAliases: seq<string> := ["production_budget", "prod_budget", "budget"]
  const MarketingBudgetAliases: seq<string> := ["marketing_budget", "marketing", "mktg"]
  const ProjectedRevenueAliases: seq<string> := ["projected_revenue", "revenue", "box_office"]
  const StatusAliases: seq<string> := ["status", "stage"]
  const DirectorAliases: seq<string> := ["director", "filmmaker"]
  const TypeAliases: seq<string> := ["type", "format"]
  const PriorityAliases: seq<string> := ["priority", "importance"]
  const RiskLevelAliases: seq<string> := ["risk_level", "risk"]

  const DefaultYear: string := "2025"
  const DefaultGenre: string := "Drama"
  const DefaultProductionBudget: int := 100
  const DefaultMarketingBudget: int := 50
  const DefaultProjectedRevenue: int := 200
  const DefaultStatus: string := "Development"
  const DefaultDirector: string := "TBD"
  const DefaultType: string := "Feature Film"
  const DefaultPriority: string := "Medium"
  const DefaultRiskLevel: string := "Medium"

  /** `parseInt(v) || default`: a NaN and a zero both give way to the default. */
  function NumberOr(v: Option<string>, default: int): int {
    match ParseInt(v.GetOr(NullText))
    case Some(n) => if n != 0 then n else default
    case None => default
  }

  /** `(v || '2025').match(/\d{4}/)`, then the match or '2025'. */
  function YearOf(v: Option<string>): string {
    MatchFourDigits(v.GetOr(DefaultYear)).GetOr(DefaultYear)
  }

  /** A text field: the value found through the aliases, or the default (`getValue(...) || default`). */
  function TextField(e: Entries, aliases: seq<string>, default: string): (r: string)
    ensures default != "" ==> r != ""
  {
    Extract(e, aliases).GetOr(default)
  }

  /** A numeric field: `parseInt(getValue(...)) || default`. */
  function NumberField(e: Entries, aliases: seq<string>, default: int): (r: int)
    ensures default != 0 ==> r != 0
  {
    NumberOr(Extract(e, aliases), default)
  }

  /** The year field: always four digits. */
  function YearField(e: Entries): (r: string)
    ensures |r| == 4 && forall k :: 0 <= k < 4 ==> IsDigit(r[k])
  {
    assert FourDigitsAt(DefaultYear, 0);
    YearOf(Extract(e, YearAliases))
  }

  /** The item that the `map` callback of `fetchBoardData` returns for a board item. */
  function Normalized(b: BoardItem): Item {
    var e := Flattened(b.columnValues);
    Item(
      id := b.id,
      name := b.name,
      year := YearField(e),
      genre := TextField(e, GenreAliases, DefaultGenre),
      productionBudget := NumberField(e, ProductionBudgetAliases, DefaultProductionBudget),
      marketingBudget := NumberField(e, MarketingBudgetAliases, DefaultMarketingBudget),
      projectedRevenue := NumberField(e, ProjectedRevenueAliases, DefaultProjectedRevenue),
      status := TextField(e, StatusAliases, DefaultStatus),
      director := TextField(e, DirectorAliases, DefaultDirector),
      contentType := TextField(e, TypeAliases, DefaultType),
      priority := TextField(e, PriorityAliases, DefaultPriority),
      riskLevel := TextField(e, RiskLevelAliases, DefaultRiskLevel),
      productionCompany := None,
      distributionPartner := None)
  }

  /** `board.items_page.items.map(...)`: one slate item per board item, in board order. */
  function NormalizeAll(bs: seq<BoardItem>): (r: seq<Item>)
    ensures |r| == |bs|
    ensures forall i :: 0 <= i < |r| ==> r[i].id == bs[i].id && r[i].name == bs[i].name
    ensures forall i :: 0 <= i < |r| ==> r[i] == Normalized(bs[i])
  {
    seq(|bs|, i requires 0 <= i < |bs| => Normalized(bs[i]))
  }

  /** The `map` callback of `fetchBoardData`, step by step. */
  method NormalizeItem(b: BoardItem) returns (item: Item)
    ensures item == Normalized(b)
  {
    var columnValues := Flatten(b.columnValues);
    var yearValue := GetValue(columnValues, YearAliases);
    var year := yearValue.GetOr(DefaultYear);
    var yearMatch := MatchFourDigits(year);
    var genre := GetValue(columnValues, GenreAliases);
    var productionBudget := GetValue(columnValues, ProductionBudgetAliases);
    var marketingBudget := GetValue(columnValues, MarketingBudgetAliases);
    var projectedRevenue := GetValue(columnValues, ProjectedRevenueAliases);
    var status := GetValue(columnValues, StatusAliases);
    var director := GetValue(columnValues, DirectorAliases);
    var contentType := GetValue(columnValues, TypeAliases);
    var priority := GetValue(columnValues, PriorityAliases);
    var riskLevel := GetValue(columnValues, RiskLevelAliases);
    item := Item(
      id := b.id,
      name := b.name,
      year := if yearMatch.Some? then yearMatch.value else DefaultYear,
      genre := genre.GetOr(DefaultGenre),
      productionBudget := NumberOr(productionBudget, DefaultProductionBudget),
      marketingBudget := NumberOr(marketingBudget, DefaultMarketingBudget),
      projectedRevenue := NumberOr(projectedRevenue, DefaultProjectedRevenue),
      status := status.GetOr(DefaultStatus),
      director := director.GetOr(DefaultDirector),
      contentType := contentType.GetOr(DefaultType),
      priority := priority.GetOr(DefaultPriority),
      riskLevel := riskLevel.GetOr(DefaultRiskLevel),
      productionCompany := None,
      distributionPartner := None);
  }

  /** Normalisation is total: every field is filled, whatever the board item holds. */
  lemma NormalizedIsPopulated(b: BoardItem)
    ensures var r := Normalized(b);
      && r.id == b.id && r.name == b.name
      && |r.year| == 4 && (forall k :: 0 <= k < 4 ==> IsDigit(r.year[k]))
      && r.genre != "" && r.status != "" && r.director != "" && r.contentType != ""
      && r.priority != "" && r.riskLevel != ""
      && r.productionBudget != 0 && r.marketingBudget != 0 && r.projectedRevenue != 0
      && r.productionCompany.None? && r.distributionPartner.None?
  {
  }

  /** No column of the board item answers to any alias of a field. */
  predicate NoColumnFor(cvs: seq<ColumnValue>, aliases: seq<string>) {
    forall c, a :: 0 <= c < |cvs| && 0 <= a < |aliases| ==> !ColumnMatches(cvs[c].id, aliases[a])
  }

  /**
   * A text or numeric field whose lookup yields null takes its default.
   * `NoMatchingColumn` gives the lookup's null when no column answers to the aliases.
   */
  lemma FieldDefault(cvs: seq<ColumnValue>, aliases: seq<string>, text: string, number: int)
    requires Extract(Flattened(cvs), aliases) == None
    ensures TextField(Flattened(cvs), aliases, text) == text
    ensures NumberField(Flattened(cvs), aliases, number) == number
  {
    assert ParseInt(NullText) == None by {
      assert LeadingSpace(NullText) == 0 && NullText[0..] == NullText;
      assert DigitRun(NullText, 10) == 0;
    }
  }

  /** A year whose lookup yields null is the default year. */
  lemma YearDefault(cvs: seq<ColumnValue>)
    requires Extract(Flattened(cvs), YearAliases) == None
    ensures YearField(Flattened(cvs)) == DefaultYear
  {
    assert FourDigitsAt(DefaultYear, 0);
  }

  /**
   * A field whose lookup yields null (no column answers to its aliases, or the
   * first column that does holds null) takes its fixed default.
   */
  lemma DefaultsWhenNoColumn(b: BoardItem)
    ensures var cvs, e, r := b.columnValues, Flattened(b.columnValues), Normalized(b);
      && (Extract(e, YearAliases) == None ==> r.year == "2025")
      && (Extract(e, GenreAliases) == None ==> r.genre == "Drama")
      && (Extract(e, ProductionBudgetAliases) == None ==> r.productionBudget == 100)
      && (Extract(e, MarketingBudgetAliases) == None ==> r.marketingBudget == 50)
      && (Extract(e, ProjectedRevenueAliases) == None ==> r.projectedRevenue == 200)
      && (Extract(e, StatusAliases) == None ==> r.status == "Development")
      && (Extract(e, DirectorAliases) == None ==> r.director == "TBD")
      && (Extract(e, TypeAliases) == None ==> r.contentType == "Feature Film")
      && (Extract(e, PriorityAliases) == None ==> r.priority == "Medium")
      && (Extract(e, RiskLevelAliases) == None ==> r.riskLevel == "Medium")
  {
    var cvs, e, r := b.columnValues, Flattened(b.columnValues), Normalized(b);
    if Extract(e, YearAliases) == None {
      YearDefault(cvs);
    }
    if Extract(e, GenreAliases) == None {
      FieldDefault(cvs, GenreAliases, DefaultGenre, 0);
      assert r.genre == TextField(e, GenreAliases, DefaultGenre);
    }
    if Extract(e, ProductionBudgetAliases) == None {
      FieldDefault(cvs, ProductionBudgetAliases, "", DefaultProductionBudget);
      assert r.productionBudget == NumberField(e, ProductionBudgetAliases, DefaultProductionBudget);
    }
    if Extract(e, MarketingBudgetAliases) == None {
      FieldDefault(cvs, MarketingBudgetAliases, "", DefaultMarketingBudget);
      assert r.marketingBudget == NumberField(e, MarketingBudgetAliases, DefaultMarketingBudget);
    }
    if Extract(e, ProjectedRevenueAliases) == None {
      FieldDefault(cvs, ProjectedRevenueAliases, "", DefaultProjectedRevenue);
      assert r.projectedRevenue == NumberField(e, ProjectedRevenueAliases, DefaultProjectedRevenue);
    }
    if Extract(e, StatusAliases) == None {
      FieldDefault(cvs, StatusAliases, DefaultStatus, 0);
      assert r.status == TextField(e, StatusAliases, DefaultStatus);
    }
    if Extract(e, DirectorAliases) == None {
      FieldDefault(cvs, DirectorAliases, DefaultDirector, 0);
      assert r.director == TextField(e, DirectorAliases, DefaultDirector);
    }
    if Extract(e, TypeAliases) == None {
      FieldDefault(cvs, TypeAliases, DefaultType, 0);
      assert r.contentType == TextField(e, TypeAliases, DefaultType);
    }
    if Extract(e, PriorityAliases) == None {
      FieldDefault(cvs, PriorityAliases, DefaultPriority, 0);
      assert r.priority == TextField(e, PriorityAliases, DefaultPriority);
    }
    if Extract(e, RiskLevelAliases) == None {
      FieldDefault(cvs, RiskLevelAliases, DefaultRiskLevel, 0);
      assert r.riskLevel == TextField(e, RiskLevelAliases, DefaultRiskLevel);
    }
  }

  /** The year is the first run of four digits in the matched text, or '2025' when there is none. */
  lemma YearIsFirstFourDigits(b: BoardItem, text: string)
    requires Extract(Flattened(b.columnValues), YearAliases) == Some(text)
    ensures forall i :: FourDigitsAt(text, i) && (forall j :: 0 <= j < i ==> !FourDigitsAt(text, j))
              ==> Normalized(b).year == text[i..i + 4]
    ensures (forall i :: !FourDigitsAt(text, i)) ==> Normalized(b).year == "2025"
  {
    assert Normalized(b).year == YearOf(Some(text));
    YearOfText(text);
  }

  lemma YearOfText(text: string)
    ensures forall i :: FourDigitsAt(text, i) && (forall j :: 0 <= j < i ==> !FourDigitsAt(text, j))
              ==> YearOf(Some(text)) == text[i..i + 4]
    ensures (forall i :: !FourDigitsAt(text, i)) ==> YearOf(Some(text)) == "2025"
  {
    forall i | FourDigitsAt(text, i) && (forall j :: 0 <= j < i ==> !FourDigitsAt(text, j))
      ensures YearOf(Some(text)) == text[i..i + 4]
    {
      var k := FirstFourDigitsIndex(text).value;
      assert !(k < i) && !(i < k);
    }
  }

  /** The worked example of a release note: "Q1 2027 release" files the title under 2027. */
  lemma YearOfReleaseNote()
    ensures YearOf(Some("Q1 2027 release")) == "2027"
  {
    var t := "Q1 2027 release";
    assert !FourDigitsAt(t, 0) && !FourDigitsAt(t, 1) && !FourDigitsAt(t, 2) && FourDigitsAt(t, 3);
    assert t[3..7] == "2027";
  }

  /** `parseInt(...) || default` keeps a negative number. */
  lemma NumberOrKeepsNegative()
    ensures NumberOr(Some("-5"), DefaultProductionBudget) == -5
  {
    assert LeadingSpace("-5") == 0 && "-5"[0..] == "-5";
    assert "-5"[1..] == "5";
    assert ParseMagnitude("5") == Some(5) by {
      assert DigitRun("5", 10) == 1;
      assert "5"[..1] == "5";
      assert DigitsValue("5", 10) == 5 by { assert "5"[..0] == ""; }
    }
  }

  /** `parseInt` reads the leading digits and ignores what follows them. */
  lemma NumberOrReadsLeadingDigits()
    ensures NumberOr(Some(" 12M"), DefaultProductionBudget) == 12
  {
    assert " 12M" == " " + "12M" && IsJsSpace(" "[0]);
    ParseIntSkipsLeadingSpace(" ", "12M");
    TwelveThenLetter();
  }

  lemma TwelveThenLetter()
    ensures ParseInt("12M") == Some(12)
  {
    assert LeadingSpace("12M") == 0 && "12M"[0..] == "12M";
    var t := "12M";
    assert DigitRun(t, 10) == 2 by {
      assert t[1..] == "2M" && "2M"[1..] == "M";
      assert DigitRun("M", 10) == 0;
    }
    assert DigitsValue(t[..2], 10) == 12 by {
      assert t[..2] == "12" && "12"[..1] == "1" && "1"[..0] == "";
    }
  }

  /** Zero is falsy: a column holding "0" gives way to the default. */
  lemma NumberOrZeroFallsBack()
    ensures NumberOr(Some("0"), DefaultProductionBudget) == DefaultProductionBudget
  {
    assert LeadingSpace("0") == 0 && "0"[0..] == "0";
    assert ParseMagnitude("0") == Some(0) by {
      assert DigitRun("0", 10) == 1;
      assert "0"[..1] == "0";
      assert DigitsValue("0", 10) == 0 by { assert "0"[..0] == ""; }
    }
  }

  /** NaN is falsy: a text without digits, and a missing column (null), give way to the default. */
  lemma NumberOrNaNFallsBack()
    ensures NumberOr(Some("TBD"), DefaultProductionBudget) == DefaultProductionBudget
    ensures NumberOr(None, DefaultProductionBudget) == DefaultProductionBudget
  {
    NoLeadingDigit("TBD");
    NoLeadingDigit(NullText);
  }

  /** Text that starts with an ASCII letter has no number. */
  lemma NoLeadingDigit(s: string)
    requires |s| > 0 && ('A' <= s[0] <= 'Z' || 'a' <= s[0] <= 'z')
    ensures ParseInt(s) == None
  {
    assert !IsJsSpace(s[0]);
    assert LeadingSpace(s) == 0 && s[0..] == s;
    assert DigitValue(s[0], 10) < 0;
    assert DigitRun(s, 10) == 0;
  }

  /**
   * A column holding an integer written out in decimal yields that integer,
   * negative ones included, unless it is zero: then the default stands.
   */
  lemma NumberOrOfDecimal(n: int, default: int)
    ensures NumberOr(Some(DecimalString(n)), default) == if n != 0 then n else default
  {
    ParseIntOfDecimalString(n);
  }
}
