/**
 * Column visibility: the toggle, the named presets, and `autoMapColumns`,
 * which guesses the board column behind each dashboard field from the
 * column titles.
 */
module Columns {
  import opened Wrappers
  import opened Text

  /** The keys of `AVAILABLE_COLUMNS`, in declaration order. */
  const AvailableColumns: seq<string> := [
    "productionBudget", "marketingBudget", "projectedRevenue", "genre", "director", "status", "type",
    "productionCompany", "distributionPartner", "priority", "riskLevel", "releaseDate", "startDate", "endDate"]

  const ExecutiveColumns: seq<string> := ["productionBudget", "projectedRevenue", "genre", "status"]
  const FinancialColumns: seq<string> := ["productionBudget", "marketingBudget", "projectedRevenue", "priority", "riskLevel"]
  const ProductionColumns: seq<string> := ["status", "director", "productionCompany", "type", "priority"]

  /** `COLUMN_PRESETS[key].columns`, when the preset exists. */
  function PresetColumns(key: string): Option<seq<string>> {
    if key == "executive" then Some(ExecutiveColumns)
    else if key == "financial" then Some(FinancialColumns)
    else if key == "production" then Some(ProductionColumns)
    else if key == "detailed" then Some(AvailableColumns)
    else None
  }

  /** The visible columns and the name of the active preset (`custom` after a toggle). */
  datatype View = View(visible: seq<string>, preset: string)

  /** The view the dashboard opens with: the executive preset. */
  const InitialView: View := View(ExecutiveColumns, "executive")

  /** `visibleColumns.filter(col => col !== key)`. */
  function Without(xs: seq<string>, key: string): (r: seq<string>)
    ensures |r| <= |xs|
    ensures key !in r
  {
    if xs == [] then []
    else
      var n := |xs| - 1;
      Without(xs[..n], key) + (if xs[n] != key then [xs[n]] else [])
  }

  lemma {:induction false} WithoutKeepsOthers(xs: seq<string>, key: string, c: string)
    requires c != key
    ensures c in Without(xs, key) <==> c in xs
  {
    if xs != [] {
      var n := |xs| - 1;
      WithoutKeepsOthers(xs[..n], key, c);
      assert xs == xs[..n] + [xs[n]];
    }
  }

  lemma {:induction false} WithoutAbsent(xs: seq<string>, key: string)
    requires key !in xs
    ensures Without(xs, key) == xs
  {
    if xs != [] {
      var n := |xs| - 1;
      assert xs == xs[..n] + [xs[n]];
      WithoutAbsent(xs[..n], key);
    }
  }

  /** `handleColumnToggle`: hide a shown column or append a hidden one; the preset becomes `custom`. */
  function Toggle(v: View, key: string): View {
    View(if key in v.visible then Without(v.visible, key) else v.visible + [key], "custom")
  }

  /** A toggle flips the column's visibility and no other column's. */
  lemma ToggleFlips(v: View, key: string, c: string)
    ensures Toggle(v, key).preset == "custom"
    ensures key in Toggle(v, key).visible <==> key !in v.visible
    ensures c != key ==> (c in Toggle(v, key).visible <==> c in v.visible)
  {
    if c != key {
      WithoutKeepsOthers(v.visible, key, c);
    }
  }

  /** Showing a hidden column and hiding it again gives back the same list. */
  lemma ToggleTwice(v: View, key: string)
    requires key !in v.visible
    ensures Toggle(Toggle(v, key), key).visible == v.visible
  {
    WithoutAbsent(v.visible, key);
    WithoutAppend(v.visible, [key], key);
    assert Without([key], key) == [] by { assert [key][..0] == []; }
  }

  lemma {:induction false} WithoutAppend(a: seq<string>, b: seq<string>, key: string)
    ensures Without(a + b, key) == Without(a, key) + Without(b, key)
  {
    if b == [] {
      assert a + b == a;
    } else {
      var n := |b| - 1;
      var ab := a + b;
      var tail: seq<string> := if b[n] != key then [b[n]] else [];
      assert ab[..|ab| - 1] == a + b[..n] && ab[|ab| - 1] == b[n];
      calc {
        Without(ab, key);
        Without(a + b[..n], key) + tail;
        { WithoutAppend(a, b[..n], key); }
        (Without(a, key) + Without(b[..n], key)) + tail;
        Without(a, key) + (Without(b[..n], key) + tail);
        Without(a, key) + Without(b, key);
      }
    }
  }

  /** `handlePresetChange`: a known preset replaces the columns; an unknown key changes nothing. */
  function ChoosePreset(v: View, key: string): View {
    match PresetColumns(key)
    case Some(columns) => View(columns, key)
    case None => v
  }

  lemma PresetMeaning(v: View, key: string)
    ensures key !in ["executive", "financial", "production", "detailed"] ==> ChoosePreset(v, key) == v
    ensures key == "detailed" ==> ChoosePreset(v, key).visible == AvailableColumns
    ensures PresetColumns(key).Some? ==> ChoosePreset(v, key) == View(PresetColumns(key).value, key)
  {
  }

  /** Every preset shows only available columns, each once. */
  lemma PresetsUseAvailableColumns(key: string)
    ensures PresetColumns(key).Some? ==>
      && (forall i :: 0 <= i < |PresetColumns(key).value| ==> PresetColumns(key).value[i] in AvailableColumns)
      && (forall i, j :: 0 <= i < j < |PresetColumns(key).value| ==> PresetColumns(key).value[i] != PresetColumns(key).value[j])
  {
  }

  // ---------------------------------------------------------------------------
  // autoMapColumns
  // ---------------------------------------------------------------------------

  /** A board column as the settings API lists it. */
  datatype Column = Column(id: string, title: string)

  /** `COMMON_COLUMN_NAMES`, in key order. */
  const CommonColumnNames: seq<(string, seq<string>)> := [
    ("year", ["year", "date", "release year", "release_date"]),
    ("genre", ["genre", "type", "category"]),
    ("title", ["title", "name"]),
    ("revenue", ["revenue", "projected revenue", "box office", "gross"]),
    ("productionBudget", ["production budget", "budget", "prod budget"]),
    ("marketingBudget", ["marketing budget", "mktg budget", "marketing"])]

  /** `possibleNames.some(name => col.title.toLowerCase().includes(name))`. */
  predicate TitleMatches(col: Column, names: seq<string>) {
    exists i | 0 <= i < |names| :: Contains(Lower(col.title), names[i])
  }

  /** `columns.find(...)`: the first column, in board order, whose title matches. */
  function FindColumn(columns: seq<Column>, names: seq<string>): (r: Option<nat>)
    ensures r.Some? ==> r.value < |columns| && TitleMatches(columns[r.value], names)
    ensures r.Some? ==> forall j :: 0 <= j < r.value ==> !TitleMatches(columns[j], names)
    ensures r.None? ==> forall j :: 0 <= j < |columns| ==> !TitleMatches(columns[j], names)
  {
    if columns == [] then None
    else if TitleMatches(columns[0], names) then Some(0)
    else match FindColumn(columns[1..], names)
      case None => None
      case Some(k) => Some(k + 1)
  }

  /** The mapping that `autoMapColumns` returns, as field and column id pairs in key order. */
  function AutoMapped(columns: seq<Column>, keys: seq<(string, seq<string>)>): seq<(string, string)> {
    if keys == [] then []
    else
      var n := |keys| - 1;
      var found := FindColumn(columns, keys[n].1);
      AutoMapped(columns, keys[..n]) + (if found.Some? then [(keys[n].0, columns[found.value].id)] else [])
  }

  /** `autoMapColumns`: for each field in turn, map it to the first column whose title names it. */
  method AutoMapColumns(columns: seq<Column>) returns (mapping: seq<(string, string)>)
    ensures mapping == AutoMapped(columns, CommonColumnNames)
  {
    mapping := [];
    var k := 0;
    while k < |CommonColumnNames|
      invariant 0 <= k <= |CommonColumnNames|
      invariant mapping == AutoMapped(columns, CommonColumnNames[..k])
    {
      var key := CommonColumnNames[k].0;
      var names := CommonColumnNames[k].1;
      var found: Option<nat> := None;
      var c := 0;
      while c < |columns| && found.None?
        invariant 0 <= c <= |columns|
        invariant found.None? ==> forall j :: 0 <= j < c ==> !TitleMatches(columns[j], names)
        invariant found.Some? ==> found == FindColumn(columns, names)
      {
        if exists i | 0 <= i < |names| :: Contains(Lower(columns[c].title), names[i]) {
          found := Some(c);
          FindColumnIsFirst(columns, names, c);
        }
        c := c + 1;
      }
      if found.None? {
        FindColumnNone(columns, names);
      }
      if found.Some? {
        mapping := mapping + [(key, columns[found.value].id)];
      }
      assert CommonColumnNames[..k + 1][..k] == CommonColumnNames[..k];
      k := k + 1;
    }
    assert CommonColumnNames[..k] == CommonColumnNames;
  }

  lemma FindColumnIsFirst(columns: seq<Column>, names: seq<string>, c: nat)
    requires c < |columns| && TitleMatches(columns[c], names)
    requires forall j :: 0 <= j < c ==> !TitleMatches(columns[j], names)
    ensures FindColumn(columns, names) == Some(c)
  {
  }

  lemma FindColumnNone(columns: seq<Column>, names: seq<string>)
    requires forall j :: 0 <= j < |columns| ==> !TitleMatches(columns[j], names)
    ensures FindColumn(columns, names) == None
  {
  }

  function MappedKeys(m: seq<(string, string)>): seq<string> {
    seq(|m|, i requires 0 <= i < |m| => m[i].0)
  }

  function FieldNames(keys: seq<(string, seq<string>)>): seq<string> {
    seq(|keys|, i requires 0 <= i < |keys| => keys[i].0)
  }

  /** Every mapped field is one of the given keys. */
  lemma {:induction false} AutoMappedKeysFrom(columns: seq<Column>, keys: seq<(string, seq<string>)>)
    ensures forall x :: x in MappedKeys(AutoMapped(columns, keys)) ==> x in FieldNames(keys)
  {
    if keys != [] {
      var n := |keys| - 1;
      AutoMappedKeysFrom(columns, keys[..n]);
      var found := FindColumn(columns, keys[n].1);
      var prefix := AutoMapped(columns, keys[..n]);
      assert FieldNames(keys) == FieldNames(keys[..n]) + [keys[n].0];
      if found.Some? {
        assert MappedKeys(AutoMapped(columns, keys)) == MappedKeys(prefix) + [keys[n].0];
      } else {
        assert MappedKeys(AutoMapped(columns, keys)) == MappedKeys(prefix);
      }
    }
  }

  /**
   * A field is mapped exactly when `FindColumn` finds a column for it (that
   * is, when some column title names it), and then to the first such column.
   */
  lemma {:induction false} AutoMappedMeaning(columns: seq<Column>, keys: seq<(string, seq<string>)>, k: nat)
    requires k < |keys|
    requires forall i, j :: 0 <= i < j < |keys| ==> keys[i].0 != keys[j].0
    ensures FindColumn(columns, keys[k].1).None? ==> keys[k].0 !in MappedKeys(AutoMapped(columns, keys))
    ensures FindColumn(columns, keys[k].1).Some? ==>
      (keys[k].0, columns[FindColumn(columns, keys[k].1).value].id) in AutoMapped(columns, keys)
    ensures FindColumn(columns, keys[k].1).Some? ==>
      forall i :: 0 <= i < |AutoMapped(columns, keys)| && AutoMapped(columns, keys)[i].0 == keys[k].0 ==>
        AutoMapped(columns, keys)[i].1 == columns[FindColumn(columns, keys[k].1).value].id
  {
    var n := |keys| - 1;
    var prefix := AutoMapped(columns, keys[..n]);
    var found := FindColumn(columns, keys[n].1);
    var extra := if found.Some? then [(keys[n].0, columns[found.value].id)] else [];
    var m := AutoMapped(columns, keys);
    assert m == prefix + extra;
    assert MappedKeys(m) == MappedKeys(prefix) + MappedKeys(extra);
    if k < n {
      AutoMappedMeaning(columns, keys[..n], k);
      assert keys[..n][k] == keys[k];
      assert keys[k].0 !in MappedKeys(extra);
    } else {
      AutoMappedKeysFrom(columns, keys[..n]);
      assert keys[k].0 !in FieldNames(keys[..n]);
      assert keys[k].0 !in MappedKeys(prefix);
      forall i | 0 <= i < |m| && m[i].0 == keys[k].0
        ensures i == |prefix|
      {
        assert MappedKeys(m)[i] == m[i].0;
      }
    }
  }

  /**
   * A quirk of the alias lists: `budget` is an alias of the production
   * budget, so a "Marketing Budget" column listed first is taken for it.
   */
  lemma MarketingBudgetTakenForProduction()
    ensures FindColumn([Column("m", "Marketing Budget"), Column("p", "Production Budget")], CommonColumnNames[4].1) == Some(0)
  {
    var cols := [Column("m", "Marketing Budget"), Column("p", "Production Budget")];
    var lower := Lower("Marketing Budget");
    assert lower == "marketing " + "budget";
    assert OccursAt(lower, "budget", 10);
    assert CommonColumnNames[4].1[1] == "budget";
    assert Contains(lower, "budget");
    assert TitleMatches(cols[0], CommonColumnNames[4].1);
    FindColumnIsFirst(cols, CommonColumnNames[4].1, 0);
  }
}
