/**
 * The built-in preview slate that `loadSampleData` installs whenever no
 * board can be read: twenty titles, ids `sample1` to `sample20`. Four of
 * them are 2024 releases, outside the display years.
 */
module Sample {
  import opened Wrappers
  import opened Slate
  import opened Text
  import opened Aggregate

  const SampleItems: seq<Item> := [
    Item("sample1", "Aquaman: Lost Kingdom", "2024", "Action", 205, 160, 650, "Released", "James Wan", "Feature Film", "High", "Medium", Some("DC Studios"), Some("Warner Bros. Pictures")),
    Item("sample2", "Dune: Part Two", "2024", "Sci-Fi", 190, 140, 850, "Released", "Denis Villeneuve", "Feature Film", "High", "Low", Some("Legendary"), Some("Warner Bros. Pictures")),
    Item("sample3", "House of the Dragon S2", "2024", "Drama", 200, 80, 600, "Released", "Ryan Condal", "Series", "High", "Low", Some("HBO"), Some("Max")),
    Item("sample4", "The Penguin", "2024", "Drama", 85, 45, 280, "Released", "Lauren LeFranc", "Series", "Medium", "Low", Some("DC Studios"), Some("Max")),
    Item("sample5", "Superman: Legacy", "2025", "Action", 200, 150, 800, "Post-Production", "James Gunn", "Feature Film", "High", "Medium", Some("DC Studios"), Some("Warner Bros. Pictures")),
    Item("sample6", "Game of Thrones: Knight of Seven Kingdoms", "2025", "Drama", 120, 80, 400, "Production", "George R.R. Martin", "Series", "High", "Low", Some("HBO"), Some("Max")),
    Item("sample7", "Peacemaker Season 2", "2025", "Comedy", 60, 40, 200, "Production", "James Gunn", "Series", "Medium", "Low", Some("DC Studios"), Some("Max")),
    Item("sample8", "The Batman: Arkham", "2025", "Action", 90, 50, 320, "Production", "Antonio Campos", "Series", "Medium", "Medium", Some("DC Studios"), Some("Max")),
    Item("sample9", "Wonka", "2025", "Fantasy", 125, 100, 450, "Post-Production", "Paul King", "Feature Film", "Medium", "Low", Some("Warner Bros."), Some("Warner Bros. Pictures")),
    Item("sample10", "The Batman Part II", "2026", "Action", 180, 130, 750, "Pre-Production", "Matt Reeves", "Feature Film", "High", "Low", Some("DC Studios"), Some("Warner Bros. Pictures")),
    Item("sample11", "Dune: Part Three", "2026", "Sci-Fi", 275, 200, 1200, "Development", "Denis Villeneuve", "Feature Film", "High", "Medium", Some("Legendary"), Some("Warner Bros. Pictures")),
    Item("sample12", "The Lord of the Rings: War of the Rohirrim", "2026", "Fantasy", 150, 120, 600, "Pre-Production", "Kenji Kamiyama", "Feature Film", "High", "Medium", Some("New Line Cinema"), Some("Warner Bros. Pictures")),
    Item("sample13", "Succession: The Movie", "2026", "Drama", 80, 60, 300, "Development", "Jesse Armstrong", "Feature Film", "Medium", "Low", Some("HBO"), Some("Warner Bros. Pictures")),
    Item("sample14", "Justice League: New Dawn", "2027", "Action", 220, 180, 900, "Development", "TBD", "Feature Film", "High", "High", Some("DC Studios"), Some("Warner Bros. Pictures")),
    Item("sample15", "The Sandman Season 3", "2027", "Fantasy", 75, 45, 250, "Development", "Neil Gaiman", "Series", "Medium", "Medium", Some("Netflix"), Some("Netflix")),
    Item("sample16", "Mad Max: Furiosa", "2027", "Action", 160, 120, 550, "Development", "George Miller", "Feature Film", "Medium", "Medium", Some("Warner Bros."), Some("Warner Bros. Pictures")),
    Item("sample17", "The Flash: Speed Force", "2028", "Action", 190, 150, 700, "Development", "TBD", "Feature Film", "Medium", "High", Some("DC Studios"), Some("Warner Bros. Pictures")),
    Item("sample18", "Game of Thrones: Snow", "2028", "Drama", 150, 90, 500, "Development", "Kit Harington", "Series", "High", "Medium", Some("HBO"), Some("Max")),
    Item("sample19", "The Matrix: Resurrection", "2028", "Sci-Fi", 200, 160, 750, "Development", "Lana Wachowski", "Feature Film", "High", "High", Some("Warner Bros."), Some("Warner Bros. Pictures")),
    Item("sample20", "The Conjuring: Final Chapter", "2028", "Horror", 45, 35, 180, "Development", "James Wan", "Feature Film", "Medium", "Low", Some("New Line Cinema"), Some("Warner Bros. Pictures"))
  ]

  /** Every preview title carries a `sample` id, so no edit of one ever reaches a board. */
  lemma SampleIdsArePreview()
    ensures |SampleItems| == 20
    ensures forall i :: 0 <= i < |SampleItems| ==> StartsWith(SampleItems[i].id, "sample")
  {
  }

  /** The years of the preview slate, in list order. */
  lemma SampleYears()
    ensures ItemYears(SampleItems) == ["2024", "2024", "2024", "2024", "2025", "2025", "2025", "2025", "2025", "2026", "2026", "2026", "2026", "2027", "2027", "2027", "2028", "2028", "2028", "2028"]
  {
  }

  /** The preview slate comes in runs of one year each: 2024, 2025, 2026, 2027, 2028. */
  function Run(k: nat): seq<Item>
    requires k < 5
  {
    [SampleItems[..4], SampleItems[4..9], SampleItems[9..13], SampleItems[13..16], SampleItems[16..]][k]
  }

  const RunYears: seq<string> := ["2024", "2025", "2026", "2027", "2028"]

  lemma RunsHaveOneYear(k: nat)
    requires k < 5
    ensures forall i :: 0 <= i < |Run(k)| ==> Run(k)[i].year == RunYears[k]
  {
    var years := ItemYears(SampleItems);
    SampleYears();
    var offset := [0, 4, 9, 13, 16][k];
    assert offset + |Run(k)| <= |SampleItems|;
    forall i | 0 <= i < |Run(k)| ensures Run(k)[i].year == RunYears[k] {
      assert Run(k)[i] == SampleItems[offset + i];
      assert years[offset + i] == SampleItems[offset + i].year;
    }
  }

  lemma SampleIsRuns(y: string)
    ensures Accumulated(SampleItems, y) ==
      Plus(Plus(Plus(Plus(Accumulated(Run(0), y), Accumulated(Run(1), y)), Accumulated(Run(2), y)), Accumulated(Run(3), y)), Accumulated(Run(4), y))
  {
    assert SampleItems == Run(0) + Run(1) + Run(2) + Run(3) + Run(4);
    AccumulatedAppend(Run(0), Run(1), y);
    AccumulatedAppend(Run(0) + Run(1), Run(2), y);
    AccumulatedAppend(Run(0) + Run(1) + Run(2), Run(3), y);
    AccumulatedAppend(Run(0) + Run(1) + Run(2) + Run(3), Run(4), y);
  }

  /** The title count a run contributes to year `y`: its length for its own year, else nothing. */
  lemma RunContributes(k: nat, y: string)
    requires k < 5
    ensures Accumulated(Run(k), y).titles == if y == RunYears[k] then |Run(k)| else 0
  {
    RunsHaveOneYear(k);
    if y == RunYears[k] {
      SingleYear(Run(k), y, "");
    } else {
      SingleYear(Run(k), RunYears[k], y);
    }
  }

  /** A year's title count on the preview slate adds up what each run contributes. */
  lemma YearTitles(y: string)
    ensures YearTotal(SampleItems, y).titles ==
      Accumulated(Run(0), y).titles + Accumulated(Run(1), y).titles + Accumulated(Run(2), y).titles
        + Accumulated(Run(3), y).titles + Accumulated(Run(4), y).titles
  {
    SampleIsRuns(y);
  }

  /** A display year's title count on the preview slate is the length of its run. */
  lemma RunTitles(k: nat)
    requires k < 5
    ensures YearTotal(SampleItems, RunYears[k]).titles == |Run(k)|
  {
    var y := RunYears[k];
    YearTitles(y);
    RunContributes(0, y);
    RunContributes(1, y);
    RunContributes(2, y);
    RunContributes(3, y);
    RunContributes(4, y);
  }

  /** The preview slate's titles per display year; its four 2024 titles count nowhere. */
  lemma SampleTitlesPerYear()
    ensures YearTotal(SampleItems, "2025").titles == 5
    ensures YearTotal(SampleItems, "2026").titles == 4
    ensures YearTotal(SampleItems, "2027").titles == 3
    ensures YearTotal(SampleItems, "2028").titles == 4
    ensures YearTotal(SampleItems, "2029").titles == 0
  {
    YearTitles("2029");
    RunContributes(0, "2029");
    RunContributes(1, "2029");
    RunContributes(2, "2029");
    RunContributes(3, "2029");
    RunContributes(4, "2029");
    RunTitles(1);
    RunTitles(2);
    RunTitles(3);
    RunTitles(4);
  }
}
