/** The genre colour table that the dashboard and the executive timeline share. */
module Palette {
  import opened Seqs

  /** `genres`: the genres that have a colour of their own, `Other` last. */
  const GenreNames: seq<string> := ["Drama", "Sci-Fi", "Action", "Comedy", "Fantasy", "Adventure", "Horror", "Other"]

  /** `GENRE_COLORS`, parallel to `GenreNames`. */
  const GenreColors: seq<string> := ["#d4af37", "#27ae60", "#1a6dcc", "#e74c3c", "#8e44ad", "#f39c12", "#e67e22", "#34495e"]

  /** `getGenreColor`: the colour at the genre's index, or the last colour for an unlisted genre. */
  function GenreColor(genre: string): (c: string)
    ensures c in GenreColors
  {
    var idx := IndexOf(GenreNames, genre);
    GenreColors[if idx >= 0 then idx else |GenreColors| - 1]
  }

  /** The i-th listed genre gets the i-th colour; anything else, `Other` included, gets dark grey. */
  lemma GenreColorTable(genre: string)
    ensures forall i :: 0 <= i < |GenreNames| ==> GenreColor(GenreNames[i]) == GenreColors[i]
    ensures genre !in GenreNames ==> GenreColor(genre) == "#34495e"
    ensures GenreColor("Other") == "#34495e"
  {
    forall i | 0 <= i < |GenreNames| ensures GenreColor(GenreNames[i]) == GenreColors[i] {
      assert NoDuplicates(GenreNames);
      assert IndexOf(GenreNames, GenreNames[i]) == i;
    }
    assert GenreNames[7] == "Other";
  }
}
