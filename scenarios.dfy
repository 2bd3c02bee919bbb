/** Concrete runs of the browse filter on a two-movie, two-theater listing. */
module Scenarios {
  import opened Seqs
  import opened Text
  import opened Browse

  const Dune := Movie("Dune Part Two", "PG-13", "7:00 PM", "tt15239678", "")
  const Moana := Movie("Moana 2", "N/A", "N/A", "tt13622970", "")
  const Regal := Theater("Regal", "1045 Broxton Ave", [Dune, Moana])
  const Bruin := Theater("Bruin", "948 Broxton Ave", [Moana])

  /** The listing's movies whose title contains "dune", for a query that lower-cases to "dune". */
  lemma DuneMatches(query: string)
    requires Lower(query) == "dune"
    ensures Filter([Dune, Moana], MatchesQuery(query)) == [Dune]
  {
    assert Lower(Dune.title) == "dune part two";
    assert "dune" <= Lower(Dune.title);
    assert Lower(Moana.title) == "moana 2";
    MissingFirstCharNotContained("moana 2", "dune");
    assert Filter([Moana], MatchesQuery(query)) == [];
  }

  /** Searching "dune" keeps the one theater, with exactly its "Dune Part Two" listing. */
  lemma SearchByTitle()
    ensures FilteredMovies([Regal], "dune", AllTheaters) == [Regal.(movies := [Dune])]
  {
    DuneMatches("dune");
  }

  /** Upper-case search text finds the same title. */
  lemma SearchIgnoresCase()
    ensures FilteredMovies([Regal], "DUNE", AllTheaters) == [Regal.(movies := [Dune])]
  {
    assert Lower("DUNE") == "dune";
    DuneMatches("DUNE");
  }

  /** With no search text, choosing "Regal" returns only that theater, with all its movies. */
  lemma SelectTheaterByName()
    ensures FilteredMovies([Bruin, Regal], "", "Regal") == [Regal]
  {
    EmptyQueryKeepsMovies([Bruin, Regal], "Regal");
    assert Filter([Regal], SelectedBy("Regal")) == [Regal];
  }

  /** "Dune Part Two" does not contain "xyz". */
  lemma DuneLacksXyz()
    ensures !TitleMatches(Dune, "xyz")
  {
    assert Lower("xyz") == "xyz";
    assert Lower(Dune.title) == "dune part two";
    MissingFirstCharNotContained("dune part two", "xyz");
  }

  /** "Moana 2" does not contain "xyz". */
  lemma MoanaLacksXyz()
    ensures !TitleMatches(Moana, "xyz")
  {
    assert Lower("xyz") == "xyz";
    assert Lower(Moana.title) == "moana 2";
    MissingFirstCharNotContained("moana 2", "xyz");
  }

  /** Neither of Regal's titles matches "xyz". */
  lemma RegalLacksXyz()
    ensures Filter(Regal.movies, MatchesQuery("xyz")) == []
  {
    DuneLacksXyz();
    MoanaLacksXyz();
    FilterKeepsNone([Dune, Moana], MatchesQuery("xyz"));
  }

  /** Search text that matches nothing keeps the theater in the filtered list, with no movies. */
  lemma SearchMatchingNothing()
    ensures FilteredMovies([Regal], "xyz", AllTheaters) == [Regal.(movies := [])]
  {
    RegalLacksXyz();
    assert Narrowed([Regal], "xyz") == [Regal.(movies := [])];
  }

  /** A search matching no title leaves the grid with no theater section. */
  lemma SearchMatchingNothingShowsNothing()
    ensures RenderedTheaters([Regal], "xyz", AllTheaters) == []
  {
    SearchMatchingNothing();
    assert Filter([Regal.(movies := [])], HasMovies) == [];
  }
}
