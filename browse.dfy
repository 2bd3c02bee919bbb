/**
 * The browse page (app/movie-page/page.tsx): the theater/movie records, the
 * `filteredMovies` projection driven by the search box and the theater
 * selector, the rule that decides which theater sections the grid shows, and
 * the sentinel strings `MovieCard` rewrites for display.
 */
module Browse {
  import opened Seqs
  import opened Text

  datatype Movie = Movie(title: string, rating: string, showtimes: string, imdbId: string, image: string)

  datatype Theater = Theater(name: string, address: string, movies: seq<Movie>)

  /** The selector's "no restriction" value. */
  const AllTheaters := "All Theaters"

  /** The data source's marker for a missing rating or missing showtimes. */
  const NotAvailable := "N/A"

  /** The data source's other marker for missing showtimes. */
  const NoShowtimesOnImdb := "No showtimes available on IMDb."

  const NotRated := "Not Rated"

  const NoShowtimesListed := "No showtimes listed"

  /** The search test: the lower-cased title contains the lower-cased query. */
  predicate TitleMatches(m: Movie, query: string)
    ensures TitleMatches(m, query) ==> |query| <= |m.title|
    ensures |query| == |m.title| ==> (TitleMatches(m, query) <==> Lower(query) == Lower(m.title))
  {
    Contains(Lower(m.title), Lower(query))
  }

  /** `TitleMatches` with the query fixed, as the callback handed to `filter`. */
  function MatchesQuery(query: string): Movie -> bool
  {
    m => TitleMatches(m, query)
  }

  /** The theater selector's test: "All Theaters" keeps every theater, any other choice only the theater of that name. */
  predicate Selected(t: Theater, selected: string)
    ensures selected == AllTheaters ==> Selected(t, selected)
    ensures selected != AllTheaters ==> (Selected(t, selected) <==> t.name == selected)
  {
    selected == AllTheaters || t.name == selected
  }

  /** `Selected` with the selection fixed, as the callback handed to `filter`. */
  function SelectedBy(selected: string): Theater -> bool
  {
    t => Selected(t, selected)
  }

  /** Every theater with its movie list narrowed to the titles that match (the `map` step). */
  function Narrowed(theaters: seq<Theater>, query: string): (r: seq<Theater>)
    ensures |r| == |theaters|
    ensures forall i :: 0 <= i < |r| ==>
      r[i].name == theaters[i].name && r[i].address == theaters[i].address &&
      r[i].movies == Filter(theaters[i].movies, MatchesQuery(query))
  {
    seq(|theaters|, i requires 0 <= i < |theaters| =>
      theaters[i].(movies := Filter(theaters[i].movies, MatchesQuery(query))))
  }

  /** An empty query matches every title, whatever its case. */
  lemma EmptyQueryMatchesAll(m: Movie)
    ensures TitleMatches(m, "")
  {
    ContainsEmpty(Lower(m.title));
  }

  /** Queries that differ only in the case of their letters match the same titles. */
  lemma QueryCaseInsensitive(m: Movie, query: string, variant: string)
    requires SameIgnoringCase(query, variant)
    ensures TitleMatches(m, query) == TitleMatches(m, variant)
  {
    CaseVariantsLowerEqual(query, variant);
  }

  /** Likewise, the case a title is stored in does not affect which queries find it. */
  lemma TitleCaseInsensitive(m: Movie, title: string, query: string)
    requires SameIgnoringCase(m.title, title)
    ensures TitleMatches(m, query) == TitleMatches(m.(title := title), query)
  {
    CaseVariantsLowerEqual(m.title, title);
  }

  /**
   * `filteredMovies`: the theaters to lay out for the current search text and
   * theater selection. With no search text and every theater selected the
   * fetched list itself is returned.
   */
  function FilteredMovies(theaters: seq<Theater>, searchQuery: string, selectedTheater: string): (r: seq<Theater>)
    ensures searchQuery == "" && selectedTheater == AllTheaters ==> r == theaters
    ensures selectedTheater == AllTheaters ==> |r| == |theaters|
    ensures selectedTheater != AllTheaters ==> forall i :: 0 <= i < |r| ==> r[i].name == selectedTheater
    ensures forall i, j :: 0 <= i < |r| && 0 <= j < |r[i].movies| ==> TitleMatches(r[i].movies[j], searchQuery)
  {
    if searchQuery == "" && selectedTheater == AllTheaters then
      (forall m: Movie | true ensures TitleMatches(m, "") { EmptyQueryMatchesAll(m); }
      theaters)
    else
      var narrowed := Narrowed(theaters, searchQuery);
      assert selectedTheater == AllTheaters ==> Filter(narrowed, SelectedBy(selectedTheater)) == narrowed by {
        if selectedTheater == AllTheaters {
          FilterKeepsAll(narrowed, SelectedBy(selectedTheater));
        }
      }
      Filter(narrowed, SelectedBy(selectedTheater))
  }

  /** With an empty query the `map` step rebuilds every theater unchanged. */
  lemma NarrowedByEmptyQuery(theaters: seq<Theater>)
    ensures Narrowed(theaters, "") == theaters
  {
    var narrowed := Narrowed(theaters, "");
    forall i | 0 <= i < |theaters| ensures narrowed[i] == theaters[i] {
      forall j | 0 <= j < |theaters[i].movies| ensures MatchesQuery("")(theaters[i].movies[j]) {
        EmptyQueryMatchesAll(theaters[i].movies[j]);
      }
      FilterKeepsAll(theaters[i].movies, MatchesQuery(""));
    }
  }

  /**
   * The short-circuit is only an optimisation: on every input the result
   * equals the general path, narrowing the movies and then keeping the
   * selected theaters.
   */
  lemma ShortCircuitAgreesWithGeneralPath(theaters: seq<Theater>, searchQuery: string, selectedTheater: string)
    ensures FilteredMovies(theaters, searchQuery, selectedTheater)
         == Filter(Narrowed(theaters, searchQuery), SelectedBy(selectedTheater))
  {
    if searchQuery == "" && selectedTheater == AllTheaters {
      NarrowedByEmptyQuery(theaters);
      FilterKeepsAll(theaters, SelectedBy(selectedTheater));
    }
  }

  /**
   * The result lists, in their original order, exactly the theaters that pass
   * the selector, each with its name and address and with its movies narrowed
   * to the matching titles in their original order.
   */
  lemma FilteredPositions(theaters: seq<Theater>, searchQuery: string, selectedTheater: string)
    returns (idx: seq<nat>)
    ensures |idx| == |FilteredMovies(theaters, searchQuery, selectedTheater)|
    ensures Increasing(idx)
    ensures forall i :: 0 <= i < |theaters| ==> (i in idx <==> Selected(theaters[i], selectedTheater))
    ensures forall k :: 0 <= k < |idx| ==>
      idx[k] < |theaters| &&
      FilteredMovies(theaters, searchQuery, selectedTheater)[k]
        == theaters[idx[k]].(movies := Filter(theaters[idx[k]].movies, MatchesQuery(searchQuery)))
  {
    ShortCircuitAgreesWithGeneralPath(theaters, searchQuery, selectedTheater);
    var narrowed := Narrowed(theaters, searchQuery);
    idx := FilterPositions(narrowed, SelectedBy(selectedTheater));
  }

  /** A named selection that no fetched theater carries yields an empty result. */
  lemma UnknownTheaterYieldsNothing(theaters: seq<Theater>, searchQuery: string, selectedTheater: string)
    requires selectedTheater != AllTheaters
    requires forall i :: 0 <= i < |theaters| ==> theaters[i].name != selectedTheater
    ensures FilteredMovies(theaters, searchQuery, selectedTheater) == []
  {
    ShortCircuitAgreesWithGeneralPath(theaters, searchQuery, selectedTheater);
    FilterKeepsNone(Narrowed(theaters, searchQuery), SelectedBy(selectedTheater));
  }

  /** With no search text the selected theaters keep their full movie lists. */
  lemma EmptyQueryKeepsMovies(theaters: seq<Theater>, selectedTheater: string)
    ensures FilteredMovies(theaters, "", selectedTheater) == Filter(theaters, SelectedBy(selectedTheater))
  {
    ShortCircuitAgreesWithGeneralPath(theaters, "", selectedTheater);
    NarrowedByEmptyQuery(theaters);
  }

  /** Filtering the filtered list again with the same view state changes nothing. */
  lemma FilteredIdempotent(theaters: seq<Theater>, searchQuery: string, selectedTheater: string)
    ensures FilteredMovies(FilteredMovies(theaters, searchQuery, selectedTheater), searchQuery, selectedTheater)
         == FilteredMovies(theaters, searchQuery, selectedTheater)
  {
    var once := FilteredMovies(theaters, searchQuery, selectedTheater);
    ShortCircuitAgreesWithGeneralPath(once, searchQuery, selectedTheater);
    var renarrowed := Narrowed(once, searchQuery);
    forall i | 0 <= i < |once| ensures renarrowed[i] == once[i] {
      FilterKeepsAll(once[i].movies, MatchesQuery(searchQuery));
    }
    assert renarrowed == once;
    FilterKeepsAll(once, SelectedBy(selectedTheater));
  }

  /** Whether the grid lays out a theater section: only when it has movies left. */
  predicate HasMovies(t: Theater)
    ensures HasMovies(t) <==> t.movies != []
  {
    |t.movies| > 0
  }

  /**
   * The theater sections the grid shows once loading is over and no error is
   * set: the filtered theaters whose movie list is non-empty, in order. The
   * rule applies whether or not the filter took its short-circuit.
   */
  function RenderedTheaters(theaters: seq<Theater>, searchQuery: string, selectedTheater: string): (r: seq<Theater>)
    ensures forall i :: 0 <= i < |r| ==> |r[i].movies| > 0 && r[i] in FilteredMovies(theaters, searchQuery, selectedTheater)
    ensures forall t :: t in FilteredMovies(theaters, searchQuery, selectedTheater) && |t.movies| > 0 ==> t in r
  {
    Filter(FilteredMovies(theaters, searchQuery, selectedTheater), HasMovies)
  }

  /**
   * With every theater selected, the grid shows, in their original order,
   * exactly the fetched theaters that have a title matching the search, each
   * narrowed to its matching titles; on either path of the filter, a theater
   * fetched with no movies is never shown.
   */
  lemma ShownIffSomeTitleMatches(theaters: seq<Theater>, searchQuery: string) returns (idx: seq<nat>)
    ensures |idx| == |RenderedTheaters(theaters, searchQuery, AllTheaters)|
    ensures Increasing(idx)
    ensures forall i :: 0 <= i < |theaters| ==>
      (i in idx <==> exists j :: 0 <= j < |theaters[i].movies| && TitleMatches(theaters[i].movies[j], searchQuery))
    ensures forall k :: 0 <= k < |idx| ==>
      idx[k] < |theaters| &&
      RenderedTheaters(theaters, searchQuery, AllTheaters)[k] == Narrowed(theaters, searchQuery)[idx[k]]
  {
    var narrowed := Narrowed(theaters, searchQuery);
    ShortCircuitAgreesWithGeneralPath(theaters, searchQuery, AllTheaters);
    FilterKeepsAll(narrowed, SelectedBy(AllTheaters));
    idx := FilterPositions(narrowed, HasMovies);
    forall i | 0 <= i < |theaters|
      ensures HasMovies(narrowed[i]) <==>
        exists j :: 0 <= j < |theaters[i].movies| && TitleMatches(theaters[i].movies[j], searchQuery)
    {
      if j :| 0 <= j < |theaters[i].movies| && TitleMatches(theaters[i].movies[j], searchQuery) {
        assert MatchesQuery(searchQuery)(theaters[i].movies[j]);
        assert theaters[i].movies[j] in narrowed[i].movies;
      }
      if HasMovies(narrowed[i]) {
        var m := narrowed[i].movies[0];
        assert m in theaters[i].movies && MatchesQuery(searchQuery)(m);
      }
    }
  }

  /** How `MovieCard` shows a rating: the "N/A" marker reads "Not Rated". */
  function DisplayRating(rating: string): (shown: string)
    ensures shown != NotAvailable
    ensures rating != NotAvailable ==> shown == rating
    ensures shown == NotRated <==> rating == NotAvailable || rating == NotRated
  {
    if rating == NotAvailable then NotRated else rating
  }

  /** How `MovieCard` shows showtimes: both "no showtimes" markers read "No showtimes listed". */
  function DisplayShowtimes(showtimes: string): (shown: string)
    ensures shown != NotAvailable && shown != NoShowtimesOnImdb
    ensures showtimes != NotAvailable && showtimes != NoShowtimesOnImdb ==> shown == showtimes
    ensures shown == NoShowtimesListed <==>
      showtimes == NotAvailable || showtimes == NoShowtimesOnImdb || showtimes == NoShowtimesListed
  {
    if showtimes == NoShowtimesOnImdb || showtimes == NotAvailable then NoShowtimesListed else showtimes
  }
}
