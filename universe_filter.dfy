// Filtering the universe list by a search term, genres and periods. Every
// comparison lower-cases both sides and looks for a substring; an absent or
// empty criterion lets every universe through.

module UniverseFilter {
  import opened Wrappers
  import opened Text
  import opened UniverseCatalog

  /** The criteria; each may be absent, and an absent one counts as empty. */
  datatype FilterOptions = FilterOptions(searchTerm: Option<string>, genres: Option<seq<string>>, periods: Option<seq<string>>)

  const NoOptions := FilterOptions(None, None, None)

  /** `text` holds `query`, ignoring case. */
  predicate Mentions(text: string, query: string) {
    Contains(Lower(text), Lower(query))
  }

  /** An empty term matches everything; otherwise the name or the description must mention it. */
  predicate MatchesTerm(u: Universe, term: string) {
    term == "" || Mentions(u.name, term) || (u.description.Some? && Mentions(u.description.value, term))
  }

  /** No genres requested, or some requested genre is mentioned by one of the universe's genres. */
  predicate MatchesGenres(u: Universe, genres: seq<string>) {
    |genres| == 0 || exists genre, g :: genre in genres && g in u.genres && Mentions(g, genre)
  }

  /** No periods requested, or the universe's period mentions one of them. */
  predicate MatchesPeriods(u: Universe, periods: seq<string>) {
    |periods| == 0 || exists period :: period in periods && Mentions(u.period, period)
  }

  predicate Passes(u: Universe, term: string, genres: seq<string>, periods: seq<string>) {
    MatchesTerm(u, term) && MatchesGenres(u, genres) && MatchesPeriods(u, periods)
  }

  /** Keeps, in order, the universes that meet all three criteria. */
  function FilterUniverses(universes: seq<Universe>, options: FilterOptions): (r: seq<Universe>)
    ensures IsSubseq(r, universes)
    ensures forall u :: u in r <==>
      u in universes &&
      MatchesTerm(u, options.searchTerm.GetOr("")) &&
      MatchesGenres(u, options.genres.GetOr([])) &&
      MatchesPeriods(u, options.periods.GetOr([]))
  {
    var term, genres, periods := options.searchTerm.GetOr(""), options.genres.GetOr([]), options.periods.GetOr([]);
    Filter(universes, u => Passes(u, term, genres, periods))
  }

  /** The same filter with each criterion given outright. */
  function SearchUniverses(searchTerm: string, searchGenres: seq<string>, searchPeriods: seq<string>,
                           universes: seq<Universe>): seq<Universe>
  {
    FilterUniverses(universes, FilterOptions(Some(searchTerm), Some(searchGenres), Some(searchPeriods)))
  }

  /** Absent criteria and empty ones filter alike. */
  lemma AbsentIsEmpty(universes: seq<Universe>, a: FilterOptions, b: FilterOptions)
    requires a.searchTerm.GetOr("") == b.searchTerm.GetOr("")
    requires a.genres.GetOr([]) == b.genres.GetOr([])
    requires a.periods.GetOr([]) == b.periods.GetOr([])
    ensures FilterUniverses(universes, a) == FilterUniverses(universes, b)
  {
  }

  /** searchUniverses is filterUniverses under any options with the same criteria. */
  lemma SearchIsFilter(searchTerm: string, searchGenres: seq<string>, searchPeriods: seq<string>,
                       universes: seq<Universe>, options: FilterOptions)
    requires options.searchTerm.GetOr("") == searchTerm
    requires options.genres.GetOr([]) == searchGenres
    requires options.periods.GetOr([]) == searchPeriods
    ensures SearchUniverses(searchTerm, searchGenres, searchPeriods, universes) == FilterUniverses(universes, options)
  {
    AbsentIsEmpty(universes, FilterOptions(Some(searchTerm), Some(searchGenres), Some(searchPeriods)), options);
  }

  /** With no criterion set, every universe is kept, in its place. */
  lemma EmptyCriteriaKeepAll(universes: seq<Universe>, options: FilterOptions)
    requires options.searchTerm.GetOr("") == ""
    requires options.genres.GetOr([]) == []
    requires options.periods.GetOr([]) == []
    ensures FilterUniverses(universes, options) == universes
  {
    FilterAllPass(universes, u => Passes(u, "", [], []));
  }

  /** Filtering what was filtered with the same options changes nothing. */
  lemma FilterIdempotent(universes: seq<Universe>, options: FilterOptions)
    ensures FilterUniverses(FilterUniverses(universes, options), options) == FilterUniverses(universes, options)
  {
    var term, genres, periods := options.searchTerm.GetOr(""), options.genres.GetOr([]), options.periods.GetOr([]);
    var p := u => Passes(u, term, genres, periods);
    FilterFuse(universes, p, p, p);
  }

  /** Case does not matter: a term matches iff its lower-cased form does. */
  lemma TermCaseInsensitive(u: Universe, term: string)
    ensures MatchesTerm(u, term) <==> MatchesTerm(u, Lower(term))
  {
    LowerIsLower(term);
  }
}
