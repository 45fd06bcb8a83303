// Lookups over the universe catalog: by id, by genre, by period, and the
// description shown for an id.

module UniverseData {
  import opened Wrappers
  import opened Text
  import opened UniverseCatalog
  import opened UniverseFilter

  /** The text shown when there is no description to show. */
  const NoDescription := "No description available"

  /** findUniverseById: the catalog lookup by key. */
  function FindUniverseById(catalog: Catalog, universeId: string): (r: Option<Universe>)
    ensures r.Some? <==> HasKey(catalog, universeId)
    ensures r.Some? ==> r.value in AllUniverses(catalog)
  {
    var r := UniverseById(catalog, universeId);
    if r.Some? then FoundUniverseIsListed(catalog, universeId); r else r
  }

  predicate HasGenreLike(u: Universe, genre: string) {
    exists g :: g in u.genres && Mentions(g, genre)
  }

  /** The universes, in catalog order, with a genre that mentions the query. */
  function FindUniversesByGenre(catalog: Catalog, genre: string): (r: seq<Universe>)
    ensures IsSubseq(r, AllUniverses(catalog))
    ensures forall u :: u in r <==> u in AllUniverses(catalog) && HasGenreLike(u, genre)
  {
    Filter(AllUniverses(catalog), u => HasGenreLike(u, genre))
  }

  /** The universes, in catalog order, whose period mentions the query. */
  function FindUniversesByPeriod(catalog: Catalog, period: string): (r: seq<Universe>)
    ensures IsSubseq(r, AllUniverses(catalog))
    ensures forall u :: u in r <==> u in AllUniverses(catalog) && Mentions(u.period, period)
  {
    Filter(AllUniverses(catalog), (u: Universe) => Mentions(u.period, period))
  }

  /** The description of the universe under `universeId`, or the placeholder when it is missing or empty. */
  function UniverseDescriptionById(catalog: Catalog, universeId: string): (r: string)
    ensures r != ""
    ensures FindUniverseById(catalog, universeId).None? ==> r == NoDescription
    ensures FindUniverseById(catalog, universeId).Some? ==>
      var d := FindUniverseById(catalog, universeId).value.description;
      r == if d.Some? && d.value != "" then d.value else NoDescription
  {
    match FindUniverseById(catalog, universeId)
    case None => NoDescription
    case Some(u) => if u.description.Some? && u.description.value != "" then u.description.value else NoDescription
  }

  /** Searching by one genre is filtering with that genre alone. */
  lemma GenreSearchIsGenreFilter(catalog: Catalog, genre: string)
    ensures FindUniversesByGenre(catalog, genre) == FilterUniverses(AllUniverses(catalog), FilterOptions(None, Some([genre]), None))
  {
    var all := AllUniverses(catalog);
    var p := (u: Universe) => HasGenreLike(u, genre);
    var q := (u: Universe) => Passes(u, "", [genre], []);
    forall u: Universe
      ensures p(u) == q(u)
    {
      if HasGenreLike(u, genre) {
        var g :| g in u.genres && Mentions(g, genre);
        assert genre in [genre];
      }
    }
    FilterExtensional(all, p, q);
  }

  /** Searching by one period is filtering with that period alone. */
  lemma PeriodSearchIsPeriodFilter(catalog: Catalog, period: string)
    ensures FindUniversesByPeriod(catalog, period) == FilterUniverses(AllUniverses(catalog), FilterOptions(None, None, Some([period])))
  {
    var all := AllUniverses(catalog);
    var p := (u: Universe) => Mentions(u.period, period);
    var q := (u: Universe) => Passes(u, "", [], [period]);
    forall u: Universe
      ensures p(u) == q(u)
    {
      assert period in [period];
    }
    FilterExtensional(all, p, q);
  }

  /** Two filters that keep the same elements give the same result. */
  lemma FilterExtensional<T(!new)>(s: seq<T>, p: T -> bool, q: T -> bool)
    requires forall x :: p(x) == q(x)
    ensures Filter(s, p) == Filter(s, q)
  {
    var all := (x: T) => true;
    FilterFuse(s, all, p, p);
    FilterFuse(s, all, p, q);
  }
}
