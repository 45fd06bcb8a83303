// The universe selection store: the selected universe, the universes on
// offer, the search term and the universes the term lets through, with a
// setter for the selection and one for the term.

module UniverseStore {
  import opened Wrappers
  import opened Text
  import opened UniverseCatalog
  import opened UniverseFilter

  /** The options the term setter filters with: the term alone, no genre and no period. */
  function TermOnly(term: string): FilterOptions {
    FilterOptions(Some(term), None, None)
  }

  /** The selection after asking for `universeId`: that universe when the catalog has it, else the current one. */
  function SelectionAfter(catalog: Catalog, current: Universe, universeId: string): (r: Universe)
    ensures HasKey(catalog, universeId) ==> Some(r) == UniverseById(catalog, universeId)
    ensures !HasKey(catalog, universeId) ==> r == current
    ensures current in AllUniverses(catalog) ==> r in AllUniverses(catalog)
  {
    match UniverseById(catalog, universeId)
    case Some(u) => FoundUniverseIsListed(catalog, universeId); u
    case None => current
  }

  class UniverseSelection {
    /** The universe record the store reads from. */
    const catalog: Catalog
    var selectedUniverse: Universe
    var availableUniverses: seq<Universe>
    var searchTerm: string
    var filteredUniverses: seq<Universe>

    /**
     * What every state of the store satisfies: the universes on offer are
     * the whole catalog, the selection is one of them, and the filtered
     * list is the offer filtered by the current term.
     */
    predicate Valid()
      reads this
    {
      availableUniverses == AllUniverses(catalog) &&
      selectedUniverse in availableUniverses &&
      filteredUniverses == FilterUniverses(availableUniverses, TermOnly(searchTerm))
    }

    /** The initial state: the default universe selected, everything on offer and shown, no term. */
    constructor(catalog: Catalog)
      requires HasKey(catalog, DefaultUniverseId)
      ensures this.catalog == catalog
      ensures selectedUniverse == DefaultUniverse(catalog)
      ensures availableUniverses == AllUniverses(catalog) && filteredUniverses == AllUniverses(catalog)
      ensures searchTerm == ""
      ensures Valid()
    {
      this.catalog := catalog;
      selectedUniverse := DefaultUniverse(catalog);
      availableUniverses := AllUniverses(catalog);
      searchTerm := "";
      filteredUniverses := AllUniverses(catalog);
      new;
      EmptyCriteriaKeepAll(AllUniverses(catalog), TermOnly(""));
    }

    /** setSelectedUniverse: selects the universe under `universeId`, or keeps the selection for an unknown id. */
    method SetSelectedUniverse(universeId: string)
      modifies this
      ensures selectedUniverse == SelectionAfter(catalog, old(selectedUniverse), universeId)
      ensures availableUniverses == old(availableUniverses)
      ensures searchTerm == old(searchTerm) && filteredUniverses == old(filteredUniverses)
      ensures old(Valid()) ==> Valid()
    {
      var found := UniverseById(catalog, universeId);
      if found.Some? {
        selectedUniverse := found.value;
      }
    }

    /** setSearchTerm: records the term and filters the offer by it alone. */
    method SetSearchTerm(term: string)
      modifies this
      ensures searchTerm == term
      ensures filteredUniverses == FilterUniverses(availableUniverses, TermOnly(term))
      ensures availableUniverses == old(availableUniverses) && selectedUniverse == old(selectedUniverse)
      ensures old(Valid()) ==> Valid()
    {
      searchTerm := term;
      filteredUniverses := FilterUniverses(availableUniverses, TermOnly(term));
    }
  }

  /** The filtered list holds, in order, exactly the offered universes whose name or description mentions the term. */
  lemma FilteredMatchesTerm(available: seq<Universe>, term: string)
    ensures var shown := FilterUniverses(available, TermOnly(term));
      IsSubseq(shown, available) &&
      forall u :: u in shown <==> u in available && MatchesTerm(u, term)
  {
    var shown := FilterUniverses(available, TermOnly(term));
    forall u
      ensures u in shown <==> u in available && MatchesTerm(u, term)
    {
      assert MatchesGenres(u, []) && MatchesPeriods(u, []);
    }
  }

  /** Clearing the term shows every universe on offer again. */
  lemma EmptyTermShowsAll(available: seq<Universe>)
    ensures FilterUniverses(available, TermOnly("")) == available
  {
    EmptyCriteriaKeepAll(available, TermOnly(""));
  }

  /** Asking twice for the same universe leaves the same selection as asking once. */
  lemma SelectionIdempotent(catalog: Catalog, current: Universe, universeId: string)
    ensures SelectionAfter(catalog, SelectionAfter(catalog, current, universeId), universeId)
         == SelectionAfter(catalog, current, universeId)
  {
  }

  /** A session of the store: selecting, searching and selecting an unknown id. */
  method SelectThenSearch(catalog: Catalog, universeId: string, term: string) returns (store: UniverseSelection)
    requires HasKey(catalog, DefaultUniverseId)
    ensures store.Valid()
    ensures store.searchTerm == term
    ensures HasKey(catalog, universeId) ==> Some(store.selectedUniverse) == UniverseById(catalog, universeId)
    ensures !HasKey(catalog, universeId) ==> store.selectedUniverse == DefaultUniverse(catalog)
  {
    store := new UniverseSelection(catalog);
    store.SetSelectedUniverse(universeId);
    store.SetSearchTerm(term);
  }
}
