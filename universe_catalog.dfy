// The universes offered by the universe selector: a record keyed by
// universe id, read back as the list of its values, by key, or as the
// default medieval universe.

module UniverseCatalog {
  import opened Wrappers

  datatype UniverseType = Fantasy | SciFi | Horror | Historical | PostApocalyptic | Other

  datatype Universe = Universe(
    id: string,
    name: string,
    creator: Option<string>,
    period: string,
    historicalEquivalent: Option<string>,
    genres: seq<string>,
    kind: UniverseType,
    gameSystem: Option<string>,
    description: Option<string>,
    tags: seq<string>)

  /** The universe record as its entries, in the order its keys were written. */
  type Catalog = seq<(string, Universe)>

  /** The key of the universe selected before the user picks one. */
  const DefaultUniverseId := "medieval-generic"

  predicate HasKey(catalog: Catalog, key: string) {
    exists i :: 0 <= i < |catalog| && catalog[i].0 == key
  }

  /** The values of the record, in key order. */
  function AllUniverses(catalog: Catalog): (r: seq<Universe>)
    ensures |r| == |catalog|
    ensures forall i :: 0 <= i < |catalog| ==> r[i] == catalog[i].1
  {
    if catalog == [] then [] else [catalog[0].1] + AllUniverses(catalog[1..])
  }

  /** The universe stored under `key`, if any (a record holds each key once, so the first is the only one). */
  function UniverseById(catalog: Catalog, key: string): (r: Option<Universe>)
    ensures r.Some? <==> HasKey(catalog, key)
    ensures r.Some? ==> exists i :: 0 <= i < |catalog| && catalog[i] == (key, r.value)
  {
    if catalog == [] then None
    else if catalog[0].0 == key then Some(catalog[0].1)
    else
      var r := UniverseById(catalog[1..], key);
      assert HasKey(catalog, key) ==> catalog[0].0 == key || HasKey(catalog[1..], key) by {
        if HasKey(catalog, key) {
          var i :| 0 <= i < |catalog| && catalog[i].0 == key;
          if i > 0 {
            assert catalog[1..][i - 1].0 == key;
          }
        }
      }
      assert r.Some? ==> exists i :: 0 <= i < |catalog| && catalog[i] == (key, r.value) by {
        if r.Some? {
          var i :| 0 <= i < |catalog[1..]| && catalog[1..][i] == (key, r.value);
          assert catalog[i + 1] == (key, r.value);
        }
      }
      r
  }

  /** A universe found by key is one of the record's values. */
  lemma FoundUniverseIsListed(catalog: Catalog, key: string)
    requires UniverseById(catalog, key).Some?
    ensures UniverseById(catalog, key).value in AllUniverses(catalog)
  {
    var i :| 0 <= i < |catalog| && catalog[i] == (key, UniverseById(catalog, key).value);
    assert AllUniverses(catalog)[i] == catalog[i].1;
  }

  /** The default universe, which the record must hold. */
  function DefaultUniverse(catalog: Catalog): (r: Universe)
    requires HasKey(catalog, DefaultUniverseId)
    ensures UniverseById(catalog, DefaultUniverseId) == Some(r)
    ensures r in AllUniverses(catalog)
  {
    FoundUniverseIsListed(catalog, DefaultUniverseId);
    UniverseById(catalog, DefaultUniverseId).value
  }
}
