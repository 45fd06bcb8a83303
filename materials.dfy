// The material table of the game-data library: the Material record and the
// lookups, filters and sorts over a table of materials. The library reads a
// fixed constant table; here every query takes the table as a parameter.

module Materials {
  import opened Wrappers
  import opened Text

  datatype MaterialCategory = Metal | Organic | Mineral | Composite

  datatype HardnessType = Mohs | Hrc | Hv

  datatype Hardness = Hardness(kind: HardnessType, value: real)

  datatype EdgeGeometry = EdgeGeometry(score: real, radiusMicrometers: real)

  datatype SharpnessScore = SharpnessScore(overall: real, edgeGeometry: Option<EdgeGeometry>, toughness: Option<real>)

  datatype Thermal = Thermal(thermalConductivity: real, meltingPoint: Option<real>)

  /** One key of the price-multiplier record: a period and its multiplier. */
  datatype PeriodPrice = PeriodPrice(period: string, multiplier: real)

  /**
   * A material. The price-multiplier record is kept as its list of entries in
   * key order, so that the available periods keep the order they are listed in.
   */
  datatype Material = Material(
    id: string,
    name: string,
    category: MaterialCategory,
    density: real,
    hardness: Hardness,
    tensileStrength: real,
    thermal: Option<Thermal>,
    sharpnessScore: Option<SharpnessScore>,
    priceMultiplier: seq<PeriodPrice>,
    weightFactor: real,
    durabilityFactor: real,
    effectivenessFactor: real,
    specialProperties: seq<string>,
    cost: Option<int>,
    rarity: Option<int>)

  /** The multiplier stored under `period`, if the record has that key. */
  function MultiplierFor(table: seq<PeriodPrice>, period: string): (r: Option<real>)
    ensures r.Some? <==> exists i :: 0 <= i < |table| && table[i].period == period
    ensures r.Some? ==> exists i :: 0 <= i < |table| && table[i] == PeriodPrice(period, r.value)
  {
    if table == [] then None
    else if table[0].period == period then Some(table[0].multiplier)
    else
      var r := MultiplierFor(table[1..], period);
      assert forall i :: 0 <= i < |table[1..]| ==> table[1..][i] == table[i + 1];
      if r.Some? then
        var j :| 0 <= j < |table[1..]| && table[1..][j] == PeriodPrice(period, r.value);
        assert table[j + 1] == PeriodPrice(period, r.value);
        r
      else
        assert forall i :: 1 <= i < |table| ==> table[i] == table[1..][i - 1];
        r
  }

  function Keys(table: seq<PeriodPrice>): (r: seq<string>)
    ensures |r| == |table|
    ensures forall i :: 0 <= i < |table| ==> r[i] == table[i].period
  {
    if table == [] then [] else [table[0].period] + Keys(table[1..])
  }

  /** The periods a material can be bought in: the keys of its price record. */
  function AvailablePeriods(m: Material): (r: seq<string>)
    ensures |r| == |m.priceMultiplier|
    ensures forall p :: p in r <==> MultiplierFor(m.priceMultiplier, p).Some?
  {
    var r := Keys(m.priceMultiplier);
    assert forall p :: p in r ==> exists i :: 0 <= i < |m.priceMultiplier| && m.priceMultiplier[i].period == p;
    r
  }

  predicate InPeriod(m: Material, period: string) {
    period in AvailablePeriods(m)
  }

  /** The materials that list `period` among their keys, in table order. */
  function MaterialsForPeriod(materials: seq<Material>, period: string): (r: seq<Material>)
    ensures IsSubseq(r, materials)
    ensures forall m :: m in r <==> m in materials && MultiplierFor(m.priceMultiplier, period).Some?
  {
    Filter(materials, (m: Material) => InPeriod(m, period))
  }

  /** A period no material lists gives an empty selection. */
  lemma UnknownPeriodSelectsNothing(materials: seq<Material>, period: string)
    requires forall m :: m in materials ==> !InPeriod(m, period)
    ensures MaterialsForPeriod(materials, period) == []
  {
    FilterNonePass(materials, (m: Material) => InPeriod(m, period));
  }

  /** The first material whose id equals `id` exactly (case-sensitive). */
  function MaterialById(materials: seq<Material>, id: string): (r: Option<Material>)
    ensures r.None? <==> forall i :: 0 <= i < |materials| ==> materials[i].id != id
    ensures r.Some? ==> exists i :: 0 <= i < |materials| && materials[i] == r.value && r.value.id == id
                          && forall j :: 0 <= j < i ==> materials[j].id != id
  {
    if materials == [] then None
    else if materials[0].id == id then Some(materials[0])
    else
      var r := MaterialById(materials[1..], id);
      assert forall i :: 1 <= i < |materials| ==> materials[i] == materials[1..][i - 1];
      if r.Some? then
        var k :| 0 <= k < |materials[1..]| && materials[1..][k] == r.value && r.value.id == id
                 && forall j :: 0 <= j < k ==> materials[1..][j].id != id;
        assert materials[k + 1] == r.value;
        assert forall j :: 1 <= j < k + 1 ==> materials[j].id != id by {
          forall j | 1 <= j < k + 1 ensures materials[j].id != id {
            assert materials[j] == materials[1..][j - 1];
          }
        }
        r
      else
        r
  }

  /** Whether the material with that id exists and lists the period. */
  function IsMaterialAvailableInPeriod(materials: seq<Material>, id: string, period: string): (r: bool)
    ensures (forall i :: 0 <= i < |materials| ==> materials[i].id != id) ==> !r
    ensures MaterialById(materials, id).Some? ==> (r <==> InPeriod(MaterialById(materials, id).value, period))
  {
    match MaterialById(materials, id)
    case None => false
    case Some(m) => period in AvailablePeriods(m)
  }

  function PriceErrorMessage(m: Material, period: string): string {
    m.name + " is not available in period \"" + period + "\". Available periods: "
      + Join(AvailablePeriods(m), ", ")
  }

  /**
   * The price of a material in a period: the base cost times the period's
   * multiplier, or the error listing the periods the material has.
   */
  function MaterialPrice(m: Material, period: string, baseCost: real): (r: Result<real>)
    ensures r.Err? <==> !InPeriod(m, period)
    ensures r.Err? ==> r.message == PriceErrorMessage(m, period)
    ensures r.Ok? ==> exists i :: 0 <= i < |m.priceMultiplier|
                        && m.priceMultiplier[i].period == period
                        && r.value == baseCost * m.priceMultiplier[i].multiplier
  {
    match MultiplierFor(m.priceMultiplier, period)
    case None => Err(PriceErrorMessage(m, period))
    case Some(mult) => Ok(baseCost * mult)
  }

  /** The base cost used when the caller gives none. */
  const DefaultBaseCost: real := 100.0

  function MaterialPriceDefault(m: Material, period: string): (r: Result<real>)
    ensures r.Ok? <==> InPeriod(m, period)
    ensures r.Ok? ==> r.value == 100.0 * MultiplierFor(m.priceMultiplier, period).value
  {
    MaterialPrice(m, period, DefaultBaseCost)
  }

  /** Doubling the base cost doubles the price; the error case does not depend on it. */
  lemma PriceIsLinearInBaseCost(m: Material, period: string, a: real, b: real)
    ensures MaterialPrice(m, period, a).Ok? == MaterialPrice(m, period, b).Ok?
    ensures MaterialPrice(m, period, a + b).Ok? ==>
              MaterialPrice(m, period, a + b).value
                == MaterialPrice(m, period, a).value + MaterialPrice(m, period, b).value
  {
    match MultiplierFor(m.priceMultiplier, period)
    case None =>
    case Some(mult) =>
      assert (a + b) * mult == a * mult + b * mult;
  }

  function MaterialsByCategory(materials: seq<Material>, category: MaterialCategory): (r: seq<Material>)
    ensures IsSubseq(r, materials)
    ensures forall m :: m in r <==> m in materials && m.category == category
  {
    Filter(materials, (m: Material) => m.category == category)
  }

  function MaterialsByProperty(materials: seq<Material>, property: string): (r: seq<Material>)
    ensures IsSubseq(r, materials)
    ensures forall m :: m in r <==> m in materials && property in m.specialProperties
  {
    Filter(materials, (m: Material) => property in m.specialProperties)
  }

  /** Sort key of the cost sort: a missing cost counts as 0. */
  function CostOrZero(m: Material): int {
    m.cost.GetOr(0)
  }

  function RarityOrZero(m: Material): int {
    m.rarity.GetOr(0)
  }

  /** The table sorted by cost, cheapest first, as a stable sort. */
  function MaterialsSortedByCost(materials: seq<Material>): (r: seq<Material>)
    ensures multiset(r) == multiset(materials)
    ensures forall i, j :: 0 <= i < j < |r| ==> r[i].cost.GetOr(0) <= r[j].cost.GetOr(0)
  {
    var r := SortByKey(materials, CostOrZero);
    assert SortedByKey(r, CostOrZero);
    r
  }

  function MaterialsSortedByRarity(materials: seq<Material>): (r: seq<Material>)
    ensures multiset(r) == multiset(materials)
    ensures forall i, j :: 0 <= i < j < |r| ==> r[i].rarity.GetOr(0) <= r[j].rarity.GetOr(0)
  {
    var r := SortByKey(materials, RarityOrZero);
    assert SortedByKey(r, RarityOrZero);
    r
  }

  /** A material without a cost sorts before every material with a positive cost. */
  lemma MissingCostSortsFirst(materials: seq<Material>, i: int, j: int)
    requires 0 <= i < |MaterialsSortedByCost(materials)| && 0 <= j < |MaterialsSortedByCost(materials)|
    requires MaterialsSortedByCost(materials)[i].cost.None?
    requires MaterialsSortedByCost(materials)[j].cost.Some? && MaterialsSortedByCost(materials)[j].cost.value > 0
    ensures i < j
  {
    var r := MaterialsSortedByCost(materials);
    assert r[i].cost.GetOr(0) < r[j].cost.GetOr(0);
  }

  /** The overall sharpness, with a missing score counted as 0. */
  function Overall(m: Material): real {
    if m.sharpnessScore.Some? then m.sharpnessScore.value.overall else 0.0
  }

  function MaterialsByMinSharpness(materials: seq<Material>, minScore: real): (r: seq<Material>)
    ensures IsSubseq(r, materials)
    ensures forall m :: m in r <==> m in materials && Overall(m) >= minScore
  {
    Filter(materials, (m: Material) => Overall(m) >= minScore)
  }

  /** A positive threshold drops every material that has no sharpness score. */
  lemma UnscoredBelowPositiveThreshold(materials: seq<Material>, minScore: real, m: Material)
    requires minScore > 0.0 && m.sharpnessScore.None?
    ensures m !in MaterialsByMinSharpness(materials, minScore)
  {
  }

  function MaterialsByDensityRange(materials: seq<Material>, minDensity: real, maxDensity: real): (r: seq<Material>)
    ensures IsSubseq(r, materials)
    ensures forall m :: m in r <==> m in materials && minDensity <= m.density <= maxDensity
  {
    Filter(materials, (m: Material) => m.density >= minDensity && m.density <= maxDensity)
  }

  /** Ranges that share a bound: a material exactly at the bound is in both. */
  lemma DensityBoundsInclusive(materials: seq<Material>, lo: real, mid: real, hi: real, m: Material)
    requires m in materials && m.density == mid && lo <= mid <= hi
    ensures m in MaterialsByDensityRange(materials, lo, mid)
    ensures m in MaterialsByDensityRange(materials, mid, hi)
  {
  }
}
