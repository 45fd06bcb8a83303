// The item helpers of the game-data library: whether a universe allows an
// item, the item filters, an item's price, the total weight of a list of items
// and which of an item's materials can be had in a period.

module Items {
  import opened Wrappers
  import opened Text
  import opened Materials
  import opened MaterialCalculations

  datatype WeightUnit = Kg | Lb

  datatype EncumbranceLevel = Negligible | Light | Normal | Cumbersome | Heavy | VeryHeavy

  datatype AbsoluteWeight = AbsoluteWeight(value: real, unit: WeightUnit)

  datatype RelativeEncumbrance = RelativeEncumbrance(level: EncumbranceLevel, slots: Option<int>)

  /** An item is weighed either in absolute units or in encumbrance slots. */
  datatype ItemWeight = ItemWeight(absolute: Option<AbsoluteWeight>, encumbrance: Option<RelativeEncumbrance>)

  datatype ItemAvailability = ItemAvailability(universes: Option<seq<string>>, periods: Option<seq<string>>)

  datatype Item = Item(
    id: string,
    name: string,
    description: string,
    category: string,
    subcategory: Option<string>,
    rarity: string,
    availableMaterials: seq<string>,
    baseVolume: real,
    properties: seq<string>,
    weight: ItemWeight,
    basePrice: real,
    availability: Option<ItemAvailability>,
    tags: seq<string>)

  /**
   * What a universe forbids or reprices. A missing multiplier record is the
   * empty map: looking a key up in either gives nothing.
   */
  datatype UniverseRestrictions = UniverseRestrictions(
    forbiddenCategories: Option<seq<string>>,
    forbiddenProperties: Option<seq<string>>,
    forbiddenMaterials: Option<seq<string>>,
    propertyMultipliers: map<string, real>,
    materialMultipliers: map<string, real>)

  datatype Universe = Universe(
    id: string,
    name: string,
    period: string,
    genres: seq<string>,
    tags: seq<string>,
    restrictions: Option<UniverseRestrictions>)

  datatype ItemProperty = ItemProperty(id: string, name: string, priceMultiplier: Option<real>)

  datatype Rarity = Rarity(id: string, name: string, baseMultiplier: real)

  // ---------------------------------------------------------------------
  // Availability in a universe
  // ---------------------------------------------------------------------

  /** The universes an item explicitly lists, if it lists any. */
  function ListedUniverses(item: Item): Option<seq<string>> {
    if item.availability.Some? then item.availability.value.universes else None
  }

  /**
   * When a universe allows an item: it has no restrictions, or the item's
   * category is not forbidden, some material is not forbidden (if materials
   * are restricted), no property is forbidden, and the item's own universe
   * list, if any, names the universe.
   */
  predicate Available(item: Item, u: Universe) {
    match u.restrictions
    case None => true
    case Some(r) =>
      && !(r.forbiddenCategories.Some? && item.category in r.forbiddenCategories.value)
      && (r.forbiddenMaterials.Some? ==>
            exists m :: m in item.availableMaterials && m !in r.forbiddenMaterials.value)
      && (r.forbiddenProperties.Some? ==>
            forall p :: p in item.properties ==> p !in r.forbiddenProperties.value)
      && (ListedUniverses(item).Some? ==> u.id in ListedUniverses(item).value)
  }

  /** Checks the restrictions one after the other and stops at the first that fails. */
  method IsItemAvailable(item: Item, u: Universe) returns (available: bool)
    ensures available == Available(item, u)
  {
    if u.restrictions.None? {
      return true;
    }
    var r := u.restrictions.value;
    if r.forbiddenCategories.Some? && item.category in r.forbiddenCategories.value {
      return false;
    }
    if r.forbiddenMaterials.Some? {
      var hasAvailableMaterial := exists m :: m in item.availableMaterials && m !in r.forbiddenMaterials.value;
      if !hasAvailableMaterial {
        return false;
      }
    }
    if r.forbiddenProperties.Some? {
      for i := 0 to |item.properties|
        invariant forall j :: 0 <= j < i ==> item.properties[j] !in r.forbiddenProperties.value
      {
        if item.properties[i] in r.forbiddenProperties.value {
          assert !Available(item, u);
          return false;
        }
      }
    }
    if item.availability.Some? && item.availability.value.universes.Some? {
      return u.id in item.availability.value.universes.value;
    }
    return true;
  }

  /**
   * The consequences of the rules one by one: a universe without restrictions
   * takes every item, even one whose universe list leaves it out; a forbidden
   * category or property excludes; materials that are all forbidden exclude,
   * and an item with no materials at all counts as having them all forbidden.
   */
  lemma AvailabilityRules(item: Item, u: Universe)
    ensures u.restrictions.None? ==> Available(item, u)
    ensures (u.restrictions.Some? && u.restrictions.value.forbiddenCategories.Some?
             && item.category in u.restrictions.value.forbiddenCategories.value) ==> !Available(item, u)
    ensures (u.restrictions.Some? && u.restrictions.value.forbiddenProperties.Some?
             && exists p :: p in item.properties && p in u.restrictions.value.forbiddenProperties.value)
            ==> !Available(item, u)
    ensures (u.restrictions.Some? && u.restrictions.value.forbiddenMaterials.Some?
             && item.availableMaterials == []) ==> !Available(item, u)
  {
  }

  /** Once the restrictions pass, the item's own universe list decides, by universe id. */
  lemma ListedUniversesDecide(item: Item, u: Universe)
    requires u.restrictions.Some?
    requires !(u.restrictions.value.forbiddenCategories.Some?
               && item.category in u.restrictions.value.forbiddenCategories.value)
    requires u.restrictions.value.forbiddenMaterials.None?
    requires u.restrictions.value.forbiddenProperties.None?
    ensures ListedUniverses(item).Some? ==> (Available(item, u) <==> u.id in ListedUniverses(item).value)
    ensures ListedUniverses(item).None? ==> Available(item, u)
    ensures ListedUniverses(item) == Some([]) ==> !Available(item, u)
  {
  }

  function FilterItemsByUniverse(items: seq<Item>, u: Universe): (r: seq<Item>)
    ensures IsSubseq(r, items)
    ensures forall i :: i in r <==> i in items && Available(i, u)
  {
    Filter(items, (i: Item) => Available(i, u))
  }

  /** The item's own period list, when it has one, overrides its tags. */
  predicate InPeriodOf(item: Item, period: string) {
    if item.availability.Some? && item.availability.value.periods.Some?
    then period in item.availability.value.periods.value
    else period in item.tags
  }

  function FilterItemsByPeriod(items: seq<Item>, period: string): (r: seq<Item>)
    ensures IsSubseq(r, items)
    ensures forall i :: i in r <==> i in items && InPeriodOf(i, period)
  {
    Filter(items, (i: Item) => InPeriodOf(i, period))
  }

  /** A period tag does not bring back an item whose period list leaves the period out. */
  lemma PeriodListOverridesTags(items: seq<Item>, item: Item, period: string)
    requires item in items
    requires item.availability.Some? && item.availability.value.periods.Some?
    ensures item in FilterItemsByPeriod(items, period) <==> period in item.availability.value.periods.value
  {
  }

  // ---------------------------------------------------------------------
  // Price
  // ---------------------------------------------------------------------

  /**
   * The factor a property adds to the price: its own multiplier, replaced by
   * the universe's multiplier for it when that is non-zero; 1 when the
   * property is unknown or has no (or a zero) multiplier.
   */
  function PropertyFactor(propId: string, properties: map<string, ItemProperty>, u: Option<Universe>): real {
    if propId in properties && properties[propId].priceMultiplier.Some?
       && properties[propId].priceMultiplier.value != 0.0
    then
      if u.Some? && u.value.restrictions.Some?
         && propId in u.value.restrictions.value.propertyMultipliers
         && u.value.restrictions.value.propertyMultipliers[propId] != 0.0
      then u.value.restrictions.value.propertyMultipliers[propId]
      else properties[propId].priceMultiplier.value
    else 1.0
  }

  /** The product of a list of factors. */
  function Product(xs: seq<real>): real
    decreases |xs|
  {
    if xs == [] then 1.0 else Product(xs[..|xs| - 1]) * xs[|xs| - 1]
  }

  lemma {:induction false} ProductAppend(a: seq<real>, b: seq<real>)
    ensures Product(a + b) == Product(a) * Product(b)
    decreases |b|
  {
    if b == [] {
      assert a + b == a;
    } else {
      var init := b[..|b| - 1];
      assert (a + b)[..|a + b| - 1] == a + init;
      assert (a + b)[|a + b| - 1] == b[|b| - 1];
      ProductAppend(a, init);
      var x, y, z := Product(a), Product(init), b[|b| - 1];
      assert (x * y) * z == x * (y * z);
    }
  }

  /** The factor of each listed property, in order. */
  function Factors(props: seq<string>, properties: map<string, ItemProperty>, u: Option<Universe>): (r: seq<real>)
    ensures |r| == |props|
    ensures forall i :: 0 <= i < |props| ==> r[i] == PropertyFactor(props[i], properties, u)
  {
    seq(|props|, i requires 0 <= i < |props| => PropertyFactor(props[i], properties, u))
  }

  /** The product of the property factors of a list of property ids. */
  function PropertiesFactor(props: seq<string>, properties: map<string, ItemProperty>, u: Option<Universe>): real {
    Product(Factors(props, properties, u))
  }

  lemma FactorsAppend(a: seq<string>, b: seq<string>, properties: map<string, ItemProperty>, u: Option<Universe>)
    ensures Factors(a + b, properties, u) == Factors(a, properties, u) + Factors(b, properties, u)
  {
  }

  /** The product over a concatenation is the product of the products. */
  lemma PropertiesFactorAppend(a: seq<string>, b: seq<string>, properties: map<string, ItemProperty>, u: Option<Universe>)
    ensures PropertiesFactor(a + b, properties, u) == PropertiesFactor(a, properties, u) * PropertiesFactor(b, properties, u)
  {
    FactorsAppend(a, b, properties, u);
    ProductAppend(Factors(a, properties, u), Factors(b, properties, u));
  }

  /** The order in which the properties are listed does not change the price factor. */
  lemma PropertyOrderIrrelevant(a: seq<string>, b: seq<string>, properties: map<string, ItemProperty>, u: Option<Universe>)
    ensures PropertiesFactor(a + b, properties, u) == PropertiesFactor(b + a, properties, u)
  {
    PropertiesFactorAppend(a, b, properties, u);
    PropertiesFactorAppend(b, a, properties, u);
  }

  /**
   * The factor the chosen material adds: its multiplier for the period times
   * the universe's multiplier for it when present; 1 for an unknown material.
   * Only meaningful when a known material lists the period.
   */
  function MaterialFactor(materialId: string, period: string, materials: map<string, Material>, u: Option<Universe>): real {
    if materialId in materials && MultiplierFor(materials[materialId].priceMultiplier, period).Some? then
      var m := materials[materialId];
      var mult := MultiplierFor(m.priceMultiplier, period).value;
      if u.Some? && u.value.restrictions.Some? && m.id in u.value.restrictions.value.materialMultipliers
      then mult * u.value.restrictions.value.materialMultipliers[m.id]
      else mult
    else 1.0
  }

  /** The base price times the rarity and material factors. */
  function PriceBeforeProperties(item: Item, materialId: string, period: string, rarity: Rarity,
                                 materials: map<string, Material>, u: Option<Universe>): real {
    item.basePrice * rarity.baseMultiplier * MaterialFactor(materialId, period, materials, u)
  }

  /**
   * The price of an item before the final rounding: base price, times the
   * rarity multiplier, times the material factor, times every property factor.
   */
  function UnroundedPrice(item: Item, materialId: string, period: string, rarity: Rarity,
                          materials: map<string, Material>, properties: map<string, ItemProperty>,
                          u: Option<Universe>): real {
    PriceBeforeProperties(item, materialId, period, rarity, materials, u) * PropertiesFactor(item.properties, properties, u)
  }

  /**
   * The price of an item in copper pieces: the unrounded price rounded to the
   * nearest whole piece (halves upwards); the error when the chosen material
   * is known but not sold in the period.
   */
  function ItemPrice(item: Item, materialId: string, period: string, rarity: Rarity,
                     materials: map<string, Material>, properties: map<string, ItemProperty>,
                     u: Option<Universe>): (r: Result<int>)
    ensures r.Err? <==> materialId in materials && MultiplierFor(materials[materialId].priceMultiplier, period).None?
    ensures r.Err? ==> r.message == NotAvailableMessage(materials[materialId], period)
    ensures r.Ok? ==> var exact := UnroundedPrice(item, materialId, period, rarity, materials, properties, u);
                      exact - 0.5 < r.value as real <= exact + 0.5
  {
    if materialId in materials && MultiplierFor(materials[materialId].priceMultiplier, period).None? then
      Err(NotAvailableMessage(materials[materialId], period))
    else
      Ok(Round(UnroundedPrice(item, materialId, period, rarity, materials, properties, u)))
  }

  /**
   * A material id missing from the table contributes no factor and raises no
   * error: the price is the base price times the rarity and property factors,
   * rounded to the nearest whole piece.
   */
  lemma UnknownMaterialNoFactor(item: Item, materialId: string, period: string, rarity: Rarity,
                                materials: map<string, Material>, properties: map<string, ItemProperty>,
                                u: Option<Universe>)
    requires materialId !in materials
    ensures ItemPrice(item, materialId, period, rarity, materials, properties, u).Ok?
    ensures ItemPrice(item, materialId, period, rarity, materials, properties, u).value
              == Round(item.basePrice * rarity.baseMultiplier * PropertiesFactor(item.properties, properties, u))
  {
    UnknownMaterialUnrounded(item, materialId, period, rarity, materials, properties, u);
  }

  lemma UnknownMaterialUnrounded(item: Item, materialId: string, period: string, rarity: Rarity,
                                 materials: map<string, Material>, properties: map<string, ItemProperty>,
                                 u: Option<Universe>)
    requires materialId !in materials
    ensures UnroundedPrice(item, materialId, period, rarity, materials, properties, u)
              == item.basePrice * rarity.baseMultiplier * PropertiesFactor(item.properties, properties, u)
  {
    var base := item.basePrice * rarity.baseMultiplier;
    assert MaterialFactor(materialId, period, materials, u) == 1.0;
    assert PriceBeforeProperties(item, materialId, period, rarity, materials, u) == base * 1.0 == base;
  }

  /** The rounding is that of the price itself: a price of 1.5 pieces costs 2, one of 2.4 costs 2. */
  lemma {:induction false} UnknownMaterialRounds(item: Item, materialId: string, period: string, rarity: Rarity,
                                                 materials: map<string, Material>, properties: map<string, ItemProperty>)
    requires materialId !in materials
    requires item.properties == []
    requires rarity.baseMultiplier == 1.0
    ensures item.basePrice == 1.5 ==> ItemPrice(item, materialId, period, rarity, materials, properties, None) == Ok(2)
    ensures item.basePrice == 2.4 ==> ItemPrice(item, materialId, period, rarity, materials, properties, None) == Ok(2)
  {
    UnknownMaterialNoFactor(item, materialId, period, rarity, materials, properties, None);
    assert Factors([], properties, None) == [];
    assert PropertiesFactor(item.properties, properties, None) == 1.0;
    assert item.basePrice * rarity.baseMultiplier * 1.0 == item.basePrice;
  }

  /** One more property multiplies the running price by its factor. */
  lemma PropertiesFactorStep(props: seq<string>, i: int, properties: map<string, ItemProperty>,
                             u: Option<Universe>, start: real, price: real)
    requires 0 <= i < |props|
    requires price == start * PropertiesFactor(props[..i], properties, u)
    ensures price * PropertyFactor(props[i], properties, u) == start * PropertiesFactor(props[..i + 1], properties, u)
    ensures PropertyFactor(props[i], properties, u) == 1.0 ==> price == start * PropertiesFactor(props[..i + 1], properties, u)
  {
    var xs := Factors(props[..i], properties, u);
    var x := PropertyFactor(props[i], properties, u);
    assert Factors(props[..i + 1], properties, u) == xs + [x];
    assert (xs + [x])[..|xs|] == xs;
    assert (start * Product(xs)) * x == start * (Product(xs) * x);
  }

  /** The price of an item whose material raises no error is its rounded unrounded price. */
  lemma ItemPriceIs(item: Item, materialId: string, period: string, rarity: Rarity,
                    materials: map<string, Material>, properties: map<string, ItemProperty>,
                    u: Option<Universe>, price: real)
    requires !(materialId in materials && MultiplierFor(materials[materialId].priceMultiplier, period).None?)
    requires price == PriceBeforeProperties(item, materialId, period, rarity, materials, u)
                      * PropertiesFactor(item.properties, properties, u)
    ensures ItemPrice(item, materialId, period, rarity, materials, properties, u).Ok?
    ensures ItemPrice(item, materialId, period, rarity, materials, properties, u).value == Round(price)
    ensures price - 0.5 < Round(price) as real <= price + 0.5
  {
  }

  /** Multiplies the price step by step, as the library does, stops at the period error and rounds the result. */
  method CalculateItemPrice(item: Item, materialId: string, period: string, rarity: Rarity,
                            materials: map<string, Material>, properties: map<string, ItemProperty>,
                            u: Option<Universe>) returns (r: Result<int>)
    ensures r == ItemPrice(item, materialId, period, rarity, materials, properties, u)
  {
    var price := item.basePrice;
    price := price * rarity.baseMultiplier;
    if materialId in materials {
      var material := materials[materialId];
      var found := MultiplierFor(material.priceMultiplier, period);
      if found.None? {
        return Err(NotAvailableMessage(material, period));
      }
      var materialMultiplier := found.value;
      if u.Some? && u.value.restrictions.Some? && material.id in u.value.restrictions.value.materialMultipliers {
        materialMultiplier := materialMultiplier * u.value.restrictions.value.materialMultipliers[material.id];
      }
      price := price * materialMultiplier;
    }
    assert price == PriceBeforeProperties(item, materialId, period, rarity, materials, u);
    price := ApplyPropertyMultipliers(price, item.properties, properties, u);
    ItemPriceIs(item, materialId, period, rarity, materials, properties, u, price);
    r := Ok(Round(price));
  }

  /** Multiplies a price by the factor of each property in turn. */
  method ApplyPropertyMultipliers(start: real, props: seq<string>, properties: map<string, ItemProperty>,
                                  u: Option<Universe>) returns (price: real)
    ensures price == start * PropertiesFactor(props, properties, u)
  {
    price := start;
    assert start * PropertiesFactor(props[..0], properties, u) == start * 1.0;
    for i := 0 to |props|
      invariant price == start * PropertiesFactor(props[..i], properties, u)
    {
      var propId := props[i];
      PropertiesFactorStep(props, i, properties, u, start, price);
      if propId in properties && properties[propId].priceMultiplier.Some?
         && properties[propId].priceMultiplier.value != 0.0 {
        var propMultiplier := properties[propId].priceMultiplier.value;
        if u.Some? && u.value.restrictions.Some? && propId in u.value.restrictions.value.propertyMultipliers
           && u.value.restrictions.value.propertyMultipliers[propId] != 0.0 {
          propMultiplier := u.value.restrictions.value.propertyMultipliers[propId];
        }
        assert propMultiplier == PropertyFactor(propId, properties, u);
        price := price * propMultiplier;
      }
    }
    assert props[..|props|] == props;
  }

  // ---------------------------------------------------------------------
  // Total weight
  // ---------------------------------------------------------------------

  /** Kilograms per pound. */
  const KgPerLb: real := 0.453592

  function KgOf(item: Item): real {
    match item.weight.absolute
    case None => 0.0
    case Some(w) => if w.unit == Lb then w.value * KgPerLb else w.value
  }

  /** The summed absolute weight, in kg, of the items that have one. */
  function TotalKg(items: seq<Item>): real
    decreases |items|
  {
    if items == [] then 0.0 else TotalKg(items[..|items| - 1]) + KgOf(items[|items| - 1])
  }

  function SlotsOf(item: Item): int {
    if item.weight.encumbrance.Some? then item.weight.encumbrance.value.slots.GetOr(0) else 0
  }

  /** The summed encumbrance slots of the items that have them. */
  function TotalSlots(items: seq<Item>): int
    decreases |items|
  {
    if items == [] then 0 else TotalSlots(items[..|items| - 1]) + SlotsOf(items[|items| - 1])
  }

  lemma {:induction false} TotalSlotsAppend(a: seq<Item>, b: seq<Item>)
    ensures TotalSlots(a + b) == TotalSlots(a) + TotalSlots(b)
    decreases |b|
  {
    if b != [] {
      var init := b[..|b| - 1];
      assert (a + b)[..|a + b| - 1] == a + init;
      assert (a + b)[|a + b| - 1] == b[|b| - 1];
      TotalSlotsAppend(a, init);
    } else {
      assert a + b == a;
    }
  }

  /** The rank of a level, lightest first. */
  function Rank(level: EncumbranceLevel): nat {
    match level
    case Negligible => 0
    case Light => 1
    case Normal => 2
    case Cumbersome => 3
    case Heavy => 4
    case VeryHeavy => 5
  }

  /** The encumbrance level of a number of slots: 0, up to 3, 6, 10, 15, and above. */
  function LevelFromSlots(slots: int): (r: EncumbranceLevel)
    ensures r == Negligible <==> slots == 0
    ensures r == Light <==> slots != 0 && slots <= 3
    ensures r == Normal <==> 3 < slots <= 6
    ensures r == Cumbersome <==> 6 < slots <= 10
    ensures r == Heavy <==> 10 < slots <= 15
    ensures r == VeryHeavy <==> slots > 15
  {
    if slots == 0 then Negligible
    else if slots <= 3 then Light
    else if slots <= 6 then Normal
    else if slots <= 10 then Cumbersome
    else if slots <= 15 then Heavy
    else VeryHeavy
  }

  /** More slots never give a lighter level, among non-negative counts. */
  lemma LevelMonotone(a: int, b: int)
    requires 0 <= a <= b
    ensures Rank(LevelFromSlots(a)) <= Rank(LevelFromSlots(b))
  {
  }

  /** Adding an item with non-negative slots never lowers the level of a list. */
  lemma AddingItemNeverLightens(items: seq<Item>, extra: Item)
    requires TotalSlots(items) >= 0 && SlotsOf(extra) >= 0
    ensures Rank(LevelFromSlots(TotalSlots(items))) <= Rank(LevelFromSlots(TotalSlots(items + [extra])))
  {
    TotalSlotsAppend(items, [extra]);
    assert [extra][..0] == [];
    LevelMonotone(TotalSlots(items), TotalSlots(items + [extra]));
  }

  const ZeroWeight: ItemWeight := ItemWeight(Some(AbsoluteWeight(0.0, Kg)), None)

  /** A weight in kg rounded to two decimals. */
  function RoundToCents(x: real): (r: real)
    ensures x - 0.005 < r <= x + 0.005
  {
    var n := Round(x * 100.0);
    assert x * 100.0 - 0.5 < n as real <= x * 100.0 + 0.5;
    (n as real) / 100.0
  }

  /**
   * The total weight of a list of items, in the weight system of the first
   * item: summed kg (rounded to two decimals) or summed slots with their level.
   */
  method CalculateTotalWeight(items: seq<Item>) returns (w: ItemWeight)
    ensures items == [] ==> w == ZeroWeight
    ensures items != [] && items[0].weight.absolute.Some? ==>
              w == ItemWeight(Some(AbsoluteWeight(RoundToCents(TotalKg(items)), Kg)), None)
    ensures items != [] && items[0].weight.absolute.None? && items[0].weight.encumbrance.Some? ==>
              w == ItemWeight(None, Some(RelativeEncumbrance(LevelFromSlots(TotalSlots(items)),
                                                             Some(TotalSlots(items)))))
    ensures items != [] && items[0].weight.absolute.None? && items[0].weight.encumbrance.None? ==>
              w == ZeroWeight
  {
    if |items| == 0 {
      return ZeroWeight;
    }
    var first := items[0];
    var usesAbsolute := first.weight.absolute.Some?;
    var usesEncumbrance := first.weight.encumbrance.Some?;
    if usesAbsolute {
      var totalKg := 0.0;
      for i := 0 to |items|
        invariant totalKg == TotalKg(items[..i])
      {
        assert items[..i + 1][..i] == items[..i];
        var item := items[i];
        if item.weight.absolute.Some? {
          var weight := item.weight.absolute.value;
          if weight.unit == Lb {
            totalKg := totalKg + weight.value * KgPerLb;
          } else {
            totalKg := totalKg + weight.value;
          }
        }
      }
      assert items[..|items|] == items;
      return ItemWeight(Some(AbsoluteWeight(RoundToCents(totalKg), Kg)), None);
    }
    if usesEncumbrance {
      var totalSlots := 0;
      for i := 0 to |items|
        invariant totalSlots == TotalSlots(items[..i])
      {
        assert items[..i + 1][..i] == items[..i];
        var item := items[i];
        if item.weight.encumbrance.Some? && item.weight.encumbrance.value.slots.Some?
           && item.weight.encumbrance.value.slots.value != 0 {
          totalSlots := totalSlots + item.weight.encumbrance.value.slots.value;
        }
      }
      assert items[..|items|] == items;
      return ItemWeight(None, Some(RelativeEncumbrance(LevelFromSlots(totalSlots), Some(totalSlots))));
    }
    return ZeroWeight;
  }

  // ---------------------------------------------------------------------
  // Materials of an item in a period
  // ---------------------------------------------------------------------

  /** The material is in the table and has a multiplier for the period. */
  predicate SoldInPeriod(materialId: string, period: string, materials: map<string, Material>) {
    materialId in materials && MultiplierFor(materials[materialId].priceMultiplier, period).Some?
  }

  /** The item's materials, in its own order, that can be bought in the period. */
  function AvailableMaterialsForPeriod(item: Item, period: string, materials: map<string, Material>): (r: seq<string>)
    ensures IsSubseq(r, item.availableMaterials)
    ensures forall id :: id in r <==> id in item.availableMaterials && SoldInPeriod(id, period, materials)
  {
    Filter(item.availableMaterials, (id: string) => SoldInPeriod(id, period, materials))
  }

  function CanItemBeCraftedInPeriod(item: Item, period: string, materials: map<string, Material>): (r: bool)
    ensures r <==> exists id :: id in item.availableMaterials && SoldInPeriod(id, period, materials)
  {
    var available := AvailableMaterialsForPeriod(item, period, materials);
    if |available| > 0 then
      assert available[0] in available;
      true
    else
      assert forall id :: id !in available;
      false
  }

  function IsItemMaterialAvailableInPeriod(item: Item, materialId: string, period: string,
                                           materials: map<string, Material>): (r: bool)
    ensures r <==> materialId in AvailableMaterialsForPeriod(item, period, materials)
  {
    if materialId !in item.availableMaterials then false
    else materialId in materials && MultiplierFor(materials[materialId].priceMultiplier, period).Some?
  }

  /** An item can be crafted in a period iff one of its materials is available for it then. */
  lemma CraftableIffSomeMaterialAvailable(item: Item, period: string, materials: map<string, Material>)
    ensures CanItemBeCraftedInPeriod(item, period, materials)
            <==> exists id :: IsItemMaterialAvailableInPeriod(item, id, period, materials)
  {
    if CanItemBeCraftedInPeriod(item, period, materials) {
      var id :| id in item.availableMaterials && SoldInPeriod(id, period, materials);
      assert IsItemMaterialAvailableInPeriod(item, id, period, materials);
    }
  }
}
