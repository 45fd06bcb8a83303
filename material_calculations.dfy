// The formulas of the game-data library that derive an item's weight,
// durability, price and comparison scores from its material. Numbers are
// modelled as reals; a division by zero, which yields a non-finite number in
// the library, is modelled as None.

module MaterialCalculations {
  import opened Wrappers
  import opened Text
  import opened Materials

  /** Weight in kg: volume in dm3 times density times the material's weight factor. */
  function CalculateWeight(baseVolume: real, m: Material): (r: real)
    ensures baseVolume == 0.0 ==> r == 0.0
    ensures baseVolume >= 0.0 && m.density >= 0.0 && m.weightFactor >= 0.0 ==> r >= 0.0
  {
    var vd := baseVolume * m.density;
    assert baseVolume >= 0.0 && m.density >= 0.0 ==> vd >= 0.0;
    vd * m.weightFactor
  }

  /** Two pieces of the same material weigh what the combined volume weighs. */
  lemma WeightIsAdditive(a: real, b: real, m: Material)
    ensures CalculateWeight(a + b, m) == CalculateWeight(a, m) + CalculateWeight(b, m)
  {
    assert (a + b) * m.density == a * m.density + b * m.density;
    assert (a * m.density + b * m.density) * m.weightFactor
        == a * m.density * m.weightFactor + b * m.density * m.weightFactor;
  }

  function CalculateDurability(baseDurability: real, m: Material): (r: real)
    ensures m.durabilityFactor == 1.0 ==> r == baseDurability
    ensures baseDurability >= 0.0 && m.durabilityFactor >= 0.0 ==> r >= 0.0
  {
    baseDurability * m.durabilityFactor
  }

  function CalculateEffectiveness(baseEffectiveness: real, m: Material): (r: real)
    ensures m.effectivenessFactor == 1.0 ==> r == baseEffectiveness
    ensures baseEffectiveness >= 0.0 && m.effectivenessFactor >= 0.0 ==> r >= 0.0
  {
    baseEffectiveness * m.effectivenessFactor
  }

  function NotAvailableMessage(m: Material, period: string): string {
    "Material " + m.name + " is not available in period " + period
  }

  /**
   * An item's price in a period: the base price times the period multiplier,
   * plus the material's cost (0 when missing) times the complexity multiplier.
   */
  function CalculatePrice(basePrice: real, m: Material, period: string, complexity: real): (r: Result<real>)
    ensures r.Err? <==> !InPeriod(m, period)
    ensures r.Err? ==> r.message == NotAvailableMessage(m, period)
    ensures r.Ok? ==> exists i :: 0 <= i < |m.priceMultiplier| && m.priceMultiplier[i].period == period
                        && r.value == basePrice * m.priceMultiplier[i].multiplier
                                      + (m.cost.GetOr(0) as real) * complexity
  {
    var materialCost := m.cost.GetOr(0) as real;
    match MultiplierFor(m.priceMultiplier, period)
    case None => Err(NotAvailableMessage(m, period))
    case Some(mult) => Ok(basePrice * mult + materialCost * complexity)
  }

  const DefaultComplexity: real := 1.0

  function CalculatePriceDefault(basePrice: real, m: Material, period: string): (r: Result<real>)
    ensures r.Ok? <==> InPeriod(m, period)
    ensures r.Ok? ==> r.value == basePrice * MultiplierFor(m.priceMultiplier, period).value
                                 + m.cost.GetOr(0) as real
  {
    CalculatePrice(basePrice, m, period, DefaultComplexity)
  }

  /**
   * The item price fails exactly when the material price fails, and on success
   * it is the material price (with the item's base price as base cost) plus
   * the material cost scaled by complexity.
   */
  lemma ItemPriceExtendsMaterialPrice(basePrice: real, m: Material, period: string, complexity: real)
    ensures CalculatePrice(basePrice, m, period, complexity).Ok? == MaterialPrice(m, period, basePrice).Ok?
    ensures CalculatePrice(basePrice, m, period, complexity).Ok? ==>
              CalculatePrice(basePrice, m, period, complexity).value
                == MaterialPrice(m, period, basePrice).value + (m.cost.GetOr(0) as real) * complexity
  {
    var found := MultiplierFor(m.priceMultiplier, period);
    if found.Some? {
      assert CalculatePrice(basePrice, m, period, complexity).value
               == basePrice * found.value + (m.cost.GetOr(0) as real) * complexity;
      assert MaterialPrice(m, period, basePrice).value == basePrice * found.value;
    }
  }

  /** Hardness brought to a 0-10 scale, by the scale it was measured on. */
  function NormalizeHardness(m: Material): (r: real)
    ensures m.hardness.kind == Mohs ==> r == m.hardness.value
    ensures m.hardness.kind == Hrc ==> r * 70.0 == m.hardness.value * 10.0
    ensures m.hardness.kind == Hv ==> r * 1000.0 == m.hardness.value * 10.0
  {
    match m.hardness.kind
    case Mohs => m.hardness.value
    case Hrc => (m.hardness.value / 70.0) * 10.0
    case Hv => (m.hardness.value / 1000.0) * 10.0
  }

  /** Each scale's documented range lands in [0, 10]. */
  lemma NormalizedHardnessInRange(m: Material)
    requires m.hardness.kind == Mohs ==> 0.0 <= m.hardness.value <= 10.0
    requires m.hardness.kind == Hrc ==> 0.0 <= m.hardness.value <= 70.0
    requires m.hardness.kind == Hv ==> 0.0 <= m.hardness.value <= 1000.0
    ensures 0.0 <= NormalizeHardness(m) <= 10.0
  {
    var r := NormalizeHardness(m);
    match m.hardness.kind
    case Mohs =>
    case Hrc =>
      assert r * 70.0 == m.hardness.value * 10.0;
      assert r * 70.0 <= 700.0;
    case Hv =>
      assert r * 1000.0 == m.hardness.value * 10.0;
      assert r * 1000.0 <= 10000.0;
  }

  function Min(a: real, b: real): real {
    if a <= b then a else b
  }

  function Max(a: real, b: real): real {
    if a >= b then a else b
  }

  /** The unclamped score: 40% hardness, 40% edge geometry, 20% toughness. */
  function RawSharpness(m: Material, s: SharpnessScore): real {
    var edge := if s.edgeGeometry.Some? then s.edgeGeometry.value.score else 0.0;
    var toughness := s.toughness.GetOr(0.0);
    NormalizeHardness(m) * 0.4 + edge * 10.0 * 0.4 + toughness * 10.0 * 0.2
  }

  /** The sharpness score, clamped to [0, 10]; 0 for a material without sharpness data. */
  function CalculateSharpnessScore(m: Material): (r: real)
    ensures 0.0 <= r <= 10.0
    ensures m.sharpnessScore.None? ==> r == 0.0
    ensures m.sharpnessScore.Some? && 0.0 <= RawSharpness(m, m.sharpnessScore.value) <= 10.0 ==>
              r == RawSharpness(m, m.sharpnessScore.value)
    ensures m.sharpnessScore.Some? && RawSharpness(m, m.sharpnessScore.value) > 10.0 ==> r == 10.0
    ensures m.sharpnessScore.Some? && RawSharpness(m, m.sharpnessScore.value) < 0.0 ==> r == 0.0
  {
    if m.sharpnessScore.None? then 0.0
    else Min(10.0, Max(0.0, RawSharpness(m, m.sharpnessScore.value)))
  }

  /** Tensile strength per unit of density; None where the density is 0. */
  function StrengthToWeight(m: Material): (r: Option<real>)
    ensures r.None? <==> m.density == 0.0
    ensures r.Some? ==> r.value * m.density == m.tensileStrength
  {
    if m.density == 0.0 then None else Some(m.tensileStrength / m.density)
  }

  /** A material's weapon score: 50% sharpness, 30% hardness, 20% effectiveness. */
  function WeaponScore(m: Material): real {
    Overall(m) * 0.5 + NormalizeHardness(m) * 0.3 + m.effectivenessFactor * 10.0 * 0.2
  }

  /** Positive when `a` makes the better blade, negative when `b` does. */
  function CompareForWeapons(a: Material, b: Material): (r: real)
    ensures r > 0.0 <==> WeaponScore(a) > WeaponScore(b)
    ensures r == 0.0 <==> WeaponScore(a) == WeaponScore(b)
  {
    WeaponScore(a) - WeaponScore(b)
  }

  lemma WeaponComparatorAntisymmetric(a: Material, b: Material, c: Material)
    ensures CompareForWeapons(a, b) == -CompareForWeapons(b, a)
    ensures CompareForWeapons(a, a) == 0.0
    ensures CompareForWeapons(a, b) >= 0.0 && CompareForWeapons(b, c) >= 0.0 ==> CompareForWeapons(a, c) >= 0.0
  {
  }

  /**
   * A material's armor score: 40% hardness, 40% durability, 20% lightness
   * (the inverse of the weight factor); None where the weight factor is 0.
   */
  function ArmorScore(m: Material): (r: Option<real>)
    ensures r.None? <==> m.weightFactor == 0.0
    ensures r.Some? ==> r.value == NormalizeHardness(m) * 0.4 + m.durabilityFactor * 10.0 * 0.4
                                   + (1.0 / m.weightFactor) * 10.0 * 0.2
  {
    if m.weightFactor == 0.0 then None
    else Some(NormalizeHardness(m) * 0.4 + m.durabilityFactor * 10.0 * 0.4 + (1.0 / m.weightFactor) * 10.0 * 0.2)
  }

  function CompareForArmor(a: Material, b: Material): (r: Option<real>)
    ensures r.Some? <==> a.weightFactor != 0.0 && b.weightFactor != 0.0
    ensures r.Some? ==> (r.value > 0.0 <==> ArmorScore(a).value > ArmorScore(b).value)
  {
    match (ArmorScore(a), ArmorScore(b))
    case (Some(sa), Some(sb)) => Some(sa - sb)
    case _ => None
  }

  /** With non-zero weight factors the armor comparator is antisymmetric. */
  lemma ArmorComparatorAntisymmetric(a: Material, b: Material)
    requires a.weightFactor != 0.0 && b.weightFactor != 0.0
    ensures CompareForArmor(a, b).value == -CompareForArmor(b, a).value
    ensures CompareForArmor(a, a) == Some(0.0)
  {
  }

  /** A lighter material of equal hardness and durability is the better armor. */
  lemma LighterArmorWins(a: Material, b: Material)
    requires 0.0 < a.weightFactor < b.weightFactor
    requires NormalizeHardness(a) == NormalizeHardness(b) && a.durabilityFactor == b.durabilityFactor
    ensures CompareForArmor(a, b).value > 0.0
  {
    assert 1.0 / b.weightFactor < 1.0 / a.weightFactor by {
      assert (1.0 / b.weightFactor) * b.weightFactor == 1.0;
      assert (1.0 / a.weightFactor) * a.weightFactor == 1.0;
    }
  }

  /**
   * The forge temperature of a metal: 65% of its melting point, rounded;
   * None for a non-metal or a missing or zero melting point.
   */
  function RequiredForgingTemperature(m: Material): (r: Option<int>)
    ensures r.None? <==> m.category != Metal || m.thermal.None? || m.thermal.value.meltingPoint.None?
                         || m.thermal.value.meltingPoint.value == 0.0
    ensures r.Some? ==> m.thermal.value.meltingPoint.value * 0.65 - 0.5 < r.value as real
                        <= m.thermal.value.meltingPoint.value * 0.65 + 0.5
  {
    if m.category != Metal then None
    else if m.thermal.None? || m.thermal.value.meltingPoint.None? || m.thermal.value.meltingPoint.value == 0.0 then None
    else Some(Round(m.thermal.value.meltingPoint.value * 0.65))
  }

  /** Only steels can be quenched. */
  function CanBeQuenched(m: Material): (r: bool)
    ensures r <==> m.category == Metal && (m.id == "steel" || m.id == "stainless_steel")
  {
    m.category == Metal && (m.id == "steel" || m.id == "stainless_steel")
  }

  /**
   * Quenching is decided by category and id alone: two materials that agree
   * on both agree on quenching, whatever their thermal or mechanical data.
   */
  lemma QuenchingIgnoresData(a: Material, b: Material)
    requires a.category == b.category && a.id == b.id
    ensures CanBeQuenched(a) == CanBeQuenched(b)
  {
  }

  /**
   * The library's cases: the two steels can be quenched; iron and aluminium,
   * though metals, cannot; nor can wood or any other non-metal.
   */
  lemma QuenchingCases(m: Material)
    ensures m.category == Metal && m.id == "steel" ==> CanBeQuenched(m)
    ensures m.category == Metal && m.id == "stainless_steel" ==> CanBeQuenched(m)
    ensures m.id == "iron" || m.id == "aluminum" || m.id == "wood" ==> !CanBeQuenched(m)
    ensures m.category != Metal ==> !CanBeQuenched(m)
  {
  }

  /**
   * A material that can be quenched can also be forged: with a known,
   * non-zero melting point it has a forge temperature, and a material with
   * no forge temperature for want of being a metal cannot be quenched.
   */
  lemma QuenchableIsForgeable(m: Material)
    ensures (CanBeQuenched(m) && m.thermal.Some? && m.thermal.value.meltingPoint.Some?
             && m.thermal.value.meltingPoint.value != 0.0) ==> RequiredForgingTemperature(m).Some?
    ensures m.category != Metal ==> RequiredForgingTemperature(m).None? && !CanBeQuenched(m)
  {
  }

  /** A melting point of 1500 gives a forge temperature of 975, 65% of it. */
  lemma ForgingTemperatureExample(m: Material)
    requires m.category == Metal && m.thermal.Some? && m.thermal.value.meltingPoint == Some(1500.0)
    ensures RequiredForgingTemperature(m) == Some(975)
  {
    assert 1500.0 * 0.65 == 975.0;
    assert Round(975.0) == 975;
  }

  /** The highest thermal conductivity on the scale, in W/(m K). */
  const MaxConductivity: real := 5000.0

  /** Thermal conductivity on a scale capped at 1; 0 without thermal data. */
  function NormalizeThermalConductivity(m: Material): (r: real)
    ensures r <= 1.0
    ensures m.thermal.None? ==> r == 0.0
    ensures m.thermal.Some? && 0.0 <= m.thermal.value.thermalConductivity ==> r >= 0.0
    ensures m.thermal.Some? && m.thermal.value.thermalConductivity >= MaxConductivity ==> r == 1.0
  {
    var conductivity := if m.thermal.Some? then m.thermal.value.thermalConductivity else 0.0;
    Min(1.0, conductivity / MaxConductivity)
  }
}
