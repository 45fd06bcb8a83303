/**
 * Currency systems of the game-data library
 * (legacy/static-data/src/lib/currencies): a system is the sequence of its
 * currencies in declaration order; a hierarchical system gives some of
 * them a `baseValue`, the number of base units one coin is worth. Amounts
 * and base values are integers.
 */
module Currencies {
  import opened Wrappers
  import opened Text

  datatype CurrencyType = Coin | Electronic | Corporate | Barter

  datatype Currency = Currency(id: string, name: string, symbol: Option<string>, kind: CurrencyType, baseValue: Option<int>)

  /** One entry of a formatted amount. */
  datatype Formatted = Formatted(currency: Currency, amount: int)

  const NonHierarchicalMessage := "Cannot format non-hierarchical currency system"
  const DefaultUnitName := "unit\U{E9}s"

  /** `c.baseValue || 0`. */
  function Base(c: Currency): int {
    if c.baseValue.Some? then c.baseValue.value else 0
  }

  /** `isHierarchical`: some currency has a base value. */
  predicate IsHierarchical(currencies: seq<Currency>) {
    exists c :: c in currencies && c.baseValue.Some?
  }

  function HasBase(c: Currency): bool {
    c.baseValue.Some?
  }

  function Descending(c: Currency): int {
    -Base(c)
  }

  /** `getCurrencyHierarchy`: the currencies with a base value, highest value first. */
  function Hierarchy(currencies: seq<Currency>): (h: seq<Currency>)
    ensures forall c :: c in h <==> c in currencies && c.baseValue.Some?
    ensures multiset(h) == multiset(Filter(currencies, HasBase))
    ensures forall i, j :: 0 <= i < j < |h| ==> Base(h[i]) >= Base(h[j])
  {
    var withBase := Filter(currencies, HasBase);
    var h := SortByKey(withBase, Descending);
    SameMembers(withBase, h);
    h
  }

  lemma HierarchicalIffHierarchy(currencies: seq<Currency>)
    ensures IsHierarchical(currencies) <==> Hierarchy(currencies) != []
    ensures !IsHierarchical([])
  {
    if IsHierarchical(currencies) {
      var c :| c in currencies && c.baseValue.Some?;
      assert c in Hierarchy(currencies);
    }
    if Hierarchy(currencies) != [] {
      assert Hierarchy(currencies)[0] in Hierarchy(currencies);
    }
  }

  // ---------------------------------------------------------------------
  // formatCurrency
  // ---------------------------------------------------------------------

  /** `Math.floor(a / b)` for a non-zero integer divisor. */
  function FloorDiv(a: int, b: int): (q: int)
    requires b != 0
    ensures b > 0 ==> q * b <= a < q * b + b
  {
    if b > 0 then a / b else (-a) / (-b)
  }

  /**
   * The greedy loop of `formatCurrency` from `remaining` on: each currency
   * with a non-zero base value takes as many coins as fit, and is listed
   * when it takes at least one.
   */
  function Decompose(h: seq<Currency>, remaining: int): seq<Formatted>
    decreases |h|
  {
    if h == [] then []
    else if Base(h[0]) == 0 then Decompose(h[1..], remaining)
    else
      var amount := FloorDiv(remaining, Base(h[0]));
      if amount > 0 then [Formatted(h[0], amount)] + Decompose(h[1..], remaining - amount * Base(h[0]))
      else Decompose(h[1..], remaining)
  }

  /** The value of a decomposition in base units. */
  function Worth(r: seq<Formatted>): int
    decreases |r|
  {
    if r == [] then 0 else r[0].amount * Base(r[0].currency) + Worth(r[1..])
  }

  predicate NonNegativeBases(h: seq<Currency>) {
    forall c :: c in h ==> Base(c) >= 0
  }

  predicate StrictlyDescending(r: seq<Formatted>) {
    forall i, j :: 0 <= i < j < |r| ==> Base(r[i].currency) > Base(r[j].currency)
  }

  lemma {:induction false} DecomposeNothing(h: seq<Currency>)
    requires NonNegativeBases(h)
    ensures Decompose(h, 0) == []
    decreases |h|
  {
    if h != [] {
      DecomposeNothing(h[1..]);
    }
  }

  /** One round of the greedy loop: the coins taken fit, and what is left is less than one coin. */
  lemma GreedyStep(remaining: int, b: int)
    requires remaining >= 0 && b > 0
    ensures var amount := FloorDiv(remaining, b);
            amount >= 0 && 0 <= remaining - amount * b < b &&
            (amount > 0 ==> b <= amount * b <= remaining) &&
            (amount == 0 ==> remaining < b) &&
            (b == 1 ==> remaining - amount * b == 0)
  {
    var amount := FloorDiv(remaining, b);
    assert amount == remaining / b;
    assert amount >= 0;
    ProductNonNegative(amount, b);
    if amount > 0 {
      ProductNonNegative(amount - 1, b);
      assert amount * b == (amount - 1) * b + b;
    }
  }

  lemma ProductNonNegative(x: int, y: int)
    requires x >= 0 && y >= 0
    ensures x * y >= 0
  {
  }

  /** Every entry has a positive amount and a currency of `h` whose base value is between 1 and `bound`. */
  predicate EntriesFit(r: seq<Formatted>, h: seq<Currency>, bound: int) {
    forall i :: 0 <= i < |r| ==> r[i].amount > 0 && 0 < Base(r[i].currency) <= bound && r[i].currency in h
  }

  /** With non-negative base values and a non-negative amount, the entries fit the amount. */
  lemma {:induction false} DecomposeEntries(h: seq<Currency>, remaining: int)
    requires NonNegativeBases(h) && remaining >= 0
    ensures EntriesFit(Decompose(h, remaining), h, remaining)
    decreases |h|
  {
    if h != [] {
      var b := Base(h[0]);
      assert forall x :: x in h[1..] ==> x in h;
      if b == 0 {
        DecomposeEntries(h[1..], remaining);
      } else {
        var amount := FloorDiv(remaining, b);
        var left := remaining - amount * b;
        GreedyStep(remaining, b);
        if amount > 0 {
          DecomposeEntries(h[1..], left);
          var rest := Decompose(h[1..], left);
          var r := [Formatted(h[0], amount)] + rest;
          assert Decompose(h, remaining) == r;
          forall i | 1 <= i < |r|
            ensures r[i].amount > 0 && 0 < Base(r[i].currency) <= remaining && r[i].currency in h
          {
            assert r[i] == rest[i - 1];
          }
        } else {
          DecomposeEntries(h[1..], remaining);
        }
      }
    }
  }

  /** The entries' base values strictly decrease: after a coin is taken, less than one such coin is left. */
  lemma {:induction false} DecomposeDescending(h: seq<Currency>, remaining: int)
    requires NonNegativeBases(h) && remaining >= 0
    ensures StrictlyDescending(Decompose(h, remaining))
    decreases |h|
  {
    if h != [] && Base(h[0]) != 0 {
      var b := Base(h[0]);
      var amount := FloorDiv(remaining, b);
      var left := remaining - amount * b;
      GreedyStep(remaining, b);
      DecomposeDescending(h[1..], left);
      DecomposeDescending(h[1..], remaining);
      if amount > 0 {
        var rest := Decompose(h[1..], left);
        DecomposeEntries(h[1..], left);
        var r := [Formatted(h[0], amount)] + rest;
        assert Decompose(h, remaining) == r;
        forall i, j | 0 <= i < j < |r|
          ensures Base(r[i].currency) > Base(r[j].currency)
        {
          assert r[j] == rest[j - 1];
          if i > 0 {
            assert r[i] == rest[i - 1];
          }
        }
      }
    } else if h != [] {
      DecomposeDescending(h[1..], remaining);
    }
  }

  /**
   * The entries are worth no more than the amount, and exactly the amount
   * when the hierarchy has a unit of value 1.
   */
  lemma {:induction false} DecomposeWorth(h: seq<Currency>, remaining: int)
    requires NonNegativeBases(h) && remaining >= 0
    ensures 0 <= Worth(Decompose(h, remaining)) <= remaining
    ensures (exists c :: c in h && Base(c) == 1) ==> Worth(Decompose(h, remaining)) == remaining
    decreases |h|
  {
    if h == [] {
    } else if Base(h[0]) == 0 {
      DecomposeWorth(h[1..], remaining);
      if exists c :: c in h && Base(c) == 1 {
        var c :| c in h && Base(c) == 1;
        assert c in h[1..];
      }
    } else {
      var b := Base(h[0]);
      var amount := FloorDiv(remaining, b);
      var left := remaining - amount * b;
      GreedyStep(remaining, b);
      if amount > 0 {
        DecomposeWorth(h[1..], left);
        var r := [Formatted(h[0], amount)] + Decompose(h[1..], left);
        assert r[1..] == Decompose(h[1..], left);
        if b == 1 {
          DecomposeNothing(h[1..]);
        } else if exists c :: c in h && Base(c) == 1 {
          var c :| c in h && Base(c) == 1;
          assert c in h[1..];
        }
      } else {
        DecomposeWorth(h[1..], remaining);
        if b == 1 {
          DecomposeNothing(h[1..]);
        } else if exists c :: c in h && Base(c) == 1 {
          var c :| c in h && Base(c) == 1;
          assert c in h[1..];
        }
      }
    }
  }

  /** `Decompose` from position `i` of the hierarchy, one round unfolded. */
  lemma DecomposeFrom(h: seq<Currency>, i: int, remaining: int)
    requires 0 <= i < |h|
    ensures Decompose(h[i..], remaining) ==
            if Base(h[i]) == 0 then Decompose(h[i + 1..], remaining)
            else if FloorDiv(remaining, Base(h[i])) > 0 then
              [Formatted(h[i], FloorDiv(remaining, Base(h[i])))] +
              Decompose(h[i + 1..], remaining - FloorDiv(remaining, Base(h[i])) * Base(h[i]))
            else Decompose(h[i + 1..], remaining)
  {
    assert h[i..][0] == h[i] && h[i..][1..] == h[i + 1..];
  }

  /** The loop of `formatCurrency` over a hierarchy. */
  method Greedy(hierarchy: seq<Currency>, value: int) returns (result: seq<Formatted>)
    ensures result == Decompose(hierarchy, value)
  {
    result := [];
    var remaining := value;
    for i := 0 to |hierarchy|
      invariant result + Decompose(hierarchy[i..], remaining) == Decompose(hierarchy, value)
    {
      var currency := hierarchy[i];
      DecomposeFrom(hierarchy, i, remaining);
      if Base(currency) == 0 {
        continue;
      }
      var amount := FloorDiv(remaining, Base(currency));
      if amount > 0 {
        var entry := Formatted(currency, amount);
        assert result + ([entry] + Decompose(hierarchy[i + 1..], remaining - amount * Base(currency))) ==
               (result + [entry]) + Decompose(hierarchy[i + 1..], remaining - amount * Base(currency));
        result := result + [entry];
        remaining := remaining - amount * Base(currency);
      }
    }
    assert hierarchy[|hierarchy|..] == [];
  }

  /** `formatCurrency`: the greedy decomposition over the hierarchy, or the error of a non-hierarchical system. */
  method FormatCurrency(value: int, currencies: seq<Currency>) returns (r: Result<seq<Formatted>>)
    ensures !IsHierarchical(currencies) <==> r == Err(NonHierarchicalMessage)
    ensures IsHierarchical(currencies) ==> r == Ok(Decompose(Hierarchy(currencies), value))
  {
    if !IsHierarchical(currencies) {
      return Err(NonHierarchicalMessage);
    }
    var result := Greedy(Hierarchy(currencies), value);
    return Ok(result);
  }

  /** The function `formatCurrency` computes, for use by the formatters. */
  function FormatCurrencySpec(value: int, currencies: seq<Currency>): Result<seq<Formatted>> {
    if IsHierarchical(currencies) then Ok(Decompose(Hierarchy(currencies), value)) else Err(NonHierarchicalMessage)
  }

  /**
   * In a system whose base values are non-negative and that has a unit of
   * value 1, a non-negative value is decomposed into coins worth exactly
   * that value, highest denomination first.
   */
  lemma FormatCurrencyExact(value: int, currencies: seq<Currency>, unit: Currency)
    requires NonNegativeBases(currencies) && value >= 0
    requires unit in currencies && unit.baseValue == Some(1)
    ensures FormatCurrencySpec(value, currencies).Ok?
    ensures var r := FormatCurrencySpec(value, currencies).value;
            Worth(r) == value && StrictlyDescending(r) &&
            forall i :: 0 <= i < |r| ==> r[i].amount > 0
  {
    var h := Hierarchy(currencies);
    assert unit in h;
    DecomposeEntries(h, value);
    DecomposeDescending(h, value);
    DecomposeWorth(h, value);
  }

  /** A value of 0 has no coins. */
  lemma ZeroIsEmpty(currencies: seq<Currency>)
    requires NonNegativeBases(currencies) && IsHierarchical(currencies)
    ensures FormatCurrencySpec(0, currencies) == Ok([])
  {
    DecomposeNothing(Hierarchy(currencies));
  }

  // ---------------------------------------------------------------------
  // Conversions
  // ---------------------------------------------------------------------

  function NoBaseMessage(c: Currency): string {
    "Currency " + c.id + " has no baseValue"
  }

  /** `toBaseValue`. */
  function ToBaseValue(amount: real, c: Currency): (r: Result<real>)
    ensures Base(c) == 0 <==> r == Err(NoBaseMessage(c))
  {
    if Base(c) == 0 then Err(NoBaseMessage(c)) else Ok(amount * Base(c) as real)
  }

  /** `fromBaseValue`. */
  function FromBaseValue(value: real, c: Currency): (r: Result<real>)
    ensures Base(c) == 0 <==> r == Err(NoBaseMessage(c))
  {
    if Base(c) == 0 then Err(NoBaseMessage(c)) else Ok(value / Base(c) as real)
  }

  lemma ConversionRoundTrip(amount: real, value: real, c: Currency)
    requires Base(c) != 0
    ensures FromBaseValue(ToBaseValue(amount, c).value, c) == Ok(amount)
    ensures ToBaseValue(FromBaseValue(value, c).value, c) == Ok(value)
  {
    var b := Base(c) as real;
    assert b != 0.0;
    var toBase := ToBaseValue(amount, c);
    assert toBase.Ok? && toBase.value == amount * b;
    assert FromBaseValue(toBase.value, c).value == amount * b / b == amount;
    var fromBase := FromBaseValue(value, c);
    assert fromBase.Ok? && fromBase.value == value / b;
    assert ToBaseValue(fromBase.value, c).value == value / b * b == value;
  }

  // ---------------------------------------------------------------------
  // Text formatters
  // ---------------------------------------------------------------------

  /** `Object.values(currencies).find(c => c.baseValue === 1)`. */
  function BaseUnit(currencies: seq<Currency>): (r: Option<Currency>)
    ensures r.Some? ==> r.value in currencies && r.value.baseValue == Some(1)
    ensures r.None? <==> forall c :: c in currencies ==> c.baseValue != Some(1)
    decreases |currencies|
  {
    if currencies == [] then None
    else if currencies[0].baseValue == Some(1) then Some(currencies[0])
    else BaseUnit(currencies[1..])
  }

  /** `baseUnit?.name || 'unités'`. */
  function BaseUnitName(currencies: seq<Currency>): string {
    var unit := BaseUnit(currencies);
    if unit.Some? && unit.value.name != "" then unit.value.name else DefaultUnitName
  }

  /** `symbol || name`. */
  function Label(c: Currency): string {
    if c.symbol.Some? && c.symbol.value != "" then c.symbol.value else c.name
  }

  /** `baseUnit?.symbol || baseUnit?.name || 'unités'`. */
  function BaseUnitLabel(currencies: seq<Currency>): string {
    var unit := BaseUnit(currencies);
    if unit.Some? && Label(unit.value) != "" then Label(unit.value) else DefaultUnitName
  }

  /** `${amount} ${name}` with an 's' when the amount exceeds 1. */
  function TextEntry(f: Formatted): (r: string)
    ensures f.amount > 1 ==> r == IntToString(f.amount) + " " + f.currency.name + "s"
    ensures f.amount <= 1 ==> r == IntToString(f.amount) + " " + f.currency.name
  {
    IntToString(f.amount) + " " + f.currency.name + (if f.amount > 1 then "s" else "")
  }

  function SymbolEntry(f: Formatted): string {
    IntToString(f.amount) + " " + Label(f.currency)
  }

  function MapEntries(r: seq<Formatted>, entry: Formatted -> string): (s: seq<string>)
    ensures |s| == |r|
    ensures forall i :: 0 <= i < |r| ==> s[i] == entry(r[i])
    decreases |r|
  {
    if r == [] then [] else [entry(r[0])] + MapEntries(r[1..], entry)
  }

  /** `formatCurrencyText`. */
  function FormatCurrencyText(value: int, currencies: seq<Currency>): (r: Result<string>)
    ensures FormatCurrencySpec(value, currencies).Err? <==> r.Err?
    ensures FormatCurrencySpec(value, currencies) == Ok([]) ==> r == Ok("0 " + BaseUnitName(currencies))
    ensures FormatCurrencySpec(value, currencies).Ok? && FormatCurrencySpec(value, currencies).value != [] ==>
              r == Ok(Join(MapEntries(FormatCurrencySpec(value, currencies).value, TextEntry), ", "))
  {
    match FormatCurrencySpec(value, currencies)
    case Err(m) => Err(m)
    case Ok(formatted) =>
      if formatted == [] then Ok("0 " + BaseUnitName(currencies))
      else Ok(Join(MapEntries(formatted, TextEntry), ", "))
  }

  function KeepShown(showZero: bool): Formatted -> bool {
    (f: Formatted) => showZero || f.amount > 0
  }

  /** `formatCurrencySymbols`. */
  function FormatCurrencySymbols(value: int, currencies: seq<Currency>, showZero: bool): (r: Result<string>)
    ensures FormatCurrencySpec(value, currencies).Err? <==> r.Err?
    ensures FormatCurrencySpec(value, currencies) == Ok([]) ==> r == Ok("0 " + BaseUnitLabel(currencies))
    ensures FormatCurrencySpec(value, currencies).Ok? && FormatCurrencySpec(value, currencies).value != [] ==>
              r == Ok(Join(MapEntries(FormatCurrencySpec(value, currencies).value, SymbolEntry), ", "))
  {
    match FormatCurrencySpec(value, currencies)
    case Err(m) => Err(m)
    case Ok(formatted) =>
      if formatted == [] then Ok("0 " + BaseUnitLabel(currencies))
      else
        DecomposeHasNoZero(Hierarchy(currencies), value);
        FilterAllPass(formatted, KeepShown(showZero));
        Ok(Join(MapEntries(Filter(formatted, KeepShown(showZero)), SymbolEntry), ", "))
  }

  /** The greedy loop never lists a zero amount. */
  lemma {:induction false} DecomposeHasNoZero(h: seq<Currency>, remaining: int)
    ensures forall i :: 0 <= i < |Decompose(h, remaining)| ==> Decompose(h, remaining)[i].amount > 0
    decreases |h|
  {
    if h != [] {
      var b := Base(h[0]);
      if b == 0 {
        DecomposeHasNoZero(h[1..], remaining);
      } else {
        var amount := FloorDiv(remaining, b);
        DecomposeHasNoZero(h[1..], remaining - amount * b);
        DecomposeHasNoZero(h[1..], remaining);
        if amount > 0 {
          var r := Decompose(h, remaining);
          assert forall i :: 1 <= i < |r| ==> r[i] == Decompose(h[1..], remaining - amount * b)[i - 1];
        }
      }
    }
  }

  /** `showZero` has no effect, because `formatCurrency` lists no zero amount. */
  lemma ShowZeroHasNoEffect(value: int, currencies: seq<Currency>)
    ensures FormatCurrencySymbols(value, currencies, true) == FormatCurrencySymbols(value, currencies, false)
  {
    if IsHierarchical(currencies) {
      var formatted := Decompose(Hierarchy(currencies), value);
      DecomposeHasNoZero(Hierarchy(currencies), value);
      FilterAllPass(formatted, KeepShown(true));
      FilterAllPass(formatted, KeepShown(false));
    }
  }

  // ---------------------------------------------------------------------
  // formatCurrencySimple
  // ---------------------------------------------------------------------

  /** A currency `formatCurrencySimple` may use: `value / baseValue >= 1`. */
  predicate Fits(value: int, c: Currency) {
    Base(c) != 0 && (value as real) / (Base(c) as real) >= 1.0
  }

  /** `Math.ceil(x * 10) / 10`. */
  function CeilTenth(x: real): (r: real)
    ensures x <= r < x + 0.1
  {
    -((-x * 10.0).Floor) as real / 10.0
  }

  /** What `formatCurrencySimple` shows: a rounded amount of a currency, or the value in base units. */
  datatype Simple = InCurrency(rounded: real, unitLabel: string) | InBaseUnits(value: int, unitLabel: string)

  /** The first currency of a hierarchy that fits the value. */
  function FirstFit(value: int, hierarchy: seq<Currency>): (choice: Option<Currency>)
    ensures choice.Some? ==> exists k :: 0 <= k < |hierarchy| && hierarchy[k] == choice.value &&
                                         Fits(value, hierarchy[k]) &&
                                         forall j :: 0 <= j < k ==> !Fits(value, hierarchy[j])
    ensures choice.None? <==> forall c :: c in hierarchy ==> !Fits(value, c)
    decreases |hierarchy|
  {
    if hierarchy == [] then None
    else if Fits(value, hierarchy[0]) then Some(hierarchy[0])
    else
      var rest := FirstFit(value, hierarchy[1..]);
      assert forall c :: c in hierarchy ==> c == hierarchy[0] || c in hierarchy[1..];
      if rest.Some? then
        var k :| 0 <= k < |hierarchy[1..]| && hierarchy[1..][k] == rest.value && Fits(value, hierarchy[1..][k]) &&
                 forall j :: 0 <= j < k ==> !Fits(value, hierarchy[1..][j]);
        assert forall j :: 0 <= j < k + 1 ==> !Fits(value, hierarchy[j]) by {
          forall j | 0 <= j < k + 1 ensures !Fits(value, hierarchy[j]) {
            if j > 0 {
              assert hierarchy[j] == hierarchy[1..][j - 1];
            }
          }
        }
        assert hierarchy[k + 1] == rest.value;
        rest
      else
        rest
  }

  /** The loop of `formatCurrencySimple`: the first currency of the hierarchy that fits. */
  method ChooseCurrency(value: int, hierarchy: seq<Currency>) returns (choice: Option<Currency>)
    ensures choice == FirstFit(value, hierarchy)
  {
    for i := 0 to |hierarchy|
      invariant FirstFit(value, hierarchy[i..]) == FirstFit(value, hierarchy)
    {
      var currency := hierarchy[i];
      assert hierarchy[i..][0] == currency && hierarchy[i..][1..] == hierarchy[i + 1..];
      if Base(currency) == 0 {
        continue;
      }
      var amount := (value as real) / (Base(currency) as real);
      if amount >= 1.0 {
        return Some(currency);
      }
    }
    assert hierarchy[|hierarchy|..] == [];
    return None;
  }

  /** In a hierarchy sorted by descending base value, the first currency that fits has the highest base value among those that fit. */
  lemma FirstFitHighest(value: int, hierarchy: seq<Currency>, c: Currency)
    requires forall i, j :: 0 <= i < j < |hierarchy| ==> Base(hierarchy[i]) >= Base(hierarchy[j])
    requires FirstFit(value, hierarchy) == Some(c)
    ensures forall d :: d in hierarchy && Fits(value, d) ==> Base(d) <= Base(c)
  {
    var k :| 0 <= k < |hierarchy| && hierarchy[k] == c && Fits(value, hierarchy[k]) &&
             forall j :: 0 <= j < k ==> !Fits(value, hierarchy[j]);
    forall d | d in hierarchy && Fits(value, d) ensures Base(d) <= Base(c) {
      FirstFitIsHighest(value, hierarchy, k, d);
    }
  }

  /**
   * What `formatCurrencySimple` shows: the value in the currency of highest
   * base value that fits it, rounded up to the tenth; the value in base
   * units when none fits.
   */
  function SimpleSpec(value: int, currencies: seq<Currency>): (r: Simple)
    ensures r.InCurrency? ==> exists c :: c in currencies && Fits(value, c) && r.unitLabel == Label(c) &&
                                          r.rounded == CeilTenth((value as real) / (Base(c) as real)) &&
                                          forall d :: d in currencies && Fits(value, d) ==> Base(d) <= Base(c)
    ensures r.InBaseUnits? <==> forall c :: c in currencies && c.baseValue.Some? ==> !Fits(value, c)
    ensures r.InBaseUnits? ==> r == InBaseUnits(value, BaseUnitLabel(currencies))
  {
    var hierarchy := Hierarchy(currencies);
    match FirstFit(value, hierarchy)
    case Some(c) =>
      FirstFitHighest(value, hierarchy, c);
      InCurrency(CeilTenth((value as real) / (Base(c) as real)), Label(c))
    case None =>
      InBaseUnits(value, BaseUnitLabel(currencies))
  }

  /** `formatCurrencySimple`, up to the rendering of the rounded number. */
  method FormatCurrencySimple(value: int, currencies: seq<Currency>) returns (r: Simple)
    ensures r == SimpleSpec(value, currencies)
  {
    var hierarchy := Hierarchy(currencies);
    var choice := ChooseCurrency(value, hierarchy);
    if choice.Some? {
      var currency := choice.value;
      return InCurrency(CeilTenth((value as real) / (Base(currency) as real)), Label(currency));
    }
    return InBaseUnits(value, BaseUnitLabel(currencies));
  }

  /** With positive base values, the currency chosen has the highest base value among those that fit. */
  lemma FirstFitIsHighest(value: int, hierarchy: seq<Currency>, k: int, c: Currency)
    requires forall i, j :: 0 <= i < j < |hierarchy| ==> Base(hierarchy[i]) >= Base(hierarchy[j])
    requires 0 <= k < |hierarchy| && forall j :: 0 <= j < k ==> !Fits(value, hierarchy[j])
    requires c in hierarchy && Fits(value, c)
    ensures Base(c) <= Base(hierarchy[k])
  {
    var m :| 0 <= m < |hierarchy| && hierarchy[m] == c;
    if k < m {
      assert Base(hierarchy[k]) >= Base(hierarchy[m]);
    }
  }

  // ---------------------------------------------------------------------
  // The standard D&D system, as a fixture
  // ---------------------------------------------------------------------

  const Copper := Currency("dnd-copper", "Pi\U{E8}ce de cuivre", Some("pc"), Coin, Some(1))
  const Silver := Currency("dnd-silver", "Pi\U{E8}ce d'argent", Some("pa"), Coin, Some(10))
  const Gold := Currency("dnd-gold", "Pi\U{E8}ce d'or", Some("po"), Coin, Some(100))

  /** 156 copper pieces are 1 po, 5 pa and 6 pc. */
  lemma DndExample()
    ensures Decompose([Gold, Silver, Copper], 156) == [Formatted(Gold, 1), Formatted(Silver, 5), Formatted(Copper, 6)]
    ensures Decompose([Gold, Silver, Copper], 100) == [Formatted(Gold, 1)]
  {
    assert [Gold, Silver, Copper][1..] == [Silver, Copper];
    assert [Silver, Copper][1..] == [Copper];
    assert Decompose([Copper], 6) == [Formatted(Copper, 6)];
    assert Decompose([Silver, Copper], 56) == [Formatted(Silver, 5), Formatted(Copper, 6)];
    assert Decompose([Copper], 0) == [];
    assert Decompose([Silver, Copper], 0) == [];
  }
  /** The D&D system in declaration order: copper, silver, gold. */
  const DndSystem := [Copper, Silver, Gold]

  /** Every D&D currency has a base value. */
  lemma DndAllHaveBase()
    ensures Filter(DndSystem, HasBase) == DndSystem
  {
    FilterAllPass(DndSystem, HasBase);
  }

  /** Sorting the D&D currencies by descending base value. */
  lemma DndSorted()
    ensures SortByKey(DndSystem, Descending) == [Gold, Silver, Copper]
  {
    var d := DndSystem;
    assert d[1..] == [Silver, Gold] && d[1..][1..] == [Gold];
    assert SortByKey([Silver, Gold], Descending) == InsertByKey(Silver, [Gold], Descending) by {
      assert SortByKey([Gold], Descending) == [Gold];
    }
    assert InsertByKey(Silver, [Gold], Descending) == [Gold, Silver];
    assert InsertByKey(Copper, [Gold, Silver], Descending) == [Gold] + InsertByKey(Copper, [Silver], Descending);
  }

  /** Its hierarchy is po > pa > pc. */
  lemma DndHierarchy()
    ensures Hierarchy(DndSystem) == [Gold, Silver, Copper]
  {
    DndAllHaveBase();
    DndSorted();
  }

  /** `SimpleSpec` over the D&D system shows the value in the first of po, pa, pc that fits it. */
  lemma DndSimpleIn(value: int, c: Currency)
    requires FirstFit(value, [Gold, Silver, Copper]) == Some(c)
    ensures SimpleSpec(value, DndSystem) == InCurrency(CeilTenth((value as real) / (Base(c) as real)), Label(c))
  {
    DndHierarchy();
  }

  /** `formatCurrencySimple` over the D&D system: 156 pc show as 1.6 po, 150 as 1.5 po. */
  lemma DndSimpleGold()
    ensures SimpleSpec(156, DndSystem) == InCurrency(1.6, "po")
    ensures SimpleSpec(150, DndSystem) == InCurrency(1.5, "po")
  {
    assert Fits(156, Gold) && Fits(150, Gold);
    DndSimpleIn(156, Gold);
    DndSimpleIn(150, Gold);
    assert (156 as real) / (100 as real) == 1.56;
    assert CeilTenth(1.56) == 1.6;
    assert (150 as real) / (100 as real) == 1.5;
    assert CeilTenth(1.5) == 1.5;
  }

  /** 15 pc and 50 pc do not reach a gold piece and show in silver: 1.5 pa and 5 pa. */
  lemma DndSimpleSilver()
    ensures SimpleSpec(15, DndSystem) == InCurrency(1.5, "pa")
    ensures SimpleSpec(50, DndSystem) == InCurrency(5.0, "pa")
  {
    assert [Gold, Silver, Copper][1..] == [Silver, Copper];
    assert !Fits(15, Gold) && Fits(15, Silver);
    assert !Fits(50, Gold) && Fits(50, Silver);
    DndSimpleIn(15, Silver);
    DndSimpleIn(50, Silver);
    assert (15 as real) / (10 as real) == 1.5;
    assert CeilTenth(1.5) == 1.5;
    assert (50 as real) / (10 as real) == 5.0;
    assert CeilTenth(5.0) == 5.0;
  }

  /** 5 pc reach neither gold nor silver and show as 5 pc. */
  lemma DndSimpleCopper()
    ensures SimpleSpec(5, DndSystem) == InCurrency(5.0, "pc")
  {
    assert [Gold, Silver, Copper][1..] == [Silver, Copper];
    assert [Silver, Copper][1..] == [Copper];
    assert !Fits(5, Gold) && !Fits(5, Silver) && Fits(5, Copper);
    assert FirstFit(5, [Copper]) == Some(Copper);
    assert FirstFit(5, [Silver, Copper]) == Some(Copper);
    DndSimpleIn(5, Copper);
    assert (5 as real) / (1 as real) == 5.0;
    assert CeilTenth(5.0) == 5.0;
  }

  /** The D&D system is formatted by the greedy loop over po, pa, pc. */
  lemma DndFormat(value: int)
    ensures FormatCurrencySpec(value, DndSystem) == Ok(Decompose([Gold, Silver, Copper], value))
  {
    assert Copper in DndSystem;
    DndHierarchy();
  }

  /** 111 pc are one coin of each kind; 56 pc are 5 pa and 6 pc; 0 pc are no coin. */
  lemma DndMoreExamples()
    ensures Decompose([Gold, Silver, Copper], 111) == [Formatted(Gold, 1), Formatted(Silver, 1), Formatted(Copper, 1)]
    ensures Decompose([Gold, Silver, Copper], 56) == [Formatted(Silver, 5), Formatted(Copper, 6)]
    ensures Decompose([Gold, Silver, Copper], 0) == []
  {
    assert [Gold, Silver, Copper][1..] == [Silver, Copper];
    assert [Silver, Copper][1..] == [Copper];
    assert Decompose([Copper], 1) == [Formatted(Copper, 1)];
    assert Decompose([Silver, Copper], 11) == [Formatted(Silver, 1), Formatted(Copper, 1)];
    assert Decompose([Copper], 6) == [Formatted(Copper, 6)];
    assert Decompose([Silver, Copper], 56) == [Formatted(Silver, 5), Formatted(Copper, 6)];
    assert Decompose([Copper], 0) == [];
    assert Decompose([Silver, Copper], 0) == [];
  }

  /** `formatCurrencyText` over the D&D system joins the text entries of the greedy decomposition. */
  lemma DndTextIs(value: int, d: seq<Formatted>)
    requires Decompose([Gold, Silver, Copper], value) == d && d != []
    ensures FormatCurrencyText(value, DndSystem) == Ok(Join(MapEntries(d, TextEntry), ", "))
  {
    DndFormat(value);
  }

  /** `formatCurrencySymbols` over the D&D system joins the symbol entries of the greedy decomposition. */
  lemma DndSymbolsIs(value: int, d: seq<Formatted>, showZero: bool)
    requires Decompose([Gold, Silver, Copper], value) == d && d != []
    ensures FormatCurrencySymbols(value, DndSystem, showZero) == Ok(Join(MapEntries(d, SymbolEntry), ", "))
  {
    DndFormat(value);
  }

  /** The entries the D&D examples use. */
  lemma GoldEntries()
    ensures TextEntry(Formatted(Gold, 1)) == "1 Pi\U{E8}ce d'or"
    ensures SymbolEntry(Formatted(Gold, 1)) == "1 po"
  {
  }

  lemma SilverEntries()
    ensures TextEntry(Formatted(Silver, 5)) == "5 Pi\U{E8}ce d'argents"
    ensures TextEntry(Formatted(Silver, 1)) == "1 Pi\U{E8}ce d'argent"
    ensures SymbolEntry(Formatted(Silver, 5)) == "5 pa"
  {
    SilverPlural();
  }

  lemma SilverPlural()
    ensures TextEntry(Formatted(Silver, 5)) == "5 Pi\U{E8}ce d'argents"
  {
  }

  lemma CopperEntries()
    ensures TextEntry(Formatted(Copper, 6)) == "6 Pi\U{E8}ce de cuivres"
    ensures TextEntry(Formatted(Copper, 1)) == "1 Pi\U{E8}ce de cuivre"
    ensures SymbolEntry(Formatted(Copper, 6)) == "6 pc"
  {
    CopperPlural();
  }

  lemma CopperPlural()
    ensures TextEntry(Formatted(Copper, 6)) == "6 Pi\U{E8}ce de cuivres"
  {
  }

  /** The base unit of the D&D system is the copper piece. */
  lemma DndBaseUnit()
    ensures BaseUnitName(DndSystem) == "Pi\U{E8}ce de cuivre"
    ensures BaseUnitLabel(DndSystem) == "pc"
  {
    assert BaseUnit(DndSystem) == Some(Copper);
  }

  lemma TextEntries156(d: seq<Formatted>)
    requires d == [Formatted(Gold, 1), Formatted(Silver, 5), Formatted(Copper, 6)]
    ensures Join(MapEntries(d, TextEntry), ", ") ==
            "1 Pi\U{E8}ce d'or" + ", " + "5 Pi\U{E8}ce d'argents" + ", " + "6 Pi\U{E8}ce de cuivres"
  {
    GoldEntries();
    SilverEntries();
    CopperEntries();
    assert MapEntries(d, TextEntry) == [TextEntry(d[0]), TextEntry(d[1]), TextEntry(d[2])];
    JoinThree(TextEntry(d[0]), TextEntry(d[1]), TextEntry(d[2]), ", ");
  }

  lemma TextEntries111(d: seq<Formatted>)
    requires d == [Formatted(Gold, 1), Formatted(Silver, 1), Formatted(Copper, 1)]
    ensures Join(MapEntries(d, TextEntry), ", ") ==
            "1 Pi\U{E8}ce d'or" + ", " + "1 Pi\U{E8}ce d'argent" + ", " + "1 Pi\U{E8}ce de cuivre"
  {
    GoldEntries();
    SilverEntries();
    CopperEntries();
    assert MapEntries(d, TextEntry) == [TextEntry(d[0]), TextEntry(d[1]), TextEntry(d[2])];
    JoinThree(TextEntry(d[0]), TextEntry(d[1]), TextEntry(d[2]), ", ");
  }

  lemma SymbolEntries156(d: seq<Formatted>)
    requires d == [Formatted(Gold, 1), Formatted(Silver, 5), Formatted(Copper, 6)]
    ensures Join(MapEntries(d, SymbolEntry), ", ") == "1 po" + ", " + "5 pa" + ", " + "6 pc"
  {
    GoldEntries();
    SilverEntries();
    CopperEntries();
    assert MapEntries(d, SymbolEntry) == [SymbolEntry(d[0]), SymbolEntry(d[1]), SymbolEntry(d[2])];
    JoinThree(SymbolEntry(d[0]), SymbolEntry(d[1]), SymbolEntry(d[2]), ", ");
  }

  lemma SymbolEntries56(d: seq<Formatted>)
    requires d == [Formatted(Silver, 5), Formatted(Copper, 6)]
    ensures Join(MapEntries(d, SymbolEntry), ", ") == "5 pa" + ", " + "6 pc"
  {
    GoldEntries();
    SilverEntries();
    CopperEntries();
    assert MapEntries(d, SymbolEntry) == [SymbolEntry(d[0]), SymbolEntry(d[1])];
    JoinTwo(SymbolEntry(d[0]), SymbolEntry(d[1]), ", ");
  }

  lemma SymbolEntries100(d: seq<Formatted>)
    requires d == [Formatted(Gold, 1)]
    ensures Join(MapEntries(d, SymbolEntry), ", ") == "1 po"
  {
    GoldEntries();
    SilverEntries();
    CopperEntries();
    assert MapEntries(d, SymbolEntry) == [SymbolEntry(d[0])];
  }

  /** `formatCurrencyText(156)` over the D&D system: plural names for the amounts above one. */
  lemma DndText156()
    ensures FormatCurrencyText(156, DndSystem) ==
            Ok("1 Pi\U{E8}ce d'or" + ", " + "5 Pi\U{E8}ce d'argents" + ", " + "6 Pi\U{E8}ce de cuivres")
  {
    DndExample();
    var d := [Formatted(Gold, 1), Formatted(Silver, 5), Formatted(Copper, 6)];
    DndTextIs(156, d);
    TextEntries156(d);
  }

  /** `formatCurrencyText(111)`: singular names throughout. */
  lemma DndText111()
    ensures FormatCurrencyText(111, DndSystem) ==
            Ok("1 Pi\U{E8}ce d'or" + ", " + "1 Pi\U{E8}ce d'argent" + ", " + "1 Pi\U{E8}ce de cuivre")
  {
    DndMoreExamples();
    var d := [Formatted(Gold, 1), Formatted(Silver, 1), Formatted(Copper, 1)];
    DndTextIs(111, d);
    TextEntries111(d);
  }

  /** `formatCurrencyText(0)`: zero in the name of the base unit. */
  lemma DndTextZero()
    ensures FormatCurrencyText(0, DndSystem) == Ok("0 " + "Pi\U{E8}ce de cuivre")
  {
    DndFormat(0);
    DndMoreExamples();
    DndBaseUnit();
  }

  /** `formatCurrencySymbols(156)`: symbols instead of names, with or without `showZero`. */
  lemma DndSymbols156(showZero: bool)
    ensures FormatCurrencySymbols(156, DndSystem, showZero) == Ok("1 po" + ", " + "5 pa" + ", " + "6 pc")
  {
    DndExample();
    var d := [Formatted(Gold, 1), Formatted(Silver, 5), Formatted(Copper, 6)];
    DndSymbolsIs(156, d, showZero);
    SymbolEntries156(d);
  }

  /** `formatCurrencySymbols(56)`: no gold entry. */
  lemma DndSymbols56(showZero: bool)
    ensures FormatCurrencySymbols(56, DndSystem, showZero) == Ok("5 pa" + ", " + "6 pc")
  {
    DndMoreExamples();
    var d := [Formatted(Silver, 5), Formatted(Copper, 6)];
    DndSymbolsIs(56, d, showZero);
    SymbolEntries56(d);
  }

  /** `formatCurrencySymbols(100)` is "1 po" whether or not zero amounts are asked for. */
  lemma DndSymbols100(showZero: bool)
    ensures FormatCurrencySymbols(100, DndSystem, showZero) == Ok("1 po")
  {
    DndExample();
    var d := [Formatted(Gold, 1)];
    DndSymbolsIs(100, d, showZero);
    SymbolEntries100(d);
  }

  /** `formatCurrencySymbols(0)`: zero in the symbol of the base unit. */
  lemma DndSymbolsZero(showZero: bool)
    ensures FormatCurrencySymbols(0, DndSystem, showZero) == Ok("0 " + "pc")
  {
    DndFormat(0);
    DndMoreExamples();
    DndBaseUnit();
  }
}
