/**
  The parameter model of the stalagmometer page: two fixed catalogs (liquid
  surface tensions and planetary gravities), the experiment parameters the
  form edits one at a time, and the surface-tension estimate computed when
  the user asks for it.

  Input parsing, the rounding of the result to four decimals and the text
  label are outside this model: setters take the already-parsed numbers and
  the estimate is the exact real value before rounding.
 */
module ParameterModel {

  datatype Option<T> = None | Some(value: T)

  /** Surface tension of each selectable liquid, in N/m. */
  const LiquidCatalog: map<string, real> :=
    map["water" := 0.0728, "oil" := 0.030, "alcohol" := 0.022]

  /** Gravitational acceleration of each selectable planet, in m/s^2. */
  const PlanetCatalog: map<string, real> :=
    map["earth" := 9.8, "moon" := 1.62, "mars" := 3.71]

  /**
    The value of Math.PI written to 16 significant digits. Apart from the
    worked example, the lemmas below use only that it is positive.
   */
  const Pi: real := 3.141592653589793

  /**
    A catalog lookup. A key the catalog lacks is None. In the page such a
    key reads as `undefined`, or as an inherited function or object for
    names such as `constructor`; either makes the estimate NaN.
   */
  function Lookup(catalog: map<string, real>, key: string): Option<real>
  {
    if key in catalog then Some(catalog[key]) else None
  }

  /** A snapshot of the experiment parameters the page keeps. */
  datatype Parameters = Parameters(
    surfaceTension: Option<real>,
    gravity: Option<real>,
    dropMass: real,
    radius: real,
    dropCount: int)

  /**
    What the page would display: a number, or a non-finite value (NaN from a
    key that is not a catalog entry, Infinity or NaN from a zero radius).
   */
  datatype Reading = Finite(value: real) | NotFinite

  /** The drop's circumference in metres, for a radius in centimetres. */
  function Circumference(radius: real): real
  {
    2.0 * Pi * radius / 100.0
  }

  /**
    The surface-tension estimate: the liquid's tension times the drop's weight
    per metre of circumference. The result is finite exactly when both
    catalog entries are defined and the radius is not zero, and then it is
    the value that, multiplied by the circumference, gives tension times weight.
   */
  function Estimate(p: Parameters): (r: Reading)
    ensures r.NotFinite? <==> p.surfaceTension.None? || p.gravity.None? || p.radius == 0.0
    ensures r.Finite? ==>
      r.value * Circumference(p.radius) == p.surfaceTension.value * (p.dropMass * p.gravity.value)
  {
    if p.surfaceTension.None? || p.gravity.None? || p.radius == 0.0 then
      NotFinite
    else
      var force := p.dropMass * p.gravity.value;
      var c := Circumference(p.radius);
      assert force / c * c == force;
      Finite(p.surfaceTension.value * (force / c))
  }

  /** Every catalog holds exactly the three selectable keys, all with positive values. */
  lemma CatalogsWellFormed()
    ensures LiquidCatalog.Keys == {"water", "oil", "alcohol"}
    ensures PlanetCatalog.Keys == {"earth", "moon", "mars"}
    ensures forall k :: k in LiquidCatalog ==> LiquidCatalog[k] > 0.0
    ensures forall k :: k in PlanetCatalog ==> PlanetCatalog[k] > 0.0
  {
  }

  /**
    Selecting a liquid or a planet yields a defined value exactly for the
    three keys of its catalog, and that value is positive; any other key
    yields `undefined`.
   */
  lemma SelectableKeys(key: string)
    ensures Lookup(LiquidCatalog, key).Some? <==> key == "water" || key == "oil" || key == "alcohol"
    ensures Lookup(PlanetCatalog, key).Some? <==> key == "earth" || key == "moon" || key == "mars"
    ensures Lookup(LiquidCatalog, key).Some? ==> Lookup(LiquidCatalog, key).value > 0.0
    ensures Lookup(PlanetCatalog, key).Some? ==> Lookup(PlanetCatalog, key).value > 0.0
  {
  }

  /** The drop count is tracked but has no influence on the estimate. */
  lemma EstimateIgnoresDropCount(p: Parameters, n: int)
    ensures Estimate(p.(dropCount := n)) == Estimate(p)
  {
  }

  /**
    With a known liquid and planet, a positive mass and a positive radius,
    the estimate is a positive number.
   */
  lemma EstimatePositive(p: Parameters)
    requires p.surfaceTension.Some? && p.surfaceTension.value > 0.0
    requires p.gravity.Some? && p.gravity.value > 0.0
    requires p.dropMass > 0.0 && p.radius > 0.0
    ensures Estimate(p).Finite? && Estimate(p).value > 0.0
  {
  }

  /** The estimate is proportional to the drop mass. */
  lemma EstimateProportionalToMass(p: Parameters, k: real)
    requires Estimate(p).Finite?
    ensures Estimate(p.(dropMass := k * p.dropMass)).Finite?
    ensures Estimate(p.(dropMass := k * p.dropMass)).value == k * Estimate(p).value
  {
  }

  /**
    Water on Earth, a 0.002 kg drop and a 0.5 cm radius: the estimate lies in
    [0.04535, 0.04545), so rounded to four decimals it reads 0.0454.
   */
  lemma WaterOnEarthExample(n: int)
    ensures var r := Estimate(Parameters(Lookup(LiquidCatalog, "water"), Lookup(PlanetCatalog, "earth"), 0.002, 0.5, n));
      r.Finite? && 0.04535 <= r.value < 0.04545
  {
  }

  /** The page's parameter variables, each updated in place by its own input event. */
  class Experiment {
    var surfaceTension: Option<real>
    var gravity: Option<real>
    var dropMass: real
    var radius: real
    var dropCount: int

    function Params(): Parameters
      reads this
    {
      Parameters(surfaceTension, gravity, dropMass, radius, dropCount)
    }

    /**
      The page's start-up state: water on Earth, and whatever mass, radius
      and count the form fields hold.
     */
    constructor (mass: real, r: real, count: int)
      ensures Params() == Parameters(Some(0.0728), Some(9.8), mass, r, count)
    {
      surfaceTension := Lookup(LiquidCatalog, "water");
      gravity := Lookup(PlanetCatalog, "earth");
      dropMass, radius, dropCount := mass, r, count;
    }

    /** Selecting a liquid sets the tension to its catalog entry and nothing else. */
    method SelectLiquid(key: string)
      modifies this
      ensures Params() == old(Params()).(surfaceTension := Lookup(LiquidCatalog, key))
    {
      surfaceTension := Lookup(LiquidCatalog, key);
    }

    /** Selecting a planet sets the gravity to its catalog entry and nothing else. */
    method SelectPlanet(key: string)
      modifies this
      ensures Params() == old(Params()).(gravity := Lookup(PlanetCatalog, key))
    {
      gravity := Lookup(PlanetCatalog, key);
    }

    method SetDropMass(value: real)
      modifies this
      ensures Params() == old(Params()).(dropMass := value)
    {
      dropMass := value;
    }

    method SetRadius(value: real)
      modifies this
      ensures Params() == old(Params()).(radius := value)
    {
      radius := value;
    }

    method SetDropCount(value: int)
      modifies this
      ensures Params() == old(Params()).(dropCount := value)
    {
      dropCount := value;
    }

    /**
      The calculate action: weight, then circumference, then the estimate.
      It reads the parameters and changes none of them.
     */
    method Calculate() returns (r: Reading)
      ensures r == Estimate(Params())
    {
      if surfaceTension.None? || gravity.None? || radius == 0.0 {
        return NotFinite;
      }
      var force := dropMass * gravity.value;
      var circumference := 2.0 * Pi * radius / 100.0;
      r := Finite(surfaceTension.value * (force / circumference));
    }
  }

  /**
    A session: select a liquid and a planet from the catalogs, enter mass,
    radius and count, and calculate twice. Both results are the same finite
    value, the catalog tension times the weight per metre of circumference.
   */
  method Session(liquid: string, planet: string, mass: real, r: real, count: int)
    returns (first: Reading, second: Reading)
    requires liquid in LiquidCatalog && planet in PlanetCatalog && r != 0.0
    ensures first == second
    ensures first.Finite?
    ensures first.value * Circumference(r) == LiquidCatalog[liquid] * (mass * PlanetCatalog[planet])
  {
    var e := new Experiment(0.0, 1.0, 1);
    e.SelectLiquid(liquid);
    e.SelectPlanet(planet);
    e.SetDropMass(mass);
    e.SetRadius(r);
    e.SetDropCount(count);
    first := e.Calculate();
    second := e.Calculate();
  }
}
