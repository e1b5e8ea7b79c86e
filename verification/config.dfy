/**
  The metric catalogue of the Venus analyzer: nine named metric profiles plus a
  `default` profile, the string lookup with its fallback, and the menu choice
  that picks a metric name (an out-of-range or unreadable choice picks
  "temperature").
 */
module Config {

  /** The trend modes of the catalogue; `Cyclique` and `Attenue` keep the
      source's French spellings ("cyclique", "attenue"). */
  datatype Trend = Extreme | Stable | Permanent | Infernal | Cyclique | Attenue | Constant | SuperRotation

  /** One metric profile: the generation parameters of a metric. */
  datatype Profile = Profile(
    baseValue: real,
    cycleYears: real,
    amplitude: real,
    trend: Trend,
    unit: string,
    description: string)

  /** The closed set of catalogue keys. */
  datatype Metric =
    | Temperature
    | AtmosphericPressure
    | CloudCover
    | SurfaceConditions
    | VolcanicActivity
    | SolarRadiation
    | AtmosphericComposition
    | WindSpeeds
    | OrbitalDistance
    | Default

  /** The dictionary key under which a metric is stored. */
  function Key(m: Metric): string
  {
    match m
    case Temperature => "temperature"
    case AtmosphericPressure => "atmospheric_pressure"
    case CloudCover => "cloud_cover"
    case SurfaceConditions => "surface_conditions"
    case VolcanicActivity => "volcanic_activity"
    case SolarRadiation => "solar_radiation"
    case AtmosphericComposition => "atmospheric_composition"
    case WindSpeeds => "wind_speeds"
    case OrbitalDistance => "orbital_distance"
    case Default => "default"
  }

  /** True when no catalogue key is `name`. */
  predicate Unknown(name: string)
  {
    forall m: Metric :: Key(m) != name
  }

  /** The catalogue entry of every metric. */
  function Catalogue(m: Metric): (p: Profile)
    ensures p.cycleYears > 0.0
    ensures p.amplitude > 0.0 && p.baseValue > 0.0
  {
    match m
    case Temperature =>
      Profile(462.0, 0.62, 5.0, Extreme, "°C", "Température moyenne de surface")
    case AtmosphericPressure =>
      Profile(92.0, 0.62, 2.0, Stable, "bars", "Pression atmosphérique en surface")
    case CloudCover =>
      Profile(75.0, 0.62, 15.0, Permanent, "% de couverture", "Couverture nuageuse d'acide sulfurique")
    case SurfaceConditions =>
      Profile(100.0, 0.62, 20.0, Infernal, "Index d'hostilité", "Conditions de surface extrêmes")
    case VolcanicActivity =>
      Profile(25.0, 8.0, 20.0, Cyclique, "Index volcanique", "Activité volcanique présumée")
    case SolarRadiation =>
      Profile(200.0, 11.0, 50.0, Attenue, "W/m²", "Radiation solaire en surface")
    case AtmosphericComposition =>
      Profile(96.5, 1.0, 0.1, Constant, "% CO₂", "Composition atmosphérique (CO₂)")
    case WindSpeeds =>
      Profile(5.0, 0.62, 300.0, SuperRotation, "km/h", "Vents atmosphériques (surface vs haute atmosphère)")
    case OrbitalDistance =>
      Profile(0.72, 0.62, 0.01, Stable, "UA", "Distance au Soleil")
    case Default =>
      Profile(100.0, 0.62, 20.0, Stable, "Unités", "Données vénusiennes génériques")
  }

  /** The metric whose key is `name`, or `Default` when there is none. */
  function MetricOf(name: string): (m: Metric)
    ensures m != Default ==> Key(m) == name
    ensures forall k: Metric :: Key(k) == name ==> m == k
    ensures m == Default <==> name == "default" || Unknown(name)
  {
    if name == "temperature" then Temperature
    else if name == "atmospheric_pressure" then AtmosphericPressure
    else if name == "cloud_cover" then CloudCover
    else if name == "surface_conditions" then SurfaceConditions
    else if name == "volcanic_activity" then VolcanicActivity
    else if name == "solar_radiation" then SolarRadiation
    else if name == "atmospheric_composition" then AtmosphericComposition
    else if name == "wind_speeds" then WindSpeeds
    else if name == "orbital_distance" then OrbitalDistance
    else Default
  }

  /** `configs.get(data_type, configs["default"])`: the profile stored under
      `name`, falling back to the default profile for any other string. */
  function Resolve(name: string): (p: Profile)
    ensures p.cycleYears > 0.0
    ensures forall m: Metric :: Key(m) == name ==> p == Catalogue(m)
    ensures Unknown(name) ==>
      && p.baseValue == 100.0
      && p.cycleYears == 0.62
      && p.amplitude == 20.0
      && p.trend == Stable
  {
    Catalogue(MetricOf(name))
  }

  /** The menu of `main`, in display order. */
  const MenuTypes: seq<string> := [
    "temperature", "atmospheric_pressure", "cloud_cover", "surface_conditions",
    "volcanic_activity", "solar_radiation", "atmospheric_composition", "wind_speeds",
    "orbital_distance"
  ]

  /** What `int(input(...))` produced: a number, or a string that is not one. */
  datatype Choice = Number(n: int) | NotANumber

  /** The metric name picked by a menu choice: entry `n` (counted from 1) when
      it lies in the menu, "temperature" otherwise. */
  function SelectType(c: Choice): (name: string)
    ensures name in MenuTypes
    ensures c.Number? && 1 <= c.n <= |MenuTypes| ==> name == MenuTypes[c.n - 1]
    ensures !(c.Number? && 1 <= c.n <= |MenuTypes|) ==> name == "temperature"
  {
    match c
    case NotANumber => "temperature"
    case Number(n) =>
      if n < 1 || n > |MenuTypes| then "temperature" else MenuTypes[n - 1]
  }

  /** Every menu entry is a catalogue key other than `default`, so a menu
      choice never falls back to the default profile. */
  lemma {:induction false} SelectionNeverDefaults(c: Choice)
    ensures MetricOf(SelectType(c)) != Default
    ensures Resolve(SelectType(c)) == Catalogue(MetricOf(SelectType(c)))
  {
    var name := SelectType(c);
    assert name == "temperature" || name == "atmospheric_pressure" || name == "cloud_cover"
        || name == "surface_conditions" || name == "volcanic_activity" || name == "solar_radiation"
        || name == "atmospheric_composition" || name == "wind_speeds" || name == "orbital_distance";
  }

  /** Distinct menu positions name distinct metrics. */
  lemma MenuDistinct(i: int, j: int)
    requires 0 <= i < |MenuTypes| && 0 <= j < |MenuTypes| && i != j
    ensures MetricOf(MenuTypes[i]) != MetricOf(MenuTypes[j])
  {
  }
}
