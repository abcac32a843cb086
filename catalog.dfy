/** The static body catalog and the simulation scales (src/data.js), together with
    the invariants of that data which keep the update step well defined. */
module Catalog {
  import opened JsMath

  /** `orbitalScales`: AU-to-scene multiplier, visual size multiplier, global speed. */
  datatype Scales = Scales(distanceFactor: real, sizeFactor: real, timeScale: real)

  /** One catalog record. Fields a record may omit are `Option`s; an omitted
      `isStar` is falsy and is written `false`. */
  datatype BodyDef = BodyDef(
    name: string,
    radiusKm: real,
    visualRadius: real,
    color: int,
    isStar: bool,
    orbitalRadiusAU: Option<real>,
    orbitalSpeedFactor: real,
    rotationSpeedFactor: Option<real>,
    distanceFromSunDisplay: Option<string>,
    orbitalPeriodDisplay: Option<string>,
    atmosphericComposition: Option<string>,
    moonsDisplay: Option<string>)

  const OrbitalScales: Scales := Scales(50.0, 1.0, 0.05)

  const SolarSystemData: seq<BodyDef> := [
    BodyDef(name := "Sun", radiusKm := 695500.0, visualRadius := 12.0 * OrbitalScales.sizeFactor,
      color := 0xffcc00, isStar := true, orbitalRadiusAU := None, orbitalSpeedFactor := 0.0,
      rotationSpeedFactor := Some(0.0005),
      distanceFromSunDisplay := Some("N/A"), orbitalPeriodDisplay := Some("N/A"),
      atmosphericComposition := Some("Hydrogen (approx. 75%), Helium (approx. 24%)"),
      moonsDisplay := Some("N/A (Planets)")),
    BodyDef(name := "Mercury", radiusKm := 2439.7, visualRadius := 0.38 * OrbitalScales.sizeFactor * 5.0,
      color := 0xaaaaaa, isStar := false, orbitalRadiusAU := Some(0.39), orbitalSpeedFactor := 47.87 / 29.78,
      rotationSpeedFactor := Some(0.0017),
      distanceFromSunDisplay := Some("57.9 million km"), orbitalPeriodDisplay := Some("88 Earth days"),
      atmosphericComposition := Some("Minimal: Oxygen, Sodium, Hydrogen, Helium, Potassium"),
      moonsDisplay := Some("0")),
    BodyDef(name := "Venus", radiusKm := 6051.8, visualRadius := 0.95 * OrbitalScales.sizeFactor * 5.0,
      color := 0xfff8c0, isStar := false, orbitalRadiusAU := Some(0.72), orbitalSpeedFactor := 35.02 / 29.78,
      rotationSpeedFactor := Some(-0.00069),
      distanceFromSunDisplay := Some("108.2 million km"), orbitalPeriodDisplay := Some("225 Earth days"),
      atmosphericComposition := Some("Carbon Dioxide (96.5%), Nitrogen (3.5%)"),
      moonsDisplay := Some("0")),
    BodyDef(name := "Earth", radiusKm := 6371.0, visualRadius := 1.0 * OrbitalScales.sizeFactor * 5.0,
      color := 0x0077ff, isStar := false, orbitalRadiusAU := Some(1.0), orbitalSpeedFactor := 1.0,
      rotationSpeedFactor := Some(0.0041),
      distanceFromSunDisplay := Some("149.6 million km"), orbitalPeriodDisplay := Some("365.25 Earth days"),
      atmosphericComposition := Some("Nitrogen (78%), Oxygen (21%), Argon (0.9%)"),
      moonsDisplay := Some("1 (The Moon)")),
    BodyDef(name := "Mars", radiusKm := 3389.5, visualRadius := 0.53 * OrbitalScales.sizeFactor * 5.0,
      color := 0xff5733, isStar := false, orbitalRadiusAU := Some(1.52), orbitalSpeedFactor := 24.07 / 29.78,
      rotationSpeedFactor := Some(0.0040),
      distanceFromSunDisplay := Some("227.9 million km"), orbitalPeriodDisplay := Some("687 Earth days"),
      atmosphericComposition := Some("Carbon Dioxide (95%), Nitrogen (2.7%), Argon (1.6%)"),
      moonsDisplay := Some("2 (Phobos, Deimos)")),
    BodyDef(name := "Jupiter", radiusKm := 69911.0, visualRadius := 11.2 * OrbitalScales.sizeFactor * 1.8,
      color := 0xffa500, isStar := false, orbitalRadiusAU := Some(5.2), orbitalSpeedFactor := 13.07 / 29.78,
      rotationSpeedFactor := Some(0.010),
      distanceFromSunDisplay := Some("778.5 million km"), orbitalPeriodDisplay := Some("11.86 Earth years"),
      atmosphericComposition := Some("Hydrogen (approx. 89%), Helium (approx. 10%)"),
      moonsDisplay := Some("95 (e.g., Io, Europa, Ganymede, Callisto)")),
    BodyDef(name := "Saturn", radiusKm := 58232.0, visualRadius := 9.45 * OrbitalScales.sizeFactor * 1.8,
      color := 0xf0e68c, isStar := false, orbitalRadiusAU := Some(9.58), orbitalSpeedFactor := 9.69 / 29.78,
      rotationSpeedFactor := Some(0.0093),
      distanceFromSunDisplay := Some("1.434 billion km"), orbitalPeriodDisplay := Some("29.45 Earth years"),
      atmosphericComposition := Some("Hydrogen (approx. 96%), Helium (approx. 3%)"),
      moonsDisplay := Some("146 (e.g., Titan, Rhea)")),
    BodyDef(name := "Uranus", radiusKm := 25362.0, visualRadius := 4.0 * OrbitalScales.sizeFactor * 1.8,
      color := 0xadd8e6, isStar := false, orbitalRadiusAU := Some(19.22), orbitalSpeedFactor := 6.81 / 29.78,
      rotationSpeedFactor := Some(-0.0068),
      distanceFromSunDisplay := Some("2.871 billion km"), orbitalPeriodDisplay := Some("84 Earth years"),
      atmosphericComposition := Some("Hydrogen (approx. 83%), Helium (approx. 15%), Methane (approx. 2.3%)"),
      moonsDisplay := Some("27 (e.g., Titania, Oberon)")),
    BodyDef(name := "Neptune", radiusKm := 24622.0, visualRadius := 3.88 * OrbitalScales.sizeFactor * 1.8,
      color := 0x00008b, isStar := false, orbitalRadiusAU := Some(30.05), orbitalSpeedFactor := 5.43 / 29.78,
      rotationSpeedFactor := Some(0.0060),
      distanceFromSunDisplay := Some("4.495 billion km"), orbitalPeriodDisplay := Some("164.8 Earth years"),
      atmosphericComposition := Some("Hydrogen (approx. 80%), Helium (approx. 19%), Methane (approx. 1.5%)"),
      moonsDisplay := Some("14 (e.g., Triton)"))
  ]

  /** Number of entries flagged as a star. */
  function StarCount(c: seq<BodyDef>): (n: nat)
    ensures n <= |c|
  {
    if c == [] then 0 else (if c[0].isStar then 1 else 0) + StarCount(c[1..])
  }

  /** Every non-star entry carries an orbital radius (so `orbitalRadiusScene` is a number). */
  ghost predicate PlanetsHaveRadius(c: seq<BodyDef>) {
    forall i :: 0 <= i < |c| && !c[i].isStar ==> c[i].orbitalRadiusAU.Some?
  }

  /** The catalog shape the update step relies on: the star first, with zero orbital
      speed and no radius; every other entry a planet with a positive radius. */
  ghost predicate WellFormed(c: seq<BodyDef>) {
    && |c| > 0
    && c[0].isStar
    && c[0].orbitalSpeedFactor == 0.0
    && c[0].orbitalRadiusAU.None?
    && forall i :: 1 <= i < |c| ==>
         !c[i].isStar && c[i].orbitalRadiusAU.Some? && c[i].orbitalRadiusAU.value > 0.0
  }

  /** The radius damping divisor of the orbital update, `AU*0.4+0.6`. */
  function Damping(au: real): real {
    au * 0.4 + 0.6
  }

  /** AU radii of the non-star entries, in catalog order. */
  function PlanetRadiiAU(c: seq<BodyDef>): (r: seq<real>)
    requires PlanetsHaveRadius(c)
    ensures |r| == |c| - StarCount(c)
  {
    if c == [] then []
    else
      assert PlanetsHaveRadius(c[1..]) by {
        forall i | 0 <= i < |c[1..]| && !c[1..][i].isStar ensures c[1..][i].orbitalRadiusAU.Some? {
          assert c[1..][i] == c[i + 1];
        }
      }
      (if c[0].isStar then [] else [c[0].orbitalRadiusAU.value]) + PlanetRadiiAU(c[1..])
  }

  /** Orbital speed factors of the non-star entries, in catalog order. */
  function PlanetSpeeds(c: seq<BodyDef>): (r: seq<real>)
    ensures |r| == |c| - StarCount(c)
  {
    if c == [] then []
    else (if c[0].isStar then [] else [c[0].orbitalSpeedFactor]) + PlanetSpeeds(c[1..])
  }

  predicate AdjacentIncreasing(s: seq<real>) {
    forall i :: 0 <= i < |s| - 1 ==> s[i] < s[i + 1]
  }

  ghost predicate StrictlyIncreasing(s: seq<real>) {
    forall i, j :: 0 <= i < j < |s| ==> s[i] < s[j]
  }

  ghost predicate StrictlyDecreasing(s: seq<real>) {
    forall i, j :: 0 <= i < j < |s| ==> s[i] > s[j]
  }

  ghost predicate NamesDistinct(c: seq<BodyDef>) {
    forall i, j :: 0 <= i < j < |c| ==> c[i].name != c[j].name
  }

  /** An increase at every step is an increase between any two positions. */
  lemma {:induction false} AdjacentIncreasingIsStrict(s: seq<real>)
    requires AdjacentIncreasing(s)
    ensures StrictlyIncreasing(s)
  {
    if |s| > 1 {
      AdjacentIncreasingIsStrict(s[1..]);
      forall i, j | 0 <= i < j < |s| ensures s[i] < s[j] {
        if i > 0 {
          assert s[i] == s[1..][i - 1] && s[j] == s[1..][j - 1];
        } else if j > 1 {
          assert s[1] == s[1..][0] && s[j] == s[1..][j - 1];
        }
      }
    }
  }

  /** In a well-formed catalog the star is the only star. */
  lemma {:induction false} WellFormedHasOneStar(c: seq<BodyDef>)
    requires WellFormed(c)
    ensures StarCount(c) == 1
  {
    NoStarsCountZero(c[1..]);
  }

  lemma {:induction false} NoStarsCountZero(c: seq<BodyDef>)
    requires forall i :: 0 <= i < |c| ==> !c[i].isStar
    ensures StarCount(c) == 0
  {
    if c != [] {
      assert forall i :: 0 <= i < |c[1..]| ==> c[1..][i] == c[i + 1];
      NoStarsCountZero(c[1..]);
    }
  }

  /** In a well-formed catalog every damping divisor of a planet exceeds 0.6, so the
      division in the orbital update is always defined. */
  lemma DampingPositive(c: seq<BodyDef>, i: int)
    requires WellFormed(c) && 1 <= i < |c|
    ensures Damping(c[i].orbitalRadiusAU.value) > 0.6
  {
  }

  /** The shipped catalog is well formed: one star, first, named "Sun", still and
      without a radius; every planet has a positive radius. */
  lemma CatalogWellFormed()
    ensures WellFormed(SolarSystemData)
    ensures PlanetsHaveRadius(SolarSystemData)
    ensures SolarSystemData[0].name == "Sun"
    ensures StarCount(SolarSystemData) == 1
  {
    WellFormedHasOneStar(SolarSystemData);
  }

  /** Over planets only, the radius and speed lists are the entries' fields, index by index. */
  lemma {:induction false} PlanetListsOfPlanets(c: seq<BodyDef>)
    requires forall i :: 0 <= i < |c| ==> !c[i].isStar && c[i].orbitalRadiusAU.Some?
    ensures PlanetsHaveRadius(c)
    ensures PlanetRadiiAU(c) == seq(|c|, k requires 0 <= k < |c| => c[k].orbitalRadiusAU.value)
    ensures PlanetSpeeds(c) == seq(|c|, k requires 0 <= k < |c| => c[k].orbitalSpeedFactor)
  {
    if c != [] {
      assert forall i :: 0 <= i < |c[1..]| ==> c[1..][i] == c[i + 1];
      PlanetListsOfPlanets(c[1..]);
    }
  }

  /** The planet radii of the shipped catalog, in AU. */
  lemma CatalogRadiiList()
    ensures PlanetsHaveRadius(SolarSystemData)
    ensures PlanetRadiiAU(SolarSystemData) == [0.39, 0.72, 1.0, 1.52, 5.2, 9.58, 19.22, 30.05]
  {
    CatalogWellFormed();
    var planets := SolarSystemData[1..];
    PlanetListsOfPlanets(planets);
    assert PlanetRadiiAU(SolarSystemData) == PlanetRadiiAU(planets);
  }

  /** Planet radii grow strictly along the catalog. */
  lemma CatalogRadiiIncrease()
    ensures PlanetsHaveRadius(SolarSystemData)
    ensures StrictlyIncreasing(PlanetRadiiAU(SolarSystemData))
  {
    CatalogRadiiList();
    AdjacentIncreasingIsStrict(PlanetRadiiAU(SolarSystemData));
  }

  /** The planet orbital speed factors of the shipped catalog. */
  lemma CatalogSpeedList()
    ensures PlanetSpeeds(SolarSystemData) == [47.87 / 29.78, 35.02 / 29.78, 1.0, 24.07 / 29.78,
      13.07 / 29.78, 9.69 / 29.78, 6.81 / 29.78, 5.43 / 29.78]
  {
    CatalogWellFormed();
    var planets := SolarSystemData[1..];
    PlanetListsOfPlanets(planets);
    assert PlanetSpeeds(SolarSystemData) == PlanetSpeeds(planets);
  }

  /** Planet orbital speeds fall strictly along the catalog. */
  lemma CatalogSpeedsDecrease()
    ensures StrictlyDecreasing(PlanetSpeeds(SolarSystemData))
  {
    CatalogSpeedList();
    var speeds := PlanetSpeeds(SolarSystemData);
    var negated := [-47.87 / 29.78, -35.02 / 29.78, -1.0, -24.07 / 29.78, -13.07 / 29.78,
                    -9.69 / 29.78, -6.81 / 29.78, -5.43 / 29.78];
    AdjacentIncreasingIsStrict(negated);
    forall i, j | 0 <= i < j < |speeds| ensures speeds[i] > speeds[j] {
      assert negated[i] < negated[j] && negated[i] == -speeds[i] && negated[j] == -speeds[j];
    }
  }

  /** Earth is the unit of both orbital radius and orbital speed. */
  lemma EarthIsBaseline()
    ensures SolarSystemData[3].name == "Earth"
    ensures SolarSystemData[3].orbitalRadiusAU == Some(1.0)
    ensures SolarSystemData[3].orbitalSpeedFactor == 1.0
  {
  }

  /** Only Venus and Uranus spin retrograde; every body has a nonzero spin factor. */
  lemma RetrogradeBodies()
    ensures forall i :: 0 <= i < |SolarSystemData| ==>
      && SolarSystemData[i].rotationSpeedFactor.Some?
      && SolarSystemData[i].rotationSpeedFactor.value != 0.0
      && (SolarSystemData[i].rotationSpeedFactor.value < 0.0 <==>
            SolarSystemData[i].name == "Venus" || SolarSystemData[i].name == "Uranus")
  {
  }

  /** The scales are positive. */
  lemma ScalesPositive()
    ensures OrbitalScales.distanceFactor > 0.0
    ensures OrbitalScales.sizeFactor > 0.0
    ensures OrbitalScales.timeScale > 0.0
  {
  }

  /** Body names are non-empty and pairwise distinct, so a name identifies a body. */
  lemma CatalogNamesDistinct()
    ensures NamesDistinct(SolarSystemData)
    ensures forall i :: 0 <= i < |SolarSystemData| ==> SolarSystemData[i].name != ""
  {
    var c := SolarSystemData;
    assert forall i :: 0 <= i < |c| ==> |c[i].name| > 0;
    assert forall i, j :: 0 <= i < j < |c| ==> |c[i].name| != |c[j].name| || c[i].name[0] != c[j].name[0];
  }
}
