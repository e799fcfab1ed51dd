/**
 * The chart calculator (`AstroCalculator`): it fills its planets, houses,
 * angles and aspects dictionaries from the ephemeris' output, counts the
 * elements and modalities of the ten main planets, and hands each reading
 * step its template variables.  What the ephemeris reports is taken as input:
 * `Position` for one body and `HouseSystem` for the Placidus houses.
 */
module AstroCalc {
  import opened Wrappers
  import opened Dicts
  import opened Values
  import opened Chart
  import opened Places

  // ---------------------------------------------------------------------------
  // Tables
  // ---------------------------------------------------------------------------

  datatype PlanetInfo = PlanetInfo(key: string, nameJp: string, nameEn: string)

  /** `PLANETS`, in its declaration order. */
  const PlanetTable: seq<PlanetInfo> := [
    PlanetInfo("sun", "太陽", "Sun"),
    PlanetInfo("moon", "月", "Moon"),
    PlanetInfo("mercury", "水星", "Mercury"),
    PlanetInfo("venus", "金星", "Venus"),
    PlanetInfo("mars", "火星", "Mars"),
    PlanetInfo("jupiter", "木星", "Jupiter"),
    PlanetInfo("saturn", "土星", "Saturn"),
    PlanetInfo("uranus", "天王星", "Uranus"),
    PlanetInfo("neptune", "海王星", "Neptune"),
    PlanetInfo("pluto", "冥王星", "Pluto"),
    PlanetInfo("chiron", "カイロン", "Chiron"),
    PlanetInfo("north_node", "ドラゴンヘッド", "North Node")]

  /** The bodies whose motion is never reported as retrograde. */
  const NeverRetrograde: seq<string> := ["sun", "moon", "north_node"]

  /** The ten bodies the element and modality balances count. */
  const MainPlanets: seq<string> := ["sun", "moon", "mercury", "venus", "mars",
                                     "jupiter", "saturn", "uranus", "neptune", "pluto"]

  datatype AngleInfo = AngleInfo(key: string, nameJp: string, nameEn: string)

  /** The angles, in the order `_calculate_houses` lists them. */
  const AngleTable: seq<AngleInfo> := [
    AngleInfo("asc", "アセンダント", "Ascendant"),
    AngleInfo("mc", "ミッドヘブン", "Midheaven"),
    AngleInfo("ic", "イムムコエリ", "Imum Coeli"),
    AngleInfo("dc", "ディセンダント", "Descendant")]

  // ---------------------------------------------------------------------------
  // Records
  // ---------------------------------------------------------------------------

  /** What `swe.calc_ut` reports for one body. */
  datatype Position = Position(longitude: real, latitude: real, speed: real)

  /** What `swe.houses` reports: twelve cusps, the ascendant and the midheaven. */
  datatype HouseSystem = HouseSystem(cusps: seq<real>, asc: real, mc: real)

  /** One entry of `planets_data`; `house` is absent until houses are assigned. */
  datatype PlanetData = PlanetData(
    nameJp: string, nameEn: string, longitude: real, latitude: real,
    sign: Sign, signJp: string, signEn: string, degree: real, degreeFormatted: string,
    sabianDegree: int, retrograde: bool, speed: real, house: Option<int>)

  datatype HouseData = HouseData(cuspLongitude: real, sign: Sign, signJp: string, degree: real, sabianDegree: int)

  datatype AngleData = AngleData(
    nameJp: string, nameEn: string, longitude: real, sign: Sign, signJp: string, signEn: string,
    degree: real, degreeFormatted: string, sabianDegree: int)

  datatype AspectRecord = AspectRecord(
    planet1: string, planet1Jp: string, planet2: string, planet2Jp: string,
    aspect: string, aspectJp: string, symbol: string, angle: real, orb: real, exactDegree: real)

  /** `element_analysis` / `modality_analysis`. */
  datatype Analysis = Analysis(counts: Dict<string, int>, dominant: string, dominantCount: int,
                               lacking: string, lackingCount: int)

  // ---------------------------------------------------------------------------
  // _calculate_planets
  // ---------------------------------------------------------------------------

  /** The entry for one body, or nothing when its longitude has no sign (the raised error is skipped). */
  function PlanetEntry(info: PlanetInfo, pos: Position): Option<PlanetData>
  {
    match LongitudeToSign(pos.longitude)
    case Failure(_) => None
    case Success(sd) =>
      var sign := sd.0;
      var degree := sd.1;
      Some(PlanetData(info.nameJp, info.nameEn, pos.longitude, pos.latitude, sign, SignJp(sign), SignEn(sign),
                      degree, DegreeFormatted(degree), SabianDegree(degree),
                      if info.key in NeverRetrograde then false else pos.speed < 0.0, pos.speed, None))
  }

  /** `planets_data` after the first `k` bodies of `PLANETS`; a missing position is a failed `calc_ut`. */
  function PlanetsUpTo(d: Dict<string, PlanetData>, positions: seq<Option<Position>>, k: nat): Dict<string, PlanetData>
    requires k <= |PlanetTable| && |positions| == |PlanetTable|
  {
    BodiesUpTo(PlanetTable, PlanetEntry, d, positions, k)
  }

  /**
   * The same loop over any table of bodies, with `positions[i]` the
   * ephemeris' answer for `table[i]` and `entry` the entry computed from it.
   */
  function BodiesUpTo(table: seq<PlanetInfo>, entry: (PlanetInfo, Position) -> Option<PlanetData>,
                      d: Dict<string, PlanetData>, positions: seq<Option<Position>>, k: nat): Dict<string, PlanetData>
    requires k <= |table| == |positions|
  {
    if k == 0 then d
    else
      var before := BodiesUpTo(table, entry, d, positions, k - 1);
      match positions[k - 1]
      case None => before
      case Some(pos) =>
        var info := Nth(table, k - 1);
        match entry(info, pos)
        case None => before
        case Some(e) => Put(before, info.key, e)
  }

  /** One more round of the loop puts the entry of `table[k]`, if it has one, over the table so far. */
  lemma BodiesUpToNext(table: seq<PlanetInfo>, entry: (PlanetInfo, Position) -> Option<PlanetData>,
                       d: Dict<string, PlanetData>, positions: seq<Option<Position>>, k: nat)
    requires k < |table| == |positions|
    ensures var before := BodiesUpTo(table, entry, d, positions, k);
      BodiesUpTo(table, entry, d, positions, k + 1)
        == if positions[k].Some? && entry(Nth(table, k), positions[k].value).Some?
           then Put(before, Nth(table, k).key, entry(Nth(table, k), positions[k].value).value)
           else before
  {
  }

  /** The south node opposite the north node, added when the north node was computed. */
  function WithSouthNode(d: Dict<string, PlanetData>): Dict<string, PlanetData>
  {
    match Get(d, "north_node")
    case None => d
    case Some(nn) => Put(d, "south_node", SouthNode(nn.longitude))
  }

  function SouthNode(northLongitude: real): PlanetData
  {
    var sn := Normalized(northLongitude + 180.0);
    NormalizedRange(northLongitude + 180.0);
    LongitudeToSignInRange(sn);
    var sign := LongitudeToSign(sn).value.0;
    var degree := LongitudeToSign(sn).value.1;
    PlanetData("ドラゴンテイル", "South Node", sn, 0.0, sign, SignJp(sign), SignEn(sign),
               degree, DegreeFormatted(degree), SabianDegree(degree), false, 0.0, None)
  }

  // ---------------------------------------------------------------------------
  // _calculate_houses
  // ---------------------------------------------------------------------------

  function HouseEntry(cusp: real, sd: (Sign, real)): HouseData
  {
    HouseData(cusp, sd.0, SignJp(sd.0), sd.1, SabianDegree(sd.1))
  }

  /** The entry the cusp loop writes for a cusp, or nothing where `longitude_to_sign` raises. */
  function HouseAt(cusp: real): Option<HouseData>
  {
    match LongitudeToSign(cusp)
    case Failure(_) => None
    case Success(sd) => Some(HouseEntry(cusp, sd))
  }

  /**
   * `houses_data` once the cusp loop has run from position `i` to its end, and
   * whether it raised on the way; a raise stops the loop.  Position i is
   * house i + 1, and `houseAt` is the entry a cusp gives (`HouseAt` in the
   * calculator).
   */
  function CuspsFrom(houseAt: real -> Option<HouseData>, d: Dict<int, HouseData>, cusps: seq<real>, i: nat)
    : (Dict<int, HouseData>, bool)
    requires i <= |cusps|
    decreases |cusps| - i
  {
    if i == |cusps| then (d, false)
    else
      match houseAt(cusps[i])
      case None => (d, true)
      case Some(e) => CuspsFrom(houseAt, Put(d, i + 1, e), cusps, i + 1)
  }

  /** The longitudes of asc, mc, ic and dc; ic and dc are opposite mc and asc. */
  function AngleLongitudes(hs: HouseSystem): seq<real>
  {
    [hs.asc, hs.mc, Normalized(hs.mc + 180.0), Normalized(hs.asc + 180.0)]
  }

  function AngleEntry(info: AngleInfo, l: real, sd: (Sign, real)): AngleData
  {
    AngleData(info.nameJp, info.nameEn, l, sd.0, SignJp(sd.0), SignEn(sd.0), sd.1, DegreeFormatted(sd.1),
              SabianDegree(sd.1))
  }

  /** The entry the angle loop writes for an angle, or nothing where `longitude_to_sign` raises. */
  function AngleAt(info: AngleInfo, l: real): Option<AngleData>
  {
    match LongitudeToSign(l)
    case Failure(_) => None
    case Success(sd) => Some(AngleEntry(info, l, sd))
  }

  /**
   * `angles_data` once the angle loop has run from angle `a` to its end, and
   * whether it raised on the way; `table[a]` has longitude `ls[a]` and
   * `angleAt` is the entry it gives (`AngleTable` and `AngleAt` in the
   * calculator).
   */
  function AnglesFrom(table: seq<AngleInfo>, angleAt: (AngleInfo, real) -> Option<AngleData>,
                      d: Dict<string, AngleData>, ls: seq<real>, a: nat): (Dict<string, AngleData>, bool)
    requires a <= |ls| == |table|
    decreases |ls| - a
  {
    if a == |ls| then (d, false)
    else
      match angleAt(table[a], ls[a])
      case None => (d, true)
      case Some(e) => AnglesFrom(table, angleAt, Put(d, table[a].key, e), ls, a + 1)
  }

  /** Whose longitude lies in which house, written into each planet's entry. */
  function AssignHouses(d: Dict<string, PlanetData>, cusps: seq<real>): (r: Dict<string, PlanetData>)
    requires |cusps| == 12
    ensures |r| == |d|
  {
    seq(|d|, i requires 0 <= i < |d| => (d[i].0, d[i].1.(house := Some(House(cusps, d[i].1.longitude)))))
  }

  datatype HousesState = HousesState(planets: Dict<string, PlanetData>, houses: Dict<int, HouseData>,
                                     angles: Dict<string, AngleData>)

  /**
   * `_calculate_houses`: nothing when `swe.houses` raises (`None`); otherwise
   * the houses up to the first cusp without a sign, then, if every cusp had
   * one, the angles up to the first without a sign, and, if every angle had
   * one, the house of every planet.
   */
  function HousesOutcome(st: HousesState, h: Option<HouseSystem>): HousesState
    requires h.Some? ==> |h.value.cusps| == 12
  {
    match h
    case None => st
    case Some(hs) =>
      var (houses, raised) := CuspsFrom(HouseAt, st.houses, hs.cusps, 0);
      if raised then st.(houses := houses)
      else
        var (angles, raisedAngle) := AnglesFrom(AngleTable, AngleAt, st.angles, AngleLongitudes(hs), 0);
        if raisedAngle then st.(houses := houses, angles := angles)
        else HousesState(AssignHouses(st.planets, hs.cusps), houses, angles)
  }

  // ---------------------------------------------------------------------------
  // _calculate_aspects
  // ---------------------------------------------------------------------------

  /** The aspect between entries i and j: the first in table order whose orb admits their angle. */
  function PairAspect(d: Dict<string, PlanetData>, i: nat, j: nat): Option<AspectRecord>
    requires i < |d| && j < |d|
  {
    var angle := AspectAngle(d[i].1.longitude, d[j].1.longitude);
    match FirstAspect(angle)
    case None => None
    case Some(a) =>
      Some(AspectRecord(d[i].0, d[i].1.nameJp, d[j].0, d[j].1.nameJp, AspectTable[a].name, AspectTable[a].nameJp,
                        AspectTable[a].symbol, angle, Abs(angle - AspectTable[a].degree), AspectTable[a].degree))
  }

  function OptionSeq<T>(o: Option<T>): seq<T>
  {
    match o
    case None => []
    case Some(x) => [x]
  }

  /** `PairAspect` as a function of the two positions, with no aspect outside the dictionary. */
  function Pairs(d: Dict<string, PlanetData>): (nat, nat) -> Option<AspectRecord>
  {
    (a: nat, b: nat) => if a < |d| && b < |d| then PairAspect(d, a, b) else None
  }

  /** The aspects that `pair` gives entry i with entries i+1 .. j-1, in that order. */
  function RowFrom(pair: (nat, nat) -> Option<AspectRecord>, i: nat, j: nat): seq<AspectRecord>
    requires i < j
    decreases j
  {
    if j == i + 1 then [] else RowFrom(pair, i, j - 1) + OptionSeq(pair(i, j - 1))
  }

  /** The rows of entries 0 .. n-1 among `size` entries, one after the other. */
  function RowsUpTo(pair: (nat, nat) -> Option<AspectRecord>, n: nat, size: nat): seq<AspectRecord>
    requires n <= size
  {
    if n == 0 then [] else RowsUpTo(pair, n - 1, size) + RowFrom(pair, n - 1, size)
  }

  /** The aspects of entry i with entries i+1 .. j-1, in that order. */
  function RowUpTo(d: Dict<string, PlanetData>, i: nat, j: nat): seq<AspectRecord>
    requires i < j <= |d|
  {
    RowFrom(Pairs(d), i, j)
  }

  /** The aspects recorded by the first `i` rounds of the outer loop. */
  function AspectsUpTo(d: Dict<string, PlanetData>, i: nat): seq<AspectRecord>
    requires i <= |d|
  {
    RowsUpTo(Pairs(d), i, |d|)
  }

  function AllAspects(d: Dict<string, PlanetData>): seq<AspectRecord>
  {
    AspectsUpTo(d, |d|)
  }

  // ---------------------------------------------------------------------------
  // _analyze_element_balance, _analyze_modality_balance
  // ---------------------------------------------------------------------------

  function Zeros(n: nat): (z: seq<int>)
    ensures |z| == n && forall i :: 0 <= i < n ==> z[i] == 0
  {
    seq(n, _ => 0)
  }

  /** The counts per group of the planets in `mains` present in `d`, each counted in the first group holding its sign. */
  function GroupCounts(groups: seq<seq<Sign>>, d: Dict<string, PlanetData>, mains: seq<string>): (c: seq<int>)
    ensures |c| == |groups|
  {
    if mains == [] then Zeros(|groups|)
    else
      var c := GroupCounts(groups, d, mains[..|mains| - 1]);
      match Get(d, mains[|mains| - 1])
      case None => c
      case Some(p) =>
        match GroupOf(groups, p.sign, 0)
        case None => c
        case Some(g) => c[g := c[g] + 1]
  }

  /** The counts as a dictionary keyed by group name. */
  function Balance(names: seq<string>, counts: seq<int>): (b: Dict<string, int>)
    requires |names| == |counts|
    ensures |b| == |names| && forall i :: 0 <= i < |b| ==> b[i] == (names[i], counts[i])
  {
    seq(|names|, i requires 0 <= i < |names| => (names[i], counts[i]))
  }

  /** The analysis: the first group with the largest count and the first with the smallest. */
  function AnalysisOf(names: seq<string>, counts: seq<int>): Analysis
    requires |names| == |counts| > 0
  {
    var hi := FirstMax(counts);
    var lo := FirstMin(counts);
    Analysis(Balance(names, counts), names[hi], counts[hi], names[lo], counts[lo])
  }

  function Sum(xs: seq<int>): int
  {
    if xs == [] then 0 else Sum(xs[..|xs| - 1]) + xs[|xs| - 1]
  }

  /** How many of `mains` are keys of `d`. */
  function PresentCount(d: Dict<string, PlanetData>, mains: seq<string>): (n: nat)
    ensures n <= |mains|
  {
    if mains == [] then 0
    else PresentCount(d, mains[..|mains| - 1]) + if HasKey(d, mains[|mains| - 1]) then 1 else 0
  }

  // ---------------------------------------------------------------------------
  // Queries
  // ---------------------------------------------------------------------------

  function Filter<T(!new)>(xs: seq<T>, keep: T -> bool): (r: seq<T>)
    ensures |r| <= |xs|
    ensures forall x :: x in r <==> x in xs && keep(x)
  {
    if xs == [] then []
    else (if keep(xs[0]) then [xs[0]] else []) + Filter(xs[1..], keep)
  }

  predicate Involves(a: AspectRecord, key: string)
  {
    a.planet1 == key || a.planet2 == key
  }

  /** `'sun' in [p1, p2] and 'moon' in [p1, p2]` */
  predicate SunMoon(a: AspectRecord)
  {
    ("sun" == a.planet1 || "sun" == a.planet2) && ("moon" == a.planet1 || "moon" == a.planet2)
  }

  function PlanetsInHouse(d: Dict<string, PlanetData>, n: int): seq<(string, PlanetData)>
  {
    Filter(d, (e: (string, PlanetData)) => e.1.house == Some(n))
  }

  function StrOr(o: Option<string>, default: string): Value
  {
    VStr(o.GetOr(default))
  }

  function IntOr(o: Option<int>, default: int): Value
  {
    VInt(o.GetOr(default))
  }

  /** `planet.get('house', 0)`: 0 for a missing planet and for one without a house. */
  function HouseOf(p: Option<PlanetData>): Value
  {
    VInt(if p.Some? && p.value.house.Some? then p.value.house.value else 0)
  }

  function SignJpOf(p: Option<PlanetData>): Value
  {
    VStr(if p.Some? then p.value.signJp else "")
  }

  function DegreeOf(p: Option<PlanetData>): Value
  {
    VStr(if p.Some? then p.value.degreeFormatted else "")
  }

  function SabianOf(p: Option<PlanetData>): Value
  {
    VInt(if p.Some? then p.value.sabianDegree else 1)
  }

  function RetrogradeOf(p: Option<PlanetData>): Value
  {
    VBool(p.Some? && p.value.retrograde)
  }

  function AngleSign(angles: Dict<string, AngleData>, key: string): Value
  {
    match Get(angles, key)
    case None => VStr("")
    case Some(a) => VStr(a.signJp)
  }

  function AngleDegree(angles: Dict<string, AngleData>, key: string): Value
  {
    match Get(angles, key)
    case None => VStr("")
    case Some(a) => VStr(a.degreeFormatted)
  }

  /** The sun–moon aspect variables: the first such aspect's name and orb, or なし and 0. */
  function SunMoonVariables(aspects: seq<AspectRecord>): (Value, Value)
  {
    var sm := Filter(aspects, SunMoon);
    if sm == [] then (VStr("なし"), VInt(0)) else (VStr(sm[0].aspectJp), VReal(sm[0].orb))
  }

  const StepIds: seq<string> := ["1-A", "1-B", "2-A", "2-B"]

  /** The error `get_variables_for_step("1-A")` raises before the element balance is analysed. */
  const NoElementAnalysis: string := "'AstroCalculator' object has no attribute 'element_analysis'"

  class AstroCalculator {
    const name: string
    const birthPlace: string
    const latitude: real
    const longitude: real
    const timezone: int
    var planetsData: Dict<string, PlanetData>
    var housesData: Dict<int, HouseData>
    var anglesData: Dict<string, AngleData>
    var aspectsData: seq<AspectRecord>
    var elementBalance: Dict<string, int>
    var modalityBalance: Dict<string, int>
    var elementAnalysis: Option<Analysis>
    var modalityAnalysis: Option<Analysis>

    /** `__init__`: the coordinates of the birth place, every result empty. */
    constructor(birthPlace: string, name: string)
      ensures this.name == name && this.birthPlace == birthPlace
      ensures Coordinates(latitude, longitude, timezone) == AstroCoordinates(birthPlace)
      ensures planetsData == [] && housesData == [] && anglesData == [] && aspectsData == []
      ensures elementBalance == [] && modalityBalance == [] && elementAnalysis == None && modalityAnalysis == None
    {
      this.name := name;
      this.birthPlace := birthPlace;
      var c := AstroCoordinates(birthPlace);
      latitude := c.latitude;
      longitude := c.longitude;
      timezone := c.timezone;
      planetsData := [];
      housesData := [];
      anglesData := [];
      aspectsData := [];
      elementBalance := [];
      modalityBalance := [];
      elementAnalysis := None;
      modalityAnalysis := None;
    }

    /** `calculate_all`, given what the ephemeris reports. */
    method CalculateAll(positions: seq<Option<Position>>, h: Option<HouseSystem>)
      requires |positions| == |PlanetTable|
      requires h.Some? ==> |h.value.cusps| == 12
      modifies this
      ensures var st := HousesOutcome(HousesState(WithSouthNode(PlanetsUpTo(old(planetsData), positions, 12)),
                                                  old(housesData), old(anglesData)), h);
        && planetsData == st.planets && housesData == st.houses && anglesData == st.angles
        && aspectsData == old(aspectsData) + AllAspects(st.planets)
        && elementBalance == Balance(ElementNames, GroupCounts(ElementSigns, st.planets, MainPlanets))
        && elementAnalysis == Some(AnalysisOf(ElementNames, GroupCounts(ElementSigns, st.planets, MainPlanets)))
        && modalityBalance == Balance(ModalityNames, GroupCounts(ModalitySigns, st.planets, MainPlanets))
        && modalityAnalysis == Some(AnalysisOf(ModalityNames, GroupCounts(ModalitySigns, st.planets, MainPlanets)))
    {
      PlaceBodies(positions, h);
      ghost var st := HousesState(planetsData, housesData, anglesData);
      AnalyzeChart();
      assert planetsData == st.planets && housesData == st.houses && anglesData == st.angles;
    }

    /** The first half of `calculate_all`: planets, then houses and angles. */
    method PlaceBodies(positions: seq<Option<Position>>, h: Option<HouseSystem>)
      requires |positions| == |PlanetTable|
      requires h.Some? ==> |h.value.cusps| == 12
      modifies this`planetsData, this`housesData, this`anglesData
      ensures HousesState(planetsData, housesData, anglesData)
        == HousesOutcome(HousesState(WithSouthNode(PlanetsUpTo(old(planetsData), positions, 12)),
                                     old(housesData), old(anglesData)), h)
    {
      CalculatePlanets(positions);
      CalculateHouses(h);
    }

    /** The second half of `calculate_all`: aspects, then both balances, all from the placed planets. */
    method AnalyzeChart()
      modifies this`aspectsData, this`elementBalance, this`elementAnalysis, this`modalityBalance, this`modalityAnalysis
      ensures aspectsData == old(aspectsData) + AllAspects(planetsData)
      ensures elementBalance == Balance(ElementNames, GroupCounts(ElementSigns, planetsData, MainPlanets))
      ensures elementAnalysis == Some(AnalysisOf(ElementNames, GroupCounts(ElementSigns, planetsData, MainPlanets)))
      ensures modalityBalance == Balance(ModalityNames, GroupCounts(ModalitySigns, planetsData, MainPlanets))
      ensures modalityAnalysis == Some(AnalysisOf(ModalityNames, GroupCounts(ModalitySigns, planetsData, MainPlanets)))
    {
      CalculateAspects();
      AnalyzeElementBalance();
      AnalyzeModalityBalance();
    }

    /** `_calculate_planets`: one entry per body the ephemeris could place, then the south node. */
    method CalculatePlanets(positions: seq<Option<Position>>)
      requires |positions| == |PlanetTable|
      modifies this`planetsData
      ensures planetsData == WithSouthNode(PlanetsUpTo(old(planetsData), positions, 12))
    {
      RecordPlanets(positions);
      var nn := Get(planetsData, "north_node");
      if nn.Some? {
        var sn := ComputeSouthNode(nn.value.longitude);
        planetsData := Put(planetsData, "south_node", sn);
      }
    }

    /** The `for planet_key, planet_info in PLANETS.items()` loop of `_calculate_planets`. */
    method RecordPlanets(positions: seq<Option<Position>>)
      requires |positions| == |PlanetTable|
      modifies this`planetsData
      ensures planetsData == PlanetsUpTo(old(planetsData), positions, 12)
    {
      for k := 0 to |PlanetTable|
        invariant planetsData == PlanetsUpTo(old(planetsData), positions, k)
      {
        var info := Nth(PlanetTable, k);
        BodiesUpToNext(PlanetTable, PlanetEntry, old(planetsData), positions, k);
        if positions[k].Some? {
          var entry := ComputePlanet(info, positions[k].value);
          if entry.Some? {
            planetsData := Put(planetsData, info.key, entry.value);
          }
        }
      }
    }

    /** `_calculate_houses`, with `_assign_planets_to_houses` at its end. */
    method CalculateHouses(h: Option<HouseSystem>)
      requires h.Some? ==> |h.value.cusps| == 12
      modifies this`planetsData, this`housesData, this`anglesData
      ensures HousesState(planetsData, housesData, anglesData)
        == HousesOutcome(HousesState(old(planetsData), old(housesData), old(anglesData)), h)
    {
      if h.None? {
        return;
      }
      var hs := h.value;
      var raised := RecordCusps(hs.cusps);
      if raised {
        return;
      }
      raised := RecordAngles(hs);
      if raised {
        return;
      }
      AssignPlanetsToHouses(hs.cusps);
    }

    /** The cusp loop of `_calculate_houses`; `raised` tells whether a cusp had no sign. */
    method RecordCusps(cusps: seq<real>) returns (raised: bool)
      modifies this`housesData
      ensures (housesData, raised) == CuspsFrom(HouseAt, old(housesData), cusps, 0)
    {
      for i := 0 to |cusps|
        invariant CuspsFrom(HouseAt, housesData, cusps, i) == CuspsFrom(HouseAt, old(housesData), cusps, 0)
      {
        var sd := LongitudeToSign(cusps[i]);
        if sd.Failure? {
          return true;
        }
        housesData := Put(housesData, i + 1, HouseEntry(cusps[i], sd.value));
      }
      return false;
    }

    /** The angle loop of `_calculate_houses`; `raised` tells whether an angle had no sign. */
    method RecordAngles(hs: HouseSystem) returns (raised: bool)
      modifies this`anglesData
      ensures (anglesData, raised) == AnglesFrom(AngleTable, AngleAt, old(anglesData), AngleLongitudes(hs), 0)
    {
      var ic := NormalizeDegree(hs.mc + 180.0);
      var dc := NormalizeDegree(hs.asc + 180.0);
      var ls := [hs.asc, hs.mc, ic, dc];
      assert ls == AngleLongitudes(hs);
      for a := 0 to 4
        invariant AnglesFrom(AngleTable, AngleAt, anglesData, ls, a) == AnglesFrom(AngleTable, AngleAt, old(anglesData), ls, 0)
      {
        var sd := LongitudeToSign(ls[a]);
        if sd.Failure? {
          return true;
        }
        anglesData := Put(anglesData, AngleTable[a].key, AngleEntry(AngleTable[a], ls[a], sd.value));
      }
      return false;
    }

    /** `_assign_planets_to_houses`: each planet gets the house its longitude falls in. */
    method AssignPlanetsToHouses(cusps: seq<real>)
      requires |cusps| == 12
      modifies this`planetsData
      ensures planetsData == AssignHouses(old(planetsData), cusps)
    {
      ghost var d := planetsData;
      for k := 0 to |planetsData|
        invariant |planetsData| == |d|
        invariant forall i :: 0 <= i < k ==> planetsData[i] == AssignHouses(d, cusps)[i]
        invariant forall i :: k <= i < |d| ==> planetsData[i] == d[i]
      {
        var house := HouseOfLongitude(cusps, planetsData[k].1.longitude);
        planetsData := planetsData[k := (planetsData[k].0, planetsData[k].1.(house := Some(house)))];
      }
    }

    /** `_calculate_aspects`: every pair i < j, at most one aspect each, appended in loop order. */
    method CalculateAspects()
      modifies this`aspectsData
      ensures aspectsData == old(aspectsData) + AllAspects(planetsData)
    {
      var d := planetsData;
      for i := 0 to |d|
        invariant aspectsData == old(aspectsData) + AspectsUpTo(d, i)
      {
        var row := AspectRow(d, i);
        aspectsData := aspectsData + row;
      }
    }

    /** `_analyze_element_balance` */
    method AnalyzeElementBalance()
      modifies this`elementBalance, this`elementAnalysis
      ensures elementBalance == Balance(ElementNames, GroupCounts(ElementSigns, planetsData, MainPlanets))
      ensures elementAnalysis == Some(AnalysisOf(ElementNames, GroupCounts(ElementSigns, planetsData, MainPlanets)))
    {
      var counts := CountGroups(ElementSigns, planetsData);
      elementBalance := Balance(ElementNames, counts);
      elementAnalysis := Some(AnalysisOf(ElementNames, counts));
    }

    /** `_analyze_modality_balance` */
    method AnalyzeModalityBalance()
      modifies this`modalityBalance, this`modalityAnalysis
      ensures modalityBalance == Balance(ModalityNames, GroupCounts(ModalitySigns, planetsData, MainPlanets))
      ensures modalityAnalysis == Some(AnalysisOf(ModalityNames, GroupCounts(ModalitySigns, planetsData, MainPlanets)))
    {
      var counts := CountGroups(ModalitySigns, planetsData);
      modalityBalance := Balance(ModalityNames, counts);
      modalityAnalysis := Some(AnalysisOf(ModalityNames, counts));
    }

    /** `get_planet_in_house`: the entries whose house is `n`, in dictionary order. */
    method GetPlanetInHouse(n: int) returns (r: seq<(string, PlanetData)>)
      ensures r == PlanetsInHouse(planetsData, n)
    {
      r := [];
      var k := |planetsData|;
      while k > 0
        invariant 0 <= k <= |planetsData|
        invariant r == PlanetsInHouse(planetsData[k..], n)
      {
        k := k - 1;
        assert planetsData[k..][1..] == planetsData[k + 1..];
        if planetsData[k].1.house == Some(n) {
          r := [planetsData[k]] + r;
        }
      }
    }

    /** `get_aspects_for_planet`: the recorded aspects involving `key`, in order. */
    function GetAspectsForPlanet(key: string): (r: seq<AspectRecord>)
      reads this
      ensures forall a :: a in r <==> a in aspectsData && Involves(a, key)
    {
      Filter(aspectsData, (a: AspectRecord) => Involves(a, key))
    }

    /** `get_variables_for_step` */
    function GetVariablesForStep(stepId: string): (r: Result<VarBag, string>)
      reads this
      ensures r.Failure? <==> stepId == "1-A" && elementAnalysis.None?
      ensures stepId !in StepIds ==> r == Success([])
    {
      if stepId == "1-A" then
        match elementAnalysis
        case None => Failure(NoElementAnalysis)
        case Some(an) => Success(ElementVariables(elementBalance, an))
      else if stepId == "1-B" then Success(ModalityVariables(modalityBalance, anglesData))
      else if stepId == "2-A" then Success(LuminaryVariables(planetsData, aspectsData))
      else if stepId == "2-B" then Success(PersonalPlanetVariables(planetsData))
      else Success([])
    }
  }

  /** The variables of step "1-A": the element counts and the dominant and lacking elements. */
  function ElementVariables(balance: Dict<string, int>, an: Analysis): VarBag
  {
    [("fire_count", IntOr(Get(balance, "fire"), 0)),
     ("earth_count", IntOr(Get(balance, "earth"), 0)),
     ("air_count", IntOr(Get(balance, "air"), 0)),
     ("water_count", IntOr(Get(balance, "water"), 0)),
     ("dominant_element", VStr(an.dominant)),
     ("lacking_element", VStr(an.lacking))]
  }

  /** The variables of step "1-B": the modality counts and the four angles. */
  function ModalityVariables(balance: Dict<string, int>, angles: Dict<string, AngleData>): VarBag
  {
    [("cardinal_count", IntOr(Get(balance, "cardinal"), 0)),
     ("fixed_count", IntOr(Get(balance, "fixed"), 0)),
     ("mutable_count", IntOr(Get(balance, "mutable"), 0)),
     ("asc_sign", AngleSign(angles, "asc")),
     ("mc_sign", AngleSign(angles, "mc")),
     ("ic_sign", AngleSign(angles, "ic")),
     ("dc_sign", AngleSign(angles, "dc")),
     ("asc_degree", AngleDegree(angles, "asc")),
     ("mc_degree", AngleDegree(angles, "mc"))]
  }

  /** The variables of step "2-A": the sun, the moon and their first aspect. */
  function LuminaryVariables(planets: Dict<string, PlanetData>, aspects: seq<AspectRecord>): VarBag
  {
    var sun := Get(planets, "sun");
    var moon := Get(planets, "moon");
    var sm := SunMoonVariables(aspects);
    [("sun_sign", SignJpOf(sun)), ("sun_house", HouseOf(sun)), ("sun_degree", DegreeOf(sun)),
     ("sun_sabian_degree", SabianOf(sun)), ("sun_sabian_symbol", VStr("")),
     ("moon_sign", SignJpOf(moon)), ("moon_house", HouseOf(moon)), ("moon_degree", DegreeOf(moon)),
     ("moon_sabian_degree", SabianOf(moon)), ("moon_sabian_symbol", VStr("")),
     ("sun_moon_aspect", sm.0), ("sun_moon_aspect_orb", sm.1)]
  }

  /** The variables of step "2-B": mercury, venus and mars. */
  function PersonalPlanetVariables(planets: Dict<string, PlanetData>): VarBag
  {
    var mercury := Get(planets, "mercury");
    var venus := Get(planets, "venus");
    var mars := Get(planets, "mars");
    [("mercury_sign", SignJpOf(mercury)), ("mercury_house", HouseOf(mercury)),
     ("mercury_sabian_symbol", VStr("")), ("mercury_retrograde", RetrogradeOf(mercury)),
     ("venus_sign", SignJpOf(venus)), ("venus_house", HouseOf(venus)),
     ("venus_sabian_symbol", VStr("")), ("venus_retrograde", RetrogradeOf(venus)),
     ("mars_sign", SignJpOf(mars)), ("mars_house", HouseOf(mars)),
     ("mars_sabian_symbol", VStr("")), ("mars_retrograde", RetrogradeOf(mars))]
  }

  // ---------------------------------------------------------------------------
  // The loops inside the methods
  // ---------------------------------------------------------------------------

  /**
   * A pair has an aspect exactly when the angle between them is within some
   * aspect's orb; the aspect is the first such in table order and the
   * recorded orb is the distance from its exact angle.
   */
  lemma PairAspectFacts(d: Dict<string, PlanetData>, i: nat, j: nat)
    requires i < |d| && j < |d|
    ensures var r := PairAspect(d, i, j);
      var angle := AspectAngle(d[i].1.longitude, d[j].1.longitude);
      && (r.None? <==> forall a :: 0 <= a < |AspectTable| ==> !Within(angle, AspectTable[a]))
      && (r.Some? ==>
            exists a :: && 0 <= a < |AspectTable| && Within(angle, AspectTable[a])
                        && (forall b :: 0 <= b < a ==> !Within(angle, AspectTable[b]))
                        && r.value == AspectRecord(d[i].0, d[i].1.nameJp, d[j].0, d[j].1.nameJp, AspectTable[a].name,
                                                   AspectTable[a].nameJp, AspectTable[a].symbol, angle,
                                                   Abs(angle - AspectTable[a].degree), AspectTable[a].degree))
  {
    FirstAspectFromSpec(AspectAngle(d[i].1.longitude, d[j].1.longitude), 0);
  }

  /** The body of the `_calculate_planets` loop for one placed body; `None` is the skipped `longitude_to_sign` error. */
  method ComputePlanet(info: PlanetInfo, pos: Position) returns (entry: Option<PlanetData>)
    ensures entry == PlanetEntry(info, pos)
  {
    var sd := LongitudeToSign(pos.longitude);
    if sd.Failure? {
      return None;
    }
    var sign := sd.value.0;
    var degree := sd.value.1;
    var retrograde := if info.key !in NeverRetrograde then pos.speed < 0.0 else false;
    entry := Some(PlanetData(info.nameJp, info.nameEn, pos.longitude, pos.latitude, sign, SignJp(sign), SignEn(sign),
                             degree, DegreeFormatted(degree), SabianDegree(degree), retrograde, pos.speed, None));
  }

  /** The south node entry of `_calculate_planets`, opposite the north node's longitude. */
  method ComputeSouthNode(northLongitude: real) returns (entry: PlanetData)
    ensures entry == SouthNode(northLongitude)
  {
    var sn := NormalizeDegree(northLongitude + 180.0);
    NormalizedRange(northLongitude + 180.0);
    LongitudeToSignInRange(sn);
    var sd := LongitudeToSign(sn);
    var sign := sd.value.0;
    var degree := sd.value.1;
    entry := PlanetData("ドラゴンテイル", "South Node", sn, 0.0, sign, SignJp(sign), SignEn(sign),
                        degree, DegreeFormatted(degree), SabianDegree(degree), false, 0.0, None);
  }

  /** The inner loop of `_assign_planets_to_houses`, with its `break`. */
  method HouseOfLongitude(cusps: seq<real>, l: real) returns (house: int)
    requires |cusps| == 12
    ensures house == House(cusps, l)
  {
    house := 12;
    for i := 0 to 12
      invariant forall j :: 0 <= j < i ==> !InHouse(cusps, j, l)
    {
      var current := cusps[i];
      var next := cusps[(i + 1) % 12];
      if next < current {
        if l >= current || l < next {
          house := i + 1;
          HouseFromFirst(cusps, l, i);
          return;
        }
      } else if current <= l < next {
        house := i + 1;
        HouseFromFirst(cusps, l, i);
        return;
      }
    }
  }

  /** The inner loop of `_calculate_aspects`: entry i against every later entry. */
  method AspectRow(d: Dict<string, PlanetData>, i: nat) returns (row: seq<AspectRecord>)
    requires i < |d|
    ensures row == RowUpTo(d, i, |d|)
  {
    row := [];
    for j := i + 1 to |d|
      invariant row == RowUpTo(d, i, j)
    {
      var angle := AspectAngle(d[i].1.longitude, d[j].1.longitude);
      var found := FirstAspectOf(angle);
      assert RowUpTo(d, i, j + 1) == RowUpTo(d, i, j) + OptionSeq(PairAspect(d, i, j));
      if found.Some? {
        var a := AspectTable[found.value];
        row := row + [AspectRecord(d[i].0, d[i].1.nameJp, d[j].0, d[j].1.nameJp, a.name, a.nameJp, a.symbol,
                                   angle, Abs(angle - a.degree), a.degree)];
      }
    }
  }

  /** The `for aspect_name, aspect_info in ASPECTS.items()` loop with its `break`. */
  method FirstAspectOf(angle: real) returns (r: Option<nat>)
    ensures r == FirstAspect(angle)
  {
    for a := 0 to |AspectTable|
      invariant FirstAspectFrom(angle, a) == FirstAspect(angle)
    {
      var diff := Abs(angle - AspectTable[a].degree);
      if diff <= AspectTable[a].orb {
        return Some(a);
      }
    }
    return None;
  }

  /** The counting loops of the balance analyses: each main planet present adds one to its first group. */
  method CountGroups(groups: seq<seq<Sign>>, d: Dict<string, PlanetData>) returns (counts: seq<int>)
    ensures counts == GroupCounts(groups, d, MainPlanets)
  {
    counts := Zeros(|groups|);
    for m := 0 to |MainPlanets|
      invariant counts == GroupCounts(groups, d, MainPlanets[..m])
    {
      assert MainPlanets[..m + 1][..m] == MainPlanets[..m];
      var p := Get(d, MainPlanets[m]);
      if p.Some? {
        var g := 0;
        while g < |groups| && p.value.sign !in groups[g]
          invariant 0 <= g <= |groups|
          invariant forall j :: 0 <= j < g ==> p.value.sign !in groups[j]
        {
          g := g + 1;
        }
        GroupOfFirst(groups, p.value.sign, g);
        if g < |groups| {
          counts := counts[g := counts[g] + 1];
        }
      }
    }
    assert MainPlanets[..|MainPlanets|] == MainPlanets;
  }

  /** The first cusp interval containing `l` is the house `HouseFrom` picks. */
  lemma HouseFromFirst(cusps: seq<real>, l: real, i: nat)
    requires |cusps| == 12 && i < 12 && InHouse(cusps, i, l)
    requires forall j :: 0 <= j < i ==> !InHouse(cusps, j, l)
    ensures House(cusps, l) == i + 1
  {
  }
}
