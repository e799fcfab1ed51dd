/**
 * What the chart calculator's results satisfy: which bodies end up in
 * `planets_data`, the south node's opposition to the north node, which
 * houses and angles are recorded, the aspect list, and the balances.
 */
module AstroFacts {
  import opened Wrappers
  import opened Dicts
  import opened Values
  import opened Chart
  import opened AstroCalc

  // ---------------------------------------------------------------------------
  // Planets
  // ---------------------------------------------------------------------------

  /** No two bodies of `table` share a key. */
  predicate DistinctKeys(table: seq<PlanetInfo>)
  {
    forall i, j :: 0 <= i < j < |table| ==> table[i].key != table[j].key
  }

  /** The twelve keys of `PLANETS` are distinct, and none of them is "south_node". */
  lemma PlanetKeysDistinct()
    ensures DistinctKeys(PlanetTable)
    ensures forall i :: 0 <= i < |PlanetTable| ==> PlanetTable[i].key != "south_node"
  {
  }

  /** The entry the loop computes for body m, if the ephemeris placed it and it has a sign. */
  function Placed(table: seq<PlanetInfo>, entry: (PlanetInfo, Position) -> Option<PlanetData>,
                  positions: seq<Option<Position>>, m: nat): Option<PlanetData>
    requires m < |table| == |positions|
  {
    match positions[m]
    case None => None
    case Some(pos) => entry(table[m], pos)
  }

  /**
   * After the first `k` bodies of a table with distinct keys, body m's entry
   * is the one computed from its position when m < k and the ephemeris placed
   * it with a sign; otherwise it is whatever the dictionary held before.
   */
  lemma {:induction false} BodiesUpToGet(table: seq<PlanetInfo>, entry: (PlanetInfo, Position) -> Option<PlanetData>,
                                         d: Dict<string, PlanetData>, positions: seq<Option<Position>>, k: nat, m: nat)
    requires k <= |table| == |positions| && m < |table| && DistinctKeys(table)
    ensures Get(BodiesUpTo(table, entry, d, positions, k), table[m].key)
      == if m < k && Placed(table, entry, positions, m).Some? then Placed(table, entry, positions, m)
         else Get(d, table[m].key)
  {
    if k > 0 {
      BodiesUpToGet(table, entry, d, positions, k - 1, m);
      BodiesUpToGetStep(table, entry, d, positions, k, m);
    }
  }

  /** One step of `BodiesUpToGet`: placing body `k - 1` changes only its own key. */
  lemma BodiesUpToGetStep(table: seq<PlanetInfo>, entry: (PlanetInfo, Position) -> Option<PlanetData>,
                          d: Dict<string, PlanetData>, positions: seq<Option<Position>>, k: nat, m: nat)
    requires 0 < k <= |table| == |positions| && m < |table| && DistinctKeys(table)
    requires Get(BodiesUpTo(table, entry, d, positions, k - 1), table[m].key)
      == if m < k - 1 && Placed(table, entry, positions, m).Some? then Placed(table, entry, positions, m)
         else Get(d, table[m].key)
    ensures Get(BodiesUpTo(table, entry, d, positions, k), table[m].key)
      == if m < k && Placed(table, entry, positions, m).Some? then Placed(table, entry, positions, m)
         else Get(d, table[m].key)
  {
    var before := BodiesUpTo(table, entry, d, positions, k - 1);
    var key := table[m].key;
    var p := Placed(table, entry, positions, m);
    var want := if m < k && p.Some? then p else Get(d, key);
    NthIndex(table, k - 1);
    BodiesUpToNext(table, entry, d, positions, k - 1);
    var last := Placed(table, entry, positions, k - 1);
    if last.Some? {
      assert BodiesUpTo(table, entry, d, positions, k) == Put(before, table[k - 1].key, last.value);
      if m != k - 1 {
        assert table[k - 1].key != key;
        PutOther(before, table[k - 1].key, last.value, key);
        assert Get(before, key) == want;
      } else {
        assert last == want;
      }
    } else {
      assert BodiesUpTo(table, entry, d, positions, k) == before;
      assert Get(before, key) == want;
    }
  }

  /**
   * Once every body of `PLANETS` has been tried, body m's entry is the one
   * computed from its position when the ephemeris placed it with a sign, and
   * otherwise whatever the dictionary held before.
   */
  lemma PlanetsUpToGet(d: Dict<string, PlanetData>, positions: seq<Option<Position>>, m: nat)
    requires |positions| == |PlanetTable| && m < |PlanetTable|
    ensures Get(PlanetsUpTo(d, positions, 12), PlanetTable[m].key)
      == if Placed(PlanetTable, PlanetEntry, positions, m).Some? then Placed(PlanetTable, PlanetEntry, positions, m)
         else Get(d, PlanetTable[m].key)
  {
    PlanetKeysDistinct();
    BodiesUpToGet(PlanetTable, PlanetEntry, d, positions, 12, m);
  }

  /**
   * A body gets an entry exactly when its longitude has a sign; the entry
   * keeps its names and position, carries the sign and degree
   * `longitude_to_sign` computes, has no house yet, and is retrograde only for
   * negative speed of a body other than the sun, the moon and the north node.
   */
  lemma PlanetEntryFacts(info: PlanetInfo, pos: Position)
    ensures var e := PlanetEntry(info, pos);
      && (e.None? <==> pos.longitude < -360.0 || pos.longitude >= 360.0)
      && (e.Some? ==>
            && e.value.nameJp == info.nameJp && e.value.nameEn == info.nameEn
            && e.value.longitude == pos.longitude && e.value.latitude == pos.latitude && e.value.speed == pos.speed
            && (e.value.sign, e.value.degree) == LongitudeToSign(pos.longitude).value
            && e.value.signJp == SignJp(e.value.sign)
            && 1 <= e.value.sabianDegree <= 30
            && e.value.house == None
            && (e.value.retrograde <==> info.key !in NeverRetrograde && pos.speed < 0.0))
  {
    LongitudeToSignFails(pos.longitude);
    var sd := LongitudeToSign(pos.longitude);
    if sd.Success? {
      SabianDegreeRange(sd.value.1);
    }
  }

  /**
   * The south node lies exactly opposite the north node: 180 degrees away,
   * in [0, 360), never retrograde, and its angle to the north node makes an
   * opposition.
   */
  lemma SouthNodeOpposite(northLongitude: real)
    requires 0.0 <= northLongitude < 360.0
    ensures var sn := SouthNode(northLongitude);
      && 0.0 <= sn.longitude < 360.0
      && (sn.longitude == northLongitude + 180.0 || sn.longitude == northLongitude - 180.0)
      && !sn.retrograde
      && AspectAngle(northLongitude, sn.longitude) == 180.0
      && FirstAspect(AspectAngle(northLongitude, sn.longitude)) == Some(1)
  {
    var x := northLongitude + 180.0;
    if x < 360.0 {
      NormalizedUnique(x, 0);
    } else {
      NormalizedUnique(x, -1);
    }
  }

  /** The south node is added exactly when the north node was placed; nothing else changes. */
  lemma WithSouthNodeGet(d: Dict<string, PlanetData>, key: string)
    ensures Get(WithSouthNode(d), key)
      == if key == "south_node" && Get(d, "north_node").Some? then Some(SouthNode(Get(d, "north_node").value.longitude))
         else Get(d, key)
  {
    if key != "south_node" && Get(d, "north_node").Some? {
      PutOther(d, "south_node", SouthNode(Get(d, "north_node").value.longitude), key);
    }
  }

  // ---------------------------------------------------------------------------
  // Houses and angles
  // ---------------------------------------------------------------------------

  /** The longitudes `longitude_to_sign` accepts; it raises on any other. */
  predicate HasSign(l: real)
  {
    -360.0 <= l < 360.0
  }

  /** `longitude_to_sign` raises on a cusp exactly when it has no sign; otherwise the entry keeps the cusp. */
  lemma HouseAtFacts(l: real)
    ensures HouseAt(l).None? <==> !HasSign(l)
    ensures HouseAt(l).Some? ==>
      HouseAt(l).value.cuspLongitude == l && (HouseAt(l).value.sign, HouseAt(l).value.degree) == LongitudeToSign(l).value
  {
    LongitudeToSignFails(l);
  }

  /** The cusp loop raises exactly when some cusp from position `i` on gives no entry. */
  lemma {:induction false} CuspsFromRaised(houseAt: real -> Option<HouseData>, d: Dict<int, HouseData>,
                                           cusps: seq<real>, i: nat)
    requires i <= |cusps|
    ensures CuspsFrom(houseAt, d, cusps, i).1 <==> exists j :: i <= j < |cusps| && houseAt(cusps[j]).None?
    decreases |cusps| - i
  {
    if i < |cusps| {
      var e := houseAt(cusps[i]);
      if e.Some? {
        CuspsFromRaised(houseAt, Put(d, i + 1, e.value), cusps, i + 1);
        if j :| i <= j < |cusps| && houseAt(cusps[j]).None? {
          assert i + 1 <= j;
        }
      }
    }
  }

  /** The cusp loop touches only house numbers i + 1 .. |cusps|. */
  lemma {:induction false} CuspsFromFrame(houseAt: real -> Option<HouseData>, d: Dict<int, HouseData>,
                                          cusps: seq<real>, i: nat, n: int)
    requires i <= |cusps| && (n <= i || n > |cusps|)
    ensures Get(CuspsFrom(houseAt, d, cusps, i).0, n) == Get(d, n)
    decreases |cusps| - i
  {
    if i < |cusps| {
      var e := houseAt(cusps[i]);
      if e.Some? {
        CuspsFromFrame(houseAt, Put(d, i + 1, e.value), cusps, i + 1, n);
        PutOther(d, i + 1, e.value, n);
      }
    }
  }

  /** When the cusp loop does not raise, house j + 1 holds cusp j's entry for every j from `i` on. */
  lemma {:induction false} CuspsFromRecorded(houseAt: real -> Option<HouseData>, d: Dict<int, HouseData>,
                                             cusps: seq<real>, i: nat, j: nat)
    requires i <= j < |cusps| && !CuspsFrom(houseAt, d, cusps, i).1
    ensures houseAt(cusps[j]).Some? && Get(CuspsFrom(houseAt, d, cusps, i).0, j + 1) == houseAt(cusps[j])
    decreases |cusps| - i
  {
    var e := houseAt(cusps[i]).value;
    var d' := Put(d, i + 1, e);
    if j > i {
      CuspsFromRecorded(houseAt, d', cusps, i + 1, j);
    } else {
      CuspsFromFrame(houseAt, d', cusps, i + 1, i + 1);
    }
  }

  /**
   * The cusp loop of `_calculate_houses` raises exactly when some cusp lies
   * outside [-360, 360); when none does, every house is recorded, house n
   * from cusp n - 1.
   */
  lemma HousesRecorded(d: Dict<int, HouseData>, cusps: seq<real>)
    ensures CuspsFrom(HouseAt, d, cusps, 0).1 <==> exists j :: 0 <= j < |cusps| && !HasSign(cusps[j])
    ensures !CuspsFrom(HouseAt, d, cusps, 0).1 ==>
      forall n :: 1 <= n <= |cusps| ==>
        && Get(CuspsFrom(HouseAt, d, cusps, 0).0, n).Some?
        && Get(CuspsFrom(HouseAt, d, cusps, 0).0, n).value.cuspLongitude == cusps[n - 1]
  {
    forall j | 0 <= j < |cusps| ensures HouseAt(cusps[j]).None? <==> !HasSign(cusps[j]) {
      HouseAtFacts(cusps[j]);
    }
    CuspsFromRaised(HouseAt, d, cusps, 0);
    var r := CuspsFrom(HouseAt, d, cusps, 0);
    if !r.1 {
      forall n | 1 <= n <= |cusps|
        ensures Get(r.0, n).Some? && Get(r.0, n).value.cuspLongitude == cusps[n - 1]
      {
        CuspsFromRecorded(HouseAt, d, cusps, 0, n - 1);
        HouseAtFacts(cusps[n - 1]);
      }
    }
  }

  /** `longitude_to_sign` raises on an angle exactly when it has no sign; otherwise the entry keeps its names and longitude. */
  lemma AngleAtFacts(info: AngleInfo, l: real)
    ensures AngleAt(info, l).None? <==> !HasSign(l)
    ensures AngleAt(info, l).Some? ==>
      var e := AngleAt(info, l).value;
      e.nameJp == info.nameJp && e.nameEn == info.nameEn && e.longitude == l
      && (e.sign, e.degree) == LongitudeToSign(l).value
  {
    LongitudeToSignFails(l);
  }

  /** The four angle keys are distinct. */
  lemma AngleKeysDistinct()
    ensures forall i, j :: 0 <= i < j < |AngleTable| ==> AngleTable[i].key != AngleTable[j].key
  {
  }

  /** The angle loop raises exactly when some angle from `a` on gives no entry. */
  lemma {:induction false} AnglesFromRaised(table: seq<AngleInfo>, angleAt: (AngleInfo, real) -> Option<AngleData>,
                                            d: Dict<string, AngleData>, ls: seq<real>, a: nat)
    requires a <= |ls| == |table|
    ensures AnglesFrom(table, angleAt, d, ls, a).1 <==> exists j :: a <= j < |ls| && angleAt(table[j], ls[j]).None?
    decreases |ls| - a
  {
    if a < |ls| {
      var e := angleAt(table[a], ls[a]);
      if e.Some? {
        AnglesFromRaised(table, angleAt, Put(d, table[a].key, e.value), ls, a + 1);
        if j :| a <= j < |ls| && angleAt(table[j], ls[j]).None? {
          assert a + 1 <= j;
        }
      }
    }
  }

  /** The angle loop from `a` on touches only the keys of angles a and later. */
  lemma {:induction false} AnglesFromFrame(table: seq<AngleInfo>, angleAt: (AngleInfo, real) -> Option<AngleData>,
                                           d: Dict<string, AngleData>, ls: seq<real>, a: nat, j: nat)
    requires a <= |ls| == |table| && j < a
    requires forall x, y :: 0 <= x < y < |table| ==> table[x].key != table[y].key
    ensures Get(AnglesFrom(table, angleAt, d, ls, a).0, table[j].key) == Get(d, table[j].key)
    decreases |ls| - a
  {
    if a < |ls| {
      var e := angleAt(table[a], ls[a]);
      if e.Some? {
        assert AnglesFrom(table, angleAt, d, ls, a) == AnglesFrom(table, angleAt, Put(d, table[a].key, e.value), ls, a + 1);
        AnglesFromFrame(table, angleAt, Put(d, table[a].key, e.value), ls, a + 1, j);
        assert table[j].key != table[a].key;
        PutOther(d, table[a].key, e.value, table[j].key);
      }
    }
  }

  /** When the angle loop does not raise, every angle from `a` on is recorded under its key. */
  lemma {:induction false} AnglesFromRecorded(table: seq<AngleInfo>, angleAt: (AngleInfo, real) -> Option<AngleData>,
                                              d: Dict<string, AngleData>, ls: seq<real>, a: nat, j: nat)
    requires a <= j < |ls| == |table| && !AnglesFrom(table, angleAt, d, ls, a).1
    requires forall x, y :: 0 <= x < y < |table| ==> table[x].key != table[y].key
    ensures angleAt(table[j], ls[j]).Some?
    ensures Get(AnglesFrom(table, angleAt, d, ls, a).0, table[j].key) == angleAt(table[j], ls[j])
    decreases |ls| - a
  {
    var e := angleAt(table[a], ls[a]).value;
    var d' := Put(d, table[a].key, e);
    if j > a {
      AnglesFromRecorded(table, angleAt, d', ls, a + 1, j);
    } else {
      AnglesFromFrame(table, angleAt, d', ls, a + 1, a);
    }
  }

  /**
   * The imum coeli and descendant are normalised, so they always have a sign:
   * the angle loop raises exactly when the ascendant or the midheaven lies
   * outside [-360, 360).  When it does not, each of the four angles is
   * recorded under its key with its own longitude.
   */
  lemma AnglesRaise(d: Dict<string, AngleData>, hs: HouseSystem)
    ensures AnglesFrom(AngleTable, AngleAt, d, AngleLongitudes(hs), 0).1 <==> !HasSign(hs.asc) || !HasSign(hs.mc)
    ensures !AnglesFrom(AngleTable, AngleAt, d, AngleLongitudes(hs), 0).1 ==>
      forall j :: 0 <= j < 4 ==>
        var e := Get(AnglesFrom(AngleTable, AngleAt, d, AngleLongitudes(hs), 0).0, AngleTable[j].key);
        e.Some? && e.value.longitude == AngleLongitudes(hs)[j] && e.value.nameEn == AngleTable[j].nameEn
  {
    var ls := AngleLongitudes(hs);
    NormalizedRange(hs.mc + 180.0);
    NormalizedRange(hs.asc + 180.0);
    forall j | 0 <= j < 4 ensures AngleAt(AngleTable[j], ls[j]).None? <==> !HasSign(ls[j]) {
      AngleAtFacts(AngleTable[j], ls[j]);
    }
    assert HasSign(ls[2]) && HasSign(ls[3]);
    AnglesFromRaised(AngleTable, AngleAt, d, ls, 0);
    var r := AnglesFrom(AngleTable, AngleAt, d, ls, 0);
    if !r.1 {
      AngleKeysDistinct();
      forall j | 0 <= j < 4
        ensures Get(r.0, AngleTable[j].key).Some? && Get(r.0, AngleTable[j].key).value.longitude == ls[j]
          && Get(r.0, AngleTable[j].key).value.nameEn == AngleTable[j].nameEn
      {
        AnglesFromRecorded(AngleTable, AngleAt, d, ls, 0, j);
        AngleAtFacts(AngleTable[j], ls[j]);
      }
    }
  }

  /** When `swe.houses` succeeds with cusps, ascendant and midheaven in the usual [0, 360), every planet gets a house. */
  lemma EveryPlanetHoused(st: HousesState, hs: HouseSystem)
    requires |hs.cusps| == 12 && forall j :: 0 <= j < 12 ==> 0.0 <= hs.cusps[j] < 360.0
    requires 0.0 <= hs.asc < 360.0 && 0.0 <= hs.mc < 360.0
    ensures var r := HousesOutcome(st, Some(hs));
      && |r.planets| == |st.planets|
      && forall i :: 0 <= i < |r.planets| ==>
           r.planets[i].0 == st.planets[i].0 && r.planets[i].1 == st.planets[i].1.(house := r.planets[i].1.house)
           && r.planets[i].1.house.Some? && 1 <= r.planets[i].1.house.value <= 12
  {
    HousesRecorded(st.houses, hs.cusps);
    AnglesRaise(st.angles, hs);
  }

  // ---------------------------------------------------------------------------
  // Every entry names its sign consistently
  // ---------------------------------------------------------------------------

  /** Every entry's Japanese and English sign names are those of its sign. */
  predicate SignNamesAgree(d: Dict<string, PlanetData>)
  {
    forall e :: e in d ==> e.1.signJp == SignJp(e.1.sign) && e.1.signEn == SignEn(e.1.sign)
  }

  /** Assigning an entry whose names agree keeps every entry's names agreeing. */
  lemma PutSignNamesAgree(d: Dict<string, PlanetData>, key: string, p: PlanetData)
    requires SignNamesAgree(d) && p.signJp == SignJp(p.sign) && p.signEn == SignEn(p.sign)
    ensures SignNamesAgree(Put(d, key, p))
  {
    PutEntries(d, key, p);
  }

  /** The entries of a placed dictionary agree with their signs when `entry` only produces such entries. */
  lemma {:induction false} BodiesUpToAgree(table: seq<PlanetInfo>, entry: (PlanetInfo, Position) -> Option<PlanetData>,
                                           d: Dict<string, PlanetData>, positions: seq<Option<Position>>, k: nat)
    requires k <= |table| == |positions| && SignNamesAgree(d)
    requires forall info, pos :: entry(info, pos).Some? ==>
      entry(info, pos).value.signJp == SignJp(entry(info, pos).value.sign)
      && entry(info, pos).value.signEn == SignEn(entry(info, pos).value.sign)
    ensures SignNamesAgree(BodiesUpTo(table, entry, d, positions, k))
  {
    if k > 0 {
      BodiesUpToAgree(table, entry, d, positions, k - 1);
      BodiesUpToAgreeStep(table, entry, d, positions, k);
    }
  }

  lemma BodiesUpToAgreeStep(table: seq<PlanetInfo>, entry: (PlanetInfo, Position) -> Option<PlanetData>,
                            d: Dict<string, PlanetData>, positions: seq<Option<Position>>, k: nat)
    requires 0 < k <= |table| == |positions| && SignNamesAgree(BodiesUpTo(table, entry, d, positions, k - 1))
    requires forall info, pos :: entry(info, pos).Some? ==>
      entry(info, pos).value.signJp == SignJp(entry(info, pos).value.sign)
      && entry(info, pos).value.signEn == SignEn(entry(info, pos).value.sign)
    ensures SignNamesAgree(BodiesUpTo(table, entry, d, positions, k))
  {
    BodiesUpToNext(table, entry, d, positions, k - 1);
    var info := Nth(table, k - 1);
    if positions[k - 1].Some? && entry(info, positions[k - 1].value).Some? {
      PutSignNamesAgree(BodiesUpTo(table, entry, d, positions, k - 1), info.key, entry(info, positions[k - 1].value).value);
    }
  }

  /** Adding the south node keeps every entry's names agreeing. */
  lemma WithSouthNodeAgree(d: Dict<string, PlanetData>)
    requires SignNamesAgree(d)
    ensures SignNamesAgree(WithSouthNode(d))
  {
    var nn := Get(d, "north_node");
    if nn.Some? {
      PutSignNamesAgree(d, "south_node", SouthNode(nn.value.longitude));
    }
  }

  /** Assigning houses changes no sign and no name. */
  lemma HousesOutcomeAgree(st: HousesState, h: Option<HouseSystem>)
    requires h.Some? ==> |h.value.cusps| == 12
    requires SignNamesAgree(st.planets)
    ensures SignNamesAgree(HousesOutcome(st, h).planets)
  {
  }

  /**
   * Every entry `calculate_all` leaves in `planets_data` carries the Japanese
   * and English names of its own sign, provided the dictionary started that way.
   */
  lemma CalculatedSignNamesAgree(d: Dict<string, PlanetData>, positions: seq<Option<Position>>, h: Option<HouseSystem>,
                                 houses: Dict<int, HouseData>, angles: Dict<string, AngleData>)
    requires |positions| == |PlanetTable| && (h.Some? ==> |h.value.cusps| == 12)
    requires SignNamesAgree(d)
    ensures SignNamesAgree(HousesOutcome(HousesState(WithSouthNode(PlanetsUpTo(d, positions, 12)), houses, angles), h).planets)
  {
    BodiesUpToAgree(PlanetTable, PlanetEntry, d, positions, 12);
    WithSouthNodeAgree(PlanetsUpTo(d, positions, 12));
    HousesOutcomeAgree(HousesState(WithSouthNode(PlanetsUpTo(d, positions, 12)), houses, angles), h);
  }
}
