/**
 * What the analyses of `AstroCalculator` satisfy: the aspect list holds the
 * first matching aspect of every pair i < j and nothing else, the element
 * and modality counts add up to the main planets present, the analyses pick
 * the first largest and the first smallest group, and the queries filter in
 * order.
 */
module AstroAnalysis {
  import opened Wrappers
  import opened Dicts
  import opened Values
  import opened Chart
  import opened AstroCalc

  // ---------------------------------------------------------------------------
  // _calculate_aspects
  // ---------------------------------------------------------------------------

  /** Row i holds the aspects `pair` gives i with the entries after it and before j, and no others. */
  lemma {:induction false} RowFromMembers(pair: (nat, nat) -> Option<AspectRecord>, i: nat, j: nat)
    requires i < j
    ensures forall r :: r in RowFrom(pair, i, j) <==> exists k :: i < k < j && pair(i, k) == Some(r)
    decreases j
  {
    if j > i + 1 {
      RowFromMembers(pair, i, j - 1);
      var before := RowFrom(pair, i, j - 1);
      assert RowFrom(pair, i, j) == before + OptionSeq(pair(i, j - 1));
      forall r ensures r in RowFrom(pair, i, j) <==> r in before || pair(i, j - 1) == Some(r) {
      }
    }
  }

  /** Row i has at most one aspect per later entry. */
  lemma {:induction false} RowFromLength(pair: (nat, nat) -> Option<AspectRecord>, i: nat, j: nat)
    requires i < j
    ensures |RowFrom(pair, i, j)| <= j - i - 1
    decreases j
  {
    if j > i + 1 {
      RowFromLength(pair, i, j - 1);
    }
  }

  /** The first n rows hold the aspects of the pairs i < k with i < n, and no others. */
  lemma {:induction false} RowsUpToMembers(pair: (nat, nat) -> Option<AspectRecord>, n: nat, size: nat)
    requires n <= size
    ensures forall r :: r in RowsUpTo(pair, n, size) <==>
      exists i, k :: 0 <= i < n && i < k < size && pair(i, k) == Some(r)
  {
    if n > 0 {
      RowsUpToMembers(pair, n - 1, size);
      RowFromMembers(pair, n - 1, size);
      var before := RowsUpTo(pair, n - 1, size);
      var row := RowFrom(pair, n - 1, size);
      assert RowsUpTo(pair, n, size) == before + row;
      forall r ensures r in RowsUpTo(pair, n, size) <==> exists i, k :: 0 <= i < n && i < k < size && pair(i, k) == Some(r) {
        if r in before {
          var i, k :| 0 <= i < n - 1 && i < k < size && pair(i, k) == Some(r);
          assert 0 <= i < n && i < k < size && pair(i, k) == Some(r);
        } else if r in row {
          var k :| n - 1 < k < size && pair(n - 1, k) == Some(r);
          assert 0 <= n - 1 < n && n - 1 < k < size && pair(n - 1, k) == Some(r);
        }
        if exists i, k :: 0 <= i < n && i < k < size && pair(i, k) == Some(r) {
          var i, k :| 0 <= i < n && i < k < size && pair(i, k) == Some(r);
          if i < n - 1 {
            assert r in before;
          } else {
            assert r in row;
          }
        }
      }
    }
  }

  /** The first n rows have at most one aspect per pair i < k with i < n. */
  lemma {:induction false} RowsUpToLength(pair: (nat, nat) -> Option<AspectRecord>, n: nat, size: nat)
    requires n <= size
    ensures 2 * |RowsUpTo(pair, n, size)| <= n * (2 * size - n - 1)
  {
    if n > 0 {
      RowsUpToLength(pair, n - 1, size);
      RowFromLength(pair, n - 1, size);
      assert (n - 1) * (2 * size - (n - 1) - 1) + 2 * (size - n) == n * (2 * size - n - 1);
    }
  }

  /**
   * `_calculate_aspects` records an aspect exactly for the pairs i < j whose
   * angle some aspect's orb admits, and records at most one per pair.
   */
  lemma AllAspectsMembers(d: Dict<string, PlanetData>)
    ensures forall r :: r in AllAspects(d) <==>
      exists i, j :: 0 <= i < j < |d| && PairAspect(d, i, j) == Some(r)
    ensures 2 * |AllAspects(d)| <= |d| * (|d| - 1)
  {
    RowsUpToLength(Pairs(d), |d|, |d|);
    forall r | r in AllAspects(d) ensures exists i, j :: 0 <= i < j < |d| && PairAspect(d, i, j) == Some(r) {
      RecordedAspectHasPair(d, r);
    }
    forall i, j | 0 <= i < j < |d| && PairAspect(d, i, j).Some? ensures PairAspect(d, i, j).value in AllAspects(d) {
      PairAspectRecorded(d, i, j);
    }
  }

  /** Every recorded aspect comes from some pair i < j. */
  lemma RecordedAspectHasPair(d: Dict<string, PlanetData>, r: AspectRecord)
    requires r in AllAspects(d)
    ensures exists i, j :: 0 <= i < j < |d| && PairAspect(d, i, j) == Some(r)
  {
    RowsUpToMembers(Pairs(d), |d|, |d|);
    var i, j :| 0 <= i < |d| && i < j < |d| && Pairs(d)(i, j) == Some(r);
    assert PairAspect(d, i, j) == Some(r);
  }

  /** Every pair i < j with an aspect has it recorded. */
  lemma PairAspectRecorded(d: Dict<string, PlanetData>, i: nat, j: nat)
    requires i < j < |d| && PairAspect(d, i, j).Some?
    ensures PairAspect(d, i, j).value in AllAspects(d)
  {
    RowsUpToMembers(Pairs(d), |d|, |d|);
    assert Pairs(d)(i, j) == PairAspect(d, i, j);
  }

  // ---------------------------------------------------------------------------
  // _analyze_element_balance, _analyze_modality_balance
  // ---------------------------------------------------------------------------

  lemma {:induction false} SumZeros(n: nat)
    ensures Sum(Zeros(n)) == 0
  {
    if n > 0 {
      SumZeros(n - 1);
      assert Zeros(n)[..n - 1] == Zeros(n - 1);
    }
  }

  /** Adding one to a single count adds one to the sum. */
  lemma {:induction false} SumIncrement(c: seq<int>, g: nat)
    requires g < |c|
    ensures Sum(c[g := c[g] + 1]) == Sum(c) + 1
  {
    var c' := c[g := c[g] + 1];
    if g == |c| - 1 {
      assert c'[..|c'| - 1] == c[..|c| - 1];
    } else {
      SumIncrement(c[..|c| - 1], g);
      assert c'[..|c'| - 1] == c[..|c| - 1][g := c[g] + 1];
    }
  }

  /** When every sign lies in some group, each present main planet is counted exactly once. */
  lemma {:induction false} GroupCountsSum(groups: seq<seq<Sign>>, d: Dict<string, PlanetData>, mains: seq<string>)
    requires forall s: Sign :: GroupOf(groups, s, 0).Some?
    ensures Sum(GroupCounts(groups, d, mains)) == PresentCount(d, mains)
  {
    if mains == [] {
      SumZeros(|groups|);
    } else {
      var init := mains[..|mains| - 1];
      GroupCountsSum(groups, d, init);
      var p := Get(d, mains[|mains| - 1]);
      if p.Some? {
        SumIncrement(GroupCounts(groups, d, init), GroupOf(groups, p.value.sign, 0).value);
      }
    }
  }

  /** The four element counts add up to the number of the ten main planets present, and so do the modality counts. */
  lemma BalanceCountsSum(d: Dict<string, PlanetData>)
    ensures Sum(GroupCounts(ElementSigns, d, MainPlanets)) == PresentCount(d, MainPlanets) <= 10
    ensures Sum(GroupCounts(ModalitySigns, d, MainPlanets)) == PresentCount(d, MainPlanets)
  {
    forall s: Sign ensures GroupOf(ElementSigns, s, 0).Some? && GroupOf(ModalitySigns, s, 0).Some? {
      SignGroups(s);
    }
    GroupCountsSum(ElementSigns, d, MainPlanets);
    GroupCountsSum(ModalitySigns, d, MainPlanets);
  }

  /**
   * The analysis keeps the counts, names as dominant the first group with the
   * largest count and as lacking the first group with the smallest.
   */
  lemma AnalysisFacts(names: seq<string>, counts: seq<int>)
    requires |names| == |counts| > 0
    ensures var an := AnalysisOf(names, counts);
      && an.counts == Balance(names, counts)
      && (forall j :: 0 <= j < |counts| ==> an.lackingCount <= counts[j] <= an.dominantCount)
      && (exists i :: && 0 <= i < |counts| && names[i] == an.dominant && counts[i] == an.dominantCount
                      && forall j :: 0 <= j < i ==> counts[j] < an.dominantCount)
      && (exists i :: && 0 <= i < |counts| && names[i] == an.lacking && counts[i] == an.lackingCount
                      && forall j :: 0 <= j < i ==> an.lackingCount < counts[j])
  {
    var hi := FirstMax(counts);
    var lo := FirstMin(counts);
    assert names[hi] == AnalysisOf(names, counts).dominant;
    assert names[lo] == AnalysisOf(names, counts).lacking;
  }

  /** With distinct group names, `counts.get(name)` finds that group's count. */
  lemma {:induction false} BalanceGet(names: seq<string>, counts: seq<int>, i: nat)
    requires |names| == |counts| && i < |names|
    requires forall a, b :: 0 <= a < b < |names| ==> names[a] != names[b]
    ensures Get(Balance(names, counts), names[i]) == Some(counts[i])
  {
    if i > 0 {
      assert Balance(names, counts)[1..] == Balance(names[1..], counts[1..]);
      assert names[0] != names[i];
      BalanceGet(names[1..], counts[1..], i - 1);
    }
  }

  /**
   * Once the element balance has been analysed, the variables of step "1-A"
   * are the four element counts and the dominant and lacking elements.
   */
  lemma StepOneAVariables(c: seq<int>)
    requires |c| == 4
    ensures ElementVariables(Balance(ElementNames, c), AnalysisOf(ElementNames, c))
      == [("fire_count", VInt(c[0])), ("earth_count", VInt(c[1])), ("air_count", VInt(c[2])),
          ("water_count", VInt(c[3])), ("dominant_element", VStr(ElementNames[FirstMax(c)])),
          ("lacking_element", VStr(ElementNames[FirstMin(c)]))]
  {
    BalanceGet(ElementNames, c, 0);
    BalanceGet(ElementNames, c, 1);
    BalanceGet(ElementNames, c, 2);
    BalanceGet(ElementNames, c, 3);
  }

  // ---------------------------------------------------------------------------
  // Queries
  // ---------------------------------------------------------------------------

  /** The first element a filter keeps is the first element of `xs` that passes it. */
  lemma {:induction false} FilterFirst<T(!new)>(xs: seq<T>, keep: T -> bool, i: nat)
    requires i < |xs| && keep(xs[i]) && forall j :: 0 <= j < i ==> !keep(xs[j])
    ensures Filter(xs, keep) != [] && Filter(xs, keep)[0] == xs[i]
  {
    if i > 0 {
      FilterFirst(xs[1..], keep, i - 1);
    }
  }

  /**
   * The sun–moon variables of step "2-A" are the name and orb of the first
   * recorded aspect between the sun and the moon, or なし and 0 without one.
   */
  lemma SunMoonVariablesFacts(aspects: seq<AspectRecord>)
    ensures (forall a :: a in aspects ==> !SunMoon(a)) ==> SunMoonVariables(aspects) == (VStr("なし"), VInt(0))
    ensures forall i :: 0 <= i < |aspects| && SunMoon(aspects[i]) && (forall j :: 0 <= j < i ==> !SunMoon(aspects[j])) ==>
      SunMoonVariables(aspects) == (VStr(aspects[i].aspectJp), VReal(aspects[i].orb))
  {
    var sm := Filter(aspects, SunMoon);
    if sm != [] {
      assert sm[0] in sm;
    }
    forall i | 0 <= i < |aspects| && SunMoon(aspects[i]) && (forall j :: 0 <= j < i ==> !SunMoon(aspects[j])) {
      FilterFirst(aspects, SunMoon, i);
    }
  }
  /**
   * Once the modality balance has been analysed, the variables of step "1-B"
   * open with the cardinal, fixed and mutable counts, in that order.
   */
  lemma StepOneBCounts(c: seq<int>, angles: Dict<string, AngleData>)
    requires |c| == 3
    ensures ModalityVariables(Balance(ModalityNames, c), angles)[..3]
      == [("cardinal_count", VInt(c[0])), ("fixed_count", VInt(c[1])), ("mutable_count", VInt(c[2]))]
  {
    BalanceGet(ModalityNames, c, 0);
    BalanceGet(ModalityNames, c, 1);
    BalanceGet(ModalityNames, c, 2);
  }

  /**
   * An angle recorded from longitude `l` (the k-th of asc, mc, ic, dc) gives
   * step "1-B" the Japanese name of `l`'s sign and, for asc and mc, the
   * formatted degree within that sign; an angle left unrecorded gives "".
   */
  lemma StepOneBAngle(bal: Dict<string, int>, angles: Dict<string, AngleData>, k: nat, l: real)
    requires k < 4 && Get(angles, AngleTable[k].key) == AngleAt(AngleTable[k], l)
    ensures var v := ModalityVariables(bal, angles);
      match LongitudeToSign(l)
      case Success(sd) =>
        && v[3 + k].1 == VStr(SignJp(sd.0))
        && (k < 2 ==> v[7 + k].1 == VStr(DegreeFormatted(sd.1)))
      case Failure(_) =>
        && v[3 + k].1 == VStr("")
        && (k < 2 ==> v[7 + k].1 == VStr(""))
  {
    var e := AngleAt(AngleTable[k], l);
    assert AngleSign(angles, AngleTable[k].key) == if e.Some? then VStr(e.value.signJp) else VStr("");
    assert AngleDegree(angles, AngleTable[k].key) == if e.Some? then VStr(e.value.degreeFormatted) else VStr("");
  }

  /**
   * The sun (k = 0) or the moon (k = 1) recorded from position `pos` and then
   * given house `h` supplies step "2-A" with its sign's Japanese name, its
   * house (0 without one), its formatted degree and its Sabian degree.
   */
  lemma StepTwoALuminary(planets: Dict<string, PlanetData>, aspects: seq<AspectRecord>, k: nat, info: PlanetInfo,
                         pos: Position, h: Option<int>)
    requires k < 2 && info.key == ["sun", "moon"][k]
    requires PlanetEntry(info, pos).Some? && Get(planets, info.key) == Some(PlanetEntry(info, pos).value.(house := h))
    ensures var v := LuminaryVariables(planets, aspects);
      var sd := LongitudeToSign(pos.longitude).value;
      && v[5 * k].1 == VStr(SignJp(sd.0))
      && v[5 * k + 1].1 == VInt(h.GetOr(0))
      && v[5 * k + 2].1 == VStr(DegreeFormatted(sd.1))
      && v[5 * k + 3].1 == VInt(SabianDegree(sd.1))
      && 1 <= SabianDegree(sd.1) <= 30
  {
    var sd := LongitudeToSign(pos.longitude).value;
    SabianDegreeRange(sd.1);
    var e := PlanetEntry(info, pos).value.(house := h);
    assert e.signJp == SignJp(sd.0) && e.degreeFormatted == DegreeFormatted(sd.1) && e.sabianDegree == SabianDegree(sd.1);
    LuminaryOf(planets, aspects, k, e);
  }

  lemma LuminaryOf(planets: Dict<string, PlanetData>, aspects: seq<AspectRecord>, k: nat, e: PlanetData)
    requires k < 2 && Get(planets, ["sun", "moon"][k]) == Some(e)
    ensures var v := LuminaryVariables(planets, aspects);
      && v[5 * k].1 == VStr(e.signJp)
      && v[5 * k + 1].1 == VInt(e.house.GetOr(0))
      && v[5 * k + 2].1 == VStr(e.degreeFormatted)
      && v[5 * k + 3].1 == VInt(e.sabianDegree)
  {
  }

  /**
   * Mercury (k = 0), venus (k = 1) or mars (k = 2), recorded from position
   * `pos` and then given house `h`, supplies step "2-B" with its sign's
   * Japanese name, its house (0 without one) and, as its retrograde flag,
   * whether the reported speed is negative.
   */
  lemma StepTwoBPlanet(planets: Dict<string, PlanetData>, k: nat, info: PlanetInfo, pos: Position, h: Option<int>)
    requires k < 3 && info.key == ["mercury", "venus", "mars"][k]
    requires PlanetEntry(info, pos).Some? && Get(planets, info.key) == Some(PlanetEntry(info, pos).value.(house := h))
    ensures var v := PersonalPlanetVariables(planets);
      && v[4 * k].1 == VStr(SignJp(LongitudeToSign(pos.longitude).value.0))
      && v[4 * k + 1].1 == VInt(h.GetOr(0))
      && v[4 * k + 3].1 == VBool(pos.speed < 0.0)
  {
    assert info.key !in NeverRetrograde;
    var e := PlanetEntry(info, pos).value.(house := h);
    assert e.retrograde == (pos.speed < 0.0) && e.signJp == SignJp(LongitudeToSign(pos.longitude).value.0);
    PersonalPlanetOf(planets, k, e);
  }

  lemma PersonalPlanetOf(planets: Dict<string, PlanetData>, k: nat, e: PlanetData)
    requires k < 3 && Get(planets, ["mercury", "venus", "mars"][k]) == Some(e)
    ensures var v := PersonalPlanetVariables(planets);
      v[4 * k].1 == VStr(e.signJp) && v[4 * k + 1].1 == VInt(e.house.GetOr(0)) && v[4 * k + 3].1 == VBool(e.retrograde)
  {
  }

  /** A body missing from `planets_data` gives step "2-B" an empty sign, house 0 and no retrograde motion. */
  lemma StepTwoBMissing(planets: Dict<string, PlanetData>, k: nat)
    requires k < 3 && Get(planets, ["mercury", "venus", "mars"][k]) == None
    ensures var v := PersonalPlanetVariables(planets);
      v[4 * k].1 == VStr("") && v[4 * k + 1].1 == VInt(0) && v[4 * k + 3].1 == VBool(false)
  {
  }
}
