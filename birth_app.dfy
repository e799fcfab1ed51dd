/**
 * The birth-data service: the Japanese name of a sign key, the decomposition
 * of a longitude into a sign key and a degree, the reading of the birth date
 * and time, the date label of `birth_info`, the angles with their fallback
 * when the house calculation raises, and the body list with the Midheaven
 * appended.  What the ephemeris computes (body longitudes, the flag
 * `is_retrograde` returns, the house angles) is given as input;
 * `is_retrograde` compares the body's daily speed one day later with its
 * speed at the instant, not its longitude.
 */
module BirthApp {
  import opened Wrappers
  import opened Text
  import opened Chart

  // ---------------------------------------------------------------------------
  // get_sign_japanese, degree_to_sign_and_degree
  // ---------------------------------------------------------------------------

  /** The sign whose key is `abbr`, if there is one. */
  function SignOfKey(abbr: string): (r: Option<Sign>)
    ensures r.Some? ==> SignKey(r.value) == abbr
    ensures r.None? ==> forall s: Sign :: SignKey(s) != abbr
  {
    if abbr == "Ari" then Some(Ari) else if abbr == "Tau" then Some(Tau)
    else if abbr == "Gem" then Some(Gem) else if abbr == "Can" then Some(Can)
    else if abbr == "Leo" then Some(Leo) else if abbr == "Vir" then Some(Vir)
    else if abbr == "Lib" then Some(Lib) else if abbr == "Sco" then Some(Sco)
    else if abbr == "Sag" then Some(Sag) else if abbr == "Cap" then Some(Cap)
    else if abbr == "Aqu" then Some(Aqu) else if abbr == "Pis" then Some(Pis)
    else None
  }

  /** `get_sign_japanese`: the table's name for a sign key, the input itself for anything else. */
  function SignJapanese(abbr: string): string
  {
    match SignOfKey(abbr)
    case Some(s) => SignJp(s)
    case None => abbr
  }

  /** Every sign key gets its Japanese name, and any other text comes back unchanged. */
  lemma SignJapaneseFacts(abbr: string)
    ensures forall s: Sign :: SignJapanese(SignKey(s)) == SignJp(s)
    ensures (forall s: Sign :: SignKey(s) != abbr) ==> SignJapanese(abbr) == abbr
  {
    forall s: Sign ensures SignJapanese(SignKey(s)) == SignJp(s) {
      var t := SignOfKey(SignKey(s));
      SignKeyInjective(s, t.value);
    }
  }

  /**
   * `degree_to_sign_and_degree`: the key of sign `int(longitude // 30)` and
   * `longitude % 30`; an index outside -12..11 raises IndexError (`None`).
   */
  function DegreeToSignAndDegree(longitude: real): Option<(string, real)>
  {
    match LongitudeToSign(longitude)
    case Success((s, d)) => Some((SignKey(s), d))
    case Failure(_) => None
  }

  /**
   * For 0 ≤ L < 360 the sign is the key of sign number ⌊L/30⌋, whose Japanese
   * name is that sign's, and the degree d lies in [0, 30) with 30·⌊L/30⌋ + d = L.
   * The decomposition raises exactly outside [-360, 360).
   */
  lemma DegreeToSignAndDegreeFacts(longitude: real)
    ensures DegreeToSignAndDegree(longitude).None? <==> longitude < -360.0 || longitude >= 360.0
    ensures 0.0 <= longitude < 360.0 ==>
      var idx := (longitude / 30.0).Floor;
      && 0 <= idx < 12
      && DegreeToSignAndDegree(longitude).Some?
      && DegreeToSignAndDegree(longitude).value.0 == SignKey(Signs[idx])
      && SignJapanese(DegreeToSignAndDegree(longitude).value.0) == SignJp(Signs[idx])
      && var d := DegreeToSignAndDegree(longitude).value.1;
         0.0 <= d < 30.0 && 30.0 * (idx as real) + d == longitude
  {
    LongitudeToSignFails(longitude);
    if 0.0 <= longitude < 360.0 {
      LongitudeToSignInRange(longitude);
      SignJapaneseFacts("");
    }
  }

  // ---------------------------------------------------------------------------
  // Reading the birth date and time
  // ---------------------------------------------------------------------------

  datatype Date = Date(year: int, month: int, day: int)
  datatype Time = Time(hour: int, minute: int)

  /** `map(f, parts)` consumed to the end: every result, or `None` when `f` raises on some piece. */
  function MapAll(parts: seq<string>, f: string -> Option<int>): (r: Option<seq<int>>)
    ensures r.Some? <==> forall i :: 0 <= i < |parts| ==> f(parts[i]).Some?
    ensures r.Some? ==> |r.value| == |parts| && forall i :: 0 <= i < |parts| ==> f(parts[i]) == Some(r.value[i])
  {
    if parts == [] then Some([])
    else
      var head := f(parts[0]);
      var tail := MapAll(parts[1..], f);
      if head.Some? && tail.Some? then Some([head.value] + tail.value)
      else
        assert head.None? || exists i :: 0 <= i < |parts| - 1 && f(parts[1..][i]).None?;
        None
  }

  /**
   * `a, b, … = map(int, text.split(sep))` with `n` names: the pieces as
   * integers when there are exactly `n` and each is one, `None` (ValueError)
   * otherwise.
   */
  function ParseFields(text: string, sep: char, n: nat): (r: Option<seq<int>>)
    ensures r.Some? <==> |Split(text, [sep])| == n && forall i :: 0 <= i < n ==> ParseInt(Split(text, [sep])[i]).Some?
    ensures r.Some? ==> |r.value| == n && forall i :: 0 <= i < n ==> ParseInt(Split(text, [sep])[i]) == Some(r.value[i])
  {
    var parts := Split(text, [sep]);
    if |parts| != n then None else MapAll(parts, ParseInt)
  }

  /** `year, month, day = map(int, birth_date.split('-'))` */
  function ParseDate(birthDate: string): Option<Date>
  {
    match ParseFields(birthDate, '-', 3)
    case Some(v) => Some(Date(v[0], v[1], v[2]))
    case None => None
  }

  /** `hour, minute = map(int, birth_time.split(':'))` */
  function ParseTime(birthTime: string): Option<Time>
  {
    match ParseFields(birthTime, ':', 2)
    case Some(v) => Some(Time(v[0], v[1]))
    case None => None
  }

  /** The first occurrence of `c` in `a + [c] + b` is right after `a` when `a` has none. */
  lemma FindCharAfter(a: string, c: char, b: string)
    requires c !in a
    ensures FindFrom(a + [c] + b, [c], 0) == Some(|a|)
  {
    var s := a + [c] + b;
    assert s[|a|..|a| + 1] == [c];
    assert MatchAt(s, [c], |a|);
    forall j | 0 <= j < |a| ensures !MatchAt(s, [c], j) {
      assert s[j..j + 1][0] == a[j];
    }
  }

  /** Text without the separator character is not cut. */
  lemma SplitWhole(a: string, c: char)
    requires c !in a
    ensures Split(a, [c]) == [a]
  {
    forall j: nat ensures !MatchAt(a, [c], j) {
      if j < |a| {
        assert a[j..j + 1][0] == a[j];
      }
    }
  }

  /** Text is cut at its first separator character. */
  lemma SplitAtFirst(a: string, c: char, b: string)
    requires c !in a
    ensures Split(a + [c] + b, [c]) == [a] + Split(b, [c])
  {
    FindCharAfter(a, c, b);
    var s := a + [c] + b;
    assert s[..|a|] == a && s[|a| + 1..] == b;
  }

  /** A digit string holds none of the separators and markers the service writes. */
  lemma DigitsHaveNoMarks(s: string)
    requires AllDigits(s)
    ensures '-' !in s && ':' !in s && '年' !in s && '月' !in s
  {
    forall i | 0 <= i < |s| ensures s[i] != '-' && s[i] != ':' && s[i] != '年' && s[i] != '月' {
      assert IsDigit(s[i]);
    }
  }

  /** `f"{n:02d}"` of a natural number is a digit string. */
  lemma Pad2Digits(n: nat)
    ensures AllDigits(Pad2(n))
  {
    if n < 10 {
      DigitsLeadingZero(NatToString(n));
    }
  }

  /** Three pieces without the separator character, joined by it, split back into those pieces. */
  lemma SplitThree(a: string, b: string, c: string, sep: char)
    requires sep !in a && sep !in b && sep !in c
    ensures Split(a + [sep] + b + [sep] + c, [sep]) == [a, b, c]
  {
    assert a + [sep] + b + [sep] + c == a + [sep] + (b + [sep] + c);
    SplitAtFirst(a, sep, b + [sep] + c);
    SplitAtFirst(b, sep, c);
    SplitWhole(c, sep);
  }

  /** `map` over one piece on which `f` succeeds. */
  lemma MapOne(a: string, f: string -> Option<int>, x: int)
    requires f(a) == Some(x)
    ensures MapAll([a], f) == Some([x])
  {
    assert [a][1..] == [];
    assert MapAll([], f) == Some([]);
    assert [x] + [] == [x];
  }

  /** `map` over two pieces on which `f` succeeds. */
  lemma MapTwo(a: string, b: string, f: string -> Option<int>, x: int, y: int)
    requires f(a) == Some(x) && f(b) == Some(y)
    ensures MapAll([a, b], f) == Some([x, y])
  {
    MapOne(b, f, y);
    assert [a, b][1..] == [b];
    assert [x] + [y] == [x, y];
  }

  /** `map` over three pieces on which `f` succeeds. */
  lemma MapThree(a: string, b: string, c: string, f: string -> Option<int>, x: int, y: int, z: int)
    requires f(a) == Some(x) && f(b) == Some(y) && f(c) == Some(z)
    ensures MapAll([a, b, c], f) == Some([x, y, z])
  {
    MapTwo(b, c, f, y, z);
    assert [a, b, c][1..] == [b, c];
    assert [x] + [y, z] == [x, y, z];
  }

  /** Three integers written with `-` between them, and no `-` inside, read back as a date. */
  lemma ParseDateOf(ys: string, ms: string, ds: string, y: int, m: int, d: int)
    requires '-' !in ys && '-' !in ms && '-' !in ds
    requires ParseInt(ys) == Some(y) && ParseInt(ms) == Some(m) && ParseInt(ds) == Some(d)
    ensures ParseDate(ys + "-" + ms + "-" + ds) == Some(Date(y, m, d))
  {
    SplitThree(ys, ms, ds, '-');
    MapThree(ys, ms, ds, ParseInt, y, m, d);
  }

  /** Two integers written with `:` between them, and no `:` inside, read back as a time. */
  lemma ParseTimeOf(hs: string, ms: string, h: int, m: int)
    requires ':' !in hs && ':' !in ms
    requires ParseInt(hs) == Some(h) && ParseInt(ms) == Some(m)
    ensures ParseTime(hs + ":" + ms) == Some(Time(h, m))
  {
    SplitAtFirst(hs, ':', ms);
    SplitWhole(ms, ':');
    MapTwo(hs, ms, ParseInt, h, m);
  }

  /** A date written `{y}-{mm}-{dd}` with natural numbers reads back as those three numbers. */
  lemma ParseDateOfIso(y: nat, m: nat, d: nat)
    ensures ParseDate(NatToString(y) + "-" + Pad2(m) + "-" + Pad2(d)) == Some(Date(y, m, d))
  {
    Pad2Digits(m);
    Pad2Digits(d);
    DigitsHaveNoMarks(NatToString(y));
    DigitsHaveNoMarks(Pad2(m));
    DigitsHaveNoMarks(Pad2(d));
    ParseIntOfIntToString(y);
    ParseIntOfPad2(m);
    ParseIntOfPad2(d);
    ParseDateOf(NatToString(y), Pad2(m), Pad2(d), y, m, d);
  }

  /** A time written `{hh}:{mm}` with natural numbers reads back as those two numbers. */
  lemma ParseTimeOfClock(h: nat, m: nat)
    ensures ParseTime(Pad2(h) + ":" + Pad2(m)) == Some(Time(h, m))
  {
    Pad2Digits(h);
    Pad2Digits(m);
    DigitsHaveNoMarks(Pad2(h));
    DigitsHaveNoMarks(Pad2(m));
    ParseIntOfPad2(h);
    ParseIntOfPad2(m);
    ParseTimeOf(Pad2(h), Pad2(m), h, m);
  }

  // ---------------------------------------------------------------------------
  // birth_info
  // ---------------------------------------------------------------------------

  /** `f"{year}年{month:02d}月{day:02d}日"` */
  function DateLabel(d: Date): string
  {
    IntToString(d.year) + "年" + Pad2(d.month) + "月" + Pad2(d.day) + "日"
  }

  /** Reads a label back: the numbers before 年, between 年 and 月, and between 月 and the final 日. */
  function LabelDate(text: string): Option<Date>
  {
    if text == "" || text[|text| - 1] != '日' then None
    else
      var outer := Split(text[..|text| - 1], "年");
      if |outer| != 2 then None
      else
        var inner := Split(outer[1], "月");
        if |inner| != 2 then None
        else
          match MapAll([outer[0], inner[0], inner[1]], ParseInt)
          case Some(v) => Some(Date(v[0], v[1], v[2]))
          case None => None
  }

  /** A label whose pieces around 年 and 月 read as integers reads back as that date. */
  lemma LabelDateFrom(text: string, rest: string, ys: string, ms: string, ds: string, y: int, m: int, d: int)
    requires text != "" && text[|text| - 1] == '日'
    requires Split(text[..|text| - 1], "年") == [ys, rest] && Split(rest, "月") == [ms, ds]
    requires MapAll([ys, ms, ds], ParseInt) == Some([y, m, d])
    ensures LabelDate(text) == Some(Date(y, m, d))
  {
  }

  /** A label without its final 日 is cut at 年 into the year text and the rest. */
  lemma LabelOuter(ys: string, ms: string, ds: string)
    requires '年' !in ys && '年' !in ms && '年' !in ds
    ensures var text := ys + "年" + ms + "月" + ds + "日";
      text[|text| - 1] == '日' && Split(text[..|text| - 1], "年") == [ys, ms + ['月'] + ds]
  {
    var text := ys + "年" + ms + "月" + ds + "日";
    var rest := ms + ['月'] + ds;
    assert text[..|text| - 1] == ys + ['年'] + rest;
    SplitAtFirst(ys, '年', rest);
    SplitWhole(rest, '年');
  }

  /** The rest is cut at 月 into the month text and the day text. */
  lemma LabelInner(ms: string, ds: string)
    requires '月' !in ms && '月' !in ds
    ensures Split(ms + ['月'] + ds, "月") == [ms, ds]
  {
    SplitAtFirst(ms, '月', ds);
    SplitWhole(ds, '月');
  }

  /** Three integers written with 年, 月 and 日 after them, and none of those inside, read back as a date. */
  lemma LabelDateOf(ys: string, ms: string, ds: string, y: int, m: int, d: int)
    requires '年' !in ys && '年' !in ms && '年' !in ds && '月' !in ms && '月' !in ds
    requires ParseInt(ys) == Some(y) && ParseInt(ms) == Some(m) && ParseInt(ds) == Some(d)
    ensures LabelDate(ys + "年" + ms + "月" + ds + "日") == Some(Date(y, m, d))
  {
    LabelOuter(ys, ms, ds);
    LabelInner(ms, ds);
    MapThree(ys, ms, ds, ParseInt, y, m, d);
    LabelDateFrom(ys + "年" + ms + "月" + ds + "日", ms + ['月'] + ds, ys, ms, ds, y, m, d);
  }

  /** `str(n)` and `f"{n:02d}"` are digits after an optional minus sign, so they hold neither 年 nor 月. */
  lemma NumberHasNoMarks(n: int)
    ensures '年' !in IntToString(n) && '月' !in IntToString(n)
    ensures '年' !in Pad2(n) && '月' !in Pad2(n)
  {
    if n < 0 {
      DigitsHaveNoMarks(NatToString(-n));
      assert IntToString(n) == "-" + NatToString(-n);
    } else {
      DigitsHaveNoMarks(NatToString(n));
      Pad2Digits(n);
      DigitsHaveNoMarks(Pad2(n));
    }
  }

  /** Every date label reads back as the date it was written from. */
  lemma LabelDateOfDateLabel(d: Date)
    ensures LabelDate(DateLabel(d)) == Some(d)
  {
    NumberHasNoMarks(d.year);
    NumberHasNoMarks(d.month);
    NumberHasNoMarks(d.day);
    ParseIntOfIntToString(d.year);
    ParseIntOfPad2(d.month);
    ParseIntOfPad2(d.day);
    LabelDateOf(IntToString(d.year), Pad2(d.month), Pad2(d.day), d.year, d.month, d.day);
  }

  // ---------------------------------------------------------------------------
  // Angles and bodies
  // ---------------------------------------------------------------------------

  /** An angle or a body position as the reply reports it: the longitude, its sign key and its degree within the sign. */
  datatype Angle = Angle(longitude: real, sign: string, degree: real)

  /** The values of the `except` block: ascendant 0° Ari, Midheaven 90° Can. */
  const DefaultAngles: (Angle, Angle) := (Angle(0.0, "Ari", 0.0), Angle(90.0, "Can", 0.0))

  /**
   * The ascendant and the Midheaven from `houses[1][0]` and `houses[1][1]`;
   * when the house calculation raises (`None`) or a decomposition does, both
   * take their default values.
   */
  function Angles(houses: Option<(real, real)>): (Angle, Angle)
  {
    match houses
    case None => DefaultAngles
    case Some((asc, mc)) =>
      match (DegreeToSignAndDegree(asc), DegreeToSignAndDegree(mc))
      case (Some((ascSign, ascDegree)), Some((mcSign, mcDegree))) =>
        (Angle(asc, ascSign, ascDegree), Angle(mc, mcSign, mcDegree))
      case _ => DefaultAngles
  }

  /** An angle whose sign and degree are those of its longitude. */
  predicate Consistent(a: Angle)
  {
    DegreeToSignAndDegree(a.longitude) == Some((a.sign, a.degree))
  }

  /**
   * Whatever the house calculation does, each angle's sign and degree are the
   * decomposition of its longitude; a failed calculation gives 0° Ari and
   * 90° Can, and angles in [0, 360) are taken as the calculation gave them.
   */
  lemma AnglesFacts(houses: Option<(real, real)>)
    ensures Consistent(Angles(houses).0) && Consistent(Angles(houses).1)
    ensures houses.None? ==> Angles(houses) == DefaultAngles
    ensures houses.Some? && 0.0 <= houses.value.0 < 360.0 && 0.0 <= houses.value.1 < 360.0 ==>
      Angles(houses).0.longitude == houses.value.0 && Angles(houses).1.longitude == houses.value.1
  {
    DefaultAnglesConsistent();
    if houses.Some? {
      DegreeToSignAndDegreeFacts(houses.value.0);
      DegreeToSignAndDegreeFacts(houses.value.1);
    }
  }

  /** The defaults are what the decomposition gives for 0° and 90°. */
  lemma DefaultAnglesConsistent()
    ensures Consistent(DefaultAngles.0) && Consistent(DefaultAngles.1)
  {
    NthIndex(Signs, 0);
    NthIndex(Signs, 3);
    assert (0.0 / 30.0).Floor == 0;
    assert (90.0 / 30.0).Floor == 3;
  }

  /** What the ephemeris gave for one body: its longitude and the flag `is_retrograde` returns, or that the calculation raised. */
  datatype Reading = Raised | Position(longitude: real, moving: bool)

  /** An entry of the `planets` list: the ephemeris body number and its two names. */
  datatype Body = Body(id: nat, nameJp: string, nameEn: string)

  /** `swe.MEAN_NODE` */
  const MeanNode: nat := 10

  /** The `planets` list, with the ephemeris body numbers. */
  const Bodies: seq<Body> := [
    Body(0, "太陽", "Sun"), Body(1, "月", "Moon"), Body(2, "水星", "Mercury"), Body(3, "金星", "Venus"),
    Body(4, "火星", "Mars"), Body(5, "木星", "Jupiter"), Body(6, "土星", "Saturn"),
    Body(MeanNode, "ドラゴンヘッド", "North Node")]

  datatype BodyEntry = BodyEntry(nameJp: string, nameEn: string, sign: string, signJp: string,
                                 degree: real, longitude: real, retrograde: bool)

  /**
   * The entry of body `b` for reading `r`; `None` when the calculation or the
   * decomposition raised, and the loop goes on with the next body.  The mean
   * node is never reported retrograde.
   */
  function BodyEntryOf(b: Body, r: Reading): Option<BodyEntry>
  {
    match r
    case Raised => None
    case Position(l, moving) =>
      match DegreeToSignAndDegree(l)
      case None => None
      case Some((sign, degree)) =>
        Some(BodyEntry(b.nameJp, b.nameEn, sign, SignJapanese(sign), degree, l, b.id != MeanNode && moving))
  }

  /** The entries of the bodies from number `i` on whose readings succeeded, in list order. */
  function BodyEntriesFrom(bodies: seq<Body>, ephemeris: nat -> Reading, i: nat): seq<BodyEntry>
    requires i <= |bodies|
    decreases |bodies| - i
  {
    if i == |bodies| then []
    else
      match BodyEntryOf(bodies[i], ephemeris(bodies[i].id))
      case Some(e) => [e] + BodyEntriesFrom(bodies, ephemeris, i + 1)
      case None => BodyEntriesFrom(bodies, ephemeris, i + 1)
  }

  /** The entry's sign key and degree are those of its longitude, and its Japanese sign name is that key's. */
  predicate WellNamed(e: BodyEntry)
  {
    DegreeToSignAndDegree(e.longitude) == Some((e.sign, e.degree)) && e.signJp == SignJapanese(e.sign)
  }

  /** An entry carries its body's names and its reading's longitude, is well named, and is not retrograde for the node. */
  lemma BodyEntryOfFacts(b: Body, r: Reading)
    ensures BodyEntryOf(b, r).Some? <==> r.Position? && DegreeToSignAndDegree(r.longitude).Some?
    ensures BodyEntryOf(b, r).Some? ==> var e := BodyEntryOf(b, r).value;
      && e.nameJp == b.nameJp && e.nameEn == b.nameEn && e.longitude == r.longitude && WellNamed(e)
      && e.retrograde == (b.id != MeanNode && r.moving)
  {
  }

  /** The entries from body `i` on number at most one per body, each being the entry of one of those bodies. */
  lemma {:induction false} BodyEntriesFromFacts(bodies: seq<Body>, ephemeris: nat -> Reading, i: nat)
    requires i <= |bodies|
    ensures |BodyEntriesFrom(bodies, ephemeris, i)| <= |bodies| - i
    ensures forall e :: e in BodyEntriesFrom(bodies, ephemeris, i) ==>
      exists k :: i <= k < |bodies| && BodyEntryOf(bodies[k], ephemeris(bodies[k].id)) == Some(e)
    decreases |bodies| - i
  {
    if i < |bodies| {
      BodyEntriesFromFacts(bodies, ephemeris, i + 1);
      var rest := BodyEntriesFrom(bodies, ephemeris, i + 1);
      match BodyEntryOf(bodies[i], ephemeris(bodies[i].id))
      case Some(e) =>
        assert BodyEntriesFrom(bodies, ephemeris, i) == [e] + rest;
      case None =>
    }
  }

  /** When every reading from body `i` on is a position in [0, 360), there is exactly one entry per body, in list order. */
  lemma {:induction false} BodyEntriesFromAll(bodies: seq<Body>, ephemeris: nat -> Reading, i: nat)
    requires i <= |bodies|
    requires forall k :: i <= k < |bodies| ==> InRange(ephemeris(bodies[k].id))
    ensures |BodyEntriesFrom(bodies, ephemeris, i)| == |bodies| - i
    ensures forall k :: i <= k < |bodies| ==>
      Some(BodyEntriesFrom(bodies, ephemeris, i)[k - i]) == BodyEntryOf(bodies[k], ephemeris(bodies[k].id))
    decreases |bodies| - i
  {
    if i < |bodies| {
      BodyEntriesFromAll(bodies, ephemeris, i + 1);
      var r := ephemeris(bodies[i].id);
      InRangeHasEntry(bodies[i], r);
      var e := BodyEntryOf(bodies[i], r).value;
      var rest := BodyEntriesFrom(bodies, ephemeris, i + 1);
      var es := BodyEntriesFrom(bodies, ephemeris, i);
      assert es == [e] + rest;
      forall k | i < k < |bodies| ensures Some(es[k - i]) == BodyEntryOf(bodies[k], ephemeris(bodies[k].id)) {
        assert es[k - i] == rest[k - (i + 1)];
      }
    }
  }

  /** A reading that is a position in [0, 360). */
  predicate InRange(r: Reading)
  {
    r.Position? && 0.0 <= r.longitude < 360.0
  }

  /** A position in [0, 360) always gives an entry. */
  lemma InRangeHasEntry(b: Body, r: Reading)
    requires InRange(r)
    ensures BodyEntryOf(b, r).Some?
  {
    DegreeToSignAndDegreeFacts(r.longitude);
  }

  /** `planets_data` once the Midheaven is appended. */
  function PlanetsData(ephemeris: nat -> Reading, mc: Angle): seq<BodyEntry>
  {
    BodyEntriesFrom(Bodies, ephemeris, 0) + [BodyEntry("ミッドヘブン", "Midheaven", mc.sign, SignJapanese(mc.sign), mc.degree, mc.longitude, false)]
  }

  /**
   * The bodies come first, each well named, at most one per body; the
   * Midheaven comes last, with its sign from `mc`, and is never retrograde.
   */
  lemma PlanetsDataFacts(ephemeris: nat -> Reading, mc: Angle)
    ensures var ps := PlanetsData(ephemeris, mc);
      && 1 <= |ps| <= |Bodies| + 1
      && ps[|ps| - 1] == BodyEntry("ミッドヘブン", "Midheaven", mc.sign, SignJapanese(mc.sign), mc.degree, mc.longitude, false)
      && forall k :: 0 <= k < |ps| - 1 ==> WellNamed(ps[k])
  {
    BodyEntriesFromFacts(Bodies, ephemeris, 0);
    var bs := BodyEntriesFrom(Bodies, ephemeris, 0);
    forall k | 0 <= k < |bs| ensures WellNamed(PlanetsData(ephemeris, mc)[k]) {
      assert PlanetsData(ephemeris, mc)[k] == bs[k];
      assert bs[k] in bs;
      var j :| 0 <= j < |Bodies| && BodyEntryOf(Bodies[j], ephemeris(Bodies[j].id)) == Some(bs[k]);
      BodyEntryOfFacts(Bodies[j], ephemeris(Bodies[j].id));
    }
  }

  // ---------------------------------------------------------------------------
  // calculate_astrology
  // ---------------------------------------------------------------------------

  /**
   * The request fields, each a string or absent (`None`).  A field present with
   * a JSON null or a non-string value, and a body that is not JSON, are not
   * part of this model.
   */
  datatype Request = Request(name: Option<string>, birthDate: Option<string>, birthTime: Option<string>,
                             birthPlace: Option<string>)

  datatype BirthInfo = BirthInfo(date: string, time: string, place: string)
  datatype Ascendant = Ascendant(sign: string, signJp: string, degree: real, longitude: real)
  datatype Reply = Reply(name: string, birthInfo: BirthInfo, calculationMethod: string,
                         planets: seq<BodyEntry>, ascendant: Ascendant)

  const DefaultTime: string := "12:00"
  const DefaultPlace: string := "東京都新宿区"

  /**
   * The reply of `calculate_astrology` for a request, given what the
   * ephemeris computed for it (per body number, and for the houses); `None`
   * when reading the date or the time raises, which the route answers with
   * status 500.
   */
  function CalculateAstrology(req: Request, ephemeris: nat -> Reading, houses: Option<(real, real)>): Option<Reply>
  {
    var birthDate := req.birthDate.GetOr("");
    var birthTime := req.birthTime.GetOr(DefaultTime);
    var date := ParseDate(birthDate);
    if date.None? || ParseTime(birthTime).None? then None
    else
      var (asc, mc) := Angles(houses);
      Some(Reply(req.name.GetOr(""),
                 BirthInfo(DateLabel(date.value), birthTime, req.birthPlace.GetOr(DefaultPlace)),
                 "Swiss Ephemeris (High Precision)",
                 PlanetsData(ephemeris, mc),
                 Ascendant(asc.sign, SignJapanese(asc.sign), asc.degree, asc.longitude)))
  }

  /**
   * The route answers exactly when the date and the time (by default 12:00)
   * can be read; its date label then reads back as the birth date, and the
   * time and place are echoed as given (the place by default 東京都新宿区).
   */
  lemma CalculateAstrologyBirthInfo(req: Request, ephemeris: nat -> Reading, houses: Option<(real, real)>)
    ensures var r := CalculateAstrology(req, ephemeris, houses);
      && (r.Some? <==> ParseDate(req.birthDate.GetOr("")).Some? && ParseTime(req.birthTime.GetOr(DefaultTime)).Some?)
      && (r.Some? ==>
           && LabelDate(r.value.birthInfo.date) == ParseDate(req.birthDate.GetOr(""))
           && r.value.birthInfo == BirthInfo(r.value.birthInfo.date, req.birthTime.GetOr(DefaultTime), req.birthPlace.GetOr(DefaultPlace)))
  {
    var date := ParseDate(req.birthDate.GetOr(""));
    if date.Some? {
      LabelDateOfDateLabel(date.value);
    }
  }

  /**
   * In a reply, the ascendant's sign is that of its longitude, with the
   * Japanese name of that sign, and the body list ends with the Midheaven
   * taken from the same house calculation.
   */
  lemma CalculateAstrologyAngles(req: Request, ephemeris: nat -> Reading, houses: Option<(real, real)>)
    ensures var r := CalculateAstrology(req, ephemeris, houses);
      r.Some? ==>
        && r.value.ascendant.signJp == SignJapanese(r.value.ascendant.sign)
        && DegreeToSignAndDegree(r.value.ascendant.longitude) == Some((r.value.ascendant.sign, r.value.ascendant.degree))
        && r.value.planets == PlanetsData(ephemeris, Angles(houses).1)
        && r.value.planets[|r.value.planets| - 1].nameEn == "Midheaven"
  {
    AnglesFacts(houses);
    PlanetsDataFacts(ephemeris, Angles(houses).1);
  }

  /** A request without a birth date fails. */
  lemma MissingDateFails()
    ensures ParseDate("").None?
  {
    SplitWhole("", '-');
  }
}
