/**
 * The arithmetic of the chart: signs of the zodiac, the decomposition of an
 * ecliptic longitude into a sign and a degree, Sabian degrees, degree
 * normalisation, the angle between two longitudes, the aspect table, the
 * element and modality tables, and house assignment.  Degrees are exact
 * reals; the ephemeris that produces them is outside the model.
 */
module Chart {
  import opened Wrappers
  import opened Text

  /** The twelve keys of `SIGNS`; `SignKey` gives each one's string. */
  datatype Sign = Ari | Tau | Gem | Can | Leo | Vir | Lib | Sco | Sag | Cap | Aqu | Pis

  /** `SIGNS`, in zodiac order. */
  const Signs: seq<Sign> := [Ari, Tau, Gem, Can, Leo, Vir, Lib, Sco, Sag, Cap, Aqu, Pis]

  /** `xs[i]`, taken one position at a time so that a constant table is only opened as far as needed. */
  function Nth<T>(xs: seq<T>, i: nat): T
    requires i < |xs|
  {
    if i == 0 then xs[0] else Nth(xs[1..], i - 1)
  }

  lemma {:induction false} NthIndex<T>(xs: seq<T>, i: nat)
    requires i < |xs|
    ensures Nth(xs, i) == xs[i]
  {
    if i > 0 {
      NthIndex(xs[1..], i - 1);
    }
  }

  /** The string a sign is written as in `SIGNS`. */
  function SignKey(s: Sign): string
  {
    match s
    case Ari => "Ari" case Tau => "Tau" case Gem => "Gem" case Can => "Can"
    case Leo => "Leo" case Vir => "Vir" case Lib => "Lib" case Sco => "Sco"
    case Sag => "Sag" case Cap => "Cap" case Aqu => "Aqu" case Pis => "Pis"
  }

  /** `SIGNS_JP[sign]` */
  function SignJp(s: Sign): string
  {
    match s
    case Ari => "牡羊座" case Tau => "牡牛座" case Gem => "双子座" case Can => "蟹座"
    case Leo => "獅子座" case Vir => "乙女座" case Lib => "天秤座" case Sco => "蠍座"
    case Sag => "射手座" case Cap => "山羊座" case Aqu => "水瓶座" case Pis => "魚座"
  }

  /** `SIGNS_EN[sign]` */
  function SignEn(s: Sign): string
  {
    match s
    case Ari => "Aries" case Tau => "Taurus" case Gem => "Gemini" case Can => "Cancer"
    case Leo => "Leo" case Vir => "Virgo" case Lib => "Libra" case Sco => "Scorpio"
    case Sag => "Sagittarius" case Cap => "Capricorn" case Aqu => "Aquarius" case Pis => "Pisces"
  }

  /** The position of a sign in `SIGNS`. */
  function SignNumber(s: Sign): (i: nat)
    ensures i < 12 && Signs[i] == s
  {
    match s
    case Ari => 0 case Tau => 1 case Gem => 2 case Can => 3 case Leo => 4 case Vir => 5
    case Lib => 6 case Sco => 7 case Sag => 8 case Cap => 9 case Aqu => 10 case Pis => 11
  }

  /** The keys of `SIGNS` are twelve different strings, so a sign is determined by its key. */
  lemma SignKeyInjective(a: Sign, b: Sign)
    ensures SignKey(a) == SignKey(b) ==> a == b
  {
    if SignKey(a) == SignKey(b) {
      assert SignKey(a)[0] == SignKey(b)[0] && SignKey(a)[1] == SignKey(b)[1] && SignKey(a)[2] == SignKey(b)[2];
    }
  }

  // ---------------------------------------------------------------------------
  // longitude_to_sign
  // ---------------------------------------------------------------------------

  /** Python's `xs[i]` on a list of length `n`: a negative `i` counts from the end. */
  function PyIndex(n: nat, i: int): (r: Option<nat>)
    ensures r.Some? <==> -(n as int) <= i < n
    ensures r.Some? ==> r.value < n && (r.value == i || r.value == i + n)
  {
    if 0 <= i < n then Some(i) else if -(n as int) <= i < 0 then Some(i + n) else None
  }

  /** Python's `x % 30` on a float: the remainder takes the sign of the divisor. */
  function Mod30(x: real): real
  {
    x - 30.0 * ((x / 30.0).Floor as real)
  }

  /**
   * `longitude_to_sign`: sign `SIGNS[int(longitude // 30)]` and degree
   * `longitude % 30`; an index outside -12..11 raises IndexError.
   */
  function LongitudeToSign(longitude: real): (r: Result<(Sign, real), string>)
    ensures r.Success? ==> 0.0 <= r.value.1 < 30.0
  {
    match PyIndex(12, (longitude / 30.0).Floor)
    case None => Failure("list index out of range")
    case Some(i) => Success((Nth(Signs, i), Mod30(longitude)))
  }

  /** For 0 ≤ L < 360 the sign is number ⌊L/30⌋ and the degree lies in [0, 30), with 30·index + degree = L. */
  lemma LongitudeToSignInRange(longitude: real)
    requires 0.0 <= longitude < 360.0
    ensures var idx := (longitude / 30.0).Floor;
      && 0 <= idx < 12
      && LongitudeToSign(longitude).Success?
      && LongitudeToSign(longitude).value.0 == Signs[idx]
      && var d := LongitudeToSign(longitude).value.1;
         0.0 <= d < 30.0 && 30.0 * (idx as real) + d == longitude
  {
    var idx := (longitude / 30.0).Floor;
    assert 0 <= idx < 12;
    NthIndex(Signs, idx);
  }

  /** A longitude in [-360, 0) reads the sign list from the end, which gives the sign of L + 360. */
  lemma LongitudeToSignNegative(longitude: real)
    requires -360.0 <= longitude < 0.0
    ensures LongitudeToSign(longitude) == LongitudeToSign(longitude + 360.0)
  {
    var idx := (longitude / 30.0).Floor;
    assert ((longitude + 360.0) / 30.0).Floor == idx + 12 by {
      assert (longitude + 360.0) / 30.0 == longitude / 30.0 + 12.0;
    }
    assert Mod30(longitude + 360.0) == Mod30(longitude);
  }

  /** The decomposition fails exactly outside [-360, 360). */
  lemma LongitudeToSignFails(longitude: real)
    ensures LongitudeToSign(longitude).Failure? <==> longitude < -360.0 || longitude >= 360.0
  {
  }

  // ---------------------------------------------------------------------------
  // get_sabian_degree, normalize_degree, calculate_aspect_angle
  // ---------------------------------------------------------------------------

  /** `math.ceil(x)` */
  function Ceil(x: real): int
  {
    -((-x).Floor)
  }

  /** `get_sabian_degree`: the ceiling of a positive degree, 1 otherwise. */
  function SabianDegree(degree: real): int
  {
    if degree > 0.0 then Ceil(degree) else 1
  }

  /** For a degree in [0, 30) the Sabian degree is in 1..30, the least integer not below a positive degree. */
  lemma SabianDegreeRange(degree: real)
    requires 0.0 <= degree < 30.0
    ensures 1 <= SabianDegree(degree) <= 30
    ensures degree > 0.0 ==> (SabianDegree(degree) - 1) as real < degree <= SabianDegree(degree) as real
  {
  }

  /** The value in [0, 360) that differs from `degree` by a multiple of 360. */
  function Normalized(degree: real): real
  {
    degree - 360.0 * ((degree / 360.0).Floor as real)
  }

  /** `normalize_degree`: add 360 while negative, then subtract 360 while 360 or more. */
  method NormalizeDegree(degree: real) returns (r: real)
    ensures r == Normalized(degree)
  {
    r := degree;
    ghost var turns: int := 0;
    while r < 0.0
      invariant r == degree + 360.0 * (turns as real)
      decreases (-r).Floor + 1
    {
      r := r + 360.0;
      turns := turns + 1;
    }
    while r >= 360.0
      invariant r >= 0.0
      invariant r == degree + 360.0 * (turns as real)
      decreases r.Floor
    {
      r := r - 360.0;
      turns := turns - 1;
    }
    NormalizedUnique(degree, turns);
  }

  /** `Normalized(d)` is the only value d + 360·k in [0, 360). */
  lemma NormalizedUnique(degree: real, k: int)
    requires 0.0 <= degree + 360.0 * (k as real) < 360.0
    ensures Normalized(degree) == degree + 360.0 * (k as real)
  {
    var q := degree / 360.0;
    assert (-k) as real <= q < (-k + 1) as real;
    FloorIs(q, -k);
  }

  lemma FloorIs(x: real, n: int)
    requires n as real <= x < (n + 1) as real
    ensures x.Floor == n
  {
  }

  /** The normal form lies in [0, 360), differs by a multiple of 360, and leaves [0, 360) unchanged. */
  lemma NormalizedRange(degree: real)
    ensures 0.0 <= Normalized(degree) < 360.0
    ensures Normalized(degree) == degree + 360.0 * ((-(degree / 360.0).Floor) as real)
    ensures 0.0 <= degree < 360.0 ==> Normalized(degree) == degree
  {
    if 0.0 <= degree < 360.0 {
      NormalizedUnique(degree, 0);
    }
  }

  function Abs(x: real): real
  {
    if x < 0.0 then -x else x
  }

  /** `calculate_aspect_angle`: the distance between two longitudes, folded at 180. */
  function AspectAngle(long1: real, long2: real): real
  {
    var diff := Abs(long1 - long2);
    if diff > 180.0 then 360.0 - diff else diff
  }

  /** The angle does not depend on the order of its arguments and lies in [0, 180] for longitudes in [0, 360). */
  lemma AspectAngleFacts(long1: real, long2: real)
    ensures AspectAngle(long1, long2) == AspectAngle(long2, long1)
    ensures 0.0 <= long1 < 360.0 && 0.0 <= long2 < 360.0 ==> 0.0 <= AspectAngle(long1, long2) <= 180.0
    ensures 0.0 <= long1 < 360.0 && 0.0 <= long2 < 360.0 ==>
      AspectAngle(long1, long2) == Abs(long1 - long2) || AspectAngle(long1, long2) == 360.0 - Abs(long1 - long2)
  {
  }

  // ---------------------------------------------------------------------------
  // ASPECTS
  // ---------------------------------------------------------------------------

  datatype AspectInfo = AspectInfo(name: string, degree: real, orb: real, nameJp: string, symbol: string)

  /** `ASPECTS`, in its declaration order. */
  const AspectTable: seq<AspectInfo> := [
    AspectInfo("conjunction", 0.0, 8.0, "合", "\U{260C}"),
    AspectInfo("opposition", 180.0, 8.0, "衝", "\U{260D}"),
    AspectInfo("trine", 120.0, 8.0, "三分", "\U{25B3}"),
    AspectInfo("square", 90.0, 8.0, "矩", "\U{25A1}"),
    AspectInfo("sextile", 60.0, 6.0, "六分", "\U{26B9}")]

  predicate Within(angle: real, a: AspectInfo)
  {
    Abs(angle - a.degree) <= a.orb
  }

  /** The first aspect, at or after position `from` of the table, whose orb admits `angle`. */
  function FirstAspectFrom(angle: real, from: nat): (r: Option<nat>)
    requires from <= |AspectTable|
    ensures r.Some? ==> from <= r.value < |AspectTable|
    decreases |AspectTable| - from
  {
    if from == |AspectTable| then None
    else if Within(angle, AspectTable[from]) then Some(from)
    else FirstAspectFrom(angle, from + 1)
  }

  /** The search finds the first aspect from `from` on whose orb admits `angle`, and none when no orb does. */
  lemma {:induction false} FirstAspectFromSpec(angle: real, from: nat)
    requires from <= |AspectTable|
    ensures var r := FirstAspectFrom(angle, from);
      && (r.Some? ==> Within(angle, AspectTable[r.value]) && forall j :: from <= j < r.value ==> !Within(angle, AspectTable[j]))
      && (r.None? ==> forall j :: from <= j < |AspectTable| ==> !Within(angle, AspectTable[j]))
    decreases |AspectTable| - from
  {
    if from < |AspectTable| && !Within(angle, AspectTable[from]) {
      FirstAspectFromSpec(angle, from + 1);
    }
  }

  function FirstAspect(angle: real): Option<nat>
  {
    FirstAspectFrom(angle, 0)
  }

  // ---------------------------------------------------------------------------
  // ELEMENTS and MODALITIES
  // ---------------------------------------------------------------------------

  const ElementNames: seq<string> := ["fire", "earth", "air", "water"]

  /** `ELEMENTS`, in the order of `ElementNames`. */
  const ElementSigns: seq<seq<Sign>> := [[Ari, Leo, Sag], [Tau, Vir, Cap], [Gem, Lib, Aqu], [Can, Sco, Pis]]

  const ModalityNames: seq<string> := ["cardinal", "fixed", "mutable"]

  /** `MODALITIES`, in the order of `ModalityNames`. */
  const ModalitySigns: seq<seq<Sign>> := [[Ari, Can, Lib, Cap], [Tau, Leo, Sco, Aqu], [Gem, Vir, Sag, Pis]]

  /** The first group, at or after `from`, whose sign list contains `sign`: the loop with `break`. */
  function GroupOf(groups: seq<seq<Sign>>, sign: Sign, from: nat): (r: Option<nat>)
    requires from <= |groups|
    ensures r.Some? ==> from <= r.value < |groups| && sign in groups[r.value]
    ensures r.Some? ==> forall j :: from <= j < r.value ==> sign !in groups[j]
    ensures r.None? ==> forall j :: from <= j < |groups| ==> sign !in groups[j]
    decreases |groups| - from
  {
    if from == |groups| then None
    else if sign in groups[from] then Some(from)
    else GroupOf(groups, sign, from + 1)
  }

  /** A group list whose first group holding `sign` is number `g` makes `GroupOf` answer `g`. */
  lemma GroupOfFirst(groups: seq<seq<Sign>>, sign: Sign, g: nat)
    requires g <= |groups| && forall j :: 0 <= j < g ==> sign !in groups[j]
    requires g < |groups| ==> sign in groups[g]
    ensures GroupOf(groups, sign, 0) == if g < |groups| then Some(g) else None
  {
  }

  /** Each sign belongs to element SignNumber mod 4 and to modality SignNumber mod 3, and to no earlier group. */
  lemma SignGroups(s: Sign)
    ensures GroupOf(ElementSigns, s, 0) == Some(SignNumber(s) % 4)
    ensures GroupOf(ModalitySigns, s, 0) == Some(SignNumber(s) % 3)
  {
    SignElement(s);
    SignModality(s);
  }

  /** The element loop finds each sign in group SignNumber mod 4. */
  lemma SignElement(s: Sign)
    ensures GroupOf(ElementSigns, s, 0) == Some(SignNumber(s) % 4)
  {
    var e := SignNumber(s) % 4;
    assert s in ElementSigns[e] by {
      match s
      case Ari => case Tau => case Gem => case Can => case Leo => case Vir =>
      case Lib => case Sco => case Sag => case Cap => case Aqu => case Pis =>
    }
    assert forall j :: 0 <= j < e ==> s !in ElementSigns[j] by {
      match s
      case Ari => case Tau => case Gem => case Can => case Leo => case Vir =>
      case Lib => case Sco => case Sag => case Cap => case Aqu => case Pis =>
    }
    GroupOfFirst(ElementSigns, s, e);
  }

  /** The modality loop finds each sign in group SignNumber mod 3. */
  lemma SignModality(s: Sign)
    ensures GroupOf(ModalitySigns, s, 0) == Some(SignNumber(s) % 3)
  {
    var m := SignNumber(s) % 3;
    assert s in ModalitySigns[m] by {
      match s
      case Ari => case Tau => case Gem => case Can => case Leo => case Vir =>
      case Lib => case Sco => case Sag => case Cap => case Aqu => case Pis =>
    }
    assert forall j :: 0 <= j < m ==> s !in ModalitySigns[j] by {
      match s
      case Ari => case Tau => case Gem => case Can => case Leo => case Vir =>
      case Lib => case Sco => case Sag => case Cap => case Aqu => case Pis =>
    }
    GroupOfFirst(ModalitySigns, s, m);
  }

  /** Python's `max(counts, key=counts.get)`: the first key with the largest count. */
  function FirstMax(counts: seq<int>): (r: nat)
    requires |counts| > 0
    ensures r < |counts|
    ensures forall j :: 0 <= j < |counts| ==> counts[j] <= counts[r]
    ensures forall j :: 0 <= j < r ==> counts[j] < counts[r]
  {
    if |counts| == 1 then 0
    else
      var m := FirstMax(counts[..|counts| - 1]);
      if counts[|counts| - 1] > counts[m] then |counts| - 1 else m
  }

  /** Python's `min(counts, key=counts.get)`: the first key with the smallest count. */
  function FirstMin(counts: seq<int>): (r: nat)
    requires |counts| > 0
    ensures r < |counts|
    ensures forall j :: 0 <= j < |counts| ==> counts[r] <= counts[j]
    ensures forall j :: 0 <= j < r ==> counts[r] < counts[j]
  {
    if |counts| == 1 then 0
    else
      var m := FirstMin(counts[..|counts| - 1]);
      if counts[|counts| - 1] < counts[m] then |counts| - 1 else m
  }

  // ---------------------------------------------------------------------------
  // Houses
  // ---------------------------------------------------------------------------

  /** Longitude `l` lies between cusp i and the next one, wrapping past 360 when the next cusp is smaller. */
  predicate InHouse(cusps: seq<real>, i: nat, l: real)
    requires |cusps| == 12 && i < 12
  {
    var current := cusps[i];
    var next := cusps[(i + 1) % 12];
    if next < current then l >= current || l < next else current <= l < next
  }

  /** The house of `l`: the first cusp interval at or after `from` containing it, 12 when none does. */
  function HouseFrom(cusps: seq<real>, l: real, from: nat): (h: int)
    requires |cusps| == 12 && from <= 12
    ensures 1 <= h <= 12
    ensures (exists j :: from <= j < 12 && InHouse(cusps, j, l)) ==>
      from < h && InHouse(cusps, h - 1, l) && forall j :: from <= j < h - 1 ==> !InHouse(cusps, j, l)
    ensures (forall j :: from <= j < 12 ==> !InHouse(cusps, j, l)) ==> h == 12
    decreases 12 - from
  {
    if from == 12 then 12
    else if InHouse(cusps, from, l) then from + 1
    else HouseFrom(cusps, l, from + 1)
  }

  /** `_assign_planets_to_houses`'s choice for one planet. */
  function House(cusps: seq<real>, l: real): (h: int)
    requires |cusps| == 12
    ensures 1 <= h <= 12
  {
    HouseFrom(cusps, l, 0)
  }

  /** `int(x)` on a float: truncation toward zero. */
  function Trunc(x: real): int
  {
    if x >= 0.0 then x.Floor else -((-x).Floor)
  }

  /** `f"{int(degree)}°{int((degree % 1) * 60):02d}'"` */
  function DegreeFormatted(degree: real): string
  {
    IntToString(Trunc(degree)) + "°" + Pad2(Minutes(degree)) + "'"
  }

  /** `int((degree % 1) * 60)` */
  function Minutes(degree: real): int
  {
    Trunc((degree - (degree.Floor as real)) * 60.0)
  }

  /** For a non-negative degree the minutes are 0..59, written with two digits that read back as themselves. */
  lemma DegreeFormattedMinutes(degree: real)
    requires degree >= 0.0
    ensures 0 <= Minutes(degree) < 60
    ensures |Pad2(Minutes(degree))| == 2 && ParseInt(Pad2(Minutes(degree))) == Some(Minutes(degree))
  {
    var n := degree.Floor;
    assert n as real <= degree < n as real + 1.0;
    var f := degree - (n as real);
    var x := f * 60.0;
    assert 0.0 <= x < 60.0;
    FloorBelow(x, 60);
    assert Minutes(degree) == x.Floor;
    TwoDigits(Minutes(degree));
  }

  /**
   * The formatted degree reads back: the text before ° is the whole degrees,
   * the two characters before the closing ' are the minutes, and together they
   * round the degree down to the minute.
   */
  lemma DegreeFormattedReadsBack(degree: real)
    requires degree >= 0.0
    ensures var s := DegreeFormatted(degree);
      var w := |IntToString(degree.Floor)|;
      && |s| == w + 4 && s[w] == '°' && s[|s| - 1] == '\''
      && ParseInt(s[..w]) == Some(degree.Floor)
      && ParseInt(s[w + 1..w + 3]) == Some(Minutes(degree))
      && degree.Floor as real + Minutes(degree) as real / 60.0 <= degree
      && degree < degree.Floor as real + (Minutes(degree) + 1) as real / 60.0
  {
    var a := IntToString(degree.Floor);
    var b := Pad2(Minutes(degree));
    assert Trunc(degree) == degree.Floor;
    DegreeFormattedMinutes(degree);
    var s := a + "°" + b + "'";
    assert DegreeFormatted(degree) == s;
    assert s[..|a|] == a && s[|a| + 1..|a| + 3] == b;
    ParseIntOfIntToString(degree.Floor);
    MinutesBracket(degree);
  }

  /** The whole degrees and the minutes round a non-negative degree down to the minute. */
  lemma MinutesBracket(degree: real)
    requires degree >= 0.0
    ensures degree.Floor as real + Minutes(degree) as real / 60.0 <= degree
    ensures degree < degree.Floor as real + (Minutes(degree) + 1) as real / 60.0
  {
    var x := (degree - degree.Floor as real) * 60.0;
    assert Minutes(degree) == x.Floor;
    assert Minutes(degree) as real <= x < Minutes(degree) as real + 1.0;
  }

  lemma FloorBelow(x: real, n: int)
    requires 0.0 <= x < n as real
    ensures 0 <= x.Floor < n
  {
  }

  lemma TwoDigits(m: int)
    requires 0 <= m < 60
    ensures |Pad2(m)| == 2 && ParseInt(Pad2(m)) == Some(m)
  {
    ParseIntOfPad2(m);
    if m >= 10 {
      assert NatToString(m) == NatToString(m / 10) + [DigitChar(m % 10)];
    }
  }
}
