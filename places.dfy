/**
 * Birth-place lookup.  Both the chart calculator and the birth-data service
 * keep a table of prefectural capitals and take the first entry whose name
 * contains the given place or is contained in it, falling back to Tokyo.
 * The calculator's table has 48 entries with a time-zone offset and falls
 * back to 東京都; the service's has 47 and falls back to 東京都新宿区.
 */
module Places {
  import opened Wrappers
  import opened Text

  datatype Coordinates = Coordinates(latitude: real, longitude: real, timezone: int)
  datatype LatLong = LatLong(latitude: real, longitude: real)

  /** `birth_place in place or place in birth_place` */
  predicate Matches(name: string, birthPlace: string)
  {
    IsSubstring(birthPlace, name) || IsSubstring(name, birthPlace)
  }

  /** The first entry at or after `from` whose name matches `birthPlace`. */
  function FirstMatch<T>(table: seq<(string, T)>, birthPlace: string, from: nat): (r: Option<nat>)
    requires from <= |table|
    ensures r.Some? ==> from <= r.value < |table|
    decreases |table| - from
  {
    if from == |table| then None
    else if Matches(table[from].0, birthPlace) then Some(from)
    else FirstMatch(table, birthPlace, from + 1)
  }

  /** The entry found matches and none between `from` and it does; when none is found, none matches. */
  lemma {:induction false} FirstMatchSpec<T>(table: seq<(string, T)>, birthPlace: string, from: nat)
    requires from <= |table|
    ensures var r := FirstMatch(table, birthPlace, from);
      && (r.Some? ==> Matches(table[r.value].0, birthPlace))
      && (r.Some? ==> forall j :: from <= j < r.value ==> !Matches(table[j].0, birthPlace))
      && (r.None? ==> forall j :: from <= j < |table| ==> !Matches(table[j].0, birthPlace))
    decreases |table| - from
  {
    if from < |table| && !Matches(table[from].0, birthPlace) {
      FirstMatchSpec(table, birthPlace, from + 1);
    }
  }

  /** The search loop with its early `return`, and the fallback entry. */
  function Lookup<T>(table: seq<(string, T)>, birthPlace: string, fallback: T): T
  {
    match FirstMatch(table, birthPlace, 0)
    case Some(i) => table[i].1
    case None => fallback
  }

  /** The `PREFECTURES` table of the chart calculator. */
  const AstroPrefectures: seq<(string, Coordinates)> := AstroPrefecturesEast + AstroPrefecturesWest

  /** The first sixteen entries of `AstroPrefectures`. */
  const AstroPrefecturesEast: seq<(string, Coordinates)> := [
    ("北海道札幌市", Coordinates(43.0642, 141.3469, 9)),
    ("青森県青森市", Coordinates(40.8244, 140.7400, 9)),
    ("岩手県盛岡市", Coordinates(39.7036, 141.1527, 9)),
    ("宮城県仙台市", Coordinates(38.2682, 140.8694, 9)),
    ("秋田県秋田市", Coordinates(39.7186, 140.1024, 9)),
    ("山形県山形市", Coordinates(38.2404, 140.3633, 9)),
    ("福島県福島市", Coordinates(37.7608, 140.4747, 9)),
    ("茨城県水戸市", Coordinates(36.3418, 140.4468, 9)),
    ("栃木県宇都宮市", Coordinates(36.5658, 139.8836, 9)),
    ("群馬県前橋市", Coordinates(36.3911, 139.0608, 9)),
    ("埼玉県さいたま市", Coordinates(35.8617, 139.6455, 9)),
    ("千葉県千葉市", Coordinates(35.6074, 140.1065, 9)),
    ("東京都", Coordinates(35.6762, 139.6503, 9)),
    ("東京都新宿区", Coordinates(35.6938, 139.7036, 9)),
    ("神奈川県横浜市", Coordinates(35.4478, 139.6425, 9)),
    ("新潟県新潟市", Coordinates(37.9161, 139.0364, 9))
  ]

  /** The remaining entries of `AstroPrefectures`. */
  const AstroPrefecturesWest: seq<(string, Coordinates)> := [
    ("富山県富山市", Coordinates(36.6959, 137.2139, 9)),
    ("石川県金沢市", Coordinates(36.5946, 136.6256, 9)),
    ("福井県福井市", Coordinates(36.0652, 136.2217, 9)),
    ("山梨県甲府市", Coordinates(35.6642, 138.5683, 9)),
    ("長野県長野市", Coordinates(36.6513, 138.1811, 9)),
    ("岐阜県岐阜市", Coordinates(35.3912, 136.7223, 9)),
    ("静岡県静岡市", Coordinates(34.9756, 138.3828, 9)),
    ("愛知県名古屋市", Coordinates(35.1815, 136.9066, 9)),
    ("三重県津市", Coordinates(34.7303, 136.5086, 9)),
    ("滋賀県大津市", Coordinates(35.0045, 135.8686, 9)),
    ("京都府京都市", Coordinates(35.0116, 135.7681, 9)),
    ("大阪府大阪市", Coordinates(34.6937, 135.5023, 9)),
    ("兵庫県神戸市", Coordinates(34.6901, 135.1956, 9)),
    ("奈良県奈良市", Coordinates(34.6851, 135.8048, 9)),
    ("和歌山県和歌山市", Coordinates(34.2261, 135.1675, 9)),
    ("鳥取県鳥取市", Coordinates(35.5014, 134.2378, 9)),
    ("島根県松江市", Coordinates(35.4723, 133.0505, 9)),
    ("岡山県岡山市", Coordinates(34.6617, 133.9341, 9)),
    ("広島県広島市", Coordinates(34.3853, 132.4553, 9)),
    ("山口県山口市", Coordinates(34.1858, 131.4706, 9)),
    ("徳島県徳島市", Coordinates(34.0658, 134.5594, 9)),
    ("香川県高松市", Coordinates(34.3401, 134.0431, 9)),
    ("愛媛県松山市", Coordinates(33.8416, 132.7658, 9)),
    ("高知県高知市", Coordinates(33.5597, 133.5311, 9)),
    ("福岡県福岡市", Coordinates(33.6064, 130.4181, 9)),
    ("佐賀県佐賀市", Coordinates(33.2494, 130.2989, 9)),
    ("長崎県長崎市", Coordinates(32.7503, 129.8779, 9)),
    ("熊本県熊本市", Coordinates(32.7898, 130.7417, 9)),
    ("大分県大分市", Coordinates(33.2382, 131.6126, 9)),
    ("宮崎県宮崎市", Coordinates(31.9077, 131.4202, 9)),
    ("鹿児島県鹿児島市", Coordinates(31.5966, 130.5571, 9)),
    ("沖縄県那覇市", Coordinates(26.2124, 127.6792, 9))
  ]

  /** The `PREFECTURES` table of the birth-data service. */
  const MainPrefectures: seq<(string, LatLong)> := MainPrefecturesEast + MainPrefecturesWest

  /** The first sixteen entries of `MainPrefectures`. */
  const MainPrefecturesEast: seq<(string, LatLong)> := [
    ("北海道札幌市", LatLong(43.0642, 141.3469)),
    ("青森県青森市", LatLong(40.8244, 140.7400)),
    ("岩手県盛岡市", LatLong(39.7036, 141.1527)),
    ("宮城県仙台市", LatLong(38.2682, 140.8694)),
    ("秋田県秋田市", LatLong(39.7186, 140.1024)),
    ("山形県山形市", LatLong(38.2404, 140.3633)),
    ("福島県福島市", LatLong(37.7608, 140.4747)),
    ("茨城県水戸市", LatLong(36.3418, 140.4468)),
    ("栃木県宇都宮市", LatLong(36.5658, 139.8836)),
    ("群馬県前橋市", LatLong(36.3911, 139.0608)),
    ("埼玉県さいたま市", LatLong(35.8617, 139.6455)),
    ("千葉県千葉市", LatLong(35.6074, 140.1065)),
    ("東京都新宿区", LatLong(35.6938, 139.7036)),
    ("神奈川県横浜市", LatLong(35.4478, 139.6425)),
    ("新潟県新潟市", LatLong(37.9161, 139.0364)),
    ("富山県富山市", LatLong(36.6959, 137.2139))
  ]

  /** The remaining entries of `MainPrefectures`. */
  const MainPrefecturesWest: seq<(string, LatLong)> := [
    ("石川県金沢市", LatLong(36.5946, 136.6256)),
    ("福井県福井市", LatLong(36.0652, 136.2217)),
    ("山梨県甲府市", LatLong(35.6642, 138.5683)),
    ("長野県長野市", LatLong(36.6513, 138.1811)),
    ("岐阜県岐阜市", LatLong(35.3912, 136.7223)),
    ("静岡県静岡市", LatLong(34.9756, 138.3828)),
    ("愛知県名古屋市", LatLong(35.1815, 136.9066)),
    ("三重県津市", LatLong(34.7303, 136.5086)),
    ("滋賀県大津市", LatLong(35.0045, 135.8686)),
    ("京都府京都市", LatLong(35.0116, 135.7681)),
    ("大阪府大阪市", LatLong(34.6937, 135.5023)),
    ("兵庫県神戸市", LatLong(34.6901, 135.1956)),
    ("奈良県奈良市", LatLong(34.6851, 135.8048)),
    ("和歌山県和歌山市", LatLong(34.2261, 135.1675)),
    ("鳥取県鳥取市", LatLong(35.5014, 134.2378)),
    ("島根県松江市", LatLong(35.4723, 133.0505)),
    ("岡山県岡山市", LatLong(34.6617, 133.9341)),
    ("広島県広島市", LatLong(34.3853, 132.4553)),
    ("山口県山口市", LatLong(34.1858, 131.4706)),
    ("徳島県徳島市", LatLong(34.0658, 134.5594)),
    ("香川県高松市", LatLong(34.3401, 134.0431)),
    ("愛媛県松山市", LatLong(33.8416, 132.7658)),
    ("高知県高知市", LatLong(33.5597, 133.5311)),
    ("福岡県福岡市", LatLong(33.6064, 130.4181)),
    ("佐賀県佐賀市", LatLong(33.2494, 130.2989)),
    ("長崎県長崎市", LatLong(32.7503, 129.8779)),
    ("熊本県熊本市", LatLong(32.7898, 130.7417)),
    ("大分県大分市", LatLong(33.2382, 131.6126)),
    ("宮崎県宮崎市", LatLong(31.9077, 131.4202)),
    ("鹿児島県鹿児島市", LatLong(31.5966, 130.5571)),
    ("沖縄県那覇市", LatLong(26.2124, 127.6792))
  ]

  /** `get_coordinates` of the chart calculator: the default is `PREFECTURES['東京都']`. */
  function AstroCoordinates(birthPlace: string): Coordinates
  {
    Lookup(AstroPrefectures, birthPlace, AstroPrefectures[12].1)
  }

  /** `get_coordinates` of the birth-data service: the default is `PREFECTURES['東京都新宿区']`. */
  function MainCoordinates(birthPlace: string): LatLong
  {
    Lookup(MainPrefectures, birthPlace, MainPrefectures[12].1)
  }

  /** The lookup returns the first matching entry, or the fallback exactly when no entry matches. */
  lemma LookupFirst<T>(table: seq<(string, T)>, birthPlace: string, fallback: T)
    ensures var r := Lookup(table, birthPlace, fallback);
      || (exists i :: 0 <= i < |table| && Matches(table[i].0, birthPlace) && r == table[i].1
                      && forall j :: 0 <= j < i ==> !Matches(table[j].0, birthPlace))
      || ((forall j :: 0 <= j < |table| ==> !Matches(table[j].0, birthPlace)) && r == fallback)
  {
    FirstMatchSpec(table, birthPlace, 0);
  }

  /** The fallback entries are the ones the code names. */
  lemma Fallbacks()
    ensures AstroPrefectures[12].0 == "東京都" && AstroPrefectures[13].0 == "東京都新宿区"
    ensures MainPrefectures[12].0 == "東京都新宿区"
  {
  }

  /** An empty place is contained in every name, so it gets the first entry, Sapporo. */
  lemma EmptyPlace()
    ensures AstroCoordinates("") == AstroPrefectures[0].1
    ensures MainCoordinates("") == MainPrefectures[0].1
  {
    IsSubstringTrivial(AstroPrefectures[0].0);
    IsSubstringTrivial(MainPrefectures[0].0);
  }

  /** None of the first `k` names shares its first character with `birthPlace`, either way round. */
  predicate HeadsDiffer<T>(table: seq<(string, T)>, birthPlace: string, k: nat)
    requires k <= |table| && birthPlace != ""
  {
    forall j :: 0 <= j < k ==> table[j].0 != "" && table[j].0[0] !in birthPlace && birthPlace[0] !in table[j].0
  }

  lemma AstroHeadsBeforeTokyo()
    ensures HeadsDiffer(AstroPrefectures, "東京都新宿区", 12)
  {
  }

  lemma MainHeadsBeforeShinjuku()
    ensures HeadsDiffer(MainPrefectures, "東京都新宿区", 12)
  {
  }

  /**
   * When entry `k` matches and every entry before it starts with a character
   * `birthPlace` lacks (and `birthPlace` starts with one it lacks), the lookup
   * gives entry `k`.
   */
  lemma LookupFindsEntry<T>(table: seq<(string, T)>, birthPlace: string, fallback: T, k: nat)
    requires k < |table| && Matches(table[k].0, birthPlace) && birthPlace != ""
    requires HeadsDiffer(table, birthPlace, k)
    ensures Lookup(table, birthPlace, fallback) == table[k].1
  {
    forall j | 0 <= j < k ensures !Matches(table[j].0, birthPlace) {
      NoCommonPrefixMeansNoMatch(table[j].0, birthPlace);
    }
    LookupFirst(table, birthPlace, fallback);
  }

  /**
   * In the chart calculator's table "東京都" comes before "東京都新宿区" and is
   * contained in it, so Shinjuku gets the coordinates of the 東京都 entry.
   */
  lemma ShinjukuGetsTokyo()
    ensures AstroCoordinates("東京都新宿区") == AstroPrefectures[12].1
  {
    var t := "東京都新宿区";
    assert Matches(AstroPrefectures[12].0, t) by {
      IsSubstringOfConcat("", "東京都", "新宿区");
    }
    AstroHeadsBeforeTokyo();
    LookupFindsEntry(AstroPrefectures, t, AstroPrefectures[12].1, 12);
  }

  /** The service's table has no 東京都 entry, so Shinjuku gets its own. */
  lemma ShinjukuGetsShinjuku()
    ensures MainCoordinates("東京都新宿区") == MainPrefectures[12].1
  {
    var t := "東京都新宿区";
    assert Matches(MainPrefectures[12].0, t) by {
      IsSubstringTrivial(t);
    }
    MainHeadsBeforeShinjuku();
    LookupFindsEntry(MainPrefectures, t, MainPrefectures[12].1, 12);
  }

  /** Two non-empty names neither of which contains the other's first character do not match. */
  lemma NoCommonPrefixMeansNoMatch(a: string, b: string)
    requires a != "" && b != ""
    requires a[0] !in b && b[0] !in a
    ensures !Matches(a, b)
  {
    forall k: nat ensures !MatchAt(b, a, k) {
      if k + |a| <= |b| {
        assert b[k..k + |a|][0] == b[k];
      }
    }
    forall k: nat ensures !MatchAt(a, b, k) {
      if k + |b| <= |a| {
        assert a[k..k + |b|][0] == a[k];
      }
    }
    IsSubstringIff(a, b);
    IsSubstringIff(b, a);
  }
}
