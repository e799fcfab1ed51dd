/**
 * The Python string operations the core relies on: `sep.join`, `str.split(sep)`,
 * `str.strip()`, `str.replace`, the `in` substring test, `str(int)`, `int(str)`
 * and the `{:02d}` format.  Strings are sequences of Unicode code points, so
 * `|s|` is Python's `len(s)`.
 */
module Text {
  import opened Wrappers

  // ---------------------------------------------------------------------------
  // Substrings
  // ---------------------------------------------------------------------------

  predicate MatchAt(s: string, t: string, j: nat)
  {
    j + |t| <= |s| && s[j..j + |t|] == t
  }

  /** The first position at or after `i` where `t` occurs in `s`. */
  function FindFrom(s: string, t: string, i: nat): (r: Option<nat>)
    requires i <= |s|
    ensures r.Some? ==> i <= r.value && MatchAt(s, t, r.value)
    ensures r.Some? ==> forall j :: i <= j < r.value ==> !MatchAt(s, t, j)
    ensures r.None? ==> forall j :: i <= j ==> !MatchAt(s, t, j)
    decreases |s| - i
  {
    if i + |t| > |s| then None
    else if s[i..i + |t|] == t then Some(i)
    else FindFrom(s, t, i + 1)
  }

  /** Python's `needle in hay` for strings. */
  predicate IsSubstring(needle: string, hay: string)
  {
    FindFrom(hay, needle, 0).Some?
  }

  lemma IsSubstringIff(needle: string, hay: string)
    ensures IsSubstring(needle, hay) <==> exists j: nat :: MatchAt(hay, needle, j)
  {
    if !IsSubstring(needle, hay) {
      assert forall j: nat :: !MatchAt(hay, needle, j);
    }
  }

  /** The empty string occurs in every string, and every string occurs in itself. */
  lemma IsSubstringTrivial(hay: string)
    ensures IsSubstring("", hay) && IsSubstring(hay, hay)
  {
    assert MatchAt(hay, "", 0);
    assert MatchAt(hay, hay, 0);
  }

  /** A string embedded between two others occurs in the result. */
  lemma IsSubstringOfConcat(a: string, t: string, b: string)
    ensures IsSubstring(t, a + (t + b))
  {
    var s := a + (t + b);
    assert s[|a|..|a| + |t|] == t;
    assert MatchAt(s, t, |a|);
    IsSubstringIff(t, s);
  }

  lemma ConcatAssoc(a: string, b: string, c: string)
    ensures a + (b + c) == (a + b) + c
  {
  }

  // ---------------------------------------------------------------------------
  // join and split
  // ---------------------------------------------------------------------------

  /** `sep.join(parts)` */
  function Join(parts: seq<string>, sep: string): string
  {
    if |parts| == 0 then ""
    else if |parts| == 1 then parts[0]
    else parts[0] + sep + Join(parts[1..], sep)
  }

  /** `s.split(sep)` for a non-empty separator: cut at the leftmost occurrence, repeatedly. */
  function Split(s: string, sep: string): (parts: seq<string>)
    requires |sep| > 0
    ensures |parts| >= 1
    decreases |s|
  {
    match FindFrom(s, sep, 0)
    case None => [s]
    case Some(i) => [s[..i]] + Split(s[i + |sep|..], sep)
  }

  lemma JoinCons(head: string, tail: seq<string>, sep: string)
    requires |tail| >= 1
    ensures Join([head] + tail, sep) == head + sep + Join(tail, sep)
  {
    assert ([head] + tail)[1..] == tail;
  }

  /** Splitting and joining back with the same separator is the identity. */
  lemma {:induction false} JoinSplit(s: string, sep: string)
    requires |sep| > 0
    ensures Join(Split(s, sep), sep) == s
    decreases |s|
  {
    var f := FindFrom(s, sep, 0);
    if f.Some? {
      var i := f.value;
      var rest := s[i + |sep|..];
      var tail := Split(rest, sep);
      JoinSplit(rest, sep);
      assert Split(s, sep) == [s[..i]] + tail;
      JoinCons(s[..i], tail, sep);
      assert s[i..i + |sep|] == sep;
      assert s == s[..i] + s[i..i + |sep|] + rest;
    }
  }

  /** No piece produced by `split` contains the separator. */
  lemma {:induction false} SplitPiecesFree(s: string, sep: string)
    requires |sep| > 0
    ensures forall p :: p in Split(s, sep) ==> !IsSubstring(sep, p)
    decreases |s|
  {
    match FindFrom(s, sep, 0)
    case None =>
      IsSubstringIff(sep, s);
    case Some(i) =>
      var head := s[..i];
      SplitPiecesFree(s[i + |sep|..], sep);
      assert Split(s, sep) == [head] + Split(s[i + |sep|..], sep);
      if IsSubstring(sep, head) {
        IsSubstringIff(sep, head);
        var j: nat :| MatchAt(head, sep, j);
        assert s[j..j + |sep|] == head[j..j + |sep|];
        assert MatchAt(s, sep, j);
      }
  }

  // ---------------------------------------------------------------------------
  // strip and replace
  // ---------------------------------------------------------------------------

  /**
   * The characters for which Python's `str.isspace()` holds, as inclusive
   * ranges of code points.
   */
  const SpaceRanges: seq<(char, char)> :=
    [(' ', ' '), ('\t', '\r'), ('\U{001C}', '\U{001F}'), ('\U{0085}', '\U{0085}'),
     ('\U{00A0}', '\U{00A0}'), ('\U{1680}', '\U{1680}'), ('\U{2000}', '\U{200A}'),
     ('\U{2028}', '\U{2029}'), ('\U{202F}', '\U{202F}'), ('\U{205F}', '\U{205F}'),
     ('\U{3000}', '\U{3000}')]

  predicate InRanges(c: char, ranges: seq<(char, char)>)
  {
    ranges != [] && (ranges[0].0 <= c <= ranges[0].1 || InRanges(c, ranges[1..]))
  }

  predicate IsSpace(c: char)
  {
    InRanges(c, SpaceRanges)
  }

  /** A character between `lo` and `hi` is in none of the ranges that lie wholly outside `lo..hi`. */
  lemma {:induction false} OutsideRanges(c: char, ranges: seq<(char, char)>, lo: char, hi: char)
    requires lo <= c <= hi
    requires forall i :: 0 <= i < |ranges| ==> ranges[i].1 < lo || hi < ranges[i].0
    ensures !InRanges(c, ranges)
  {
    if ranges != [] {
      OutsideRanges(c, ranges[1..], lo, hi);
    }
  }

  /** Printable ASCII other than the space (digits, signs, letters) is not whitespace. */
  lemma VisibleAsciiNotSpace(c: char)
    requires '!' <= c <= '~'
    ensures !IsSpace(c)
  {
    OutsideRanges(c, SpaceRanges, '!', '~');
  }

  predicate AllSpace(s: string)
  {
    forall i :: 0 <= i < |s| ==> IsSpace(s[i])
  }

  lemma AllSpaceTail(s: string)
    requires s != ""
    ensures AllSpace(s) <==> IsSpace(s[0]) && AllSpace(s[1..])
  {
    if IsSpace(s[0]) && AllSpace(s[1..]) {
      forall k | 1 <= k < |s| ensures IsSpace(s[k]) {
        assert s[k] == s[1..][k - 1];
      }
    }
  }

  lemma AllSpaceInit(s: string)
    requires s != ""
    ensures AllSpace(s) <==> IsSpace(s[|s| - 1]) && AllSpace(s[..|s| - 1])
  {
  }

  /** `s.lstrip()` */
  function StripLeft(s: string): string
  {
    if s == "" then s else if IsSpace(s[0]) then StripLeft(s[1..]) else s
  }

  /** `s.rstrip()` */
  function StripRight(s: string): string
  {
    if s == "" then s else if IsSpace(s[|s| - 1]) then StripRight(s[..|s| - 1]) else s
  }

  /** Python's `s.strip()` with no arguments. */
  function Strip(s: string): string
  {
    StripRight(StripLeft(s))
  }

  /** `lstrip` keeps a suffix of `s` that is empty exactly when `s` is all whitespace, and otherwise starts with a non-space. */
  lemma {:induction false} StripLeftFacts(s: string)
    ensures |StripLeft(s)| <= |s| && StripLeft(s) == s[|s| - |StripLeft(s)|..]
    ensures StripLeft(s) == "" <==> AllSpace(s)
    ensures StripLeft(s) != "" ==> !IsSpace(StripLeft(s)[0])
  {
    if s != "" {
      AllSpaceTail(s);
      if IsSpace(s[0]) {
        StripLeftFacts(s[1..]);
      }
    }
  }

  /** `rstrip` keeps a prefix of `s` that is empty exactly when `s` is all whitespace, and otherwise ends with a non-space. */
  lemma {:induction false} StripRightFacts(s: string)
    ensures |StripRight(s)| <= |s| && StripRight(s) == s[..|StripRight(s)|]
    ensures StripRight(s) == "" <==> AllSpace(s)
    ensures StripRight(s) != "" ==> !IsSpace(StripRight(s)[|StripRight(s)| - 1])
  {
    if s != "" {
      AllSpaceInit(s);
      if IsSpace(s[|s| - 1]) {
        StripRightFacts(s[..|s| - 1]);
      }
    }
  }

  /** `strip` gives the empty string exactly for all-whitespace text, and otherwise text with no whitespace at either end. */
  lemma StripFacts(s: string)
    ensures |Strip(s)| <= |s|
    ensures Strip(s) == "" <==> AllSpace(s)
    ensures Strip(s) != "" ==> !IsSpace(Strip(s)[0]) && !IsSpace(Strip(s)[|Strip(s)| - 1])
  {
    var l := StripLeft(s);
    StripLeftFacts(s);
    StripRightFacts(l);
    if l != "" {
      assert !AllSpace(l);
    }
    assert Strip(s) != "" ==> Strip(s)[0] == l[0];
  }

  /** Text that neither starts nor ends with whitespace is left as it is. */
  lemma StripUnchanged(s: string)
    requires s != "" && !IsSpace(s[0]) && !IsSpace(s[|s| - 1])
    ensures Strip(s) == s
  {
  }

  /** Python's `s.replace('\n', '<br/>')`. */
  function ReplaceNewlines(s: string): string
  {
    if s == "" then ""
    else (if s[0] == '\n' then "<br/>" else [s[0]]) + ReplaceNewlines(s[1..])
  }

  /** The replacement leaves no line break, changes text without one not at all, and keeps non-empty text non-empty. */
  lemma {:induction false} ReplaceNewlinesFacts(s: string)
    ensures '\n' !in ReplaceNewlines(s)
    ensures '\n' !in s ==> ReplaceNewlines(s) == s
    ensures s != "" ==> ReplaceNewlines(s) != ""
  {
    if s != "" {
      ReplaceNewlinesFacts(s[1..]);
      assert s == [s[0]] + s[1..];
    }
  }

  // ---------------------------------------------------------------------------
  // Integers and text
  // ---------------------------------------------------------------------------

  predicate IsDigit(c: char)
  {
    '0' <= c <= '9'
  }

  function DigitChar(d: nat): (c: char)
    requires d < 10
    ensures IsDigit(c)
  {
    ['0', '1', '2', '3', '4', '5', '6', '7', '8', '9'][d]
  }

  function DigitValue(c: char): (d: nat)
    requires IsDigit(c)
    ensures d < 10
  {
    (c as int - '0' as int) as nat
  }

  predicate AllDigits(s: string)
  {
    forall i :: 0 <= i < |s| ==> IsDigit(s[i])
  }

  /** The value of a string of decimal digits. */
  function DigitsValue(s: string): (v: int)
    requires AllDigits(s)
    ensures v >= 0
  {
    if s == "" then 0 else 10 * DigitsValue(s[..|s| - 1]) + DigitValue(s[|s| - 1])
  }

  /** `str(n)` for a natural number. */
  function NatToString(n: nat): (s: string)
    ensures |s| >= 1 && AllDigits(s)
  {
    if n < 10 then [DigitChar(n)] else NatToString(n / 10) + [DigitChar(n % 10)]
  }

  /** `str(n)` */
  function IntToString(n: int): (s: string)
    ensures |s| >= 1
  {
    if n < 0 then "-" + NatToString(-n) else NatToString(n)
  }

  /**
   * The code point of the digit zero of the run of ten Unicode decimal digits
   * (general category Nd) that holds `c`, if any: ASCII, Arabic-Indic,
   * Devanagari, …, the full-width digits at U+FF10 and the rest, as the Unicode
   * 15.0 character database lists them.
   */
  function DecimalZero(c: char): Option<int>
  {
    var n := c as int;
    if n < 0x30 then None else if n < 0x3A then Some(0x30)
    else if n < 0x660 then None else if n < 0x66A then Some(0x660)
    else if n < 0x6F0 then None else if n < 0x6FA then Some(0x6F0)
    else if n < 0x7C0 then None else if n < 0x7CA then Some(0x7C0)
    else if n < 0x966 then None else if n < 0x970 then Some(0x966)
    else if n < 0x9E6 then None else if n < 0x9F0 then Some(0x9E6)
    else if n < 0xA66 then None else if n < 0xA70 then Some(0xA66)
    else if n < 0xAE6 then None else if n < 0xAF0 then Some(0xAE6)
    else if n < 0xB66 then None else if n < 0xB70 then Some(0xB66)
    else if n < 0xBE6 then None else if n < 0xBF0 then Some(0xBE6)
    else if n < 0xC66 then None else if n < 0xC70 then Some(0xC66)
    else if n < 0xCE6 then None else if n < 0xCF0 then Some(0xCE6)
    else if n < 0xD66 then None else if n < 0xD70 then Some(0xD66)
    else if n < 0xDE6 then None else if n < 0xDF0 then Some(0xDE6)
    else if n < 0xE50 then None else if n < 0xE5A then Some(0xE50)
    else if n < 0xED0 then None else if n < 0xEDA then Some(0xED0)
    else if n < 0xF20 then None else if n < 0xF2A then Some(0xF20)
    else if n < 0x1040 then None else if n < 0x104A then Some(0x1040)
    else if n < 0x1090 then None else if n < 0x109A then Some(0x1090)
    else if n < 0x17E0 then None else if n < 0x17EA then Some(0x17E0)
    else if n < 0x1810 then None else if n < 0x181A then Some(0x1810)
    else if n < 0x1946 then None else if n < 0x1950 then Some(0x1946)
    else if n < 0x19D0 then None else if n < 0x19DA then Some(0x19D0)
    else if n < 0x1A80 then None else if n < 0x1A8A then Some(0x1A80)
    else if n < 0x1A90 then None else if n < 0x1A9A then Some(0x1A90)
    else if n < 0x1B50 then None else if n < 0x1B5A then Some(0x1B50)
    else if n < 0x1BB0 then None else if n < 0x1BBA then Some(0x1BB0)
    else if n < 0x1C40 then None else if n < 0x1C4A then Some(0x1C40)
    else if n < 0x1C50 then None else if n < 0x1C5A then Some(0x1C50)
    else if n < 0xA620 then None else if n < 0xA62A then Some(0xA620)
    else if n < 0xA8D0 then None else if n < 0xA8DA then Some(0xA8D0)
    else if n < 0xA900 then None else if n < 0xA90A then Some(0xA900)
    else if n < 0xA9D0 then None else if n < 0xA9DA then Some(0xA9D0)
    else if n < 0xA9F0 then None else if n < 0xA9FA then Some(0xA9F0)
    else if n < 0xAA50 then None else if n < 0xAA5A then Some(0xAA50)
    else if n < 0xABF0 then None else if n < 0xABFA then Some(0xABF0)
    else if n < 0xFF10 then None else if n < 0xFF1A then Some(0xFF10)
    else if n < 0x104A0 then None else if n < 0x104AA then Some(0x104A0)
    else if n < 0x10D30 then None else if n < 0x10D3A then Some(0x10D30)
    else if n < 0x11066 then None else if n < 0x11070 then Some(0x11066)
    else if n < 0x110F0 then None else if n < 0x110FA then Some(0x110F0)
    else if n < 0x11136 then None else if n < 0x11140 then Some(0x11136)
    else if n < 0x111D0 then None else if n < 0x111DA then Some(0x111D0)
    else if n < 0x112F0 then None else if n < 0x112FA then Some(0x112F0)
    else if n < 0x11450 then None else if n < 0x1145A then Some(0x11450)
    else if n < 0x114D0 then None else if n < 0x114DA then Some(0x114D0)
    else if n < 0x11650 then None else if n < 0x1165A then Some(0x11650)
    else if n < 0x116C0 then None else if n < 0x116CA then Some(0x116C0)
    else if n < 0x11730 then None else if n < 0x1173A then Some(0x11730)
    else if n < 0x118E0 then None else if n < 0x118EA then Some(0x118E0)
    else if n < 0x11950 then None else if n < 0x1195A then Some(0x11950)
    else if n < 0x11C50 then None else if n < 0x11C5A then Some(0x11C50)
    else if n < 0x11D50 then None else if n < 0x11D5A then Some(0x11D50)
    else if n < 0x11DA0 then None else if n < 0x11DAA then Some(0x11DA0)
    else if n < 0x11F50 then None else if n < 0x11F5A then Some(0x11F50)
    else if n < 0x16A60 then None else if n < 0x16A6A then Some(0x16A60)
    else if n < 0x16AC0 then None else if n < 0x16ACA then Some(0x16AC0)
    else if n < 0x16B50 then None else if n < 0x16B5A then Some(0x16B50)
    else if n < 0x1D7CE then None else if n < 0x1D7D8 then Some(0x1D7CE)
    else if n < 0x1D7D8 then None else if n < 0x1D7E2 then Some(0x1D7D8)
    else if n < 0x1D7E2 then None else if n < 0x1D7EC then Some(0x1D7E2)
    else if n < 0x1D7EC then None else if n < 0x1D7F6 then Some(0x1D7EC)
    else if n < 0x1D7F6 then None else if n < 0x1D800 then Some(0x1D7F6)
    else if n < 0x1E140 then None else if n < 0x1E14A then Some(0x1E140)
    else if n < 0x1E2F0 then None else if n < 0x1E2FA then Some(0x1E2F0)
    else if n < 0x1E4F0 then None else if n < 0x1E4FA then Some(0x1E4F0)
    else if n < 0x1E950 then None else if n < 0x1E95A then Some(0x1E950)
    else if n < 0x1FBF0 then None else if n < 0x1FBFA then Some(0x1FBF0)
    else None
  }

  /** A character that Python's `int()` reads as a decimal digit (`unicodedata.decimal` is defined). */
  predicate IsDecimal(c: char)
  {
    DecimalZero(c).Some?
  }

  /** The value of a decimal digit of any script. */
  function DecimalValue(c: char): (d: nat)
    requires IsDecimal(c)
    ensures d < 10
  {
    (c as int - DecimalZero(c).value) as nat
  }

  /** The ASCII digits are decimal digits with their usual values. */
  lemma AsciiDecimal(c: char)
    requires IsDigit(c)
    ensures IsDecimal(c) && DecimalValue(c) == DigitValue(c)
  {
  }

  /**
   * The digits of a base-10 numeral as `int()` accepts them: decimal digits of
   * any script, with single underscores allowed between two digits.
   */
  predicate IsNumeral(s: string)
  {
    && s != "" && s[0] != '_' && s[|s| - 1] != '_'
    && (forall i :: 0 <= i < |s| ==> IsDecimal(s[i]) || s[i] == '_')
    && (forall i :: 0 <= i < |s| - 1 ==> s[i] != '_' || s[i + 1] != '_')
  }

  predicate DecimalsOrUnderscores(s: string)
  {
    forall i :: 0 <= i < |s| ==> IsDecimal(s[i]) || s[i] == '_'
  }

  /** The value of the digits of `s`, underscores skipped. */
  function NumeralValue(s: string): (v: int)
    requires DecimalsOrUnderscores(s)
    ensures v >= 0
  {
    if s == "" then 0
    else if s[|s| - 1] == '_' then NumeralValue(s[..|s| - 1])
    else 10 * NumeralValue(s[..|s| - 1]) + DecimalValue(s[|s| - 1])
  }

  /** The information separators U+001C..U+001F, which `str.strip()` removes but `int()` does not skip. */
  predicate IsInfoSeparator(c: char)
  {
    '\U{001C}' <= c <= '\U{001F}'
  }

  predicate HasInfoSeparator(s: string)
  {
    exists i :: 0 <= i < |s| && IsInfoSeparator(s[i])
  }

  /**
   * Python's `int(s)` for base 10: surrounding whitespace, an optional sign and
   * a numeral; anything else raises ValueError (`None`).  `int()` skips the same
   * whitespace as `str.strip()` except the information separators, and those
   * are rejected wherever they stand.
   */
  function ParseInt(s: string): Option<int>
  {
    if HasInfoSeparator(s) then None
    else ParseStripped(Strip(s))
  }

  /** `int(t)` for text without surrounding whitespace: an optional sign and a numeral. */
  function ParseStripped(t: string): Option<int>
  {
    if t != "" && (t[0] == '-' || t[0] == '+') then
      var body := t[1..];
      if IsNumeral(body) then
        Some(if t[0] == '-' then -NumeralValue(body) else NumeralValue(body))
      else None
    else if IsNumeral(t) then Some(NumeralValue(t))
    else None
  }

  /** A string of ASCII digits is a numeral whose value is its positional value. */
  lemma {:induction false} AsciiNumeral(d: string)
    requires AllDigits(d)
    ensures DecimalsOrUnderscores(d)
    ensures d != "" ==> IsNumeral(d)
    ensures NumeralValue(d) == DigitsValue(d)
  {
    forall i | 0 <= i < |d| ensures IsDecimal(d[i]) && DecimalValue(d[i]) == DigitValue(d[i]) {
      AsciiDecimal(d[i]);
    }
    if d != "" {
      AsciiNumeral(d[..|d| - 1]);
    }
  }

  /** An underscore between two runs of digits does not change the value `int()` reads. */
  lemma {:induction false} UnderscoreIgnored(a: string, b: string)
    requires DecimalsOrUnderscores(a) && DecimalsOrUnderscores(b)
    ensures DecimalsOrUnderscores(a + "_" + b) && DecimalsOrUnderscores(a + b)
    ensures NumeralValue(a + "_" + b) == NumeralValue(a + b)
  {
    assert forall i :: 0 <= i < |a + "_" + b| ==> (a + "_" + b)[i] == if i < |a| then a[i] else if i == |a| then '_' else b[i - |a| - 1];
    assert forall i :: 0 <= i < |a + b| ==> (a + b)[i] == if i < |a| then a[i] else b[i - |a|];
    if b == "" {
      assert (a + "_" + b)[..|a|] == a && a + b == a;
    } else {
      var n := |b| - 1;
      UnderscoreIgnored(a, b[..n]);
      assert (a + "_" + b)[..|a + "_" + b| - 1] == a + "_" + b[..n];
      assert (a + b)[..|a + b| - 1] == a + b[..n];
    }
  }

  /** Characters above U+3000 (ideographic space) are not whitespace. */
  lemma HighNotSpace(c: char)
    requires c > '\U{3000}'
    ensures !IsSpace(c)
  {
    OutsideRanges(c, SpaceRanges, '\U{3001}', '\U{10FFFF}');
  }

  /** `int()` of a numeral that neither starts nor ends with whitespace is its value. */
  lemma ParseIntOfNumeral(t: string)
    requires IsNumeral(t) && !IsSpace(t[0]) && !IsSpace(t[|t| - 1])
    requires forall i :: 0 <= i < |t| ==> !IsInfoSeparator(t[i])
    ensures ParseInt(t) == Some(NumeralValue(t))
  {
    StripUnchanged(t);
    NumeralUnsigned(t);
    ParseIntUnstripped(t, NumeralValue(t));
  }

  /** A numeral has no sign, so `int()` reads it whole. */
  lemma NumeralUnsigned(t: string)
    requires IsNumeral(t)
    ensures ParseStripped(t) == Some(NumeralValue(t))
  {
    assert IsDecimal(t[0]);
  }

  /** ASCII digits written in their full-width forms U+FF10..U+FF19, as a Japanese form may send them. */
  function FullWidth(d: string): (w: string)
    requires AllDigits(d)
    ensures |w| == |d|
    ensures forall i :: 0 <= i < |d| ==> w[i] as int == d[i] as int + 0xFEE0
  {
    if d == "" then ""
    else FullWidth(d[..|d| - 1]) + [(d[|d| - 1] as int + 0xFEE0) as char]
  }

  /** Full-width digits are decimal digits with the values of their ASCII forms. */
  lemma {:induction false} FullWidthNumeral(d: string)
    requires AllDigits(d)
    ensures DecimalsOrUnderscores(FullWidth(d))
    ensures NumeralValue(FullWidth(d)) == DigitsValue(d)
  {
    var w := FullWidth(d);
    forall i | 0 <= i < |w| ensures IsDecimal(w[i]) && DecimalValue(w[i]) == DigitValue(d[i]) {
      assert 0xFF10 <= w[i] as int < 0xFF1A;
    }
    if d != "" {
      FullWidthNumeral(d[..|d| - 1]);
      assert w[..|w| - 1] == FullWidth(d[..|d| - 1]);
    }
  }

  /** `int("１９９０") == 1990`: full-width digits read as the ASCII ones do. */
  lemma ParseIntFullWidth(d: string)
    requires d != "" && AllDigits(d)
    ensures ParseInt(FullWidth(d)) == Some(DigitsValue(d))
  {
    var w := FullWidth(d);
    FullWidthNumeral(d);
    HighNotSpace(w[0]);
    HighNotSpace(w[|w| - 1]);
    assert IsNumeral(w) by {
      forall i | 0 <= i < |w| ensures w[i] != '_' {
        assert w[i] as int >= 0xFF10;
      }
    }
    ParseIntOfNumeral(w);
  }

  /** `int("1_990") == int("1990")`: one underscore between digits is skipped. */
  lemma ParseIntUnderscore(a: string, b: string)
    requires a != "" && AllDigits(a) && b != "" && AllDigits(b)
    ensures ParseInt(a + "_" + b) == Some(DigitsValue(a + b))
  {
    UnderscoreNumeral(a, b);
    ParseIntOfNumeral(a + "_" + b);
  }

  /** ASCII digits with one underscore inside form a numeral of plain ASCII, worth the digits' value. */
  lemma UnderscoreNumeral(a: string, b: string)
    requires a != "" && AllDigits(a) && b != "" && AllDigits(b)
    ensures var t := a + "_" + b;
      && IsNumeral(t) && NumeralValue(t) == DigitsValue(a + b)
      && !IsSpace(t[0]) && !IsSpace(t[|t| - 1])
      && forall i :: 0 <= i < |t| ==> !IsInfoSeparator(t[i])
  {
    var t := a + "_" + b;
    assert AllDigits(a + b);
    AsciiNumeral(a);
    AsciiNumeral(b);
    AsciiNumeral(a + b);
    UnderscoreIgnored(a, b);
    NumeralJoin(a, b);
    assert t[0] == a[0] && t[|t| - 1] == b[|b| - 1];
    VisibleAsciiNotSpace(t[0]);
    VisibleAsciiNotSpace(t[|t| - 1]);
    forall i | 0 <= i < |t| ensures !IsInfoSeparator(t[i]) {
      if i < |a| { assert t[i] == a[i]; } else if i > |a| { assert t[i] == b[i - |a| - 1]; }
    }
  }

  /** Two numerals joined by one underscore form a numeral. */
  lemma NumeralJoin(a: string, b: string)
    requires IsNumeral(a) && IsNumeral(b)
    ensures IsNumeral(a + "_" + b)
  {
    var t := a + "_" + b;
    forall i | 0 <= i < |t| ensures IsDecimal(t[i]) || t[i] == '_' {
      if i < |a| { assert t[i] == a[i]; } else if i > |a| { assert t[i] == b[i - |a| - 1]; }
    }
    forall i | 0 <= i < |t| - 1 ensures t[i] != '_' || t[i + 1] != '_' {
      if i < |a| - 1 {
        assert t[i] == a[i] && t[i + 1] == a[i + 1];
      } else if i == |a| - 1 {
        assert t[i] == a[|a| - 1];
      } else if i == |a| {
        assert t[i + 1] == b[0];
      } else {
        assert t[i] == b[i - |a| - 1] && t[i + 1] == b[i - |a|];
      }
    }
    assert t[0] == a[0] && t[|t| - 1] == b[|b| - 1];
  }

  /** `int("1__990")` raises: two underscores in a row are refused. */
  lemma DoubleUnderscoreRefused(a: string, b: string)
    requires AllDigits(a) && AllDigits(b)
    ensures ParseInt(a + "__" + b) == None
  {
    var t := a + "__" + b;
    assert t[|a|] == '_' && t[|a| + 1] == '_';
    assert t[0] == '_' || IsDigit(t[0]);
    assert t[|t| - 1] == '_' || IsDigit(t[|t| - 1]);
    VisibleAsciiNotSpace(t[0]);
    VisibleAsciiNotSpace(t[|t| - 1]);
    StripUnchanged(t);
    assert !IsNumeral(t);
    NotSigned(t);
  }

  /** Text starting with an ASCII digit or an underscore has no sign. */
  lemma NotSigned(t: string)
    requires t != "" && (t[0] == '_' || IsDigit(t[0])) && !IsNumeral(t)
    ensures ParseStripped(t) == None
  {
  }

  /** Without information separators, `int(s)` reads the stripped text. */
  lemma ParseIntStrips(s: string)
    requires forall i :: 0 <= i < |s| ==> !IsInfoSeparator(s[i])
    ensures ParseInt(s) == ParseStripped(Strip(s))
  {
  }

  /** `str.strip()` removes a leading U+001C but `int()` refuses it. */
  lemma InfoSeparatorRefused(d: string)
    requires d != "" && AllDigits(d)
    ensures ParseInt("\U{001C}" + d) == None
  {
    assert IsInfoSeparator(("\U{001C}" + d)[0]);
  }

  lemma {:induction false} DigitsOfNat(n: nat)
    ensures DigitsValue(NatToString(n)) == n
  {
    var s := NatToString(n);
    if n < 10 {
      assert s[..0] == "";
      assert DigitValue(DigitChar(n)) == n;
    } else {
      DigitsOfNat(n / 10);
      assert s[..|s| - 1] == NatToString(n / 10);
      assert DigitValue(DigitChar(n % 10)) == n % 10;
    }
  }

  lemma DigitsLeadingZero(s: string)
    requires AllDigits(s)
    ensures AllDigits("0" + s) && DigitsValue("0" + s) == DigitsValue(s)
    decreases |s|
  {
    if s != "" {
      DigitsLeadingZero(s[..|s| - 1]);
      assert ("0" + s)[..|"0" + s| - 1] == "0" + s[..|s| - 1];
    } else {
      assert ("0" + s)[..0] == "";
    }
  }

  lemma ParseIntOfDigits(d: string)
    requires d != "" && AllDigits(d)
    ensures ParseInt(d) == Some(DigitsValue(d))
  {
    VisibleAsciiNotSpace(d[0]);
    VisibleAsciiNotSpace(d[|d| - 1]);
    StripUnchanged(d);
    AsciiNumeral(d);
    ParseIntStrips(d);
  }

  lemma ParseIntOfNegativeDigits(d: string, m: int)
    requires d != "" && AllDigits(d) && DigitsValue(d) == m
    ensures ParseInt("-" + d) == Some(-m)
  {
    NegativeUnstripped(d);
    ParseStrippedNegative(d);
    SignedDigitsPlain(d);
    ParseIntUnstripped("-" + d, -m);
  }

  /** Text that `strip()` leaves alone and that holds no information separator is read as it stands. */
  lemma ParseIntUnstripped(s: string, v: int)
    requires forall i :: 0 <= i < |s| ==> !IsInfoSeparator(s[i])
    requires Strip(s) == s && ParseStripped(s) == Some(v)
    ensures ParseInt(s) == Some(v)
  {
    ParseIntStrips(s);
  }

  /** A minus sign and ASCII digits hold no information separator. */
  lemma SignedDigitsPlain(d: string)
    requires AllDigits(d)
    ensures forall i :: 0 <= i < |"-" + d| ==> !IsInfoSeparator(("-" + d)[i])
  {
    var s := "-" + d;
    forall i | 0 <= i < |s| ensures !IsInfoSeparator(s[i]) {
      if i > 0 { assert s[i] == d[i - 1]; }
    }
  }

  lemma NegativeUnstripped(d: string)
    requires d != "" && AllDigits(d)
    ensures Strip("-" + d) == "-" + d
  {
    var s := "-" + d;
    assert s[0] == '-' && s[|s| - 1] == d[|d| - 1];
    VisibleAsciiNotSpace('-');
    VisibleAsciiNotSpace(d[|d| - 1]);
    StripUnchanged(s);
  }

  lemma ParseStrippedNegative(d: string)
    requires d != "" && AllDigits(d)
    ensures ParseStripped("-" + d) == Some(-DigitsValue(d))
  {
    var t := "-" + d;
    assert t[0] == '-' && t[1..] == d;
    AsciiNumeral(d);
  }


  /** `int(str(n)) == n` */
  lemma ParseIntOfIntToString(n: int)
    ensures ParseInt(IntToString(n)) == Some(n)
  {
    if n < 0 {
      var d := NatToString(-n);
      DigitsOfNat(-n);
      ParseIntOfNegativeDigits(d, -n);
    } else {
      DigitsOfNat(n);
      ParseIntOfDigits(NatToString(n));
    }
  }

  /** Python's `f"{n:02d}"`: zero-padded to two characters. */
  function Pad2(n: int): (s: string)
    ensures n > -10 ==> |s| >= 2
    ensures 0 <= n < 10 ==> |s| == 2 && s[0] == '0'
    ensures n >= 10 || n <= -10 ==> s == IntToString(n)
  {
    if 0 <= n < 10 then "0" + NatToString(n) else IntToString(n)
  }

  /** Padding does not change the value that `int()` reads back. */
  lemma ParseIntOfPad2(n: int)
    ensures ParseInt(Pad2(n)) == Some(n)
  {
    if 0 <= n < 10 {
      var s := Pad2(n);
      DigitsOfNat(n);
      DigitsLeadingZero(NatToString(n));
      ParseIntOfDigits(s);
    } else {
      ParseIntOfIntToString(n);
    }
  }
}
