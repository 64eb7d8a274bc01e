/**
 * The few JavaScript string operations the screens rely on, over `seq<char>`:
 * white space as `\s` and `String.prototype.trim` see it, ASCII lower-casing,
 * `String.prototype.includes`, and the decimal rendering of a count in a
 * template literal.
 */
module Text {
  import opened Common

  /** The single white-space characters outside the range U+2000..U+200A. */
  const WhiteSpaceChars: set<char> :=
    {' ', '\t', '\n', '\U{B}', '\U{C}', '\r', '\U{A0}', '\U{1680}',
     '\U{2028}', '\U{2029}', '\U{202F}', '\U{205F}', '\U{3000}', '\U{FEFF}'}

  /** JavaScript white space and line terminators: the `\s` class, and what `trim` strips. */
  predicate IsWhiteSpace(c: char) {
    c in WhiteSpaceChars || '\U{2000}' <= c <= '\U{200A}'
  }

  /** Every character is white space (true of the empty string). */
  predicate IsBlank(s: string) {
    forall i | 0 <= i < |s| :: IsWhiteSpace(s[i])
  }

  /** `needle` occurs in `hay` starting at position `k`. */
  predicate OccursAt(hay: string, needle: string, k: int) {
    0 <= k && k + |needle| <= |hay| && hay[k..k + |needle|] == needle
  }

  // ---------------------------------------------------------------- trim

  /** Drops the leading white space. */
  function TrimStart(s: string): (r: string)
    ensures |r| <= |s| && r == s[|s| - |r|..]
    ensures forall i | 0 <= i < |s| - |r| :: IsWhiteSpace(s[i])
    ensures r != [] ==> !IsWhiteSpace(r[0])
  {
    if s != [] && IsWhiteSpace(s[0]) then TrimStart(s[1..]) else s
  }

  /** Drops the trailing white space. */
  function TrimEnd(s: string): (r: string)
    ensures |r| <= |s| && r == s[..|r|]
    ensures forall i | |r| <= i < |s| :: IsWhiteSpace(s[i])
    ensures r != [] ==> !IsWhiteSpace(r[|r| - 1])
  {
    if s != [] && IsWhiteSpace(s[|s| - 1]) then TrimEnd(s[..|s| - 1]) else s
  }

  /**
   * `String.prototype.trim`: a piece of `s` that neither starts nor ends with
   * white space, empty exactly when `s` is blank. `TrimCutsOnlyEnds` adds
   * that everything cut off on either side is white space.
   */
  function Trim(s: string): (r: string)
    ensures exists k :: OccursAt(s, r, k)
    ensures r != [] ==> !IsWhiteSpace(r[0]) && !IsWhiteSpace(r[|r| - 1])
    ensures r == [] <==> IsBlank(s)
  {
    var t := TrimStart(s);
    var r := TrimEnd(t);
    TrimPiecesFrame(s, t, r);
    r
  }

  /**
   * Trimming removes white space from the two ends and nothing else: the
   * result sits in `s` between a blank prefix and a blank suffix.
   */
  lemma TrimCutsOnlyEnds(s: string)
    ensures exists k :: OccursAt(s, Trim(s), k) && IsBlank(s[..k]) && IsBlank(s[k + |Trim(s)|..])
  {
    var t := TrimStart(s);
    var r := TrimEnd(t);
    assert Trim(s) == r;
    var k := |s| - |t|;
    TrimPiecesFrame(s, t, r);
    assert OccursAt(s, r, k) && IsBlank(s[..k]) && IsBlank(s[k + |r|..]);
  }

  /**
   * A piece `r` cut from the front of a suffix `t` of `s`, where what was
   * cut off on either side is white space, sits in `s` between a blank
   * prefix and a blank suffix.
   */
  lemma TrimPiecesFrame(s: string, t: string, r: string)
    requires |t| <= |s| && t == s[|s| - |t|..]
    requires forall i | 0 <= i < |s| - |t| :: IsWhiteSpace(s[i])
    requires |r| <= |t| && r == t[..|r|]
    requires forall i | |r| <= i < |t| :: IsWhiteSpace(t[i])
    ensures OccursAt(s, r, |s| - |t|)
    ensures IsBlank(s[..|s| - |t|]) && IsBlank(s[|s| - |t| + |r|..])
    ensures r == [] ==> IsBlank(s)
  {
    var k := |s| - |t|;
    assert s[k..][..|r|] == s[k..k + |r|];
    assert s[k + |r|..] == t[|r|..];
    forall i | 0 <= i < |s| ensures IsWhiteSpace(s[i]) || (r != [] && k <= i < k + |r|) {
      if k <= i {
        assert s[i] == t[i - k];
      }
    }
  }

  // ---------------------------------------------------------- lower case

  predicate IsUpperAscii(c: char) {
    'A' <= c <= 'Z'
  }

  /** ASCII lower-casing of one character; every other character is kept. */
  function LowerChar(c: char): (d: char)
    ensures !IsUpperAscii(d)
    ensures !IsUpperAscii(c) ==> d == c
    ensures IsUpperAscii(c) ==> d as int == c as int + 32
  {
    if IsUpperAscii(c) then (c as int + 32) as char else c
  }

  /** `String.prototype.toLowerCase`, restricted to ASCII letters. */
  function ToLower(s: string): (r: string)
    ensures |r| == |s|
    ensures forall i | 0 <= i < |s| :: r[i] == LowerChar(s[i])
  {
    if s == [] then [] else [LowerChar(s[0])] + ToLower(s[1..])
  }

  /** Two strings that differ only in the case of ASCII letters. */
  predicate EqualIgnoringCase(a: string, b: string) {
    |a| == |b| && forall i | 0 <= i < |a| :: LowerChar(a[i]) == LowerChar(b[i])
  }

  lemma ToLowerIdempotent(s: string)
    ensures ToLower(ToLower(s)) == ToLower(s)
  {
  }

  /** Strings equal up to ASCII case lower-case to the same string, and conversely. */
  lemma ToLowerEqualIffEqualIgnoringCase(a: string, b: string)
    ensures ToLower(a) == ToLower(b) <==> EqualIgnoringCase(a, b)
  {
    if ToLower(a) == ToLower(b) {
      forall i | 0 <= i < |a| ensures LowerChar(a[i]) == LowerChar(b[i]) {
        assert ToLower(a)[i] == ToLower(b)[i];
      }
    }
  }

  // ------------------------------------------------------------ includes

  /** `hay.includes(needle)`: `needle` occurs somewhere in `hay`; the empty needle occurs everywhere. */
  function Includes(hay: string, needle: string): (r: bool)
    ensures r <==> exists k :: OccursAt(hay, needle, k)
    decreases |hay|
  {
    if |needle| > |hay| then
      false
    else if hay[..|needle|] == needle then
      assert OccursAt(hay, needle, 0);
      true
    else
      OccursShift(hay, needle);
      Includes(hay[1..], needle)
  }

  /** When `needle` is not a prefix of `hay`, it occurs in `hay` exactly when it occurs in `hay[1..]`. */
  lemma OccursShift(hay: string, needle: string)
    requires |needle| <= |hay| && hay[..|needle|] != needle
    ensures (exists k :: OccursAt(hay, needle, k)) <==> (exists k :: OccursAt(hay[1..], needle, k))
  {
    if k :| OccursAt(hay, needle, k) {
      assert k != 0;
      assert hay[1..][k - 1..k - 1 + |needle|] == hay[k..k + |needle|];
      assert OccursAt(hay[1..], needle, k - 1);
    }
    if k :| OccursAt(hay[1..], needle, k) {
      assert hay[1..][k..k + |needle|] == hay[k + 1..k + 1 + |needle|];
      assert OccursAt(hay, needle, k + 1);
    }
  }

  /** A character that is neither a lower-case letter nor its upper-case form does not lower-case to it. */
  lemma LowerCharMisses(c: char, letter: char)
    requires 'a' <= letter <= 'z' && c != letter && c != (letter as int - 32) as char
    ensures LowerChar(c) != letter
  {
  }

  /**
   * A lower-case letter of `needle` that `hay` lacks in both cases keeps
   * `needle` out of the lower-cased `hay`.
   */
  lemma MissingLetterExcludes(hay: string, needle: string, i: int)
    requires 0 <= i < |needle| && 'a' <= needle[i] <= 'z'
    requires needle[i] !in hay && (needle[i] as int - 32) as char !in hay
    ensures !Includes(ToLower(hay), needle)
  {
    var lower := ToLower(hay);
    forall k | 0 <= k && k + |needle| <= |hay| ensures !OccursAt(lower, needle, k) {
      var c := hay[k + i];
      assert c in hay;
      LowerCharMisses(c, needle[i]);
      assert lower[k..k + |needle|][i] == lower[k + i];
    }
  }

  // ------------------------------------------------------- decimal text

  predicate IsDigit(c: char) {
    '0' <= c <= '9'
  }

  /** The number a string of decimal digits denotes. */
  function DecimalValue(s: string): nat
    requires forall i | 0 <= i < |s| :: IsDigit(s[i])
  {
    if s == [] then
      0
    else
      var d := s[|s| - 1];
      assert IsDigit(d);
      DecimalValue(s[..|s| - 1]) * 10 + (d as int - '0' as int)
  }

  function DigitChar(d: nat): (c: char)
    requires d < 10
    ensures IsDigit(c) && c as int - '0' as int == d
  {
    ('0' as int + d) as char
  }

  /**
   * How a template literal renders a non-negative integer: decimal digits
   * without a leading zero, which read back as the number itself.
   */
  function NatToString(n: nat): (r: string)
    ensures |r| >= 1 && forall i | 0 <= i < |r| :: IsDigit(r[i])
    ensures DecimalValue(r) == n
    ensures r[0] == '0' ==> n == 0
    decreases n
  {
    if n < 10 then
      [DigitChar(n)]
    else
      var prefix := NatToString(n / 10);
      var r := prefix + [DigitChar(n % 10)];
      assert r[..|r| - 1] == prefix;
      r
  }

  predicate AllDigits(s: string) {
    forall i | 0 <= i < |s| :: IsDigit(s[i])
  }

  /** Reads an optionally signed run of decimal digits back as an integer. */
  function ParseInt(s: string): Option<int> {
    if |s| >= 1 && AllDigits(s) then Some(DecimalValue(s))
    else if |s| >= 2 && s[0] == '-' && AllDigits(s[1..]) then Some(-(DecimalValue(s[1..]) as int))
    else None
  }

  /**
   * The decimal rendering of an integer, as `Number.prototype.toString`
   * gives it for integers below 1e21 in magnitude: a minus sign exactly for
   * negatives, then the digits; it reads back as the number.
   */
  function IntToString(n: int): (r: string)
    ensures |r| >= 1 && (r[0] == '-' <==> n < 0)
    ensures ParseInt(r) == Some(n)
  {
    if n < 0 then
      var r := "-" + NatToString(-n);
      assert r[1..] == NatToString(-n);
      r
    else
      NatToString(n)
  }
}
