/**
 * `String.prototype.trim`, which the WhatsApp handler applies to the incoming
 * message text. Strings are sequences of code points.
 */
module JsText {

  /**
   * The ECMAScript WhiteSpace and LineTerminator code points: tab, line feed,
   * vertical tab, form feed, carriage return, space, no-break space, the
   * byte-order mark, the other space separators of Unicode category Zs, and
   * the line and paragraph separators.
   */
  predicate IsJsSpace(c: char) {
    c in JsSpaces
  }

  const JsSpaces: set<char> := {
    '\U{0009}', '\U{000A}', '\U{000B}', '\U{000C}', '\U{000D}', '\U{0020}', '\U{00A0}', '\U{1680}',
    '\U{2000}', '\U{2001}', '\U{2002}', '\U{2003}', '\U{2004}', '\U{2005}', '\U{2006}', '\U{2007}',
    '\U{2008}', '\U{2009}', '\U{200A}', '\U{2028}', '\U{2029}', '\U{202F}', '\U{205F}', '\U{3000}',
    '\U{FEFF}'
  }

  /** Every character of `s` from `lo` up to `hi` is white space. */
  predicate SpaceBetween(s: string, lo: int, hi: int) {
    forall k :: lo <= k < hi && 0 <= k < |s| ==> IsJsSpace(s[k])
  }

  /** Neither the first nor the last character of `s` is white space. */
  predicate Unpadded(s: string) {
    s == [] || (!IsJsSpace(s[0]) && !IsJsSpace(s[|s| - 1]))
  }

  /**
   * `r` is the slice of `s` starting at `i`, everything around it is white
   * space, and `r` itself neither starts nor ends with white space.
   */
  predicate TrimAt(r: string, s: string, i: int) {
    && 0 <= i <= |s| - |r| && s[i..i + |r|] == r
    && SpaceBetween(s, 0, i) && SpaceBetween(s, i + |r|, |s|) && Unpadded(r)
  }

  /** What trimming means, independently of how it is computed. */
  ghost predicate IsTrimOf(r: string, s: string) {
    exists i :: TrimAt(r, s, i)
  }

  /** Drops the leading white space. */
  function TrimStart(s: string): (r: string)
    ensures |r| <= |s| && r == s[|s| - |r|..]
    ensures SpaceBetween(s, 0, |s| - |r|)
    ensures r == [] || !IsJsSpace(r[0])
    decreases |s|
  {
    if |s| > 0 && IsJsSpace(s[0]) then
      var r := TrimStart(s[1..]);
      StartStep(s, r);
      r
    else s
  }

  /** Drops the trailing white space. */
  function TrimEnd(s: string): (r: string)
    ensures |r| <= |s| && r == s[..|r|]
    ensures SpaceBetween(s, |r|, |s|)
    ensures r == [] || !IsJsSpace(r[|r| - 1])
    decreases |s|
  {
    if |s| > 0 && IsJsSpace(s[|s| - 1]) then
      var r := TrimEnd(s[..|s| - 1]);
      EndStep(s, r);
      r
    else s
  }

  /** A leading space followed by a trimmed rest: the leading spaces now include it. */
  lemma StartStep(s: string, r: string)
    requires |s| > 0 && IsJsSpace(s[0])
    requires |r| < |s| && r == s[1..][|s| - 1 - |r|..] && SpaceBetween(s[1..], 0, |s| - 1 - |r|)
    ensures r == s[|s| - |r|..] && SpaceBetween(s, 0, |s| - |r|)
  {
    assert forall k :: 1 <= k < |s| ==> s[1..][k - 1] == s[k];
  }

  /** A trailing space preceded by a trimmed rest: the trailing spaces now include it. */
  lemma EndStep(s: string, r: string)
    requires |s| > 0 && IsJsSpace(s[|s| - 1])
    requires |r| < |s| && r == s[..|s| - 1][..|r|] && SpaceBetween(s[..|s| - 1], |r|, |s| - 1)
    ensures r == s[..|r|] && SpaceBetween(s, |r|, |s|)
  {
    assert forall k :: 0 <= k < |s| - 1 ==> s[..|s| - 1][k] == s[k];
  }

  /** `s.trim()`: white space removed from both ends. */
  function Trim(s: string): (r: string)
    ensures TrimAt(r, s, |s| - |TrimStart(s)|)
    ensures IsTrimOf(r, s)
  {
    var t := TrimStart(s);
    var r := TrimEnd(t);
    TrimStartEnd(s);
    r
  }

  /** Trimming the end of what `TrimStart` leaves is a trim of `s` at the first non-space. */
  lemma TrimStartEnd(s: string)
    ensures TrimAt(TrimEnd(TrimStart(s)), s, |s| - |TrimStart(s)|)
  {
    var t := TrimStart(s);
    TrimAtFromParts(s, |s| - |t|, t, TrimEnd(t));
  }

  /**
   * Dropping leading white space up to `i` and then trailing white space
   * from what is left gives a trim of `s` at `i`.
   */
  lemma TrimAtFromParts(s: string, i: nat, t: string, r: string)
    requires i <= |s| && t == s[i..] && SpaceBetween(s, 0, i) && (t == [] || !IsJsSpace(t[0]))
    requires |r| <= |t| && r == t[..|r|] && SpaceBetween(t, |r|, |t|) && (r == [] || !IsJsSpace(r[|r| - 1]))
    ensures TrimAt(r, s, i)
  {
    assert s[i..][..|r|] == s[i..i + |r|];
    SpaceShift(s, i, |r|);
    assert r != [] ==> r[0] == t[0];
  }

  /** White space at the end of a suffix of `s` is white space at the end of `s`. */
  lemma SpaceShift(s: string, i: nat, lo: nat)
    requires i <= |s| && SpaceBetween(s[i..], lo, |s| - i)
    ensures SpaceBetween(s, i + lo, |s|)
  {
    forall k | i + lo <= k < |s|
      ensures IsJsSpace(s[k])
    {
      assert s[k] == s[i..][k - i];
    }
  }

  /** A string has exactly one trimmed form. */
  lemma TrimOfUnique(s: string, r1: string, r2: string)
    requires IsTrimOf(r1, s) && IsTrimOf(r2, s)
    ensures r1 == r2
  {
    var i1 :| TrimAt(r1, s, i1);
    var i2 :| TrimAt(r2, s, i2);
    TrimAtUnique(s, r1, i1, r2, i2);
  }

  /** Two trims of one string, at any positions, are the same string. */
  lemma TrimAtUnique(s: string, r1: string, i1: int, r2: string, i2: int)
    requires TrimAt(r1, s, i1) && TrimAt(r2, s, i2)
    ensures r1 == r2
  {
  }

  /** `Trim` computes the one trimmed form. */
  lemma TrimCharacterized(s: string, r: string)
    requires IsTrimOf(r, s)
    ensures r == Trim(s)
  {
    TrimOfUnique(s, r, Trim(s));
  }

  /** Trimming twice is trimming once. */
  lemma TrimIdempotent(s: string)
    ensures Trim(Trim(s)) == Trim(s)
  {
  }
}
