/** The parts of .NET's string library the application relies on: `char.IsWhiteSpace`,
    `string.IsNullOrWhiteSpace`, `string.Trim`, ordinal case-insensitive equality and
    search, and the decimal rendering of a count in an interpolated string. */
module Text {
  import opened Wrappers

  /** The characters `char.IsWhiteSpace` accepts: the Unicode space separators,
      the line and paragraph separators, and the controls U+0009..U+000D and U+0085. */
  const WhiteSpaceChars: set<char> := {
    '\t', '\n', '\U{B}', '\U{C}', '\r', ' ', '\U{85}', '\U{A0}', '\U{1680}',
    '\U{2000}', '\U{2001}', '\U{2002}', '\U{2003}', '\U{2004}', '\U{2005}', '\U{2006}',
    '\U{2007}', '\U{2008}', '\U{2009}', '\U{200A}',
    '\U{2028}', '\U{2029}', '\U{202F}', '\U{205F}', '\U{3000}'
  }

  /** `char.IsWhiteSpace`. */
  predicate IsWhiteSpace(c: char) {
    c in WhiteSpaceChars
  }

  predicate AllWhiteSpace(s: string) {
    forall i :: 0 <= i < |s| ==> IsWhiteSpace(s[i])
  }

  /** `string.IsNullOrWhiteSpace`: null, empty, or white space only. */
  predicate IsNullOrWhiteSpace(s: Option<string>) {
    s.None? || AllWhiteSpace(s.value)
  }

  // ---------------------------------------------------------------- Trim

  /** Removes the leading white space. */
  function TrimStart(s: string): (r: string)
    ensures |r| <= |s| && r == s[|s| - |r|..]
    ensures forall k :: 0 <= k < |s| - |r| ==> IsWhiteSpace(s[k])
    ensures |r| > 0 ==> !IsWhiteSpace(r[0])
  {
    if |s| > 0 && IsWhiteSpace(s[0]) then TrimStart(s[1..]) else s
  }

  /** Removes the trailing white space. */
  function TrimEnd(s: string): (r: string)
    ensures |r| <= |s| && r == s[..|r|]
    ensures forall k :: |r| <= k < |s| ==> IsWhiteSpace(s[k])
    ensures |r| > 0 ==> !IsWhiteSpace(r[|r| - 1])
  {
    if |s| > 0 && IsWhiteSpace(s[|s| - 1]) then TrimEnd(s[..|s| - 1]) else s
  }

  /** `s[i..j]` is what remains of `s` once its white space is cut from both ends:
      everything before `i` and from `j` on is white space, and the slice, unless
      empty, starts and ends with a character that is not. */
  ghost predicate TrimmedAt(s: string, i: int, j: int) {
    && 0 <= i <= j <= |s|
    && (forall k :: 0 <= k < i ==> IsWhiteSpace(s[k]))
    && (forall k :: j <= k < |s| ==> IsWhiteSpace(s[k]))
    && (i < j ==> !IsWhiteSpace(s[i]) && !IsWhiteSpace(s[j - 1]))
  }

  /** `r` is `s` with its leading and trailing white space removed. */
  ghost predicate IsTrimOf(s: string, r: string) {
    exists i, j :: TrimmedAt(s, i, j) && r == s[i..j]
  }

  /** `string.Trim()`. */
  function Trim(s: string): (r: string)
    ensures IsTrimOf(s, r)
  {
    var t := TrimStart(s);
    var r := TrimEnd(t);
    TrimComposes(s, t, r);
    r
  }

  /** Cutting the leading white space and then the trailing white space trims. */
  lemma TrimComposes(s: string, t: string, r: string)
    requires |t| <= |s| && t == s[|s| - |t|..]
    requires forall k :: 0 <= k < |s| - |t| ==> IsWhiteSpace(s[k])
    requires |t| > 0 ==> !IsWhiteSpace(t[0])
    requires |r| <= |t| && r == t[..|r|]
    requires forall k :: |r| <= k < |t| ==> IsWhiteSpace(t[k])
    requires |r| > 0 ==> !IsWhiteSpace(r[|r| - 1])
    ensures IsTrimOf(s, r)
  {
    var i := |s| - |t|;
    TrailingWhiteSpace(s, t, r);
    if r != [] {
      assert r[0] == t[0];
      assert s[i] == r[0];
      assert s[i + |r| - 1] == r[|r| - 1];
    }
    assert r == s[i..i + |r|];
    assert TrimmedAt(s, i, i + |r|);
  }

  /** A trimmed string neither starts nor ends with white space, and it is empty
      exactly when the original is all white space. */
  lemma TrimOfFacts(s: string, r: string)
    requires IsTrimOf(s, r)
    ensures |r| > 0 ==> !IsWhiteSpace(r[0]) && !IsWhiteSpace(r[|r| - 1])
    ensures r == [] <==> AllWhiteSpace(s)
  {
    var i, j :| TrimmedAt(s, i, j) && r == s[i..j];
    if i < j {
      assert r[0] == s[i] && r[|r| - 1] == s[j - 1];
    }
  }

  lemma TrailingWhiteSpace(s: string, t: string, r: string)
    requires |t| <= |s| && t == s[|s| - |t|..]
    requires |r| <= |t| && forall k :: |r| <= k < |t| ==> IsWhiteSpace(t[k])
    ensures forall k :: |s| - |t| + |r| <= k < |s| ==> IsWhiteSpace(s[k])
  {
    var i := |s| - |t|;
    forall k | i + |r| <= k < |s| ensures IsWhiteSpace(s[k]) {
      assert s[k] == t[k - i];
    }
  }

  /** The characterisation `IsTrimOf` admits exactly one result. */
  lemma TrimOfIsUnique(s: string, r1: string, r2: string)
    requires IsTrimOf(s, r1) && IsTrimOf(s, r2)
    ensures r1 == r2
  {
  }

  /** Trimming twice is trimming once. */
  lemma TrimIsIdempotent(s: string)
    ensures Trim(Trim(s)) == Trim(s)
  {
    var r := Trim(s);
    TrimOfFacts(s, r);
    assert TrimmedAt(r, 0, |r|) && r == r[0..|r|];
    TrimOfIsUnique(r, Trim(r), r);
  }

  // ------------------------------------------------- ordinal, ignoring case

  /** The simple case mapping of the ASCII letters; every other character maps to itself. */
  function ToUpperAscii(c: char): (u: char)
    ensures 'a' <= c <= 'z' ==> u as int == c as int - 32
    ensures !('a' <= c <= 'z') ==> u == c
  {
    if 'a' <= c <= 'z' then (c as int - 32) as char else c
  }

  /** `StringComparison.OrdinalIgnoreCase` on one pair of characters. */
  predicate CharEqualsIgnoreCase(a: char, b: char) {
    ToUpperAscii(a) == ToUpperAscii(b)
  }

  /** `a.Equals(b, StringComparison.OrdinalIgnoreCase)`. */
  predicate EqualsIgnoreCase(a: string, b: string) {
    |a| == |b| && forall i :: 0 <= i < |a| ==> CharEqualsIgnoreCase(a[i], b[i])
  }

  /** Every character of `s` mapped by `ToUpperAscii`. */
  function ToUpperAsciiString(s: string): (u: string)
    ensures |u| == |s| && forall i :: 0 <= i < |s| ==> u[i] == ToUpperAscii(s[i])
  {
    seq(|s|, i requires 0 <= i < |s| => ToUpperAscii(s[i]))
  }

  /** Ignoring case, two strings are equal exactly when their upper-case forms are. */
  lemma EqualsIgnoreCaseIsUpperEquality(a: string, b: string)
    ensures EqualsIgnoreCase(a, b) <==> ToUpperAsciiString(a) == ToUpperAsciiString(b)
  {
    if ToUpperAsciiString(a) == ToUpperAsciiString(b) {
      forall i | 0 <= i < |a| ensures CharEqualsIgnoreCase(a[i], b[i]) {
        assert ToUpperAsciiString(a)[i] == ToUpperAsciiString(b)[i];
      }
    }
  }

  /** `p` occurs in `s` at position `i`, ignoring case. */
  predicate MatchesAt(s: string, p: string, i: nat) {
    i + |p| <= |s| && EqualsIgnoreCase(s[i..i + |p|], p)
  }

  lemma MatchesAtTail(s: string, p: string)
    requires |s| > 0
    ensures forall i: nat :: MatchesAt(s[1..], p, i) ==> MatchesAt(s, p, i + 1)
    ensures forall i: nat :: 0 < i && MatchesAt(s, p, i) ==> MatchesAt(s[1..], p, i - 1)
  {
    forall i: nat | MatchesAt(s[1..], p, i) ensures MatchesAt(s, p, i + 1) {
      assert s[1..][i..i + |p|] == s[i + 1..i + 1 + |p|];
    }
    forall i: nat | 0 < i && MatchesAt(s, p, i) ensures MatchesAt(s[1..], p, i - 1) {
      assert s[1..][i - 1..i - 1 + |p|] == s[i..i + |p|];
    }
  }

  /** `s.Contains(p, StringComparison.OrdinalIgnoreCase)`. */
  function ContainsIgnoreCase(s: string, p: string): (r: bool)
    ensures r <==> exists i: nat :: MatchesAt(s, p, i)
    decreases |s|
  {
    if |s| < |p| then false
    else if EqualsIgnoreCase(s[..|p|], p) then
      assert MatchesAt(s, p, 0); true
    else
      MatchesAtTail(s, p);
      ContainsIgnoreCase(s[1..], p)
  }

  // ------------------------------------------------------ decimal numerals

  function DigitChar(d: nat): (c: char)
    requires d < 10
    ensures '0' <= c <= '9' && c as int - '0' as int == d
  {
    (d + '0' as int) as char
  }

  predicate IsDigits(s: string) {
    forall i :: 0 <= i < |s| ==> '0' <= s[i] <= '9'
  }

  /** `n.ToString()` for a non-negative `int`: decimal digits, no leading zero. */
  function NatToString(n: nat): (r: string)
    ensures |r| > 0 && IsDigits(r)
    ensures |r| > 1 ==> r[0] != '0'
  {
    if n < 10 then [DigitChar(n)] else NatToString(n / 10) + [DigitChar(n % 10)]
  }

  /** The value of a string of decimal digits. */
  function DigitsValue(s: string): nat
    requires IsDigits(s)
  {
    if s == [] then 0 else DigitsValue(s[..|s| - 1]) * 10 + (s[|s| - 1] as int - '0' as int)
  }

  /** The rendered count can be read back: `NatToString` loses nothing. */
  lemma {:induction false} NatToStringRoundTrip(n: nat)
    ensures DigitsValue(NatToString(n)) == n
  {
    var r := NatToString(n);
    if n >= 10 {
      NatToStringRoundTrip(n / 10);
      assert r[..|r| - 1] == NatToString(n / 10);
    }
  }
}
