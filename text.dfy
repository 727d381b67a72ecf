/** String helpers with JavaScript's meaning: whitespace, trim, prefix and
    substring tests, decimal rendering of integers, join and split. */
module Text {

  /** The characters JavaScript's `trim` removes and the regex class `\s`
      matches (WhiteSpace and LineTerminator of ECMAScript). */
  predicate IsSpace(c: char) {
    c == '\t' || c == '\n' || c == '\U{000B}' || c == '\U{000C}' || c == '\r' || c == ' '
    || c == '\U{00A0}' || c == '\U{1680}' || ('\U{2000}' <= c <= '\U{200A}')
    || c == '\U{2028}' || c == '\U{2029}' || c == '\U{202F}' || c == '\U{205F}'
    || c == '\U{3000}' || c == '\U{FEFF}'
  }

  /** The characters that end a line for the regex `.` and for `^` under the `m` flag. */
  predicate IsLineTerminator(c: char) {
    c == '\n' || c == '\r' || c == '\U{2028}' || c == '\U{2029}'
  }

  predicate IsDigit(c: char) {
    '0' <= c <= '9'
  }

  predicate AllDigits(s: string) {
    forall i :: 0 <= i < |s| ==> IsDigit(s[i])
  }

  predicate AllSpace(s: string) {
    forall i :: 0 <= i < |s| ==> IsSpace(s[i])
  }

  /** `Boolean(s)` for a string. */
  predicate NonEmpty(s: string) {
    s != ""
  }

  /** Neither end of `s` is whitespace. */
  predicate IsTrimmed(s: string) {
    s == [] || (!IsSpace(s[0]) && !IsSpace(s[|s| - 1]))
  }

  function TrimStart(s: string): (r: string)
    ensures |r| <= |s|
    ensures r == [] || !IsSpace(r[0])
  {
    if s != [] && IsSpace(s[0]) then TrimStart(s[1..]) else s
  }

  /** `TrimStart` drops a whitespace prefix. */
  lemma {:induction false} TrimStartDrops(s: string)
    ensures var r := TrimStart(s); r == s[|s| - |r|..] && AllSpace(s[..|s| - |r|])
  {
    if s != [] && IsSpace(s[0]) {
      TrimStartDrops(s[1..]);
      var r := TrimStart(s);
      assert s[1..][|s| - 1 - |r|..] == s[|s| - |r|..];
      assert forall i :: 1 <= i < |s| - |r| ==> s[i] == s[1..][i - 1];
    }
  }

  function TrimEnd(s: string): (r: string)
    ensures |r| <= |s|
    ensures r == [] || !IsSpace(r[|r| - 1])
  {
    if s != [] && IsSpace(s[|s| - 1]) then TrimEnd(s[..|s| - 1]) else s
  }

  /** `TrimEnd` drops a whitespace suffix. */
  lemma {:induction false} TrimEndDrops(s: string)
    ensures var r := TrimEnd(s); r == s[..|r|] && AllSpace(s[|r|..])
  {
    if s != [] && IsSpace(s[|s| - 1]) {
      TrimEndDrops(s[..|s| - 1]);
      var r := TrimEnd(s);
      assert s[..|s| - 1][..|r|] == s[..|r|];
      assert forall i :: |r| <= i < |s| - 1 ==> s[i] == s[..|s| - 1][i];
    }
  }

  /** JavaScript's `String.prototype.trim`. */
  function Trim(s: string): (r: string)
    ensures |r| <= |s|
    ensures IsTrimmed(r)
    ensures r == [] <==> AllSpace(s)
  {
    var t := TrimStart(s);
    var r := TrimEnd(t);
    TrimStartDrops(s);
    TrimEndDrops(t);
    assert r == [] ==> AllSpace(s) by {
      if r == [] {
        assert AllSpace(t);
        assert s == s[..|s| - |t|] + t;
      }
    }
    assert r != [] ==> !IsSpace(r[0]) by {
      if r != [] { assert r[0] == t[0]; }
    }
    r
  }

  /** The trimmed text is a contiguous piece of the text. */
  lemma TrimInfix(s: string) returns (a: nat)
    ensures a + |Trim(s)| <= |s| && Trim(s) == s[a..a + |Trim(s)|]
  {
    var t := TrimStart(s);
    var r := TrimEnd(t);
    a := |s| - |t|;
    TrimStartDrops(s);
    TrimEndDrops(t);
    assert Trim(s) == r;
    assert t[..|r|] == s[a..a + |r|];
  }

  lemma {:induction false} TrimStartOfTrimmed(s: string)
    requires s == [] || !IsSpace(s[0])
    ensures TrimStart(s) == s
  {
  }

  lemma {:induction false} TrimEndOfTrimmed(s: string)
    requires s == [] || !IsSpace(s[|s| - 1])
    ensures TrimEnd(s) == s
  {
  }

  /** Trimming twice is trimming once. */
  lemma TrimIdempotent(s: string)
    ensures Trim(Trim(s)) == Trim(s)
  {
    TrimOfTrimmed(Trim(s));
  }

  lemma TrimOfTrimmed(s: string)
    requires IsTrimmed(s)
    ensures Trim(s) == s
  {
    TrimStartOfTrimmed(s);
    TrimEndOfTrimmed(s);
  }

  /** Trimming the start first changes nothing about the trimmed text. */
  lemma TrimStartTrim(s: string)
    ensures Trim(TrimStart(s)) == Trim(s)
  {
    TrimStartOfTrimmed(TrimStart(s));
  }

  predicate StartsWith(s: string, prefix: string) {
    |prefix| <= |s| && s[..|prefix|] == prefix
  }

  predicate EndsWith(s: string, suffix: string) {
    |suffix| <= |s| && s[|s| - |suffix|..] == suffix
  }

  /** JavaScript's `String.prototype.includes`. */
  predicate Contains(s: string, part: string)
    decreases |s|
  {
    StartsWith(s, part) || (s != [] && Contains(s[1..], part))
  }

  /** `part` occurs in `s` starting at index `i`. */
  predicate OccursAt(s: string, part: string, i: int) {
    0 <= i <= |s| - |part| && s[i..i + |part|] == part
  }

  /** The declarative reading of `Contains`: `part` occurs in `s` at some index. */
  lemma {:induction false} ContainsAt(s: string, part: string)
    ensures Contains(s, part) <==> exists i :: OccursAt(s, part, i)
    decreases |s|
  {
    if s == [] {
      if Contains(s, part) {
        assert OccursAt(s, part, 0);
      }
      if exists i :: OccursAt(s, part, i) {
        var i :| OccursAt(s, part, i);
        assert i == 0 && StartsWith(s, part);
      }
    } else {
      ContainsAt(s[1..], part);
      if Contains(s, part) {
        if StartsWith(s, part) {
          assert OccursAt(s, part, 0);
        } else {
          var i :| OccursAt(s[1..], part, i);
          assert s[1..][i..i + |part|] == s[i + 1..i + 1 + |part|];
          assert OccursAt(s, part, i + 1);
        }
      }
      if exists i :: OccursAt(s, part, i) {
        var i :| OccursAt(s, part, i);
        if i > 0 {
          assert s[1..][i - 1..i - 1 + |part|] == s[i..i + |part|];
          assert OccursAt(s[1..], part, i - 1);
        } else {
          assert StartsWith(s, part);
        }
      }
    }
  }

  function DigitChar(d: nat): (c: char)
    requires d < 10
    ensures IsDigit(c) && c as int - '0' as int == d
  {
    "0123456789"[d]
  }

  function DigitValue(c: char): nat
    requires IsDigit(c)
  {
    c as int - '0' as int
  }

  /** The value of a string of decimal digits, as JavaScript's `Number` reads it
      (leading zeros are insignificant). */
  function DigitsValue(s: string): nat
    requires AllDigits(s)
  {
    if s == [] then 0 else DigitsValue(s[..|s| - 1]) * 10 + DigitValue(s[|s| - 1])
  }

  /** Decimal rendering of a natural number, as `String(n)` writes it. */
  function NatToString(n: nat): (r: string)
    ensures 1 <= |r| && AllDigits(r)
    ensures DigitsValue(r) == n
    ensures r[0] == '0' ==> r == "0"
  {
    if n < 10 then [DigitChar(n)]
    else
      var front := NatToString(n / 10);
      var r := front + [DigitChar(n % 10)];
      assert r[..|r| - 1] == front;
      r
  }

  /** Decimal rendering of an integer, with a leading "-" when negative. */
  function IntToString(i: int): (r: string)
    ensures 1 <= |r|
    ensures i >= 0 ==> r == NatToString(i)
    ensures i < 0 ==> r == "-" + NatToString(-i)
  {
    if i < 0 then "-" + NatToString(-i) else NatToString(i)
  }

  function Zeros(n: nat): (r: string)
    ensures |r| == n && AllDigits(r)
    ensures forall i :: 0 <= i < n ==> r[i] == '0'
  {
    if n == 0 then [] else Zeros(n - 1) + "0"
  }

  /** Leading zeros do not change the value of a digit string. */
  lemma {:induction false} LeadingZerosValue(z: nat, s: string)
    requires AllDigits(s)
    ensures AllDigits(Zeros(z) + s)
    ensures DigitsValue(Zeros(z) + s) == DigitsValue(s)
    decreases z, |s|
  {
    var t := Zeros(z) + s;
    if s == [] {
      assert t == Zeros(z);
      if z > 0 {
        assert t[..|t| - 1] == Zeros(z - 1) + [];
        LeadingZerosValue(z - 1, []);
        assert Zeros(z - 1) + [] == Zeros(z - 1);
      }
    } else {
      assert t[..|t| - 1] == Zeros(z) + s[..|s| - 1];
      LeadingZerosValue(z, s[..|s| - 1]);
    }
  }

  /** `n` written with at least `width` digits, padded with zeros on the left. */
  function PadNat(n: nat, width: nat): (r: string)
    ensures AllDigits(r) && DigitsValue(r) == n
    ensures |r| == if |NatToString(n)| < width then width else |NatToString(n)|
  {
    var digits := NatToString(n);
    var z := if |digits| < width then width - |digits| else 0;
    LeadingZerosValue(z, digits);
    Zeros(z) + digits
  }

  lemma PadNatShort(n: nat, width: nat)
    requires width >= 1 && n < Power10(width)
    ensures |PadNat(n, width)| == width
  {
    NatToStringLength(n, width);
  }

  function Power10(k: nat): (p: nat)
    ensures p >= 1
  {
    if k == 0 then 1 else 10 * Power10(k - 1)
  }

  /** A number below 10^k has at most k digits. */
  lemma {:induction false} NatToStringLength(n: nat, k: nat)
    requires k >= 1 && n < Power10(k)
    ensures |NatToString(n)| <= k
    decreases k
  {
    assert Power10(1) == 10;
    if n >= 10 {
      NatToStringLength(n / 10, k - 1);
    }
  }

  /** `xs` joined with `sep`, as `Array.prototype.join`. */
  function Join(xs: seq<string>, sep: string): string {
    if xs == [] then ""
    else if |xs| == 1 then xs[0]
    else xs[0] + sep + Join(xs[1..], sep)
  }

  /** `s` split at every occurrence of the character `c`, as `s.split(c)`:
      there is always one piece more than there are separators. */
  function Split(s: string, c: char): (r: seq<string>)
    ensures |r| >= 1
    ensures forall i :: 0 <= i < |r| ==> c !in r[i]
    ensures Join(r, [c]) == s
  {
    SplitFrom(s, c, [])
  }

  /** The pieces of `s`, the first of which starts with `current`. */
  function SplitFrom(s: string, c: char, current: string): (r: seq<string>)
    requires c !in current
    ensures |r| >= 1
    ensures forall i :: 0 <= i < |r| ==> c !in r[i]
    ensures Join(r, [c]) == current + s
  {
    if s == [] then [current]
    else if s[0] == c then
      var rest := SplitFrom(s[1..], c, []);
      var r := [current] + rest;
      assert r[1..] == rest;
      assert current + s == current + [c] + s[1..];
      r
    else
      assert current + s == (current + [s[0]]) + s[1..];
      SplitFrom(s[1..], c, current + [s[0]])
  }
}
