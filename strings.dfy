/**
 * The handful of Python string operations the core relies on: `lower()`,
 * `upper()`, `strip()`, `str(int)` and `replace(old, new)`. Case mapping and
 * white space are the ASCII part of Python's Unicode rules.
 */
module Strings {

  // ---------------------------------------------------------------------------
  // Case mapping
  // ---------------------------------------------------------------------------

  function LowerChar(c: char): char {
    if 'A' <= c <= 'Z' then (c as int + 32) as char else c
  }

  function UpperChar(c: char): char {
    if 'a' <= c <= 'z' then (c as int - 32) as char else c
  }

  /** `s.lower()` */
  function Lower(s: string): (r: string)
    ensures |r| == |s|
    ensures forall i :: 0 <= i < |s| ==> r[i] == LowerChar(s[i])
  {
    seq(|s|, i requires 0 <= i < |s| => LowerChar(s[i]))
  }

  /** `s.upper()` */
  function Upper(s: string): (r: string)
    ensures |r| == |s|
    ensures forall i :: 0 <= i < |s| ==> r[i] == UpperChar(s[i])
  {
    seq(|s|, i requires 0 <= i < |s| => UpperChar(s[i]))
  }

  /** Every character of `s` is its own lower-case form. */
  predicate IsLowered(s: string) {
    forall i :: 0 <= i < |s| ==> LowerChar(s[i]) == s[i]
  }

  lemma LowerIsLowered(s: string)
    ensures IsLowered(Lower(s))
  {
  }

  lemma LoweredIsFixed(s: string)
    requires IsLowered(s)
    ensures Lower(s) == s
  {
  }

  // ---------------------------------------------------------------------------
  // White space and strip()
  // ---------------------------------------------------------------------------

  /** Python's `str.isspace` on the ASCII range: space, \t \n \v \f \r and \x1c-\x1f. */
  predicate IsSpace(c: char) {
    c == ' ' || (9 <= c as int <= 13) || (28 <= c as int <= 31)
  }

  /** Drops leading white space; the result is a suffix of `s`. */
  function StripLeft(s: string): (r: string)
    ensures |r| <= |s| && r == s[|s| - |r|..]
    ensures r == [] || !IsSpace(r[0])
    ensures forall i :: 0 <= i < |s| - |r| ==> IsSpace(s[i])
  {
    if s != [] && IsSpace(s[0]) then StripLeft(s[1..]) else s
  }

  /** Drops trailing white space; the result is a prefix of `s`. */
  function StripRight(s: string): (r: string)
    ensures |r| <= |s| && r == s[..|r|]
    ensures r == [] || !IsSpace(r[|r| - 1])
    ensures forall i :: |r| <= i < |s| ==> IsSpace(s[i])
  {
    if s != [] && IsSpace(s[|s| - 1]) then StripRight(s[..|s| - 1]) else s
  }

  /** `s.strip()` */
  function Strip(s: string): string {
    StripRight(StripLeft(s))
  }

  /** A stripped string is the slice of the input that starts after the leading white space. */
  lemma StripSlice(s: string)
    ensures var r, i := Strip(s), |s| - |StripLeft(s)|;
      0 <= i <= |s| - |r| && r == s[i..i + |r|]
  {
    var a := StripLeft(s);
    var r := StripRight(a);
    var i := |s| - |a|;
    assert a == s[i..] && r == a[..|r|];
    assert s[i..][..|r|] == s[i..i + |r|];
  }

  /** A stripped string neither begins nor ends with white space, and is a slice of the input. */
  lemma StripShape(s: string)
    ensures var r, i := Strip(s), |s| - |StripLeft(s)|;
      && (r == [] || (!IsSpace(r[0]) && !IsSpace(r[|r| - 1])))
      && 0 <= i <= |s| - |r| && r == s[i..i + |r|]
  {
    StripSlice(s);
    var a := StripLeft(s);
    var r := StripRight(a);
    if r != [] {
      assert r[0] == a[0];
    }
  }

  /** Stripping twice is stripping once. */
  lemma StripIdempotent(s: string)
    ensures Strip(Strip(s)) == Strip(s)
  {
    var r := Strip(s);
    StripShape(s);
    assert StripLeft(r) == r;
    assert StripRight(r) == r;
  }

  /** The normalisation used to key per-character state: `s.lower().strip()`. */
  function Normalize(s: string): (r: string)
    ensures IsLowered(r)
    ensures r == [] || (!IsSpace(r[0]) && !IsSpace(r[|r| - 1]))
    ensures |r| <= |s|
  {
    LowerIsLowered(s);
    StripKeepsLowered(Lower(s));
    StripShape(Lower(s));
    Strip(Lower(s))
  }

  lemma SliceOfLowered(t: string, i: nat, j: nat)
    requires IsLowered(t) && i <= j <= |t|
    ensures IsLowered(t[i..j])
  {
    forall k | 0 <= k < j - i ensures LowerChar(t[i..j][k]) == t[i..j][k] {
      assert t[i..j][k] == t[i + k];
    }
  }

  /** Stripping keeps a lower-cased string lower-cased. */
  lemma StripKeepsLowered(t: string)
    requires IsLowered(t)
    ensures IsLowered(Strip(t))
  {
    StripShape(t);
    var i := |t| - |StripLeft(t)|;
    SliceOfLowered(t, i, i + |Strip(t)|);
  }

  /** Normalising a normalised name changes nothing. */
  lemma {:induction false} NormalizeIdempotent(s: string)
    ensures Normalize(Normalize(s)) == Normalize(s)
  {
    var u := Strip(Lower(s));
    LowerIsLowered(s);
    StripKeepsLowered(Lower(s));
    LoweredIsFixed(u);
    StripIdempotent(Lower(s));
  }

  // ---------------------------------------------------------------------------
  // str(n) for a natural number
  // ---------------------------------------------------------------------------

  function DigitChar(d: nat): char
    requires d < 10
  {
    "0123456789"[d]
  }

  /** `str(n)`: the decimal rendering of `n`, without leading zeros. */
  function NatToString(n: nat): (r: string)
    ensures |r| >= 1
    ensures n >= 10 ==> |r| >= 2
    ensures forall i :: 0 <= i < |r| ==> '0' <= r[i] <= '9'
  {
    if n < 10 then [DigitChar(n)] else NatToString(n / 10) + [DigitChar(n % 10)]
  }

  /** Distinct numbers have distinct renderings. */
  lemma {:induction false} NatToStringInjective(n: nat, m: nat)
    requires NatToString(n) == NatToString(m)
    ensures n == m
  {
    var s := NatToString(n);
    if n < 10 || m < 10 {
      assert n < 10 && m < 10;
      assert DigitChar(n) == s[0] == DigitChar(m);
    } else {
      var a, b := NatToString(n / 10), NatToString(m / 10);
      assert s == a + [DigitChar(n % 10)] == b + [DigitChar(m % 10)];
      assert |a| == |b|;
      assert a == s[..|a|] == b;
      NatToStringInjective(n / 10, m / 10);
      assert DigitChar(n % 10) == s[|s| - 1] == DigitChar(m % 10);
    }
  }

  /** `str(n)` for any integer: a minus sign before the digits of a negative number. */
  function IntToString(n: int): string {
    if n >= 0 then NatToString(n) else "-" + NatToString(-n)
  }

  // ---------------------------------------------------------------------------
  // s.replace(old, new)
  // ---------------------------------------------------------------------------

  predicate OccursAt(s: string, pat: string, i: nat) {
    i + |pat| <= |s| && s[i..i + |pat|] == pat
  }

  predicate NoOccurrence(s: string, pat: string) {
    forall i: nat | i + |pat| <= |s| :: !OccursAt(s, pat, i)
  }

  /** `s.replace(pat, rep)`: every non-overlapping occurrence, scanning from the left. */
  function ReplaceAll(s: string, pat: string, rep: string): string
    requires |pat| > 0
    decreases |s|
  {
    if |s| < |pat| then s
    else if s[..|pat|] == pat then rep + ReplaceAll(s[|pat|..], pat, rep)
    else [s[0]] + ReplaceAll(s[1..], pat, rep)
  }

  /** A string with no occurrence of the pattern is returned unchanged. */
  lemma {:induction false} ReplaceAllNoOccurrence(s: string, pat: string, rep: string)
    requires |pat| > 0
    ensures NoOccurrence(s, pat) ==> ReplaceAll(s, pat, rep) == s
    decreases |s|
  {
    if NoOccurrence(s, pat) && |s| >= |pat| {
      assert !OccursAt(s, pat, 0);
      assert NoOccurrence(s[1..], pat) by {
        forall i: nat | i + |pat| <= |s[1..]| ensures !OccursAt(s[1..], pat, i) {
          assert s[1..][i..i + |pat|] == s[i + 1..i + 1 + |pat|];
          assert !OccursAt(s, pat, i + 1);
        }
      }
      ReplaceAllNoOccurrence(s[1..], pat, rep);
    }
  }
}
