/**
 * The few routines of Rust's standard library that the core relies on:
 * `str::contains`, `str::trim` and `u32::to_string`.
 */
module Text {

  /** `p` is a prefix of `s`. */
  predicate StartsWith(s: string, p: string) {
    |p| <= |s| && s[..|p|] == p
  }

  /** Reference meaning of a substring test: `p` starts at some position of `s`. */
  ghost predicate Occurs(s: string, p: string) {
    exists i :: 0 <= i <= |s| && StartsWith(s[i..], p)
  }

  /** `s.contains(p)`, scanning from the left. */
  function Contains(s: string, p: string): bool
    decreases |s|
  {
    if StartsWith(s, p) then true
    else if s == [] then false
    else Contains(s[1..], p)
  }

  /** The scan finds `p` exactly when `p` occurs somewhere in `s`. */
  lemma {:induction false} ContainsOccurs(s: string, p: string)
    ensures Contains(s, p) <==> Occurs(s, p)
    decreases |s|
  {
    if StartsWith(s, p) {
      assert s[0..] == s;
    } else if s != [] {
      ContainsOccurs(s[1..], p);
      if Occurs(s[1..], p) {
        var i :| 0 <= i <= |s[1..]| && StartsWith(s[1..][i..], p);
        assert s[1..][i..] == s[i + 1..];
      }
      if Occurs(s, p) {
        var i :| 0 <= i <= |s| && StartsWith(s[i..], p);
        assert i != 0 by { assert s[0..] == s; }
        assert s[1..][i - 1..] == s[i..];
      }
    }
  }

  /** Rust's `char::is_whitespace`: the Unicode White_Space property. */
  predicate IsWhitespace(c: char) {
    ('\t' <= c <= '\r') || c == ' ' || c == '\U{85}' || c == '\U{A0}' || c == '\U{1680}'
    || ('\U{2000}' <= c <= '\U{200A}') || c == '\U{2028}' || c == '\U{2029}'
    || c == '\U{202F}' || c == '\U{205F}' || c == '\U{3000}'
  }

  /** Every character of `s` is whitespace. */
  ghost predicate Blank(s: string) {
    forall k :: 0 <= k < |s| ==> IsWhitespace(s[k])
  }

  /** A blank run after a whitespace first character makes a longer blank prefix. */
  lemma BlankExtendsLeft(s: string, n: nat)
    requires 0 < n <= |s| && IsWhitespace(s[0]) && Blank(s[1..][..n - 1])
    ensures Blank(s[..n])
  {
    forall k | 0 < k < n
      ensures IsWhitespace(s[k])
    {
      assert s[k] == s[1..][..n - 1][k - 1];
    }
  }

  /** A blank run before a whitespace last character makes a longer blank suffix. */
  lemma BlankExtendsRight(s: string, n: nat)
    requires n < |s| && IsWhitespace(s[|s| - 1]) && Blank(s[..|s| - 1][n..])
    ensures Blank(s[n..])
  {
    forall k | 0 <= k < |s| - 1 - n
      ensures IsWhitespace(s[n..][k])
    {
      assert s[n..][k] == s[..|s| - 1][n..][k];
    }
  }

  /** `s.trim_start()`: the suffix left after dropping leading whitespace. */
  function TrimStart(s: string): (r: string)
    ensures |r| <= |s|
    ensures r == s[|s| - |r|..]
    ensures Blank(s[..|s| - |r|])
    ensures r == [] || !IsWhitespace(r[0])
    decreases |s|
  {
    if s == [] || !IsWhitespace(s[0]) then s
    else
      var r := TrimStart(s[1..]);
      assert s[1..][|s| - 1 - |r|..] == s[|s| - |r|..];
      BlankExtendsLeft(s, |s| - |r|);
      r
  }

  /** `s.trim_end()`: the prefix left after dropping trailing whitespace. */
  function TrimEnd(s: string): (r: string)
    ensures |r| <= |s|
    ensures r == s[..|r|]
    ensures Blank(s[|r|..])
    ensures r == [] || !IsWhitespace(r[|r| - 1])
    decreases |s|
  {
    if s == [] || !IsWhitespace(s[|s| - 1]) then s
    else
      var r := TrimEnd(s[..|s| - 1]);
      assert s[..|s| - 1][..|r|] == s[..|r|];
      BlankExtendsRight(s, |r|);
      r
  }

  /** `s` is blank text, then `r` starting at position `i`, then blank text. */
  ghost predicate Surrounded(s: string, r: string, i: int) {
    0 <= i <= |s| - |r| && s[i..i + |r|] == r && Blank(s[..i]) && Blank(s[i + |r|..])
  }

  /** A blank prefix of `s` leaves `t`, and a blank suffix of `t` leaves `r`: `r` is surrounded in `s`. */
  lemma TrimmedBothEnds(s: string, t: string, r: string)
    requires |t| <= |s| && t == s[|s| - |t|..] && Blank(s[..|s| - |t|])
    requires |r| <= |t| && r == t[..|r|] && Blank(t[|r|..])
    ensures Surrounded(s, r, |s| - |t|)
  {
    var i := |s| - |t|;
    assert s[i..i + |r|] == t[..|r|];
    assert s[i + |r|..] == t[|r|..];
  }

  /**
   * `s.trim()`: `s` is blank text, then the result, then blank text, and the
   * result neither starts nor ends with whitespace.
   */
  function Trim(s: string): (r: string)
    ensures exists i :: Surrounded(s, r, i)
    ensures r == [] || (!IsWhitespace(r[0]) && !IsWhitespace(r[|r| - 1]))
  {
    var t := TrimStart(s);
    var r := TrimEnd(t);
    TrimmedBothEnds(s, t, r);
    r
  }

  /** A decimal digit character. */
  predicate IsDigit(c: char) {
    '0' <= c <= '9'
  }

  function DigitChar(d: nat): (c: char)
    requires d < 10
  {
    "0123456789"[d]
  }

  function DigitValue(c: char): nat
    requires IsDigit(c)
  {
    (c as int) - ('0' as int)
  }

  /** `n.to_string()` for an unsigned integer: base 10, no sign, no leading zeros. */
  function DecimalString(n: nat): (r: string)
    ensures |r| >= 1 && forall k :: 0 <= k < |r| ==> IsDigit(r[k])
    ensures r[0] == '0' ==> r == "0"
  {
    if n < 10 then [DigitChar(n)] else DecimalString(n / 10) + [DigitChar(n % 10)]
  }

  /** The number a string of digits denotes in base 10. */
  function DecimalValue(s: string): nat
    requires forall k :: 0 <= k < |s| ==> IsDigit(s[k])
  {
    if s == [] then 0 else 10 * DecimalValue(s[..|s| - 1]) + DigitValue(s[|s| - 1])
  }

  /** Each digit character stands for its own value. */
  lemma DigitRoundTrip(d: nat)
    requires d < 10
    ensures IsDigit(DigitChar(d)) && DigitValue(DigitChar(d)) == d
  {
  }

  /** Reading back the decimal text gives the number: the rendering loses nothing. */
  lemma {:induction false} DecimalRoundTrip(n: nat)
    ensures DecimalValue(DecimalString(n)) == n
  {
    var r := DecimalString(n);
    if n < 10 {
      DigitRoundTrip(n);
    } else {
      DecimalRoundTrip(n / 10);
      DigitRoundTrip(n % 10);
      assert r[..|r| - 1] == DecimalString(n / 10);
      assert r[|r| - 1] == DigitChar(n % 10);
    }
  }
}
