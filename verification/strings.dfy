/** The string operations the backend relies on: ASCII lower-casing, Python's
    `startswith` / `endswith` / `in`, and decimal rendering of indices. */
module Strings {

  /** ASCII lower-casing of one character; every other character is kept. */
  function LowerChar(c: char): char
  {
    if 'A' <= c <= 'Z' then (c as int + 32) as char else c
  }

  /** `str.lower()` restricted to ASCII. */
  function Lower(s: string): string
  {
    seq(|s|, i requires 0 <= i < |s| => LowerChar(s[i]))
  }

  /** Lower-casing works character by character, so it distributes over concatenation. */
  lemma LowerAppend(a: string, b: string)
    ensures Lower(a + b) == Lower(a) + Lower(b)
  {
  }

  /** Python's `s.startswith(prefix)`. */
  predicate StartsWith(s: string, prefix: string)
  {
    |prefix| <= |s| && s[..|prefix|] == prefix
  }

  /** Python's `s.endswith(suffix)`. */
  predicate EndsWith(s: string, suffix: string)
  {
    |suffix| <= |s| && s[|s| - |suffix|..] == suffix
  }

  /** Reference meaning of Python's `w in s`: w occurs in s at some offset. */
  ghost predicate Occurs(w: string, s: string)
  {
    exists i :: 0 <= i <= |s| && StartsWith(s[i..], w)
  }

  /** Executable substring test, scanning offsets from the left. */
  function Contains(s: string, w: string): bool
  {
    if StartsWith(s, w) then true
    else if |s| == 0 then false
    else Contains(s[1..], w)
  }

  /** The scanning test agrees with the reference meaning of `in`. */
  lemma {:induction false} ContainsIsOccurs(s: string, w: string)
    ensures Contains(s, w) <==> Occurs(w, s)
  {
    if StartsWith(s, w) {
      assert s[0..] == s;
    } else if |s| == 0 {
      assert !StartsWith(s[0..], w);
    } else {
      ContainsIsOccurs(s[1..], w);
      if Occurs(w, s[1..]) {
        var i :| 0 <= i <= |s[1..]| && StartsWith(s[1..][i..], w);
        assert s[1..][i..] == s[i + 1..];
      }
      if Occurs(w, s) {
        var i :| 0 <= i <= |s| && StartsWith(s[i..], w);
        assert i != 0 by { assert s[0..] == s; }
        assert s[1..][i - 1..] == s[i..];
      }
    }
  }

  predicate IsDigit(c: char)
  {
    '0' <= c <= '9'
  }

  predicate AllDigits(s: string)
  {
    forall i :: 0 <= i < |s| ==> IsDigit(s[i])
  }

  function DigitChar(d: nat): (c: char)
    requires d < 10
  {
    ('0' as int + d) as char
  }

  /** Decimal rendering of a natural number, as an f-string prints an int. */
  function NatToString(n: nat): (r: string)
    ensures |r| >= 1
    ensures AllDigits(r)
    ensures r[0] == '0' ==> n == 0
    decreases n
  {
    if n < 10 then [DigitChar(n)] else NatToString(n / 10) + [DigitChar(n % 10)]
  }

  /** Reads a digit string back as a number (the inverse of NatToString). */
  function DecimalValue(s: string): nat
    decreases |s|
  {
    if |s| == 0 then 0
    else
      var c := s[|s| - 1];
      DecimalValue(s[..|s| - 1]) * 10 + (if IsDigit(c) then c as int - '0' as int else 0)
  }

  lemma {:induction false} DecimalRoundTrip(n: nat)
    ensures DecimalValue(NatToString(n)) == n
    decreases n
  {
    var s := NatToString(n);
    if n >= 10 {
      DecimalRoundTrip(n / 10);
      assert s[..|s| - 1] == NatToString(n / 10);
    }
  }

  lemma NatToStringInjective(m: nat, n: nat)
    requires NatToString(m) == NatToString(n)
    ensures m == n
  {
    DecimalRoundTrip(m);
    DecimalRoundTrip(n);
  }

  /** Splitting at the first occurrence of a separator that the left parts do not contain
      recovers both parts. */
  lemma SplitAtSeparator(x: string, y: string, x': string, y': string, sep: char)
    requires sep !in x && sep !in x'
    requires x + [sep] + y == x' + [sep] + y'
    ensures x == x' && y == y'
  {
    var s := x + [sep] + y;
    SeparatorPosition(x, y, sep, |x'|);
    SeparatorPosition(x', y', sep, |x|);
    assert x == s[..|x|];
    assert y == s[|x| + 1..];
  }

  /** Index |x| of x + [sep] + y holds the separator; any index before it holds a letter of x. */
  lemma SeparatorPosition(x: string, y: string, sep: char, i: nat)
    ensures (x + [sep] + y)[|x|] == sep
    ensures i < |x| ==> (x + [sep] + y)[i] == x[i] && x[i] in x
  {
  }

  lemma DigitsHaveNoSeparator(s: string, sep: char)
    requires AllDigits(s)
    requires !IsDigit(sep)
    ensures sep !in s
  {
  }
}
