/** Character and string helpers the core relies on: Java's
    `String.equalsIgnoreCase`, Swift's `lowercased()`, and the decimal text
    that Java's string concatenation gives an `int`. Case mapping covers
    ASCII letters only. */
module Text {

  function LowerAscii(c: char): (r: char)
    ensures 'A' <= c <= 'Z' ==> 'a' <= r <= 'z' && r as int == c as int + 32
    ensures !('A' <= c <= 'Z') ==> r == c
  {
    if 'A' <= c <= 'Z' then (c as int + 32) as char else c
  }

  function UpperAscii(c: char): (r: char)
    ensures 'a' <= c <= 'z' ==> 'A' <= r <= 'Z' && r as int == c as int - 32
    ensures !('a' <= c <= 'z') ==> r == c
  {
    if 'a' <= c <= 'z' then (c as int - 32) as char else c
  }

  /** Swift's `lowercased()`, restricted to ASCII letters. */
  function LowerCased(s: string): (r: string)
    ensures |r| == |s|
    ensures forall i :: 0 <= i < |s| ==> r[i] == LowerAscii(s[i])
  {
    seq(|s|, i requires 0 <= i < |s| => LowerAscii(s[i]))
  }

  /** The per-character test of Java's `regionMatches(true, ...)`: equal, or
      equal after upper-casing, or equal after upper- then lower-casing. */
  predicate CharEqualsIgnoreCase(a: char, b: char) {
    a == b
    || UpperAscii(a) == UpperAscii(b)
    || LowerAscii(UpperAscii(a)) == LowerAscii(UpperAscii(b))
  }

  /** Java's `a.equalsIgnoreCase(b)` for a non-null `b`: the strings have
      the same length and agree character by character once lower-cased. */
  predicate EqualsIgnoreCase(a: string, b: string): (r: bool)
    ensures r <==> |a| == |b| && forall i :: 0 <= i < |a| ==> LowerAscii(a[i]) == LowerAscii(b[i])
  {
    |a| == |b| && forall i :: 0 <= i < |a| ==> CharEqualsIgnoreCase(a[i], b[i])
  }

  /** Java's case-insensitive comparison and Swift's lower-casing agree:
      two strings match ignoring case exactly when their lower-cased forms
      are equal. */
  lemma EqualsIgnoreCaseIffLowerCasedEqual(a: string, b: string)
    ensures EqualsIgnoreCase(a, b) <==> LowerCased(a) == LowerCased(b)
  {
    if |a| == |b| {
      forall i | 0 <= i < |a|
        ensures CharEqualsIgnoreCase(a[i], b[i]) <==> LowerAscii(a[i]) == LowerAscii(b[i])
      {
      }
      if LowerCased(a) == LowerCased(b) {
        forall i | 0 <= i < |a| ensures LowerAscii(a[i]) == LowerAscii(b[i]) {
          assert LowerCased(a)[i] == LowerCased(b)[i];
        }
      }
    } else {
      assert |LowerCased(a)| != |LowerCased(b)|;
    }
  }

  /** Matching ignoring case is an equivalence: it is symmetric and
      transitive, so a method name that matches one spelling of "GET"
      matches every spelling. */
  lemma EqualsIgnoreCaseTransitive(a: string, b: string, c: string)
    requires EqualsIgnoreCase(a, b) && EqualsIgnoreCase(b, c)
    ensures EqualsIgnoreCase(a, c) && EqualsIgnoreCase(c, a)
  {
    EqualsIgnoreCaseIffLowerCasedEqual(a, b);
    EqualsIgnoreCaseIffLowerCasedEqual(b, c);
    EqualsIgnoreCaseIffLowerCasedEqual(a, c);
    EqualsIgnoreCaseIffLowerCasedEqual(c, a);
  }

  /** A string without ASCII letters is its own lower-cased form, and it is
      the only string with that lower-cased form. */
  lemma LowerCasedFixesNonLetters(h: string, t: string)
    requires forall i :: 0 <= i < |t| ==> !('a' <= t[i] <= 'z') && !('A' <= t[i] <= 'Z')
    ensures LowerCased(t) == t
    ensures LowerCased(h) == t ==> h == t
  {
    assert LowerCased(t) == t;
    if LowerCased(h) == t {
      forall i | 0 <= i < |h| ensures h[i] == t[i] {
        assert LowerCased(h)[i] == LowerAscii(h[i]);
      }
    }
  }

  function DigitChar(d: nat): (c: char)
    requires d < 10
    ensures '0' <= c <= '9'
  {
    ('0' as int + d) as char
  }

  /** The decimal digits of `n`, most significant first, without leading
      zeros. */
  function NatToDigits(n: nat): (s: string)
    ensures |s| > 0 && forall i :: 0 <= i < |s| ==> '0' <= s[i] <= '9'
    ensures s[0] == '0' ==> n == 0
  {
    if n < 10 then [DigitChar(n)] else NatToDigits(n / 10) + [DigitChar(n % 10)]
  }

  /** Reads a run of decimal digits back into a number. */
  function DigitsValue(s: string): nat
    requires forall i :: 0 <= i < |s| ==> '0' <= s[i] <= '9'
  {
    if s == [] then 0
    else DigitsValue(s[..|s| - 1]) * 10 + (s[|s| - 1] as int - '0' as int)
  }

  /** Reads the text `IntToString` produces back into the number. */
  function ParseInt(s: string): int
    requires s != [] && forall i :: 0 <= i < |s| ==> ('0' <= s[i] <= '9' || (i == 0 && s[i] == '-'))
  {
    if s[0] == '-' then 0 - DigitsValue(s[1..]) as int else DigitsValue(s)
  }

  lemma {:induction false} DigitsRoundTrip(n: nat)
    ensures DigitsValue(NatToDigits(n)) == n
  {
    if n >= 10 {
      DigitsRoundTrip(n / 10);
      var s := NatToDigits(n);
      assert s[..|s| - 1] == NatToDigits(n / 10);
    }
  }

  /** Java's `Integer.toString(n)`: the decimal digits of `|n|`, after a
      minus sign exactly when `n` is negative; read back, it gives `n`. */
  function IntToString(n: int): (r: string)
    ensures r != [] && forall i :: 0 <= i < |r| ==> ('0' <= r[i] <= '9' || (i == 0 && r[i] == '-'))
    ensures r[0] == '-' <==> n < 0
    ensures ParseInt(r) == n
  {
    if n < 0 then
      DigitsRoundTrip(-n);
      assert ("-" + NatToDigits(-n))[1..] == NatToDigits(-n);
      "-" + NatToDigits(-n)
    else
      DigitsRoundTrip(n);
      NatToDigits(n)
  }
}
