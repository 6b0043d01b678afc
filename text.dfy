/**
 * String helpers shared by the guardrail, the classifier, the context
 * assembly and the analytics: ASCII case folding (`toLowerCase`,
 * `toUpperCase`), substring search (`includes`), `some` over a keyword list,
 * decimal rendering of integers (template literals and object keys) and
 * `Array.prototype.join`.
 */
module Text {

  /** Lower-cases an ASCII capital; every other character is unchanged. */
  function LowerChar(c: char): char {
    if 'A' <= c <= 'Z' then (c as int + 32) as char else c
  }

  /** Upper-cases an ASCII small letter; every other character is unchanged. */
  function UpperChar(c: char): char {
    if 'a' <= c <= 'z' then (c as int - 32) as char else c
  }

  /** `toLowerCase`, on ASCII letters. */
  function Lower(s: string): string {
    seq(|s|, i requires 0 <= i < |s| => LowerChar(s[i]))
  }

  /** Lower-casing keeps the length, leaves no capital and changes nothing but capitals. */
  lemma LowerFolds(s: string)
    ensures |Lower(s)| == |s|
    ensures forall i :: 0 <= i < |s| ==> !('A' <= Lower(s)[i] <= 'Z')
    ensures forall i :: 0 <= i < |s| ==> Lower(s)[i] == s[i] || 'A' <= s[i] <= 'Z'
  {
  }

  function Upper(s: string): string {
    seq(|s|, i requires 0 <= i < |s| => UpperChar(s[i]))
  }

  /** Folding the upper-cased text gives the same text as folding the original. */
  lemma LowerOfUpper(s: string)
    ensures Lower(Upper(s)) == Lower(s)
  {
  }

  lemma LowerConcat(a: string, b: string)
    ensures Lower(a + b) == Lower(a) + Lower(b)
  {
  }

  /** `p` occurs in `s` starting at index `i`. */
  predicate OccursAt(s: string, p: string, i: nat) {
    i + |p| <= |s| && s[i..i + |p|] == p
  }

  /** `s.includes(p)`. */
  predicate Contains(s: string, p: string) {
    exists i: nat :: i <= |s| - |p| && OccursAt(s, p, i)
  }

  /** `ps.some(p => s.includes(p))`; only a pattern no longer than the text can match. */
  predicate ContainsAny(s: string, ps: seq<string>)
    ensures ContainsAny(s, ps) ==> exists j :: 0 <= j < |ps| && |ps[j]| <= |s|
  {
    exists j :: 0 <= j < |ps| && Contains(s, ps[j])
  }

  /** A text cannot contain a pattern one of whose characters it lacks. */
  lemma MissingChar(s: string, p: string, j: nat)
    requires j < |p| && p[j] !in s
    ensures !Contains(s, p)
  {
    forall i: nat | i <= |s| - |p|
      ensures !OccursAt(s, p, i)
    {
      assert s[i..i + |p|][j] == s[i + j];
    }
  }

  /** No pattern of the list occurs if each lacks a character of the text (`idx[j]` names it). */
  lemma MissingFromEach(s: string, ps: seq<string>, idx: seq<nat>)
    requires |idx| == |ps|
    requires forall j :: 0 <= j < |ps| ==> idx[j] < |ps[j]| && ps[j][idx[j]] !in s
    ensures !ContainsAny(s, ps)
  {
    forall j | 0 <= j < |ps|
      ensures !Contains(s, ps[j])
    {
      MissingChar(s, ps[j], idx[j]);
    }
  }

  /** Substring search is monotone: surrounding text never hides an occurrence. */
  lemma ContainsInContext(a: string, s: string, b: string, p: string)
    requires Contains(s, p)
    ensures Contains(a + s + b, p)
  {
    var i: nat :| i <= |s| - |p| && OccursAt(s, p, i);
    var t := a + s + b;
    assert t[|a| + i..|a| + i + |p|] == s[i..i + |p|];
    assert OccursAt(t, p, |a| + i);
  }

  /** `ps.some(p => s.includes(p))` holds exactly when `s` splits around one of the patterns. */
  lemma ContainsAnyAsSplit(s: string, ps: seq<string>)
    ensures ContainsAny(s, ps) <==> exists j, a: string, b: string :: 0 <= j < |ps| && s == a + ps[j] + b
  {
    if ContainsAny(s, ps) {
      var j :| 0 <= j < |ps| && Contains(s, ps[j]);
      var i: nat :| i <= |s| - |ps[j]| && OccursAt(s, ps[j], i);
      assert s == s[..i] + ps[j] + s[i + |ps[j]|..];
    }
    if exists j, a: string, b: string :: 0 <= j < |ps| && s == a + ps[j] + b {
      var j, a: string, b: string :| 0 <= j < |ps| && s == a + ps[j] + b;
      assert OccursAt(ps[j], ps[j], 0);
      ContainsInContext(a, ps[j], b, ps[j]);
    }
  }

  lemma ContainsAnyInContext(a: string, s: string, b: string, ps: seq<string>)
    requires ContainsAny(s, ps)
    ensures ContainsAny(a + s + b, ps)
  {
    var j :| 0 <= j < |ps| && Contains(s, ps[j]);
    ContainsInContext(a, s, b, ps[j]);
  }

  predicate IsDigit(c: char) {
    '0' <= c <= '9'
  }

  function DigitChar(d: nat): char
    requires d < 10
  {
    ('0' as int + d) as char
  }

  /** Decimal rendering of a non-negative integer, as `${n}` gives it. */
  function NatToString(n: nat): (r: string)
    ensures r != [] && forall i :: 0 <= i < |r| ==> IsDigit(r[i])
  {
    if n < 10 then [DigitChar(n)] else NatToString(n / 10) + [DigitChar(n % 10)]
  }

  /** Reads back a string of decimal digits. */
  function DigitsValue(s: string): nat
    requires forall i :: 0 <= i < |s| ==> IsDigit(s[i])
  {
    if s == [] then 0
    else
      assert IsDigit(s[|s| - 1]);
      DigitsValue(s[..|s| - 1]) * 10 + (s[|s| - 1] as int - '0' as int)
  }

  /** The decimal rendering is read back as the number it renders. */
  lemma {:induction false} DecimalRoundTrip(n: nat)
    ensures DigitsValue(NatToString(n)) == n
  {
    if n >= 10 {
      DecimalRoundTrip(n / 10);
      var s := NatToString(n / 10) + [DigitChar(n % 10)];
      assert s[..|s| - 1] == NatToString(n / 10);
    }
  }

  /**
   * Decimal rendering of an integer, as `String(n)` gives it for an integral
   * number of magnitude below 10^21 (larger ones print in exponent form).
   */
  function IntToString(n: int): string {
    if n < 0 then "-" + NatToString(-n) else NatToString(n)
  }

  /** A rendering starts with a minus sign exactly when the number is negative. */
  lemma IntToStringSign(n: int)
    ensures IntToString(n) != [] && (IntToString(n)[0] == '-' <==> n < 0)
  {
    if n >= 0 {
      assert IsDigit(NatToString(n)[0]);
    }
  }

  /** Different integers render differently. */
  lemma IntToStringInjective(a: int, b: int)
    requires IntToString(a) == IntToString(b)
    ensures a == b
  {
    var sa, sb := IntToString(a), IntToString(b);
    IntToStringSign(a);
    IntToStringSign(b);
    if a < 0 && b < 0 {
      assert sa[1..] == NatToString(-a) && sb[1..] == NatToString(-b);
      DecimalRoundTrip(-a);
      DecimalRoundTrip(-b);
    } else if a >= 0 && b >= 0 {
      DecimalRoundTrip(a);
      DecimalRoundTrip(b);
    } else {
      assert false;
    }
  }

  /** `xs.join(sep)`. */
  function Join(xs: seq<string>, sep: string): string {
    if |xs| == 0 then ""
    else if |xs| == 1 then xs[0]
    else xs[0] + sep + Join(xs[1..], sep)
  }

  /** A join is empty for no elements, and otherwise starts with the first and ends with the last. */
  lemma {:induction false} JoinEnds(xs: seq<string>, sep: string)
    ensures xs == [] ==> Join(xs, sep) == ""
    ensures xs != [] ==> xs[0] <= Join(xs, sep)
    ensures xs != [] ==>
              && |xs[|xs| - 1]| <= |Join(xs, sep)|
              && Join(xs, sep)[|Join(xs, sep)| - |xs[|xs| - 1]|..] == xs[|xs| - 1]
  {
    if |xs| > 1 {
      JoinEnds(xs[1..], sep);
    }
  }

  /** Joining one more element appends the separator and that element. */
  lemma {:induction false} JoinSnoc(xs: seq<string>, x: string, sep: string)
    requires xs != []
    ensures Join(xs + [x], sep) == Join(xs, sep) + sep + x
  {
    if |xs| == 1 {
      assert (xs + [x])[1..] == [x];
    } else {
      JoinSnoc(xs[1..], x, sep);
      assert (xs + [x])[1..] == xs[1..] + [x];
    }
  }

  /** Code-point lexicographic order: `a` sorts strictly before `b`. */
  predicate StrLess(a: string, b: string)
    decreases |a|
  {
    if a == [] then b != []
    else if b == [] then false
    else if a[0] != b[0] then a[0] < b[0]
    else StrLess(a[1..], b[1..])
  }

  lemma {:induction false} StrLessIrreflexive(a: string)
    ensures !StrLess(a, a)
  {
    if a != [] {
      StrLessIrreflexive(a[1..]);
    }
  }

  lemma {:induction false} StrLessTransitive(a: string, b: string, c: string)
    requires StrLess(a, b) && StrLess(b, c)
    ensures StrLess(a, c)
    decreases |a|
  {
    if a != [] && b != [] && c != [] && a[0] == b[0] && b[0] == c[0] {
      StrLessTransitive(a[1..], b[1..], c[1..]);
    }
  }

  lemma {:induction false} StrLessTotal(a: string, b: string)
    requires a != b
    ensures StrLess(a, b) || StrLess(b, a)
    decreases |a|
  {
    if a != [] && b != [] && a[0] == b[0] {
      assert a == [a[0]] + a[1..] && b == [b[0]] + b[1..];
      StrLessTotal(a[1..], b[1..]);
    }
  }

  lemma StrLessAsymmetric(a: string, b: string)
    requires StrLess(a, b)
    ensures !StrLess(b, a)
  {
    if StrLess(b, a) {
      StrLessTransitive(a, b, a);
      StrLessIrreflexive(a);
    }
  }
}
