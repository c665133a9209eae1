/**
 * String helpers shared by the screens: JavaScript's `toLowerCase` (on ASCII letters),
 * `includes` on strings, string truthiness, and the decimal rendering of a natural
 * number that template literals such as `B-${1000 + i}` perform.
 */
module Text {

  /** `toLowerCase` on one character: ASCII upper-case letters map to lower case. */
  function LowerChar(c: char): (d: char)
    ensures 'A' <= c <= 'Z' ==> d as int == c as int + 32
    ensures !('A' <= c <= 'Z') ==> d == c
    ensures !('A' <= d <= 'Z')
  {
    if 'A' <= c <= 'Z' then (c as int + 32) as char else c
  }

  /** `s.toLowerCase()`, character by character. */
  function Lower(s: string): (r: string)
    ensures |r| == |s|
    ensures forall i :: 0 <= i < |s| ==> r[i] == LowerChar(s[i])
  {
    seq(|s|, i requires 0 <= i < |s| => LowerChar(s[i]))
  }

  /** `sub` occurs in `s` starting at index `k`. */
  predicate OccursAt(s: string, sub: string, k: int) {
    0 <= k <= |s| - |sub| && s[k..k + |sub|] == sub
  }

  /** `s.includes(sub)`: `sub` occurs in `s` at some position. */
  predicate Contains(s: string, sub: string) {
    exists k | 0 <= k <= |s| - |sub| :: OccursAt(s, sub, k)
  }

  /** Every string includes the empty string. */
  lemma ContainsEmpty(s: string)
    ensures Contains(s, "")
  {
    assert OccursAt(s, "", 0);
  }

  /** A string includes itself. */
  lemma ContainsSelf(s: string)
    ensures Contains(s, s)
  {
    assert OccursAt(s, s, 0);
  }

  /** JavaScript truthiness of an optional string: present and non-empty. */
  predicate Truthy(s: string) {
    s != ""
  }

  /** The character of one decimal digit. */
  function DigitChar(d: nat): (c: char)
    requires d < 10
    ensures '0' <= c <= '9'
    ensures c as int - '0' as int == d
  {
    ('0' as int + d) as char
  }

  /** The decimal rendering of `n`, without sign or leading zeros (`${n}`). */
  function Decimal(n: nat): (r: string)
    ensures |r| >= 1
    ensures forall i :: 0 <= i < |r| ==> '0' <= r[i] <= '9'
    ensures n >= 10 ==> r[0] != '0'
  {
    if n < 10 then [DigitChar(n)] else Decimal(n / 10) + [DigitChar(n % 10)]
  }

  function Pow10(k: nat): (p: nat)
    ensures p >= 1
  {
    if k == 0 then 1 else 10 * Pow10(k - 1)
  }

  /** A number with exactly `k` digits renders as `k` characters. */
  lemma {:induction false} DecimalLength(n: nat, k: nat)
    requires k >= 1 && Pow10(k - 1) <= n < Pow10(k)
    ensures |Decimal(n)| == k
  {
    if k > 1 {
      DecimalLength(n / 10, k - 1);
    }
  }

  /** Different numbers render differently. */
  lemma {:induction false} DecimalInjective(a: nat, b: nat)
    requires Decimal(a) == Decimal(b)
    ensures a == b
  {
    var ra, rb := Decimal(a), Decimal(b);
    if a < 10 && b < 10 {
      assert ra[0] == rb[0];
    } else if a >= 10 && b >= 10 {
      assert ra[..|ra| - 1] == Decimal(a / 10);
      assert rb[..|rb| - 1] == Decimal(b / 10);
      DecimalInjective(a / 10, b / 10);
      assert ra[|ra| - 1] == rb[|rb| - 1];
    }
  }

  /** Distinct numbers render as distinct strings. */
  lemma DecimalDistinct(a: nat, b: nat)
    requires a != b
    ensures Decimal(a) != Decimal(b)
  {
    if Decimal(a) == Decimal(b) {
      DecimalInjective(a, b);
    }
  }

  /** A substring carries every character of what it contains. */
  lemma ContainsChar(s: string, sub: string, c: char)
    requires Contains(s, sub) && c in sub
    ensures c in s
  {
    var k :| 0 <= k <= |s| - |sub| && OccursAt(s, sub, k);
    var i :| 0 <= i < |sub| && sub[i] == c;
    assert s[k + i] == s[k..k + |sub|][i];
  }

  /** Lower-casing a text character by character gives `t`. */
  lemma LowerIs(s: string, t: string)
    requires |s| == |t| && forall i :: 0 <= i < |s| ==> LowerChar(s[i]) == t[i]
    ensures Lower(s) == t
  {
  }

  /** A lower-case letter absent from a text in both cases is absent from its lowering. */
  lemma NotInLower(s: string, c: char)
    requires 'a' <= c <= 'z' && c !in s && (c as int - 32) as char !in s
    ensures c !in Lower(s)
  {
  }

  /** A text lacking one of the characters of `sub` does not contain `sub`. */
  lemma MissingChar(s: string, sub: string, c: char)
    requires c in sub && c !in s
    ensures !Contains(s, sub)
  {
    if Contains(s, sub) {
      ContainsChar(s, sub, c);
    }
  }
}
