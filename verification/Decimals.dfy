/** Decimal numerals as code points, and zero-padded identifiers. */
module Decimals {

  predicate IsDigit(c: int) {
    48 <= c <= 57
  }

  function Digits(n: nat): (r: seq<int>)
    ensures r != [] && forall i :: 0 <= i < |r| ==> IsDigit(r[i])
    ensures r[0] == 48 ==> n == 0 && |r| == 1
  {
    if n < 10 then [48 + n] else Digits(n / 10) + [48 + n % 10]
  }

  function Value(digits: seq<int>): (n: int) {
    if digits == [] then 0 else Value(digits[..|digits| - 1]) * 10 + digits[|digits| - 1] - 48
  }

  lemma {:induction false} ValueOfDigits(n: nat)
    ensures Value(Digits(n)) == n
  {
    if n >= 10 {
      ValueOfDigits(n / 10);
      var d := Digits(n);
      assert d[..|d| - 1] == Digits(n / 10);
    } else {
      assert Digits(n)[..0] == [];
    }
  }

  function Zeros(k: nat): (r: seq<int>)
    ensures |r| == k
  {
    seq(k, _ => 48)
  }

  lemma {:induction false} LeadingZeros(k: nat, digits: seq<int>)
    ensures Value(Zeros(k) + digits) == Value(digits)
  {
    var all := Zeros(k) + digits;
    if digits != [] {
      LeadingZeros(k, digits[..|digits| - 1]);
      assert all[..|all| - 1] == Zeros(k) + digits[..|digits| - 1];
    } else if k > 0 {
      LeadingZeros(k - 1, []);
      assert all[..|all| - 1] == Zeros(k - 1) + [];
    }
  }

  function DigitChar(c: int): (r: char)
    requires IsDigit(c)
    ensures r as int == c
  {
    c as char
  }

  function Chars(codes: seq<int>): (r: string)
    requires forall i :: 0 <= i < |codes| ==> IsDigit(codes[i])
    ensures |r| == |codes|
    ensures forall i :: 0 <= i < |codes| ==> r[i] as int == codes[i]
  {
    seq(|codes|, i requires 0 <= i < |codes| => DigitChar(codes[i]))
  }

  /** The numeral with at least four digits, as in `{n:04d}`. */
  function Padded(n: nat): (r: string) {
    var digits := Digits(n);
    Chars(Zeros(if |digits| < 4 then 4 - |digits| else 0) + digits)
  }

  lemma PaddedInjective(m: nat, n: nat)
    requires Padded(m) == Padded(n)
    ensures m == n
  {
    var a := Zeros(if |Digits(m)| < 4 then 4 - |Digits(m)| else 0) + Digits(m);
    var b := Zeros(if |Digits(n)| < 4 then 4 - |Digits(n)| else 0) + Digits(n);
    assert a == b by {
      assert |a| == |Padded(m)| == |b|;
      assert forall i :: 0 <= i < |a| ==> a[i] == Padded(m)[i] as int && b[i] == Padded(n)[i] as int;
    }
    LeadingZeros(|a| - |Digits(m)|, Digits(m));
    LeadingZeros(|b| - |Digits(n)|, Digits(n));
    ValueOfDigits(m);
    ValueOfDigits(n);
  }

  function Identifier(prefix: string, n: nat): (r: string) {
    prefix + "-" + Padded(n)
  }

  /** Identifiers agree only when both the prefix and the number agree. */
  lemma IdentifierInjective(p: string, m: nat, q: string, n: nat)
    requires '-' !in p && '-' !in q
    requires Identifier(p, m) == Identifier(q, n)
    ensures p == q && m == n
  {
    var a, b := Identifier(p, m), Identifier(q, n);
    assert a[|p|] == '-' && b[|q|] == '-';
    assert forall i :: 0 <= i < |p| ==> a[i] == p[i] && p[i] in p;
    assert forall i :: 0 <= i < |q| ==> b[i] == q[i] && q[i] in q;
    assert |p| == |q|;
    assert p == a[..|p|] && q == b[..|q|];
    assert Padded(m) == a[|p| + 1..] && Padded(n) == b[|q| + 1..];
    PaddedInjective(m, n);
  }
}
