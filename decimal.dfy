/** Decimal text of integers, as .NET formats an `int` in an interpolated string and as the
    custom date format pads its numeric fields with leading zeros. */
module Decimal {

  import opened Wrappers

  predicate IsDigit(c: char) { '0' <= c <= '9' }

  predicate AllDigits(s: string) { forall i :: 0 <= i < |s| ==> IsDigit(s[i]) }

  function DigitValue(c: char): (d: nat)
    requires IsDigit(c)
    ensures d < 10
  {
    c as int - '0' as int
  }

  function DigitChar(d: nat): (c: char)
    requires d < 10
    ensures IsDigit(c) && DigitValue(c) == d
  {
    (('0' as int) + d) as char
  }

  function Pow10(w: nat): (p: nat)
    ensures p >= 1
  {
    if w == 0 then 1 else 10 * Pow10(w - 1)
  }

  /** The shortest decimal text of `n`: "0" for zero, otherwise no leading zero. */
  function FromNat(n: nat): (s: string)
    ensures |s| >= 1 && AllDigits(s)
    ensures n == 0 <==> s == "0"
    ensures s[0] != '0' || n == 0
  {
    if n < 10 then [DigitChar(n)] else FromNat(n / 10) + [DigitChar(n % 10)]
  }

  /** The number a digit string denotes (leading zeros allowed). */
  function Value(s: string): nat
    requires AllDigits(s)
  {
    if s == [] then 0 else Value(s[..|s| - 1]) * 10 + DigitValue(s[|s| - 1])
  }

  lemma {:induction false} ValueOfFromNat(n: nat)
    ensures Value(FromNat(n)) == n
  {
    if n >= 10 {
      var s := FromNat(n);
      assert s[..|s| - 1] == FromNat(n / 10);
      ValueOfFromNat(n / 10);
    }
  }

  lemma {:induction false} FromNatLength(n: nat, w: nat)
    requires w >= 1 && n < Pow10(w)
    ensures |FromNat(n)| <= w
  {
    if n >= 10 {
      FromNatLength(n / 10, w - 1);
    }
  }

  /** k zero characters. */
  function Zeros(k: nat): (s: string)
    ensures |s| == k && AllDigits(s)
  {
    if k == 0 then [] else Zeros(k - 1) + ['0']
  }

  lemma {:induction false} ValueOfZerosPrefix(k: nat, s: string)
    requires AllDigits(s)
    ensures Value(Zeros(k) + s) == Value(s)
  {
    if s == [] {
      assert Zeros(k) + s == Zeros(k);
      ValueOfZeros(k);
    } else {
      var t := Zeros(k) + s;
      assert t[..|t| - 1] == Zeros(k) + s[..|s| - 1];
      ValueOfZerosPrefix(k, s[..|s| - 1]);
    }
  }

  lemma {:induction false} ValueOfZeros(k: nat)
    ensures Value(Zeros(k)) == 0
  {
    if k > 0 {
      assert Zeros(k)[..k - 1] == Zeros(k - 1);
      ValueOfZeros(k - 1);
    }
  }

  /** `n` in at least `w` digits, padded with leading zeros (the `MM`, `dd`, `yyyy` fields of a
      custom date format). */
  function Padded(n: nat, w: nat): (s: string)
    ensures AllDigits(s)
  {
    var d := FromNat(n);
    if |d| < w then Zeros(w - |d|) + d else d
  }

  lemma PaddedExact(n: nat, w: nat)
    requires w >= 1 && n < Pow10(w)
    ensures |Padded(n, w)| == w && Value(Padded(n, w)) == n
  {
    FromNatLength(n, w);
    ValueOfFromNat(n);
    if |FromNat(n)| < w {
      ValueOfZerosPrefix(w - |FromNat(n)|, FromNat(n));
    }
  }

  /** The decimal text of a signed integer, with a leading '-' when negative. */
  function FromInt(i: int): (s: string)
    ensures |s| >= 1
  {
    if i < 0 then "-" + FromNat(-i) else FromNat(i)
  }

  /** Reads back the text `FromInt` produces. */
  function ParseInt(s: string): Option<int>
  {
    if |s| >= 1 && s[0] == '-' && AllDigits(s[1..]) then Some(0 - Value(s[1..]) as int)
    else if AllDigits(s) then Some(Value(s))
    else None
  }

  lemma IntRoundTrip(i: int)
    ensures ParseInt(FromInt(i)) == Some(i)
  {
    if i < 0 {
      var s := FromInt(i);
      assert s[1..] == FromNat(-i);
      ValueOfFromNat(-i);
    } else {
      ValueOfFromNat(i);
    }
  }

  lemma FromIntInjective(i: int, j: int)
    ensures FromInt(i) == FromInt(j) <==> i == j
  {
    IntRoundTrip(i);
    IntRoundTrip(j);
  }
}
