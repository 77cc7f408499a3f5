/** Decimal rendering of naturals, as Python's `str` and `:05d` print them. */
module Decimals {

  const DIGITS: string := "0123456789"

  function Decimal(n: nat): (s: string)
    ensures s != [] && forall i :: 0 <= i < |s| ==> s[i] in DIGITS
  {
    if n < 10 then [DIGITS[n]] else Decimal(n / 10) + [DIGITS[n % 10]]
  }

  /** Value of a digit string; 0 for other characters. */
  ghost function Value(s: string): nat
  {
    if s == [] then 0 else 10 * Value(s[..|s| - 1]) + DigitValue(s[|s| - 1])
  }

  ghost function DigitValue(c: char): nat
  {
    if '0' <= c <= '9' then (c - '0') as nat else 0
  }

  lemma {:induction false} DigitRoundTrip(d: nat)
    requires d < 10
    ensures DigitValue(DIGITS[d]) == d
  {
    assert DIGITS == ['0', '1', '2', '3', '4', '5', '6', '7', '8', '9'];
  }

  lemma {:induction false} DecimalRoundTrip(n: nat)
    ensures Value(Decimal(n)) == n
  {
    if n < 10 {
      DigitRoundTrip(n);
      assert Decimal(n)[..0] == [];
    } else {
      DecimalRoundTrip(n / 10);
      DigitRoundTrip(n % 10);
      var s := Decimal(n);
      assert s[..|s| - 1] == Decimal(n / 10);
    }
  }

  function Zeros(k: nat): (s: string)
    ensures |s| == k && forall i :: 0 <= i < k ==> s[i] == '0'
  {
    if k == 0 then "" else ['0'] + Zeros(k - 1)
  }

  /** `:05d`. */
  function Padded(n: nat): (s: string)
    ensures forall i :: 0 <= i < |s| ==> s[i] in DIGITS
  {
    var d := Decimal(n);
    assert DIGITS[0] == '0';
    Zeros(if |d| < 5 then 5 - |d| else 0) + d
  }

  lemma {:induction false} LeadingZeros(k: nat, s: string)
    ensures Value(Zeros(k) + s) == Value(s)
  {
    if s == [] {
      assert Zeros(k) + s == Zeros(k);
      ZerosValue(k);
    } else {
      LeadingZeros(k, s[..|s| - 1]);
      var t := Zeros(k) + s;
      assert t[..|t| - 1] == Zeros(k) + s[..|s| - 1];
    }
  }

  lemma {:induction false} ZerosValue(k: nat)
    ensures Value(Zeros(k)) == 0
  {
    if k > 0 {
      var s := Zeros(k);
      AllZeros(s[..k - 1], k - 1);
      ZerosValue(k - 1);
    }
  }

  lemma {:induction false} AllZeros(s: string, k: nat)
    requires |s| == k && forall i :: 0 <= i < k ==> s[i] == '0'
    ensures s == Zeros(k)
  {
  }

  lemma {:induction false} PaddedRoundTrip(n: nat)
    ensures Value(Padded(n)) == n
  {
    var d := Decimal(n);
    LeadingZeros(if |d| < 5 then 5 - |d| else 0, d);
    DecimalRoundTrip(n);
  }
}
