/**
  Decimal rendering of non-negative integers, as the clock faces use it:
  `n.toString()` followed by `padStart(2, '0')`. Both the countdown's
  `formatTime` and the flip card's `pad` are built from these.
*/
module Digits {

  predicate IsDigit(c: char) {
    '0' <= c <= '9'
  }

  predicate AllDigits(s: string) {
    forall i :: 0 <= i < |s| ==> IsDigit(s[i])
  }

  function DigitChar(d: nat): (c: char)
    requires d < 10
    ensures IsDigit(c)
  {
    '0' + d as char
  }

  function DigitValue(c: char): (d: nat)
    requires IsDigit(c)
    ensures d < 10 && DigitChar(d) == c
  {
    (c - '0') as nat
  }

  /** The decimal numeral of `n` without leading zeros, as `Number.prototype.toString` gives it. */
  function NatToString(n: nat): (s: string)
    ensures 1 <= |s| && AllDigits(s)
    ensures |s| == 1 <==> n < 10
    ensures n < 100 ==> |s| <= 2
    ensures n >= 100 ==> |s| >= 3
    ensures s[0] == '0' ==> n == 0
  {
    if n < 10 then [DigitChar(n)] else NatToString(n / 10) + [DigitChar(n % 10)]
  }

  /** The number a string of decimal digits denotes (leading zeros allowed, `""` denotes 0). */
  function DigitsValue(s: string): nat
    requires AllDigits(s)
  {
    if s == [] then 0 else 10 * DigitsValue(s[..|s| - 1]) + DigitValue(s[|s| - 1])
  }

  /** Reading back a rendered numeral gives the number again. */
  lemma {:induction false} NatToStringRoundTrip(n: nat)
    ensures DigitsValue(NatToString(n)) == n
  {
    var s := NatToString(n);
    if n >= 10 {
      NatToStringRoundTrip(n / 10);
      assert s[..|s| - 1] == NatToString(n / 10);
    }
  }

  /** A string that is the numeral of some `k` reads back as that `k`. */
  lemma NumeralValue(s: string)
    requires AllDigits(s)
    ensures forall k: nat :: s == NatToString(k) ==> DigitsValue(s) == k
  {
    forall k: nat | s == NatToString(k) ensures DigitsValue(s) == k {
      NatToStringRoundTrip(k);
    }
  }

  /** A numeral preceded by any number of `'0'`s still reads as its number, as `parseInt` reads it. */
  lemma PaddedNumeralValue(s: string)
    requires AllDigits(s)
    ensures forall z: nat, k: nat :: s == Repeat('0', z) + NatToString(k) ==> DigitsValue(s) == k
  {
    forall z: nat, k: nat | s == Repeat('0', z) + NatToString(k) ensures DigitsValue(s) == k {
      LeadingZeros(z, NatToString(k));
      NatToStringRoundTrip(k);
    }
  }

  /** A digit string denotes 0 exactly when every digit is `'0'`. */
  lemma {:induction false} ZeroNumeral(s: string)
    requires AllDigits(s)
    ensures DigitsValue(s) == 0 <==> forall i :: 0 <= i < |s| ==> s[i] == '0'
  {
    if s != [] {
      var t := s[..|s| - 1];
      ZeroNumeral(t);
      assert forall i :: 0 <= i < |t| ==> t[i] == s[i];
    }
  }

  function Repeat(c: char, k: nat): (s: string)
    ensures |s| == k && forall i :: 0 <= i < k ==> s[i] == c
  {
    if k == 0 then [] else [c] + Repeat(c, k - 1)
  }

  /** `String.prototype.padStart(width, fill)` with a one-character fill. */
  function PadStart(s: string, width: nat, fill: char): (r: string)
    ensures |s| >= width ==> r == s
    ensures |s| < width ==> |r| == width && r[width - |s|..] == s
    ensures forall i :: 0 <= i < |r| - |s| ==> r[i] == fill
  {
    if |s| >= width then s else Repeat(fill, width - |s|) + s
  }

  /** Leading zeros do not change the value of a numeral. */
  lemma {:induction false} LeadingZeros(k: nat, s: string)
    requires AllDigits(s)
    ensures AllDigits(Repeat('0', k) + s)
    ensures DigitsValue(Repeat('0', k) + s) == DigitsValue(s)
  {
    var z := Repeat('0', k);
    assert AllDigits(z + s) by {
      forall i | 0 <= i < |z + s| ensures IsDigit((z + s)[i]) {
        if i < k { assert (z + s)[i] == z[i]; } else { assert (z + s)[i] == s[i - k]; }
      }
    }
    if s == [] {
      assert z + s == z;
      ZerosValue(k);
    } else {
      var t := s[..|s| - 1];
      LeadingZeros(k, t);
      assert (z + s)[..|z + s| - 1] == z + t;
    }
  }

  lemma {:induction false} ZerosValue(k: nat)
    ensures DigitsValue(Repeat('0', k)) == 0
  {
    if k > 0 {
      var z := Repeat('0', k);
      ZerosValue(k - 1);
      assert z[..k - 1] == Repeat('0', k - 1);
    }
  }

  /**
    `n.toString().padStart(2, '0')`: the numeral of `n`, preceded by one `'0'`
    when it has a single digit.
  */
  function Pad(n: nat): (r: string)
    ensures |r| == if n < 10 then 2 else |NatToString(n)|
    ensures r[|r| - |NatToString(n)|..] == NatToString(n)
    ensures forall i :: 0 <= i < |r| - |NatToString(n)| ==> r[i] == '0'
  {
    PadStart(NatToString(n), 2, '0')
  }

  /**
    For `n` below 100 the padded label is exactly two characters: the tens digit
    (`'0'` when `n < 10`) and the units digit.
  */
  lemma PadTwoDigits(n: nat)
    requires n < 100
    ensures |Pad(n)| == 2
    ensures Pad(n)[0] == DigitChar(n / 10) && Pad(n)[1] == DigitChar(n % 10)
    ensures n < 10 ==> Pad(n)[0] == '0'
  {
    if n >= 10 {
      assert NatToString(n) == NatToString(n / 10) + [DigitChar(n % 10)];
    }
  }

  /** The padded label has two characters exactly for numbers below 100, and more from 100 on. */
  lemma PadWidth(n: nat)
    ensures |Pad(n)| == 2 <==> n < 100
    ensures |Pad(n)| >= 2
  {
    var s, r := NatToString(n), Pad(n);
    assert |r| == if n < 10 then 2 else |s|;
    if n >= 10 {
      assert |s| >= 2;
    }
  }

  /** Padding never loses information: the label reads back as `n`, for every `n`. */
  lemma PadRoundTrip(n: nat)
    ensures AllDigits(Pad(n)) && DigitsValue(Pad(n)) == n
  {
    var s := NatToString(n);
    NatToStringRoundTrip(n);
    if |s| < 2 {
      LeadingZeros(2 - |s|, s);
    }
  }
}
