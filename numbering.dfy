/** Invoice numbers: the prefix followed by the counter in Python's `04d`
    format (decimal, zero-padded to a minimum width of four, never truncated). */
module Numbering {

  predicate IsDigit(c: char) {
    '0' <= c <= '9'
  }

  predicate AllDigits(s: string) {
    forall i :: 0 <= i < |s| ==> IsDigit(s[i])
  }

  function DigitChar(d: nat): (c: char)
    requires d < 10
    ensures IsDigit(c) && c as int - '0' as int == d
  {
    (d + '0' as int) as char
  }

  /** The decimal digits of `n`, most significant first, without leading zeros. */
  function Digits(n: nat): (r: string)
    ensures 1 <= |r|
    decreases n
  {
    if n < 10 then [DigitChar(n)] else Digits(n / 10) + [DigitChar(n % 10)]
  }

  /** The value of a string of decimal digits (the inverse direction of `Digits`). */
  function ValueOf(s: string): int {
    if s == [] then 0 else 10 * ValueOf(s[..|s| - 1]) + (s[|s| - 1] as int - '0' as int)
  }

  function Pow10(k: nat): (r: nat)
    ensures 1 <= r
  {
    if k == 0 then 1 else 10 * Pow10(k - 1)
  }

  function Zeros(k: nat): string {
    seq(k, _ => '0')
  }

  /** Left-pads `s` with '0' up to `width` characters; longer strings are kept whole. */
  function ZeroPad(s: string, width: nat): string {
    if |s| < width then Zeros(width - |s|) + s else s
  }

  /** Python's `f"{n:04d}"`: for a negative `n` the sign counts toward the width. */
  function Format04d(n: int): string {
    if n < 0 then "-" + ZeroPad(Digits(-n), 3) else ZeroPad(Digits(n), 4)
  }

  /** `f"{prefix}{n:04d}"`. */
  function InvoiceNumber(prefix: string, n: int): string {
    prefix + Format04d(n)
  }

  /** Reads back what `Format04d` writes. */
  function Format04dValue(s: string): int {
    if s != [] && s[0] == '-' then -ValueOf(s[1..]) else ValueOf(s)
  }

  lemma {:induction false} DigitsRoundTrip(n: nat)
    ensures AllDigits(Digits(n)) && ValueOf(Digits(n)) == n
    decreases n
  {
    if n >= 10 {
      DigitsRoundTrip(n / 10);
      var d := Digits(n);
      assert d[..|d| - 1] == Digits(n / 10);
    }
  }

  lemma {:induction false} ZerosValue(k: nat)
    ensures ValueOf(Zeros(k)) == 0
  {
    if k > 0 {
      assert Zeros(k)[..k - 1] == Zeros(k - 1);
      ZerosValue(k - 1);
    }
  }

  /** Leading zeros do not change the value of a digit string. */
  lemma {:induction false} LeadingZerosValue(k: nat, s: string)
    ensures ValueOf(Zeros(k) + s) == ValueOf(s)
    decreases |s|
  {
    if s == [] {
      assert Zeros(k) + s == Zeros(k);
      ZerosValue(k);
    } else {
      var t := Zeros(k) + s;
      assert t[..|t| - 1] == Zeros(k) + s[..|s| - 1];
      LeadingZerosValue(k, s[..|s| - 1]);
    }
  }

  lemma ZeroPadValue(s: string, width: nat)
    ensures ValueOf(ZeroPad(s, width)) == ValueOf(s)
  {
    if |s| < width {
      LeadingZerosValue(width - |s|, s);
    }
  }

  /** Round trip: the counter can be read back from its formatted form. */
  lemma Format04dRoundTrip(n: int)
    ensures Format04dValue(Format04d(n)) == n
  {
    if n < 0 {
      DigitsRoundTrip(-n);
      ZeroPadValue(Digits(-n), 3);
      var f := Format04d(n);
      assert f[1..] == ZeroPad(Digits(-n), 3);
    } else {
      DigitsRoundTrip(n);
      ZeroPadValue(Digits(n), 4);
      var p := ZeroPad(Digits(n), 4);
      assert p[0] == '0' || p[0] == Digits(n)[0];
    }
  }

  /** Distinct counter values never produce the same invoice number. */
  lemma InvoiceNumberInjective(prefix: string, a: int, b: int)
    requires InvoiceNumber(prefix, a) == InvoiceNumber(prefix, b)
    ensures a == b
  {
    var x, y := InvoiceNumber(prefix, a), InvoiceNumber(prefix, b);
    assert Format04d(a) == x[|prefix|..];
    assert Format04d(b) == y[|prefix|..];
    Format04dRoundTrip(a);
    Format04dRoundTrip(b);
  }

  lemma {:induction false} DigitsLength(n: nat, k: nat)
    requires 1 <= k
    ensures |Digits(n)| <= k <==> n < Pow10(k)
    decreases n
  {
    if n >= 10 {
      if k == 1 {
        assert Pow10(1) == 10;
      } else {
        DigitsLength(n / 10, k - 1);
        assert n / 10 < Pow10(k - 1) <==> n < 10 * Pow10(k - 1);
      }
    } else {
      assert Pow10(k) == 10 * Pow10(k - 1);
    }
  }

  /** For a non-negative counter the number part is all digits and exactly
      four characters below 10000; from 10000 on it is the plain decimal
      form, neither padded nor truncated. */
  lemma Format04dShape(n: nat)
    ensures AllDigits(Format04d(n))
    ensures n < 10000 ==> |Format04d(n)| == 4
    ensures n >= 10000 ==> Format04d(n) == Digits(n) && |Format04d(n)| >= 5
  {
    DigitsRoundTrip(n);
    DigitsLength(n, 4);
    assert Pow10(4) == 10000;
  }

  /** The examples the program's behaviour is stated with. */
  lemma InvoiceNumberExamples()
    ensures InvoiceNumber("A", 7) == "A0007"
    ensures InvoiceNumber("A", 12345) == "A12345"
    ensures InvoiceNumber("INV", 1) == "INV0001"
    ensures InvoiceNumber("INV", 2) == "INV0002"
  {
  }
}
