/** Decimal text for naturals and integers, Python's and JavaScript's integer
    truncation, and fixed-point formatting to three decimal places, each with
    the parser that undoes it. */
module Decimal {

  predicate IsDigit(c: char) { '0' <= c <= '9' }

  predicate AllDigits(s: string) { forall i :: 0 <= i < |s| ==> IsDigit(s[i]) }

  function DigitChar(d: nat): (c: char)
    requires d < 10
    ensures IsDigit(c) && (c as int) - ('0' as int) == d
  {
    ('0' as int + d) as char
  }

  function DigitValue(c: char): nat
    requires IsDigit(c)
  {
    (c as int) - ('0' as int)
  }

  /** The shortest decimal spelling of n, as str(n) and String(n) give it. */
  function NatToDecimal(n: nat): string
  {
    if n < 10 then [DigitChar(n)] else NatToDecimal(n / 10) + [DigitChar(n % 10)]
  }

  function DecimalToNat(s: string): nat
    requires AllDigits(s)
  {
    if s == [] then 0 else DecimalToNat(s[..|s| - 1]) * 10 + DigitValue(s[|s| - 1])
  }

  lemma {:induction false} NatToDecimalDigits(n: nat)
    ensures |NatToDecimal(n)| >= 1 && AllDigits(NatToDecimal(n))
    ensures n < 10 <==> |NatToDecimal(n)| == 1
  {
    if n >= 10 {
      NatToDecimalDigits(n / 10);
    }
  }

  /** Reading back the decimal text of n gives n. */
  lemma {:induction false} DecimalRoundTrip(n: nat)
    ensures AllDigits(NatToDecimal(n)) && DecimalToNat(NatToDecimal(n)) == n
  {
    NatToDecimalDigits(n);
    if n >= 10 {
      DecimalRoundTrip(n / 10);
      var s := NatToDecimal(n);
      assert s[..|s| - 1] == NatToDecimal(n / 10);
    }
  }

  lemma NatToDecimalInjective(m: nat, n: nat)
    requires NatToDecimal(m) == NatToDecimal(n)
    ensures m == n
  {
    DecimalRoundTrip(m);
    DecimalRoundTrip(n);
  }

  /** Python's int(x) of a float: toward zero. JavaScript's % on numbers
      also truncates its quotient this way. */
  function Trunc(x: real): (r: int)
    ensures 0.0 <= x ==> 0 <= r && r as real <= x < r as real + 1.0
    ensures x < 0.0 ==> r <= 0 && r as real - 1.0 < x <= r as real
  {
    if x >= 0.0 then x.Floor else -((-x).Floor)
  }

  /** JavaScript's String(i) for an integer-valued number below 1e21. */
  function IntToDecimal(i: int): string
  {
    if i < 0 then "-" + NatToDecimal(-i) else NatToDecimal(i)
  }

  /** JavaScript's s.padStart(2, "0"). */
  function PadStart2(s: string): (r: string)
    ensures |s| >= 2 ==> r == s
    ensures |s| < 2 ==> |r| == 2 && r[2 - |s|..] == s && forall i :: 0 <= i < 2 - |s| ==> r[i] == '0'
  {
    if |s| >= 2 then s else seq(2 - |s|, _ => '0') + s
  }

  /** Round half to even, the rounding of Python's fixed-point formatting. */
  function RoundHalfEven(y: real): (r: nat)
    requires y >= 0.0
    ensures -0.5 <= r as real - y <= 0.5
  {
    var f := y.Floor;
    var frac := y - f as real;
    if frac > 0.5 then f + 1
    else if frac < 0.5 then f
    else if f % 2 == 0 then f else f + 1
  }

  /** The three fractional digits of n / 1000, zero-padded. */
  function ThreeDigits(n: nat): (s: string)
    requires n < 1000
    ensures |s| == 3 && AllDigits(s)
  {
    [DigitChar(n / 100), DigitChar(n / 10 % 10), DigitChar(n % 10)]
  }

  /** Python's format(x, ".3f") on the exact value x. */
  function Fixed3(x: real): string
  {
    if x < 0.0 then "-" + Fixed3Abs(-x) else Fixed3Abs(x)
  }

  function Fixed3Abs(x: real): string
    requires x >= 0.0
  {
    var n := RoundHalfEven(x * 1000.0);
    NatToDecimal(n / 1000) + "." + ThreeDigits(n % 1000)
  }

  /** Reads "<digits>.<three digits>" back as a count of thousandths. */
  function ParseFixed3(s: string): (r: Option<nat>)
  {
    if |s| >= 5 && s[|s| - 4] == '.' && AllDigits(s[..|s| - 4]) && AllDigits(s[|s| - 3..])
    then Some(DecimalToNat(s[..|s| - 4]) * 1000 + DecimalToNat(s[|s| - 3..]))
    else None
  }

  datatype Option<T> = None | Some(value: T)

  lemma ThreeDigitsValue(n: nat)
    requires n < 1000
    ensures DecimalToNat(ThreeDigits(n)) == n
  {
    var s := ThreeDigits(n);
    var a, b, c := n / 100, n / 10 % 10, n % 10;
    assert s[..2][..1] == [s[0]];
    assert [s[0]][..0] == [];
    assert DecimalToNat([s[0]]) == a;
    assert s[..2] == [s[0], s[1]];
    assert DecimalToNat(s[..2]) == a * 10 + b;
    assert s[..|s| - 1] == s[..2];
    assert DecimalToNat(s) == (a * 10 + b) * 10 + c;
    assert n / 10 == a * 10 + b;
  }

  /** Reading back the three-decimal text of x gives x rounded to the
      nearest thousandth, with ties to even. */
  lemma Fixed3RoundTrip(x: real)
    requires x >= 0.0
    ensures ParseFixed3(Fixed3(x)) == Some(RoundHalfEven(x * 1000.0))
    ensures -0.0005 <= RoundHalfEven(x * 1000.0) as real / 1000.0 - x <= 0.0005
  {
    var n := RoundHalfEven(x * 1000.0);
    var ip := NatToDecimal(n / 1000);
    var fp := ThreeDigits(n % 1000);
    var s := Fixed3(x);
    assert s == ip + "." + fp;
    NatToDecimalDigits(n / 1000);
    DecimalRoundTrip(n / 1000);
    ThreeDigitsValue(n % 1000);
    assert s[..|s| - 4] == ip;
    assert s[|s| - 3..] == fp;
    assert s[|s| - 4] == '.';
  }
}
