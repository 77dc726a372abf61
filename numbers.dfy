/**
 * JavaScript's conversion of an integral Number to a string (`n + ''`),
 * restricted to the integers the controllers feed it (Date getters), for which
 * the result is a plain decimal numeral: an optional '-' followed by digits,
 * without leading zeros. Exponent notation only starts at 1e21, far beyond
 * any Date field.
 */
module Numbers {

  predicate IsDigit(c: char) {
    '0' <= c <= '9'
  }

  predicate AllDigits(s: string) {
    forall i :: 0 <= i < |s| ==> IsDigit(s[i])
  }

  function DigitValue(c: char): (d: nat)
    requires IsDigit(c)
    ensures d < 10
  {
    c as int - '0' as int
  }

  function DigitChar(d: nat): (c: char)
    requires d < 10
    ensures IsDigit(c) && DigitValue(c) == d
  {
    ('0' as int + d) as char
  }

  /** The decimal digits of `n`, most significant first. */
  function NatDigits(n: nat): (r: string)
    ensures 1 <= |r|
    decreases n
  {
    if n < 10 then [DigitChar(n)] else NatDigits(n / 10) + [DigitChar(n % 10)]
  }

  /** NatDigits writes only digits, one for n < 10, with no leading zero and n % 10 last. */
  lemma {:induction false} NatDigitsShape(n: nat)
    ensures AllDigits(NatDigits(n))
    ensures n < 10 <==> |NatDigits(n)| == 1
    ensures |NatDigits(n)| > 1 ==> NatDigits(n)[0] != '0'
    ensures NatDigits(n)[|NatDigits(n)| - 1] == DigitChar(n % 10)
    decreases n
  {
    if n >= 10 {
      NatDigitsShape(n / 10);
      var t := NatDigits(n / 10);
      assert NatDigits(n) == t + [DigitChar(n % 10)];
      assert NatDigits(n)[0] == t[0];
      if |t| == 1 {
        assert t[0] == DigitChar(n / 10);
      }
    }
  }

  /** The number a string of decimal digits denotes: the inverse of NatDigits. */
  function ValueOf(s: string): (v: nat)
    requires AllDigits(s)
  {
    if s == [] then 0 else ValueOf(s[..|s| - 1]) * 10 + DigitValue(s[|s| - 1])
  }

  lemma {:induction false} ValueOfNatDigits(n: nat)
    ensures AllDigits(NatDigits(n))
    ensures ValueOf(NatDigits(n)) == n
    decreases n
  {
    NatDigitsShape(n);
    if n >= 10 {
      var s := NatDigits(n);
      assert s[..|s| - 1] == NatDigits(n / 10);
      ValueOfNatDigits(n / 10);
    }
  }

  /** `n + ''` for an integral Number `n`. */
  function Decimal(n: int): (r: string)
    ensures 1 <= |r|
  {
    if n < 0 then "-" + NatDigits(-n) else NatDigits(n)
  }

  /** The numeral denotes `n`: reading it back gives the integer. */
  lemma DecimalValue(n: int)
    ensures n >= 0 ==> AllDigits(Decimal(n)) && ValueOf(Decimal(n)) == n
    ensures n < 0 ==> Decimal(n)[0] == '-' && AllDigits(Decimal(n)[1..]) && ValueOf(Decimal(n)[1..]) == -n
  {
    ValueOfNatDigits(if n < 0 then -n else n);
    NatDigitsShape(if n < 0 then -n else n);
    assert n < 0 ==> Decimal(n)[1..] == NatDigits(-n);
  }

  /** Distinct integers give distinct strings. */
  lemma DecimalInjective(a: int, b: int)
    requires Decimal(a) == Decimal(b)
    ensures a == b
  {
    DecimalValue(a);
    DecimalValue(b);
  }

  /** Numerals of one, two and four digits. */
  lemma DecimalLength(n: int)
    ensures 0 <= n < 10 ==> |Decimal(n)| == 1
    ensures 10 <= n < 100 ==> |Decimal(n)| == 2
    ensures 1000 <= n < 10000 ==> |Decimal(n)| == 4
  {
    if 0 <= n {
      NatDigitsShape(n);
    }
    if 10 <= n {
      NatDigitsShape(n / 10);
    }
    if 1000 <= n < 10000 {
      assert |NatDigits(n / 10)| == |NatDigits(n / 100)| + 1;
      assert |NatDigits(n / 100)| == |NatDigits(n / 1000)| + 1;
    }
  }

  /** Two-digit, zero-padded decimal of `n`. */
  function TwoDigits(n: nat): (r: string)
    requires n < 100
    ensures |r| == 2 && AllDigits(r) && ValueOf(r) == n
  {
    var r := [DigitChar(n / 10), DigitChar(n % 10)];
    assert r[..1] == [DigitChar(n / 10)] && r[..1][..0] == [];
    assert ValueOf(r[..1]) == n / 10;
    assert ValueOf(r) == (n / 10) * 10 + n % 10;
    r
  }
}
