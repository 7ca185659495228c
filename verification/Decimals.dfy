/** Printing and reading numbers in decimal. */
module Decimals {

  predicate IsDigit(c: char) { '0' <= c <= '9' }

  function Digit(n: nat): char
    requires n < 10
  {
    ('0' as int + n) as char
  }

  function DigitOf(c: char): int
    requires IsDigit(c)
  {
    c as int - '0' as int
  }

  function Decimal(n: nat): (s: string)
    ensures |s| > 0 && forall c | c in s :: IsDigit(c)
  {
    var last := [Digit(n % 10)];
    if n < 10 then last else Decimal(n / 10) + last
  }

  /** How a number is printed. */
  function ToString(n: int): string {
    if n < 0 then "-" + Decimal(-n) else Decimal(n)
  }

  /** How a string of digits is read. */
  function ParseInt(s: string): nat
    requires forall c | c in s :: IsDigit(c)
  {
    if s == [] then 0 else 10 * ParseInt(s[..|s| - 1]) + DigitOf(s[|s| - 1])
  }

  function Zeros(k: nat): (s: string)
    ensures |s| == k && forall c | c in s :: c == '0'
  {
    seq(k, _ => '0')
  }

  /** `s` filled up with zeros on the left to at least `w` characters. */
  function PadStart(s: string, w: nat): string {
    Zeros(if |s| < w then w - |s| else 0) + s
  }

  // ---- Numbers of fixed width ----

  function Pow10(w: nat): (p: nat)
    ensures p > 0
  {
    if w == 0 then 1 else 10 * Pow10(w - 1)
  }

  function Pad(n: nat, w: nat): (s: string)
    ensures |s| == w && forall c | c in s :: IsDigit(c)
  {
    if w == 0 then [] else Pad(n / 10, w - 1) + [Digit(n % 10)]
  }

  /** The fixed-width form of a number that fits is its padded decimal form. */
  lemma {:induction false} PadIsPaddedDecimal(n: nat, w: nat)
    requires 0 < w && n < Pow10(w)
    ensures Pad(n, w) == PadStart(Decimal(n), w)
  {
    if n < 10 {
      PadZero(n / 10, w - 1);
    } else {
      PadIsPaddedDecimal(n / 10, w - 1);
      assert |Decimal(n)| == |Decimal(n / 10)| + 1;
    }
  }

  lemma {:induction false} PadZero(n: nat, w: nat)
    requires n == 0
    ensures Pad(n, w) == Zeros(w)
  {
    if w > 0 {
      PadZero(n / 10, w - 1);
      assert Zeros(w) == Zeros(w - 1) + ['0'];
    }
  }

  /** The fixed-width form of a number that fits reads back as that number. */
  lemma {:induction false} ParsePad(n: nat, w: nat)
    requires n < Pow10(w)
    ensures ParseInt(Pad(n, w)) == n
  {
    if w > 0 {
      ParsePad(n / 10, w - 1);
      assert Pad(n, w)[..w - 1] == Pad(n / 10, w - 1);
    }
  }

  /** Whatever digits there are, they are the fixed-width form of the number they are read as. */
  lemma {:induction false} PadParsed(s: string)
    requires forall c | c in s :: IsDigit(c)
    ensures Pad(ParseInt(s), |s|) == s && ParseInt(s) < Pow10(|s|)
  {
    if s != [] {
      var init, last := s[..|s| - 1], s[|s| - 1];
      assert last in s;
      PadParsed(init);
      LastDigit(ParseInt(init), last);
    }
  }

  lemma LastDigit(n: nat, c: char)
    requires IsDigit(c)
    ensures var m: nat := 10 * n + DigitOf(c); m / 10 == n && Digit(m % 10) == c
  {
  }

  /** `w` digits are enough exactly for the numbers below the `w`th power of ten. */
  lemma {:induction false} DecimalLength(n: nat, w: nat)
    requires w > 0
    ensures |Decimal(n)| <= w <==> n < Pow10(w)
  {
    if n >= 10 {
      assert |Decimal(n)| == |Decimal(n / 10)| + 1;
      if w == 1 {
        assert Pow10(1) == 10;
      } else {
        DecimalLength(n / 10, w - 1);
      }
    } else {
      assert Pow10(w) == 10 * Pow10(w - 1);
    }
  }
}
