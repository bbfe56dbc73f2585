/**
 * Decimal rendering of integers (`BigInt.prototype.toString`), fixed-width digit strings,
 * and the integer divisions the source performs: BigInt `/` and `%` truncate toward zero,
 * `Math.floor(a / b)` on numbers floors.
 */
module Decimal {

  import opened Text

  function Pow10(n: nat): (r: nat)
    ensures r >= 1
  {
    if n == 0 then 1 else 10 * Pow10(n - 1)
  }

  predicate IsDigit(c: char) { '0' <= c <= '9' }

  predicate AllDigits(s: string) { forall i :: 0 <= i < |s| ==> IsDigit(s[i]) }

  function DigitChar(d: nat): (c: char)
    requires d < 10
    ensures IsDigit(c)
    ensures DigitValue(c) == d
  {
    ('0' as int + d) as char
  }

  function DigitValue(c: char): nat
    requires IsDigit(c)
  {
    c as int - '0' as int
  }

  /** The shortest decimal numeral of `n`: digits only, and no leading zero unless `n` is 0. */
  function NatToString(n: nat): (r: string)
    ensures |r| >= 1
    ensures AllDigits(r)
    ensures (r[0] == '0') == (n == 0)
    ensures n == 0 ==> r == "0"
  {
    if n < 10 then [DigitChar(n)] else NatToString(n / 10) + [DigitChar(n % 10)]
  }

  /** The value of a numeral, most significant digit first. */
  function ParseDigits(s: string): nat
    requires AllDigits(s)
  {
    if s == [] then 0 else 10 * ParseDigits(s[..|s| - 1]) + DigitValue(s[|s| - 1])
  }

  /** Reading back a rendered numeral gives the number. */
  lemma {:induction false} ParseNatToString(n: nat)
    ensures ParseDigits(NatToString(n)) == n
  {
    if n >= 10 {
      var s := NatToString(n);
      assert s[..|s| - 1] == NatToString(n / 10);
      ParseNatToString(n / 10);
    }
  }

  /** Distinct numbers have distinct numerals. */
  lemma NatToStringInjective(m: nat, n: nat)
    requires NatToString(m) == NatToString(n)
    ensures m == n
  {
    ParseNatToString(m);
    ParseNatToString(n);
  }

  /** A numeral fits in `w` characters exactly when the number is below 10^w. */
  lemma {:induction false} NatToStringLength(n: nat, w: nat)
    requires w >= 1
    ensures |NatToString(n)| <= w <==> n < Pow10(w)
  {
    if n >= 10 && w >= 2 {
      NatToStringLength(n / 10, w - 1);
      DivBelowPower(n, w);
    } else if n >= 10 {
      assert |NatToString(n)| == |NatToString(n / 10)| + 1;
    }
  }

  /** n / 10 < 10^(w-1) exactly when n < 10^w. */
  lemma DivBelowPower(n: nat, w: nat)
    requires w >= 1
    ensures n / 10 < Pow10(w - 1) <==> n < Pow10(w)
  {
  }

  /** `s` as an integer numeral, with a leading `-` for negative values. */
  function IntToString(i: int): (r: string)
    ensures |r| >= 1
    ensures (r[0] == '-') == (i < 0)
    ensures i >= 0 ==> r == NatToString(i)
  {
    if i < 0 then "-" + NatToString(-i) else NatToString(i)
  }

  /** The last `w` decimal digits of `n`, zero-filled on the left. */
  function FixedDigits(n: nat, w: nat): (r: string)
    ensures |r| == w
    ensures AllDigits(r)
  {
    if w == 0 then [] else FixedDigits(n / 10, w - 1) + [DigitChar(n % 10)]
  }

  /** Zero-padding a numeral of `n < 10^w` to width `w` gives its `w`-digit form. */
  lemma {:induction false} PadNumeral(n: nat, w: nat)
    requires w >= 1 && n < Pow10(w)
    ensures PadStart(NatToString(n), w, '0') == FixedDigits(n, w)
  {
    if n < 10 {
      ZeroDigits(w - 1);
      assert FixedDigits(n, w) == FixedDigits(0, w - 1) + [DigitChar(n)];
    } else {
      DivBelowPower(n, w);
      assert Pow10(1) == 10;
      NatToStringLength(n / 10, w - 1);
      PadNumeral(n / 10, w - 1);
      var x := NatToString(n / 10);
      assert PadStart(x + [DigitChar(n % 10)], w, '0') == PadStart(x, w - 1, '0') + [DigitChar(n % 10)];
    }
  }

  /** Reading back the `w`-digit form of `n < 10^w` gives `n`. */
  lemma {:induction false} FixedDigitsValue(n: nat, w: nat)
    requires n < Pow10(w)
    ensures ParseDigits(FixedDigits(n, w)) == n
  {
    if w > 0 {
      var s := FixedDigits(n, w);
      assert s[..|s| - 1] == FixedDigits(n / 10, w - 1);
      DivBelowPower(n, w);
      FixedDigitsValue(n / 10, w - 1);
    }
  }

  /** The `w`-digit form of 0 is `w` zeros. */
  lemma {:induction false} ZeroDigits(w: nat)
    ensures FixedDigits(0, w) == Repeat('0', w)
  {
    if w > 0 { ZeroDigits(w - 1); }
  }

  /** The first `k` of the last `w` digits of `n` are the last `k` digits of `n / 10^(w-k)`. */
  lemma {:induction false} FixedDigitsPrefix(n: nat, w: nat, k: nat)
    requires k <= w
    ensures FixedDigits(n, w)[..k] == FixedDigits(DivNat(n, Pow10(w - k)), k)
  {
    if k < w {
      var prefix := FixedDigits(n / 10, w - 1);
      assert FixedDigits(n, w) == prefix + [DigitChar(n % 10)];
      assert FixedDigits(n, w)[..k] == prefix[..k];
      FixedDigitsPrefix(n / 10, w - 1, k);
      var p := Pow10(w - 1 - k);
      assert Pow10(w - k) == 10 * p;
      DivDiv(n, 10, p);
      assert DivNat(n / 10, p) == DivNat(n, 10 * p);
    }
  }

  /** Multiples of a positive `b` at distinct factors are at least `b` apart. */
  lemma MulGap(b: int, x: int, y: int)
    requires b > 0 && x > y
    ensures b * x >= b * y + b
  {
    assert b * x == b * y + b * (x - y - 1) + b;
    assert b * (x - y - 1) >= 0;
  }

  /** Division is unique: a quotient and remainder in range are the quotient and remainder. */
  lemma DivModUnique(a: int, b: int, q: int, r: int)
    requires b > 0 && 0 <= r < b && a == b * q + r
    ensures a / b == q && a % b == r
  {
    var q', r' := a / b, a % b;
    assert a == b * q' + r';
    if q' > q {
      MulGap(b, q', q);
    } else if q' < q {
      MulGap(b, q, q');
    }
  }

  /** Splitting `a` by `b * c`: `a / b` has quotient `a / (b*c)` and remainder `(a % (b*c)) / b` by `c`. */
  lemma DivSplit(a: nat, b: nat, c: nat)
    requires b > 0 && c > 0
    ensures a / b / c == a / (b * c)
    ensures a / b % c == a % (b * c) / b
  {
    var q, r := a / (b * c), a % (b * c);
    var s, t := r / b, r % b;
    assert a == (b * c) * q + r;
    assert r == b * s + t;
    assert s < c by {
      if s >= c {
        MulGap(b, s + 1, c);
      }
    }
    assert a == b * (c * q + s) + t;
    DivModUnique(a, b, c * q + s, t);
    DivModUnique(a / b, c, q, s);
  }

  lemma DivDiv(a: nat, b: nat, c: nat)
    requires b > 0 && c > 0
    ensures a / b / c == a / (b * c)
  {
    DivSplit(a, b, c);
  }

  lemma Pow10Add(m: nat, n: nat)
    ensures Pow10(m + n) == Pow10(m) * Pow10(n)
  {
    if m > 0 { Pow10Add(m - 1, n); }
  }

  /** `a / b` on naturals, with its defining bounds. */
  function DivNat(a: nat, b: nat): (q: nat)
    requires b > 0
    ensures b * q <= a < b * q + b
  {
    a / b
  }

  /** `a % b` on naturals, with its defining bounds. */
  function ModNat(a: nat, b: nat): (r: nat)
    requires b > 0
    ensures r < b && a == b * DivNat(a, b) + r
  {
    a % b
  }

  /** BigInt `a / b` for `b > 0`: the quotient rounded toward zero. */
  function TruncDiv(a: int, b: int): (q: int)
    requires b > 0
    ensures a >= 0 ==> q == a / b
    ensures a < 0 ==> q == -((-a) / b)
  {
    if a >= 0 then a / b else -((-a) / b)
  }

  /** BigInt `a % b` for `b > 0`: the remainder takes the sign of `a`. */
  function TruncRem(a: int, b: int): (r: int)
    requires b > 0
    ensures a == b * TruncDiv(a, b) + r
    ensures a >= 0 ==> 0 <= r < b
    ensures a < 0 ==> -b < r <= 0
  {
    a - b * TruncDiv(a, b)
  }

  /** `Math.floor(a / b)` for integers `a` and `b != 0`. */
  function FloorDiv(a: int, b: int): (q: int)
    requires b != 0
    ensures b > 0 ==> b * q <= a < b * q + b
    ensures b < 0 ==> b * q >= a > b * q + b
  {
    if b > 0 then a / b else (-a) / (-b)
  }
}
