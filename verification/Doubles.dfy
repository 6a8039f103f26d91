/** Double precision as IEEE 754 rounds it, to nearest with ties to even, but for the bounds
    of the exponent; and Python's `round`. */
module Doubles {

  /** Python's `round`: to the nearest integer, ties to the even one. */
  function RoundHalfEven(x: real): int {
    var q := x.Floor;
    var rest := x - q as real;
    if rest < 0.5 || (rest == 0.5 && q % 2 == 0) then q else q + 1
  }

  lemma RoundMonotone(x: real, y: real)
    requires x <= y
    ensures RoundHalfEven(x) <= RoundHalfEven(y)
  {
  }

  /** Less than half away from a whole number. */
  lemma RoundNear(x: real, n: int)
    requires n as real - 0.5 < x < n as real + 0.5
    ensures RoundHalfEven(x) == n
  {
  }

  /** Halfway between two whole numbers the even one is taken. */
  lemma RoundTie(n: int)
    ensures RoundHalfEven(n as real + 0.5) == (if n % 2 == 0 then n else n + 1)
    ensures RoundHalfEven(n as real + 0.5) % 2 == 0
  {
    assert (n as real + 0.5).Floor == n;
  }

  lemma RoundIsNear(x: real)
    ensures x - 0.5 <= RoundHalfEven(x) as real <= x + 0.5
  {
  }

  // ------------------------------------------------------------ powers of two

  function Power(e: int): (p: real)
    ensures 0.0 < p
    decreases if e < 0 then -e else e
  {
    if e == 0 then 1.0 else if 0 < e then 2.0 * Power(e - 1) else Power(e + 1) / 2.0
  }

  lemma PowerStep(e: int)
    ensures Power(e + 1) == 2.0 * Power(e)
  {
  }

  lemma {:induction false} PowerOrder(a: int, b: int)
    requires a < b
    ensures 2.0 * Power(a) <= Power(b)
    decreases b - a
  {
    PowerStep(b - 1);
    if a < b - 1 {
      PowerOrder(a, b - 1);
    }
  }

  // ------------------------------------------------------------------ doubles

  /** The numbers whose last place, of 53, is worth 2^e. */
  predicate Fits(x: real, e: int) {
    4503599627370496.0 * Power(e) <= x < 9007199254740992.0 * Power(e)
  }

  function Above(x: real, e: int): (r: int)
    requires 4503599627370496.0 * Power(e) <= x
    ensures Fits(x, r)
    decreases (x / Power(e)).Floor
  {
    if Fits(x, e) then e
    else
      PowerStep(e);
      Halves(x, Power(e));
      Above(x, e + 1)
  }

  function Below(x: real, e: int): (r: int)
    requires 0.0 < x < 9007199254740992.0 * Power(e)
    ensures Fits(x, r)
    decreases (9007199254740992.0 * Power(e) / x).Floor
  {
    if Fits(x, e) then e
    else
      PowerStep(e - 1);
      Halves(9007199254740992.0 * Power(e), x);
      Below(x, e - 1)
  }

  lemma Halves(x: real, p: real)
    requires 0.0 < p && 2.0 * p <= x
    ensures x / (2.0 * p) == x / 2.0 / p == x / p / 2.0
    ensures 0 <= (x / p / 2.0).Floor < (x / p).Floor
  {
    Divided(2.0 * p, x, p);
    assert 2.0 * p / p == 2.0;
  }

  lemma Divided(x: real, y: real, p: real)
    requires 0.0 < p && x <= y
    ensures x / p <= y / p
  {
  }

  function Exponent(x: real): (e: int)
    requires 0.0 < x
    ensures Fits(x, e)
  {
    if 4503599627370496.0 * Power(0) <= x then Above(x, 0) else Below(x, 0)
  }

  lemma ExponentOrder(x: real, e: int, y: real, f: int)
    requires Fits(x, e) && Fits(y, f) && x <= y
    ensures e <= f
  {
    if f < e {
      PowerOrder(f, e);
    }
  }

  lemma ExponentIs(x: real, e: int)
    requires Fits(x, e)
    ensures 0.0 < x && Exponent(x) == e
  {
    ExponentOrder(x, e, x, Exponent(x));
    ExponentOrder(x, Exponent(x), x, e);
  }

  /** A product by name, so that what is said of it stays linear. */
  function Product(a: real, b: real): real { a * b }

  /** The multiple of `p` nearest to `x`. */
  function Multiple(x: real, p: real): real
    requires 0.0 < p
  {
    Product(RoundHalfEven(x / p) as real, p)
  }

  function Nearest(x: real): real
    requires 0.0 < x
  {
    Multiple(x, Power(Exponent(x)))
  }

  /** The double nearest to `x`. */
  function Double(x: real): real {
    if x == 0.0 then 0.0 else if x < 0.0 then -Nearest(-x) else Nearest(x)
  }

  lemma ProductInOrder(a: real, b: real, p: real)
    requires a <= b && 0.0 <= p
    ensures Product(a, p) <= Product(b, p)
  {
  }

  lemma ProductOfQuotient(x: real, p: real)
    requires 0.0 < p
    ensures Product(x / p, p) == x
  {
  }

  lemma ProductHalf(a: real, p: real)
    ensures Product(a + 0.5, p) == Product(a, p) + p / 2.0 && Product(a - 0.5, p) == Product(a, p) - p / 2.0
  {
  }

  lemma MultipleIsNear(x: real, p: real)
    requires 0.0 < p
    ensures x - p / 2.0 <= Multiple(x, p) <= x + p / 2.0
  {
    hide Product;
    var y := x / p;
    var n := RoundHalfEven(y) as real;
    RoundIsNear(y);
    hide RoundHalfEven;
    ProductOfQuotient(x, p);
    ProductHalf(y, p);
    ProductInOrder(y - 0.5, n, p);
    ProductInOrder(n, y + 0.5, p);
  }

  lemma MultipleInOrder(x: real, y: real, p: real)
    requires 0.0 < p && x <= y
    ensures Multiple(x, p) <= Multiple(y, p)
  {
    Divided(x, y, p);
    RoundMonotone(x / p, y / p);
    hide RoundHalfEven, Product;
    ProductInOrder(RoundHalfEven(x / p) as real, RoundHalfEven(y / p) as real, p);
  }

  lemma MultipleIs(x: real, p: real, m: int)
    requires 0.0 < p && Product(m as real, p) - p / 2.0 < x < Product(m as real, p) + p / 2.0
    ensures Multiple(x, p) == Product(m as real, p)
  {
    hide Product;
    var y := x / p;
    var low, high := m as real - 0.5, m as real + 0.5;
    ProductHalf(m as real, p);
    ProductOfQuotient(x, p);
    if y <= low {
      ProductInOrder(y, low, p);
    }
    if high <= y {
      ProductInOrder(high, y, p);
    }
    RoundNear(y, m);
  }

  lemma MultiplesOf(p: real)
    ensures Product(4503599627370496.0, p) == 4503599627370496.0 * p
    ensures Product(9007199254740992.0, p) == 9007199254740992.0 * p
  {
  }

  /** Rounding stays within half of the last place and among the numbers of its size. */
  lemma NearestIsNear(x: real, e: int)
    requires Fits(x, e)
    ensures var p := Power(e);
      && 0.0 < x && x - p / 2.0 <= Double(x) <= x + p / 2.0
      && 4503599627370496.0 * p <= Double(x) <= 9007199254740992.0 * p
  {
    hide Multiple, Product, Exponent;
    ExponentIs(x, e);
    var p := Power(e);
    MultiplesOf(p);
    MultipleIsNear(x, p);
    MultipleInOrder(4503599627370496.0 * p, x, p);
    MultipleInOrder(x, 9007199254740992.0 * p, p);
    MultipleIs(4503599627370496.0 * p, p, 4503599627370496);
    MultipleIs(9007199254740992.0 * p, p, 9007199254740992);
  }

  /** Below 2^53 last places worth 2^f rounding moves by half of that at most. */
  lemma LastPlace(x: real, f: int)
    requires 0.0 <= x < 9007199254740992.0 * Power(f)
    ensures x - Power(f) / 2.0 <= Double(x) <= x + Power(f) / 2.0
  {
    if 0.0 < x {
      var e := Exponent(x);
      if f < e {
        PowerOrder(f, e);
        assert false;
      } else if e < f {
        PowerOrder(e, f);
      }
      NearestIsNear(x, e);
    }
  }

  /** A number halfway between two multiples of the last place is rounded to the even one. */
  lemma NearestTie(x: real, e: int, m: int)
    requires Fits(x, e) && x == Product(m as real + 0.5, Power(e))
    ensures Double(x) == Product(if m % 2 == 0 then m as real else (m + 1) as real, Power(e))
  {
    ExponentIs(x, e);
    hide Exponent;
    var p := Power(e);
    hide Power;
    ProductOfQuotient(x, p);
    if x / p < m as real + 0.5 {
      StrictProduct(x / p, m as real + 0.5, p);
    } else if m as real + 0.5 < x / p {
      StrictProduct(m as real + 0.5, x / p, p);
    }
    RoundTie(m);
    hide Product;
  }

  lemma StrictProduct(a: real, b: real, p: real)
    requires a < b && 0.0 < p
    ensures Product(a, p) < Product(b, p)
  {
    assert 0.0 < (b - a) * p;
  }

  /** A number with a multiple of the last place less than half of it away is rounded to that. */
  lemma NearestIs(x: real, e: int, m: int)
    requires Fits(x, e)
    requires Product(m as real, Power(e)) - Power(e) / 2.0 < x < Product(m as real, Power(e)) + Power(e) / 2.0
    ensures 0.0 < x && Double(x) == Product(m as real, Power(e))
  {
    hide Multiple, Product, Exponent;
    ExponentIs(x, e);
    MultipleIs(x, Power(e), m);
  }

  /** Roundings are in order. */
  lemma InOrder(x: real, y: real)
    requires x <= y
    ensures Double(x) <= Double(y)
  {
    if 0.0 < x {
      PositiveInOrder(x, y);
    } else if y < 0.0 {
      PositiveInOrder(-y, -x);
    } else {
      if x < 0.0 {
        NearestIsNear(-x, Exponent(-x));
      }
      if 0.0 < y {
        NearestIsNear(y, Exponent(y));
      }
    }
  }

  lemma PositiveInOrder(x: real, y: real)
    requires 0.0 < x <= y
    ensures Double(x) <= Double(y)
  {
    var e, f := Exponent(x), Exponent(y);
    ExponentOrder(x, e, y, f);
    if e == f {
      MultipleInOrder(x, y, Power(e));
      hide Multiple;
    } else {
      NearestIsNear(x, e);
      NearestIsNear(y, f);
      PowerOrder(e, f);
    }
  }

  /** Rounding keeps the sign and moves by a small part at most. */
  lemma Rounded(x: real)
    requires 0.0 <= x
    ensures 0.0 <= Double(x)
    ensures -x <= (Double(x) - x) * 9007199254740992.0 <= x
  {
    if 0.0 < x {
      NearestIsNear(x, Exponent(x));
    }
  }

  lemma {:induction false} WholePower(k: nat) returns (n: nat)
    ensures n as real == Power(k) && Power(k) * Power(-(k as int)) == 1.0
  {
    if k == 0 {
      n := 1;
    } else {
      n := WholePower(k - 1);
      n := 2 * n;
    }
  }

  lemma SomePowers()
    ensures Power(-14) == 1.0 / 16384.0 && Power(-18) == 1.0 / 262144.0 && Power(-19) == 1.0 / 524288.0
  {
    assert Power(-14) == 1.0 / 16384.0;
  }

  lemma WholeNumber(n: nat, e: int) returns (m: int)
    requires 0 < n < 9007199254740992 && Fits(n as real, e)
    ensures n as real == Product(m as real, Power(e))
  {
    if 0 < e {
      PowerOrder(0, e);
      assert false;
    }
    var w := WholePower(-e);
    m := n * w;
    assert m as real == n as real * w as real;
  }

  /** Whole numbers of at most 53 bits are doubles. */
  lemma WholeIsKept(n: int)
    requires -9007199254740992 <= n <= 9007199254740992
    ensures Double(n as real) == n as real
  {
    if n < 0 {
      PositiveIsKept(-n);
    } else if 0 < n {
      PositiveIsKept(n);
    }
  }

  lemma PositiveIsKept(n: nat)
    requires 0 < n <= 9007199254740992
    ensures Double(n as real) == n as real
  {
    if n == 9007199254740992 {
      assert Power(1) == 2.0;
      NearestIs(n as real, 1, 4503599627370496);
    } else {
      var e := Exponent(n as real);
      var m := WholeNumber(n, e);
      NearestIs(n as real, e, m);
    }
  }
}
