/** Numeric building blocks shared by both premium engines: Python's `int()`
    truncation, clamping, integer powers and discount factors, two-decimal
    rounding, and running products of loading factors. All quantities are
    exact reals; nothing here models binary floating point. */
module Numeric {

  /** Outcome of an operation that the source can abort by raising. */
  datatype Result<T, E> = Ok(value: T) | Err(error: E)

  /** Python's `int(x)` on a float: truncation toward zero. */
  function Trunc(x: real): (n: int)
    ensures x >= 0.0 ==> n >= 0 && n as real <= x < n as real + 1.0
    ensures x < 0.0 ==> n <= 0 && n as real - 1.0 < x <= n as real
  {
    if x >= 0.0 then x.Floor else -((-x).Floor)
  }

  /** `max(lo, min(hi, x))` */
  function Clamp(lo: int, hi: int, x: int): (r: int)
    requires lo <= hi
    ensures lo <= r <= hi
    ensures lo <= x <= hi ==> r == x
    ensures x < lo ==> r == lo
    ensures x > hi ==> r == hi
  {
    if x < lo then lo else if x > hi then hi else x
  }

  /** `b ** n` for a natural exponent. */
  function Pow(b: real, n: nat): (p: real)
    ensures b > 0.0 ==> p > 0.0
    ensures b >= 1.0 ==> p >= 1.0
    ensures b != 0.0 ==> p != 0.0
  {
    if n == 0 then 1.0
    else
      var q := Pow(b, n - 1);
      assert b >= 1.0 ==> b * q >= q >= 1.0;
      b * q
  }

  /** The present-value factor `(1 + i) ** -k = 1 / (1 + i) ** k`. */
  function Discount(i: real, k: nat): (v: real)
    requires 1.0 + i != 0.0
    ensures k == 0 ==> v == 1.0
    ensures i > -1.0 ==> v > 0.0
    ensures i >= 0.0 ==> v <= 1.0
  {
    1.0 / Pow(1.0 + i, k)
  }

  /** One year further out is worth less when the rate is not negative. */
  lemma DiscountStep(i: real, k: nat)
    requires i >= 0.0
    ensures Discount(i, k + 1) <= Discount(i, k)
  {
    var p := Pow(1.0 + i, k);
    assert Pow(1.0 + i, k + 1) == (1.0 + i) * p;
    assert (1.0 + i) * p >= p > 0.0;
  }

  /** `r` is a whole number of hundredths. */
  predicate IsCents(r: real)
  {
    (r * 100.0).Floor as real == r * 100.0
  }

  /** Python's `round(x, 2)`, taken on the exact value: to the nearest
      hundredth, ties to the even hundredth. */
  function Round2(x: real): (r: real)
    ensures IsCents(r)
    ensures -0.005 <= r - x <= 0.005
    ensures x >= 0.0 ==> r >= 0.0
  {
    var y := x * 100.0;
    var f := y.Floor;
    var d := y - f as real;
    var n := if d < 0.5 then f else if d > 0.5 then f + 1 else if f % 2 == 0 then f else f + 1;
    assert -0.5 <= n as real - y <= 0.5;
    HundredthsOf(n, x);
    n as real / 100.0
  }

  /** n hundredths is a whole number of cents, and it lies within half a
      cent of x when n lies within one half of 100 x. */
  lemma HundredthsOf(n: int, x: real)
    ensures IsCents(n as real / 100.0)
    ensures -0.5 <= n as real - x * 100.0 <= 0.5 ==> -0.005 <= n as real / 100.0 - x <= 0.005
  {
    assert (n as real / 100.0) * 100.0 == n as real;
  }

  /** Rounding leaves an amount that is already in whole cents untouched. */
  lemma Round2OfCents(x: real)
    requires IsCents(x)
    ensures Round2(x) == x
  {
    var n := (x * 100.0).Floor;
    assert x * 100.0 == n as real;
    assert (x * 100.0).Floor == n;
  }

  /** Round2 is monotone. */
  lemma Round2Monotone(x: real, y: real)
    requires x <= y
    ensures Round2(x) <= Round2(y)
  {
    var fx, fy := (x * 100.0).Floor, (y * 100.0).Floor;
    assert fx <= fy;
  }

  /** Rounding a larger amount scaled by the same non-negative factor never
      gives less. */
  lemma Round2ScaledMonotone(x: real, y: real, k: real)
    requires x <= y && k >= 0.0
    ensures Round2(Mul(x, k)) <= Round2(Mul(y, k))
  {
    assert x * k <= y * k;
    Round2Monotone(x * k, y * k);
  }

  /** Rounding never lifts an amount above a bound that is whole cents. */
  lemma Round2AtMostCents(x: real, c: real)
    requires IsCents(c)
    ensures x <= c ==> Round2(x) <= c
  {
    if x <= c {
      Round2Monotone(x, c);
      Round2OfCents(c);
    }
  }

  /** Two rounded terms add up to the rounded sum to within one cent. */
  lemma Round2SumWithinCent(a: real, b: real)
    ensures -0.01 <= Round2(a) + Round2(b) - Round2(a + b) <= 0.01
  {
    var ra, rb, rs := Round2(a), Round2(b), Round2(a + b);
    var na, nb, ns := (ra * 100.0).Floor, (rb * 100.0).Floor, (rs * 100.0).Floor;
    assert ra * 100.0 == na as real && rb * 100.0 == nb as real && rs * 100.0 == ns as real;
    var d := na + nb - ns;
    assert -1.5 <= d as real <= 1.5;
    assert -1 <= d <= 1;
  }

  /** Real multiplication as a named function, so that products of factors
      can be rearranged by congruence rather than by nonlinear arithmetic. */
  function Mul(a: real, b: real): real
  {
    a * b
  }

  /** Running product `((1 * s[0]) * s[1]) * …`, as a `*=` loop builds it. */
  function Product(s: seq<real>): real
  {
    if s == [] then 1.0 else Mul(Product(s[..|s| - 1]), s[|s| - 1])
  }

  lemma MulDef(a: real, b: real)
    ensures a * b == Mul(a, b)
  {
  }

  lemma Mul3(a: real, b: real, c: real)
    ensures a * b * c == Mul(Mul(a, b), c)
  {
  }

  lemma MulAssoc(a: real, b: real, c: real)
    ensures Mul(Mul(a, b), c) == Mul(a, Mul(b, c))
  {
  }

  lemma MulNonNegative(a: real, b: real)
    requires a >= 0.0 && b >= 0.0
    ensures Mul(a, b) >= 0.0
  {
  }

  /** Scaling a positive weight by a survival factor `1 - q` shrinks it. */
  lemma Shrink(s: real, q: real)
    requires 0.0 < s <= 1.0 && 0.0 < q < 1.0
    ensures 0.0 < Mul(s, 1.0 - q) < s
  {
    assert s * (1.0 - q) == s - s * q;
    assert s * q > 0.0;
  }

  lemma MulExchange(a: real, x: real, y: real)
    ensures Mul(Mul(a, x), y) == Mul(Mul(a, y), x)
  {
  }

  lemma MulOne(a: real)
    ensures Mul(1.0, a) == a
  {
  }

  lemma Mul3NonNegative(a: real, b: real, c: real)
    requires a >= 0.0 && b >= 0.0 && c >= 0.0
    ensures Mul(Mul(a, b), c) >= 0.0
  {
    assert a * b >= 0.0;
  }

  lemma MulAssoc4(c: real, t: real, f: real, l: real)
    ensures Mul(Mul(Mul(c, t), f), l) == Mul(c, Mul(Mul(t, f), l))
  {
  }

  lemma MulNonNegative4(b: real, t: real, c: real, g: real)
    requires t >= 0.0
    ensures b >= 0.0 && c >= 0.0 && g >= 0.0 ==> Mul(Mul(Mul(b, t), c), g) >= 0.0
  {
    if b >= 0.0 && c >= 0.0 && g >= 0.0 {
      assert b * t >= 0.0;
      assert b * t * c >= 0.0;
    }
  }

  lemma NonZeroProduct(a: real, b: real)
    requires a != 0.0 && b != 0.0
    ensures a * b != 0.0
  {
    if a > 0.0 {
      if b > 0.0 { assert a * b > 0.0; } else { assert a * b < 0.0; }
    } else {
      if b > 0.0 { assert a * b < 0.0; } else { assert a * b > 0.0; }
    }
  }

  /** `a / b` once `b` is known to be a non-zero factor it was multiplied by. */
  lemma MulDivCancel(a: real, b: real)
    requires b != 0.0
    ensures Mul(a, b) / b == a
  {
  }

  /** A non-negative amount scaled by a factor between 1 and n lies between
      the amount and n times it. */
  lemma ScaleBetween(a: real, f: real, n: real)
    requires a >= 0.0 && 1.0 <= f <= n
    ensures a <= Mul(a, f) <= a * n
  {
    assert a * 1.0 <= a * f <= a * n;
  }

  /** A product of factors does not depend on their order. */
  lemma {:induction false} ProductPermutation(s: seq<real>, t: seq<real>)
    requires multiset(s) == multiset(t)
    ensures Product(s) == Product(t)
    decreases |s|
  {
    if s == [] {
      assert |t| == |multiset(t)| == 0;
    } else {
      var x := s[|s| - 1];
      var s' := s[..|s| - 1];
      assert s == s' + [x];
      assert x in multiset(t);
      var j :| 0 <= j < |t| && t[j] == x;
      var t' := t[..j] + t[j + 1..];
      assert t == t[..j] + [x] + t[j + 1..];
      assert multiset(t') == multiset(t) - multiset{x};
      assert multiset(s') == multiset(s) - multiset{x};
      ProductPermutation(s', t');
      ProductRemove(t, j);
    }
  }

  /** Taking out the factor at position j divides it out of the product. */
  lemma {:induction false} ProductRemove(t: seq<real>, j: nat)
    requires j < |t|
    ensures Product(t) == Mul(Product(t[..j] + t[j + 1..]), t[j])
    decreases |t|
  {
    var t' := t[..j] + t[j + 1..];
    if j == |t| - 1 {
      assert t' == t[..|t| - 1];
    } else {
      var u, y := t[..|t| - 1], t[|t| - 1];
      ProductRemove(u, j);
      var u' := u[..j] + u[j + 1..];
      assert t'[..|t'| - 1] == u';
      assert t'[|t'| - 1] == y;
      MulExchange(Product(u'), t[j], y);
    }
  }

  /** Appending a factor multiplies it in last: one `*=` step. */
  lemma ProductAppend(s: seq<real>, x: real)
    ensures Product(s + [x]) == Mul(Product(s), x)
  {
    assert (s + [x])[..|s|] == s;
  }

  /** The factor of `if b: f *= x`, as a sequence of zero or one element. */
  function Optional(b: bool, x: real): seq<real>
  {
    if b then [x] else []
  }

  /** One `if b: f *= x` step. */
  function Load(f: real, b: bool, x: real): real
  {
    if b then Mul(f, x) else f
  }

  /** One conditional `*=` step extends a product by the factor, if applied. */
  lemma LoadProduct(applied: seq<real>, b: bool, x: real)
    ensures Load(Product(applied), b, x) == Product(applied + Optional(b, x))
  {
    if b {
      ProductAppend(applied, x);
    } else {
      assert applied + [] == applied;
    }
  }

  /** The product of two factors. */
  lemma ProductPair(a: real, b: real)
    ensures Product([a, b]) == Mul(a, b)
  {
    assert [a, b][..1] == [a];
    assert [a][..0] == [];
    assert Product([a]) == Mul(1.0, a) == a;
  }

  /** A product of loadings that are each at least 1 is at least 1. */
  lemma {:induction false} ProductAtLeastOne(s: seq<real>)
    requires forall k :: 0 <= k < |s| ==> s[k] >= 1.0
    ensures Product(s) >= 1.0
  {
    if s != [] {
      var s' := s[..|s| - 1];
      ProductAtLeastOne(s');
      var p := Product(s');
      assert p * s[|s| - 1] >= p * 1.0;
    }
  }

  /** A product of non-negative factors is non-negative. */
  lemma {:induction false} ProductNonNegative(s: seq<real>)
    requires forall k :: 0 <= k < |s| ==> s[k] >= 0.0
    ensures Product(s) >= 0.0
  {
    if s != [] {
      var s' := s[..|s| - 1];
      ProductNonNegative(s');
      var p := Product(s');
      assert p * s[|s| - 1] >= 0.0;
    }
  }
}
