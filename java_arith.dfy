/** Java's 32-bit int range, its truncating integer division, and the
    double-to-int roundings (Math.floor, Math.ceil, Math.round) used by the
    scale image generator, modelled over Dafny's unbounded int and real. */
module JavaArith {

  const IntMin: int := -0x8000_0000
  const IntMax: int := 0x7fff_ffff

  /** Java's `a / b` on int: the quotient truncated toward zero
      (Dafny's own `/` is Euclidean and differs for negative `a`). */
  function JDiv(a: int, b: int): (q: int)
    requires b > 0
    ensures 0 <= a ==> q * b <= a < q * b + b
    ensures a < 0 ==> q * b - b < a <= q * b
  {
    if a >= 0 then a / b else -((-a) / b)
  }

  /** Java's `a % b` on int: the remainder whose sign follows `a`. */
  function JRem(a: int, b: int): (r: int)
    requires b > 0
    ensures r == a - JDiv(a, b) * b
    ensures 0 <= a ==> 0 <= r < b
    ensures a < 0 ==> -b < r <= 0
    ensures r == 0 <==> a % b == 0
  {
    NegatedMultiple(a, b);
    if a >= 0 then a % b else -((-a) % b)
  }

  lemma NegatedMultiple(a: int, b: int)
    requires b > 0
    ensures (-a) % b == 0 <==> a % b == 0
  {
    if (-a) % b == 0 {
      DivIsUnique(a, b, -((-a) / b));
    }
    if a % b == 0 {
      DivIsUnique(-a, b, -(a / b));
    }
  }

  /** `Math.floor`, as an integer. */
  function Floor(x: real): (n: int)
    ensures n as real <= x < n as real + 1.0
  {
    x.Floor
  }

  /** `Math.ceil`, as an integer. */
  function Ceil(x: real): (n: int)
    ensures x <= n as real < x + 1.0
  {
    -((-x).Floor)
  }

  /** `Math.round`: the nearest integer, halves rounded up. */
  function RoundHalfUp(x: real): (n: int)
    ensures n as real - 0.5 <= x < n as real + 0.5
  {
    (x + 0.5).Floor
  }

  function Abs(x: real): (y: real)
    ensures 0.0 <= y && (y == x || y == -x)
  {
    if x < 0.0 then -x else x
  }

  lemma RoundHalfUpMonotone(x: real, y: real)
    requires x <= y
    ensures RoundHalfUp(x) <= RoundHalfUp(y)
  {
  }

  lemma RoundHalfUpOfInt(n: int)
    ensures RoundHalfUp(n as real) == n
  {
  }

  /** The quotient is fixed by any bracketing multiple. */
  lemma DivIsUnique(x: int, g: int, k: int)
    requires g > 0 && k * g <= x < k * g + g
    ensures x / g == k
  {
    var q := x / g;
    assert q * g <= x < q * g + g;
    if q < k {
      assert (q + 1) * g <= k * g by { MulMonotone(q + 1, k, g); }
    } else if q > k {
      assert (k + 1) * g <= q * g by { MulMonotone(k + 1, q, g); }
    }
  }

  /** A product with `g` is a multiple of `g` in Dafny's (Euclidean) sense. */
  lemma MultipleIsAligned(k: int, g: int)
    requires g > 0
    ensures (k * g) % g == 0 && (k * g) / g == k
  {
    DivIsUnique(k * g, g, k);
  }

  lemma MulMonotone(a: int, b: int, g: int)
    requires a <= b && g >= 0
    ensures a * g <= b * g
  {
    assert b * g - a * g == (b - a) * g;
  }

  /** Between two multiples of `g`, the factors are ordered as the multiples. */
  lemma FactorsOrdered(a: int, b: int, g: int)
    requires g > 0 && a * g < b * g
    ensures a < b
  {
    if a >= b {
      MulMonotone(b, a, g);
    }
  }
}
