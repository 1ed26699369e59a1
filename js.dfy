/** The pieces of the JavaScript host that the visualisations lean on: `null`,
    `Math.abs`/`min`/`max`, the `%` operator on numbers, `Math.PI`, and the
    one fact about `Math.sin`/`Math.cos` that the views need (their range).
    `Math.floor` is Dafny's own `.Floor` on reals.
    Numbers are exact reals: IEEE rounding is not modelled. */
module Js {

  /** A value that may be `null`, or a DOM element that may be absent. */
  datatype Option<T> = None | Some(value: T)

  /** `Math.PI`, written as the decimal the double prints as. */
  const PI: real := 3.141592653589793

  function Abs(x: real): (r: real)
    ensures r >= 0.0
    ensures r == x || r == -x
  {
    if x < 0.0 then -x else x
  }

  function Min(a: real, b: real): (r: real)
    ensures r <= a && r <= b
    ensures r == a || r == b
  {
    if a <= b then a else b
  }

  function Max(a: real, b: real): (r: real)
    ensures r >= a && r >= b
    ensures r == a || r == b
  {
    if a >= b then a else b
  }

  /** `Math.max(lo, Math.min(hi, x))`, the clamping idiom the views use. */
  function Clamp(lo: real, hi: real, x: real): (r: real)
    ensures lo <= r
    ensures lo <= hi ==> r <= hi
    ensures lo <= x <= hi ==> r == x
    ensures x < lo ==> r == lo
    ensures lo <= hi < x ==> r == hi
  {
    Max(lo, Min(hi, x))
  }

  lemma ClampIdempotent(lo: real, hi: real, x: real)
    requires lo <= hi
    ensures Clamp(lo, hi, Clamp(lo, hi, x)) == Clamp(lo, hi, x)
  {
  }

  /** Truncation toward zero, the rounding JavaScript's `%` is defined with. */
  function Trunc(x: real): (r: int)
    ensures x >= 0.0 ==> 0 <= r && r as real <= x < r as real + 1.0
    ensures x < 0.0 ==> r <= 0 && r as real - 1.0 < x <= r as real
  {
    if x >= 0.0 then x.Floor else -((-x).Floor)
  }

  /** JavaScript's `x % m` on numbers for a positive divisor: the remainder of the
      truncated quotient, so it takes the sign of the dividend. */
  function Rem(x: real, m: real): (r: real)
    requires m > 0.0
    ensures x >= 0.0 ==> 0.0 <= r < m
    ensures x < 0.0 ==> -m < r <= 0.0
    ensures 0.0 <= x < m ==> r == x
    ensures x - r == Trunc(x / m) as real * m
  {
    var q := Trunc(x / m);
    RemBounds(x, m, q);
    x - q as real * m
  }

  lemma RemBounds(x: real, m: real, q: int)
    requires m > 0.0 && q == Trunc(x / m)
    ensures x >= 0.0 ==> 0.0 <= x - q as real * m < m
    ensures x < 0.0 ==> -m < x - q as real * m <= 0.0
    ensures 0.0 <= x < m ==> q == 0
  {
    var t := x / m;
    assert t * m == x;
    if x >= 0.0 {
      MulLe(0.0, x, 1.0 / m);
      assert t >= 0.0;
      RemAbove(m, t, q as real);
      if x < m && q >= 1 {
        MulLe(1.0, q as real, m);
        assert false;
      }
    } else {
      MulLess(x, 0.0, 1.0 / m);
      assert t < 0.0;
      RemBelow(m, t, q as real);
    }
  }

  lemma RemAbove(m: real, t: real, k: real)
    requires m > 0.0 && k <= t < k + 1.0
    ensures 0.0 <= t * m - k * m < m
  {
    MulLe(k, t, m);
    MulLess(t, k + 1.0, m);
    Distribute(k, 1.0, m);
  }

  lemma RemBelow(m: real, t: real, k: real)
    requires m > 0.0 && k - 1.0 < t <= k
    ensures -m < t * m - k * m <= 0.0
  {
    MulLess(k - 1.0, t, m);
    MulLe(t, k, m);
    Distribute(k, -1.0, m);
  }

  /** Multiplying by a positive factor keeps strict order. */
  lemma MulLess(a: real, b: real, m: real)
    requires m > 0.0 && a < b
    ensures a * m < b * m
  {
    var d := b - a;
    assert d * m > 0.0;
    assert b * m == a * m + d * m;
  }

  lemma MulLe(a: real, b: real, m: real)
    requires m > 0.0 && a <= b
    ensures a * m <= b * m
  {
    if a < b {
      MulLess(a, b, m);
    }
  }

  lemma Distribute(k: real, d: real, m: real)
    ensures (k + d) * m == k * m + d * m
  {
  }

  /** The range of `Math.sin` and `Math.cos`, the only fact about them the model uses. */
  ghost predicate Bounded(f: real -> real)
  {
    forall x :: -1.0 <= f(x) <= 1.0
  }
}
