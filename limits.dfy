/** Numeric building blocks of the orbit controller: optional (infinite) bounds,
    the `Math.max(lo, Math.min(hi, x))` clamp, three.js `Spherical.makeSafe`,
    and a power function for repeated damping. All arithmetic is exact `real`. */
module Limits {

  datatype Option<+T> = None | Some(value: T)

  /** `Math.PI` written as a decimal; the proofs only use that 3 < Pi < 4. */
  const Pi: real := 3.141592653589793

  /** The pole margin three.js `Spherical.makeSafe` uses. */
  const Eps: real := 0.000001

  function Abs(x: real): (r: real)
    ensures r >= 0.0 && (r == x || r == -x)
  {
    if x < 0.0 then -x else x
  }

  /** `Math.min(hi, x)`, where an absent `hi` stands for `Infinity`. */
  function AtMost(hi: Option<real>, x: real): (r: real)
    ensures r <= x
    ensures hi.None? ==> r == x
    ensures hi.Some? ==> r <= hi.value && (r == x || r == hi.value)
  {
    match hi
    case None => x
    case Some(h) => if h < x then h else x
  }

  /** `Math.max(lo, x)`, where an absent `lo` stands for `-Infinity`. */
  function AtLeast(lo: Option<real>, x: real): (r: real)
    ensures x <= r
    ensures lo.None? ==> r == x
    ensures lo.Some? ==> lo.value <= r && (r == x || r == lo.value)
  {
    match lo
    case None => x
    case Some(l) => if l > x then l else x
  }

  /** The lower bound is not above the upper bound (an absent bound is infinite). */
  predicate Ordered(lo: Option<real>, hi: Option<real>)
  {
    lo.None? || hi.None? || lo.value <= hi.value
  }

  /** `x` lies between the bounds. */
  predicate Within(lo: Option<real>, hi: Option<real>, x: real)
  {
    (lo.None? || lo.value <= x) && (hi.None? || x <= hi.value)
  }

  /** `Math.max(lo, Math.min(hi, x))`: the clamp idiom of the controller.  When the
      bounds cross, the lower bound wins, because `max` is applied last. */
  function Clamp(lo: Option<real>, hi: Option<real>, x: real): (r: real)
    ensures lo.Some? ==> lo.value <= r
    ensures Ordered(lo, hi) ==> Within(lo, hi, r)
    ensures Within(lo, hi, x) ==> r == x
    ensures Ordered(lo, hi) && hi.Some? && x > hi.value ==> r == hi.value
    ensures lo.Some? && x < lo.value ==> r == lo.value
    ensures !Ordered(lo, hi) ==> r == lo.value
  {
    AtLeast(lo, AtMost(hi, x))
  }

  /** Clamping twice with the same bounds is clamping once, whether or not the
      bounds are ordered. */
  lemma ClampIdempotent(lo: Option<real>, hi: Option<real>, x: real)
    ensures Clamp(lo, hi, Clamp(lo, hi, x)) == Clamp(lo, hi, x)
  {
  }

  /** Clamping is monotone, whether or not the bounds are ordered. */
  lemma ClampMono(lo: Option<real>, hi: Option<real>, a: real, b: real)
    requires a <= b
    ensures Clamp(lo, hi, a) <= Clamp(lo, hi, b)
  {
  }

  /** three.js `Spherical.makeSafe`: `phi` clamped into [Eps, Pi - Eps], so the
      camera never sits exactly on a pole. */
  function MakeSafe(phi: real): (r: real)
    ensures Eps <= r <= Pi - Eps
    ensures 0.0 < r < Pi
    ensures Eps <= phi <= Pi - Eps ==> r == phi
  {
    Clamp(Some(Eps), Some(Pi - Eps), phi)
  }

  /** The polar step of an update, a clamp to [lo, hi] followed by `makeSafe`,
      is idempotent for all bounds, even crossed ones or ones that miss
      [Eps, Pi - Eps] altogether. */
  lemma SafePolarIdempotent(lo: real, hi: real, x: real)
    ensures MakeSafe(Clamp(Some(lo), Some(hi), MakeSafe(Clamp(Some(lo), Some(hi), x))))
         == MakeSafe(Clamp(Some(lo), Some(hi), x))
  {
    var y := Clamp(Some(lo), Some(hi), x);
    var z := MakeSafe(y);
    if lo <= hi {
      if Eps <= y <= Pi - Eps {
        assert z == y;
        ClampIdempotent(Some(lo), Some(hi), x);
      } else if y < Eps {
        assert z == Eps;
        if hi >= Eps {
          assert Clamp(Some(lo), Some(hi), z) == z;
        } else {
          assert Clamp(Some(lo), Some(hi), z) == hi;
        }
      } else {
        assert z == Pi - Eps;
        if lo <= Pi - Eps {
          assert Clamp(Some(lo), Some(hi), z) == z;
        } else {
          assert Clamp(Some(lo), Some(hi), z) == lo;
        }
      }
    } else {
      assert y == lo && Clamp(Some(lo), Some(hi), z) == lo;
    }
  }

  /** The polar step is monotone: a larger polar angle never comes out smaller. */
  lemma SafePolarMono(lo: real, hi: real, a: real, b: real)
    requires a <= b
    ensures MakeSafe(Clamp(Some(lo), Some(hi), a)) <= MakeSafe(Clamp(Some(lo), Some(hi), b))
  {
  }

  // Nonlinear steps, stated once so that proofs can cite them.

  lemma MulNonneg(a: real, b: real)
    requires a >= 0.0 && b >= 0.0
    ensures a * b >= 0.0
  {
  }

  lemma MulPos(a: real, b: real)
    requires a > 0.0 && b > 0.0
    ensures a * b > 0.0
  {
  }

  lemma MulMono(a: real, b: real, c: real)
    requires a >= 0.0 && b <= c
    ensures a * b <= a * c
  {
    assert a * c - a * b == a * (c - b);
    MulNonneg(a, c - b);
  }

  function Pow(q: real, n: nat): real
  {
    if n == 0 then 1.0 else q * Pow(q, n - 1)
  }

  lemma PowSucc(q: real, n: nat)
    ensures Pow(q, n + 1) == q * Pow(q, n)
  {
  }

  /** A power of a base in [0, 1] stays in [0, 1]. */
  lemma {:induction false} PowUnit(q: real, n: nat)
    requires 0.0 <= q <= 1.0
    ensures 0.0 <= Pow(q, n) <= 1.0
  {
    if n > 0 {
      PowUnit(q, n - 1);
      var p := Pow(q, n - 1);
      MulNonneg(p, q);
      MulMono(p, q, 1.0);
      assert p * q <= p;
      assert Pow(q, n) == p * q;
    }
  }
}
