/**
  Three-component vectors standing for three.js's `Vector3`.  Floating point
  is modelled by exact real arithmetic, and distances are compared through
  their squares, so no square root is needed.
 */
module Vectors {

  datatype Vec3 = Vec3(x: real, y: real, z: real)

  const Origin: Vec3 := Vec3(0.0, 0.0, 0.0)

  function Add(a: Vec3, b: Vec3): Vec3 {
    Vec3(a.x + b.x, a.y + b.y, a.z + b.z)
  }

  function Sub(a: Vec3, b: Vec3): Vec3 {
    Vec3(a.x - b.x, a.y - b.y, a.z - b.z)
  }

  function Scale(a: Vec3, k: real): Vec3 {
    Vec3(a.x * k, a.y * k, a.z * k)
  }

  /** Squared length; `v.length() < d` holds exactly when `NormSq(v) < d * d` for d >= 0. */
  function NormSq(a: Vec3): (r: real)
    ensures 0.0 <= r
  {
    a.x * a.x + a.y * a.y + a.z * a.z
  }

  /** Squared `distanceTo`. */
  function DistSq(a: Vec3, b: Vec3): real {
    NormSq(Sub(a, b))
  }

  /**
    `Vector3.lerp(t, alpha)`: every component moves the fraction `alpha` of
    the way towards `t`, so what is left of the displacement is scaled by
    `1 - alpha`.
   */
  function Lerp(p: Vec3, t: Vec3, alpha: real): (r: Vec3)
    ensures Sub(t, r) == Scale(Sub(t, p), 1.0 - alpha)
    ensures alpha == 0.0 ==> r == p
    ensures alpha == 1.0 ==> r == t
  {
    Vec3(p.x + (t.x - p.x) * alpha, p.y + (t.y - p.y) * alpha, p.z + (t.z - p.z) * alpha)
  }

  lemma NormSqScale(v: Vec3, k: real)
    ensures NormSq(Scale(v, k)) == k * k * NormSq(v)
  {
    assert (v.x * k) * (v.x * k) == k * k * (v.x * v.x);
    assert (v.y * k) * (v.y * k) == k * k * (v.y * v.y);
    assert (v.z * k) * (v.z * k) == k * k * (v.z * v.z);
  }

  lemma DistSqSymmetric(a: Vec3, b: Vec3)
    ensures DistSq(a, b) == DistSq(b, a)
  {
  }

  /** One lerp step multiplies the squared distance to the target by `(1 - alpha)^2`. */
  lemma LerpDistSq(p: Vec3, t: Vec3, alpha: real)
    ensures DistSq(Lerp(p, t, alpha), t) == (1.0 - alpha) * (1.0 - alpha) * DistSq(p, t)
  {
    var r := Lerp(p, t, alpha);
    DistSqSymmetric(r, t);
    NormSqScale(Sub(t, p), 1.0 - alpha);
    DistSqSymmetric(p, t);
  }

  /** The point `base + dir * k` lies at squared distance `k * k` from `base` when `dir` is a unit vector. */
  lemma OffsetDistSq(base: Vec3, dir: Vec3, k: real)
    requires NormSq(dir) == 1.0
    ensures DistSq(Add(base, Scale(dir, k)), base) == k * k
  {
    assert Sub(Add(base, Scale(dir, k)), base) == Scale(dir, k);
    NormSqScale(dir, k);
  }

  /**
    `Vector3.normalize()` for a vector whose length `len` is supplied (the
    square root is not modelled): it divides by the length and leaves a
    zero vector as it is, as three.js does by dividing by `length() || 1`.
   */
  function Normalize(v: Vec3, len: real): (u: Vec3)
    requires 0.0 <= len && len * len == NormSq(v)
    ensures 0.0 < len ==> NormSq(u) == 1.0 && Scale(u, len) == v
    ensures len == 0.0 ==> u == v
  {
    if len == 0.0 then v
    else
      var k := 1.0 / len;
      NormSqScale(v, k);
      InverseSquare(len, k, NormSq(v));
      Scale(v, k)
  }

  /** The zero vector, whose length is 0, normalises to itself. */
  lemma NormalizeOrigin(len: real)
    requires 0.0 <= len && len * len == NormSq(Origin)
    ensures Normalize(Origin, len) == Origin
  {
    if len != 0.0 {
      assert Scale(Origin, 1.0 / len) == Origin;
    }
  }

  lemma InverseSquare(len: real, k: real, n: real)
    requires 0.0 < len && k == 1.0 / len && n == len * len
    ensures k * k * n == 1.0
  {
    assert k * len == 1.0;
    assert k * k * n == (k * len) * (k * len);
  }

  /** `r` to the power `k`. */
  function Pow(r: real, k: nat): (q: real)
    requires 0.0 <= r
    ensures 0.0 <= q
    ensures 0.0 < r ==> 0.0 < q
  {
    if k == 0 then 1.0 else r * Pow(r, k - 1)
  }

  /** Multiplying by a factor in [0, 1] shrinks a non-negative quantity. */
  lemma ShrinkingFactor(a: real, b: real)
    requires 0.0 <= a <= 1.0 && 0.0 <= b
    ensures 0.0 <= a * b <= b
  {
  }

  /** Multiplying by a positive factor keeps a strict order. */
  lemma StrictScale(q: real, d: real, t: real)
    requires 0.0 < q && d < t
    ensures q * d < q * t
  {
  }

  /** `x` multiplied `k` times by `r`. */
  function Decay(x: real, r: real, k: nat): real
    decreases k
  {
    if k == 0 then x else Decay(r * x, r, k - 1)
  }

  lemma {:induction false} DecayAdd(x: real, r: real, a: nat, b: nat)
    ensures Decay(x, r, a + b) == Decay(Decay(x, r, a), r, b)
    decreases a
  {
    if a > 0 {
      DecayAdd(r * x, r, a - 1, b);
      assert a + b - 1 == a - 1 + b;
    }
  }

  lemma {:induction false} DecayLinear(x: real, r: real, k: nat)
    requires 0.0 <= r
    ensures Decay(x, r, k) == Pow(r, k) * x
    decreases k
  {
    if k > 0 {
      DecayLinear(r * x, r, k - 1);
      assert Pow(r, k - 1) * (r * x) == (r * Pow(r, k - 1)) * x;
    }
  }

  /** A factor of at most one half halves. */
  lemma HalfOf(p: real, x: real, y: real)
    requires 0.0 <= p && p * 2.0 <= 1.0 && 0.0 <= x && y == p * x
    ensures 0.0 <= y && y * 2.0 <= x
  {
    assert y * 2.0 == (p * 2.0) * x;
  }

  /**
    When every `b` factors `r` at least halve a quantity, `b * m` of them
    take anything below `2^m` under 1.
   */
  lemma {:induction false} DecayHalvings(x: real, r: real, b: nat, m: nat)
    requires 0.0 <= r && Pow(r, b) * 2.0 <= 1.0
    requires 0.0 <= x < Pow(2.0, m)
    ensures 0.0 <= Decay(x, r, b * m) < 1.0
    decreases m
  {
    if m > 0 {
      var y := Decay(x, r, b);
      DecayLinear(x, r, b);
      HalfOf(Pow(r, b), x, y);
      assert Pow(2.0, m) == 2.0 * Pow(2.0, m - 1);
      assert b * m == b + b * (m - 1);
      DecayAdd(x, r, b, b * (m - 1));
      DecayHalvings(y, r, b, m - 1);
    }
  }
}
