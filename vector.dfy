/** The slice of three.js's Vector3 that the bug swarm uses, over exact reals. */
module Vector {

  /** A point or a per-frame displacement in world coordinates. */
  datatype Vec3 = Vec3(x: real, y: real, z: real)

  const Zero: Vec3 := Vec3(0.0, 0.0, 0.0)

  /** `Vector3.add`: the componentwise sum. */
  function Add(a: Vec3, b: Vec3): (r: Vec3)
    ensures b == Zero ==> r == a
    ensures a == Zero ==> r == b
  {
    Vec3(a.x + b.x, a.y + b.y, a.z + b.z)
  }

  /** `Vector3.multiplyScalar`. */
  function Scale(v: Vec3, k: real): (r: Vec3)
    ensures k == 0.0 || v == Zero ==> r == Zero
    ensures k == 1.0 ==> r == v
  {
    Vec3(k * v.x, k * v.y, k * v.z)
  }

  /** `Vector3.lengthSq`. Bounds on a length are stated on its square, which needs no square root. */
  function SqLength(v: Vec3): (r: real)
    ensures r >= 0.0
  {
    SquareNonNegative(v.x);
    SquareNonNegative(v.y);
    SquareNonNegative(v.z);
    v.x * v.x + v.y * v.y + v.z * v.z
  }

  lemma SquareNonNegative(a: real)
    ensures a * a >= 0.0
  {
    if a < 0.0 {
      assert a * a == (-a) * (-a);
    }
  }

  /** Scaling multiplies the squared length by the square of the factor. */
  lemma ScaleSqLength(v: Vec3, k: real)
    ensures SqLength(Scale(v, k)) == k * k * SqLength(v)
  {
    calc {
      SqLength(Scale(v, k));
      (k * v.x) * (k * v.x) + (k * v.y) * (k * v.y) + (k * v.z) * (k * v.z);
      k * k * (v.x * v.x) + k * k * (v.y * v.y) + k * k * (v.z * v.z);
      k * k * SqLength(v);
    }
  }

  /** A vector no longer than one, scaled by a factor in [0, m], is no longer than m,
    * and strictly shorter when the factor is below m. */
  lemma ScaledUnitWithin(v: Vec3, k: real, m: real)
    requires SqLength(v) <= 1.0
    requires 0.0 <= k <= m
    ensures SqLength(Scale(v, k)) <= m * m
    ensures k < m ==> SqLength(Scale(v, k)) < m * m
  {
    ScaleSqLength(v, k);
    FactorWithin(k, m, SqLength(v));
  }

  lemma FactorWithin(k: real, m: real, s: real)
    requires 0.0 <= s <= 1.0
    requires 0.0 <= k <= m
    ensures k * k * s <= m * m
    ensures k < m ==> k * k * s < m * m
  {
    var kk := k * k;
    assert kk * s <= kk;
    assert kk <= k * m <= m * m;
    if k < m {
      assert k * m < m * m;
    }
  }
}
