/** Exact real 3-vectors and 3x3 matrices: the part of the linear algebra
    (Point3, Vector3, Matrix3 and the skew-symmetric helper) that the
    similarity transform is built from. */
module Linear {

  datatype Vec3 = Vec3(x: real, y: real, z: real)

  /** A 3x3 matrix, stored by rows. */
  datatype Mat3 = Mat3(r0: Vec3, r1: Vec3, r2: Vec3)

  const ZERO: Vec3 := Vec3(0.0, 0.0, 0.0)
  const IDENTITY: Mat3 := Mat3(Vec3(1.0, 0.0, 0.0), Vec3(0.0, 1.0, 0.0), Vec3(0.0, 0.0, 1.0))

  /** Component `i` of `v`. */
  function Comp(v: Vec3, i: nat): real
    requires i < 3
  {
    if i == 0 then v.x else if i == 1 then v.y else v.z
  }

  /** Row `i` of `m`. */
  function Row(m: Mat3, i: nat): Vec3
    requires i < 3
  {
    if i == 0 then m.r0 else if i == 1 then m.r1 else m.r2
  }

  /** Entry (i, j) of `m`. */
  function At(m: Mat3, i: nat, j: nat): real
    requires i < 3 && j < 3
  {
    Comp(Row(m, i), j)
  }

  function Add(u: Vec3, v: Vec3): Vec3 {
    Vec3(u.x + v.x, u.y + v.y, u.z + v.z)
  }

  function Neg(v: Vec3): Vec3 {
    Vec3(-v.x, -v.y, -v.z)
  }

  function Scale(k: real, v: Vec3): Vec3 {
    Vec3(k * v.x, k * v.y, k * v.z)
  }

  function Dot(u: Vec3, v: Vec3): real {
    u.x * v.x + u.y * v.y + u.z * v.z
  }

  function Cross(u: Vec3, v: Vec3): Vec3 {
    Vec3(u.y * v.z - u.z * v.y, u.z * v.x - u.x * v.z, u.x * v.y - u.y * v.x)
  }

  function Transpose(m: Mat3): Mat3 {
    Mat3(Vec3(m.r0.x, m.r1.x, m.r2.x),
         Vec3(m.r0.y, m.r1.y, m.r2.y),
         Vec3(m.r0.z, m.r1.z, m.r2.z))
  }

  /** The matrix-vector product m * v. */
  function MatVec(m: Mat3, v: Vec3): Vec3 {
    Vec3(Dot(m.r0, v), Dot(m.r1, v), Dot(m.r2, v))
  }

  /** The matrix product a * b: row i of a * b is b^T applied to row i of a. */
  function MatMul(a: Mat3, b: Mat3): Mat3 {
    var bt := Transpose(b);
    Mat3(MatVec(bt, a.r0), MatVec(bt, a.r1), MatVec(bt, a.r2))
  }

  function MatScale(k: real, m: Mat3): Mat3 {
    Mat3(Scale(k, m.r0), Scale(k, m.r1), Scale(k, m.r2))
  }

  /** The cross-product matrix of (a, b, c): Skew(v) * u == v x u. */
  function Skew(v: Vec3): (m: Mat3)
    ensures forall u :: MatVec(m, u) == Cross(v, u)
  {
    Mat3(Vec3(0.0, -v.z, v.y), Vec3(v.z, 0.0, -v.x), Vec3(-v.y, v.x, 0.0))
  }

  /** An orthonormal matrix: the matrices a Rot3 holds, whose inverse is
      their transpose. */
  predicate IsRotation(m: Mat3) {
    MatMul(m, Transpose(m)) == IDENTITY && MatMul(Transpose(m), m) == IDENTITY
  }

  // ---------------------------------------------------------------------
  // Algebraic laws

  lemma MatVecIdentity(v: Vec3)
    ensures MatVec(IDENTITY, v) == v
  {}

  lemma MatVecZero(m: Mat3)
    ensures MatVec(m, ZERO) == ZERO
  {}

  lemma MatMulIdentity(m: Mat3)
    ensures MatMul(m, IDENTITY) == m && MatMul(IDENTITY, m) == m
  {}

  lemma TransposeTranspose(m: Mat3)
    ensures Transpose(Transpose(m)) == m
  {}

  lemma ScaleAdd(k: real, u: Vec3, v: Vec3)
    ensures Scale(k, Add(u, v)) == Add(Scale(k, u), Scale(k, v))
  {}

  lemma ScaleScale(k: real, l: real, v: Vec3)
    ensures Scale(k, Scale(l, v)) == Scale(k * l, v)
  {
    assert k * (l * v.x) == (k * l) * v.x;
    assert k * (l * v.y) == (k * l) * v.y;
    assert k * (l * v.z) == (k * l) * v.z;
  }

  /** Replacing the summands of a + b + c by equal ones; stated on opaque
      summands so that the solver need not look inside them. */
  lemma AddCongruence(a: Vec3, b: Vec3, c: Vec3, a': Vec3, b': Vec3, c': Vec3)
    requires a == a' && b == b' && c == c'
    ensures Add(Add(a, b), c) == Add(Add(a', b'), c')
  {}

  lemma AddCancel(u: Vec3, d: Vec3)
    requires Add(u, d) == u
    ensures d == ZERO
  {}

  /** A non-zero factor scales only the zero vector to zero. */
  lemma ScaleNonZero(k: real, v: Vec3)
    requires k != 0.0 && v != ZERO
    ensures Scale(k, v) != ZERO
  {
    if v.x != 0.0 {
      assert Scale(k, v).x != 0.0;
    } else if v.y != 0.0 {
      assert Scale(k, v).y != 0.0;
    } else {
      assert Scale(k, v).z != 0.0;
    }
  }

  /** A matrix with a left inverse sends no non-zero vector to zero. */
  lemma LeftInvertibleNoKernel(m: Mat3, v: Vec3)
    requires MatMul(Transpose(m), m) == IDENTITY && v != ZERO
    ensures MatVec(m, v) != ZERO
  {
    MatVecMul(Transpose(m), m, v);
    MatVecIdentity(v);
    MatVecZero(Transpose(m));
  }

  lemma ScaleScaleNeg(k: real, l: real, v: Vec3)
    ensures Scale(k, Scale(-l, v)) == Scale(-k * l, v)
  {
    assert k * (-l * v.x) == (-k * l) * v.x;
    assert k * (-l * v.y) == (-k * l) * v.y;
    assert k * (-l * v.z) == (-k * l) * v.z;
  }

  /** Scaling by k l after scaling by 1/l is scaling by k. */
  lemma ScaleCancel(k: real, l: real, v: Vec3)
    requires l != 0.0
    ensures Scale(k * l, Scale(1.0 / l, v)) == Scale(k, v)
  {
    ScaleScale(k * l, 1.0 / l, v);
    assert (k * l) * (1.0 / l) == k * (l * (1.0 / l));
    assert l * (1.0 / l) == 1.0;
  }

  lemma MulAssoc(a: real, b: real, c: real)
    ensures (a * b) * c == a * (b * c)
  {}

  /** The reciprocal of a product is the product of the reciprocals. */
  lemma ReciprocalMul(a: real, b: real)
    requires a != 0.0 && b != 0.0
    ensures 1.0 / (a * b) == (1.0 / b) * (1.0 / a)
  {
    assert ((1.0 / b) * (1.0 / a)) * (a * b) == ((1.0 / a) * a) * ((1.0 / b) * b);
  }

  lemma ScaleSum(k: real, l: real, v: Vec3)
    ensures Scale(k + l, v) == Add(Scale(k, v), Scale(l, v))
  {
    assert (k + l) * v.x == k * v.x + l * v.x;
    assert (k + l) * v.y == k * v.y + l * v.y;
    assert (k + l) * v.z == k * v.z + l * v.z;
  }

  lemma ScaleDiff(k: real, l: real, v: Vec3)
    ensures Scale(k - l, v) == Add(Scale(k, v), Neg(Scale(l, v)))
  {
    assert (k - l) * v.x == k * v.x - l * v.x;
    assert (k - l) * v.y == k * v.y - l * v.y;
    assert (k - l) * v.z == k * v.z - l * v.z;
  }

  lemma MatVecAdd(m: Mat3, u: Vec3, v: Vec3)
    ensures MatVec(m, Add(u, v)) == Add(MatVec(m, u), MatVec(m, v))
  {}

  lemma MatVecScale(m: Mat3, k: real, v: Vec3)
    ensures MatVec(m, Scale(k, v)) == Scale(k, MatVec(m, v))
  {}

  lemma MatScaleVec(k: real, m: Mat3, v: Vec3)
    ensures MatVec(MatScale(k, m), v) == Scale(k, MatVec(m, v))
  {
    MatScaleVecRows(k, m, v);
  }

  /** MatScaleVec for every vector at once. */
  lemma MatScaleAct(k: real, m: Mat3)
    ensures forall v :: MatVec(MatScale(k, m), v) == Scale(k, MatVec(m, v))
  {
    forall v ensures MatVec(MatScale(k, m), v) == Scale(k, MatVec(m, v)) {
      MatScaleVec(k, m, v);
    }
  }

  /** MatScaleVec one coordinate at a time. */
  lemma MatScaleVecRows(k: real, m: Mat3, v: Vec3)
    ensures MatVec(MatScale(k, m), v).x == Scale(k, MatVec(m, v)).x
    ensures MatVec(MatScale(k, m), v).y == Scale(k, MatVec(m, v)).y
    ensures MatVec(MatScale(k, m), v).z == Scale(k, MatVec(m, v)).z
  {
    DotScale(k, m.r0, v);
    DotScale(k, m.r1, v);
    DotScale(k, m.r2, v);
  }

  lemma DotScale(k: real, u: Vec3, v: Vec3)
    ensures Dot(Scale(k, u), v) == k * Dot(u, v)
  {
    assert (k * u.x) * v.x == k * (u.x * v.x);
    assert (k * u.y) * v.y == k * (u.y * v.y);
    assert (k * u.z) * v.z == k * (u.z * v.z);
  }

  /** (a * b) * v == a * (b * v). */
  lemma MatVecMul(a: Mat3, b: Mat3, v: Vec3)
    ensures MatVec(MatMul(a, b), v) == MatVec(a, MatVec(b, v))
  {
    DotTranspose(b, a.r0, v);
    DotTranspose(b, a.r1, v);
    DotTranspose(b, a.r2, v);
  }

  /** (m^T u) . v == u . (m v). */
  lemma DotTranspose(m: Mat3, u: Vec3, v: Vec3)
    ensures Dot(MatVec(Transpose(m), u), v) == Dot(u, MatVec(m, v))
  {}

  /** Matrix multiplication is associative. */
  lemma MatMulAssoc(a: Mat3, b: Mat3, c: Mat3)
    ensures MatMul(MatMul(a, b), c) == MatMul(a, MatMul(b, c))
  {
    var bt, ct := Transpose(b), Transpose(c);
    TransposeMul(b, c);
    MatVecMul(ct, bt, a.r0);
    MatVecMul(ct, bt, a.r1);
    MatVecMul(ct, bt, a.r2);
  }

  lemma TransposeMul(a: Mat3, b: Mat3)
    ensures Transpose(MatMul(a, b)) == MatMul(Transpose(b), Transpose(a))
  {}

  lemma RotationTranspose(m: Mat3)
    requires IsRotation(m)
    ensures IsRotation(Transpose(m))
  {
    TransposeTranspose(m);
  }

  /** Rotations are closed under products. */
  lemma RotationMul(a: Mat3, b: Mat3)
    requires IsRotation(a) && IsRotation(b)
    ensures IsRotation(MatMul(a, b))
  {
    var ab, at, bt := MatMul(a, b), Transpose(a), Transpose(b);
    TransposeMul(a, b);
    // (a b)(a b)^T == a (b b^T) a^T == I
    MatMulAssoc(a, b, MatMul(bt, at));
    MatMulAssoc(b, bt, at);
    MatMulIdentity(at);
    // (a b)^T (a b) == b^T (a^T a) b == I
    MatMulAssoc(bt, at, ab);
    MatMulAssoc(at, a, b);
    MatMulIdentity(b);
  }
}
