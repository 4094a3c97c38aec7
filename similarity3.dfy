/** The Sim(3) similarity transform value type: a rotation R, a translation t
    and a scale s, over exact reals. A Rot3 is represented by its matrix and
    its inverse by the transpose. */
module Sim3 {
  import opened Linear
  import opened Dense

  /** The value (R, t, s). The datatype constructor is the component
      constructor, from a Rot3 or from a Matrix3 alike. */
  datatype Similarity3 = Similarity3(R: Mat3, t: Vec3, s: real)

  datatype Option<T> = None | Some(value: T)

  /** What transform_from hands back: the point, and each Jacobian exactly
      when the caller asked for it. */
  datatype Transformed = Transformed(point: Vec3, H1: Option<Matrix>, H2: Option<Mat3>)

  /** A rigid pose (rotation and translation, no scale). */
  datatype Pose3 = Pose3(R: Mat3, t: Vec3)

  /** A 7-vector of the tangent space laid out as [w; u; v]: rotation,
      translation and scale coordinates, the column order of H1. */
  function Tangent(w: Vec3, u: Vec3, v: real): (xi: seq<real>)
    ensures |xi| == 7
  {
    Seq3(w) + Seq3(u) + [v]
  }

  /** A well-formed element: an orthonormal matrix (det R = +1 is not
      checked) and a non-zero scale. */
  predicate Valid(x: Similarity3) {
    IsRotation(x.R) && x.s != 0.0
  }

  // ---------------------------------------------------------------------
  // Construction

  /** The default constructor: the identity rotation, zero translation and
      unit scale; it moves no point. */
  function Default(): (x: Similarity3)
    ensures x.R == IDENTITY && x.t == ZERO && x.s == 1.0
    ensures forall p :: GroupAct(x, p) == p
  {
    Similarity3(IDENTITY, ZERO, 1.0)
  }

  /** The scale-only constructor: R and t are default-constructed, so the
      element is a pure scaling about the origin. */
  function FromScale(s: real): (x: Similarity3)
    ensures x.R == IDENTITY && x.t == ZERO && x.s == s
  {
    Similarity3(IDENTITY, ZERO, s)
  }

  /** identity(): the default-constructed element; transform_from with it
      moves no point. */
  function Identity(): (e: Similarity3)
    ensures e.R == IDENTITY && e.t == ZERO && e.s == 1.0
    ensures forall p :: Act(e, p) == p
  {
    Default()
  }

  // ---------------------------------------------------------------------
  // Group operations

  /** operator*(Similarity3): the product a * b. */
  function Compose(a: Similarity3, b: Similarity3): (c: Similarity3)
    requires b.s != 0.0
    ensures c.R == MatMul(a.R, b.R) && c.s == a.s * b.s
  {
    Similarity3(MatMul(a.R, b.R), Add(Scale(1.0 / b.s, a.t), MatVec(a.R, b.t)), a.s * b.s)
  }

  /** inverse(): rotation R^T, translation R^T (-s t), scale 1/s. */
  function Inverse(x: Similarity3): (y: Similarity3)
    requires x.s != 0.0
    ensures y.s != 0.0 && y.s * x.s == 1.0
    ensures MatMul(x.R, Transpose(x.R)) == IDENTITY ==> MatMul(x.R, y.R) == IDENTITY
    ensures MatMul(Transpose(x.R), x.R) == IDENTITY ==> MatMul(y.R, x.R) == IDENTITY
  {
    var rt := Transpose(x.R);
    Similarity3(rt, MatVec(rt, Scale(-x.s, x.t)), 1.0 / x.s)
  }

  // ---------------------------------------------------------------------
  // Action on points

  /** H1 as transform_from fills it: [s R skew(-p) | R | R p]. */
  function JacobianWrtTransform(x: Similarity3, p: Vec3): (h: Matrix)
    ensures IsShape(h, 3, 7)
  {
    var dr := MatMul(MatScale(x.s, x.R), Skew(Neg(p)));
    HCat(HCat(FromMat3(dr), FromMat3(x.R)), Column(MatVec(x.R, p)))
  }

  /** H2 as transform_from fills it: s R. */
  function JacobianWrtPoint(x: Similarity3): (h: Mat3)
    ensures forall d :: MatVec(h, d) == Scale(x.s, MatVec(x.R, d))
  {
    MatScaleAct(x.s, x.R);
    MatScale(x.s, x.R)
  }

  /** transform_from(p, H1, H2): the point R (s p) + t, with each Jacobian
      present exactly when requested. */
  function TransformFrom(x: Similarity3, p: Vec3, wantH1: bool, wantH2: bool): (r: Transformed)
    ensures r.point == Add(Scale(x.s, MatVec(x.R, p)), x.t)
    ensures r.H1.Some? <==> wantH1
    ensures r.H2.Some? <==> wantH2
    ensures wantH1 ==> r.H1.value == JacobianWrtTransform(x, p)
    ensures wantH2 ==> r.H2.value == JacobianWrtPoint(x)
  {
    var h1 := if wantH1 then Some(JacobianWrtTransform(x, p)) else None;
    var h2 := if wantH2 then Some(JacobianWrtPoint(x)) else None;
    MatVecScale(x.R, x.s, p);
    Transformed(Add(MatVec(x.R, Scale(x.s, p)), x.t), h1, h2)
  }

  /** operator*(Point3): transform_from without Jacobians. */
  function Act(x: Similarity3, p: Vec3): (q: Vec3)
    ensures q == Add(Scale(x.s, MatVec(x.R, p)), x.t)
  {
    TransformFrom(x, p, false, false).point
  }

  /** The map p -> s (R p + t): the action that operator* composes and
      inverse() undoes, i.e. the homogeneous matrix [[R, t], [0, 1/s]] with
      the last coordinate divided out. It is not transform_from. */
  function GroupAct(x: Similarity3, p: Vec3): Vec3 {
    Scale(x.s, Add(MatVec(x.R, p), x.t))
  }

  // ---------------------------------------------------------------------
  // Matrix layouts and conversion

  /** AdjointMap(): the 7x7 matrix
        [ s R | s skew(t) R | -s t ]
        [ 0   | R           | 0    ]
        [ 0   | 0           | 1    ]  */
  function AdjointMap(x: Similarity3): (adj: Matrix)
    ensures IsShape(adj, 7, 7)
  {
    var a := MatScale(x.s, MatMul(Skew(x.t), x.R));
    VCat(VCat(HCat(HCat(FromMat3(MatScale(x.s, x.R)), FromMat3(a)), Column(Scale(-x.s, x.t))),
              HCat(HCat(Zeros(3, 3), FromMat3(x.R)), Zeros(3, 1))),
         [Zeros(1, 6)[0] + [1.0]])
  }

  /** matrix(): the 4x4 homogeneous matrix [[s R, t], [0, 0, 0, 1]]. */
  function HomogeneousMatrix(x: Similarity3): (m: Matrix)
    ensures IsShape(m, 4, 4)
  {
    VCat(HCat(FromMat3(MatScale(x.s, x.R)), Column(x.t)), [[0.0, 0.0, 0.0, 1.0]])
  }

  /** The rigid motion of a Pose3: p maps to R p + t. */
  function PoseTransform(q: Pose3, p: Vec3): Vec3 {
    Add(MatVec(q.R, p), q.t)
  }

  /** operator Pose3(): keeps R and scales the translation, dropping s. The
      pose moves s p where the similarity's group action moves p, and it
      agrees with transform_from when the scale is one. */
  function ToPose3(x: Similarity3): (q: Pose3)
    ensures q.R == x.R
    ensures forall p :: PoseTransform(q, Scale(x.s, p)) == GroupAct(x, p)
    ensures x.s == 1.0 ==> forall p :: PoseTransform(q, p) == Act(x, p)
  {
    var q := Pose3(x.R, Scale(x.s, x.t));
    forall p ensures PoseTransform(q, Scale(x.s, p)) == GroupAct(x, p) {
      MatVecScale(x.R, x.s, p);
      ScaleAdd(x.s, MatVec(x.R, p), x.t);
    }
    q
  }

  // ---------------------------------------------------------------------
  // Approximate equality

  function Abs(a: real): real {
    if a < 0.0 then -a else a
  }

  /** Point3 equality with tolerance, componentwise. */
  predicate VecClose(u: Vec3, v: Vec3, tol: real) {
    Abs(u.x - v.x) <= tol && Abs(u.y - v.y) <= tol && Abs(u.z - v.z) <= tol
  }

  /** Rot3 equality with tolerance, entrywise on the matrices. */
  predicate MatClose(a: Mat3, b: Mat3, tol: real) {
    VecClose(a.r0, b.r0, tol) && VecClose(a.r1, b.r1, tol) && VecClose(a.r2, b.r2, tol)
  }

  /** equals(sim, tol): rotations and translations within tol, and the scale
      strictly inside the open band (sim.s - tol, sim.s + tol). */
  predicate Equals(x: Similarity3, y: Similarity3, tol: real): (eq: bool)
    ensures eq ==> tol > 0.0 && Abs(x.s - y.s) < tol
  {
    MatClose(x.R, y.R, tol) && VecClose(x.t, y.t, tol) && x.s < y.s + tol && x.s > y.s - tol
  }
}
