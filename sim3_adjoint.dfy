/** The block structure of AdjointMap() and what it does to a 7-vector. */
module Sim3Adjoint {
  import opened Linear
  import opened Dense
  import opened Sim3

  const ZERO3: Mat3 := Mat3(ZERO, ZERO, ZERO)

  /** The comma-initialised 7x7 matrix is three bands and a last row. */
  lemma AdjointMapBands(x: Similarity3)
    ensures AdjointMap(x) == Band(MatScale(x.s, x.R), MatScale(x.s, MatMul(Skew(x.t), x.R)), Scale(-x.s, x.t))
                           + Band(ZERO3, x.R, ZERO)
                           + [Seq3(ZERO) + Seq3(ZERO) + [1.0]]
  {
    var adj := AdjointMap(x);
    var sr, a := MatScale(x.s, x.R), MatScale(x.s, MatMul(Skew(x.t), x.R));
    var st := Scale(-x.s, x.t);
    var rhs := Band(sr, a, st) + Band(ZERO3, x.R, ZERO) + [Seq3(ZERO) + Seq3(ZERO) + [1.0]];
    assert adj[0] == rhs[0];
    assert adj[1] == rhs[1];
    assert adj[2] == rhs[2];
    assert adj[3] == rhs[3];
    assert adj[4] == rhs[4];
    assert adj[5] == rhs[5];
    assert adj[6] == rhs[6];
  }

  /** Rows 0-2 are [s R | s skew(t) R | -s t], rows 3-5 are [0 | R | 0] and
      row 6 is the unit vector e7. */
  lemma AdjointMapLayout(x: Similarity3)
    ensures Block3(AdjointMap(x), 0, 0) == MatScale(x.s, x.R)
    ensures forall u :: MatVec(Block3(AdjointMap(x), 0, 3), u) == Scale(x.s, Cross(x.t, MatVec(x.R, u)))
    ensures Column3(AdjointMap(x), 0, 6) == Scale(-x.s, x.t)
    ensures Block3(AdjointMap(x), 3, 0) == ZERO3
    ensures Block3(AdjointMap(x), 3, 3) == x.R
    ensures Column3(AdjointMap(x), 3, 6) == ZERO
    ensures AdjointMap(x)[6] == [0.0, 0.0, 0.0, 0.0, 0.0, 0.0, 1.0]
  {
    var adj := AdjointMap(x);
    var sr, a := MatScale(x.s, x.R), MatScale(x.s, MatMul(Skew(x.t), x.R));
    var st := Scale(-x.s, x.t);
    assert adj[0] == Seq3(sr.r0) + Seq3(a.r0) + [st.x];
    assert adj[1] == Seq3(sr.r1) + Seq3(a.r1) + [st.y];
    assert adj[2] == Seq3(sr.r2) + Seq3(a.r2) + [st.z];
    assert adj[3] == Seq3(ZERO) + Seq3(x.R.r0) + [0.0];
    assert adj[4] == Seq3(ZERO) + Seq3(x.R.r1) + [0.0];
    assert adj[5] == Seq3(ZERO) + Seq3(x.R.r2) + [0.0];
    assert Block3(adj, 0, 3) == a;
    forall u ensures MatVec(a, u) == Scale(x.s, Cross(x.t, MatVec(x.R, u))) {
      ScaledSkewBlock(x, u);
    }
  }

  /** AdjointMap() sends the stacked 7-vector [f; g; v] to
      [s R f + s t x (R g) - v s t; R g; v]: it keeps the last coordinate
      and rotates the middle block. Under conjugation in the group that
      operator* defines, f is the translation coordinate and g the rotation
      one, the reverse of the order in which H1 lays out its columns. */
  lemma AdjointMapApply(x: Similarity3, f: Vec3, g: Vec3, v: real)
    ensures Apply(AdjointMap(x), Seq3(f) + Seq3(g) + [v])
         == Seq3(Add(Add(Scale(x.s, MatVec(x.R, f)), Scale(x.s, Cross(x.t, MatVec(x.R, g)))), Scale(-v * x.s, x.t)))
            + Seq3(MatVec(x.R, g)) + [v]
  {
    var adj := AdjointMap(x);
    var sr, a := MatScale(x.s, x.R), MatScale(x.s, MatMul(Skew(x.t), x.R));
    var st := Scale(-x.s, x.t);
    var xi := Seq3(f) + Seq3(g) + [v];
    var top, mid, last := Band(sr, a, st), Band(ZERO3, x.R, ZERO), [Seq3(ZERO) + Seq3(ZERO) + [1.0]];
    AdjointMapBands(x);
    ApplyConcat(top + mid, last, xi);
    ApplyConcat(top, mid, xi);
    // rows 0-2
    ApplyBand(sr, a, st, f, g, v);
    var t0 := Add(Add(Scale(x.s, MatVec(x.R, f)), Scale(x.s, Cross(x.t, MatVec(x.R, g)))), Scale(-v * x.s, x.t));
    AdjointTopRows(x, f, g, v);
    // rows 3-5
    ApplyBand(ZERO3, x.R, ZERO, f, g, v);
    assert MatVec(ZERO3, f) == ZERO;
    assert Scale(v, ZERO) == ZERO;
    assert Add(Add(MatVec(ZERO3, f), MatVec(x.R, g)), Scale(v, ZERO)) == MatVec(x.R, g);
    // row 6
    DotN331(ZERO, ZERO, 1.0, f, g, v);
    assert Apply(last, xi) == [v];
    assert Apply(adj, xi) == Seq3(t0) + Seq3(MatVec(x.R, g)) + [v];
  }

  /** Rows 0-2 of the adjoint applied to (f, g, v). */
  lemma AdjointTopRows(x: Similarity3, f: Vec3, g: Vec3, v: real)
    ensures Add(Add(MatVec(MatScale(x.s, x.R), f), MatVec(MatScale(x.s, MatMul(Skew(x.t), x.R)), g)), Scale(v, Scale(-x.s, x.t)))
         == Add(Add(Scale(x.s, MatVec(x.R, f)), Scale(x.s, Cross(x.t, MatVec(x.R, g)))), Scale(-v * x.s, x.t))
  {
    MatScaleVec(x.s, x.R, f);
    ScaledSkewBlock(x, g);
    ScaleScaleNeg(v, x.s, x.t);
    assert A1: MatVec(MatScale(x.s, x.R), f) == Scale(x.s, MatVec(x.R, f));
    assert A2: MatVec(MatScale(x.s, MatMul(Skew(x.t), x.R)), g) == Scale(x.s, Cross(x.t, MatVec(x.R, g)));
    assert A3: Scale(v, Scale(-x.s, x.t)) == Scale(-v * x.s, x.t);
    AddCongruence(MatVec(MatScale(x.s, x.R), f), MatVec(MatScale(x.s, MatMul(Skew(x.t), x.R)), g), Scale(v, Scale(-x.s, x.t)),
                  Scale(x.s, MatVec(x.R, f)), Scale(x.s, Cross(x.t, MatVec(x.R, g))), Scale(-v * x.s, x.t));
  }

  /** The block s skew(t) R sends g to s t x (R g). */
  lemma ScaledSkewBlock(x: Similarity3, g: Vec3)
    ensures MatVec(MatScale(x.s, MatMul(Skew(x.t), x.R)), g) == Scale(x.s, Cross(x.t, MatVec(x.R, g)))
  {
    MatScaleVec(x.s, MatMul(Skew(x.t), x.R), g);
    MatVecMul(Skew(x.t), x.R, g);
  }

  lemma ApplyConcat(m: Matrix, n: Matrix, v: seq<real>)
    requires forall i :: 0 <= i < |m| ==> |m[i]| == |v|
    requires forall i :: 0 <= i < |n| ==> |n[i]| == |v|
    ensures Apply(m + n, v) == Apply(m, v) + Apply(n, v)
  {}

  /** The adjoint of identity() leaves every 7-vector where it is. The
      element is a parameter pinned by `requires e == Identity()` rather than
      the literal Identity(): with the literal, the solver unfolds the
      constant matrices into the scale arithmetic and runs out of resource. */
  lemma AdjointIdentity(e: Similarity3, f: Vec3, g: Vec3, v: real)
    requires e == Identity()
    ensures Apply(AdjointMap(e), Seq3(f) + Seq3(g) + [v]) == Seq3(f) + Seq3(g) + [v]
  {
    AdjointMapApply(e, f, g, v);
    IdentityAdjointTop(e, f, g, v);
  }

  /** The top and middle blocks of AdjointMapApply at identity(), with the
      element pinned as in AdjointIdentity for the same reason. */
  lemma IdentityAdjointTop(e: Similarity3, f: Vec3, g: Vec3, v: real)
    requires e == Identity()
    ensures Add(Add(Scale(e.s, MatVec(e.R, f)), Scale(e.s, Cross(e.t, MatVec(e.R, g)))), Scale(-v * e.s, e.t)) == f
    ensures MatVec(e.R, g) == g
  {
    MatVecIdentity(f);
    MatVecIdentity(g);
    assert Scale(e.s, MatVec(e.R, f)) == f;
    assert Scale(e.s, Cross(e.t, MatVec(e.R, g))) == ZERO;
    assert Scale(-v * e.s, e.t) == ZERO;
  }
}
