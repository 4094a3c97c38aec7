/** What transform_from, its two Jacobians and matrix() promise about each
    other: the point agrees with the 4x4 matrix on homogeneous coordinates,
    H2 is the top-left block of that matrix and the exact derivative in the
    point. Under the move Perturb, the corrected H1 (scale column H2 p) is
    the first-order coefficient of transform_from; H1 as written misses the
    first-order term v (s - 1) R p. */
module Sim3Action {
  import opened Linear
  import opened Dense
  import opened Sim3

  /** transform_from(p) is the first three rows of matrix() * [p; 1], and
      the last row of that product is 1. */
  lemma TransformFromMatchesMatrix(x: Similarity3, p: Vec3)
    ensures Apply(HomogeneousMatrix(x), Seq3(p) + [1.0]) == Seq3(Act(x, p)) + [1.0]
  {
    var m := HomogeneousMatrix(x);
    var sr := MatScale(x.s, x.R);
    var v := Seq3(p) + [1.0];
    var w := Apply(m, v);
    var q := Act(x, p);
    MatScaleVec(x.s, x.R, p);
    assert MatVec(sr, p) == Scale(x.s, MatVec(x.R, p));
    forall i | 0 <= i < 3
      ensures w[i] == Comp(q, i)
    {
      assert m[i] == Seq3(Row(sr, i)) + [Comp(x.t, i)];
      DotNConcat(Seq3(Row(sr, i)), [Comp(x.t, i)], Seq3(p), [1.0]);
      DotNSeq3(Row(sr, i), p);
      DotNSingle(Comp(x.t, i), 1.0);
    }
    assert m[3] == [0.0, 0.0, 0.0] + [1.0];
    DotNConcat([0.0, 0.0, 0.0], [1.0], Seq3(p), [1.0]);
    DotNSeq3(ZERO, p);
    DotNSingle(1.0, 1.0);
    assert w == Seq3(q) + [1.0];
  }

  /** The origin is sent to the translation. */
  lemma OriginMapsToTranslation(x: Similarity3)
    ensures Act(x, ZERO) == x.t
  {
    MatVecZero(x.R);
  }

  /** transform_from and the action p -> s (R p + t) that operator* composes
      send a point to the same place exactly when s = 1 or t = 0: they
      differ by (s - 1) t. */
  lemma GroupActAgreesWithAct(x: Similarity3, p: Vec3)
    ensures GroupAct(x, p) == Act(x, p) <==> x.s == 1.0 || x.t == ZERO
  {
    var rp := MatVec(x.R, p);
    ScaleAdd(x.s, rp, x.t);
    ScaleDiff(x.s, 1.0, x.t);
    assert Scale(1.0, x.t) == x.t;
    if x.s != 1.0 && x.t != ZERO {
      ScaleNonZero(x.s - 1.0, x.t);
    }
  }

  /** Asking for either Jacobian never changes the point that comes back. */
  lemma JacobiansDoNotChangePoint(x: Similarity3, p: Vec3, wantH1: bool, wantH2: bool)
    ensures TransformFrom(x, p, wantH1, wantH2).point == Act(x, p)
  {}

  /** matrix() is [[s R, t], [0, 0, 0, 1]]; its top-left 3x3 block is H2. */
  lemma MatrixLayout(x: Similarity3)
    ensures Block3(HomogeneousMatrix(x), 0, 0) == MatScale(x.s, x.R)
    ensures Block3(HomogeneousMatrix(x), 0, 0) == JacobianWrtPoint(x)
    ensures Column3(HomogeneousMatrix(x), 0, 3) == x.t
    ensures HomogeneousMatrix(x)[3] == [0.0, 0.0, 0.0, 1.0]
  {
    var m := HomogeneousMatrix(x);
    var sr := MatScale(x.s, x.R);
    assert m[0] == Seq3(sr.r0) + [x.t.x];
    assert m[1] == Seq3(sr.r1) + [x.t.y];
    assert m[2] == Seq3(sr.r2) + [x.t.z];
  }

  /** H2 is the exact derivative of transform_from in the point: moving the
      point by d moves the image by H2 d. */
  lemma PointJacobianExact(x: Similarity3, p: Vec3, d: Vec3)
    ensures Act(x, Add(p, d)) == Add(Act(x, p), MatVec(JacobianWrtPoint(x), d))
  {
    MatVecAdd(x.R, p, d);
    ScaleAdd(x.s, MatVec(x.R, p), MatVec(x.R, d));
    MatScaleVec(x.s, x.R, d);
  }

  /** H1 = [s R skew(-p) | R | R p]: the rotation block sends w to
      s R (w x p), then come R and the column R p. */
  lemma TransformJacobianLayout(x: Similarity3, p: Vec3)
    ensures forall w :: MatVec(Block3(JacobianWrtTransform(x, p), 0, 0), w) == Scale(x.s, MatVec(x.R, Cross(w, p)))
    ensures Block3(JacobianWrtTransform(x, p), 0, 3) == x.R
    ensures Column3(JacobianWrtTransform(x, p), 0, 6) == MatVec(x.R, p)
  {
    var h := JacobianWrtTransform(x, p);
    var dr := MatMul(MatScale(x.s, x.R), Skew(Neg(p)));
    var rp := MatVec(x.R, p);
    assert h[0] == Seq3(dr.r0) + Seq3(x.R.r0) + [rp.x];
    assert h[1] == Seq3(dr.r1) + Seq3(x.R.r1) + [rp.y];
    assert h[2] == Seq3(dr.r2) + Seq3(x.R.r2) + [rp.z];
    assert Block3(h, 0, 0) == dr;
    forall w ensures MatVec(dr, w) == Scale(x.s, MatVec(x.R, Cross(w, p))) {
      MatVecMul(MatScale(x.s, x.R), Skew(Neg(p)), w);
      assert Cross(Neg(p), w) == Cross(w, p);
      MatScaleVec(x.s, x.R, Cross(w, p));
    }
  }

  /** The transform moved by the tangent vector [w; u; v]: rotation and
      translation as in the product x * (I + skew(w), u, 1), that is
      R (I + skew(w)) and t + R u, and the scale multiplied by 1 + v, the
      scale change that the derivation beside transform_from applies. */
  function Perturb(x: Similarity3, w: Vec3, u: Vec3, v: real): Similarity3 {
    Similarity3(MatMul(x.R, Add3(IDENTITY, Skew(w))), Add(x.t, MatVec(x.R, u)), x.s * (1.0 + v))
  }

  function Add3(a: Mat3, b: Mat3): (c: Mat3)
    ensures forall p :: MatVec(c, p) == Add(MatVec(a, p), MatVec(b, p))
  {
    Mat3(Add(a.r0, b.r0), Add(a.r1, b.r1), Add(a.r2, b.r2))
  }

  /** H1 applied to (w, u, v) is s R (w x p) + R u + v R p. */
  lemma TransformJacobianApply(x: Similarity3, p: Vec3, w: Vec3, u: Vec3, v: real)
    ensures Apply(JacobianWrtTransform(x, p), Tangent(w, u, v))
         == Seq3(Add(Add(Scale(x.s, MatVec(x.R, Cross(w, p))), MatVec(x.R, u)), Scale(v, MatVec(x.R, p))))
  {
    var dr := MatMul(MatScale(x.s, x.R), Skew(Neg(p)));
    TransformJacobianLayout(x, p);
    assert JacobianWrtTransform(x, p) == Band(dr, x.R, MatVec(x.R, p));
    ApplyBand(dr, x.R, MatVec(x.R, p), w, u, v);
  }

  /** transform_from at the moved transform, term by term: the point, the
      rotation term s R (w x p), the translation term R u, the scale term
      v s R p and the second-order term v s R (w x p). */
  lemma PerturbExpand(x: Similarity3, p: Vec3, w: Vec3, u: Vec3, v: real)
    ensures Act(Perturb(x, w, u, v), p)
         == Add(Add(Add(Act(x, p), Add(Scale(x.s, MatVec(x.R, Cross(w, p))), MatVec(x.R, u))),
                    Scale(v, MatVec(JacobianWrtPoint(x), p))),
                Scale(v * x.s, MatVec(x.R, Cross(w, p))))
  {
    var rp, rc, ru := MatVec(x.R, p), MatVec(x.R, Cross(w, p)), MatVec(x.R, u);
    var y := Perturb(x, w, u, v);
    var vs := v * x.s;
    // (R (I + skew(w))) p == R p + R (w x p)
    calc {
      MatVec(y.R, p);
      { MatVecMul(x.R, Add3(IDENTITY, Skew(w)), p); }
      MatVec(x.R, Add(MatVec(IDENTITY, p), MatVec(Skew(w), p)));
      { MatVecIdentity(p); MatVecAdd(x.R, p, Cross(w, p)); }
      Add(rp, rc);
    }
    assert y.s == x.s * (1.0 + v);
    assert y.s == x.s + vs;
    calc {
      Act(y, p);
      Add(Scale(y.s, Add(rp, rc)), Add(x.t, ru));
      { ScaleSum(x.s, vs, Add(rp, rc)); }
      Add(Add(Scale(x.s, Add(rp, rc)), Scale(vs, Add(rp, rc))), Add(x.t, ru));
      { ScaleAdd(x.s, rp, rc); ScaleAdd(vs, rp, rc); }
      Add(Add(Add(Scale(x.s, rp), Scale(x.s, rc)), Add(Scale(vs, rp), Scale(vs, rc))), Add(x.t, ru));
      Add(Add(Add(Add(Scale(x.s, rp), x.t), Add(Scale(x.s, rc), ru)), Scale(vs, rp)), Scale(vs, rc));
    }
    ScaledPointJacobian(x, p, v);
  }

  /** v H2 p is v s R p. */
  lemma ScaledPointJacobian(x: Similarity3, p: Vec3, v: real)
    ensures Scale(v, MatVec(JacobianWrtPoint(x), p)) == Scale(v * x.s, MatVec(x.R, p))
  {
    var rp := MatVec(x.R, p);
    calc {
      Scale(v, MatVec(JacobianWrtPoint(x), p));
      Scale(v, MatVec(MatScale(x.s, x.R), p));
      { MatScaleVec(x.s, x.R, p); }
      Scale(v, Scale(x.s, rp));
      { ScaleScale(v, x.s, rp); }
      Scale(v * x.s, rp);
    }
  }

  /** The corrected H1, [s R skew(-p) | R | s R p]: its scale column is H2 p,
      the derivative of transform_from in the scale direction of Perturb. */
  function CorrectedJacobianWrtTransform(x: Similarity3, p: Vec3): (h: Matrix)
    ensures IsShape(h, 3, 7)
  {
    Band(MatMul(MatScale(x.s, x.R), Skew(Neg(p))), x.R, MatVec(JacobianWrtPoint(x), p))
  }

  /** The corrected H1 is the first-order part of transform_from under
      Perturb: the only term it leaves out is v s R (w x p), of second order
      in (w, v). */
  lemma CorrectedJacobianFirstOrder(x: Similarity3, p: Vec3, w: Vec3, u: Vec3, v: real)
    ensures var h := Apply(CorrectedJacobianWrtTransform(x, p), Tangent(w, u, v));
      Act(Perturb(x, w, u, v), p)
        == Add(Add(Act(x, p), Vec3(h[0], h[1], h[2])), Scale(v * x.s, MatVec(x.R, Cross(w, p))))
  {
    var dr := MatMul(MatScale(x.s, x.R), Skew(Neg(p)));
    var sp := MatVec(JacobianWrtPoint(x), p);
    TransformJacobianLayout(x, p);
    ApplyBand(dr, x.R, sp, w, u, v);
    assert MatVec(dr, w) == Scale(x.s, MatVec(x.R, Cross(w, p)));
    PerturbExpand(x, p, w, u, v);
  }

  /** H1 as written is not the first-order part of transform_from under
      Perturb: besides the second-order term it leaves out the first-order
      term v (s - 1) R p, because its scale column is R p where the
      derivative is s R p. */
  lemma TransformJacobianFirstOrder(x: Similarity3, p: Vec3, w: Vec3, u: Vec3, v: real)
    ensures var h := Apply(JacobianWrtTransform(x, p), Tangent(w, u, v));
      Act(Perturb(x, w, u, v), p)
        == Add(Add(Add(Act(x, p), Vec3(h[0], h[1], h[2])), Scale(v * (x.s - 1.0), MatVec(x.R, p))),
               Scale(v * x.s, MatVec(x.R, Cross(w, p))))
  {
    var rp, rc, ru := MatVec(x.R, p), MatVec(x.R, Cross(w, p)), MatVec(x.R, u);
    var h := Apply(JacobianWrtTransform(x, p), Tangent(w, u, v));
    TransformJacobianApply(x, p, w, u, v);
    assert Vec3(h[0], h[1], h[2]) == Add(Add(Scale(x.s, rc), ru), Scale(v, rp));
    PerturbExpand(x, p, w, u, v);
    ScaledPointJacobian(x, p, v);
    // v s R p == v R p + v (s - 1) R p
    assert v * x.s == v + v * (x.s - 1.0);
    ScaleSum(v, v * (x.s - 1.0), rp);
  }

  /** The scale column of H1 differs from the derivative it should hold
      whenever the scale is not one and R p is not zero. */
  lemma TransformJacobianScaleColumn(x: Similarity3, p: Vec3)
    requires x.s != 1.0 && MatVec(x.R, p) != ZERO
    ensures Column3(JacobianWrtTransform(x, p), 0, 6) == MatVec(x.R, p)
    ensures Column3(CorrectedJacobianWrtTransform(x, p), 0, 6) == Scale(x.s, MatVec(x.R, p))
    ensures Column3(JacobianWrtTransform(x, p), 0, 6) != Column3(CorrectedJacobianWrtTransform(x, p), 0, 6)
  {
    var rp := MatVec(x.R, p);
    TransformJacobianLayout(x, p);
    MatScaleVec(x.s, x.R, p);
    BandColumn(MatMul(MatScale(x.s, x.R), Skew(Neg(p))), x.R, MatVec(JacobianWrtPoint(x), p));
    ScaleNonZero(x.s - 1.0, rp);
    ScaleDiff(x.s, 1.0, rp);
    assert Scale(1.0, rp) == rp;
    assert Scale(x.s, rp) == rp ==> Scale(x.s - 1.0, rp) == ZERO;
  }

  /** transform_from does not compose the way operator* does: applying b
      and then a differs from applying a * b by (a.s - 1) a.R b.t +
      (1 - 1/b.s) a.t, which vanishes when both scales are one. */
  lemma TransformFromComposeGap(a: Similarity3, b: Similarity3, p: Vec3)
    requires b.s != 0.0
    ensures Act(a, Act(b, p)) == Add(Act(Compose(a, b), p), Add(Scale(a.s - 1.0, MatVec(a.R, b.t)), Scale(1.0 - 1.0 / b.s, a.t)))
    ensures a.s == 1.0 && b.s == 1.0 ==> Act(a, Act(b, p)) == Act(Compose(a, b), p)
  {
    var k := 1.0 / b.s;
    var v := MatVec(a.R, b.t);
    ActAct(a, b, p);
    ActCompose(a, b, p);
    ScaleDiff(a.s, 1.0, v);
    ScaleDiff(1.0, k, a.t);
  }

  /** Applying b and then a, multiplied out. */
  lemma ActAct(a: Similarity3, b: Similarity3, p: Vec3)
    ensures Act(a, Act(b, p)) == Add(Add(Scale(a.s * b.s, MatVec(a.R, MatVec(b.R, p))), Scale(a.s, MatVec(a.R, b.t))), a.t)
  {
    var m, v := MatVec(a.R, MatVec(b.R, p)), MatVec(a.R, b.t);
    calc {
      Act(a, Act(b, p));
      Add(Scale(a.s, MatVec(a.R, Add(Scale(b.s, MatVec(b.R, p)), b.t))), a.t);
      { MatVecAdd(a.R, Scale(b.s, MatVec(b.R, p)), b.t);
        MatVecScale(a.R, b.s, MatVec(b.R, p)); }
      Add(Scale(a.s, Add(Scale(b.s, m), v)), a.t);
      { ScaleAdd(a.s, Scale(b.s, m), v);
        ScaleScale(a.s, b.s, m); }
      Add(Add(Scale(a.s * b.s, m), Scale(a.s, v)), a.t);
    }
  }

  /** Applying a * b, multiplied out. */
  lemma ActCompose(a: Similarity3, b: Similarity3, p: Vec3)
    requires b.s != 0.0
    ensures Act(Compose(a, b), p) == Add(Scale(a.s * b.s, MatVec(a.R, MatVec(b.R, p))), Add(Scale(1.0 / b.s, a.t), MatVec(a.R, b.t)))
  {
    var ab := Compose(a, b);
    assert ab.R == MatMul(a.R, b.R) && ab.s == a.s * b.s;
    MatVecMul(a.R, b.R, p);
  }

  /** The gap is real: whenever the outer transform has an orthonormal
      rotation and a scale other than one, and the inner one has unit scale
      and a non-zero translation, transform_from of the product differs from
      transform_from applied twice, at every point. */
  lemma TransformFromNotComposition(a: Similarity3, b: Similarity3, p: Vec3)
    requires MatMul(Transpose(a.R), a.R) == IDENTITY && a.s != 1.0
    requires b.s == 1.0 && b.t != ZERO
    ensures Act(a, Act(b, p)) != Act(Compose(a, b), p)
  {
    var v := MatVec(a.R, b.t);
    TransformFromComposeGap(a, b, p);
    assert Scale(1.0 - 1.0 / b.s, a.t) == ZERO;
    LeftInvertibleNoKernel(a.R, b.t);
    ScaleNonZero(a.s - 1.0, v);
    assert Add(Scale(a.s - 1.0, v), ZERO) != ZERO;
    if Act(a, Act(b, p)) == Act(Compose(a, b), p) {
      AddCancel(Act(Compose(a, b), p), Add(Scale(a.s - 1.0, v), Scale(1.0 - 1.0 / b.s, a.t)));
    }
  }
}
