/** The group laws of Similarity3 under operator* and inverse(). */
module Sim3Group {
  import opened Linear
  import opened Sim3

  /** identity() is a right unit: x * identity() == x. */
  lemma ComposeIdentityRight(x: Similarity3)
    ensures Compose(x, Identity()) == x
  {
    MatMulIdentity(x.R);
    MatVecZero(x.R);
  }

  /** identity() is a left unit: identity() * x == x. */
  lemma ComposeIdentityLeft(x: Similarity3)
    requires x.s != 0.0
    ensures Compose(Identity(), x) == x
  {
    MatMulIdentity(x.R);
    MatVecIdentity(x.t);
  }

  /** operator* is associative. */
  lemma ComposeAssoc(a: Similarity3, b: Similarity3, c: Similarity3)
    requires b.s != 0.0 && c.s != 0.0
    ensures Compose(Compose(a, b), c) == Compose(a, Compose(b, c))
  {
    MatMulAssoc(a.R, b.R, c.R);
    var k, l := 1.0 / c.s, 1.0 / b.s;
    ReciprocalMul(b.s, c.s);
    assert 1.0 / (b.s * c.s) == k * l;
    var u, v, w := Scale(k * l, a.t), Scale(k, MatVec(a.R, b.t)), MatVec(a.R, MatVec(b.R, c.t));
    calc {
      Compose(Compose(a, b), c).t;
      Add(Scale(k, Add(Scale(l, a.t), MatVec(a.R, b.t))), MatVec(MatMul(a.R, b.R), c.t));
      { ScaleAdd(k, Scale(l, a.t), MatVec(a.R, b.t));
        ScaleScale(k, l, a.t);
        MatVecMul(a.R, b.R, c.t); }
      Add(Add(u, v), w);
      Add(u, Add(v, w));
      { MatVecAdd(a.R, Scale(k, b.t), MatVec(b.R, c.t));
        MatVecScale(a.R, k, b.t); }
      Add(Scale(1.0 / (b.s * c.s), a.t), MatVec(a.R, Add(Scale(k, b.t), MatVec(b.R, c.t))));
      Compose(a, Compose(b, c)).t;
    }
    var lhs, rhs := Compose(Compose(a, b), c), Compose(a, Compose(b, c));
    ComposeAssocScale(a, b, c);
    assert lhs.R == rhs.R;
    SameParts(lhs, rhs);
  }

  /** Both bracketings of a * b * c have the scale s_A s_B s_C. */
  lemma ComposeAssocScale(a: Similarity3, b: Similarity3, c: Similarity3)
    requires b.s != 0.0 && c.s != 0.0
    ensures Compose(Compose(a, b), c).s == Compose(a, Compose(b, c)).s
  {
    ComposeScale(Compose(a, b), c);
    ComposeScale(a, b);
    ComposeScale(a, Compose(b, c));
    ComposeScale(b, c);
    MulAssoc(a.s, b.s, c.s);
  }

  /** Elements with the same rotation, translation and scale are equal.
      Stated separately so that ComposeAssoc closes on the three component
      facts alone, without the solver re-expanding Compose. */
  lemma SameParts(x: Similarity3, y: Similarity3)
    requires x.R == y.R && x.t == y.t && x.s == y.s
    ensures x == y
  {}

  /** The scale of a product is the product of the scales. */
  lemma ComposeScale(a: Similarity3, b: Similarity3)
    requires b.s != 0.0
    ensures Compose(a, b).s == a.s * b.s
  {}

  /** x * inverse(x) == identity() for an orthonormal rotation and s != 0. */
  lemma ComposeInverseRight(x: Similarity3)
    requires x.s != 0.0 && MatMul(x.R, Transpose(x.R)) == IDENTITY
    ensures Compose(x, Inverse(x)) == Identity()
  {
    var y := Inverse(x);
    var rt := Transpose(x.R);
    // x.R * (R^T (-s t)) == -s t
    MatVecMul(x.R, rt, Scale(-x.s, x.t));
    MatVecIdentity(Scale(-x.s, x.t));
    assert 1.0 / y.s == x.s;
    assert x.s * y.s == 1.0;
  }

  /** inverse(x) * x == identity() for an orthonormal rotation and s != 0. */
  lemma ComposeInverseLeft(x: Similarity3)
    requires x.s != 0.0 && MatMul(Transpose(x.R), x.R) == IDENTITY
    ensures Compose(Inverse(x), x) == Identity()
  {
    var y := Inverse(x);
    var rt := Transpose(x.R);
    // (1/s) R^T (-s t) + R^T t == 0
    MatVecScale(rt, -x.s, x.t);
    ScaleScale(1.0 / x.s, -x.s, MatVec(rt, x.t));
    assert (1.0 / x.s) * -x.s == -1.0;
  }

  /** inverse() is an involution. */
  lemma InverseInvolution(x: Similarity3)
    requires x.s != 0.0 && MatMul(x.R, Transpose(x.R)) == IDENTITY
    ensures Inverse(Inverse(x)) == x
  {
    var y := Inverse(x);
    var rt := Transpose(x.R);
    TransposeTranspose(x.R);
    // R (-(1/s) R^T (-s t)) == t
    MatVecScale(rt, -x.s, x.t);
    ScaleScale(-y.s, -x.s, MatVec(rt, x.t));
    assert -y.s * -x.s == 1.0;
    MatVecMul(x.R, rt, x.t);
    MatVecIdentity(x.t);
    assert 1.0 / y.s == x.s;
  }

  /** The products of valid elements are valid. */
  lemma ComposeValid(a: Similarity3, b: Similarity3)
    requires Valid(a) && Valid(b)
    ensures Valid(Compose(a, b))
  {
    RotationMul(a.R, b.R);
  }

  /** The inverse of a valid element is valid. */
  lemma InverseValid(x: Similarity3)
    requires Valid(x)
    ensures Valid(Inverse(x))
  {
    RotationTranspose(x.R);
  }

  /** operator* is composition of the maps p -> s (R p + t): applying a * b
      is applying b, then a. */
  lemma {:induction false} ComposeGroupAct(a: Similarity3, b: Similarity3, p: Vec3)
    requires b.s != 0.0
    ensures GroupAct(Compose(a, b), p) == GroupAct(a, GroupAct(b, p))
  {
    var q := Add(MatVec(b.R, p), b.t);
    // both sides are a.s b.s a.R q + a.s a.t
    calc {
      GroupAct(a, GroupAct(b, p));
      Scale(a.s, Add(MatVec(a.R, Scale(b.s, q)), a.t));
      { MatVecScale(a.R, b.s, q); }
      Scale(a.s, Add(Scale(b.s, MatVec(a.R, q)), a.t));
      { ScaleAdd(a.s, Scale(b.s, MatVec(a.R, q)), a.t);
        ScaleScale(a.s, b.s, MatVec(a.R, q)); }
      Add(Scale(a.s * b.s, MatVec(a.R, q)), Scale(a.s, a.t));
    }
    var k := 1.0 / b.s;
    var ab := Compose(a, b);
    assert ab == Similarity3(MatMul(a.R, b.R), Add(Scale(k, a.t), MatVec(a.R, b.t)), a.s * b.s);
    calc {
      GroupAct(ab, p);
      Scale(a.s * b.s, Add(MatVec(MatMul(a.R, b.R), p), Add(Scale(k, a.t), MatVec(a.R, b.t))));
      { ComposedPoint(a, b, p, k); }
      Scale(a.s * b.s, Add(MatVec(a.R, q), Scale(k, a.t)));
      { ScaleAdd(a.s * b.s, MatVec(a.R, q), Scale(k, a.t)); }
      Add(Scale(a.s * b.s, MatVec(a.R, q)), Scale(a.s * b.s, Scale(k, a.t)));
      { ScaleCancel(a.s, b.s, a.t); }
      Add(Scale(a.s * b.s, MatVec(a.R, q)), Scale(a.s, a.t));
    }
  }

  /** R_A R_B p + (k t_A + R_A t_B) == R_A (R_B p + t_B) + k t_A. */
  lemma ComposedPoint(a: Similarity3, b: Similarity3, p: Vec3, k: real)
    ensures Add(MatVec(MatMul(a.R, b.R), p), Add(Scale(k, a.t), MatVec(a.R, b.t)))
         == Add(MatVec(a.R, Add(MatVec(b.R, p), b.t)), Scale(k, a.t))
  {
    MatVecMul(a.R, b.R, p);
    MatVecAdd(a.R, MatVec(b.R, p), b.t);
  }

  /** inverse() undoes the group action of an element with an orthonormal
      rotation and a non-zero scale. */
  lemma InverseUndoesGroupAct(x: Similarity3, p: Vec3)
    requires x.s != 0.0 && MatMul(Transpose(x.R), x.R) == IDENTITY
    ensures GroupAct(Inverse(x), GroupAct(x, p)) == p
  {
    ComposeGroupAct(Inverse(x), x, p);
    ComposeInverseLeft(x);
    MatVecIdentity(p);
  }

  /** The scale-only constructor is a pure scaling about the origin. */
  lemma FromScaleAct(s: real, p: Vec3)
    ensures Act(FromScale(s), p) == Scale(s, p)
  {
    MatVecIdentity(p);
  }

  /** The inverse of a pure scaling by s is the pure scaling by 1/s. */
  lemma FromScaleInverse(s: real)
    requires s != 0.0
    ensures Inverse(FromScale(s)) == FromScale(1.0 / s)
  {
    MatVecZero(IDENTITY);
  }
}
