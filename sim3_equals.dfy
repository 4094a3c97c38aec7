/** What equals(sim, tol) means: rotation entries and translation
    components within tol of each other, and the scales strictly closer
    than tol. */
module Sim3Equals {
  import opened Linear
  import opened Sim3

  /** equals is a componentwise distance check whose scale band is open. */
  lemma EqualsMeaning(x: Similarity3, y: Similarity3, tol: real)
    ensures Equals(x, y, tol) <==> MatClose(x.R, y.R, tol) && VecClose(x.t, y.t, tol) && Abs(x.s - y.s) < tol
  {}

  /** An element equals itself exactly for positive tolerances: with tol = 0
      the open scale band is empty, so equals(x, 0) is false even for x. */
  lemma EqualsReflexive(x: Similarity3, tol: real)
    ensures Equals(x, x, tol) <==> tol > 0.0
  {}

  lemma EqualsSymmetric(x: Similarity3, y: Similarity3, tol: real)
    ensures Equals(x, y, tol) <==> Equals(y, x, tol)
  {}

  /** A larger tolerance accepts everything a smaller one does. */
  lemma EqualsWiden(x: Similarity3, y: Similarity3, tol: real, tol': real)
    requires tol <= tol' && Equals(x, y, tol)
    ensures Equals(x, y, tol')
  {}

  /** Two elements that are equal under every positive tolerance are the
      same element. */
  lemma EqualsEveryTolerance(x: Similarity3, y: Similarity3)
    requires forall tol :: tol > 0.0 ==> Equals(x, y, tol)
    ensures x == y
  {
    // Sum of all thirteen distances; a thirteenth of it is a tolerance
    // that no non-zero sum can meet.
    var d := Dist(x.R.r0, y.R.r0) + Dist(x.R.r1, y.R.r1) + Dist(x.R.r2, y.R.r2)
           + Dist(x.t, y.t) + Abs(x.s - y.s);
    assert d / 13.0 > 0.0 ==> Equals(x, y, d / 13.0);
    assert d == 0.0;
  }

  /** Sum of the componentwise distances of two vectors. */
  function Dist(u: Vec3, v: Vec3): (d: real)
    ensures d >= 0.0
    ensures d == 0.0 <==> u == v
    ensures forall tol :: VecClose(u, v, tol) ==> d <= 3.0 * tol
  {
    Abs(u.x - v.x) + Abs(u.y - v.y) + Abs(u.z - v.z)
  }
}
