/** Fixed-size dense matrices (Matrix4, Matrix7, the 3x7 Jacobian) as rows of
    reals, with the block concatenations that Eigen's comma-initialiser
    performs. */
module Dense {
  import opened Linear

  type Matrix = seq<seq<real>>

  predicate IsShape(m: Matrix, rows: nat, cols: nat) {
    |m| == rows && forall i :: 0 <= i < rows ==> |m[i]| == cols
  }

  /** A 3-vector as a sequence of three reals. */
  function Seq3(v: Vec3): seq<real> {
    [v.x, v.y, v.z]
  }

  /** A 3x3 matrix as a 3x3 block. */
  function FromMat3(m: Mat3): (d: Matrix)
    ensures IsShape(d, 3, 3)
    ensures forall i :: 0 <= i < 3 ==> d[i] == Seq3(Row(m, i))
    ensures forall i, j :: 0 <= i < 3 && 0 <= j < 3 ==> d[i][j] == At(m, i, j)
  {
    [Seq3(m.r0), Seq3(m.r1), Seq3(m.r2)]
  }

  /** A 3-vector as a 3x1 column block. */
  function Column(v: Vec3): (d: Matrix)
    ensures IsShape(d, 3, 1)
    ensures forall i :: 0 <= i < 3 ==> d[i][0] == Comp(v, i)
  {
    [[v.x], [v.y], [v.z]]
  }

  function Zeros(rows: nat, cols: nat): (d: Matrix)
    ensures IsShape(d, rows, cols)
    ensures forall i, j :: 0 <= i < rows && 0 <= j < cols ==> d[i][j] == 0.0
  {
    seq(rows, _ => seq(cols, _ => 0.0))
  }

  /** [a | b]: the rows of a followed, column-wise, by the rows of b. */
  function HCat(a: Matrix, b: Matrix): (d: Matrix)
    requires |a| == |b|
    ensures |d| == |a|
    ensures forall i :: 0 <= i < |a| ==> d[i] == a[i] + b[i]
  {
    seq(|a|, i requires 0 <= i < |a| => a[i] + b[i])
  }

  /** The row-wise stacking of a over b. */
  function VCat(a: Matrix, b: Matrix): (d: Matrix)
    ensures |d| == |a| + |b|
    ensures forall i :: 0 <= i < |a| ==> d[i] == a[i]
    ensures forall i :: |a| <= i < |a| + |b| ==> d[i] == b[i - |a|]
  {
    a + b
  }

  function DotN(u: seq<real>, v: seq<real>): real
    requires |u| == |v|
  {
    if |u| == 0 then 0.0 else u[0] * v[0] + DotN(u[1..], v[1..])
  }

  lemma DotNSeq3(u: Vec3, v: Vec3)
    ensures DotN(Seq3(u), Seq3(v)) == Dot(u, v)
  {
    var a, b := Seq3(u), Seq3(v);
    assert a[1..] == [u.y, u.z] && b[1..] == [v.y, v.z];
    assert a[1..][1..] == [u.z] && b[1..][1..] == [v.z];
    assert DotN([u.z], [v.z]) == u.z * v.z + DotN([], []);
  }

  lemma DotNSingle(a: real, b: real)
    ensures DotN([a], [b]) == a * b
  {
    assert [a][1..] == [] && [b][1..] == [];
  }

  lemma {:induction false} DotNConcat(a: seq<real>, b: seq<real>, c: seq<real>, d: seq<real>)
    requires |a| == |c| && |b| == |d|
    ensures DotN(a + b, c + d) == DotN(a, c) + DotN(b, d)
  {
    if |a| > 0 {
      assert (a + b)[1..] == a[1..] + b;
      assert (c + d)[1..] == c[1..] + d;
      DotNConcat(a[1..], b, c[1..], d);
    } else {
      assert a + b == b && c + d == d;
    }
  }

  /** A row of three, three and one entries against a vector laid out the
      same way. */
  lemma DotN331(d: Vec3, e: Vec3, c: real, w: Vec3, u: Vec3, v: real)
    ensures DotN(Seq3(d) + Seq3(e) + [c], Seq3(w) + Seq3(u) + [v]) == Dot(d, w) + Dot(e, u) + c * v
  {
    DotNConcat(Seq3(d) + Seq3(e), [c], Seq3(w) + Seq3(u), [v]);
    DotNConcat(Seq3(d), Seq3(e), Seq3(w), Seq3(u));
    DotNSeq3(d, w);
    DotNSeq3(e, u);
    DotNSingle(c, v);
  }

  /** The product of a matrix with a column vector. */
  function Apply(m: Matrix, v: seq<real>): (w: seq<real>)
    requires forall i :: 0 <= i < |m| ==> |m[i]| == |v|
    ensures |w| == |m|
    ensures forall i :: 0 <= i < |m| ==> w[i] == DotN(m[i], v)
  {
    seq(|m|, i requires 0 <= i < |m| => DotN(m[i], v))
  }

  /** The 3x7 band [A | B | c]. */
  function Band(a: Mat3, b: Mat3, c: Vec3): (d: Matrix)
    ensures IsShape(d, 3, 7)
  {
    [Seq3(a.r0) + Seq3(b.r0) + [c.x], Seq3(a.r1) + Seq3(b.r1) + [c.y], Seq3(a.r2) + Seq3(b.r2) + [c.z]]
  }

  /** [A | B | c] applied to the stacked vector [w; u; v] is A w + B u + v c. */
  lemma ApplyBand(a: Mat3, b: Mat3, c: Vec3, w: Vec3, u: Vec3, v: real)
    ensures Apply(Band(a, b, c), Seq3(w) + Seq3(u) + [v]) == Seq3(Add(Add(MatVec(a, w), MatVec(b, u)), Scale(v, c)))
  {
    var d := Band(a, b, c);
    var r := Add(Add(MatVec(a, w), MatVec(b, u)), Scale(v, c));
    var lhs := Apply(d, Seq3(w) + Seq3(u) + [v]);
    DotN331(a.r0, b.r0, c.x, w, u, v);
    DotN331(a.r1, b.r1, c.y, w, u, v);
    DotN331(a.r2, b.r2, c.z, w, u, v);
    assert lhs[0] == r.x;
    assert lhs[1] == r.y;
    assert lhs[2] == r.z;
  }

  /** The 3x3 block of m whose top-left entry is m[r][c]. */
  function Block3(m: Matrix, r: nat, c: nat): Mat3
    requires r + 3 <= |m| && forall i :: r <= i < r + 3 ==> c + 3 <= |m[i]|
  {
    Mat3(Vec3(m[r][c], m[r][c + 1], m[r][c + 2]),
         Vec3(m[r + 1][c], m[r + 1][c + 1], m[r + 1][c + 2]),
         Vec3(m[r + 2][c], m[r + 2][c + 1], m[r + 2][c + 2]))
  }

  /** The 3x1 block of m whose top entry is m[r][c]. */
  function Column3(m: Matrix, r: nat, c: nat): Vec3
    requires r + 3 <= |m| && forall i :: r <= i < r + 3 ==> c < |m[i]|
  {
    Vec3(m[r][c], m[r + 1][c], m[r + 2][c])
  }

  /** The last column of the band [A | B | c] is c. */
  lemma BandColumn(a: Mat3, b: Mat3, c: Vec3)
    ensures Column3(Band(a, b, c), 0, 6) == c
  {}
}
