# Similarity3 in Dafny

A model of the `Similarity3` value type of GTSAM's unstable geometry module
(`gtsam_unstable/geometry/Similarity3.cpp`). An element of Sim(3) is a triple
(R, t, s): a 3x3 rotation, a 3-vector translation and a scalar scale. The
model covers the constructors, `identity`, the product `operator*`,
`inverse`, the point action `transform_from` / `operator*(Point3)` with its
two optional Jacobians, `AdjointMap`, `matrix()`, the conversion to `Pose3`
and the tolerance comparison `equals`. Arithmetic is exact: every `double`
is a Dafny `real`.

Modules:

- `Linear` (`linear.dfy`): 3-vectors and 3x3 matrices, the skew-symmetric
  matrix of a vector (`skew(a, b, c) = [[0, -c, b], [c, 0, -a], [-b, a, 0]]`,
  whose product with u is the cross product), and orthonormality of a
  rotation. `Rot3` is represented by its matrix, and its `inverse()` by the
  transpose.
- `Dense` (`dense.dfy`): row-major dense matrices as `seq<seq<real>>`, with
  the horizontal and vertical concatenation that Eigen's comma initialiser
  performs, and matrix-vector products on them.
- `Sim3` (`similarity3.dfy`): the value type and its operations.
- `Sim3Group` (`group_laws.dfy`): the group laws of `operator*` and
  `inverse()`.
- `Sim3Action` (`sim3_action.dfy`): `transform_from`, its Jacobians and
  `matrix()` against each other.
- `Sim3Adjoint` (`sim3_adjoint.dfy`): the block structure of `AdjointMap`
  and its action on a 7-vector [f; g; v]. Read as the adjoint of the group
  that `operator*` defines, f is the translation coordinate and g the
  rotation one. That is the reverse of the column order of H1.
- `Sim3Equals` (`sim3_equals.dfy`): what `equals` with a tolerance means.

The two component constructors (from a `Rot3` and from a `Matrix3`) store
their arguments unchanged. Both are the datatype constructor
`Similarity3(R, t, s)`. Neither checks that R is a rotation. The predicate
`Sim3.Valid` states that an element is well formed: R is orthonormal and s
is non-zero.

`operator*` and `inverse()` form a group, but not under the point action
`transform_from`. The product formula t_C = (1/s_B) t_A + R_A t_B composes
the maps p -> s (R p + t), written `Sim3.GroupAct` here. Those maps are the
matrices [[R, t], [0, 1/s]] with the last coordinate divided out.
`transform_from` is p -> s R p + t, which is the matrix [[s R, t], [0, 1]]
of `matrix()`. At any point, the two maps agree exactly when s = 1 or t = 0. The model proves the
group laws for `GroupAct` and gives the exact gap for `transform_from`.

## Model

| member | source | states |
|---|---|---|
| Sim3.Default | gtsam_unstable/geometry/Similarity3.cpp:25-27 | The default element has R = I, t = 0 and s = 1, so the map p -> s (R p + t) fixes every point. |
| Sim3.FromScale | gtsam_unstable/geometry/Similarity3.cpp:29-31 | The scale-only constructor leaves R and t default-constructed (I and 0) and stores s. |
| Sim3Group.FromScaleAct | gtsam_unstable/geometry/Similarity3.cpp:29-31 | transform_from of the scale-only element sends p to s p, a pure scaling about the origin. |
| Sim3Group.FromScaleInverse | gtsam_unstable/geometry/Similarity3.cpp:65-69 | The inverse of the scaling by s (s non-zero) is the scaling by 1/s. |
| Sim3.Identity | gtsam_unstable/geometry/Similarity3.cpp:58-60 | identity() has R = I, t = 0 and s = 1, and transform_from with it returns every point unchanged. |
| Sim3.Compose | gtsam_unstable/geometry/Similarity3.cpp:61-63 | The product's rotation is R_A R_B and its scale is s_A s_B. The translation and the meaning of the product are stated by the Sim3Group rows: unit, associativity, inverses and composition of the group action. |
| Sim3Group.ComposeIdentityRight | gtsam_unstable/geometry/Similarity3.cpp:58-63 | x * identity() == x for every x. |
| Sim3Group.ComposeIdentityLeft | gtsam_unstable/geometry/Similarity3.cpp:58-63 | identity() * x == x for every x with a non-zero scale. |
| Sim3Group.ComposeAssoc | gtsam_unstable/geometry/Similarity3.cpp:61-63 | (a * b) * c == a * (b * c) when b and c have non-zero scales. |
| Sim3Group.ComposeValid | gtsam_unstable/geometry/Similarity3.cpp:61-63 | The product of two well-formed elements is well formed: R_A R_B is orthonormal and s_A s_B is non-zero. |
| Sim3Group.ComposeGroupAct | gtsam_unstable/geometry/Similarity3.cpp:61-63 | operator* composes the maps p -> s (R p + t): the product acts as b followed by a, for every point. |
| Sim3.Inverse | gtsam_unstable/geometry/Similarity3.cpp:65-69 | The inverse's scale is non-zero and is the reciprocal of s. If R Rᵀ = I, then R times the inverse's rotation is I. If Rᵀ R = I, then the inverse's rotation times R is I. |
| Sim3Group.ComposeInverseRight | gtsam_unstable/geometry/Similarity3.cpp:61-69 | x * inverse(x) == identity() when s is non-zero and R Rᵀ = I. |
| Sim3Group.ComposeInverseLeft | gtsam_unstable/geometry/Similarity3.cpp:61-69 | inverse(x) * x == identity() when s is non-zero and Rᵀ R = I. |
| Sim3Group.InverseInvolution | gtsam_unstable/geometry/Similarity3.cpp:65-69 | inverse(inverse(x)) == x when s is non-zero and R Rᵀ = I. |
| Sim3Group.InverseValid | gtsam_unstable/geometry/Similarity3.cpp:65-69 | The inverse of a well-formed element is well formed. |
| Sim3Group.InverseUndoesGroupAct | gtsam_unstable/geometry/Similarity3.cpp:61-69 | Under p -> s (R p + t), the inverse maps the image of every point back to that point. |
| Sim3.JacobianWrtTransform | gtsam_unstable/geometry/Similarity3.cpp:73-77 | H1 is a 3x7 matrix. |
| Sim3.JacobianWrtPoint | gtsam_unstable/geometry/Similarity3.cpp:78-79 | H2 sends every vector d to s R d. |
| Sim3.TransformFrom | gtsam_unstable/geometry/Similarity3.cpp:71-84 | The point is s R p + t. H1 and H2 come back exactly when requested. H1 is [s R skew(-p), R, R p] and H2 is s R. |
| Sim3.Act | gtsam_unstable/geometry/Similarity3.cpp:86-88 | operator*(Point3) is transform_from without Jacobians: p -> s R p + t. |
| Sim3Action.JacobiansDoNotChangePoint | gtsam_unstable/geometry/Similarity3.cpp:71-84 | Requesting either Jacobian never changes the returned point. |
| Sim3Action.OriginMapsToTranslation | gtsam_unstable/geometry/Similarity3.cpp:80 | transform_from sends the origin to t. |
| Sim3Action.PointJacobianExact | gtsam_unstable/geometry/Similarity3.cpp:78-80 | H2 is the exact derivative in the point: transform_from(p + d) == transform_from(p) + H2 d for every p and d. |
| Sim3Action.TransformJacobianLayout | gtsam_unstable/geometry/Similarity3.cpp:73-77 | The first block of H1 sends w to s R (w x p). Columns 3-5 of H1 are R. Column 6 of H1 is R p. |
| Sim3Action.TransformJacobianApply | gtsam_unstable/geometry/Similarity3.cpp:73-77 | H1 applied to the tangent vector [w; u; v] is s R (w x p) + R u + v R p. |
| Sim3Action.PerturbExpand | gtsam_unstable/geometry/Similarity3.cpp:80-83 | Move the element to (R (I + skew(w)), t + R u, s (1 + v)). The scale change is the one in the derivation beside transform_from. transform_from(p) then moves by s R (w x p) + R u + v H2 p + v s R (w x p), and by nothing else. |
| Sim3Action.TransformJacobianFirstOrder | gtsam_unstable/geometry/Similarity3.cpp:71-84 | H1 as written, under that move: transform_from(p) moves by H1 [w; u; v], plus the first-order term v (s - 1) R p, plus the second-order term v s R (w x p). H1 misses a first-order term whenever s != 1 and R p != 0. |
| Sim3Action.TransformJacobianScaleColumn | gtsam_unstable/geometry/Similarity3.cpp:76 | Column 6 of H1 is R p. The corrected column is s R p. The two differ whenever s != 1 and R p != 0. |
| Sim3Action.CorrectedJacobianWrtTransform | gtsam_unstable/geometry/Similarity3.cpp:73-77 | The corrected H1, [s R skew(-p), R, H2 p], is a 3x7 matrix. |
| Sim3Action.CorrectedJacobianFirstOrder | gtsam_unstable/geometry/Similarity3.cpp:71-84 | The corrected H1 is the first-order part of transform_from under that move. transform_from(p) moves by corrected H1 [w; u; v] plus only the second-order term v s R (w x p). |
| Sim3Action.TransformFromMatchesMatrix | gtsam_unstable/geometry/Similarity3.cpp:183-188 | matrix() times [p; 1] is [transform_from(p); 1]. |
| Sim3Action.MatrixLayout | gtsam_unstable/geometry/Similarity3.cpp:183-188 | The top-left 3x3 block of matrix() is s R and equals H2. Its last column is t. Its last row is [0, 0, 0, 1]. |
| Sim3.HomogeneousMatrix | gtsam_unstable/geometry/Similarity3.cpp:183-188 | matrix() is a 4x4 matrix. |
| Sim3Action.GroupActAgreesWithAct | gtsam_unstable/geometry/Similarity3.cpp:61-88 | At a point p, transform_from and the action p -> s (R p + t) composed by operator* agree exactly when s = 1 or t = 0. |
| Sim3Action.TransformFromComposeGap | gtsam_unstable/geometry/Similarity3.cpp:61-88 | transform_from(a, transform_from(b, p)) is transform_from(a * b, p) plus (s_a - 1) R_a t_b + (1 - 1/s_b) t_a. The two agree when both scales are 1. |
| Sim3Action.TransformFromNotComposition | gtsam_unstable/geometry/Similarity3.cpp:61-88 | Take a with Rᵀ R = I and s_a != 1, and b with s_b = 1 and t_b != 0. Then transform_from(a * b, p) differs from transform_from(a, transform_from(b, p)) at every point p. |
| Sim3.AdjointMap | gtsam_unstable/geometry/Similarity3.cpp:90-99 | AdjointMap() is a 7x7 matrix. |
| Sim3Adjoint.AdjointMapBands | gtsam_unstable/geometry/Similarity3.cpp:90-99 | Rows 0-2 are [s R, s skew(t) R, -s t]. Rows 3-5 are [0, R, 0]. Row 6 is e7. |
| Sim3Adjoint.AdjointMapLayout | gtsam_unstable/geometry/Similarity3.cpp:90-99 | Each 3x3 block and column of the adjoint as in the layout, and the middle top block sends u to s t x (R u). |
| Sim3Adjoint.AdjointMapApply | gtsam_unstable/geometry/Similarity3.cpp:90-99 | The adjoint sends [f; g; v] to [s R f + s t x (R g) - v s t; R g; v]. It keeps the last coordinate and rotates the middle block. |
| Sim3Adjoint.AdjointIdentity | gtsam_unstable/geometry/Similarity3.cpp:90-99 | The adjoint of identity() fixes every tangent vector. |
| Sim3.ToPose3 | gtsam_unstable/geometry/Similarity3.cpp:190-192 | The pose keeps R and moves s p to where p -> s (R p + t) sends p. When s = 1 it moves every point as transform_from does. |
| Sim3.Equals | gtsam_unstable/geometry/Similarity3.cpp:41-44 | equals can hold only for a positive tolerance. When it holds, the scales differ by strictly less than tol. |
| Sim3Equals.EqualsMeaning | gtsam_unstable/geometry/Similarity3.cpp:41-44 | equals holds iff the rotation entries and the translation components are within tol, and the scales differ by strictly less than tol. |
| Sim3Equals.EqualsReflexive | gtsam_unstable/geometry/Similarity3.cpp:41-44 | x equals x exactly when tol > 0, because the scale band is open. With tol = 0, equals is false even for x and x. |
| Sim3Equals.EqualsSymmetric | gtsam_unstable/geometry/Similarity3.cpp:41-44 | equals(x, y, tol) holds iff equals(y, x, tol) holds. |
| Sim3Equals.EqualsWiden | gtsam_unstable/geometry/Similarity3.cpp:41-44 | Whatever equals accepts at a tolerance, it also accepts at every larger tolerance. |
| Sim3Equals.EqualsEveryTolerance | gtsam_unstable/geometry/Similarity3.cpp:41-44 | Two elements that are equal under every positive tolerance are identical. |

## Left out

- `Logmap`, `Expmap`, `ChartAtOrigin::Retract` and `ChartAtOrigin::Local` (lines 101-181) are not modelled.
  - They use sin, cos, exp, log and sqrt, and divide by θ² and λ².
  - They invert a 3x3 matrix and call the rotation's own Logmap and Expmap.
  - None of this can be stated over exact reals.
- `print` (lines 50-56) is console output.
- `operator==` (lines 46-48) depends on `Rot3::equals` with a default tolerance that is not part of this model.
- `gtsam_unstable/nonlinear/ExpressionFactor.h` is not part of this model. It is an adapter over expression, factor and noise-model classes, and those classes are not part of it either.
- Rotations are real matrices with Rᵀ R = I and R Rᵀ = I. The determinant is not modelled, so det R = +1 is never assumed or proved, and reflections satisfy `Valid`.
- `Rot3::equals` and `Point3::equals` are external. They are modelled as entrywise absolute differences no larger than the tolerance.
- `Pose3` is external. It is modelled as its rotation and translation, and it acts as p -> R p + t.
- Floating-point rounding, infinities and NaN are not modelled.
  - Compose: requires a non-zero scale on its right operand. The source divides by that scale.
  - Inverse: requires a non-zero scale. The source divides by it.
- Perturb: moves the element by the scale change s (1 + v) of the derivation at lines 81-83. The rotation and translation move as in the product with (I + skew(w), u, 1). The retraction through `Expmap` is not modelled, because it uses exp, sin and cos. Only this first-order move is compared with H1.
- AdjointMap: is modelled as the matrix at lines 90-99 and its action on a 7-vector. It is not proved to be the adjoint of the group, because rotations are not assumed to have det R = +1. Both the homomorphism AdjointMap(a * b) = AdjointMap(a) AdjointMap(b) and the conjugation reading need R (a x b) = (R a) x (R b), and that fails for reflections.
- Sim3Adjoint.AdjointMapApply: its coordinate order is not reconciled with H1's. Under conjugation in the group of `operator*`, the matrix at lines 93-97 is the adjoint for the order [translation; rotation; scale]. H1 (line 76) and `Logmap` (line 127) put the rotation first. The model states the matrix as written and proves nothing that mixes the two orders.
- TransformFrom: returns the optional Jacobians as `Option` values, where the source writes through its optional out-parameters.
- Compose: its own `ensures` gives only the rotation and the scale of the product. Its meaning is stated by the `Sim3Group` lemmas: unit, associativity, inverse and the composition of actions.

## Findings

| source | as written | input that shows it | evidently intended | confidence | as-written member | corrected member |
|---|---|---|---|---|---|---|
| gtsam_unstable/geometry/Similarity3.cpp:80 | `transform_from` returns s R p + t, the action of `matrix()` = [[s R, t], [0, 1]]. `operator*` (line 62) composes a different action. transform_from(a, transform_from(b, p)) is transform_from(a * b, p) plus (s_a - 1) R_a t_b + (1 - 1/s_b) t_a. That gap is non-zero, for example, when R_aᵀ R_a = I, s_a != 1, s_b = 1 and t_b != 0. | a = (I, 0, 2), b = (I, (1, 0, 0), 1), p = 0. transform_from(a, transform_from(b, p)) = (2, 0, 0), but a * b = (I, (1, 0, 0), 2) and transform_from(a * b, p) = (1, 0, 0). | The point action that `operator*` and `inverse()` compose: p -> s (R p + t). Under it the product acts as its factors in sequence, and the inverse undoes the action. | medium, not executed | Sim3Action.TransformFromNotComposition | Sim3Group.ComposeGroupAct |
| gtsam_unstable/geometry/Similarity3.cpp:76 | The scale column of H1 is R p. The derivation at lines 81-83 multiplies the scale by 1 + v, so the derivative of transform_from in v is s R p. | x = (I, 0, 2), p = (1, 0, 0). Column 6 of H1 is (1, 0, 0). Moving the scale to 2 (1 + v) moves transform_from(p) by (2 v, 0, 0). | The scale column s R p, that is H2 p. With it, H1 is the first-order part of transform_from under the move in the comment at lines 81-83, and s R p is the correct column only relative to that move. The library's own chart is Retract = Expmap (lines 152 and 166), which is not part of this model. Under it, in exact arithmetic, the scale coordinate alone moves x to x * (I, 0, e^v) = (R, e^(-v) t, s e^v), where the derivative in v is s R p - t. That also differs from R p unless t = (s - 1) R p. | medium, not executed | Sim3Action.TransformJacobianScaleColumn | Sim3Action.CorrectedJacobianFirstOrder |
