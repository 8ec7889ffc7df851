/**
 * Two-dimensional affine transforms over `real`: the part of the 4x4
 * matrix library that the drawing façade uses.
 *
 * Every vertex the façade submits has z = 0 and w = 1, and the only
 * operations it applies are translations with z offset 0, scalings with
 * z factor 1 and rotations about the z axis. On such points a 4x4
 * column-major matrix M acts exactly as the affine map
 *
 *     x' = M[0] * x + M[4] * y + M[12]
 *     y' = M[1] * x + M[5] * y + M[13]
 *
 * which is what `Matrix` records (m00 = M[0], m01 = M[4], m02 = M[12],
 * m10 = M[1], m11 = M[5], m12 = M[13]).
 *
 * A transform is kept as the chain of elementary steps it was built from
 * (`Transform`); `ToMatrix` multiplies the chain out into the matrix the
 * GPU receives, and its contract ties the two views together.
 *
 * Assumed semantics of the matrix library (its source is not part of this
 * model): `translate(m, …)`, `scale(m, …)` and `zRotate(m, θ)` return `m`
 * post-multiplied by the elementary transform, and `scaling(…)` builds a
 * fresh scale matrix. Cosine and sine are not interpreted: a rotation is
 * given by a `Trig` function from angle to (cos, sin), of which only the
 * value at angle 0 is ever assumed.
 */
module Affine {

  datatype Point = Point(x: real, y: real)

  /** The cosine and sine of one angle. */
  datatype Rotation = Rotation(cos: real, sin: real)

  /** Cosine and sine as one uninterpreted function of the angle. */
  type Trig = real -> Rotation

  /** The one fact about cosine and sine the model relies on. */
  predicate ExactAtZero(trig: Trig) {
    trig(0.0) == Rotation(1.0, 0.0)
  }

  // ---------------------------------------------------------------------
  // Transforms as step lists.

  datatype Step =
    | Translation(tx: real, ty: real)
    | Scaling(sx: real, sy: real)
    | ZRotation(rot: Rotation)

  function ApplyStep(s: Step, p: Point): Point {
    match s
    case Translation(tx, ty) => Point(p.x + tx, p.y + ty)
    case Scaling(sx, sy) => Point(sx * p.x, sy * p.y)
    case ZRotation(rot) => Point(rot.cos * p.x - rot.sin * p.y, rot.sin * p.x + rot.cos * p.y)
  }

  /**
   * A product of elementary steps built by post-multiplication:
   * `Then(m, s)` is the matrix of `m` times the matrix of `s`. As a map on
   * points the step added LAST acts FIRST.
   */
  datatype Transform = Identity | Then(init: Transform, last: Step)

  function Apply(t: Transform, p: Point): Point {
    match t
    case Identity => p
    case Then(init, last) => Apply(init, ApplyStep(last, p))
  }

  /** The product m * n of two transforms. */
  function Compose(m: Transform, n: Transform): Transform {
    match n
    case Identity => m
    case Then(init, last) => Then(Compose(m, init), last)
  }

  /** Post-multiplication: applying `m * n` applies `n`, then `m`. */
  lemma {:induction false} ApplyCompose(m: Transform, n: Transform, p: Point)
    ensures Apply(Compose(m, n), p) == Apply(m, Apply(n, p))
  {
    match n
    case Identity =>
    case Then(init, last) => ApplyCompose(m, init, ApplyStep(last, p));
  }

  // The library's chaining operations, each post-multiplying its argument.

  function Translate(m: Transform, tx: real, ty: real): Transform {
    Then(m, Translation(tx, ty))
  }

  function Scale(m: Transform, sx: real, sy: real): Transform {
    Then(m, Scaling(sx, sy))
  }

  function ZRotate(m: Transform, angle: real, trig: Trig): Transform {
    Then(m, ZRotation(trig(angle)))
  }

  /** Post-multiplying by one step applies that step first. */
  lemma ApplyThen(m: Transform, s: Step, p: Point)
    ensures Apply(Then(m, s), p) == Apply(m, ApplyStep(s, p))
  {
  }

  /** A fresh scale matrix. */
  function Scaled(sx: real, sy: real): Transform {
    Scale(Identity, sx, sy)
  }

  /**
   * The reference description of "rotate `p` about `center`": move the
   * centre to the origin, rotate, move back.
   */
  function RotateAbout(center: Point, rot: Rotation, p: Point): Point {
    var dx := p.x - center.x;
    var dy := p.y - center.y;
    Point(center.x + rot.cos * dx - rot.sin * dy,
          center.y + rot.sin * dx + rot.cos * dy)
  }

  lemma RotateAboutFixesCenter(center: Point, rot: Rotation)
    ensures RotateAbout(center, rot, center) == center
  {
  }

  lemma RotateAboutZero(center: Point, p: Point)
    ensures RotateAbout(center, Rotation(1.0, 0.0), p) == p
  {
  }

  // ---------------------------------------------------------------------
  // The matrices themselves.

  /** x' = m00 * x + m01 * y + m02,  y' = m10 * x + m11 * y + m12 */
  datatype Matrix = Matrix(m00: real, m01: real, m02: real,
                           m10: real, m11: real, m12: real)

  function ApplyMatrix(m: Matrix, p: Point): Point {
    Point(m.m00 * p.x + m.m01 * p.y + m.m02,
          m.m10 * p.x + m.m11 * p.y + m.m12)
  }

  const IdentityMatrix: Matrix := Matrix(1.0, 0.0, 0.0, 0.0, 1.0, 0.0)

  /** The matrix product m * n: as a map, apply `n` first, then `m`. */
  function Product(m: Matrix, n: Matrix): (r: Matrix)
    ensures forall p :: ApplyMatrix(r, p) == ApplyMatrix(m, ApplyMatrix(n, p))
  {
    var r := Matrix(m.m00 * n.m00 + m.m01 * n.m10,
                    m.m00 * n.m01 + m.m01 * n.m11,
                    m.m00 * n.m02 + m.m01 * n.m12 + m.m02,
                    m.m10 * n.m00 + m.m11 * n.m10,
                    m.m10 * n.m01 + m.m11 * n.m11,
                    m.m10 * n.m02 + m.m11 * n.m12 + m.m12);
    assert forall p :: ApplyMatrix(r, p) == ApplyMatrix(m, ApplyMatrix(n, p)) by {
      forall p ensures ApplyMatrix(r, p) == ApplyMatrix(m, ApplyMatrix(n, p)) {
        ProductAt(m, n, r, p);
      }
    }
    r
  }

  /** The pointwise step behind `Product`'s contract. */
  lemma ProductAt(m: Matrix, n: Matrix, r: Matrix, p: Point)
    requires r.m00 == m.m00 * n.m00 + m.m01 * n.m10
    requires r.m01 == m.m00 * n.m01 + m.m01 * n.m11
    requires r.m02 == m.m00 * n.m02 + m.m01 * n.m12 + m.m02
    requires r.m10 == m.m10 * n.m00 + m.m11 * n.m10
    requires r.m11 == m.m10 * n.m01 + m.m11 * n.m11
    requires r.m12 == m.m10 * n.m02 + m.m11 * n.m12 + m.m12
    ensures ApplyMatrix(r, p) == ApplyMatrix(m, ApplyMatrix(n, p))
  {
    var q := ApplyMatrix(n, p);
    RowStep(m.m00, m.m01, m.m02, n, p);
    assert ApplyMatrix(r, p).x == ApplyMatrix(m, q).x;
    RowStep(m.m10, m.m11, m.m12, n, p);
    assert ApplyMatrix(r, p).y == ApplyMatrix(m, q).y;
  }

  /** One output row of a matrix product, expanded term by term. */
  lemma RowStep(a: real, b: real, c: real, n: Matrix, p: Point)
    ensures (a * n.m00 + b * n.m10) * p.x + (a * n.m01 + b * n.m11) * p.y + (a * n.m02 + b * n.m12 + c)
         == a * (n.m00 * p.x + n.m01 * p.y + n.m02) + b * (n.m10 * p.x + n.m11 * p.y + n.m12) + c
  {
    assert (a * n.m00 + b * n.m10) * p.x == a * (n.m00 * p.x) + b * (n.m10 * p.x);
    assert (a * n.m01 + b * n.m11) * p.y == a * (n.m01 * p.y) + b * (n.m11 * p.y);
    assert a * (n.m00 * p.x + n.m01 * p.y + n.m02) == a * (n.m00 * p.x) + a * (n.m01 * p.y) + a * n.m02;
    assert b * (n.m10 * p.x + n.m11 * p.y + n.m12) == b * (n.m10 * p.x) + b * (n.m11 * p.y) + b * n.m12;
  }

  /**
   * Two matrices that agree on the origin and the two unit points are
   * equal: an affine map is fixed by three non-collinear points.
   */
  lemma MatrixExtensionality(m: Matrix, n: Matrix)
    requires ApplyMatrix(m, Point(0.0, 0.0)) == ApplyMatrix(n, Point(0.0, 0.0))
    requires ApplyMatrix(m, Point(1.0, 0.0)) == ApplyMatrix(n, Point(1.0, 0.0))
    requires ApplyMatrix(m, Point(0.0, 1.0)) == ApplyMatrix(n, Point(0.0, 1.0))
    ensures m == n
  {
  }

  /** The matrix of one elementary step, as the library builds it. */
  function StepMatrix(s: Step): (r: Matrix)
    ensures forall p :: ApplyMatrix(r, p) == ApplyStep(s, p)
  {
    match s
    case Translation(tx, ty) => Matrix(1.0, 0.0, tx, 0.0, 1.0, ty)
    case Scaling(sx, sy) => Matrix(sx, 0.0, 0.0, 0.0, sy, 0.0)
    case ZRotation(rot) => Matrix(rot.cos, -rot.sin, 0.0, rot.sin, rot.cos, 0.0)
  }

  /** The matrix the GPU receives for a transform: its steps multiplied out. */
  function ToMatrix(t: Transform): (r: Matrix)
    ensures forall p :: ApplyMatrix(r, p) == Apply(t, p)
  {
    match t
    case Identity => IdentityMatrix
    case Then(init, last) => Product(ToMatrix(init), StepMatrix(last))
  }

  /** Multiplying out a product of transforms is the product of their matrices. */
  lemma ToMatrixCompose(m: Transform, n: Transform)
    ensures ToMatrix(Compose(m, n)) == Product(ToMatrix(m), ToMatrix(n))
  {
    ToMatrixComposeAt(m, n, Point(0.0, 0.0));
    ToMatrixComposeAt(m, n, Point(1.0, 0.0));
    ToMatrixComposeAt(m, n, Point(0.0, 1.0));
    MatrixExtensionality(ToMatrix(Compose(m, n)), Product(ToMatrix(m), ToMatrix(n)));
  }

  lemma ToMatrixComposeAt(m: Transform, n: Transform, p: Point)
    ensures ApplyMatrix(ToMatrix(Compose(m, n)), p) == ApplyMatrix(Product(ToMatrix(m), ToMatrix(n)), p)
  {
    var q := Apply(n, p);
    ApplyCompose(m, n, p);
    ToMatrixAt(Compose(m, n), p);
    ToMatrixAt(n, p);
    ToMatrixAt(m, q);
    ProductAtPoint(ToMatrix(m), ToMatrix(n), p);
  }

  lemma ToMatrixAt(t: Transform, p: Point)
    ensures ApplyMatrix(ToMatrix(t), p) == Apply(t, p)
  {
  }

  lemma ProductAtPoint(m: Matrix, n: Matrix, p: Point)
    ensures ApplyMatrix(Product(m, n), p) == ApplyMatrix(m, ApplyMatrix(n, p))
  {
  }
}
