/**
 * The coordinate transforms the façade uploads per draw call, each built
 * by the same chain of library calls as `GLContext2D.js`, which starts the
 * image and rectangle chains from an orthographic projection, which is not
 * modelled: those chains are written from an arbitrary starting transform
 * (`…Chain`), the projection-free map (`…Model`) starts from the identity,
 * and a factoring lemma shows that the matrix of the chain from any start
 * is the start's matrix times the model's.
 */
module Transforms {
  import opened Affine
  import opened Shaders

  /** A rectangle in pixel space: top-left corner and size. */
  datatype Rect = Rect(x: real, y: real, width: real, height: real)

  function Center(r: Rect): Point {
    Point(r.x + r.width * 0.5, r.y + r.height * 0.5)
  }

  /** Reference placement: the unit square stretched onto `r`. */
  function Place(r: Rect, p: Point): Point {
    Point(r.x + p.x * r.width, r.y + p.y * r.height)
  }

  /** Pixel coordinates of a texture divided by its size. */
  function Normalize(texWidth: real, texHeight: real, p: Point): Point
    requires texWidth != 0.0 && texHeight != 0.0
  {
    Point(p.x / texWidth, p.y / texHeight)
  }

  // ---------------------------------------------------------------------
  // Image destination matrix: translate to the corner, scale to the size.

  function ImageChain(start: Transform, dst: Rect): Transform {
    Scale(Translate(start, dst.x, dst.y), dst.width, dst.height)
  }

  function ImageModel(dst: Rect): Transform {
    ImageChain(Identity, dst)
  }

  /** The image model sends unit-square point (u, v) to (x + u * w, y + v * h). */
  lemma ImageModelPlaces(dst: Rect, p: Point)
    ensures Apply(ImageModel(dst), p) == Place(dst, p)
  {
    var m1 := Translate(Identity, dst.x, dst.y);
    var q := Point(dst.width * p.x, dst.height * p.y);
    ApplyThen(m1, Scaling(dst.width, dst.height), p);
    ApplyThen(Identity, Translation(dst.x, dst.y), q);
    assert ApplyStep(Translation(dst.x, dst.y), q) == Place(dst, p);
  }

  /** The matrix of the chain started from P is P's matrix times the model's. */
  lemma ImageChainFactors(start: Transform, dst: Rect)
    ensures ImageChain(start, dst) == Compose(start, ImageModel(dst))
    ensures ToMatrix(ImageChain(start, dst)) == Product(ToMatrix(start), ToMatrix(ImageModel(dst)))
  {
    assert Compose(start, Translate(Identity, dst.x, dst.y)) == Translate(start, dst.x, dst.y);
    ToMatrixCompose(start, ImageModel(dst));
  }

  // ---------------------------------------------------------------------
  // Texture sampling matrix: normalise, rotate the crop about its centre,
  // then place the unit square on the crop.

  /**
   * After the initial normalising scale, the texture chain of `GLContext2D.js` is the
   * same sequence of calls as the rectangle chain, applied to the crop.
   */
  function TextureMatrix(texWidth: real, texHeight: real, src: Rect, angle: real, trig: Trig): Transform
    requires texWidth != 0.0 && texHeight != 0.0
  {
    RectangleChain(Scaled(1.0 / texWidth, 1.0 / texHeight), src, angle, trig)
  }

  /**
   * For any angle, the texture matrix sends (u, v) to the crop-rectangle
   * point (u, v), rotated about the crop's centre, in normalised texture
   * coordinates.
   */
  lemma TextureMatrixSamples(texWidth: real, texHeight: real, src: Rect, angle: real, trig: Trig, p: Point)
    requires texWidth != 0.0 && texHeight != 0.0
    ensures Apply(TextureMatrix(texWidth, texHeight, src, angle, trig), p)
         == Normalize(texWidth, texHeight, RotateAbout(Center(src), trig(angle), Place(src, p)))
  {
    var rotated := RotateAbout(Center(src), trig(angle), Place(src, p));
    ScaledChainSamples(1.0 / texWidth, 1.0 / texHeight, src, angle, trig, p);
    Reciprocal(rotated.x, texWidth);
    Reciprocal(rotated.y, texHeight);
  }

  /** The texture chain with the normalising factors left symbolic. */
  lemma ScaledChainSamples(sx: real, sy: real, src: Rect, angle: real, trig: Trig, p: Point)
    ensures Apply(RectangleChain(Scaled(sx, sy), src, angle, trig), p)
         == Point(sx * RotateAbout(Center(src), trig(angle), Place(src, p)).x,
                  sy * RotateAbout(Center(src), trig(angle), Place(src, p)).y)
  {
    var scale := Scaled(sx, sy);
    var rotated := RotateAbout(Center(src), trig(angle), Place(src, p));
    RectangleChainFactors(scale, src, angle, trig);
    ApplyCompose(scale, RectangleModel(src, angle, trig), p);
    RectangleModelMaps(src, angle, trig, p);
    ApplyThen(Identity, Scaling(sx, sy), rotated);
  }

  lemma Reciprocal(x: real, d: real)
    requires d != 0.0
    ensures 1.0 / d * x == x / d
  {
  }

  /** Whatever the angle, the middle of the quad samples the middle of the crop. */
  lemma TextureCenterFixed(texWidth: real, texHeight: real, src: Rect, angle: real, trig: Trig)
    requires texWidth != 0.0 && texHeight != 0.0
    ensures Apply(TextureMatrix(texWidth, texHeight, src, angle, trig), Point(0.5, 0.5))
         == Normalize(texWidth, texHeight, Center(src))
  {
    TextureMatrixSamples(texWidth, texHeight, src, angle, trig, Point(0.5, 0.5));
    assert Place(src, Point(0.5, 0.5)) == Center(src);
    RotateAboutFixesCenter(Center(src), trig(angle));
  }

  /**
   * Unrotated, the texture matrix sends (u, v) to
   * ((srcX + u * srcW) / texW, (srcY + v * srcH) / texH): the unit square
   * lands on the crop rectangle in normalised texture space.
   */
  lemma TextureMatrixUnrotated(texWidth: real, texHeight: real, src: Rect, trig: Trig, p: Point)
    requires texWidth != 0.0 && texHeight != 0.0
    requires ExactAtZero(trig)
    ensures Apply(TextureMatrix(texWidth, texHeight, src, 0.0, trig), p)
         == Point((src.x + p.x * src.width) / texWidth, (src.y + p.y * src.height) / texHeight)
  {
    TextureMatrixSamples(texWidth, texHeight, src, 0.0, trig, p);
    RotateAboutZero(Center(src), Place(src, p));
    NormalizePlace(texWidth, texHeight, src, p);
  }

  lemma NormalizePlace(texWidth: real, texHeight: real, src: Rect, p: Point)
    requires texWidth != 0.0 && texHeight != 0.0
    ensures Normalize(texWidth, texHeight, Place(src, p))
         == Point((src.x + p.x * src.width) / texWidth, (src.y + p.y * src.height) / texHeight)
  {
  }

  /** A crop of the whole texture, unrotated, samples exactly at the quad coordinate. */
  lemma WholeTextureSamplesIdentity(texWidth: real, texHeight: real, trig: Trig, p: Point)
    requires texWidth != 0.0 && texHeight != 0.0
    requires ExactAtZero(trig)
    ensures Apply(TextureMatrix(texWidth, texHeight, Rect(0.0, 0.0, texWidth, texHeight), 0.0, trig), p) == p
  {
    TextureMatrixUnrotated(texWidth, texHeight, Rect(0.0, 0.0, texWidth, texHeight), trig, p);
    assert (0.0 + p.x * texWidth) / texWidth == p.x;
    assert (0.0 + p.y * texHeight) / texHeight == p.y;
  }

  /** A crop that lies inside the texture. */
  predicate CropInside(texWidth: real, texHeight: real, src: Rect) {
    && 0.0 < texWidth && 0.0 < texHeight
    && 0.0 <= src.x && 0.0 <= src.width && src.x + src.width <= texWidth
    && 0.0 <= src.y && 0.0 <= src.height && src.y + src.height <= texHeight
  }

  /** Unrotated, a crop inside the texture discards no fragment of the quad. */
  lemma CropInsideKeepsQuad(texWidth: real, texHeight: real, src: Rect, trig: Trig, p: Point)
    requires CropInside(texWidth, texHeight, src)
    requires ExactAtZero(trig)
    requires InUnitSquare(p)
    ensures !Discarded(Apply(TextureMatrix(texWidth, texHeight, src, 0.0, trig), p))
  {
    TextureMatrixUnrotated(texWidth, texHeight, src, trig, p);
    CropPointInside(texWidth, texHeight, src, p);
  }

  /** The arithmetic of `CropInsideKeepsQuad`. */
  lemma CropPointInside(texWidth: real, texHeight: real, src: Rect, p: Point)
    requires CropInside(texWidth, texHeight, src)
    requires InUnitSquare(p)
    ensures InUnitSquare(Point((src.x + p.x * src.width) / texWidth, (src.y + p.y * src.height) / texHeight))
  {
    var sx := src.x + p.x * src.width;
    var sy := src.y + p.y * src.height;
    WithinSpan(src.x, src.width, p.x);
    WithinSpan(src.y, src.height, p.y);
    DivideBounded(sx, texWidth);
    DivideBounded(sy, texHeight);
  }

  /** A point u of [0, 1] stretched onto [start, start + size]. */
  lemma WithinSpan(start: real, size: real, u: real)
    requires 0.0 <= size && 0.0 <= u <= 1.0
    ensures start <= start + u * size <= start + size
  {
    MulNonNegative(u, size);
    MulNonNegative(1.0 - u, size);
    assert (1.0 - u) * size == size - u * size;
  }

  lemma DivideBounded(t: real, total: real)
    requires 0.0 < total && 0.0 <= t <= total
    ensures 0.0 <= t / total <= 1.0
  {
    var q := t / total;
    assert q * total == t;
    if q < 0.0 {
      MulPositive(-q, total);
    } else if q > 1.0 {
      MulPositive(q - 1.0, total);
    }
  }

  lemma MulPositive(x: real, y: real)
    requires 0.0 < x && 0.0 < y
    ensures 0.0 < x * y
  {
  }

  // ---------------------------------------------------------------------
  // Rectangle model matrix: rotate about the rectangle's centre, then
  // place the unit square on the rectangle.

  function RectangleChain(start: Transform, rect: Rect, angle: real, trig: Trig): Transform {
    var c := Center(rect);
    var m := Translate(start, c.x, c.y);
    var m := ZRotate(m, angle, trig);
    var m := Translate(m, -c.x, -c.y);
    var m := Translate(m, rect.x, rect.y);
    Scale(m, rect.width, rect.height)
  }

  function RectangleModel(rect: Rect, angle: real, trig: Trig): Transform {
    RectangleChain(Identity, rect, angle, trig)
  }

  /** The rectangle model places (u, v) on the rectangle, then rotates it about the centre. */
  lemma RectangleModelMaps(rect: Rect, angle: real, trig: Trig, p: Point)
    ensures Apply(RectangleModel(rect, angle, trig), p)
         == RotateAbout(Center(rect), trig(angle), Place(rect, p))
  {
    var c := Center(rect);
    var m1 := Translate(Identity, c.x, c.y);
    var m2 := ZRotate(m1, angle, trig);
    var m3 := Translate(m2, -c.x, -c.y);
    var m4 := Translate(m3, rect.x, rect.y);
    var p1 := ApplyStep(Scaling(rect.width, rect.height), p);
    var p2 := ApplyStep(Translation(rect.x, rect.y), p1);
    var p3 := ApplyStep(Translation(-c.x, -c.y), p2);
    var p4 := ApplyStep(ZRotation(trig(angle)), p3);
    ApplyThen(m4, Scaling(rect.width, rect.height), p);
    ApplyThen(m3, Translation(rect.x, rect.y), p1);
    ApplyThen(m2, Translation(-c.x, -c.y), p2);
    ApplyThen(m1, ZRotation(trig(angle)), p3);
    ApplyThen(Identity, Translation(c.x, c.y), p4);
    assert p2 == Place(rect, p);
    assert ApplyStep(Translation(c.x, c.y), p4) == RotateAbout(c, trig(angle), p2);
  }

  /** Whatever the angle, the quad's centre lands on the rectangle's centre. */
  lemma RectangleCenterFixed(rect: Rect, angle: real, trig: Trig)
    ensures Apply(RectangleModel(rect, angle, trig), Point(0.5, 0.5)) == Center(rect)
  {
    RectangleModelMaps(rect, angle, trig, Point(0.5, 0.5));
    assert Place(rect, Point(0.5, 0.5)) == Center(rect);
    RotateAboutFixesCenter(Center(rect), trig(angle));
  }

  /** Unrotated, (u, v) goes to (x + u * w, y + v * h). */
  lemma RectangleUnrotated(rect: Rect, trig: Trig, p: Point)
    requires ExactAtZero(trig)
    ensures Apply(RectangleModel(rect, 0.0, trig), p) == Place(rect, p)
  {
    RectangleModelMaps(rect, 0.0, trig, p);
    RotateAboutZero(Center(rect), Place(rect, p));
  }

  /** Unrotated, the six quad vertices land exactly on the rectangle's four corners. */
  lemma RectangleCornersUnrotated(rect: Rect, trig: Trig)
    requires ExactAtZero(trig)
    ensures (set v | v in QuadVertices :: Apply(RectangleModel(rect, 0.0, trig), v))
         == {Point(rect.x, rect.y), Point(rect.x + rect.width, rect.y),
             Point(rect.x, rect.y + rect.height), Point(rect.x + rect.width, rect.y + rect.height)}
  {
    QuadUsesUnitCorners();
    forall v | v in UnitCorners
      ensures Apply(RectangleModel(rect, 0.0, trig), v) == Place(rect, v)
    {
      RectangleUnrotated(rect, trig, v);
    }
    PlaceCorners(rect);
  }

  /** The unit square's corners placed on a rectangle are its corners. */
  lemma PlaceCorners(rect: Rect)
    ensures Place(rect, Point(0.0, 0.0)) == Point(rect.x, rect.y)
    ensures Place(rect, Point(1.0, 0.0)) == Point(rect.x + rect.width, rect.y)
    ensures Place(rect, Point(0.0, 1.0)) == Point(rect.x, rect.y + rect.height)
    ensures Place(rect, Point(1.0, 1.0)) == Point(rect.x + rect.width, rect.y + rect.height)
  {
  }

  /** The matrix of the chain started from P is P's matrix times the model's. */
  lemma RectangleChainFactors(start: Transform, rect: Rect, angle: real, trig: Trig)
    ensures RectangleChain(start, rect, angle, trig) == Compose(start, RectangleModel(rect, angle, trig))
    ensures ToMatrix(RectangleChain(start, rect, angle, trig))
         == Product(ToMatrix(start), ToMatrix(RectangleModel(rect, angle, trig)))
  {
    var c := Center(rect);
    var m1 := Translate(Identity, c.x, c.y);
    var m2 := ZRotate(m1, angle, trig);
    var m3 := Translate(m2, -c.x, -c.y);
    var m4 := Translate(m3, rect.x, rect.y);
    assert Compose(start, m1) == Translate(start, c.x, c.y);
    assert Compose(start, m2) == ZRotate(Compose(start, m1), angle, trig);
    assert Compose(start, m3) == Translate(Compose(start, m2), -c.x, -c.y);
    assert Compose(start, m4) == Translate(Compose(start, m3), rect.x, rect.y);
    ToMatrixCompose(start, RectangleModel(rect, angle, trig));
  }
}
