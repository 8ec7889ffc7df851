/**
 * The fixed data and per-fragment logic of the two shader pipelines: the
 * shared unit-quad vertex list, the texture pipeline's discard test and the
 * colour pipeline's premultiplied output.
 */
module Shaders {
  import opened Affine

  /**
   * The one vertex buffer both pipelines draw from: six 2-component
   * positions forming two triangles over the unit square. It is written
   * once and never changed; every placement is done by matrices.
   */
  const QuadVertices: seq<Point> :=
    [Point(0.0, 0.0), Point(0.0, 1.0), Point(1.0, 0.0),
     Point(1.0, 0.0), Point(0.0, 1.0), Point(1.0, 1.0)]

  const UnitCorners: set<Point> :=
    {Point(0.0, 0.0), Point(1.0, 0.0), Point(0.0, 1.0), Point(1.0, 1.0)}

  predicate InUnitSquare(p: Point) {
    0.0 <= p.x <= 1.0 && 0.0 <= p.y <= 1.0
  }

  /** The two triangles share the diagonal and together use exactly the four corners. */
  lemma QuadUsesUnitCorners()
    ensures |QuadVertices| == 6
    ensures (set v | v in QuadVertices) == UnitCorners
    ensures (set v | v in QuadVertices[..3]) * (set v | v in QuadVertices[3..])
         == {Point(0.0, 1.0), Point(1.0, 0.0)}
    ensures forall v :: v in QuadVertices ==> InUnitSquare(v)
  {
    var first := set v | v in QuadVertices[..3];
    var second := set v | v in QuadVertices[3..];
    assert QuadVertices[..3] == [Point(0.0, 0.0), Point(0.0, 1.0), Point(1.0, 0.0)];
    assert QuadVertices[3..] == [Point(1.0, 0.0), Point(0.0, 1.0), Point(1.0, 1.0)];
    assert first == {Point(0.0, 0.0), Point(0.0, 1.0), Point(1.0, 0.0)};
    assert second == {Point(1.0, 0.0), Point(0.0, 1.0), Point(1.0, 1.0)};
  }

  /**
   * The texture pipeline's fragment test: a fragment whose interpolated
   * texture coordinate leaves [0, 1] on either axis is dropped. Cropping
   * relies on this.
   */
  predicate Discarded(texcoord: Point) {
    texcoord.x < 0.0 || texcoord.y < 0.0 || texcoord.x > 1.0 || texcoord.y > 1.0
  }

  /** A fragment is kept exactly when its texture coordinate lies in the unit square. */
  lemma DiscardedOutsideUnitSquare(texcoord: Point)
    ensures Discarded(texcoord) <==> !InUnitSquare(texcoord)
  {
  }

  /** An RGBA quadruple, normalised channels in the shader. */
  datatype Rgba = Rgba(r: real, g: real, b: real, a: real)

  predicate Normalized(c: Rgba) {
    0.0 <= c.r <= 1.0 && 0.0 <= c.g <= 1.0 && 0.0 <= c.b <= 1.0 && 0.0 <= c.a <= 1.0
  }

  /** The colour pipeline's output: the RGB channels scaled by alpha, alpha kept. */
  function Premultiply(c: Rgba): Rgba {
    Rgba(c.r * c.a, c.g * c.a, c.b * c.a, c.a)
  }

  /** Undoes `Premultiply` for a colour that is not fully transparent. */
  function Unpremultiply(c: Rgba): (r: Rgba)
    requires c.a != 0.0
  {
    Rgba(c.r / c.a, c.g / c.a, c.b / c.a, c.a)
  }

  lemma PremultiplyRoundTrip(c: Rgba)
    requires c.a != 0.0
    ensures Unpremultiply(Premultiply(c)) == c
  {
    assert c.r * c.a / c.a == c.r;
    assert c.g * c.a / c.a == c.g;
    assert c.b * c.a / c.a == c.b;
  }

  /**
   * A normalised colour premultiplies to a normalised colour whose RGB
   * channels never exceed its alpha, and opaque and fully transparent
   * colours come out as themselves and as transparent black.
   */
  lemma PremultiplyProperties(c: Rgba)
    requires Normalized(c)
    ensures Normalized(Premultiply(c))
    ensures Premultiply(c).a == c.a
    ensures Premultiply(c).r <= c.a && Premultiply(c).g <= c.a && Premultiply(c).b <= c.a
    ensures c.a == 1.0 ==> Premultiply(c) == c
    ensures c.a == 0.0 ==> Premultiply(c) == Rgba(0.0, 0.0, 0.0, 0.0)
  {
    ScaledChannel(c.r, c.a);
    ScaledChannel(c.g, c.a);
    ScaledChannel(c.b, c.a);
    if c.a == 1.0 {
      assert c.r * c.a == c.r && c.g * c.a == c.g && c.b * c.a == c.b;
    }
    if c.a == 0.0 {
      assert c.r * c.a == 0.0 && c.g * c.a == 0.0 && c.b * c.a == 0.0;
    }
  }

  lemma ScaledChannel(v: real, a: real)
    requires 0.0 <= v <= 1.0 && 0.0 <= a <= 1.0
    ensures 0.0 <= v * a <= a
  {
    MulNonNegative(v, a);
    MulNonNegative(1.0 - v, a);
    assert (1.0 - v) * a == a - v * a;
  }

  lemma MulNonNegative(x: real, y: real)
    requires 0.0 <= x && 0.0 <= y
    ensures 0.0 <= x * y
  {
  }
}
