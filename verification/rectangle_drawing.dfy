/**
 * `drawRectangle(x, y, width, height, r = 0, g = 0, b = 0, a = 255, alpha = 0)`:
 * the colour uniform it uploads, the colour the fragment stage writes and
 * the model transform.
 *
 * The last parameter is named `alpha` in `GLContext2D.js` but is only ever
 * used as the rotation angle; opacity comes from `a`. It is called
 * `rotation` here, with the JavaScript behaviour unchanged.
 */
module RectangleDrawing {
  import opened Wrappers
  import opened Affine
  import opened Shaders
  import opened Transforms

  /** The arguments; `None` marks a trailing argument left out, which takes its default. */
  datatype RectangleArgs = RectangleArgs(
    x: real, y: real, width: real, height: real,
    r: Option<real>, g: Option<real>, b: Option<real>, a: Option<real>,
    rotation: Option<real>)

  /** A 0-255 channel as the shader sees it. */
  function Channel(v: real): real {
    v / 255.0
  }

  /** The `u_color` uniform: each channel, defaults applied, divided by 255. */
  function ColorUniform(args: RectangleArgs): Rgba {
    Rgba(Channel(args.r.GetOr(0.0)), Channel(args.g.GetOr(0.0)),
         Channel(args.b.GetOr(0.0)), Channel(args.a.GetOr(255.0)))
  }

  /** What the colour pipeline writes for every covered fragment. */
  function FragmentColor(args: RectangleArgs): Rgba {
    Premultiply(ColorUniform(args))
  }

  /** Scaling back by 255 recovers the effective 0-255 arguments. */
  lemma ColorUniformRoundTrip(args: RectangleArgs)
    ensures ColorUniform(args).r * 255.0 == args.r.GetOr(0.0)
    ensures ColorUniform(args).g * 255.0 == args.g.GetOr(0.0)
    ensures ColorUniform(args).b * 255.0 == args.b.GetOr(0.0)
    ensures ColorUniform(args).a * 255.0 == args.a.GetOr(255.0)
  {
  }

  predicate InByteRange(v: real) {
    0.0 <= v <= 255.0
  }

  /** The uniform is a normalised colour exactly when every effective channel is in 0..255. */
  lemma ColorUniformNormalized(args: RectangleArgs)
    ensures Normalized(ColorUniform(args)) <==>
      && InByteRange(args.r.GetOr(0.0)) && InByteRange(args.g.GetOr(0.0))
      && InByteRange(args.b.GetOr(0.0)) && InByteRange(args.a.GetOr(255.0))
  {
  }

  /** With no colour arguments the rectangle is opaque black, before and after premultiplication. */
  lemma DefaultColorIsOpaqueBlack(args: RectangleArgs)
    requires args.r.None? && args.g.None? && args.b.None? && args.a.None?
    ensures ColorUniform(args) == Rgba(0.0, 0.0, 0.0, 1.0)
    ensures FragmentColor(args) == Rgba(0.0, 0.0, 0.0, 1.0)
  {
  }

  /** An opaque colour (alpha 255, given or defaulted) is written unchanged. */
  lemma OpaqueColorUnchanged(args: RectangleArgs)
    requires args.a.GetOr(255.0) == 255.0
    ensures FragmentColor(args) == ColorUniform(args)
    ensures FragmentColor(args).a == 1.0
  {
    var c := ColorUniform(args);
    assert c.a == 1.0;
    assert c.r * c.a == c.r && c.g * c.a == c.g && c.b * c.a == c.b;
  }

  /** Zero alpha writes transparent black whatever the RGB arguments. */
  lemma TransparentColorIsBlank(args: RectangleArgs)
    requires args.a == Some(0.0)
    ensures FragmentColor(args) == Rgba(0.0, 0.0, 0.0, 0.0)
  {
    var c := ColorUniform(args);
    assert c.a == 0.0;
    assert c.r * c.a == 0.0 && c.g * c.a == 0.0 && c.b * c.a == 0.0;
  }

  /** The draw `drawRectangle` submits: the model transform (without projection) and the colour uniform. */
  datatype RectangleDraw = RectangleDraw(model: Transform, color: Rgba)

  function Bounds(args: RectangleArgs): Rect {
    Rect(args.x, args.y, args.width, args.height)
  }

  function DrawRectangle(args: RectangleArgs, trig: Trig): RectangleDraw {
    RectangleDraw(RectangleModel(Bounds(args), args.rotation.GetOr(0.0), trig), ColorUniform(args))
  }

  /** Whatever the rotation, the quad's centre lands on the rectangle's centre. */
  lemma DrawRectangleKeepsCenter(args: RectangleArgs, trig: Trig)
    ensures Apply(DrawRectangle(args, trig).model, Point(0.5, 0.5))
         == Point(args.x + args.width * 0.5, args.y + args.height * 0.5)
  {
    RectangleCenterFixed(Bounds(args), args.rotation.GetOr(0.0), trig);
  }

  /** Every point is placed on the rectangle, then turned about its centre by the rotation argument. */
  lemma DrawRectangleMaps(args: RectangleArgs, trig: Trig, p: Point)
    ensures Apply(DrawRectangle(args, trig).model, p)
         == RotateAbout(Point(args.x + args.width * 0.5, args.y + args.height * 0.5),
                        trig(args.rotation.GetOr(0.0)),
                        Point(args.x + p.x * args.width, args.y + p.y * args.height))
  {
    var angle := args.rotation.GetOr(0.0);
    assert DrawRectangle(args, trig).model == RectangleModel(Bounds(args), angle, trig);
    BoundsGeometry(args, p);
    RectangleModelMaps(Bounds(args), angle, trig, p);
  }

  lemma BoundsGeometry(args: RectangleArgs, p: Point)
    ensures Center(Bounds(args)) == Point(args.x + args.width * 0.5, args.y + args.height * 0.5)
    ensures Place(Bounds(args), p) == Point(args.x + p.x * args.width, args.y + p.y * args.height)
  {
  }

  /** Without a rotation every point is placed on the rectangle, unturned. */
  lemma DrawRectangleUnrotated(args: RectangleArgs, trig: Trig, p: Point)
    requires args.rotation.GetOr(0.0) == 0.0
    requires ExactAtZero(trig)
    ensures Apply(DrawRectangle(args, trig).model, p) == Point(args.x + p.x * args.width, args.y + p.y * args.height)
  {
    DrawRectangleMaps(args, trig, p);
    RotateAboutZero(Point(args.x + args.width * 0.5, args.y + args.height * 0.5),
                    Point(args.x + p.x * args.width, args.y + p.y * args.height));
  }

  /** Without a rotation the quad vertices land exactly on the rectangle's four corners. */
  lemma DrawRectangleCorners(args: RectangleArgs, trig: Trig)
    requires args.rotation.GetOr(0.0) == 0.0
    requires ExactAtZero(trig)
    ensures (set v | v in QuadVertices :: Apply(DrawRectangle(args, trig).model, v))
         == {Point(args.x, args.y), Point(args.x + args.width, args.y),
             Point(args.x, args.y + args.height), Point(args.x + args.width, args.y + args.height)}
  {
    assert DrawRectangle(args, trig).model == RectangleModel(Bounds(args), 0.0, trig);
    RectangleCornersUnrotated(Bounds(args), trig);
  }

  /** `drawRectangle(0, 0, 10, 10)`: the 10x10 square at the origin, opaque black. */
  lemma DefaultRectangleExample(trig: Trig)
    requires ExactAtZero(trig)
    ensures var args := RectangleArgs(0.0, 0.0, 10.0, 10.0, None, None, None, None, None);
      && DrawRectangle(args, trig).color == Rgba(0.0, 0.0, 0.0, 1.0)
      && FragmentColor(args) == Rgba(0.0, 0.0, 0.0, 1.0)
      && (set v | v in QuadVertices :: Apply(DrawRectangle(args, trig).model, v))
         == {Point(0.0, 0.0), Point(10.0, 0.0), Point(0.0, 10.0), Point(10.0, 10.0)}
  {
    var args := RectangleArgs(0.0, 0.0, 10.0, 10.0, None, None, None, None, None);
    DefaultColorIsOpaqueBlack(args);
    DrawRectangleCorners(args, trig);
  }
}
