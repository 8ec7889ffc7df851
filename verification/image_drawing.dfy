/**
 * `drawImage`: resolution of its positional arguments, and the two
 * matrices it uploads.
 *
 * `GLContext2D.js` takes eleven numbers after the texture handle, any trailing
 * run of which the caller may leave out; a left-out argument is
 * `undefined`, modelled as `None`. Seven `=== undefined` tests, in a fixed
 * order, then reassign the parameters; some of them move a value from one
 * parameter to another and some overwrite an earlier default. No
 * presence pattern is rejected: a pattern that leaves a value undefined
 * simply carries `undefined` into the matrix arithmetic.
 */
module ImageDrawing {
  import opened Wrappers
  import opened Affine
  import opened Shaders
  import opened Transforms

  /** The numeric parameters of `drawImage`, in positional order. */
  datatype ImageArgs = ImageArgs(
    texWidth: Option<real>, texHeight: Option<real>,
    srcX: Option<real>, srcY: Option<real>,
    srcWidth: Option<real>, srcHeight: Option<real>,
    dstX: Option<real>, dstY: Option<real>,
    dstWidth: Option<real>, dstHeight: Option<real>,
    srcRotation: Option<real>)

  /** A fully resolved draw: source crop, destination and rotation. */
  datatype ImageRequest = ImageRequest(src: Rect, dst: Rect, rotation: real)

  // The seven defaulting steps, in source order.

  /** Only (x, y) were given after the size: they are the destination; the source starts at 0. */
  function DefaultDstX(a: ImageArgs): ImageArgs {
    if a.dstX.None? then a.(dstX := a.srcX, srcX := Some(0.0)) else a
  }

  function DefaultDstY(a: ImageArgs): ImageArgs {
    if a.dstY.None? then a.(dstY := a.srcY, srcY := Some(0.0)) else a
  }

  function DefaultSrcWidth(a: ImageArgs): ImageArgs {
    if a.srcWidth.None? then a.(srcWidth := a.texWidth) else a
  }

  function DefaultSrcHeight(a: ImageArgs): ImageArgs {
    if a.srcHeight.None? then a.(srcHeight := a.texHeight) else a
  }

  /** No destination width: the (possibly defaulted) source width becomes it, and the crop widens back to the texture. */
  function DefaultDstWidth(a: ImageArgs): ImageArgs {
    if a.dstWidth.None? then a.(dstWidth := a.srcWidth, srcWidth := a.texWidth) else a
  }

  function DefaultDstHeight(a: ImageArgs): ImageArgs {
    if a.dstHeight.None? then a.(dstHeight := a.srcHeight, srcHeight := a.texHeight) else a
  }

  function DefaultRotation(a: ImageArgs): ImageArgs {
    if a.srcRotation.None? then a.(srcRotation := Some(0.0)) else a
  }

  /** The parameters after all seven steps. */
  function ResolveArguments(a: ImageArgs): (r: ImageArgs)
    ensures r.texWidth == a.texWidth && r.texHeight == a.texHeight
    ensures r.srcRotation == Some(a.srcRotation.GetOr(0.0))
  {
    DefaultRotation(DefaultDstHeight(DefaultDstWidth(DefaultSrcHeight(
      DefaultSrcWidth(DefaultDstY(DefaultDstX(a)))))))
  }

  /** The draw the resolved parameters describe, when none of them is still undefined. */
  function Resolve(a: ImageArgs): (r: Option<ImageRequest>)
    ensures r.Some? ==> a.srcX.Some? && a.srcY.Some?
    ensures r.Some? ==> r.value.rotation == a.srcRotation.GetOr(0.0)
  {
    var r := ResolveArguments(a);
    if r.srcX.Some? && r.srcY.Some? && r.srcWidth.Some? && r.srcHeight.Some?
       && r.dstX.Some? && r.dstY.Some? && r.dstWidth.Some? && r.dstHeight.Some?
       && r.srcRotation.Some?
    then Some(ImageRequest(
           Rect(r.srcX.value, r.srcY.value, r.srcWidth.value, r.srcHeight.value),
           Rect(r.dstX.value, r.dstY.value, r.dstWidth.value, r.dstHeight.value),
           r.srcRotation.value))
    else None
  }

  // ---------------------------------------------------------------------
  // What resolution does, field by field.

  /**
   * The complete effect of resolution on each resolved parameter, stated
   * per axis in terms of the arguments alone. The texture size is never
   * reassigned.
   */
  lemma ResolvedFields(a: ImageArgs)
    ensures var r := ResolveArguments(a);
      && r.texWidth == a.texWidth && r.texHeight == a.texHeight
      // position: a missing destination coordinate takes the source one, whose place becomes 0
      && (a.dstX.None? ==> r.dstX == a.srcX && r.srcX == Some(0.0))
      && (a.dstX.Some? ==> r.dstX == a.dstX && r.srcX == a.srcX)
      && (a.dstY.None? ==> r.dstY == a.srcY && r.srcY == Some(0.0))
      && (a.dstY.Some? ==> r.dstY == a.dstY && r.srcY == a.srcY)
      // size: a missing destination size takes the source size (or the texture size) and resets the crop
      && (a.dstWidth.None? ==>
            r.dstWidth == (if a.srcWidth.Some? then a.srcWidth else a.texWidth) && r.srcWidth == a.texWidth)
      && (a.dstWidth.Some? ==>
            r.dstWidth == a.dstWidth && r.srcWidth == (if a.srcWidth.Some? then a.srcWidth else a.texWidth))
      && (a.dstHeight.None? ==>
            r.dstHeight == (if a.srcHeight.Some? then a.srcHeight else a.texHeight) && r.srcHeight == a.texHeight)
      && (a.dstHeight.Some? ==>
            r.dstHeight == a.dstHeight && r.srcHeight == (if a.srcHeight.Some? then a.srcHeight else a.texHeight))
      // rotation: 0 when omitted, the given value otherwise
      && r.srcRotation == (if a.srcRotation.None? then Some(0.0) else a.srcRotation)
  {
    // The position steps touch only the position fields ...
    var a2 := DefaultDstY(DefaultDstX(a));
    assert a2.(dstX := a.dstX, srcX := a.srcX, dstY := a.dstY, srcY := a.srcY) == a;
    // ... the source-size steps only the source size ...
    var a4 := DefaultSrcHeight(DefaultSrcWidth(a2));
    assert a4.(srcWidth := a2.srcWidth, srcHeight := a2.srcHeight) == a2;
    assert a4.srcWidth == (if a.srcWidth.Some? then a.srcWidth else a.texWidth);
    assert a4.srcHeight == (if a.srcHeight.Some? then a.srcHeight else a.texHeight);
    // ... and the destination-size steps only the sizes.
    var a6 := DefaultDstHeight(DefaultDstWidth(a4));
    assert a6.(srcWidth := a4.srcWidth, srcHeight := a4.srcHeight,
               dstWidth := a4.dstWidth, dstHeight := a4.dstHeight) == a4;
  }

  /**
   * Resolution yields a complete draw exactly when both source coordinates
   * were given and, per axis, the texture size is known or both the source
   * and destination sizes were given.
   */
  lemma ResolveDefinedExactly(a: ImageArgs)
    ensures Resolve(a).Some? <==>
      && a.srcX.Some? && a.srcY.Some?
      && (a.texWidth.Some? || (a.srcWidth.Some? && a.dstWidth.Some?))
      && (a.texHeight.Some? || (a.srcHeight.Some? && a.dstHeight.Some?))
  {
    ResolvedFields(a);
  }

  /** With the texture size and both source coordinates present, every field resolves. */
  lemma ResolveTotal(a: ImageArgs)
    requires a.texWidth.Some? && a.texHeight.Some? && a.srcX.Some? && a.srcY.Some?
    ensures Resolve(a).Some?
    ensures Resolve(a).value.rotation == a.srcRotation.GetOr(0.0)
  {
    ResolvedFields(a);
  }

  /** Once everything is defined, resolving again changes nothing. */
  lemma ResolveIdempotent(a: ImageArgs)
    requires Resolve(a).Some?
    ensures ResolveArguments(ResolveArguments(a)) == ResolveArguments(a)
  {
    ResolvedFields(a);
    ResolvedFields(ResolveArguments(a));
  }

  // ---------------------------------------------------------------------
  // The two shapes commented at lines 173-174 of `GLContext2D.js` and the
  // full twelve-argument form (line 175).

  /** `drawImage(tex, texW, texH, x, y)`: the position sits in the source-coordinate slots. */
  predicate WholeImageAt(a: ImageArgs) {
    && a.texWidth.Some? && a.texHeight.Some? && a.srcX.Some? && a.srcY.Some?
    && a.srcWidth.None? && a.srcHeight.None?
    && a.dstX.None? && a.dstY.None? && a.dstWidth.None? && a.dstHeight.None?
    && a.srcRotation.None?
  }

  /** `drawImage(tex, texW, texH, x, y, w, h)`: position and size sit in the source slots. */
  predicate WholeImageScaledTo(a: ImageArgs) {
    && a.texWidth.Some? && a.texHeight.Some? && a.srcX.Some? && a.srcY.Some?
    && a.srcWidth.Some? && a.srcHeight.Some?
    && a.dstX.None? && a.dstY.None? && a.dstWidth.None? && a.dstHeight.None?
    && a.srcRotation.None?
  }

  /** All eleven numbers given: crop, destination and rotation. */
  predicate CroppedScaledRotated(a: ImageArgs) {
    && a.texWidth.Some? && a.texHeight.Some?
    && a.srcX.Some? && a.srcY.Some? && a.srcWidth.Some? && a.srcHeight.Some?
    && a.dstX.Some? && a.dstY.Some? && a.dstWidth.Some? && a.dstHeight.Some?
    && a.srcRotation.Some?
  }

  /** The five-argument form draws the whole texture at its own size at (x, y), unrotated. */
  lemma WholeImageAtResolves(a: ImageArgs)
    requires WholeImageAt(a)
    ensures Resolve(a) == Some(ImageRequest(
      Rect(0.0, 0.0, a.texWidth.value, a.texHeight.value),
      Rect(a.srcX.value, a.srcY.value, a.texWidth.value, a.texHeight.value),
      0.0))
  {
    ResolvedFields(a);
  }

  /** The seven-argument form draws the whole texture stretched onto (x, y, w, h), unrotated. */
  lemma WholeImageScaledToResolves(a: ImageArgs)
    requires WholeImageScaledTo(a)
    ensures Resolve(a) == Some(ImageRequest(
      Rect(0.0, 0.0, a.texWidth.value, a.texHeight.value),
      Rect(a.srcX.value, a.srcY.value, a.srcWidth.value, a.srcHeight.value),
      0.0))
  {
    ResolvedFields(a);
  }

  /**
   * When the eight rectangle values and the rotation are all given, no
   * step fires: the parameters come out exactly as they went in.
   */
  lemma FullySpecifiedUnchanged(a: ImageArgs)
    requires a.srcX.Some? && a.srcY.Some? && a.srcWidth.Some? && a.srcHeight.Some?
    requires a.dstX.Some? && a.dstY.Some? && a.dstWidth.Some? && a.dstHeight.Some?
    requires a.srcRotation.Some?
    ensures ResolveArguments(a) == a
    ensures Resolve(a) == Some(ImageRequest(
      Rect(a.srcX.value, a.srcY.value, a.srcWidth.value, a.srcHeight.value),
      Rect(a.dstX.value, a.dstY.value, a.dstWidth.value, a.dstHeight.value),
      a.srcRotation.value))
  {
  }

  /** The full twelve-argument form is taken literally. */
  lemma CroppedScaledRotatedResolves(a: ImageArgs)
    requires CroppedScaledRotated(a)
    ensures Resolve(a) == Some(ImageRequest(
      Rect(a.srcX.value, a.srcY.value, a.srcWidth.value, a.srcHeight.value),
      Rect(a.dstX.value, a.dstY.value, a.dstWidth.value, a.dstHeight.value),
      a.srcRotation.value))
  {
    FullySpecifiedUnchanged(a);
  }

  /**
   * An undocumented shape the code still accepts: crop and destination
   * position without a destination size. The crop size becomes the
   * destination size and the crop keeps its origin but widens to the
   * texture size.
   */
  lemma CropWithoutDestinationSize(a: ImageArgs)
    requires a.texWidth.Some? && a.texHeight.Some?
    requires a.srcX.Some? && a.srcY.Some? && a.srcWidth.Some? && a.srcHeight.Some?
    requires a.dstX.Some? && a.dstY.Some? && a.dstWidth.None? && a.dstHeight.None?
    ensures Resolve(a) == Some(ImageRequest(
      Rect(a.srcX.value, a.srcY.value, a.texWidth.value, a.texHeight.value),
      Rect(a.dstX.value, a.dstY.value, a.srcWidth.value, a.srcHeight.value),
      a.srcRotation.GetOr(0.0)))
  {
    ResolvedFields(a);
  }

  /**
   * The two shapes commented at lines 173-174 of `GLContext2D.js` and the
   * full twelve-argument form (line 175), on concrete numbers.
   */
  lemma ResolveExamples()
    ensures Resolve(ImageArgs(Some(100.0), Some(50.0), Some(10.0), Some(20.0),
                              None, None, None, None, None, None, None))
         == Some(ImageRequest(Rect(0.0, 0.0, 100.0, 50.0), Rect(10.0, 20.0, 100.0, 50.0), 0.0))
    ensures Resolve(ImageArgs(Some(100.0), Some(50.0), Some(10.0), Some(20.0),
                              Some(40.0), Some(30.0), None, None, None, None, None))
         == Some(ImageRequest(Rect(0.0, 0.0, 100.0, 50.0), Rect(10.0, 20.0, 40.0, 30.0), 0.0))
    ensures Resolve(ImageArgs(Some(100.0), Some(50.0), Some(5.0), Some(5.0), Some(20.0), Some(20.0),
                              Some(10.0), Some(20.0), Some(40.0), Some(30.0), Some(1.57)))
         == Some(ImageRequest(Rect(5.0, 5.0, 20.0, 20.0), Rect(10.0, 20.0, 40.0, 30.0), 1.57))
  {
  }

  // ---------------------------------------------------------------------
  // The matrices.

  /** The two transforms `drawImage` uploads, without the projection. */
  datatype ImageDraw = ImageDraw(model: Transform, texture: Transform)

  /**
   * The model and texture transforms of a draw. `None` when the JavaScript code
   * would compute with `undefined` (some resolved field or a texture
   * dimension is missing) or divide by a zero texture dimension: the
   * uploaded matrices would then not be finite.
   */
  function DrawImage(a: ImageArgs, trig: Trig): (r: Option<ImageDraw>)
    ensures r.Some? <==>
      && Resolve(a).Some?
      && a.texWidth.Some? && a.texHeight.Some?
      && a.texWidth.value != 0.0 && a.texHeight.value != 0.0
  {
    match Resolve(a)
    case None => None
    case Some(req) =>
      if a.texWidth.None? || a.texHeight.None? || a.texWidth.value == 0.0 || a.texHeight.value == 0.0
      then None
      else Some(ImageDraw(
             ImageModel(req.dst),
             TextureMatrix(a.texWidth.value, a.texHeight.value, req.src, req.rotation, trig)))
  }

  /**
   * A draw whose arguments resolve and whose texture has a non-zero size
   * places the quad on the destination rectangle and samples the crop,
   * rotated about its centre, in normalised texture coordinates.
   */
  lemma DrawImageMaps(a: ImageArgs, trig: Trig, p: Point)
    requires Resolve(a).Some?
    requires a.texWidth.Some? && a.texHeight.Some?
    requires a.texWidth.value != 0.0 && a.texHeight.value != 0.0
    ensures DrawImage(a, trig).Some?
    ensures Apply(DrawImage(a, trig).value.model, p) == Place(Resolve(a).value.dst, p)
    ensures Apply(DrawImage(a, trig).value.texture, p)
         == Normalize(a.texWidth.value, a.texHeight.value,
                      RotateAbout(Center(Resolve(a).value.src), trig(Resolve(a).value.rotation),
                                  Place(Resolve(a).value.src, p)))
  {
    var req := Resolve(a).value;
    ImageModelPlaces(req.dst, p);
    TextureMatrixSamples(a.texWidth.value, a.texHeight.value, req.src, req.rotation, trig, p);
  }

  /**
   * A draw of the whole texture, unrotated: the quad covers the destination
   * and every fragment samples the texture at its own quad coordinate, so a
   * fragment is discarded exactly when it lies outside the unit square.
   */
  lemma WholeTextureDraws(a: ImageArgs, trig: Trig, dst: Rect, p: Point)
    requires a.texWidth.Some? && a.texHeight.Some?
    requires a.texWidth.value != 0.0 && a.texHeight.value != 0.0
    requires Resolve(a) == Some(ImageRequest(Rect(0.0, 0.0, a.texWidth.value, a.texHeight.value), dst, 0.0))
    requires ExactAtZero(trig)
    ensures DrawImage(a, trig).Some?
    ensures Apply(DrawImage(a, trig).value.model, p) == Place(dst, p)
    ensures Apply(DrawImage(a, trig).value.texture, p) == p
    ensures Discarded(Apply(DrawImage(a, trig).value.texture, p)) <==> !InUnitSquare(p)
  {
    ImageModelPlaces(dst, p);
    WholeTextureSamplesIdentity(a.texWidth.value, a.texHeight.value, trig, p);
  }

  /** `drawImage(tex, texW, texH, x, y)` end to end: the texture at its own size at (x, y). */
  lemma WholeImageAtDraws(a: ImageArgs, trig: Trig, p: Point)
    requires WholeImageAt(a)
    requires a.texWidth.value != 0.0 && a.texHeight.value != 0.0
    requires ExactAtZero(trig)
    ensures DrawImage(a, trig).Some?
    ensures Apply(DrawImage(a, trig).value.model, p)
         == Point(a.srcX.value + p.x * a.texWidth.value, a.srcY.value + p.y * a.texHeight.value)
    ensures Apply(DrawImage(a, trig).value.texture, p) == p
  {
    WholeImageAtResolves(a);
    WholeTextureDraws(a, trig, Rect(a.srcX.value, a.srcY.value, a.texWidth.value, a.texHeight.value), p);
  }

  /** `drawImage(tex, texW, texH, x, y, w, h)` end to end: the texture stretched onto (x, y, w, h). */
  lemma WholeImageScaledToDraws(a: ImageArgs, trig: Trig, p: Point)
    requires WholeImageScaledTo(a)
    requires a.texWidth.value != 0.0 && a.texHeight.value != 0.0
    requires ExactAtZero(trig)
    ensures DrawImage(a, trig).Some?
    ensures Apply(DrawImage(a, trig).value.model, p)
         == Point(a.srcX.value + p.x * a.srcWidth.value, a.srcY.value + p.y * a.srcHeight.value)
    ensures Apply(DrawImage(a, trig).value.texture, p) == p
  {
    WholeImageScaledToResolves(a);
    WholeTextureDraws(a, trig, Rect(a.srcX.value, a.srcY.value, a.srcWidth.value, a.srcHeight.value), p);
  }

  /**
   * Cropping, unrotated: with a crop inside the texture, no fragment of
   * the destination quad is discarded.
   */
  lemma CropInsideDrawsEverything(a: ImageArgs, trig: Trig, p: Point)
    requires Resolve(a).Some?
    requires a.texWidth.Some? && a.texHeight.Some?
    requires CropInside(a.texWidth.value, a.texHeight.value, Resolve(a).value.src)
    requires Resolve(a).value.rotation == 0.0
    requires ExactAtZero(trig)
    requires InUnitSquare(p)
    ensures DrawImage(a, trig).Some?
    ensures !Discarded(Apply(DrawImage(a, trig).value.texture, p))
  {
    var req := Resolve(a).value;
    CropInsideKeepsQuad(a.texWidth.value, a.texHeight.value, req.src, trig, p);
  }
}
