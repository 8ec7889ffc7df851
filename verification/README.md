# GLContext2D in Dafny

A model of the computational core of `GLContext2D`, a small 2-D drawing layer over a WebGL-style
context. The library offers `drawImage`, `drawRectangle` and `clear`. It draws every shape from one
unit-square vertex buffer: a shape's size, position and rotation are carried only by the matrices it
uploads for that draw. The model covers:

- **`drawImage` argument resolution.** The positional arguments come with optional trailing values.
  Seven `=== undefined` tests, applied in source order, fill in or move values until there is a source
  crop, a destination rectangle and a rotation (`ImageDrawing`). A left-out argument is `None`.
- **The transforms.** These are the image destination chain, the texture-sampling chain and the
  rotated-rectangle chain, built from the same library calls in the same order (`Transforms`). They are
  written as 2-D affine transforms over `real` (`Affine`).
- **Shader logic.** This is the fragment discard test, the premultiplied colour output and the shared
  quad vertices (`Shaders`).
- **Colours.** The colour uniform of `drawRectangle` (`RectangleDrawing`) and the clear colour of
  `clear` (`Clearing`).

Assumptions:

- **The matrix library.** `m4.js` is not part of this model. Its `translate`, `scale` and `zRotate`
  are taken to return their matrix argument post-multiplied by the elementary transform, and
  `scaling` to build a fresh scale matrix. This is stated as definitions (`Affine.Translate`,
  `Affine.Scale`, `Affine.ZRotate`, `Affine.Scaled`).
- **Why 2-D is enough.** Every vertex has z = 0 and w = 1, and every translation has z offset 0, every
  scale has z factor 1 and every rotation is about z. On such points the 4x4 column-major matrix acts
  as the 2-D affine map recorded in `Affine.Matrix`.
- **Transforms are step chains.** A transform is kept as the chain of steps it was built from.
  `Affine.ToMatrix` multiplies the chain out, and its contract says the product acts on every point
  as the chain does.
- **Cosine and sine.** They are one uninterpreted function `trig: real -> Rotation`, passed as a
  parameter. The only assumption made about it is `trig(0) == (1, 0)` (`ExactAtZero`), and only the
  angle-0 results need it.
- **No projection.** The image and rectangle chains start from an orthographic projection, which is
  not modelled. Each chain is written from an arbitrary start (`ImageChain`, `RectangleChain`). The
  factoring lemmas prove that the chain's matrix is the start's matrix times the matrix of the
  projection-free model.

`GLContext2D.js` comments two call shapes (lines 173-174); the signature at line 175 adds the full
twelve-argument form. The code rejects no argument pattern, and this model follows the code. Other
patterns resolve as the code resolves them (`CropWithoutDestinationSize` is one). A pattern that
leaves a field `undefined` yields `None` from `Resolve`, because the JavaScript code would compute
with `undefined` at that point.

## Model

| member | source | states |
|---|---|---|
| Affine.ApplyCompose | src/GLContext2D.js:211-213 | a product m * n applied to a point applies n first, then m; this is why each chain acts last-call-first |
| Affine.ToMatrix | src/GLContext2D.js:214 | the uploaded matrix, the chain multiplied out, maps every point exactly as the chain does |
| Affine.ToMatrixCompose | src/GLContext2D.js:211-213 | the matrix of a product of transforms is the product of their matrices |
| Shaders.QuadUsesUnitCorners | src/GLContext2D.js:60-64 | the six buffer vertices form two triangles that share the diagonal and use exactly the four unit-square corners |
| Shaders.DiscardedOutsideUnitSquare | src/GLContext2D.js:37-41 | a fragment is discarded exactly when its texture coordinate leaves [0, 1] x [0, 1] |
| Shaders.Discarded | src/GLContext2D.js:37-41 | the texture fragment shader's discard test, one comparison per bound; `DiscardedOutsideUnitSquare` states its meaning |
| Shaders.Premultiply | src/GLContext2D.js:52 | the colour fragment shader's output, RGB times alpha with alpha kept; `PremultiplyRoundTrip` and `PremultiplyProperties` state its meaning |
| Shaders.PremultiplyRoundTrip | src/GLContext2D.js:52 | dividing RGB by a non-zero alpha recovers the colour from its premultiplied output |
| Shaders.PremultiplyProperties | src/GLContext2D.js:52 | premultiplying a normalised colour keeps alpha, never lets RGB exceed alpha, leaves opaque colours unchanged and makes zero-alpha colours transparent black |
| Transforms.ImageModelPlaces | src/GLContext2D.js:212-213 | the image model sends unit-square point (u, v) to (dstX + u*dstW, dstY + v*dstH) |
| Transforms.ImageChainFactors | src/GLContext2D.js:211-213 | the image chain from any start is that start times the image model, as chains and as matrices |
| Transforms.ImageChain | src/GLContext2D.js:211-213 | the destination chain, `translate` then `scale`, from any start; `ImageModelPlaces` and `ImageChainFactors` state what it maps |
| Transforms.TextureMatrixSamples | src/GLContext2D.js:216-221 | for any angle, (u, v) samples the crop point (u, v), rotated about the crop centre, divided by the texture size |
| Transforms.TextureCenterFixed | src/GLContext2D.js:216-221 | for any angle, the quad centre samples the crop centre |
| Transforms.TextureMatrixUnrotated | src/GLContext2D.js:216-221 | at angle 0, (u, v) samples ((srcX + u*srcW)/texW, (srcY + v*srcH)/texH) |
| Transforms.WholeTextureSamplesIdentity | src/GLContext2D.js:216-221 | a whole-texture crop at angle 0 samples every quad point at its own coordinates |
| Transforms.CropInsideKeepsQuad | src/GLContext2D.js:216-221 | at angle 0, a crop inside the texture sends the unit square inside [0, 1] x [0, 1], so nothing is discarded |
| Transforms.TextureMatrix | src/GLContext2D.js:216-221 | the texture chain: `scaling` by the reciprocal texture size, then the rectangle chain on the crop; `TextureMatrixSamples` states what it samples |
| Transforms.RectangleModelMaps | src/GLContext2D.js:243-247 | the rectangle model places (u, v) on the rectangle, then rotates it about the rectangle's centre |
| Transforms.RectangleCenterFixed | src/GLContext2D.js:243-247 | for any angle, the quad centre (0.5, 0.5) lands on (x + w/2, y + h/2) |
| Transforms.RectangleUnrotated | src/GLContext2D.js:243-247 | at angle 0, (u, v) lands on (x + u*w, y + v*h) |
| Transforms.RectangleCornersUnrotated | src/GLContext2D.js:242-247 | at angle 0, the six quad vertices land exactly on the rectangle's four corners |
| Transforms.RectangleChainFactors | src/GLContext2D.js:242-247 | the rectangle chain from any start is that start times the rectangle model, as chains and as matrices |
| Transforms.RectangleChain | src/GLContext2D.js:242-247 | the rectangle chain in call order from any start; `RectangleModelMaps` and `RectangleChainFactors` state what it maps |
| ImageDrawing.ResolveArguments | src/GLContext2D.js:178-202 | the seven steps never reassign the texture size, and always leave a rotation: the given one, else 0; `ResolvedFields` gives every other field |
| ImageDrawing.Resolve | src/GLContext2D.js:178-202 | a resolved draw needs srcX and srcY to have been given, and carries the given rotation or 0; `ResolveDefinedExactly` gives the exact condition |
| ImageDrawing.ResolvedFields | src/GLContext2D.js:178-202 | each resolved parameter, per axis, in terms of the arguments alone; the texture size is never reassigned |
| ImageDrawing.ResolveDefinedExactly | src/GLContext2D.js:178-202 | resolution defines every field exactly when srcX and srcY are given and, per axis, the texture size or both sizes are given |
| ImageDrawing.ResolveTotal | src/GLContext2D.js:178-202 | with texture size, srcX and srcY present every field resolves; rotation is 0 when omitted, the given value otherwise |
| ImageDrawing.ResolveIdempotent | src/GLContext2D.js:178-202 | once every field is defined, resolving again changes nothing |
| ImageDrawing.WholeImageAtResolves | src/GLContext2D.js:173-202 | `(tex, texW, texH, x, y)` resolves to source (0, 0, texW, texH), destination (x, y, texW, texH), rotation 0 |
| ImageDrawing.WholeImageScaledToResolves | src/GLContext2D.js:174-202 | `(tex, texW, texH, x, y, w, h)` resolves to source (0, 0, texW, texH), destination (x, y, w, h), rotation 0 |
| ImageDrawing.FullySpecifiedUnchanged | src/GLContext2D.js:175-202 | with all eight rectangle values and the rotation given, no field is defaulted or overwritten |
| ImageDrawing.CroppedScaledRotatedResolves | src/GLContext2D.js:175-202 | the twelve-argument form resolves to exactly its own values |
| ImageDrawing.CropWithoutDestinationSize | src/GLContext2D.js:192-199 | a crop and destination position without a destination size: the crop size becomes the destination size and the crop widens to the texture size |
| ImageDrawing.ResolveExamples | src/GLContext2D.js:173-202 | the two shapes commented at lines 173-174 and the full twelve-argument form (line 175), on concrete numbers, resolve to the expected rectangles and rotation |
| ImageDrawing.DrawImage | src/GLContext2D.js:211-221 | a draw is produced exactly when resolution succeeds and the texture size is given and non-zero; `DrawImageMaps` states both uploaded maps |
| ImageDrawing.DrawImageMaps | src/GLContext2D.js:211-221 | a resolved draw with a non-zero texture size places the quad on the destination and samples the rotated crop |
| ImageDrawing.WholeTextureDraws | src/GLContext2D.js:211-221 | a whole-texture draw at angle 0 samples each fragment at its quad coordinate and discards exactly outside the unit square |
| ImageDrawing.WholeImageAtDraws | src/GLContext2D.js:173-221 | the five-argument form covers (x, y, texW, texH) and samples the texture one-to-one |
| ImageDrawing.WholeImageScaledToDraws | src/GLContext2D.js:174-221 | the seven-argument form covers (x, y, w, h) and samples the texture one-to-one |
| ImageDrawing.CropInsideDrawsEverything | src/GLContext2D.js:37-41 | an unrotated draw whose resolved crop lies inside the texture discards no fragment |
| RectangleDrawing.ColorUniform | src/GLContext2D.js:228-235 | the colour uniform, each channel over 255 with defaults 0, 0, 0, 255; `ColorUniformRoundTrip` and `ColorUniformNormalized` state its meaning |
| RectangleDrawing.ColorUniformRoundTrip | src/GLContext2D.js:228-235 | times 255, the uniform gives back the effective channel arguments (r, g, b default 0, a default 255) |
| RectangleDrawing.ColorUniformNormalized | src/GLContext2D.js:228-235 | the uniform lies in [0, 1] exactly when every effective channel lies in 0..255 |
| RectangleDrawing.DefaultColorIsOpaqueBlack | src/GLContext2D.js:228-235 | with no colour arguments the uniform and the written colour are (0, 0, 0, 1) |
| RectangleDrawing.OpaqueColorUnchanged | src/GLContext2D.js:52 | with alpha 255, given or defaulted, the fragment writes the uniform unchanged |
| RectangleDrawing.TransparentColorIsBlank | src/GLContext2D.js:52 | with alpha 0 the fragment writes transparent black |
| RectangleDrawing.DrawRectangle | src/GLContext2D.js:228-247 | the rectangle chain for the arguments' bounds and rotation (default 0), with the colour uniform; `DrawRectangleMaps` and `DrawRectangleCorners` state what it draws |
| RectangleDrawing.DrawRectangleKeepsCenter | src/GLContext2D.js:242-247 | whatever the rotation argument, the quad centre lands on the rectangle centre |
| RectangleDrawing.DrawRectangleMaps | src/GLContext2D.js:243-247 | the last argument, named `alpha`, rotates the rectangle about its centre |
| RectangleDrawing.DrawRectangleUnrotated | src/GLContext2D.js:243-247 | without rotation (u, v) lands on (x + u*width, y + v*height) |
| RectangleDrawing.DrawRectangleCorners | src/GLContext2D.js:242-247 | without rotation the six quad vertices land exactly on the rectangle's four corners |
| RectangleDrawing.DefaultRectangleExample | src/GLContext2D.js:228-251 | `drawRectangle(0, 0, 10, 10)` covers the 10x10 square at the origin in opaque black |
| Clearing.ClearColor | src/GLContext2D.js:262-268 | the clear colour for a missing or a parsed colour; `ClearColorSpec` states its meaning |
| Clearing.ClearColorSpec | src/GLContext2D.js:262-268 | without a colour the clear colour is (0, 0, 0, 0); with one it is opaque and equals the parsed channels divided by 255 |
| Clearing.ClearRed | src/GLContext2D.js:263-265 | a colour parsed as (255, 0, 0) clears to (1, 0, 0, 1) |

## Left out

- Shader compilation and linking, including the errors thrown on failure (src/GLContext2D.js:67-114). This is foreign GPU API with no logic of its own.
- Attribute and uniform location lookup, buffer creation and upload, blend state, and the bind, upload and draw calls inside `drawImage` and `drawRectangle`. They are stateful GPU plumbing. The vertex data itself is modelled as `Shaders.QuadVertices`.
- `createTextureFromAsset` (146-171), `render` (254-257) and the `width`/`height` getters. They only forward to the GPU context.
- The orthographic projection and the rest of `m4.js`. The library source is not part of this model. Its assumed post-multiplication semantics are given as definitions, and the factoring lemmas show the projection only pre-multiplies the modelled map.
- Parsing a colour specification for `clear`. The external `color` library is not part of this model; its output is taken as a given RGB triple. If `array()` also returned an alpha, line 263 would divide that alpha by 255 as a fourth channel, the `push(1)` at line 264 would become a fifth argument that `clearColor` ignores, and the clear alpha would be alpha/255 rather than 1. `Clearing.ClearColorSpec` states the opaque result only for RGB-only parser output.
- Floating-point precision, NaN and Infinity. Arithmetic is over `real`. `DrawImage` returns `None` where the JavaScript code would produce NaN or Infinity: an undefined operand, or a zero texture dimension in `1 / texWidth`.
- JavaScript values other than numbers and `undefined`, such as `null` or strings, passed as `drawImage` or `drawRectangle` arguments.
- A left-out `x`, `y`, `width` or `height` of `drawRectangle`. These four are plain `real` in `RectangleArgs`, so `undefined` cannot be expressed for them; the JavaScript code would then compute NaN in the matrix chain at lines 243-247. Only the five defaulted parameters (`r`, `g`, `b`, `a`, `alpha`) may be left out in the model.
- Real trigonometry. Cosine and sine are an uninterpreted parameter, and only their value at angle 0 is assumed.
- GLSL execution beyond the discard test and the premultiply formula, such as texture sampling, filtering and interpolation.
- Transforms.TextureMatrix: requires a non-zero texture width and height because Dafny's real division does, while the JavaScript code divides anyway and gets Infinity; `DrawImage` covers that case with `None`.
- The texture matrix's contracts state its sampling map and nothing about rotated crops staying inside the texture. No such promise is made, and a rotated crop can leave [0, 1] x [0, 1] and be discarded.
