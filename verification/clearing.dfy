/**
 * `clear(color)`: the clear colour it sets. Parsing a colour
 * specification is done by an external library; its result, an RGB triple
 * in 0..255, is taken as given. A falsy or missing argument is `None`.
 */
module Clearing {
  import opened Wrappers
  import opened Shaders

  /** The external parser's result. */
  datatype Rgb255 = Rgb255(r: real, g: real, b: real)

  function ClearColor(parsed: Option<Rgb255>): Rgba {
    match parsed
    case None => Rgba(0.0, 0.0, 0.0, 0.0)
    case Some(c) => Rgba(c.r / 255.0, c.g / 255.0, c.b / 255.0, 1.0)
  }

  /**
   * Without a colour the surface clears to transparent black; with one it
   * clears opaque, to the parsed channels scaled into 0..1.
   */
  lemma ClearColorSpec(parsed: Option<Rgb255>)
    ensures parsed.None? ==> ClearColor(parsed) == Rgba(0.0, 0.0, 0.0, 0.0)
    ensures parsed.Some? ==>
      && ClearColor(parsed).a == 1.0
      && ClearColor(parsed).r * 255.0 == parsed.value.r
      && ClearColor(parsed).g * 255.0 == parsed.value.g
      && ClearColor(parsed).b * 255.0 == parsed.value.b
    ensures ClearColor(parsed).a == 1.0 <==> parsed.Some?
  {
  }

  /** A colour the parser reads as pure red clears to (1, 0, 0, 1). */
  lemma ClearRed()
    ensures ClearColor(Some(Rgb255(255.0, 0.0, 0.0))) == Rgba(1.0, 0.0, 0.0, 1.0)
  {
  }
}
