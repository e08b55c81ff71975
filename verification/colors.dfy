/**
 Colours as the rendering library's `Color` holds them: three channels, here
 real numbers rather than floating point. No channel is ever clamped, so no
 bound on a channel is assumed anywhere in the model.
 */
module Colors {

  datatype Rgb = Rgb(r: real, g: real, b: real)

  /**
   `c.clone()` followed by `clone.g += d`. The clone is a new object, so the
   colour it was taken from keeps its value; with colours as values that is
   automatic, and the result is the adjusted clone.
   */
  function CloneAddGreen(c: Rgb, d: real): Rgb
  {
    c.(g := c.g + d)
  }
}
