/** What the two particle-texture generator scripts (genFlash.py and
    genReaction.py) share: a 256 by 1 RGBA row, a fade-in over the first
    tenth of the row and a fade-out over the last fifth, and the write of a
    colour in [0, 1] into an 8-bit channel. Division is true division, as
    the scripts evidently intend; the integer division the Python 2
    interpreter would apply to `x / w` and `(w - x) / w` is modelled beside
    it. */
module Gradients {
  import opened Common

  /** The row's width and height. */
  const W: int := 256
  const H: int := 1

  /** One RGBA pixel of 8-bit channels. */
  datatype Pixel = Pixel(r: int, g: int, b: int, a: int)

  /** A colour before it is written, each channel nominally in [0, 1]. */
  datatype Colour = Colour(r: real, g: real, b: real, a: real)

  predicate IsByte(c: int)
  {
    0 <= c <= 255
  }

  predicate InByteRange(p: Pixel)
  {
    IsByte(p.r) && IsByte(p.g) && IsByte(p.b) && IsByte(p.a)
  }

  /** The fade-in factor min(x / w * 10, 1). */
  function FadeIn(x: int): real
  {
    Min(x as real / W as real * 10.0, 1.0)
  }

  /** The fade-out factor min((w - x) / w * 5, 1). */
  function FadeOut(x: int): real
  {
    Min((W - x) as real / W as real * 5.0, 1.0)
  }

  /** Both factors lie in [0, 1] along the row; the fade-in is 0 only at
      the first pixel and reaches 1 from pixel 26 on; the fade-out is 1 up
      to pixel 204 and falls after it. */
  lemma FadeBounds(x: int)
    requires 0 <= x < W
    ensures 0.0 <= FadeIn(x) <= 1.0 && 0.0 < FadeOut(x) <= 1.0
    ensures FadeIn(x) == 0.0 <==> x == 0
    ensures FadeIn(x) == 1.0 <==> 26 <= x
    ensures FadeOut(x) == 1.0 <==> x <= 204
  {
  }

  /** numpy's store of a float into a uint8 channel: truncation, which is
      the floor for the non-negative values written here. */
  function Channel(v: real): int
  {
    v.Floor
  }

  /** The pixel a colour is written as: each channel scaled by 255. */
  function ToPixel(c: Colour): Pixel
  {
    Pixel(Channel(c.r * 255.0), Channel(c.g * 255.0), Channel(c.b * 255.0), Channel(c.a * 255.0))
  }

  predicate UnitColour(c: Colour)
  {
    0.0 <= c.r <= 1.0 && 0.0 <= c.g <= 1.0 && 0.0 <= c.b <= 1.0 && 0.0 <= c.a <= 1.0
  }

  /** A colour in [0, 1] is written as a pixel in [0, 255]. */
  lemma ToPixelInRange(c: Colour)
    requires UnitColour(c)
    ensures InByteRange(ToPixel(c))
  {
  }

  /** Scaling by a factor in [0, 1] keeps a value of [0, 1] in [0, 1] and
      never makes it larger. */
  lemma UnitProduct(v: real, s: real)
    requires 0.0 <= v <= 1.0 && 0.0 <= s <= 1.0
    ensures 0.0 <= v * s <= v
  {
    if v > 0.0 {
      ScaleMonotone(0.0, s, v);
      ScaleMonotone(s, 1.0, v);
    }
  }

  /** A colour with all four channels scaled by s. */
  function Scaled(c: Colour, s: real): Colour
  {
    Colour(c.r * s, c.g * s, c.b * s, c.a * s)
  }

  /** A colour with its red, green and blue scaled by s and its alpha kept. */
  function ScaledRGB(c: Colour, s: real): Colour
  {
    Colour(c.r * s, c.g * s, c.b * s, c.a)
  }

  /** Scaling a colour of [0, 1] by a factor in [0, 1] keeps it in
      [0, 1]. */
  lemma ScaledUnit(c: Colour, s: real)
    requires UnitColour(c) && 0.0 <= s <= 1.0
    ensures UnitColour(Scaled(c, s))
  {
    var r, g, b, a := c.r * s, c.g * s, c.b * s, c.a * s;
    assert 0.0 <= r <= 1.0 by { UnitProduct(c.r, s); }
    assert 0.0 <= g <= 1.0 by { UnitProduct(c.g, s); }
    assert 0.0 <= b <= 1.0 by { UnitProduct(c.b, s); }
    assert 0.0 <= a <= 1.0 by { UnitProduct(c.a, s); }
    assert UnitColour(Colour(r, g, b, a));
  }

  /** Scaling only the colour channels keeps a colour of [0, 1] in [0, 1]
      too. */
  lemma ScaledRGBUnit(c: Colour, s: real)
    requires UnitColour(c) && 0.0 <= s <= 1.0
    ensures UnitColour(ScaledRGB(c, s))
  {
    var r, g, b := c.r * s, c.g * s, c.b * s;
    assert 0.0 <= r <= 1.0 by { UnitProduct(c.r, s); }
    assert 0.0 <= g <= 1.0 by { UnitProduct(c.g, s); }
    assert 0.0 <= b <= 1.0 by { UnitProduct(c.b, s); }
    assert UnitColour(Colour(r, g, b, c.a));
  }

  /** The fade-in factor under Python 2, where x / w is integer division. */
  function FadeInPy2(x: int): real
    requires 0 <= x
  {
    Min((x / W) as real * 10.0, 1.0)
  }

  /** The fade-out factor under Python 2, where (w - x) / w is integer
      division. */
  function FadeOutPy2(x: int): real
    requires 0 <= x <= W
  {
    Min(((W - x) / W) as real * 5.0, 1.0)
  }

  /** Under Python 2 the fade-in is 0 across the whole row, and the fade-out
      is 0 everywhere but the first pixel. */
  lemma Py2Fades(x: int)
    requires 0 <= x < W
    ensures FadeInPy2(x) == 0.0
    ensures FadeOutPy2(x) == if x == 0 then 1.0 else 0.0
  {
    assert x / W == 0;
    assert (W - x) / W == if x == 0 then 1 else 0;
  }
}
