/** The flash texture generator (genFlash.py): a 256-pixel row of opaque
    orange (red 1, green 0.8, blue 0), faded in over the first tenth of the
    row and out over the last fifth, both fades dimming the alpha too. */
module FlashTexture {
  import opened Common
  import opened Gradients

  /** The colour every pixel starts from. */
  const Base: Colour := Colour(1.0, 0.8, 0.0, 1.0)

  /** The colour of pixel x: the base colour, faded in, then faded out. */
  function FlashColour(x: int): Colour
  {
    Scaled(Scaled(Base, FadeIn(x)), FadeOut(x))
  }

  function FlashPixel(x: int): Pixel
  {
    ToPixel(FlashColour(x))
  }

  /** Every pixel of the row is a valid RGBA byte quadruple, and its blue
      channel is 0. */
  lemma FlashInRange(x: int)
    requires 0 <= x < W
    ensures InByteRange(FlashPixel(x)) && FlashPixel(x).b == 0
  {
    FadeBounds(x);
    ScaledUnit(Base, FadeIn(x));
    ScaledUnit(Scaled(Base, FadeIn(x)), FadeOut(x));
    ToPixelInRange(FlashColour(x));
  }

  /** The first pixel is fully transparent black: the fade-in is 0 there. */
  lemma FlashFirstPixelBlank()
    ensures FlashPixel(0) == Pixel(0, 0, 0, 0)
  {
    assert FadeIn(0) == 0.0;
    var faded := Scaled(Base, FadeIn(0));
    assert faded == Colour(0.0, 0.0, 0.0, 0.0);
    assert FlashColour(0) == Scaled(faded, FadeOut(0)) == Colour(0.0, 0.0, 0.0, 0.0);
  }

  /** Between the fades, pixels 26 to 204, the row is the full orange. */
  lemma FlashPlateau(x: int)
    requires 26 <= x <= 204
    ensures FlashPixel(x) == Pixel(255, 204, 0, 255)
  {
    FadeBounds(x);
  }

  /** Over the fade-in, pixels 0 to 25, no channel ever gets darker or more
      transparent from one pixel to a later one. */
  lemma FlashFadesIn(x: int, y: int)
    requires 0 <= x <= y <= 25
    ensures FlashPixel(x).r <= FlashPixel(y).r && FlashPixel(x).g <= FlashPixel(y).g
    ensures FlashPixel(x).b <= FlashPixel(y).b && FlashPixel(x).a <= FlashPixel(y).a
  {
    FadeBounds(x);
    FadeBounds(y);
  }

  /** The last pixel is faded to almost nothing, its alpha included. */
  lemma FlashLastPixel()
    ensures FlashPixel(W - 1) == Pixel(4, 3, 0, 4)
  {
    FadeBounds(W - 1);
  }

  /** The pixel written at x: the colour faded in, then faded out, then
      each channel scaled by 255. */
  method FadeAndWrite(x: int) returns (px: Pixel)
    ensures px == FlashPixel(x)
  {
    var r, g, b, a := 1.0, 0.8, 0.0, 1.0;
    var s := Min(x as real / W as real * 10.0, 1.0);
    r, g, b, a := r * s, g * s, b * s, a * s;
    assert Colour(r, g, b, a) == Scaled(Base, FadeIn(x));
    s := Min((W - x) as real / W as real * 5.0, 1.0);
    r, g, b, a := r * s, g * s, b * s, a * s;
    assert Colour(r, g, b, a) == FlashColour(x);
    px := Pixel(Channel(r * 255.0), Channel(g * 255.0), Channel(b * 255.0), Channel(a * 255.0));
  }

  /** genFlash.py's loop: one pass over the row, each pixel written once
      into a zeroed 1 by 256 array. */
  method GenFlash() returns (data: array2<Pixel>)
    ensures fresh(data) && data.Length0 == H && data.Length1 == W
    ensures forall x | 0 <= x < W :: data[0, x] == FlashPixel(x)
  {
    data := new Pixel[H, W]((_, _) => Pixel(0, 0, 0, 0));
    for x := 0 to W
      invariant forall x' | 0 <= x' < x :: data[0, x'] == FlashPixel(x')
    {
      data[0, x] := FadeAndWrite(x);
    }
  }

  /** The pixel the script writes under Python 2's integer division. */
  function FlashPixelPy2(x: int): Pixel
    requires 0 <= x < W
  {
    ToPixel(Scaled(Scaled(Base, FadeInPy2(x)), FadeOutPy2(x)))
  }

  /** Under Python 2 every pixel of the flash is transparent black, where
      the plateau should be full orange. */
  lemma Py2FlashIsBlank(x: int)
    requires 0 <= x < W
    ensures FlashPixelPy2(x) == Pixel(0, 0, 0, 0)
    ensures 26 <= x <= 204 ==> FlashPixelPy2(x) != FlashPixel(x)
  {
    Py2Fades(x);
    if 26 <= x <= 204 {
      FlashPlateau(x);
    }
  }
}
