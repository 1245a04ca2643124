/** The reaction texture generator (genReaction.py): a 256-pixel row in
    three segments (a transparent warm colour for the first fifth, a ramp
    to a faint grey over the second fifth, and the faint grey for the
    rest), with the fade-in dimming only the colour and the fade-out
    dimming the alpha too. */
module ReactionTexture {
  import opened Common
  import opened Gradients

  /** The colour of the first segment, alpha 0. */
  const Warm: Colour := Colour(1.0, 0.6, 0.1, 0.0)

  /** The colour of the third segment. */
  const Grey: Colour := Colour(0.1, 0.1, 0.1, 0.2)

  /** How far pixel x is along the ramp of the second segment. */
  function RampParameter(x: int): real
  {
    (x as real - W as real * 0.2) / (W as real * 0.2)
  }

  /** The ramp's colour at parameter t. */
  function RampColour(t: real): Colour
  {
    Colour(1.0 - 0.9 * t, 0.6 - 0.5 * t, 0.1, t * 0.2)
  }

  /** The colour of pixel x before the fades, chosen by comparing the
      integer x with w * 0.2 and w * 0.4. */
  function Segment(x: int): Colour
  {
    if (x as real) < W as real * 0.2 then Warm
    else if (x as real) < W as real * 0.4 then RampColour(RampParameter(x))
    else Grey
  }

  /** The colour of pixel x: its segment's colour, its red, green and blue
      faded in, then all four channels faded out. */
  function ReactionColour(x: int): Colour
  {
    Scaled(ScaledRGB(Segment(x), FadeIn(x)), FadeOut(x))
  }

  function ReactionPixel(x: int): Pixel
  {
    ToPixel(ReactionColour(x))
  }

  /** The segments by pixel index: 0 to 51 are warm (51 < 51.2), 52 to 102
      ramp with a parameter strictly between 0 and 1 (102 < 102.4), and
      103 on are grey. */
  lemma SegmentsByIndex(x: int)
    requires 0 <= x < W
    ensures x <= 51 ==> Segment(x) == Warm
    ensures 52 <= x <= 102 ==> 0.0 < RampParameter(x) < 1.0 && Segment(x) == RampColour(RampParameter(x))
    ensures 103 <= x ==> Segment(x) == Grey
  {
  }

  /** Every segment colour lies in [0, 1]. */
  lemma SegmentUnit(x: int)
    requires 0 <= x < W
    ensures UnitColour(Segment(x))
  {
    SegmentsByIndex(x);
  }

  /** Every pixel of the row is a valid RGBA byte quadruple. */
  lemma ReactionInRange(x: int)
    requires 0 <= x < W
    ensures InByteRange(ReactionPixel(x))
  {
    FadeBounds(x);
    SegmentUnit(x);
    ScaledRGBUnit(Segment(x), FadeIn(x));
    ScaledUnit(ScaledRGB(Segment(x), FadeIn(x)), FadeOut(x));
    ToPixelInRange(ReactionColour(x));
  }

  /** The first segment is fully transparent: the fade-in leaves its alpha
      of 0 alone, and the fade-out keeps it 0. */
  lemma WarmSegmentTransparent(x: int)
    requires 0 <= x <= 51
    ensures ReactionPixel(x).a == 0
  {
    SegmentsByIndex(x);
    assert ReactionColour(x).a == 0.0 * FadeOut(x);
  }

  /** The first pixel is transparent black: the fade-in is 0 there. */
  lemma ReactionFirstPixelBlank()
    ensures ReactionPixel(0) == Pixel(0, 0, 0, 0)
  {
    assert Segment(0) == Warm;
    assert FadeIn(0) == 0.0;
    var faded := ScaledRGB(Warm, 0.0);
    assert faded == Colour(0.0, 0.0, 0.0, 0.0);
    assert FadeOut(0) == 1.0;
    assert ReactionColour(0) == Scaled(faded, 1.0) == Colour(0.0, 0.0, 0.0, 0.0);
  }

  /** Between the end of the ramp and the start of the fade-out, pixels
      103 to 204, the row is the faint grey (25, 25, 25, 51). */
  lemma GreyPlateau(x: int)
    requires 103 <= x <= 204
    ensures ReactionPixel(x) == Pixel(25, 25, 25, 51)
  {
    SegmentsByIndex(x);
    assert FadeIn(x) == 1.0 && FadeOut(x) == 1.0;
    assert ReactionColour(x) == Grey;
  }

  /** The fade-in never touches the alpha: only the segment's alpha and the
      fade-out decide it. */
  lemma AlphaOnlyFadesOut(x: int)
    requires 0 <= x < W
    ensures ReactionColour(x).a == Segment(x).a * FadeOut(x)
  {
  }

  /** The pixel written for the segment colour (r, g, b, a) at x: red,
      green and blue faded in, all four faded out, then each scaled by
      255. */
  method FadeAndWrite(x: int, r: real, g: real, b: real, a: real) returns (px: Pixel)
    ensures px == ToPixel(Scaled(ScaledRGB(Colour(r, g, b, a), FadeIn(x)), FadeOut(x)))
  {
    var s := Min(x as real / W as real * 10.0, 1.0);
    var r', g', b' := r * s, g * s, b * s;
    s := Min((W - x) as real / W as real * 5.0, 1.0);
    var a' := a * s;
    r', g', b' := r' * s, g' * s, b' * s;
    px := Pixel(Channel(r' * 255.0), Channel(g' * 255.0), Channel(b' * 255.0), Channel(a' * 255.0));
  }

  /** genReaction.py's loop: one pass over the row, each pixel written once
      into a zeroed 1 by 256 array. */
  method GenReaction() returns (data: array2<Pixel>)
    ensures fresh(data) && data.Length0 == H && data.Length1 == W
    ensures forall x | 0 <= x < W :: data[0, x] == ReactionPixel(x)
  {
    data := new Pixel[H, W]((_, _) => Pixel(0, 0, 0, 0));
    for x := 0 to W
      invariant forall x' | 0 <= x' < x :: data[0, x'] == ReactionPixel(x')
    {
      var r, g, b, a := 0.0, 0.0, 0.0, 0.0;
      if (x as real) < W as real * 0.2 {
        r, g, b := 1.0, 0.6, 0.1;
      } else if (x as real) < W as real * 0.4 {
        var t := (x as real - W as real * 0.2) / (W as real * 0.2);
        r, g, b, a := 1.0 - 0.9 * t, 0.6 - 0.5 * t, 0.1, t * 0.2;
        assert Colour(r, g, b, a) == RampColour(RampParameter(x));
      } else {
        a := 0.2;
        r, g, b := 0.1, 0.1, 0.1;
      }
      assert Colour(r, g, b, a) == Segment(x);
      data[0, x] := FadeAndWrite(x, r, g, b, a);
    }
  }

  /** The pixel the script writes under Python 2's integer division. */
  function ReactionPixelPy2(x: int): Pixel
    requires 0 <= x < W
  {
    ToPixel(Scaled(ScaledRGB(Segment(x), FadeInPy2(x)), FadeOutPy2(x)))
  }

  /** Under Python 2 every pixel of the reaction texture is transparent
      black, where the grey plateau should be (25, 25, 25, 51). */
  lemma Py2ReactionIsBlank(x: int)
    requires 0 <= x < W
    ensures ReactionPixelPy2(x) == Pixel(0, 0, 0, 0)
    ensures 103 <= x <= 204 ==> ReactionPixelPy2(x) != ReactionPixel(x)
  {
    Py2Fades(x);
    SegmentsByIndex(x);
    var faded := ScaledRGB(Segment(x), 0.0);
    assert faded.r == 0.0 && faded.g == 0.0 && faded.b == 0.0;
    if x == 0 {
      assert faded.a == 0.0;
    }
    if 103 <= x <= 204 {
      GreyPlateau(x);
    }
  }
}
