/**
 The per-pixel formula shared by Halftone3::color_func (halftone3.cpp:286-327)
 and TaskHalfTone3SW::get_color (halftone3.cpp:98-134): the separation matrix
 turns the input pixel into three channel intensities, each screen turns its
 intensity into a dot coverage, and the three primaries are subtracted from
 white (subtractive mode) or added to black (additive mode); the result keeps
 the input pixel's alpha.
 */
module Compositor {
  import opened Colors
  import opened Separation
  import opened Halftone

  /**
   What the formula reads: the three primaries, the mode, the three screens
   and the separation matrix. This is also what a render task copies.
   */
  datatype Screen = Screen(colors: seq<Color>, subtractive: bool, tones: seq<Tone>, matrix: seq<Vec3>)

  predicate WellFormed(s: Screen)
  {
    |s.colors| == 3 && |s.tones| == 3 && |s.matrix| == 3
  }

  /**
   `chan[i]`: row i of the matrix times the input's `1 - rgb` (subtractive)
   or `rgb` (additive).
   */
  function Intensities(s: Screen, inColor: Color): (chan: seq<real>)
    requires WellFormed(s)
    ensures |chan| == 3
    ensures forall i :: 0 <= i < 3 ==> chan[i] == Dot(s.matrix[i], SourceVector(inColor, s.subtractive))
  {
    var v := SourceVector(inColor, s.subtractive);
    [Dot(s.matrix[0], v), Dot(s.matrix[1], v), Dot(s.matrix[2], v)]
  }

  /** `tone[i](point, chan[i], supersample)` for the three screens. */
  function Responses(s: Screen, mask: Mask, point: Vec2, supersample: real, inColor: Color): (t: seq<real>)
    requires WellFormed(s)
    ensures |t| == 3
    ensures forall i :: 0 <= i < 3 ==> t[i] == mask(s.tones[i], point, Intensities(s, inColor)[i], supersample)
  {
    var chan := Intensities(s, inColor);
    [mask(s.tones[0], point, chan[0], supersample),
     mask(s.tones[1], point, chan[1], supersample),
     mask(s.tones[2], point, chan[2], supersample)]
  }

  /**
   `halfcolor` before its alpha is set: white minus each complemented primary
   weighted by its response, or black plus each primary weighted by its
   response.
   */
  function Mix(s: Screen, t: seq<real>): Color
    requires WellFormed(s) && |t| == 3
  {
    if s.subtractive then
      Sub(Sub(Sub(White, Scale(Invert(s.colors[0]), t[0])), Scale(Invert(s.colors[1]), t[1])), Scale(Invert(s.colors[2]), t[2]))
    else
      Add(Add(Add(Black, Scale(s.colors[0], t[0])), Scale(s.colors[1], t[1])), Scale(s.colors[2], t[2]))
  }

  /** The colour the layer paints over `inColor` at mask-space `point`. */
  function Composite(s: Screen, mask: Mask, point: Vec2, supersample: real, inColor: Color): (r: Color)
    requires WellFormed(s)
    ensures r.a == inColor.a
  {
    WithAlpha(Mix(s, Responses(s, mask, point, supersample, inColor)), inColor.a)
  }

  /**
   Each colour channel of the result, written out: one minus the responses
   weighted by the complemented primaries, or the responses weighted by the
   primaries.
   */
  lemma ChannelSums(s: Screen, mask: Mask, point: Vec2, supersample: real, inColor: Color)
    requires WellFormed(s)
    ensures var t, r, c := Responses(s, mask, point, supersample, inColor), Composite(s, mask, point, supersample, inColor), s.colors;
      if s.subtractive then
        && r.r == 1.0 - ((1.0 - c[0].r) * t[0] + (1.0 - c[1].r) * t[1] + (1.0 - c[2].r) * t[2])
        && r.g == 1.0 - ((1.0 - c[0].g) * t[0] + (1.0 - c[1].g) * t[1] + (1.0 - c[2].g) * t[2])
        && r.b == 1.0 - ((1.0 - c[0].b) * t[0] + (1.0 - c[1].b) * t[1] + (1.0 - c[2].b) * t[2])
      else
        && r.r == c[0].r * t[0] + c[1].r * t[1] + c[2].r * t[2]
        && r.g == c[0].g * t[0] + c[1].g * t[1] + c[2].g * t[2]
        && r.b == c[0].b * t[0] + c[1].b * t[1] + c[2].b * t[2]
  {
  }

  /**
   Where no screen puts ink (every response 0) the result is white in
   subtractive mode and black in additive mode, with the input's alpha.
   */
  lemma BlankScreens(s: Screen, mask: Mask, point: Vec2, supersample: real, inColor: Color)
    requires WellFormed(s)
    requires Responses(s, mask, point, supersample, inColor) == [0.0, 0.0, 0.0]
    ensures Composite(s, mask, point, supersample, inColor)
            == (if s.subtractive then White else Black).(a := inColor.a)
  {
  }

  /** The same screen with the other mode and complemented primaries. */
  function Dual(s: Screen): (d: Screen)
    requires WellFormed(s)
    ensures WellFormed(d) && d.tones == s.tones && d.matrix == s.matrix
    ensures d.subtractive == !s.subtractive
    ensures forall i :: 0 <= i < 3 ==> d.colors[i] == Invert(s.colors[i])
  {
    s.(subtractive := !s.subtractive, colors := [Invert(s.colors[0]), Invert(s.colors[1]), Invert(s.colors[2])])
  }

  /**
   Ink subtraction is the complement of light addition: a subtractive screen
   paints the complement of what the additive screen with complemented
   primaries paints over the complemented input.
   */
  lemma SubtractiveIsComplementOfAdditive(s: Screen, mask: Mask, point: Vec2, supersample: real, inColor: Color)
    requires WellFormed(s) && s.subtractive
    ensures var r, d := Composite(s, mask, point, supersample, inColor),
                        Composite(Dual(s), mask, point, supersample, Invert(inColor));
      r == Invert(d).(a := inColor.a)
  {
    var ds := Dual(s);
    assert SourceVector(Invert(inColor), false) == SourceVector(inColor, true);
    assert Intensities(ds, Invert(inColor)) == Intensities(s, inColor);
    assert Responses(ds, mask, point, supersample, Invert(inColor)) == Responses(s, mask, point, supersample, inColor);
  }

  /**
   With an ideal continuous-tone mask (coverage equal to intensity), cyan,
   magenta and yellow inks over the identity matrix reproduce the input
   pixel exactly.
   */
  lemma CmyReproduces(s: Screen, mask: Mask, point: Vec2, supersample: real, inColor: Color)
    requires WellFormed(s) && s.subtractive && s.colors == [Cyan, Magenta, Yellow] && s.matrix == Identity
    requires forall x :: mask(s.tones[0], point, x, supersample) == x
    requires forall x :: mask(s.tones[1], point, x, supersample) == x
    requires forall x :: mask(s.tones[2], point, x, supersample) == x
    ensures Composite(s, mask, point, supersample, inColor) == inColor
  {
    var t := [1.0 - inColor.r, 1.0 - inColor.g, 1.0 - inColor.b];
    IdentityPassesThrough(s, inColor);
    IdealResponses(s, mask, point, supersample, inColor);
    CmyMix(s, t);
  }

  /** An ideal mask reports the intensities themselves as coverages. */
  lemma IdealResponses(s: Screen, mask: Mask, point: Vec2, supersample: real, inColor: Color)
    requires WellFormed(s)
    requires forall x :: mask(s.tones[0], point, x, supersample) == x
    requires forall x :: mask(s.tones[1], point, x, supersample) == x
    requires forall x :: mask(s.tones[2], point, x, supersample) == x
    ensures Responses(s, mask, point, supersample, inColor) == Intensities(s, inColor)
  {
  }

  /** Over the identity matrix the intensities are the source vector's components. */
  lemma IdentityPassesThrough(s: Screen, inColor: Color)
    requires WellFormed(s) && s.matrix == Identity
    ensures var v := SourceVector(inColor, s.subtractive);
      Intensities(s, inColor) == [v.x, v.y, v.z]
  {
  }

  /** Cyan, magenta and yellow ink coverages remove red, green and blue one for one. */
  lemma CmyMix(s: Screen, t: seq<real>)
    requires WellFormed(s) && s.subtractive && s.colors == [Cyan, Magenta, Yellow] && |t| == 3
    ensures var r := Mix(s, t); r.r == 1.0 - t[0] && r.g == 1.0 - t[1] && r.b == 1.0 - t[2]
  {
    PrimariesComplement();
  }

  /**
   The additive counterpart: red, green and blue light over the identity
   matrix with an ideal mask reproduce the input pixel exactly.
   */
  lemma RgbReproduces(s: Screen, mask: Mask, point: Vec2, supersample: real, inColor: Color)
    requires WellFormed(s) && !s.subtractive && s.colors == [Red, Green, Blue] && s.matrix == Identity
    requires forall x :: mask(s.tones[0], point, x, supersample) == x
    requires forall x :: mask(s.tones[1], point, x, supersample) == x
    requires forall x :: mask(s.tones[2], point, x, supersample) == x
    ensures Composite(s, mask, point, supersample, inColor) == inColor
  {
    var t := [inColor.r, inColor.g, inColor.b];
    IdentityPassesThrough(s, inColor);
    IdealResponses(s, mask, point, supersample, inColor);
    RgbMix(s, t);
  }

  /** Red, green and blue light coverages add up channel for channel. */
  lemma RgbMix(s: Screen, t: seq<real>)
    requires WellFormed(s) && !s.subtractive && s.colors == [Red, Green, Blue] && |t| == 3
    ensures var r := Mix(s, t); r.r == t[0] && r.g == t[1] && r.b == t[2]
  {
  }
}
