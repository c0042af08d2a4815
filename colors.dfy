/**
 The RGBA colour value the halftone layer computes with (synfig's `Color`).
 Channels are reals; `+`, `-` and scalar `*` act on all four channels and
 `~c` complements the three colour channels and keeps alpha.
 */
module Colors {

  datatype Color = Color(r: real, g: real, b: real, a: real)

  /** `c + d`, channel by channel (alpha included). */
  function Add(c: Color, d: Color): Color
  {
    Color(c.r + d.r, c.g + d.g, c.b + d.b, c.a + d.a)
  }

  /** `c - d`, channel by channel (alpha included). */
  function Sub(c: Color, d: Color): Color
  {
    Color(c.r - d.r, c.g - d.g, c.b - d.b, c.a - d.a)
  }

  /** `c * k`, every channel scaled (alpha included). */
  function Scale(c: Color, k: real): Color
  {
    Color(c.r * k, c.g * k, c.b * k, c.a * k)
  }

  /** `~c`: the complementary colour with the same alpha. */
  function Invert(c: Color): (r: Color)
    ensures r.a == c.a
    ensures r.r + c.r == 1.0 && r.g + c.g == 1.0 && r.b + c.b == 1.0
  {
    Color(1.0 - c.r, 1.0 - c.g, 1.0 - c.b, c.a)
  }

  /** `set_a`: the same colour with its alpha replaced. */
  function WithAlpha(c: Color, alpha: real): (r: Color)
    ensures r.a == alpha && r.r == c.r && r.g == c.g && r.b == c.b
  {
    c.(a := alpha)
  }

  const White := Color(1.0, 1.0, 1.0, 1.0)
  const Black := Color(0.0, 0.0, 0.0, 1.0)
  const Red := Color(1.0, 0.0, 0.0, 1.0)
  const Green := Color(0.0, 1.0, 0.0, 1.0)
  const Blue := Color(0.0, 0.0, 1.0, 1.0)
  const Cyan := Color(0.0, 1.0, 1.0, 1.0)
  const Magenta := Color(1.0, 0.0, 1.0, 1.0)
  const Yellow := Color(1.0, 1.0, 0.0, 1.0)

  /** The subtractive primaries are the complements of the additive ones. */
  lemma PrimariesComplement()
    ensures Invert(Cyan) == Red && Invert(Magenta) == Green && Invert(Yellow) == Blue
  {
  }
}
