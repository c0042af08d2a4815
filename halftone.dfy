/**
 The parameters of one halftone screen (synfig's `Halftone`, declared in
 halftone.h, which is not part of this model) and the mask it evaluates.
 */
module Halftone {

  datatype Vec2 = Vec2(x: real, y: real)

  /**
   One screen's parameters: the mask period `size`, the mask `maskType`
   (an integer enumeration code), the screen `origin` and its `angle` in
   degrees.
   */
  datatype Tone = Tone(size: Vec2, maskType: int, origin: Vec2, angle: real)

  /**
   The mask function `tone(point, intensity, supersample)`: the dot coverage
   a screen with the given parameters reports at a mask-space point for an
   intensity, antialiased over the supersample radius. Its definition lives
   in halftone.h and is left uninterpreted here.
   */
  type Mask = (Tone, Vec2, real, real) -> real

  /**
   The code of the symmetric mask type, the layer's default. The enumeration
   lives in halftone.h, which is not part of this model; the value is an
   assumed code and nothing in the model depends on it.
   */
  const TypeSymmetric: int := 0
}
