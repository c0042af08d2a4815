/**
 The separation matrix that Halftone3::sync rebuilds (halftone3.cpp:208-248).
 Row i is built from primary colour i: its RGB triple (complemented in
 subtractive mode) divided twice by the triple's length `mult`, or left as it
 is when `mult` is zero.
 */
module Separation {
  import opened Colors

  datatype Vec3 = Vec3(x: real, y: real, z: real)

  const Zero := Vec3(0.0, 0.0, 0.0)

  function Dot(u: Vec3, v: Vec3): real
  {
    u.x * v.x + u.y * v.y + u.z * v.z
  }

  /** `mult * mult` in halftone3.cpp: the squared length of a row. */
  function SqNorm(v: Vec3): real
  {
    Dot(v, v)
  }

  /** Every component divided by `d` (one `matrix[i][j] /= mult` pass). */
  function DivideBy(v: Vec3, d: real): Vec3
    requires d != 0.0
  {
    Vec3(v.x / d, v.y / d, v.z / d)
  }

  /** The RGB triple of a colour. */
  function Rgb(c: Color): Vec3
  {
    Vec3(c.r, c.g, c.b)
  }

  /** The vector a row is built from: `1 - rgb` when subtractive, else `rgb`. */
  function SourceVector(c: Color, subtractive: bool): (v: Vec3)
    ensures subtractive ==> v == Vec3(1.0 - c.r, 1.0 - c.g, 1.0 - c.b)
    ensures !subtractive ==> v == Vec3(c.r, c.g, c.b)
  {
    if subtractive then Rgb(Invert(c)) else Rgb(c)
  }

  /**
   The row exactly as halftone3.cpp writes it, for a given square root `mult`
   of the squared length: divided by `mult`, then by `mult` again, unless
   `mult` is zero.
   */
  ghost function DividedTwice(src: Vec3, mult: real): Vec3
    requires mult >= 0.0 && mult * mult == SqNorm(src)
  {
    if mult != 0.0 then DivideBy(DivideBy(src, mult), mult) else src
  }

  /**
   The row of the separation matrix built from `src`. Over the reals two
   divisions by `mult` are one division by `mult * mult`, the squared length,
   which needs no square root; RowIsDividedTwice proves the two agree.
   */
  function Row(src: Vec3): (row: Vec3)
    ensures SqNorm(src) == 0.0 ==> row == src
  {
    var n := SqNorm(src);
    if n != 0.0 then DivideBy(src, n) else src
  }

  /** A non-zero row scaled back by the squared length is its source vector. */
  lemma RowScalesBack(src: Vec3)
    requires SqNorm(src) != 0.0
    ensures var row, n := Row(src), SqNorm(src);
      row.x * n == src.x && row.y * n == src.y && row.z * n == src.z
  {
  }

  /** halftone3.cpp's guard `if(mult)` tests the same thing as `SqNorm(src) != 0`. */
  lemma GuardAgrees(n: real, mult: real)
    requires mult >= 0.0 && mult * mult == n
    ensures (mult == 0.0) <==> (n == 0.0)
  {
    if mult != 0.0 {
      QuotientIsRoot(n, mult);
      QuotientNonZero(n, mult);
    }
  }

  lemma QuotientIsRoot(n: real, m: real)
    requires m != 0.0 && m * m == n
    ensures n / m == m
  {
  }

  lemma QuotientNonZero(n: real, m: real)
    requires m != 0.0 && n / m == m
    ensures n != 0.0
  {
  }

  /** Two divisions by `m` are one division by `n == m * m`. */
  lemma DivideTwice(x: real, m: real, n: real)
    requires m != 0.0 && n == m * m && n != 0.0
    ensures x / m / m == x / n
  {
  }

  /**
   For every admissible `mult`, the row halftone3.cpp computes (guard on `mult`,
   two divisions by `mult`) is Row(src).
   */
  lemma RowIsDividedTwice(src: Vec3, mult: real)
    requires mult >= 0.0 && mult * mult == SqNorm(src)
    ensures (mult == 0.0) <==> (SqNorm(src) == 0.0)
    ensures Row(src) == DividedTwice(src, mult)
  {
    var n := SqNorm(src);
    GuardAgrees(n, mult);
    if mult != 0.0 {
      DivideTwice(src.x, mult, n);
      DivideTwice(src.y, mult, n);
      DivideTwice(src.z, mult, n);
    }
  }

  /** A row built from a zero vector is all zeros: no division happens. */
  lemma ZeroRow(src: Vec3)
    requires src == Zero
    ensures Row(src) == Zero
  {
  }

  /**
   The squared length of a non-zero row is the reciprocal of its source's:
   the double division leaves the row with length 1/mult.
   */
  lemma RowLength(src: Vec3)
    requires SqNorm(src) != 0.0
    ensures SqNorm(Row(src)) * SqNorm(src) == 1.0
  {
    var n := SqNorm(src);
    var row := Row(src);
    RowScalesBack(src);
    assert row.x * n == src.x && row.y * n == src.y && row.z * n == src.z;
    calc {
      SqNorm(row) * n * n;
      (row.x * n) * (row.x * n) + (row.y * n) * (row.y * n) + (row.z * n) * (row.z * n);
      src.x * src.x + src.y * src.y + src.z * src.z;
      n;
    }
    assert (SqNorm(row) * n) * n == 1.0 * n;
  }

  /**
   `sync` does not normalise rows: a non-zero row has unit length exactly
   when its source vector has.
   */
  lemma RowUnitIff(src: Vec3)
    requires SqNorm(src) != 0.0
    ensures SqNorm(Row(src)) == 1.0 <==> SqNorm(src) == 1.0
  {
    RowLength(src);
  }

  /** The whole matrix: row i from primary colour i and the mode. */
  function BuildMatrix(colors: seq<Color>, subtractive: bool): (m: seq<Vec3>)
    requires |colors| == 3
    ensures |m| == 3
    ensures forall i :: 0 <= i < 3 ==> m[i] == Row(SourceVector(colors[i], subtractive))
  {
    [Row(SourceVector(colors[0], subtractive)),
     Row(SourceVector(colors[1], subtractive)),
     Row(SourceVector(colors[2], subtractive))]
  }

  /** Row i depends on colour i and the mode only. */
  lemma RowIsOwnColours(colors: seq<Color>, colors': seq<Color>, subtractive: bool, i: int)
    requires |colors| == 3 && |colors'| == 3 && 0 <= i < 3
    requires colors[i] == colors'[i]
    ensures BuildMatrix(colors, subtractive)[i] == BuildMatrix(colors', subtractive)[i]
  {
  }

  /** A black primary (white in subtractive mode) gives an all-zero row. */
  lemma DegeneratePrimary(colors: seq<Color>, subtractive: bool, i: int)
    requires |colors| == 3 && 0 <= i < 3
    requires SourceVector(colors[i], subtractive) == Zero
    ensures BuildMatrix(colors, subtractive)[i] == Zero
  {
  }

  const Identity := [Vec3(1.0, 0.0, 0.0), Vec3(0.0, 1.0, 0.0), Vec3(0.0, 0.0, 1.0)]

  /** Cyan, magenta and yellow in subtractive mode separate into the identity. */
  lemma CmyIsIdentity()
    ensures BuildMatrix([Cyan, Magenta, Yellow], true) == Identity
  {
    CyanRow();
    MagentaRow();
    YellowRow();
  }

  lemma CyanRow()
    ensures Row(SourceVector(Cyan, true)) == Identity[0]
  {
    assert SourceVector(Cyan, true) == Identity[0];
    UnitRow(Identity[0]);
  }

  lemma MagentaRow()
    ensures Row(SourceVector(Magenta, true)) == Identity[1]
  {
    assert SourceVector(Magenta, true) == Identity[1];
    UnitRow(Identity[1]);
  }

  lemma YellowRow()
    ensures Row(SourceVector(Yellow, true)) == Identity[2]
  {
    assert SourceVector(Yellow, true) == Identity[2];
    UnitRow(Identity[2]);
  }

  lemma UnitRow(v: Vec3)
    requires SqNorm(v) == 1.0
    ensures Row(v) == v
  {
  }
}
