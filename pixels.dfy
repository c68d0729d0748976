/** The fixed affine map from coordinate units to pixels of the 1024 x 768 canvas:
    x -> x * 100 + 512 and y -> y * 100 + 384, each truncated toward zero as a cast
    from floating point to integer does. */
module Pixels {
  import opened Geo

  datatype Pixel = Pixel(x: int, y: int)

  const Scale: real := 100.0
  const OffsetX: real := 512.0
  const OffsetY: real := 384.0

  /** `n` is `v` with its fractional part dropped (rounded toward zero). */
  predicate TowardZero(v: real, n: int) {
    if v >= 0.0 then n as real <= v < n as real + 1.0
    else n as real - 1.0 < v <= n as real
  }

  function Trunc(v: real): (n: int)
    ensures TowardZero(v, n)
  {
    if v >= 0.0 then v.Floor else -((-v).Floor)
  }

  /** The pixel a position is drawn at; components after the second are not read. */
  function ToPixel(p: Position): (px: Pixel)
    requires HasXY(p)
    ensures TowardZero(p[0] * Scale + OffsetX, px.x)
    ensures TowardZero(p[1] * Scale + OffsetY, px.y)
  {
    Pixel(Trunc(p[0] * Scale + OffsetX), Trunc(p[1] * Scale + OffsetY))
  }

  /** The transform of every position, in order (the `iter().map(...).collect()` of the source). */
  function Vertices(coords: seq<Position>): (vs: seq<Pixel>)
    requires AllHaveXY(coords)
    ensures |vs| == |coords|
    ensures forall i :: 0 <= i < |coords| ==> vs[i] == ToPixel(coords[i])
  {
    if coords == [] then [] else [ToPixel(coords[0])] + Vertices(coords[1..])
  }

  // ---------------------------------------------------------------------------
  // Properties of the transform.

  /** `TowardZero` pins the integer down: the truncation of a value is unique. */
  lemma TowardZeroUnique(v: real, m: int, n: int)
    requires TowardZero(v, m) && TowardZero(v, n)
    ensures m == n
  {
  }

  /** Truncation never reverses the order of two values. */
  lemma TruncMonotone(v: real, w: real)
    requires v <= w
    ensures Trunc(v) <= Trunc(w)
  {
  }

  /** A whole number is its own truncation. */
  lemma TruncOfInteger(n: int)
    ensures Trunc(n as real) == n
  {
  }

  /** The origin lands on the centre of the 1024 x 768 canvas. */
  lemma OriginIsCentre()
    ensures ToPixel([0.0, 0.0]) == Pixel(512, 384)
  {
    TruncOfInteger(512);
    TruncOfInteger(384);
  }

  /** (1.5, -1.5) lands 150 pixels from the centre on each axis: column 662, row 234. */
  lemma SamplePosition()
    ensures ToPixel([1.5, -1.5]) == Pixel(662, 234)
  {
    TruncOfInteger(662);
    TruncOfInteger(234);
  }

  /** Values just below zero truncate up to 0, not down to -1 as a floor of -0.5 would. */
  lemma TruncationIsTowardZero()
    ensures ToPixel([-5.125, -3.845]) == Pixel(0, 0)
  {
    assert -5.125 * Scale + OffsetX == -0.5;
    assert -3.845 * Scale + OffsetY == -0.5;
  }

  /** Only the first two components of a position are read. */
  lemma ExtraComponentsIgnored(p: Position, q: Position)
    requires HasXY(p) && HasXY(q)
    requires p[..2] == q[..2]
    ensures ToPixel(p) == ToPixel(q)
  {
    assert p[0] == p[..2][0] && p[1] == p[..2][1];
    assert q[0] == q[..2][0] && q[1] == q[..2][1];
  }

  /** In exact real arithmetic, positions on the grid of hundredths map without loss: each
      hundredth is one pixel. Floating-point arithmetic does not keep this (see README). */
  lemma HundredthsAreExact(a: int, b: int, rest: seq<real>)
    ensures HasXY([a as real / 100.0, b as real / 100.0] + rest)
    ensures ToPixel([a as real / 100.0, b as real / 100.0] + rest) == Pixel(a + 512, b + 384)
  {
    var p := [a as real / 100.0, b as real / 100.0] + rest;
    assert p[0] * Scale + OffsetX == (a + 512) as real;
    assert p[1] * Scale + OffsetY == (b + 384) as real;
    TruncOfInteger(a + 512);
    TruncOfInteger(b + 384);
  }

  /** The transform keeps left-of and below-of: it is monotone in each axis. */
  lemma ToPixelMonotone(p: Position, q: Position)
    requires HasXY(p) && HasXY(q)
    ensures p[0] <= q[0] ==> ToPixel(p).x <= ToPixel(q).x
    ensures p[1] <= q[1] ==> ToPixel(p).y <= ToPixel(q).y
  {
    if p[0] <= q[0] { TruncMonotone(p[0] * Scale + OffsetX, q[0] * Scale + OffsetX); }
    if p[1] <= q[1] { TruncMonotone(p[1] * Scale + OffsetY, q[1] * Scale + OffsetY); }
  }
}
