/** Mapping of one audio sample onto a point of the circular waveform
    (`arc` in src/js/main.js). Points stay in polar form around their centre,
    so no trigonometry is needed; angles are measured in turns. */
module Geometry {

  /** One unsigned 8-bit time-domain sample, as the analyser delivers it. */
  newtype byte = b: int | 0 <= b < 256

  /** A full turn. Angles are measured in turns (radians = turns * 2 * pi),
      which keeps every angle of the model an exact rational number. */
  const TAU: real := 1.0
  /** A quarter turn: the waveform starts at the bottom-centre of the canvas
      (y grows downwards), a quarter turn from the x-axis. */
  const PI2: real := TAU / 4.0

  /** Edges of the radius band, per unit of scale. */
  const INNER: real := 50.0
  const OUTER: real := 200.0

  /** A point given by its centre, its angle (in turns) and its distance from the centre. */
  datatype Polar = Polar(cx: real, cy: real, angle: real, radius: real)

  /** `Math.max` and `Math.min` over the reals. */
  function Max(a: real, b: real): real { if a >= b then a else b }
  function Min(a: real, b: real): real { if a <= b then a else b }

  /** The radius of a sample: `sample * scale` clamped into the band
      [INNER * scale, OUTER * scale] (see RadiusClamps). */
  function Radius(scale: real, sample: real): real
  {
    Max(INNER * scale, Min(OUTER * scale, sample * scale))
  }

  /** The clamp, case by case: inside the band the sample is kept, below it
      the inner edge is taken, above it the outer edge; a negative scale
      inverts the band and always yields its first bound. */
  lemma RadiusClamps(scale: real, sample: real)
    ensures var v := Radius(scale, sample);
      && (0.0 <= scale ==> INNER * scale <= v <= OUTER * scale)
      && (INNER * scale <= sample * scale <= OUTER * scale ==> v == sample * scale)
      && (sample * scale < INNER * scale ==> v == INNER * scale)
      && (0.0 <= scale && OUTER * scale < sample * scale ==> v == OUTER * scale)
      && (scale < 0.0 ==> v == INNER * scale)
  {
    var lo, hi, v := INNER * scale, OUTER * scale, sample * scale;
    BandOrder(scale);
    if v < lo {
      ClampBelow(lo, hi, v);
    } else if scale < 0.0 {
      ClampInverted(lo, hi, v);
    } else if v <= hi {
      ClampInside(lo, hi, v);
    } else {
      ClampAbove(lo, hi, v);
    }
  }

  /** The band is ordered for a non-negative scale and inverted for a negative one. */
  lemma BandOrder(scale: real)
    ensures 0.0 <= scale ==> INNER * scale <= OUTER * scale
    ensures scale < 0.0 ==> OUTER * scale < INNER * scale
  {
    assert OUTER * scale - INNER * scale == 150.0 * scale;
  }

  /** `Math.max(lo, Math.min(hi, v))` case by case, on plain bounds. */
  lemma ClampBelow(lo: real, hi: real, v: real)
    requires v < lo
    ensures Max(lo, Min(hi, v)) == lo
  {
  }

  lemma ClampInverted(lo: real, hi: real, v: real)
    requires hi < lo
    ensures Max(lo, Min(hi, v)) == lo
  {
  }

  lemma ClampInside(lo: real, hi: real, v: real)
    requires lo <= v <= hi
    ensures Max(lo, Min(hi, v)) == v
  {
  }

  lemma ClampAbove(lo: real, hi: real, v: real)
    requires lo <= hi < v
    ensures Max(lo, Min(hi, v)) == hi
  {
  }

  /** The point of one sample: at `angle` around (cx, cy), at the clamped radius. */
  function Arc(cx: real, cy: real, angle: real, scale: real, sample: real): Polar
  {
    Polar(cx, cy, angle, Radius(scale, sample))
  }

  /** The point keeps the centre and the angle it is given; its radius lies
      in the band, and is the sample times the scale inside it. */
  lemma ArcPlacement(cx: real, cy: real, angle: real, scale: real, sample: real)
    ensures var p := Arc(cx, cy, angle, scale, sample);
      && p.cx == cx && p.cy == cy && p.angle == angle
      && (0.0 <= scale ==> INNER * scale <= p.radius <= OUTER * scale)
      && (INNER * scale <= sample * scale <= OUTER * scale ==> p.radius == sample * scale)
  {
    RadiusClamps(scale, sample);
  }

  /** Multiplying by a positive factor keeps the order of two reals. */
  lemma ScaleKeepsOrder(k: real, a: real, b: real)
    requires 0.0 < k && a <= b
    ensures k * a <= k * b
  {
    assert k * b - k * a == k * (b - a);
  }

  /** `Math.min` and `Math.max` commute with a positive factor. */
  lemma ScaleMinMax(k: real, a: real, b: real)
    requires 0.0 < k
    ensures Min(k * a, k * b) == k * Min(a, b)
    ensures Max(k * a, k * b) == k * Max(a, b)
  {
    if a <= b {
      ScaleKeepsOrder(k, a, b);
    } else {
      ScaleKeepsOrder(k, b, a);
    }
  }

  /** Clamping commutes with a positive change of scale: the radius at scale
      k * s is k times the radius at scale s. */
  lemma RadiusScales(scale: real, sample: real, k: real)
    requires 0.0 < k
    ensures Radius(k * scale, sample) == k * Radius(scale, sample)
  {
    var lo, hi, v := INNER * scale, OUTER * scale, sample * scale;
    assert INNER * (k * scale) == k * lo;
    assert OUTER * (k * scale) == k * hi;
    assert sample * (k * scale) == k * v;
    ScaleMinMax(k, hi, v);
    ScaleMinMax(k, lo, Min(hi, v));
  }
}
