/** Plain rectangle arithmetic, affine transform targets and colours shared by
    every glass control. `CGFloat` is modelled as `real`. */
module Geometry {

  datatype Option<T> = None | Some(value: T) {
    function GetOr(default: T): T { if Some? then value else default }
  }

  /** A caller-supplied closure, known only by an identity token; the model
      records invocations of it instead of running it. */
  datatype Handler = Handler(id: nat)

  datatype Point = Point(x: real, y: real)

  datatype Size = Size(width: real, height: real)

  /** A CGRect as stored: origin and (possibly negative) size. */
  datatype Rect = Rect(x: real, y: real, w: real, h: real) {
    function Extent(): Size { Size(w, h) }
  }

  const ZeroRect := Rect(0.0, 0.0, 0.0, 0.0)

  function Abs(a: real): real { if a < 0.0 then -a else a }

  function Min(a: real, b: real): real { if b < a then b else a }

  function Max(a: real, b: real): real { if b >= a then b else a }

  /** `max(lo, min(hi, v))`, the clamp written throughout the controls. */
  function Clamp(v: real, lo: real, hi: real): (r: real)
    ensures lo <= hi ==> lo <= r <= hi
    ensures lo <= v <= hi ==> r == v
    ensures v < lo && lo <= hi ==> r == lo
    ensures hi < v && lo <= hi ==> r == hi
  {
    Max(lo, Min(hi, v))
  }

  /** The linear interpolation written out in the controls: `a + (b - a) * t`. */
  function Lerp(a: real, b: real, t: real): real { a + (b - a) * t }

  lemma ProductNonNegative(x: real, y: real)
    requires 0.0 <= x && 0.0 <= y
    ensures 0.0 <= x * y
  {
  }

  /** Interpolating part of the way from a to b stays between them, and
      reaches a at 0 and b at 1. */
  lemma {:induction false} LerpBetween(a: real, b: real, t: real)
    requires 0.0 <= t <= 1.0
    ensures Min(a, b) <= Lerp(a, b, t) <= Max(a, b)
    ensures t == 0.0 ==> Lerp(a, b, t) == a
    ensures t == 1.0 ==> Lerp(a, b, t) == b
  {
    var d := b - a;
    ProductNonNegative(if a <= b then d else -d, t);
    ProductNonNegative(if a <= b then d else -d, 1.0 - t);
    assert d * (1.0 - t) == d - d * t;
  }

  function Floor(a: real): (r: real)
    ensures r <= a < r + 1.0
  {
    a.Floor as real
  }

  function Ceil(a: real): (r: real)
    ensures r - 1.0 < a <= r
  {
    -((-a).Floor as real)
  }

  /** CGRectGetWidth / CGRectGetHeight: the standardized, non-negative extent. */
  function Width(r: Rect): real { Abs(r.w) }

  function Height(r: Rect): real { Abs(r.h) }

  function MidX(r: Rect): real { r.x + r.w / 2.0 }

  function MidY(r: Rect): real { r.y + r.h / 2.0 }

  function MinX(r: Rect): real { Min(r.x, r.x + r.w) }

  function MaxX(r: Rect): real { Max(r.x, r.x + r.w) }

  function MinY(r: Rect): real { Min(r.y, r.y + r.h) }

  function MaxY(r: Rect): real { Max(r.y, r.y + r.h) }

  predicate Contains(r: Rect, p: Point) {
    MinX(r) <= p.x <= MaxX(r) && MinY(r) <= p.y <= MaxY(r)
  }

  /** A 2D transform target: a scale composed with a translation that is
      expressed in the layer's unscaled coordinates (the order in which
      `CATransform3DTranslate` and `CGAffineTransform.translatedBy` apply it). */
  datatype Transform = Transform(scaleX: real, scaleY: real, translateX: real, translateY: real)

  const Identity := Transform(1.0, 1.0, 0.0, 0.0)

  function Scale(s: real): Transform { Transform(s, s, 0.0, 0.0) }

  /** One entry of an animation timeline: a transform target reached by a
      phase, or the point where the caller's completion closure runs. */
  datatype Step = To(target: Transform) | Completion

  datatype Color = Color(red: real, green: real, blue: real, alpha: real)

  /** `UIColor(white:alpha:)`. */
  function White(alpha: real): Color { Color(1.0, 1.0, 1.0, alpha) }

  /** `UIColor(rgb:)`: a 24-bit 0xRRGGBB value, fully opaque. */
  function FromRgb(rgb: nat): Color
    requires rgb < 0x100_0000
  {
    Color((rgb / 0x1_0000) as real / 255.0, (rgb / 0x100 % 0x100) as real / 255.0,
          (rgb % 0x100) as real / 255.0, 1.0)
  }
}
