/** Setup arithmetic of src/js/main.js: the integer shifts that size the
    surfaces, the radial gradient of `createCanvas`, and the source rectangle
    of the feedback zoom `zoomOut`. */
module Setup {
  import opened Canvas2D

  const INT32_MIN: int := -0x8000_0000
  const INT32_MAX: int := 0x7fff_ffff

  predicate IsInt32(x: int) { INT32_MIN <= x <= INT32_MAX }

  /** JavaScript's `x >> n` on a 32-bit signed value: an arithmetic shift,
      that is n halvings, each rounding towards negative infinity (Dafny's
      `/` by a positive divisor). The result stays a 32-bit value, keeps the
      sign of `x`, and never moves away from zero. */
  function ShiftRight(x: int, n: nat): (r: int)
    requires IsInt32(x) && n < 32
    ensures IsInt32(r)
    ensures 0 <= x ==> 0 <= r <= x
    ensures x < 0 ==> x <= r < 0
  {
    if n == 0 then x else ShiftRight(x, n - 1) / 2
  }

  /** Two shifts in a row are one shift by the sum of the counts. */
  lemma {:induction false} ShiftTwice(x: int, a: nat, b: nat)
    requires IsInt32(x) && a + b < 32
    ensures ShiftRight(ShiftRight(x, a), b) == ShiftRight(x, a + b)
  {
    if b > 0 {
      ShiftTwice(x, a, b - 1);
    }
  }

  /** The offsets of the five colour stops. */
  const STOP_OFFSETS: seq<real> := [0.00, 0.25, 0.50, 0.75, 1.00]

  predicate StrictlyIncreasing(stops: seq<Stop>)
  {
    forall i, j :: 0 <= i < j < |stops| ==> stops[i].offset < stops[j].offset
  }

  /** The radial gradient `createCanvas` builds for a canvas: centred on the
      canvas midpoint, from radius `scale` to radius 5 * scale, with colour k
      at offset k / 4, so the five offsets rise strictly from 0 to 1. */
  function Brush(canvas: Canvas, scale: real, colors: seq<string>): (g: Gradient)
    requires |colors| >= 5
    ensures g.x0 == g.x1 == canvas.width as real / 2.0
    ensures g.y0 == g.y1 == canvas.height as real / 2.0
    ensures g.r0 == scale && g.r1 == 5.0 * scale
    ensures |g.stops| == 5
    ensures forall k :: 0 <= k < 5 ==> g.stops[k] == Stop(k as real / 4.0, colors[k])
    ensures StrictlyIncreasing(g.stops)
    ensures g.stops[0].offset == 0.0 && g.stops[4].offset == 1.0
  {
    var cx := canvas.width as real / 2.0;
    var cy := canvas.height as real / 2.0;
    Gradient(cx, cy, scale, cx, cy, scale * 5.0,
      [Stop(STOP_OFFSETS[0], colors[0]), Stop(STOP_OFFSETS[1], colors[1]), Stop(STOP_OFFSETS[2], colors[2]),
       Stop(STOP_OFFSETS[3], colors[3]), Stop(STOP_OFFSETS[4], colors[4])])
  }

  /** `createCanvas`: the canvas's fresh 2D context, in its initial state,
      and the gradient brush to stroke with. */
  method CreateCanvas(canvas: Canvas, scale: real, colors: seq<string>, trace: Trace)
      returns (context: Context, gradient: Gradient)
    requires |colors| >= 5
    ensures fresh(context)
    ensures context.canvas == canvas && context.trace == trace
    ensures context.fillStyle == DEFAULT_STYLE && context.strokeStyle == DEFAULT_STYLE
    ensures context.lineWidth == DEFAULT_LINE_WIDTH && context.filter == NO_FILTER
    ensures gradient == Brush(canvas, scale, colors)
  {
    context := new Context(canvas, trace);
    gradient := Brush(canvas, scale, colors);
  }

  /** The margin factor of the feedback zoom. */
  const ZOOM_MARGIN: real := 1.1

  /** The part of a width x height canvas that `zoomOut` copies back onto the
      whole canvas: inset by sx = speed * 1.1 * (width / height) on the left
      and right and by sy = speed * 1.1 on the top and bottom. */
  function ZoomSourceRect(width: int, height: int, speed: real): Rect
    requires height > 0
  {
    var aspect := width as real / height as real;
    var sx := speed * ZOOM_MARGIN * aspect;
    var sy := speed * ZOOM_MARGIN;
    Rect(sx, sy, width as real - sx * 2.0, height as real - sy * 2.0)
  }

  /** The source rectangle is centred on the canvas midpoint and has the
      canvas's aspect ratio, so the copy magnifies the picture evenly about
      its centre; its vertical inset is speed * 1.1 and its horizontal inset
      that times the aspect ratio. */
  lemma ZoomSourceShape(width: int, height: int, speed: real)
    requires height > 0
    ensures var r := ZoomSourceRect(width, height, speed);
      && r.y == speed * ZOOM_MARGIN && r.x == r.y * (width as real / height as real)
      && r.x + r.w / 2.0 == width as real / 2.0
      && r.y + r.h / 2.0 == height as real / 2.0
      && r.w * height as real == r.h * width as real
  {
    var w, h := width as real, height as real;
    var sx, sy := speed * ZOOM_MARGIN * (w / h), speed * ZOOM_MARGIN;
    assert (w / h) * h == w;
    assert sx * h == sy * w;
    assert (w - sx * 2.0) * h == w * h - sx * h * 2.0;
    assert (h - sy * 2.0) * w == h * w - sy * w * 2.0;
  }

  /** Speed 1 on an 800 x 450 canvas gives sy = 1.1, sx = 88/45 (about
      1.956), and a source of 35824/45 (about 796.09) by 447.8. */
  lemma ZoomExample()
    ensures ZoomSourceRect(800, 450, 1.0) == Rect(88.0 / 45.0, 1.1, 35824.0 / 45.0, 447.8)
  {
  }

  /** Whether `zoomOut` throws on a canvas: its height is positive, so every
      argument of its `drawImage` is finite, but its width is zero, so the
      canvas cannot be drawn from. */
  predicate ZoomThrows(c: Canvas)
  {
    c.height > 0 && c.width == 0
  }

  /** `zoomOut`: copies the inset source rectangle of the context's own
      canvas onto the whole canvas. On a canvas of height 0 the aspect
      width / height is not finite, so `drawImage` returns without drawing;
      on a canvas of width 0 it throws (`ok` is false). Only a drawable
      canvas records the copy. */
  method ZoomOut(context: Context, speed: real) returns (ok: bool)
    modifies context.trace
    ensures ok == !ZoomThrows(context.canvas)
    ensures context.trace.ops == old(context.trace.ops) +
      if Drawable(context.canvas) then [Op(context.canvas.id, DrawImage(context.canvas.id,
                     ZoomSourceRect(context.canvas.width, context.canvas.height, speed),
                     Whole(context.canvas), context.filter))]
      else []
  {
    var width := context.canvas.width;
    var height := context.canvas.height;
    if height == 0 {
      // sx is Infinity or NaN: drawImage returns before looking at its source
      ok := true;
      return;
    }
    var source := ZoomSourceRect(width, height, speed);
    ok := context.DrawImage(context, source, Whole(context.canvas));
  }
}
