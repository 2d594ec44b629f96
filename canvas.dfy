/** An abstract 2D drawing context. Instead of pixels, every drawing call is
    recorded, in order, as a command in a trace shared by all surfaces; the
    commands that paint carry the line width, style and filter the context
    holds when they are issued. */
module Canvas2D {
  import opened Geometry

  /** The two surfaces of the visualiser. */
  datatype SurfaceId = Main | Blur

  /** A canvas element: which surface it is and its size in pixels. */
  datatype Canvas = Canvas(id: SurfaceId, width: nat, height: nat)

  /** A canvas can serve as an image source only when neither side is zero;
      `drawImage` with finite arguments throws an InvalidStateError for an
      empty one (the `drawImage` steps of the HTML standard). */
  predicate Drawable(c: Canvas) { c.width > 0 && c.height > 0 }

  datatype Rect = Rect(x: real, y: real, w: real, h: real)

  /** The whole area of a canvas, (0, 0, width, height). */
  function Whole(c: Canvas): Rect { Rect(0.0, 0.0, c.width as real, c.height as real) }

  /** A colour stop of a gradient. Colours are CSS strings, never parsed. */
  datatype Stop = Stop(offset: real, color: string)

  /** A radial gradient from the circle (x0, y0, r0) to the circle (x1, y1, r1). */
  datatype Gradient = Gradient(x0: real, y0: real, r0: real, x1: real, y1: real, r1: real, stops: seq<Stop>)

  /** A fill or stroke style: a CSS colour string or a gradient. */
  datatype Style = Css(value: string) | Radial(gradient: Gradient)

  datatype Command =
    | BeginPath
    | MoveTo(point: Polar)
    | LineTo(point: Polar)
    | Stroke(lineWidth: real, style: Style, filter: string)
    | FillRect(area: Rect, style: Style, filter: string)
    | ClearRect(area: Rect)
    | DrawImage(source: SurfaceId, from: Rect, onto: Rect, filter: string)

  /** One recorded call: the surface it was issued on and the command. */
  datatype Op = Op(target: SurfaceId, command: Command)

  /** The initial state of a 2D context. */
  const DEFAULT_STYLE: Style := Css("#000000")
  const DEFAULT_LINE_WIDTH: real := 1.0
  const NO_FILTER: string := "none"

  /** Whether a string parses as a CSS filter value list. Such a list has at
      least one item, so the empty string does not; every other string the
      visualiser assigns (`blur(2px)`) does. */
  predicate ParsesAsFilterList(value: string) { value != "" }

  /** The filter a context holds after `context.filter = value` while it held
      `current`: "none" and a parsable filter list are taken, any other value
      is ignored and the current filter stays. */
  function AssignFilter(current: string, value: string): (f: string)
    ensures value == NO_FILTER ==> f == NO_FILTER
    ensures ParsesAsFilterList(value) ==> f == value
    ensures value != NO_FILTER && !ParsesAsFilterList(value) ==> f == current
  {
    if value == NO_FILTER || ParsesAsFilterList(value) then value else current
  }

  /** Assigning the empty string never changes the filter; assigning "none"
      always resets it, whatever it was. */
  lemma AssignFilterEffects(current: string)
    ensures AssignFilter(current, "") == current
    ensures AssignFilter(current, NO_FILTER) == NO_FILTER
    ensures AssignFilter(AssignFilter(current, ""), NO_FILTER) == NO_FILTER
  {
  }

  /** The kind of a command, for counting. */
  datatype Kind = PathStart | Move | Line | Paint | Fill | Clear | Copy

  function KindOf(c: Command): Kind
  {
    match c
    case BeginPath => PathStart
    case MoveTo(_) => Move
    case LineTo(_) => Line
    case Stroke(_, _, _) => Paint
    case FillRect(_, _, _) => Fill
    case ClearRect(_) => Clear
    case DrawImage(_, _, _, _) => Copy
  }

  /** The number of commands of kind `k` in `ops`. */
  function Count(ops: seq<Op>, k: Kind): (n: nat)
    ensures n <= |ops|
  {
    if ops == [] then 0
    else
      (if KindOf(ops[0].command) == k then 1 else 0) + Count(ops[1..], k)
  }

  lemma CountOne(op: Op, k: Kind)
    ensures Count([op], k) == if KindOf(op.command) == k then 1 else 0
  {
    assert [op][1..] == [];
  }

  lemma {:induction false} CountAppend(a: seq<Op>, b: seq<Op>, k: Kind)
    ensures Count(a + b, k) == Count(a, k) + Count(b, k)
  {
    if a == [] {
      assert a + b == b;
    } else {
      assert (a + b)[1..] == a[1..] + b;
      CountAppend(a[1..], b, k);
    }
  }

  /** Counting splits over a concatenation, for every kind at once. */
  lemma CountSplit(a: seq<Op>, b: seq<Op>)
    ensures forall k :: Count(a + b, k) == Count(a, k) + Count(b, k)
  {
    forall k ensures Count(a + b, k) == Count(a, k) + Count(b, k) {
      CountAppend(a, b, k);
    }
  }

  /** A single command counts once, under its own kind. */
  lemma CountSingle(op: Op)
    ensures forall k :: Count([op], k) == if KindOf(op.command) == k then 1 else 0
  {
    forall k ensures Count([op], k) == if KindOf(op.command) == k then 1 else 0 {
      CountOne(op, k);
    }
  }

  /** The recorder of every drawing call, shared by all contexts. */
  class Trace {
    var ops: seq<Op>

    constructor ()
      ensures ops == []
    {
      ops := [];
    }
  }

  /** A canvas's 2D context: the settable state of the source's contexts,
      and the drawing calls it makes, each of which appends to the trace. */
  class Context {
    const canvas: Canvas
    const trace: Trace
    var fillStyle: Style
    var strokeStyle: Style
    var lineWidth: real
    var filter: string

    constructor (canvas: Canvas, trace: Trace)
      ensures this.canvas == canvas && this.trace == trace
      ensures fillStyle == DEFAULT_STYLE && strokeStyle == DEFAULT_STYLE
      ensures lineWidth == DEFAULT_LINE_WIDTH && filter == NO_FILTER
    {
      this.canvas := canvas;
      this.trace := trace;
      fillStyle := DEFAULT_STYLE;
      strokeStyle := DEFAULT_STYLE;
      lineWidth := DEFAULT_LINE_WIDTH;
      filter := NO_FILTER;
    }

    method BeginPath()
      modifies trace
      ensures trace.ops == old(trace.ops) + [Op(canvas.id, Command.BeginPath)]
    {
      trace.ops := trace.ops + [Op(canvas.id, Command.BeginPath)];
    }

    method MoveTo(p: Polar)
      modifies trace
      ensures trace.ops == old(trace.ops) + [Op(canvas.id, Command.MoveTo(p))]
    {
      trace.ops := trace.ops + [Op(canvas.id, Command.MoveTo(p))];
    }

    method LineTo(p: Polar)
      modifies trace
      ensures trace.ops == old(trace.ops) + [Op(canvas.id, Command.LineTo(p))]
    {
      trace.ops := trace.ops + [Op(canvas.id, Command.LineTo(p))];
    }

    /** Strokes the current path with the current line width, stroke style and filter. */
    method Stroke()
      modifies trace
      ensures trace.ops == old(trace.ops) + [Op(canvas.id, Command.Stroke(lineWidth, strokeStyle, filter))]
    {
      trace.ops := trace.ops + [Op(canvas.id, Command.Stroke(lineWidth, strokeStyle, filter))];
    }

    /** Fills `area` with the current fill style and filter. */
    method FillRect(area: Rect)
      modifies trace
      ensures trace.ops == old(trace.ops) + [Op(canvas.id, Command.FillRect(area, fillStyle, filter))]
    {
      trace.ops := trace.ops + [Op(canvas.id, Command.FillRect(area, fillStyle, filter))];
    }

    /** `context.filter = value`, with the setter's rule of `AssignFilter`. */
    method SetFilter(value: string)
      modifies this
      ensures filter == AssignFilter(old(filter), value)
      ensures fillStyle == old(fillStyle) && strokeStyle == old(strokeStyle) && lineWidth == old(lineWidth)
    {
      if value == NO_FILTER || ParsesAsFilterList(value) {
        filter := value;
      }
    }

    method ClearRect(area: Rect)
      modifies trace
      ensures trace.ops == old(trace.ops) + [Op(canvas.id, Command.ClearRect(area))]
    {
      trace.ops := trace.ops + [Op(canvas.id, Command.ClearRect(area))];
    }

    /** Copies the part `from` of the source canvas onto `to`, through the
        current filter. Every argument here is a finite number; an empty
        source canvas makes the call throw: `ok` is false and nothing is drawn. */
    method DrawImage(source: Context, from: Rect, to: Rect) returns (ok: bool)
      modifies trace
      ensures ok == Drawable(source.canvas)
      ensures trace.ops == old(trace.ops) +
        if ok then [Op(canvas.id, Command.DrawImage(source.canvas.id, from, to, filter))] else []
    {
      ok := Drawable(source.canvas);
      if ok {
        trace.ops := trace.ops + [Op(canvas.id, Command.DrawImage(source.canvas.id, from, to, filter))];
      }
    }
  }
}
