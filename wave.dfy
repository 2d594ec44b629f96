/** The wave path renderer (`renderWave` in src/js/main.js): one frame of
    samples becomes one open polyline around the canvas midpoint, stroked once. */
module Wave {
  import opened Geometry
  import opened Canvas2D

  /** The angle between two neighbouring vertices of a wave of n samples. */
  function AngleStep(n: nat): real
    requires n > 0
  {
    TAU / n as real
  }

  /** Vertex i of the wave of `data` on canvas `c`: sample i at angle
      PI2 + i * step around the canvas midpoint. */
  function Vertex(c: Canvas, scale: real, data: seq<byte>, i: nat): Polar
    requires i < |data|
  {
    Arc(c.width as real / 2.0, c.height as real / 2.0, PI2 + i as real * AngleStep(|data|), scale, data[i] as real)
  }

  /** The first n path commands of the wave: a `moveTo` vertex 0, then a
      `lineTo` each following vertex. */
  function Path(c: Canvas, scale: real, data: seq<byte>, n: nat): seq<Op>
    requires n <= |data|
  {
    seq(n, k requires 0 <= k < n => Op(c.id, if k == 0 then MoveTo(Vertex(c, scale, data, k)) else LineTo(Vertex(c, scale, data, k))))
  }

  /** Every command one `renderWave` call issues, stroked with the given
      line width, style and filter. */
  function WaveOps(c: Canvas, scale: real, data: seq<byte>, lineWidth: real, style: Style, filter: string): seq<Op>
    requires |data| >= 1
  {
    [Op(c.id, BeginPath)] + Path(c, scale, data, |data|) + [Op(c.id, Stroke(lineWidth, style, filter))]
  }

  /** The path grows by exactly one `lineTo` per step of the loop. */
  lemma PathExtends(c: Canvas, scale: real, data: seq<byte>, n: nat)
    requires 1 <= n < |data|
    ensures Path(c, scale, data, n + 1) == Path(c, scale, data, n) + [Op(c.id, LineTo(Vertex(c, scale, data, n)))]
  {
  }

  /** Draws the wave of `data` on `context`, with whatever line width, stroke
      style and filter the context currently holds. */
  method RenderWave(context: Context, scale: real, data: seq<byte>)
    requires |data| >= 1
    modifies context.trace
    ensures context.trace.ops == old(context.trace.ops) +
      WaveOps(context.canvas, scale, data, context.lineWidth, context.strokeStyle, context.filter)
  {
    var cx := context.canvas.width as real / 2.0;
    var cy := context.canvas.height as real / 2.0;
    var step := TAU / |data| as real;
    var p := Arc(cx, cy, PI2, scale, data[0] as real);
    context.BeginPath();
    context.MoveTo(p);
    assert Path(context.canvas, scale, data, 1) == [Op(context.canvas.id, MoveTo(p))];
    for i := 1 to |data|
      invariant context.trace.ops == old(context.trace.ops) + [Op(context.canvas.id, BeginPath)] +
        Path(context.canvas, scale, data, i)
    {
      var q := Arc(cx, cy, PI2 + i as real * step, scale, data[i] as real);
      assert q == Vertex(context.canvas, scale, data, i);
      context.LineTo(q);
      PathExtends(context.canvas, scale, data, i);
    }
    context.Stroke();
  }

  /** Layout of the commands: a `beginPath`, one `moveTo` to vertex 0, a
      `lineTo` to each vertex 1 .. N-1 in index order, and one `stroke` last,
      all on the same surface. */
  lemma WaveLayout(c: Canvas, scale: real, data: seq<byte>, lineWidth: real, style: Style, filter: string)
    requires |data| >= 1
    ensures var w := WaveOps(c, scale, data, lineWidth, style, filter);
      && |w| == |data| + 2
      && (forall j :: 0 <= j < |w| ==> w[j].target == c.id)
      && w[0].command == BeginPath
      && w[1].command == MoveTo(Vertex(c, scale, data, 0))
      && (forall i :: 1 <= i < |data| ==> w[i + 1].command == LineTo(Vertex(c, scale, data, i)))
      && w[|data| + 1].command == Stroke(lineWidth, style, filter)
  {
  }

  /** The outline of one wave, read off `WaveLayout`: N + 2 commands, all on
      the canvas's surface, opened by `beginPath` and closed by the stroke. */
  lemma WaveShape(c: Canvas, scale: real, data: seq<byte>, lineWidth: real, style: Style, filter: string)
    requires |data| >= 1
    ensures var w := WaveOps(c, scale, data, lineWidth, style, filter);
      && |w| == |data| + 2
      && (forall j :: 0 <= j < |w| ==> w[j].target == c.id)
      && w[0] == Op(c.id, BeginPath)
      && w[|w| - 1] == Op(c.id, Stroke(lineWidth, style, filter))
  {
    WaveLayout(c, scale, data, lineWidth, style, filter);
  }

  /** The path commands of the first n vertices hold one `moveTo` and n - 1 `lineTo`. */
  lemma {:induction false} PathCounts(c: Canvas, scale: real, data: seq<byte>, n: nat)
    requires 1 <= n <= |data|
    ensures var p := Path(c, scale, data, n);
      Count(p, Move) == 1 && Count(p, Line) == n - 1 &&
      Count(p, PathStart) == 0 && Count(p, Paint) == 0 && Count(p, Fill) == 0 &&
      Count(p, Clear) == 0 && Count(p, Copy) == 0
  {
    var p := Path(c, scale, data, n);
    if n == 1 {
      assert p == [Op(c.id, MoveTo(Vertex(c, scale, data, 0)))];
      assert p[1..] == [];
    } else {
      var last := Op(c.id, LineTo(Vertex(c, scale, data, n - 1)));
      PathExtends(c, scale, data, n - 1);
      PathCounts(c, scale, data, n - 1);
      forall k: Kind ensures Count(p, k) == Count(Path(c, scale, data, n - 1), k) + Count([last], k) {
        CountAppend(Path(c, scale, data, n - 1), [last], k);
      }
      assert [last][1..] == [];
    }
  }

  /** For N samples a wave issues exactly one `beginPath`, one `moveTo`,
      N - 1 `lineTo` and one `stroke`, and nothing else. */
  lemma WaveCounts(c: Canvas, scale: real, data: seq<byte>, lineWidth: real, style: Style, filter: string)
    requires |data| >= 1
    ensures var w := WaveOps(c, scale, data, lineWidth, style, filter);
      Count(w, PathStart) == 1 && Count(w, Move) == 1 && Count(w, Line) == |data| - 1 &&
      Count(w, Paint) == 1 && Count(w, Fill) == 0 && Count(w, Clear) == 0 && Count(w, Copy) == 0
  {
    var head := [Op(c.id, BeginPath)];
    var path := Path(c, scale, data, |data|);
    var tail := [Op(c.id, Stroke(lineWidth, style, filter))];
    PathCounts(c, scale, data, |data|);
    assert head[1..] == [] && tail[1..] == [];
    forall k: Kind
      ensures Count(WaveOps(c, scale, data, lineWidth, style, filter), k) == Count(head, k) + Count(path, k) + Count(tail, k)
    {
      CountAppend(head, path, k);
      CountAppend(head + path, tail, k);
    }
  }

  /** Where vertex i lies: centred on the canvas midpoint, at angle
      PI2 + i * (TAU / N), which is at least PI2 and less than a full turn
      beyond it, and for a non-negative scale inside the radius band. */
  lemma VertexPlacement(c: Canvas, scale: real, data: seq<byte>, i: nat)
    requires i < |data|
    ensures var p := Vertex(c, scale, data, i);
      && p.cx == c.width as real / 2.0 && p.cy == c.height as real / 2.0
      && p.angle == PI2 + i as real * (TAU / |data| as real)
      && PI2 <= p.angle < PI2 + TAU
      && p.radius == Radius(scale, data[i] as real)
      && (0.0 <= scale ==> INNER * scale <= p.radius <= OUTER * scale)
  {
    RadiusClamps(scale, data[i] as real);
    var n := |data| as real;
    var step := TAU / n;
    assert step * n == TAU;
    assert 0.0 < step;
    assert i as real * step < n * step by {
      assert i as real < n;
    }
  }

  /** The path is left open: for N >= 2 each vertex after the first lies one
      step beyond the one before it, strictly beyond the start and short of a
      full turn, so the last `lineTo` (see WaveLayout) does not return to
      vertex 0. */
  lemma NoClosingSegment(c: Canvas, scale: real, data: seq<byte>)
    requires |data| >= 1
    ensures forall i :: 1 <= i < |data| ==>
      && Vertex(c, scale, data, i).angle == Vertex(c, scale, data, i - 1).angle + AngleStep(|data|)
      && PI2 < Vertex(c, scale, data, i).angle < PI2 + TAU
  {
    var step := AngleStep(|data|);
    assert 0.0 < step;
    forall i | 1 <= i < |data|
      ensures Vertex(c, scale, data, i).angle == Vertex(c, scale, data, i - 1).angle + step
      ensures PI2 < Vertex(c, scale, data, i).angle < PI2 + TAU
    {
      VertexPlacement(c, scale, data, i);
      assert i as real * step == (i - 1) as real * step + step;
      assert 0.0 < i as real * step;
    }
  }

  /** A frame of constant samples is drawn as a circle: every vertex lies on
      the canvas midpoint at the same radius, the clamped radius of the
      sample, which is the sample times the scale when that is inside the band
      (a clipped sample gives a circle at the band's edge). */
  lemma ConstantSamplesCircle(c: Canvas, scale: real, data: seq<byte>, s: byte)
    requires forall i :: 0 <= i < |data| ==> data[i] == s
    ensures forall i :: 0 <= i < |data| ==>
      Vertex(c, scale, data, i).cx == c.width as real / 2.0 &&
      Vertex(c, scale, data, i).cy == c.height as real / 2.0 &&
      Vertex(c, scale, data, i).radius == Radius(scale, s as real)
    ensures 0.0 <= scale && INNER <= s as real <= OUTER ==>
      forall i :: 0 <= i < |data| ==> Vertex(c, scale, data, i).radius == s as real * scale
  {
    if 0.0 <= scale && INNER <= s as real <= OUTER {
      InBandRadius(scale, s as real);
    }
  }

  /** An in-band sample at a non-negative scale keeps its radius `sample * scale`. */
  lemma InBandRadius(scale: real, sample: real)
    requires 0.0 <= scale && INNER <= sample <= OUTER
    ensures Radius(scale, sample) == sample * scale
  {
    RadiusClamps(scale, sample);
    assert INNER * scale <= sample * scale <= OUTER * scale;
  }
}
