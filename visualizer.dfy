/** The frame orchestrator of src/js/main.js (`run` and its `render` step):
    the two surfaces and their brushes, the playback state, and the commands
    one frame issues. */
module Visualizer {
  import opened Geometry
  import opened Canvas2D
  import opened Wave
  import opened Setup
  import opened Playback

  /** The analyser's window: every time-domain snapshot holds this many samples. */
  const FFT_SIZE: nat := 512

  const LINE_COLORS: seq<string> := ["#112233", "#FFFF33", "#FF4411", "#334488", "#55FFFF"]
  const BLUR_COLORS: seq<string> := ["#001133", "#FFFF11", "#FF4400", "#112288", "#22FFFF"]

  const GRADIENT_SCALE: real := 30.0
  const BLUR_GRADIENT_SCALE: real := 7.5
  const WAVE_SCALE: real := 0.75
  const BLUR_WAVE_SCALE: real := 0.1875
  const LINE_WIDTH: real := 2.0
  const BLUR_LINE_WIDTH: real := 0.25

  const FADE: Style := Css("rgba(0, 0, 0, 0.04)")
  const BLUR_FILTER: string := "blur(2px)"
  /** The value `render` assigns to the main filter after the composite. */
  const RESET_FILTER: string := ""
  /** The value that resets a context's filter. */
  const INTENDED_RESET: string := NO_FILTER
  const ZOOM_SPEED: real := 1.0

  /** The surfaces and brushes `run` sets up once; none of them changes afterwards. */
  datatype Scene = Scene(main: Canvas, blur: Canvas, gradient: Gradient, blurGradient: Gradient)

  /** The main and the blur surface are what their names say. */
  predicate Surfaces(scene: Scene)
  {
    scene.main.id == Main && scene.blur.id == Blur
  }

  /** A client size the DOM can report: a non-negative 32-bit value. */
  predicate ClientSize(x: int) { 0 <= x <= INT32_MAX }

  /** The scene for a page whose canvas element is clientWidth x clientHeight:
      the main surface at half the client size, the blur surface at a quarter
      of the main one, each with its gradient brush. */
  function SceneFor(clientWidth: int, clientHeight: int): Scene
    requires ClientSize(clientWidth) && ClientSize(clientHeight)
  {
    var main := Canvas(Main, ShiftRight(clientWidth, 1), ShiftRight(clientHeight, 1));
    var blur := Canvas(Blur, ShiftRight(main.width, 2), ShiftRight(main.height, 2));
    Scene(main, blur, Brush(main, GRADIENT_SCALE, LINE_COLORS), Brush(blur, BLUR_GRADIENT_SCALE, BLUR_COLORS))
  }

  /** Surface sizes: the main surface is half the client size, the blur
      surface a quarter of the main one, so an eighth of the client size; the
      blur surface can be drawn from exactly when both client sides are at
      least 8 pixels. */
  lemma SceneSizes(clientWidth: int, clientHeight: int)
    requires ClientSize(clientWidth) && ClientSize(clientHeight)
    ensures var s := SceneFor(clientWidth, clientHeight);
      && s.main.width == clientWidth / 2 && s.main.height == clientHeight / 2
      && s.blur.width == s.main.width / 4 && s.blur.height == s.main.height / 4
      && s.blur.width == clientWidth / 8 && s.blur.height == clientHeight / 8
      && (Drawable(s.blur) <==> clientWidth >= 8 && clientHeight >= 8)
      && (Drawable(s.blur) ==> Drawable(s.main))
  {
    ShiftTwice(clientWidth, 1, 2);
    ShiftTwice(clientHeight, 1, 2);
  }

  /** The blur pass is the main pass at a quarter of the scale: its brush
      constants are a quarter of the main ones, and so is the radius of every
      sample it draws. */
  lemma BlurIsQuarterScale(clientWidth: int, clientHeight: int)
    requires ClientSize(clientWidth) && ClientSize(clientHeight)
    ensures BLUR_GRADIENT_SCALE == GRADIENT_SCALE / 4.0 && BLUR_WAVE_SCALE == WAVE_SCALE / 4.0
    ensures var s := SceneFor(clientWidth, clientHeight);
      s.blurGradient.r0 == s.gradient.r0 / 4.0 && s.blurGradient.r1 == s.gradient.r1 / 4.0
    ensures forall sample: real :: Radius(BLUR_WAVE_SCALE, sample) == Radius(WAVE_SCALE, sample) / 4.0
  {
    forall sample: real ensures Radius(BLUR_WAVE_SCALE, sample) == Radius(WAVE_SCALE, sample) / 4.0 {
      RadiusScales(WAVE_SCALE, sample, 0.25);
    }
  }

  /** The fade every frame starts with: a near-transparent black over the
      whole main surface, through the main context's current filter. */
  function FadeOp(scene: Scene, filter: string): Op
  {
    Op(Main, FillRect(Whole(scene.main), FADE, filter))
  }

  /** The feedback zoom of the main surface onto itself. */
  function ZoomOp(scene: Scene, filter: string): Op
    requires Drawable(scene.main)
  {
    Op(Main, DrawImage(Main, ZoomSourceRect(scene.main.width, scene.main.height, ZOOM_SPEED), Whole(scene.main), filter))
  }

  /** The feedback zoom as it lands in the trace: the copy when the main
      surface is drawable, nothing when its height is 0 and the arguments of
      `drawImage` are not finite. */
  function ZoomPart(scene: Scene, filter: string): seq<Op>
  {
    if Drawable(scene.main) then [ZoomOp(scene, filter)] else []
  }

  /** The blurred composite of the whole blur surface onto the whole main surface. */
  function CompositeOp(scene: Scene): Op
  {
    Op(Main, DrawImage(Blur, Whole(scene.blur), Whole(scene.main), BLUR_FILTER))
  }

  /** The blur surface's part of a playing frame: cleared, then the wave drawn
      at the blur scale with the thin line and the blur brush. */
  function BlurPass(scene: Scene, blurData: seq<byte>): seq<Op>
    requires |blurData| >= 1
  {
    [Op(Blur, ClearRect(Whole(scene.blur)))] +
    WaveOps(scene.blur, BLUR_WAVE_SCALE, blurData, BLUR_LINE_WIDTH, Radial(scene.blurGradient), NO_FILTER)
  }

  /** The sharp wave on the main surface, stroked with the filter the main
      context holds once `reset` has been assigned after the composite. */
  function MainWave(scene: Scene, mainData: seq<byte>, reset: string): seq<Op>
    requires |mainData| >= 1
  {
    WaveOps(scene.main, WAVE_SCALE, mainData, LINE_WIDTH, Radial(scene.gradient), AssignFilter(BLUR_FILTER, reset))
  }

  /** Every command one `render` call issues. `filter` is the main context's
      filter when the frame starts; `blurData` and `mainData` are the two
      snapshots the frame reads from the analyser. An idle frame only fades.
      A playing frame stops short where `drawImage` throws on an empty source
      surface: at the zoom when the main surface has width 0 and height
      above 0, at the composite when the blur surface is empty. */
  function Frame(scene: Scene, playing: bool, filter: string, blurData: seq<byte>, mainData: seq<byte>): seq<Op>
    requires |blurData| >= 1 && |mainData| >= 1
  {
    [FadeOp(scene, filter)] + if playing then PlayOps(scene, filter, blurData, mainData) else []
  }

  /** The commands of a playing frame after the fade, from the zoom on. */
  function PlayOps(scene: Scene, filter: string, blurData: seq<byte>, mainData: seq<byte>): seq<Op>
    requires |blurData| >= 1 && |mainData| >= 1
  {
    if ZoomThrows(scene.main) then []
    else if !Drawable(scene.blur) then ZoomPart(scene, filter) + BlurPass(scene, blurData)
    else ZoomPart(scene, filter) + BlurPass(scene, blurData) + [CompositeOp(scene)] + MainWave(scene, mainData, RESET_FILTER)
  }

  /** Whether a frame runs to its end and schedules the next one. */
  predicate FrameCompletes(scene: Scene, playing: bool)
  {
    !playing || (!ZoomThrows(scene.main) && Drawable(scene.blur))
  }

  /** The main context's filter after a frame: `blur(2px)` from the composite
      on, then whatever assigning the reset leaves. */
  function FilterAfter(scene: Scene, playing: bool, filter: string): string
  {
    if !playing || ZoomThrows(scene.main) then filter
    else if !Drawable(scene.blur) then BLUR_FILTER
    else AssignFilter(BLUR_FILTER, RESET_FILTER)
  }

  /** The three ways a playing frame goes on after the fade. */
  lemma PlayOpsCases(scene: Scene, filter: string, blurData: seq<byte>, mainData: seq<byte>)
    requires |blurData| >= 1 && |mainData| >= 1
    ensures ZoomThrows(scene.main) ==> PlayOps(scene, filter, blurData, mainData) == []
    ensures !ZoomThrows(scene.main) && !Drawable(scene.blur) ==>
      PlayOps(scene, filter, blurData, mainData) == ZoomPart(scene, filter) + BlurPass(scene, blurData)
    ensures !ZoomThrows(scene.main) && Drawable(scene.blur) ==>
      PlayOps(scene, filter, blurData, mainData) ==
      (ZoomPart(scene, filter) + BlurPass(scene, blurData)) + ([CompositeOp(scene)] + MainWave(scene, mainData, RESET_FILTER))
  {
    var zp, w := ZoomPart(scene, filter) + BlurPass(scene, blurData), MainWave(scene, mainData, RESET_FILTER);
    assert zp + [CompositeOp(scene)] + w == zp + ([CompositeOp(scene)] + w);
  }

  lemma Concat3<T>(a: seq<T>, b: seq<T>, c: seq<T>)
    ensures (a + b) + c == a + (b + c)
  {
  }

  /** Every frame, idle or playing, completed or not, starts with the fade. */
  lemma FrameStartsWithFade(scene: Scene, playing: bool, filter: string, blurData: seq<byte>, mainData: seq<byte>)
    requires |blurData| >= 1 && |mainData| >= 1
    ensures var f := Frame(scene, playing, filter, blurData, mainData);
      |f| >= 1 && f[0] == Op(Main, FillRect(Whole(scene.main), FADE, filter))
  {
  }

  /** An idle frame only fades the main surface: one fill, nothing drawn on
      the blur surface, no stroke, no copy. */
  lemma IdleFrameOnlyFades(scene: Scene, filter: string, blurData: seq<byte>, mainData: seq<byte>)
    requires |blurData| >= 1 && |mainData| >= 1
    ensures var f := Frame(scene, false, filter, blurData, mainData);
      && |f| == 1 && Count(f, Fill) == 1
      && Count(f, Paint) == 0 && Count(f, Copy) == 0 && Count(f, Clear) == 0
      && forall i :: 0 <= i < |f| ==> f[i].target == Main
  {
    var f := Frame(scene, false, filter, blurData, mainData);
    assert f[1..] == [];
  }

  /** The order of a complete playing frame: fade, feedback zoom, clearing
      the blur surface, the blur wave, the blurred composite of the blur
      surface onto the main one, and the main wave. Everything drawn on the
      blur surface comes before the composite that reads it, and everything
      after the composite is the main wave. Assigning "" does not reset the
      filter, so the main wave is stroked through `blur(2px)` as well. */
  lemma PlayingFrameOrder(scene: Scene, filter: string, blurData: seq<byte>, mainData: seq<byte>)
    requires |blurData| >= 1 && |mainData| >= 1 && Surfaces(scene)
    requires Drawable(scene.main) && Drawable(scene.blur)
    ensures var f := Frame(scene, true, filter, blurData, mainData);
      var c := |blurData| + 5;
      && |f| == |blurData| + |mainData| + 8
      && f[0] == FadeOp(scene, filter)
      && f[1] == ZoomOp(scene, filter) && f[1].command.source == Main
      && f[2] == Op(Blur, ClearRect(Whole(scene.blur)))
      && (forall i :: 2 <= i < c ==> f[i].target == Blur)
      && f[c] == Op(Main, DrawImage(Blur, Whole(scene.blur), Whole(scene.main), BLUR_FILTER))
      && (forall i :: c < i < |f| ==> f[i].target == Main)
      && f[|f| - 1] == Op(Main, Stroke(LINE_WIDTH, Radial(scene.gradient), BLUR_FILTER))
  {
    var n, m := |blurData|, |mainData|;
    var front, mainWave := FrontPart(scene, filter, blurData), MainWave(scene, mainData, RESET_FILTER);
    var f := Frame(scene, true, filter, blurData, mainData);
    FrontShape(scene, filter, blurData);
    WaveShape(scene.main, WAVE_SCALE, mainData, LINE_WIDTH, Radial(scene.gradient), BLUR_FILTER);
    assert f == [FadeOp(scene, filter)] + (front + mainWave);
    forall i | 1 <= i < n + 6 ensures f[i] == front[i - 1] {
    }
    forall i | n + 5 < i < |f| ensures f[i].target == Main {
      assert f[i] == mainWave[i - n - 6];
    }
    assert f[|f| - 1] == mainWave[m + 1];
  }

  /** The part of a complete playing frame between the fade and the main wave. */
  function FrontPart(scene: Scene, filter: string, blurData: seq<byte>): seq<Op>
    requires |blurData| >= 1
  {
    ZoomPart(scene, filter) + BlurPass(scene, blurData) + [CompositeOp(scene)]
  }

  /** The zoom, then N + 3 commands on the blur surface starting with the
      clear, then the composite. */
  lemma FrontShape(scene: Scene, filter: string, blurData: seq<byte>)
    requires |blurData| >= 1 && Surfaces(scene) && Drawable(scene.main)
    ensures var p := FrontPart(scene, filter, blurData);
      var n := |blurData|;
      && |p| == n + 5
      && p[0] == ZoomOp(scene, filter)
      && p[1] == Op(Blur, ClearRect(Whole(scene.blur)))
      && (forall i :: 1 <= i < n + 4 ==> p[i].target == Blur)
      && p[n + 4] == CompositeOp(scene)
  {
    var zoom, pass := ZoomPart(scene, filter), BlurPass(scene, blurData);
    var p := FrontPart(scene, filter, blurData);
    assert zoom == [ZoomOp(scene, filter)];
    BlurPassShape(scene, blurData);
    forall i | 1 <= i < |blurData| + 4 ensures p[i] == pass[i - 1] {
    }
  }

  /** The blur pass of a frame: N + 3 commands on the blur surface, the
      clear first. */
  lemma BlurPassShape(scene: Scene, blurData: seq<byte>)
    requires |blurData| >= 1 && Surfaces(scene)
    ensures var p := BlurPass(scene, blurData);
      && |p| == |blurData| + 3
      && p[0] == Op(Blur, ClearRect(Whole(scene.blur)))
      && forall j :: 0 <= j < |p| ==> p[j].target == Blur
  {
    var wave := WaveOps(scene.blur, BLUR_WAVE_SCALE, blurData, BLUR_LINE_WIDTH, Radial(scene.blurGradient), NO_FILTER);
    WaveShape(scene.blur, BLUR_WAVE_SCALE, blurData, BLUR_LINE_WIDTH, Radial(scene.blurGradient), NO_FILTER);
    var p := BlurPass(scene, blurData);
    forall j | 1 <= j < |p| ensures p[j].target == Blur {
      assert p[j] == wave[j - 1];
    }
  }

  lemma BlurPassCounts(scene: Scene, blurData: seq<byte>)
    requires |blurData| >= 1
    ensures var p := BlurPass(scene, blurData);
      && Count(p, Paint) == 1 && Count(p, Copy) == 0 && Count(p, Fill) == 0 && Count(p, Clear) == 1
      && Count(p, Move) == 1 && Count(p, Line) == |blurData| - 1
  {
    var head := [Op(Blur, ClearRect(Whole(scene.blur)))];
    WaveCounts(scene.blur, BLUR_WAVE_SCALE, blurData, BLUR_LINE_WIDTH, Radial(scene.blurGradient), NO_FILTER);
    CountSingle(head[0]);
    CountSplit(head, WaveOps(scene.blur, BLUR_WAVE_SCALE, blurData, BLUR_LINE_WIDTH, Radial(scene.blurGradient), NO_FILTER));
  }

  /** A complete playing frame strokes twice, once per surface, copies twice
      (the zoom and the composite), fills once and clears once. */
  lemma PlayingFrameCounts(scene: Scene, filter: string, blurData: seq<byte>, mainData: seq<byte>)
    requires |blurData| >= 1 && |mainData| >= 1
    requires Drawable(scene.main) && Drawable(scene.blur)
    ensures var f := Frame(scene, true, filter, blurData, mainData);
      && Count(f, Paint) == 2 && Count(f, Copy) == 2 && Count(f, Fill) == 1 && Count(f, Clear) == 1
      && Count(f, Move) == 2 && Count(f, Line) == |blurData| - 1 + |mainData| - 1
  {
    var zoom, pass := ZoomPart(scene, filter), BlurPass(scene, blurData);
    var composite, wave := [CompositeOp(scene)], MainWave(scene, mainData, RESET_FILTER);
    assert zoom == [ZoomOp(scene, filter)];
    BlurPassCounts(scene, blurData);
    WaveCounts(scene.main, WAVE_SCALE, mainData, LINE_WIDTH, Radial(scene.gradient), BLUR_FILTER);
    CountSingle(FadeOp(scene, filter));
    CountSingle(ZoomOp(scene, filter));
    CountSingle(CompositeOp(scene));
    CountSplit(zoom, pass);
    CountSplit(zoom + pass, composite);
    CountSplit(zoom + pass + composite, wave);
    CountSplit([FadeOp(scene, filter)], zoom + pass + composite + wave);
  }

  /** A playing frame whose main surface is drawable but whose blur surface is
      empty draws the blur pass, then throws at the composite: it strokes
      once, on the blur surface, and copies once, for the zoom. */
  lemma EmptyBlurAbortsFrame(scene: Scene, filter: string, blurData: seq<byte>, mainData: seq<byte>)
    requires |blurData| >= 1 && |mainData| >= 1 && Surfaces(scene)
    requires Drawable(scene.main) && !Drawable(scene.blur)
    ensures var f := Frame(scene, true, filter, blurData, mainData);
      && !FrameCompletes(scene, true)
      && FilterAfter(scene, true, filter) == BLUR_FILTER
      && Count(f, Paint) == 1 && Count(f, Copy) == 1
      && forall i :: 0 <= i < |f| && KindOf(f[i].command) == Paint ==> f[i].target == Blur
  {
    var zoom, pass := ZoomPart(scene, filter), BlurPass(scene, blurData);
    var f := Frame(scene, true, filter, blurData, mainData);
    PlayOpsCases(scene, filter, blurData, mainData);
    assert f == [FadeOp(scene, filter)] + (zoom + pass);
    assert zoom == [ZoomOp(scene, filter)];
    BlurPassCounts(scene, blurData);
    CountSingle(FadeOp(scene, filter));
    CountSingle(ZoomOp(scene, filter));
    CountSplit(zoom, pass);
    CountSplit([FadeOp(scene, filter)], zoom + pass);
    BlurPassShape(scene, blurData);
    forall i | 0 <= i < |f| && KindOf(f[i].command) == Paint ensures f[i].target == Blur {
      if i >= 2 {
        assert f[i] == pass[i - 2];
      }
    }
  }

  /** A playing frame on a page too small for the blur surface (both client
      sides at least 2 pixels, one of them under 8) draws the blur pass, then
      throws at the composite: no main wave is drawn, the blur filter stays
      set and no frame follows. */
  lemma UndersizedBlurAbortsFrame(clientWidth: int, clientHeight: int, filter: string, blurData: seq<byte>, mainData: seq<byte>)
    requires ClientSize(clientWidth) && ClientSize(clientHeight)
    requires 2 <= clientWidth && 2 <= clientHeight && (clientWidth < 8 || clientHeight < 8)
    requires |blurData| >= 1 && |mainData| >= 1
    ensures var s := SceneFor(clientWidth, clientHeight);
      var f := Frame(s, true, filter, blurData, mainData);
      && !FrameCompletes(s, true)
      && FilterAfter(s, true, filter) == BLUR_FILTER
      && Count(f, Paint) == 1 && Count(f, Copy) == 1
      && forall i :: 0 <= i < |f| && KindOf(f[i].command) == Paint ==> f[i].target == Blur
  {
    SceneSizes(clientWidth, clientHeight);
    EmptyBlurAbortsFrame(SceneFor(clientWidth, clientHeight), filter, blurData, mainData);
  }

  /** A playing frame on a page less than 2 pixels high: the main surface has
      height 0, so the zoom's arguments are not finite and it draws nothing;
      the blur pass is drawn, then the composite throws on the empty blur
      surface, leaving the blur filter set and no frame scheduled. */
  lemma FlatPageSkipsZoom(clientWidth: int, clientHeight: int, filter: string, blurData: seq<byte>, mainData: seq<byte>)
    requires ClientSize(clientWidth) && ClientSize(clientHeight) && clientHeight < 2
    requires |blurData| >= 1 && |mainData| >= 1
    ensures var s := SceneFor(clientWidth, clientHeight);
      && Frame(s, true, filter, blurData, mainData) == [FadeOp(s, filter)] + BlurPass(s, blurData)
      && !FrameCompletes(s, true)
      && FilterAfter(s, true, filter) == BLUR_FILTER
  {
    SceneSizes(clientWidth, clientHeight);
    var s := SceneFor(clientWidth, clientHeight);
    assert s.main.height == 0 && s.blur.height == 0;
    assert ZoomPart(s, filter) == [];
  }

  /** A playing frame on a page under 2 pixels wide but at least 2 high: the
      main surface has width 0 and a positive height, so the zoom's arguments
      are finite and its `drawImage` throws on the empty source. The frame is
      the fade alone; the blur pass never runs, the filter keeps the value it
      had and no frame follows. */
  lemma NarrowPageThrowsAtZoom(clientWidth: int, clientHeight: int, filter: string, blurData: seq<byte>, mainData: seq<byte>)
    requires ClientSize(clientWidth) && ClientSize(clientHeight)
    requires clientWidth < 2 && 2 <= clientHeight
    requires |blurData| >= 1 && |mainData| >= 1
    ensures var s := SceneFor(clientWidth, clientHeight);
      && ZoomThrows(s.main)
      && Frame(s, true, filter, blurData, mainData) == [FadeOp(s, filter)]
      && !FrameCompletes(s, true)
      && FilterAfter(s, true, filter) == filter
  {
    SceneSizes(clientWidth, clientHeight);
  }

  /** The reset as written: assigning "" after the composite keeps
      `blur(2px)`. The main wave is stroked through it, and once a playing
      frame gets past the zoom, the next frame fades (and zooms) through it
      too, whether or not that frame is playing. */
  lemma EmptyResetKeepsBlur(scene: Scene, filter: string, playing: bool, blurData: seq<byte>, mainData: seq<byte>)
    requires |blurData| >= 1 && |mainData| >= 1
    requires !ZoomThrows(scene.main)
    ensures AssignFilter(BLUR_FILTER, RESET_FILTER) == BLUR_FILTER
    ensures var w := MainWave(scene, mainData, RESET_FILTER);
      w[|w| - 1].command == Stroke(LINE_WIDTH, Radial(scene.gradient), BLUR_FILTER)
    ensures FilterAfter(scene, true, filter) == BLUR_FILTER
    ensures Frame(scene, playing, FilterAfter(scene, true, filter), blurData, mainData)[0] ==
      Op(Main, FillRect(Whole(scene.main), FADE, BLUR_FILTER))
  {
    WaveShape(scene.main, WAVE_SCALE, mainData, LINE_WIDTH, Radial(scene.gradient), BLUR_FILTER);
  }

  /** The reset as intended: assigning "none" after the composite clears
      `blur(2px)` whatever the filter was, so the main wave is stroked without
      a filter and the next frame fades without one. */
  lemma IntendedResetUnblurs(scene: Scene, filter: string, playing: bool, blurData: seq<byte>, mainData: seq<byte>)
    requires |blurData| >= 1 && |mainData| >= 1
    ensures forall current :: AssignFilter(current, INTENDED_RESET) == NO_FILTER
    ensures var w := MainWave(scene, mainData, INTENDED_RESET);
      w[|w| - 1].command == Stroke(LINE_WIDTH, Radial(scene.gradient), NO_FILTER)
    ensures Frame(scene, playing, AssignFilter(BLUR_FILTER, INTENDED_RESET), blurData, mainData)[0] ==
      Op(Main, FillRect(Whole(scene.main), FADE, NO_FILTER))
  {
    WaveShape(scene.main, WAVE_SCALE, mainData, LINE_WIDTH, Radial(scene.gradient), NO_FILTER);
  }

  /** The visualiser `run` sets up: the two contexts sharing one trace, the
      playback state its event handlers update, and whether a `render` call
      is scheduled. */
  class Renderer {
    const clientWidth: int
    const clientHeight: int
    const scene: Scene
    const trace: Trace
    const main: Context
    const blur: Context
    var playing: bool
    var analyserCreated: bool
    var pendingPlays: nat
    var scheduled: bool

    /** What `run` fixes once: the sizes, the surfaces and brushes made from
        them, and the one trace both contexts draw into. Only constant fields
        take part, so no drawing call can change it. */
    ghost predicate Wired()
    {
      && ClientSize(clientWidth) && ClientSize(clientHeight)
      && scene == SceneFor(clientWidth, clientHeight)
      && main != blur && main.trace == trace && blur.trace == trace
      && main.canvas == scene.main && blur.canvas == scene.blur
    }

    ghost predicate Valid()
      reads this, main, blur
    {
      && Wired()
      && blur.filter == NO_FILTER
      && (main.filter == NO_FILTER || main.filter == BLUR_FILTER)
      && Invariant(State())
    }

    /** The playback state as the pure state machine sees it. */
    function State(): Playback.State
      reads this
    {
      Playback.State(playing, analyserCreated, pendingPlays)
    }

    /** `run`: sizes both surfaces, creates their contexts and brushes, starts
        idle with no analyser, and schedules the first frame. */
    constructor (clientWidth: int, clientHeight: int)
      requires ClientSize(clientWidth) && ClientSize(clientHeight)
      ensures Valid()
      ensures this.clientWidth == clientWidth && this.clientHeight == clientHeight
      ensures scene == SceneFor(clientWidth, clientHeight)
      ensures State() == Initial && scheduled
      ensures trace.ops == []
      ensures fresh(trace) && fresh(main) && fresh(blur)
      ensures main.fillStyle == DEFAULT_STYLE && main.strokeStyle == DEFAULT_STYLE
      ensures main.lineWidth == DEFAULT_LINE_WIDTH && main.filter == NO_FILTER
      ensures blur.fillStyle == DEFAULT_STYLE && blur.strokeStyle == DEFAULT_STYLE
      ensures blur.lineWidth == DEFAULT_LINE_WIDTH && blur.filter == NO_FILTER
    {
      var s := SceneFor(clientWidth, clientHeight);
      var t := new Trace();
      var m, g := CreateCanvas(s.main, GRADIENT_SCALE, LINE_COLORS, t);
      var b, bg := CreateCanvas(s.blur, BLUR_GRADIENT_SCALE, BLUR_COLORS, t);
      this.clientWidth := clientWidth;
      this.clientHeight := clientHeight;
      scene := Scene(s.main, s.blur, g, bg);
      trace := t;
      main := m;
      blur := b;
      playing := false;
      analyserCreated := false;
      pendingPlays := 0;
      scheduled := true;
    }

    /** The click handler up to `await audio.play()`: builds the analyser
        unless one exists (`created` says whether it did) and starts a play request. */
    method OnClick() returns (created: bool)
      requires Valid()
      modifies this
      ensures Valid() && unchanged(main) && unchanged(blur) && unchanged(trace)
      ensures created == Builds(old(State()), Click)
      ensures State() == Next(old(State()), Click)
      ensures scheduled == old(scheduled)
    {
      created := !analyserCreated;
      analyserCreated := true;
      pendingPlays := pendingPlays + 1;
    }

    /** The click handler after `audio.play()` resolved: playback has started. */
    method OnPlayResolved()
      requires Valid() && Enabled(State(), PlayResolved)
      modifies this
      ensures Valid() && unchanged(main) && unchanged(blur) && unchanged(trace)
      ensures State() == Next(old(State()), PlayResolved) && playing
      ensures scheduled == old(scheduled)
    {
      pendingPlays := pendingPlays - 1;
      playing := true;
    }

    /** The click handler after `audio.play()` rejected: `playing` is left as it was. */
    method OnPlayRejected()
      requires Valid() && Enabled(State(), PlayRejected)
      modifies this
      ensures Valid() && unchanged(main) && unchanged(blur) && unchanged(trace)
      ensures State() == Next(old(State()), PlayRejected) && playing == old(playing)
      ensures scheduled == old(scheduled)
    {
      pendingPlays := pendingPlays - 1;
    }

    /** The `ended` handler: playback is over. */
    method OnEnded()
      requires Valid()
      modifies this
      ensures Valid() && unchanged(main) && unchanged(blur) && unchanged(trace)
      ensures State() == Next(old(State()), Ended) && !playing
      ensures scheduled == old(scheduled)
    {
      playing := false;
    }

    /** One `render` call, with the two snapshots it reads from the analyser.
        It records exactly the commands of `Frame`, leaves the playback state
        alone and, when idle, touches neither the blur surface nor the main
        context's stroke state; `rescheduled` says whether it reached
        `requestAnimationFrame(render)`. */
    method Step(blurData: seq<byte>, mainData: seq<byte>) returns (rescheduled: bool)
      requires Valid() && scheduled
      requires |blurData| == FFT_SIZE && |mainData| == FFT_SIZE
      modifies this, main, blur, trace
      ensures Valid()
      ensures State() == old(State())
      ensures trace.ops == old(trace.ops) + Frame(scene, old(playing), old(main.filter), blurData, mainData)
      ensures rescheduled == FrameCompletes(scene, old(playing)) && scheduled == rescheduled
      ensures main.filter == FilterAfter(scene, old(playing), old(main.filter))
      ensures main.fillStyle == FADE
      ensures if old(playing) && FrameCompletes(scene, true)
        then main.lineWidth == LINE_WIDTH && main.strokeStyle == Radial(scene.gradient)
        else main.lineWidth == old(main.lineWidth) && main.strokeStyle == old(main.strokeStyle)
      ensures if old(playing) && !ZoomThrows(scene.main)
        then && blur.lineWidth == BLUR_LINE_WIDTH && blur.strokeStyle == Radial(scene.blurGradient)
             && blur.fillStyle == old(blur.fillStyle) && blur.filter == old(blur.filter)
        else unchanged(blur)
    {
      main.fillStyle := FADE;
      main.FillRect(Whole(main.canvas));
      ghost var faded := trace.ops;
      assert faded == old(trace.ops) + [FadeOp(scene, old(main.filter))];
      if playing {
        rescheduled := Play(blurData, mainData);
        assert trace.ops == old(trace.ops) + ([FadeOp(scene, old(main.filter))] +
          PlayOps(scene, old(main.filter), blurData, mainData));
      } else {
        rescheduled := true;
      }
      scheduled := rescheduled;
    }

    /** The playing part of `render`, from `zoomOut` to the main wave.
        `completed` is false when a `drawImage` threw and the frame stopped. */
    method Play(blurData: seq<byte>, mainData: seq<byte>) returns (completed: bool)
      requires Valid()
      requires |blurData| == FFT_SIZE && |mainData| == FFT_SIZE
      modifies main, blur, trace
      ensures Valid()
      ensures trace.ops == old(trace.ops) + PlayOps(scene, old(main.filter), blurData, mainData)
      ensures completed == FrameCompletes(scene, true)
      ensures main.filter == FilterAfter(scene, true, old(main.filter))
      ensures main.fillStyle == old(main.fillStyle)
      ensures if FrameCompletes(scene, true)
        then main.lineWidth == LINE_WIDTH && main.strokeStyle == Radial(scene.gradient)
        else main.lineWidth == old(main.lineWidth) && main.strokeStyle == old(main.strokeStyle)
      ensures if !ZoomThrows(scene.main)
        then && blur.lineWidth == BLUR_LINE_WIDTH && blur.strokeStyle == Radial(scene.blurGradient)
             && blur.fillStyle == old(blur.fillStyle) && blur.filter == old(blur.filter)
        else unchanged(blur)
    {
      ghost var filter0 := main.filter;
      PlayOpsCases(scene, filter0, blurData, mainData);
      var ok := ZoomAndBlurPass(blurData);
      if !ok {
        return false;
      }
      ghost var drawn := trace.ops;
      completed := CompositeAndMainWave(mainData);
      Concat3(old(trace.ops), ZoomPart(scene, filter0) + BlurPass(scene, blurData),
        if completed then [CompositeOp(scene)] + MainWave(scene, mainData, RESET_FILTER) else []);
    }

    /** `zoomOut` and the blur pass: the thin line and the blur brush, the
        blur surface cleared, and the wave drawn on it at the blur scale.
        `ok` is false when the zoom threw. */
    method ZoomAndBlurPass(blurData: seq<byte>) returns (ok: bool)
      requires Valid() && |blurData| >= 1
      modifies blur, trace
      ensures Valid()
      ensures ok == !ZoomThrows(scene.main)
      ensures trace.ops == old(trace.ops) +
        if ok then ZoomPart(scene, main.filter) + BlurPass(scene, blurData) else []
      ensures if ok
        then && blur.lineWidth == BLUR_LINE_WIDTH && blur.strokeStyle == Radial(scene.blurGradient)
             && blur.fillStyle == old(blur.fillStyle) && blur.filter == old(blur.filter)
        else unchanged(blur)
    {
      ok := ZoomOut(main, ZOOM_SPEED);
      if !ok {
        return;
      }
      ghost var zoomed := trace.ops;
      blur.lineWidth := BLUR_LINE_WIDTH;
      blur.strokeStyle := Radial(scene.blurGradient);
      blur.ClearRect(Whole(blur.canvas));
      RenderWave(blur, BLUR_WAVE_SCALE, blurData);
      assert trace.ops == zoomed + BlurPass(scene, blurData);
    }

    /** The composite and the main wave: `blur(2px)` set on the main context,
        the blur surface copied over the whole main surface, the reset
        assigned, then the wide line and the main brush and the wave drawn on
        the main surface. `ok` is false when the copy threw. */
    method CompositeAndMainWave(mainData: seq<byte>) returns (ok: bool)
      requires Valid() && |mainData| >= 1
      modifies main, trace
      ensures Valid()
      ensures ok == Drawable(scene.blur)
      ensures trace.ops == old(trace.ops) +
        if ok then [CompositeOp(scene)] + MainWave(scene, mainData, RESET_FILTER) else []
      ensures main.filter == if ok then AssignFilter(BLUR_FILTER, RESET_FILTER) else BLUR_FILTER
      ensures main.fillStyle == old(main.fillStyle)
      ensures if ok
        then main.lineWidth == LINE_WIDTH && main.strokeStyle == Radial(scene.gradient)
        else main.lineWidth == old(main.lineWidth) && main.strokeStyle == old(main.strokeStyle)
    {
      main.SetFilter(BLUR_FILTER);
      ok := main.DrawImage(blur, Whole(blur.canvas), Whole(main.canvas));
      if !ok {
        return;
      }
      main.SetFilter(RESET_FILTER);
      ghost var composited := trace.ops;
      main.lineWidth := LINE_WIDTH;
      main.strokeStyle := Radial(scene.gradient);
      RenderWave(main, WAVE_SCALE, mainData);
      assert trace.ops == composited + MainWave(scene, mainData, RESET_FILTER);
    }
  }
}
