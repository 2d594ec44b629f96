# Circular waveform visualiser — a Dafny model of its frame pipeline

The visualiser draws the audio that is playing as a circular waveform.
Every animation frame fades the main canvas slightly. While audio plays, the
frame also zooms the old content outwards a little (the feedback trail), draws
the wave small on a quarter-resolution "blur" canvas, copies that canvas,
blurred, onto the main canvas, and last draws the wave on top. That last stroke
is meant to be sharp, but as written it is blurred too (see "## Findings").
All of this logic lives in `src/js/main.js`.

This project models that file's core in Dafny:

- `geometry.dfy` (`Geometry`): `arc`. One sample becomes a point at a given angle around a
  centre, at the radius `sample * scale` clamped into `[50 * scale, 200 * scale]`.
  Points stay in polar form (centre, angle, radius), so no trigonometry is needed.
  Angles are measured in turns: `TAU` = 1 turn, `PI2` = 1/4 turn, and radians = turns × 2π.
  So every angle is an exact rational number.
- `canvas.dfy` (`Canvas2D`): the 2D drawing context. There are no pixels. Every drawing
  call appends a command to one trace shared by both canvases. Each command is tagged
  with the surface it was issued on. `stroke`, `fillRect` and `drawImage` also record
  the line width, style and filter the context holds at that moment. Following the
  `drawImage` steps of the HTML standard, a call with a non-finite argument returns
  without drawing. A call with finite arguments whose source canvas has a zero side
  throws and records nothing. Assigning `filter` follows the setter's rule: "none"
  and a parsable filter list are taken, and any other value is ignored.
- `wave.dfy` (`Wave`): `renderWave`. It is a loop that issues `beginPath`, `moveTo` for
  vertex 0, `lineTo` for vertices 1 … N−1, and one `stroke`. Vertex i is sample i at
  angle `PI2 + i * (TAU / N)` around the canvas midpoint.
- `setup.dfy` (`Setup`): the setup arithmetic. This covers the `>>` shifts that size the
  surfaces, the five-stop radial gradient of `createCanvas`, and the source rectangle
  of `zoomOut`.
- `playback.dfy` (`Playback`): the `playing` / `analyser` state kept by `run`. It is a
  pure state machine over the events click, play resolved, play rejected and ended.
- `visualizer.dfy` (`Visualizer`): `run` and its `render` step. The `Renderer` class holds
  both contexts, the shared trace, the playback state and whether a frame is scheduled.
  `Renderer.Step` is one `render` call. It appends exactly the commands of the
  specification function `Frame`.

Consequences of the code as written:

- `PI2` is a quarter turn. On a canvas the y axis points down, so the first vertex sits
  straight below the centre, not at the top.
- The blur canvas is sized `(clientWidth >> 1) >> 2`, one eighth of the client size.
  When both client sides are at least 2 pixels and one of them is under 8, the main
  canvas is drawable but the blur canvas is empty. The composite's `drawImage` then
  throws on the first playing frame, so that frame stops after the blur pass. The
  `blur(2px)` filter stays set, and `requestAnimationFrame` is never reached, so the
  animation stops. `Frame`, `FilterAfter`, `FrameCompletes` and
  `UndersizedBlurAbortsFrame` state this.
- For a client width under 2 pixels and a client height of at least 2, the main canvas
  has width 0 and a positive height. `zoomOut`'s arguments are then finite, and its
  `drawImage` throws on the zero-width source right after the fade. The blur pass never
  runs, the filter keeps its previous value and the animation stops
  (`NarrowPageThrowsAtZoom`).
- For a client height under 2 pixels the main canvas has height 0. `zoomOut` then
  divides by zero, its `drawImage` arguments are not finite and it draws nothing.
  The blur canvas is empty too, so the frame still stops at the composite
  (`FlatPageSkipsZoom`).
- `context.filter = ""` after the composite is ignored, since the empty string is not
  a filter list. `blur(2px)` stays set, so the main wave and every later fade and
  zoom are blurred as well. The `Renderer` models the code as written; see "## Findings".

## Model

| member | source | states |
|---|---|---|
| `Geometry.Radius` | src/js/main.js:7 | defined as `Math.max(50*scale, Math.min(200*scale, sample*scale))` over the reals; properties in `RadiusClamps` and `RadiusScales` |
| `Geometry.RadiusClamps` | src/js/main.js:7 | the radius is `sample*scale` when that is inside `[50*scale, 200*scale]`, the inner edge below it, the outer edge above it; for `scale >= 0` it always lies in the band; a negative scale always gives `50*scale` |
| `Geometry.Arc` | src/js/main.js:6-9 | defined as the polar point at `angle` around (cx, cy) at distance `Radius(scale, sample)`; properties in `ArcPlacement` |
| `Geometry.ArcPlacement` | src/js/main.js:6-9 | the point keeps the given centre and angle, and its radius lies in the band and equals `sample*scale` inside it |
| `Geometry.RadiusScales` | src/js/main.js:7 | clamping commutes with a positive change of scale: `Radius(k*s, d) == k*Radius(s, d)` |
| `Wave.Vertex` | src/js/main.js:12-19 | defined as `Arc` of sample i at angle `PI2 + i*(TAU/N)` around the canvas midpoint; properties in `VertexPlacement`, `NoClosingSegment` and `ConstantSamplesCircle` |
| `Wave.WaveOps` | src/js/main.js:16-22 | defined as `beginPath`, `moveTo` vertex 0, `lineTo` vertices 1 … N−1, and one `stroke` with the given line width, style and filter; properties in `WaveShape`, `WaveLayout` and `WaveCounts` |
| `Wave.RenderWave` | src/js/main.js:11-23 | the loop appends exactly `WaveOps` of the context's canvas, samples, scale and current line width, stroke style and filter |
| `Wave.WaveShape` | src/js/main.js:15-22 | read off `WaveLayout`: a wave has N+2 commands, all on the context's surface, starting with `beginPath` and ending with a `stroke` of the given line width, style and filter |
| `Wave.PathExtends` | src/js/main.js:18-21 | each loop step extends the path by one `lineTo` to the next vertex |
| `Wave.WaveLayout` | src/js/main.js:15-22 | N+2 commands on one surface: `beginPath`, `moveTo` vertex 0, `lineTo` vertex i at position i+1 for 1 ≤ i < N, `stroke` last |
| `Wave.PathCounts` | src/js/main.js:17-21 | the first n path commands hold exactly one `moveTo` and n−1 `lineTo` and nothing else |
| `Wave.WaveCounts` | src/js/main.js:16-22 | a wave of N samples issues exactly one `beginPath`, one `moveTo`, N−1 `lineTo`, one `stroke`, and no fill, clear or copy |
| `Wave.VertexPlacement` | src/js/main.js:12-19 | vertex i is centred on (width/2, height/2), at angle `PI2 + i*(TAU/N)` in `[PI2, PI2+TAU)`, with the clamped radius of sample i |
| `Wave.NoClosingSegment` | src/js/main.js:18-22 | each vertex after the first is one step beyond the previous one, strictly past the start and short of a full turn, so no segment returns to vertex 0 |
| `Wave.ConstantSamplesCircle` | src/js/main.js:6-19 | constant samples give a circle: every vertex on the midpoint at the same clamped radius `Radius(scale, s)`, which is `s*scale` when the sample is in the band and the scale non-negative, and the band's edge otherwise |
| `Wave.InBandRadius` | src/js/main.js:7 | a sample in [50, 200] at a non-negative scale keeps its radius `sample*scale` |
| `Setup.ShiftRight` | src/js/main.js:88-89 | `x >> n` on a 32-bit value stays 32-bit, keeps its sign and never moves away from zero |
| `Setup.ShiftTwice` | src/js/main.js:88-95 | shifting by a and then by b equals shifting by a+b |
| `Setup.Brush` | src/js/main.js:27-34 | the gradient is centred on the canvas midpoint, runs from radius `scale` to `5*scale`, and has exactly 5 stops with `colors[k]` at offset k/4, strictly increasing from 0 to 1 |
| `Setup.CreateCanvas` | src/js/main.js:25-36 | returns a fresh context of the canvas in its initial state, together with `Brush` of the canvas, scale and colours |
| `Setup.ZoomSourceRect` | src/js/main.js:39-44 | defined as the rectangle (sx, sy, W − 2sx, H − 2sy) with sy = speed·1.1 and sx = sy·(W/H), for H > 0; properties in `ZoomSourceShape` and `ZoomExample` |
| `Setup.ZoomSourceShape` | src/js/main.js:38-44 | sy = speed·1.1 and sx = sy·(W/H); the source rectangle is centred on the canvas midpoint and has the canvas's aspect ratio |
| `Setup.ZoomExample` | src/js/main.js:39-44 | W=800, H=450, speed 1 gives sx = 88/45, sy = 1.1, source 35824/45 × 447.8 |
| `Setup.ZoomThrows` | src/js/main.js:41-44 | defined as: the height is positive, so every `drawImage` argument is finite, and the width is 0, so the source canvas is empty and the call throws; used by `ZoomOut`'s contract |
| `Setup.ZoomOut` | src/js/main.js:38-45 | on a drawable canvas it appends one self-copy from `ZoomSourceRect` onto the whole canvas; at height 0 the arguments are not finite and it neither draws nor throws; at width 0 with a positive height it throws (`ok` is false) and records nothing |
| `Canvas2D.AssignFilter` | src/js/main.js:111-113 | after `filter = value`, "none" and any parsable filter list are held, and any other value (not "none", not parsable) leaves exactly the current filter |
| `Canvas2D.AssignFilterEffects` | src/js/main.js:113 | assigning `""` never changes the filter, and assigning "none" always resets it |
| `Canvas2D.Context.SetFilter` | src/js/main.js:111-113 | the context's filter becomes `AssignFilter` of the old filter and the value; fill style, stroke style and line width are kept |
| `Playback.Next` | src/js/main.js:75-85 | `playing` becomes true only on play-resolved and false only on ended; a built analyser is kept; the state invariant is preserved |
| `Playback.ReachableInvariant` | src/js/main.js:71-85 | in every reachable state, playing or a pending play request implies the analyser exists |
| `Playback.PlayingIffResolvedSinceEnded` | src/js/main.js:72-84 | after any history, playing holds exactly when some play request resolved and no `ended` came after it |
| `Playback.AnalyserBuiltOnce` | src/js/main.js:71-82 | the analyser exists exactly when a click has happened, and it is built exactly once (by the first click) |
| `Visualizer.SceneFor` | src/js/main.js:88-97 | defined as the main canvas at `client >> 1`, the blur canvas at `main >> 2`, each with its `Brush` (scale 30 and 7.5, the two colour lists); properties in `SceneSizes` and `BlurIsQuarterScale` |
| `Visualizer.SceneSizes` | src/js/main.js:88-95 | main = client/2 and blur = main/4 = client/8 on each side; the blur surface is drawable exactly when both client sides are at least 8 |
| `Visualizer.BlurIsQuarterScale` | src/js/main.js:91-117 | 7.5 = 30/4 and 0.1875 = 0.75/4; the blur brush radii are a quarter of the main ones, and so is every blur-wave radius |
| `Visualizer.Frame` | src/js/main.js:99-122 | defined as the fade, then `PlayOps` when playing; properties in `FrameStartsWithFade`, `IdleFrameOnlyFades`, `PlayingFrameOrder`, `PlayingFrameCounts` and the abort lemmas; `Renderer.Step` records exactly it |
| `Visualizer.PlayOps` | src/js/main.js:104-117 | defined as nothing when the zoom throws; the zoom part and the blur pass when the blur canvas is empty; otherwise those, the composite and the main wave; properties in `PlayOpsCases`, `FrontShape` and `PlayingFrameOrder` |
| `Visualizer.PlayOpsCases` | src/js/main.js:104-117 | the three outcomes of a playing frame after the fade: nothing when the zoom throws, the zoom part and blur pass when the composite throws, and those followed by the composite and main wave otherwise |
| `Visualizer.FrameCompletes` | src/js/main.js:103-121 | defined as: idle, or the zoom does not throw and the blur canvas is drawable; `Renderer.Step` reschedules exactly then |
| `Visualizer.FilterAfter` | src/js/main.js:104-113 | defined as: the old filter when idle or when the zoom throws, `blur(2px)` when the composite throws, else `AssignFilter(blur(2px), "")`; properties in `EmptyResetKeepsBlur` and the abort lemmas |
| `Visualizer.FrameStartsWithFade` | src/js/main.js:100-101 | every frame begins with the alpha-0.04 fill of the whole main surface |
| `Visualizer.IdleFrameOnlyFades` | src/js/main.js:99-122 | an idle frame is that one fill on the main surface: no stroke, copy or clear, and nothing on the blur surface |
| `Visualizer.PlayingFrameOrder` | src/js/main.js:103-119 | a complete playing frame is: fade, self-zoom, clear blur, blur wave (all on the blur surface), composite of the blur surface with `blur(2px)`, then the main wave on the main surface, stroked through `blur(2px)` because the `""` reset is ignored |
| `Visualizer.FrontShape` | src/js/main.js:104-112 | between the fade and the main wave come the zoom, N+3 commands on the blur surface starting with the clear, and the composite |
| `Visualizer.BlurPassShape` | src/js/main.js:108-109 | the blur pass is N+3 commands, all on the blur surface, the clear first |
| `Visualizer.BlurPassCounts` | src/js/main.js:106-109 | the blur pass clears once and strokes once, with one `moveTo` and N−1 `lineTo` |
| `Visualizer.PlayingFrameCounts` | src/js/main.js:103-119 | a complete playing frame strokes twice, copies twice, fills once and clears once |
| `Visualizer.EmptyBlurAbortsFrame` | src/js/main.js:104-113 | with a drawable main surface and an empty blur surface the frame throws at the composite: it strokes only on the blur surface, copies once (the zoom), and leaves `blur(2px)` set with no frame scheduled |
| `Visualizer.UndersizedBlurAbortsFrame` | src/js/main.js:93-113 | with both client sides at least 2 and one under 8 the frame throws at the composite: it strokes only on the blur surface, the blur filter stays set, and no frame follows |
| `Visualizer.NarrowPageThrowsAtZoom` | src/js/main.js:88-104 | with a client width under 2 and a client height of at least 2 the zoom throws: the frame is the fade alone, the filter keeps its value and no frame follows |
| `Visualizer.FlatPageSkipsZoom` | src/js/main.js:88-113 | with a client height under 2 the zoom draws nothing (non-finite arguments); the frame is the fade and the blur pass, then the composite throws, `blur(2px)` stays set and no frame follows |
| `Visualizer.EmptyResetKeepsBlur` | src/js/main.js:111-117 | as written: assigning `""` keeps `blur(2px)`, the main wave's stroke carries `blur(2px)`, and the next frame's fade is blurred |
| `Visualizer.IntendedResetUnblurs` | src/js/main.js:111-117 | corrected: assigning "none" resets any filter, the main wave is stroked with no filter, and the next frame's fade has none |
| `Visualizer.Renderer.constructor` | src/js/main.js:70-97 | sizes and creates both surfaces and brushes, leaves both contexts in their initial state (black styles, width 1, no filter), starts idle with no analyser and an empty trace, and schedules a frame |
| `Visualizer.Renderer.OnClick` | src/js/main.js:80-83 | builds the analyser only if there is none (reports whether it did) and starts a play request |
| `Visualizer.Renderer.OnPlayResolved` | src/js/main.js:83-84 | the settled play request sets `playing` |
| `Visualizer.Renderer.OnPlayRejected` | src/js/main.js:83 | a rejected play request leaves `playing` as it was |
| `Visualizer.Renderer.OnEnded` | src/js/main.js:75-78 | `ended` clears `playing` |
| `Visualizer.Renderer.Step` | src/js/main.js:99-122 | one frame appends exactly `Frame(...)`, keeps the playback state, sets the fade fill style and the filter to `FilterAfter`, sets the wide line and main brush exactly when a playing frame completes, sets the thin line and blur brush exactly when a playing frame gets past the zoom (otherwise the blur context is untouched), and reschedules exactly when the frame completes |
| `Visualizer.Renderer.Play` | src/js/main.js:103-119 | the playing part appends exactly `PlayOps(...)`, completes exactly when `FrameCompletes`, and leaves the main filter at `FilterAfter` and both contexts' stroke state as `Step` states |
| `Visualizer.Renderer.ZoomAndBlurPass` | src/js/main.js:104-109 | fails exactly when the zoom throws, recording nothing; otherwise appends the zoom part and the blur pass and sets the blur context's line width and stroke style |
| `Visualizer.Renderer.CompositeAndMainWave` | src/js/main.js:111-117 | succeeds exactly when the blur surface is drawable; then appends the composite and the main wave, with the filter left at `AssignFilter(blur(2px), "")`; otherwise records nothing and leaves `blur(2px)` set |

## Left out

- The `Analyzer` (src/js/main.js:47-68) is not modelled: the audio graph, the smoothing constant 0.6 and the unused frequency accessor. It appears only as the two time-domain snapshots that `Renderer.Step` takes as parameters. Each holds `FFT_SIZE` = 512 samples.
- The analyser returns one shared buffer that every read refreshes. The model instead takes the frame's two reads as two independent snapshots, so the aliasing between them is not modelled.
- `Math.cos`/`Math.sin` are left out because points stay in polar form. IEEE rounding is left out because all arithmetic is over exact reals. For example, 1.1 and 447.8 are exact here.
- Pixel effects are left out: alpha blending, the self-copy of `drawImage`, the blur filter and gradient colour interpolation. They are recorded only as trace commands.
- The CSS filter grammar is not modelled. `ParsesAsFilterList` treats only the empty string as unparsable; the visualiser assigns only `blur(2px)` and `""`.
- `drawImage` follows the order of the HTML standard's steps: non-finite arguments return first, then an empty source canvas throws. The later step, where a zero-sized source rectangle draws nothing, is not modelled. The visualiser never produces one, because H − 2.2 is never 0 for an integer height H.
- The `requestAnimationFrame` loop is not modelled as a loop. The model has one `Step` per call and a `scheduled` flag.
- DOM lookups, the `shrink` CSS class, the `load` event and the bundler configuration (webpack.common.js) are left out. They contain no logic.
- The client size is a parameter of the `Renderer` constructor. It is required to lie in [0, 2^31), the range the DOM reports, so the `>>` conversion never wraps.
- `await audio.play()` is asynchronous in the source. Here its outcome arrives as a separate event, `OnPlayResolved` or `OnPlayRejected`.
- `Wave.RenderWave` requires at least one sample. With none, `data[0]` is undefined and the coordinates are NaN. The analyser always supplies 512 samples.
- `Setup.CreateCanvas` and `Setup.Brush` require at least five colours, since the source reads `colors[0]` to `colors[4]`. Both callers pass five.
- `Visualizer.Renderer.Step` requires snapshots of length 512 even on idle frames, which ignore them.

## Findings

| source | as written | input that shows it | evidently intended | confidence | as-written member | corrected member |
|---|---|---|---|---|---|---|
| src/js/main.js:113 | `context.filter = ""` | any playing frame past the composite: `""` is not a filter list, so the assignment is ignored and `blur(2px)` stays; the main wave (main.js:117) and every later fade and zoom are blurred | `context.filter = "none"`, which leaves the main wave and the next fade unfiltered | not executed | `Visualizer.EmptyResetKeepsBlur` | `Visualizer.IntendedResetUnblurs` |
