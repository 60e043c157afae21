# Cosmic zen background: a verified model of its sequential core

This project models in Dafny the parts of the zen background that consist of plain logic. The rest of the background is a WebGL and DOM engine. There are three parts:

- **The per-frame WebGL scene engine** (`js/webgl-zen.js`). This covers:
  - the `time` record and how `animate` updates it;
  - the click-ripple list, which `createRipple` appends to and `updateRipples` filters in place, walking backwards;
  - the per-frame transforms of mandalas, energy centers and the two sacred-geometry groups (`updateZenElements`);
  - the generation formulas of the star field and the energy streams.
- **The screen-space effects** (`js/enhanced-zen.js`). This covers the energy-connection pair rule, the trail keyframe schedule of a particle, and the layout of the particle emitters.
- **The debug overlay** (`js/zen-debug.js`). This covers the on/off state machine, the lazily created frame timer, the wireframe switch and the stats calls in the wrapped `animate`.

How the model treats the source's values:

- JavaScript numbers are mathematical `real`s.
- Each `Math.random()` value is an explicit input of the subset type `Unit` ([0, 1)). The values are grouped into one record per created object, in the order the source draws them.
- `Math.sin` and `Math.sqrt` are function parameters. They are known only through `IsSine` (values in [-1, 1]) and `IsSqrt` (the non-negative root on non-negative inputs). Every property therefore holds for any such function.
- Layout reads become inputs: bounding rectangles, viewport size, the clock reading and the ripple's click point.

Modules:

| module | file | contents |
|---|---|---|
| `Numbers`, `Wrappers` | `numbers.dfy` | `Unit`, `IsSine`, `IsSqrt`, `Abs`, `Square`, `Sum`, palette index, `Option` |
| `ZenElements` | `zen_elements.dfy` | element records, their creation and their one-frame step functions |
| `Ripples` | `ripples.dfy` | the ripple record, the ring look at an age, and `Sweep`, the specification of one `updateRipples` pass |
| `ZenSpace` | `zen_space.dfy` | class `Clock` (the `time` record) and class `ZenScene`: the clock, the element arrays and the ripple list, with the frame methods |
| `Generation` | `generation.dfy` | star field and energy-stream buffers |
| `EnhancedZen` | `enhanced_zen.dfy` | energy connections, trail keyframes, particle emitters |
| `ZenDebug` | `zen_debug.dfy` | wireframe propagation and class `Debugger` |

Facts about the code that shape the model:

- There is no clamp on the frame delta: `animate` uses the raw difference of clock readings (`js/webgl-zen.js:1296`).
- Star sizes lie in [0.1, 1.0) and star opacities in [0.2, 1.0), as the formulas and their comments say (`js/webgl-zen.js:454-455`, `js/webgl-zen.js:464-465`).
- The mandala float eases towards `sin(elapsed * floatSpeed) * floatAmplitude`, an offset around height 0, not around the mandala's placement (`js/webgl-zen.js:1363-1364`). `MandalaTarget` models this as written. Mandalas therefore drift from their placed heights towards the band around 0; `MandalaStepApproaches` and `MandalaStepStaysInBand` state this.
- The energy-center pulse speed drives only the light intensity on the CPU; the sphere's pulse is in the shader.
- `createRipple` always records a duration of 3, and nothing guards it. The model needs a positive duration to divide by, so `Sweep` requires it. The scene invariant `ZenScene.Valid` keeps every ripple's duration at exactly 3, so the requirement always holds.

## Model

| member | source | states |
|---|---|---|
| Numbers.PaletteIndex | js/webgl-zen.js:458 | `Math.floor(random * length)` is a valid index of any non-empty palette |
| ZenElements.FloatOffset | js/webgl-zen.js:1376 | the float offset `sin(elapsed * speed) * amplitude` never exceeds the amplitude in magnitude (the same formula is used for mandalas at line 1363 and sacred groups at line 1399) |
| ZenElements.LightPulse | js/webgl-zen.js:1384-1385 | the light intensity `0.5 + 0.3 sin(...)` lies in [0.2, 0.8] |
| ZenElements.Ease | js/webgl-zen.js:1364 | the easing step lands between the old height and the target and leaves 95% of the gap |
| ZenElements.NewMandala | js/webgl-zen.js:749-824 | a created mandala sits at its position; its energy colour index is its index modulo the energy palette's length, so it is valid; radius, opacity, rotation, rotation speed, float speed and amplitude lie in their draw ranges |
| ZenElements.MandalaStep | js/webgl-zen.js:1359-1364 | one frame of a mandala: the z rotation grows by `rotationSpeed · delta` and the height eases 5% of the way to `sin(elapsed · floatSpeed) · floatAmplitude`; nothing else changes |
| ZenElements.MandalaStepAdvances | js/webgl-zen.js:1360-1364 | one frame keeps "turned by speed × total delta, only the height moved, creation parameters intact", with the frame's delta added to the total |
| ZenElements.MandalaStepApproaches | js/webgl-zen.js:1363-1364 | each frame the gap between a mandala's height and its float target shrinks to exactly 0.95 of itself |
| ZenElements.MandalaStepStaysInBand | js/webgl-zen.js:1363-1364 | a mandala whose height is within its float amplitude stays within it on every later frame |
| ZenElements.NewEnergyCenter | js/webgl-zen.js:852-934 | a created center sits at its origin; its chakra index is its index modulo the chakra palette's length, so it is valid; it has a light iff its index is 0, and that light is `PointLight(position, 0.5, 30)`; radius, intensity and speeds lie in their ranges |
| ZenElements.NewEnergyCenterSettled | js/webgl-zen.js:909-918 | a new center already satisfies the per-frame invariant: its light sits on it with intensity in [0.2, 0.8] |
| ZenElements.CenterStep | js/webgl-zen.js:1376-1386 | one frame of an energy center: its height becomes its origin height plus `sin(elapsed · floatSpeed) · floatAmplitude`, and its light, if any, moves onto it with intensity `0.5 + 0.3 sin(elapsed · pulseSpeed)`; nothing else changes |
| ZenElements.CenterStepSettles | js/webgl-zen.js:1376-1386 | after a frame the center is within its amplitude of its origin height at its origin's x and z; its light is on it, pulsing in [0.2, 0.8]; nothing but position and light changed |
| ZenElements.CenterStepForgetsHeight | js/webgl-zen.js:1376-1377 | a frame's result does not depend on the previous height, so repeating a frame at the same elapsed time gives the same state |
| ZenElements.FlowerOfLifeShape | js/webgl-zen.js:961-991 | the Flower of Life group starts at its original height with both rotations (y and z) at 0, and it satisfies the per-frame invariant `SacredAfter` with no frames elapsed |
| ZenElements.MetatronCubeShape | js/webgl-zen.js:1006-1062 | Metatron's Cube starts at its original height with both rotations (y and z) at 0, and it satisfies the per-frame invariant `SacredAfter` with no frames elapsed |
| ZenElements.SacredStep | js/webgl-zen.js:1395-1400 | one frame of a sacred group: the z rotation grows by `rotationSpeed · delta`, the y rotation by half that, and the height becomes `originalY + sin(elapsed · floatSpeed) · floatAmplitude`; nothing else changes |
| ZenElements.SacredStepAdvances | js/webgl-zen.js:1395-1400 | one frame keeps "turned by speed × total about z and half that about y, within its amplitude of its original height, nothing else changed" |
| ZenElements.SacredHalfRate | js/webgl-zen.js:1395-1396 | each frame the y rotation advances by exactly half the z rotation's advance |
| ZenElements.SacredStepForgetsHeight | js/webgl-zen.js:1399-1400 | a group's position after a frame does not depend on its previous height, so a second frame at the same elapsed time leaves its position unchanged |
| Ripples.NewRipple | js/webgl-zen.js:1175-1180 | the record `createRipple` pushes: the clicked point, created at the current elapsed time, lasting 3 seconds, with the initial look |
| Ripples.LookAt | js/webgl-zen.js:1198-1215 | at age 0 the ring has the creation look; within the ripple's life, radius, width, alpha and scale lie in [0.1, 10.1), [0.05, 0.55), (0, 1] and [1, 6) |
| Ripples.LookMonotone | js/webgl-zen.js:1198-1215 | radius, width and scale grow and alpha falls as the ripple ages |
| Ripples.Sweep | js/webgl-zen.js:1189-1221 | one pass of `updateRipples` as a value: each live ripple re-animated at the elapsed time, each expired one dropped, survivors in their original order |
| Ripples.SweepSplice | js/webgl-zen.js:1191-1220 | one backward loop step, which re-animates the ripple at `i` in place or splices it out, extends the swept suffix by one |
| Ripples.SweepConcat | js/webgl-zen.js:1189-1221 | a pass over a concatenation is the concatenation of the passes, so survivors keep their relative order |
| Ripples.SweepOnlyLive | js/webgl-zen.js:1197-1219 | after a pass every remaining ripple is younger than its duration, and the list did not grow |
| Ripples.SweepMembers | js/webgl-zen.js:1197-1219 | a ripple survives a pass, re-animated, iff it is live; nothing else appears |
| Ripples.SweepRemovesExpired | js/webgl-zen.js:1216-1219 | an expired ripple (age ≥ duration) is absent after a pass |
| Ripples.SweepIdempotent | js/webgl-zen.js:1189-1221 | a second pass at the same time changes nothing |
| Ripples.SweepKeepsNewRipple | js/webgl-zen.js:1177-1183 | a ripple created at the current time survives the next pass unchanged, after the earlier survivors |
| Ripples.RippleLifecycle | js/webgl-zen.js:1179-1198 | a ripple created at `t0` is present after a pass at `t` iff `t < t0 + 3` |
| Ripples.RippleScenario | js/webgl-zen.js:1198-1215 | halfway through its life a ripple has radius 5.1, width 0.3, alpha 0.5 and scale 3.5; at 3.01 s it is gone |
| ZenSpace.Clock.constructor | js/webgl-zen.js:51-56 | the `time` record starts at all zeros, with no deltas so far |
| ZenSpace.Clock.Tick | js/webgl-zen.js:1295-1298 | `delta` is the reading minus the previous reading, and `current`, `previous` and `elapsed` all equal the reading; elapsed stays the sum of all deltas |
| ZenSpace.ZenScene.constructor | js/webgl-zen.js:726-735 | the clock starts at all zeros with no recorded deltas; the elements are those the creation functions build, and the scene's initial snapshots (against which the invariant is stated) are exactly those elements; no frame deltas are recorded; there are no ripples; the scene invariant holds |
| ZenSpace.ZenScene.CreateRipple | js/webgl-zen.js:1175-1183 | exactly one record is appended, with creation time `elapsed`, duration 3 and the initial look; earlier ripples are unchanged |
| ZenSpace.ZenScene.UpdateRipples | js/webgl-zen.js:1189-1221 | the backward loop, refreshing live ripples in place and splicing out expired ones, leaves exactly `Sweep` of the old list; every ripple still lasts 3 s |
| ZenSpace.ZenScene.UpdateZenElements | js/webgl-zen.js:1353-1401 | every element takes exactly its one-frame step; the scene invariant is kept |
| ZenSpace.ZenScene.UpdateMandalas | js/webgl-zen.js:1355-1365 | each mandala takes `MandalaStep`; each has turned by its speed times the sum of frame deltas |
| ZenSpace.ZenScene.UpdateEnergyCenters | js/webgl-zen.js:1368-1387 | each energy center takes `CenterStep` and stays settled around its origin |
| ZenSpace.ZenScene.UpdateSacredGeometry | js/webgl-zen.js:1390-1401 | each group takes `SacredStep`; each has turned by its speed times the sum of frame deltas about z, and half that about y |
| ZenSpace.ZenScene.Animate | js/webgl-zen.js:1290-1309 | a frame ticks the clock, steps every element at the new elapsed time and sweeps the ripples at it |
| ZenSpace.RotationChunking | js/webgl-zen.js:1360 | rotation is additive: how the frames are chunked does not change the accumulated rotation |
| Generation.StarRadius | js/webgl-zen.js:446 | a star's distance from the shell centre lies in [50, 80) |
| Generation.StarSize | js/webgl-zen.js:455 | star size lies in [0.1, 1.0) |
| Generation.StarOpacity | js/webgl-zen.js:465 | star opacity lies in [0.2, 1.0) |
| Generation.CreateStars | js/webgl-zen.js:435-466 | each star's size, colour index and opacity come from its own draws; every colour index is a valid palette index; every size and opacity is in range |
| Generation.StreamColorIndex | js/webgl-zen.js:566-571 | stream `index` gets energy colour `index % 5`, always a valid palette entry, and the first five streams get distinct colours |
| Generation.ControlPoint | js/webgl-zen.js:595-603 | the curve's control point is within 10 (x, y) and 2.5 (z) of the midpoint |
| Generation.BezierCoord | js/webgl-zen.js:618-620 | the quadratic Bézier starts at `p0`, ends at `p2`, and stays within the range of the control values for `t` in [0, 1] |
| Generation.BezierHull | js/webgl-zen.js:618-620 | the Bézier weights give a convex combination of the three control values |
| Generation.Bezier | js/webgl-zen.js:618-620 | B(0) is the start and B(1) is the target |
| Generation.Spread | js/webgl-zen.js:623 | the spread `2 (1 - t^0.5)` lies in (0, 2] |
| Generation.SpreadShrinks | js/webgl-zen.js:623 | the spread shrinks as the progress along the stream grows |
| Generation.ParticleSize | js/webgl-zen.js:629 | particle size `0.1 + 0.9 t²` lies in [0.1, 1.0], from 0.1 at the start to 1.0 at the end |
| Generation.ParticleSizeGrows | js/webgl-zen.js:629 | particles grow as they progress |
| Generation.StreamSpeed | js/webgl-zen.js:648 | the stream speed uniform lies in [0.2, 0.3) |
| Generation.Jitter | js/webgl-zen.js:624-626 | the offset `(random - 0.5) * spread` is at most half the spread either way |
| Generation.StreamParticle | js/webgl-zen.js:617-626 | a particle lies within half the spread of its curve point on each axis |
| Generation.CreateEnergyStream | js/webgl-zen.js:577-648 | three position floats per particle from its curve point and jitter; the size from its progress; progress and random kept as drawn; the speed uniform from its draw |
| EnhancedZen.Center | js/enhanced-zen.js:229-232 | the centre `left + width/2`, `top + height/2` of a bounding rectangle, equidistant from the left and right edges and from the top and bottom edges |
| EnhancedZen.SquaredDistance | js/enhanced-zen.js:235-238 | the squared distance is non-negative |
| EnhancedZen.EnergyConnection | js/enhanced-zen.js:269-287 | a connection is anchored at the first point and carries both ids; its width is non-negative and squares to the squared distance between the endpoints |
| EnhancedZen.MaxDistance | js/enhanced-zen.js:242-245 | the maximum distance is non-negative, and nine times its square is the squared viewport diagonal |
| EnhancedZen.NearIff | js/enhanced-zen.js:235-247 | two centres are connected iff nine times their squared distance is below the squared diagonal |
| EnhancedZen.RowsBeforeClosed | js/enhanced-zen.js:223-224 | the nested `i < j` loops examine `n (n - 1) / 2` pairs in total |
| EnhancedZen.CreateEnergyConnections | js/enhanced-zen.js:206-264 | no connections for fewer than 2 centres; otherwise `from < to < n` for each; a pair is connected iff it is near; connections come in strict loop order (no duplicates); at most `n (n - 1) / 2` of them; each is the line `createEnergyConnection` builds |
| EnhancedZen.TrailStep | js/enhanced-zen.js:162 | the intermediate steps `i / 6` lie strictly between 0 and 1 |
| EnhancedZen.TrailStepIncreasing | js/enhanced-zen.js:161-162 | the steps strictly increase with `i` |
| EnhancedZen.Wave | js/enhanced-zen.js:164-165 | waviness is at most `25 (1 - step)` either way |
| EnhancedZen.FirstFrame | js/enhanced-zen.js:153-158 | the opening keyframe: at 0%, no translation, scale 1, the particle's own opacity |
| EnhancedZen.LastFrame | js/enhanced-zen.js:174-178 | the closing keyframe: at 100%, translated by the full distance, scale 0.2, opacity 0 |
| EnhancedZen.TrailFrame | js/enhanced-zen.js:167-171 | an intermediate keyframe sits at `100 step` percent, within `25 (1 - step)` of the straight line on each axis, with scale in (0.7, 1) |
| EnhancedZen.TrailKeyframes | js/enhanced-zen.js:138-180 | seven keyframes: the opening frame in place at the particle's opacity, the five intermediate frames, and the closing frame at the full offset with scale 0.2 and opacity 0; percentages strictly increase, scale strictly falls, and opacity strictly falls for a visible particle |
| EnhancedZen.FramePairOrdered | js/enhanced-zen.js:161-180 | of any two keyframes of the schedule, the later one has the larger percentage, the smaller scale and, for a visible particle, the lower opacity |
| EnhancedZen.TrailOrdered | js/enhanced-zen.js:153-180 | for any sequence of this shape, percentages strictly increase, scale strictly falls, and opacity strictly falls when positive |
| EnhancedZen.PercentToPixels | js/enhanced-zen.js:78-79 | 0% is 0 px and 100% is the full size; a percentage in [0, 100] maps into [0, size] |
| EnhancedZen.BookCenter | js/enhanced-zen.js:44-48 | the target is equidistant from the left and right edges and from the top and bottom edges of the book's rectangle, or of the viewport when there is no book, and lies inside that rectangle when its sizes are non-negative |
| EnhancedZen.ParticleStreams | js/enhanced-zen.js:52-68 | four emitters; emitter `k` is at its percentage position in pixels, aims at the book centre, has `10 + 2k` particles and id `k + 1` |
| EnhancedZen.ParticleStreamsTotal | js/enhanced-zen.js:60-68 | the streams hold 52 particles whatever the layout |
| EnhancedZen.StartOffset | js/enhanced-zen.js:99-100 | the start offset is at most 25 px either way |
| EnhancedZen.NewParticle | js/enhanced-zen.js:90-126 | a particle carries its emitter id and delay, starts within 25 px of the emitter, and has size in [1, 3), opacity in [0.3, 0.8), a valid colour and a speed in [10, 20) s |
| EnhancedZen.CreateParticleEmitter | js/enhanced-zen.js:76-85 | the emitter creates exactly its particle count of particles; particle `i` has delay `i`; ids are distinct |
| EnhancedZen.ParticleIdsDistinct | js/enhanced-zen.js:95 | particles of different emitters have different ids |
| ZenDebug.SetWireframe | js/zen-debug.js:213-218 | the flag is written iff the material defines it; a material without the field is unchanged |
| ZenDebug.ObjectWireframe | js/zen-debug.js:209-221 | an object's single material, or each element of its material array, gets the write; objects without a material are unchanged |
| ZenDebug.ObjectWireframeFlags | js/zen-debug.js:209-221 | afterwards every material that defines the field holds the new flag |
| ZenDebug.ObjectWireframeLastWins | js/zen-debug.js:205-221 | two wireframe writes in a row act as the last one alone |
| ZenDebug.ObjectWireframeIdempotent | js/zen-debug.js:205-221 | writing the same flag twice is writing it once |
| ZenDebug.ObjectWireframeFixed | js/zen-debug.js:205-221 | writing a flag that every defining material already holds changes nothing |
| ZenDebug.Debugger.constructor | js/zen-debug.js:8-11 | debugging starts inactive, with no stats object and the panel hidden |
| ZenDebug.Debugger.Start | js/zen-debug.js:147-177 | a no-op while active; otherwise debugging starts, the panel shows, and a stats object is created only if none exists; at most one is ever created |
| ZenDebug.Debugger.ToggleWireframe | js/zen-debug.js:205-222 | without a scene nothing changes; with one, every object takes the wireframe write |
| ZenDebug.Debugger.Stop | js/zen-debug.js:180-193 | a no-op while inactive; otherwise debugging stops, the panel hides, wireframes are written false, and the stats object is kept |
| ZenDebug.Debugger.Toggle | js/zen-debug.js:196-202 | flips `active`, so toggling twice restores it; the stats object survives |
| ZenDebug.Debugger.OnKeyDown | js/zen-debug.js:72-76 | Alt+D does all of `Toggle`: debugging flips, the stats object is kept or created, and when stopping with a scene every object's wireframe is written false, otherwise the objects are unchanged; any other key changes nothing |
| ZenDebug.Debugger.BeginFrame | js/zen-debug.js:48-51 | only while debugging is the begin time written to the stats object; otherwise the stats are unchanged |
| ZenDebug.Debugger.EndFrame | js/zen-debug.js:56-58 | only while debugging is the frame time, the end reading minus the begin time, written to the stats object; otherwise the stats are unchanged |
| ZenDebug.Debugger.WrappedAnimate | js/zen-debug.js:47-68 | the scene's frame runs either way and leaves the clock, every element, the frame deltas and the ripples exactly as `ZenScene.Animate` does; the stats object records the begin time and frame time only while debugging; `active` is unchanged |

## Left out

- GLSL shaders: nebula noise, star twinkle, energy-stream flow, mandala and ripple fragment maths, and the energy-center pulse. This is GPU numerics, not CPU logic.
- Three.js construction and rendering: renderer, composer and bloom, camera, resizing, `scene.add`/`scene.remove`, and `updateMaterials` (it copies `elapsed` into shader uniforms). Ripple meshes are represented by their uniforms and scale only.
- The raycast and plane intersection in `createRipple`: the click point is an input. The gsap camera tween in `onMouseMove` is also out.
- `getRandomMandalaTexture` (canvas drawing), `showZenQuote` and `updateEffects`: DOM and random timers.
- Generation.CreateStars: does not fill the x, y, z position buffer. That buffer is built from sine, cosine and arccosine of the angle draws, so only the radius formula (`StarRadius`) is modelled. The model stores the palette index, not the colour's r, g, b components: Three.js colour management decides those.
- The circle layout of the Flower of Life and Metatron's Cube groups. Only the groups' transforms and animation parameters are modelled.
- Float32 storage of the buffers: values are exact reals.
- `createEnergyStreams` itself (js/webgl-zen.js:553-573): its four fixed start points and the target at the origin are not modelled as constants. `CreateEnergyStream` takes the start, the target and one draw per particle as inputs, and `StreamColorIndex` models the colour choice. Likewise the configured counts (2000 stars, 500 particles per stream) are the lengths of the draw sequences, not constants of the model.
- `animateParticle`'s restart chain (`setTimeout`), the random animation name, and CSS string assembly. The keyframes are values, not text; `TrailKeyframes` takes the particle's rectangle corner and the target as inputs.
- `createEnergyConnection`'s rotation angle (`atan2`) and `animateConnection`. The cosmic breathing and flare effects are out as well: they are timers and CSS.
- ZenDebug.Debugger.EndFrame: records only the frame time `end - start`; it does not compute `fps = 1000 / frameTime` or write it to the panel.
- ZenDebug.Debugger.WrappedAnimate: does not compute `fps = 1000 / frameTime` or write it to the panel. It records the frame time `end - start`, with the two `performance.now()` readings as inputs.
- The debug panel DOM, `switchToFallback`, `showWebGLInfo` and the wrapping of `ZenSpace.init` (which only calls `start` before the original `init`) are out. The close button calls `Stop` and the wireframe checkbox calls `ToggleWireframe`; they are not modelled separately.
- Materials that several Three.js objects share are modelled as a separate copy in each `SceneObject`, so aliasing between objects is not captured. The traversal writes the same `wireframe` flag into every material it reaches, and `ObjectWireframeIdempotent` shows that a second write of that flag changes nothing, so a shared material ends with the same flag as its copies do.
- Scene traversal is modelled as a walk over an array of the scene's objects in traversal order. The tree shape of the scene graph is not modelled.
- js/zen-audio.js, js/script.js and js/zen-elements.js are not part of this model. They contain Web-Audio synthesis, timers and DOM glue.
