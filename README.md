# Scroll-driven particle animation, modelled in Dafny

This project models the simulation core of three scroll-driven, cursor-aware
particle animations drawn on an HTML canvas:

- `custom-particles.js`: a `ParticleSystem` class. It scans an image's pixel
  buffer on a stride-5 grid and spawns one particle per opaque sample; it
  does this twice and never clears the list. Every frame it places each
  particle on the line from its base to its target by the clamped scroll
  progress, plus a wobble and a push toward the cursor.
- `tst_forFramer.tsx`: a React/Framer variant built around a closure-based
  `ParticleSystem(canvas)`. It has 500 random particles, a velocity that is
  damped every frame although the position is then overwritten by the plain
  interpolation, and a particle pool. It also has a smoothed scroll
  progress, a frame throttle, and a start/stop lifecycle over a host frame
  handle.
- `script.js`: glue around a particle-slider library. It stores every
  particle's position, scatters the particles, and on scroll pulls each one
  back toward its stored position.

Each source file is one module, and its objects are classes whose methods
update their fields in place:

- `CustomParticles` models `custom-particles.js`.
- `FramerParticles` models `tst_forFramer.tsx`.
- `SliderScript` models `script.js`.

Every method is proved against specification functions, and those
functions live in shared modules:

- `ParticleMath` holds the interpolation, the cursor force field and the
  maps from a random draw to an attribute.
- `ScrollTracker` holds the clamped scroll progress and the exponential
  smoothing.
- `FrameLoop` holds the frame throttle and the start/stop state machine,
  over abstract frame handles.
- `ImageScan` holds the grid scan as a sequence of hit cells.
- `Lists` holds distinctness and prefix facts about lists.

Coordinates are exact reals. Random draws, square roots, sines and cosines
are inputs. A frame handle is a natural number: `Loop.held` is the handle
the system keeps in `animationFrameId`, and `Loop.pending` is the set of
requests the host will still fire.

Where the code and its comments or design notes disagree, the model follows
the code:

- `tst_forFramer.tsx:31-32`: the comments promise saturation 70-100% and
  lightness 50-70%. The code gives [70, 140) and [50, 120).
- `tst_forFramer.tsx:15`: the comment promises a size between 2 and 5. The
  code gives [0.5, 2).
- Particle `reset` (`tst_forFramer.tsx:98-105`) keeps the base position.
- A cursor exactly on a particle makes the code divide by zero; it is not
  guarded.
- In `tst_forFramer.tsx` the resize rebuild is unreachable.

## Model

| member | source | states |
|---|---|---|
| ParticleMath.Lerp | tst_forFramer.tsx:74-75 | `a + (b - a) * t` gives a at t = 0 and b at t = 1; for t in [0, 1] it lies between a and b; the remaining gap to b is (1 - t) times the initial one |
| ParticleMath.CursorForce | custom-particles.js:22-24 | the force `max(0, (100 - d) / 100)` is non-negative, at most 1 for d ≥ 0, and zero exactly when d ≥ 100 |
| ParticleMath.CursorForceMonotone | custom-particles.js:22-24 | the force never increases with distance |
| ParticleMath.CursorOffsetBound | custom-particles.js:17-27 | the cursor push on a coordinate is at most density·scale in size, is zero beyond radius 100, and points toward the cursor inside it |
| ParticleMath.RandomCoord | custom-particles.js:107-108 | `Math.random() * extent` lies in [0, extent) |
| ParticleMath.Density | custom-particles.js:10 | a draw in [0, 1) gives a density in [1, 31) |
| ParticleMath.Angle | custom-particles.js:11 | a draw in [0, 1) gives an angle in [0, 360) |
| ParticleMath.Speed | custom-particles.js:12 | a draw in [0, 1) gives a speed in [0.02, 0.06) |
| ScrollTracker.Clamp01 | custom-particles.js:148 | `max(0, min(1, v))` lies in [0, 1], is v inside it and the nearer end outside |
| ScrollTracker.ScrollProgress | tst_forFramer.tsx:125-134 | the listener's target progress lies in [0, 1], equals scrollY / (scrollHeight - innerHeight) on a scrollable page, and is 0 at the top and 1 at or beyond the bottom |
| ScrollTracker.SmoothStep | tst_forFramer.tsx:136-139 | one smoothing step shrinks the gap to the target to 0.9 of itself, keeps a value equal to the target fixed, stays in [0, 1] and stays between the current value and the target |
| ScrollTracker.SmoothNGap | tst_forFramer.tsx:136-139 | after n steps toward a fixed target the gap is 0.9^n of the initial gap |
| ScrollTracker.SmoothNBetween | tst_forFramer.tsx:136-139 | any number of steps stays between the start and the target |
| FrameLoop.Throttle | tst_forFramer.tsx:220-238 | a frame does work iff lastTime is non-zero and more than 1000/60 ms have passed; a working frame records the timestamp; an idle frame keeps lastTime, except that the first frame (lastTime 0) records the timestamp and does no work |
| FrameLoop.StartStep | tst_forFramer.tsx:243-247 | start requests and holds a frame only when no handle is held; otherwise nothing changes |
| FrameLoop.StopStep | tst_forFramer.tsx:249-254 | stop cancels the held request, if any, and holds nothing afterwards |
| FrameLoop.FireStep | tst_forFramer.tsx:240 | a fired frame is replaced by the one `animate` requests and holds, so the number of pending requests is unchanged |
| FrameLoop.UntrackedRequest | tst_forFramer.tsx:165 | the request `setup` makes adds a pending frame without changing the held handle |
| FrameLoop.StopIdempotent | tst_forFramer.tsx:249-254 | a second stop changes nothing |
| FrameLoop.StartThenStop | tst_forFramer.tsx:243-254 | starting a stopped loop and stopping it again restores the loop exactly |
| FrameLoop.StopKeepsOthers | tst_forFramer.tsx:249-254 | stop cancels only the held request; every other pending request survives |
| FrameLoop.FiringKeepsChains | tst_forFramer.tsx:240 | any sequence of firings leaves the number of pending requests unchanged |
| FrameLoop.StopAfterLaunchLeavesUntracked | tst_forFramer.tsx:256-257 | after `setup(); start();` two requests are pending, and `stop()` leaves the untracked one from `setup` pending |
| ImageScan.AlphaIndexInBounds | custom-particles.js:99-105 | every alpha index (y·width + x)·4 + 3 read by the scan is inside a width·height·4 buffer |
| ImageScan.GridHitsMembers | custom-particles.js:102-115 | a cell is a hit of one pass iff x and y are multiples of 5 inside the canvas and its alpha byte exceeds 128 |
| ImageScan.GridHitsRowMajor | custom-particles.js:102-103 | the hits come in strict row-major order: y outer, x inner |
| ImageScan.TransparentHasNoHits | custom-particles.js:102-115 | a buffer whose alpha bytes are all at most 128 yields no hit |
| ImageScan.GridHitsLength | custom-particles.js:102-115 | one pass yields at most ceil(width/5)·ceil(height/5) hits |
| CustomParticles.PositionEndpoints | custom-particles.js:35-36 | with no wobble and the cursor out of range, a particle is at its base at progress 0 and at its target at progress 1 |
| CustomParticles.PositionNearPath | custom-particles.js:17-36 | a particle is never farther from its interpolated point than 2 plus density·0.6 |
| CustomParticles.Particle.constructor | custom-particles.js:2-13 | a new particle has position and base (x, y), the given target, size 5, and density, angle and speed from its three draws |
| CustomParticles.Particle.Update | custom-particles.js:15-37 | angle grows by exactly speed; x and y become base + 2·wobble + cursor push + (target - base)·progress, with the push computed from the old position; base, target, density, speed and size are unchanged |
| CustomParticles.ParticleSystem.constructor | custom-particles.js:55-74 | the system starts with no particles, not set up, with the cursor at (0, 0) |
| CustomParticles.ParticleSystem.MouseMove | custom-particles.js:75-78 | the listener records the cursor position |
| CustomParticles.ParticleSystem.Spawn | custom-particles.js:105-112 | an opaque cell appends exactly one new particle, spawned from the next draw and targeting the cell, and keeps the earlier particles as a prefix |
| CustomParticles.ParticleSystem.ScanRow | custom-particles.js:103-114 | one row of the inner loop appends, in order, one particle per hit of that row and nothing else |
| CustomParticles.ParticleSystem.ScanPass | custom-particles.js:102-115 | one pass of the double loop appends exactly one particle per grid hit, in scan order, keeping the earlier list as a prefix |
| CustomParticles.ParticleSystem.SetupParticles | custom-particles.js:102-135 | the list is never cleared and grows by exactly twice the hit count; both halves target the hits in the same order, each particle drawn from its own draws; the system is then set up |
| CustomParticles.ParticleSystem.Update | custom-particles.js:138-145 | before setup no particle changes; after setup every particle takes exactly one update step with the current cursor |
| CustomParticles.ParticleSystem.Animate | custom-particles.js:147-149 | every particle steps with the clamped scroll progress of the page, or none changes before setup |
| FramerParticles.Size | tst_forFramer.tsx:15 | a draw in [0, 1) gives a size in [0.5, 2) |
| FramerParticles.Color | tst_forFramer.tsx:28-34 | hue, saturation and lightness lie in [150, 190), [70, 140) and [50, 120) |
| FramerParticles.VelocityStep | tst_forFramer.tsx:43-46 | the new velocity is 0.95·v + 0.0475·(goal - pos), computed from the position before the step; on the goal it is only damped; from rest it points toward the goal |
| FramerParticles.SettledVelocity | tst_forFramer.tsx:43-46 | resting on the interpolated point, as each update leaves a particle, n further updates scale the velocity by 0.95^n |
| FramerParticles.Particle.constructor | tst_forFramer.tsx:5-24 | a new particle has zero velocity, position and base (x, y), the given target, opacity 1, and size, density, angle, speed and colour from its seven draws |
| FramerParticles.Particle.Update | tst_forFramer.tsx:38-76 | the velocity takes one damped step from the old position; the position ends on base + (target - base)·progress, whatever the cursor, the velocity or the random branch; no other field changes |
| FramerParticles.Particle.Reset | tst_forFramer.tsx:98-105 | only position and target change; velocity, base, size, density, angle, speed, colour and opacity keep their values |
| FramerParticles.MadeInCanvas | tst_forFramer.tsx:189-194 | with draws in [0, 1), every start and target lies in [0, width) × [0, height) |
| FramerParticles.ParticleSystem.constructor | tst_forFramer.tsx:109-257 | the closure starts empty, then `setup(); start();` leave 500 particles, an empty pool, the system set up, zero progress and lastTime, and two pending frames, the started one held |
| FramerParticles.ParticleSystem.MouseMove | tst_forFramer.tsx:167-170 | the listener records the cursor position |
| FramerParticles.ParticleSystem.OnScroll | tst_forFramer.tsx:125-134 | the target progress becomes the clamped scroll ratio, in [0, 1] |
| FramerParticles.ParticleSystem.SmoothScroll | tst_forFramer.tsx:136-139 | the current progress takes one smoothing step toward the target and stays in [0, 1] |
| FramerParticles.ParticleSystem.GetParticle | tst_forFramer.tsx:173-185 | with a non-empty pool the last pooled particle is removed and returned after a reset; with an empty pool the pool stays empty and a fresh particle is returned |
| FramerParticles.ParticleSystem.SetupParticles | tst_forFramer.tsx:187-198 | exactly 500 particles are appended without clearing the list, each built from its own draws with start and target scaled to the canvas |
| FramerParticles.ParticleSystem.Update | tst_forFramer.tsx:200-218 | before setup no particle changes; after setup each takes exactly one update step at the given progress |
| FramerParticles.ParticleSystem.Animate | tst_forFramer.tsx:220-241 | smoothing and update run only when the throttle lets the frame through, otherwise the progress and the particles are unchanged; lastTime follows the throttle; the next frame is always requested and held |
| FramerParticles.ParticleSystem.Start | tst_forFramer.tsx:243-247 | the frame loop takes a start step |
| FramerParticles.ParticleSystem.Stop | tst_forFramer.tsx:249-254 | the frame loop takes a stop step |
| FramerParticles.ParticleSystem.Setup | tst_forFramer.tsx:142-171 | 500 particles are appended, the system is set up, and a frame is requested without keeping its handle |
| SliderScript.PointsOf | script.js:24 | the snapshot has one entry per particle, and entry i is particle i's (x, y) |
| SliderScript.Pulled | script.js:64-71 | entry i is position i pulled toward stored position i by the progress |
| SliderScript.PulledAtZero | script.js:67-68 | progress 0 leaves every position unchanged |
| SliderScript.PulledAtOne | script.js:67-68 | progress 1 puts every particle exactly on its stored position |
| SliderScript.PulledBetween | script.js:65-69 | for progress in [0, 1] each new coordinate lies between the old one and the stored one |
| SliderScript.Slider.Snapshot | script.js:24 | the stored positions are the current positions of the particles |
| SliderScript.Slider.DisperseParticles | script.js:56-60 | each particle moves to its own random point, inside [0, cw) × [0, ch) for draws in [0, 1); the particle list and the stored positions are unchanged |
| SliderScript.Slider.UpdateParticlesPosition | script.js:64-71 | each particle with a stored position is pulled toward it in place, and each depends only on its own stored position; the call completes iff every particle has one, and then the positions are Pulled of the old ones; the particle list and the stored positions are unchanged |
| SliderScript.Slider.StoreAndDisperse | script.js:24-27 | the stored positions are the positions before dispersal, one per particle, and the particles are then scattered |

## Left out

- Drawing: the `draw` methods, `clearRect`, `drawImage`, `fillRect`, shadows and `save`/`restore`. They are rendering side effects.
- Pixel buffer: the source reads it with `getImageData`; the model takes it as a given byte sequence of length width·height·4, with the canvas and the offscreen canvas the same size.
- Image loading and its callbacks (`new Image`, `onload`, `onerror`, the base64 literal). They are asynchronous resource I/O.
- In `custom-particles.js`, the aspect-ratio scaling of the image into the offscreen canvas. It is drawing.
- DOM wiring: the mousemove and scroll listeners and the window and document measurements. Cursor, scroll offset, canvas sizes and timestamps are method inputs.
- `requestAnimationFrame` and `cancelAnimationFrame`. These are host scheduling: in `tst_forFramer.tsx` a request is an abstract handle. The requests `custom-particles.js` makes (lines 118 and 150) are left out.
- `Math.random`, `Math.sin`, `Math.cos` and `Math.sqrt`. They become inputs: draws, wobble values and distances.
- FramerParticles.Particle.Update: the distance in its sample is not tied to the cursor position. Every value of the random branch is overwritten at lines 74-75, so nothing observable depends on it.
- CustomParticles.Particle.Update: requires the cursor distance to be positive and to be the true distance. At distance 0 the source divides by zero and produces NaN, which IEEE semantics carry on; that is not modelled.
- ScrollTracker.ScrollProgress: requires a page that can scroll (scrollHeight ≠ innerHeight). When it cannot, the source divides by zero; that is not modelled. The same precondition applies to `CustomParticles.ParticleSystem.Animate` and `FramerParticles.ParticleSystem.OnScroll`.
- FrameLoop.Throttle: only `lastTime == 0` is treated as unset. JavaScript's `!lastTime` is also true for NaN, which never arises from numeric timestamps.
- FrameLoop.StartStep: treats holding a handle as "started". The source tests `!animationFrameId`, and host frame handles are never 0.
- SliderScript.Slider.UpdateParticlesPosition: a particle without a stored position makes `originalPos.x` throw a TypeError, ending the loop. The model returns `ok == false` at that point instead of raising.
- SliderScript.PulledAtOne: requires exactly one stored position per particle, as the snapshot at `script.js:24` provides.
- Unclamped progress: `script.js:31` does not clamp the progress. Pulled is defined for every progress, but the betweenness property is stated for [0, 1] only.
- Floating point: rounding is not modelled. Dafny's reals are exact.
- The resize handler at `tst_forFramer.tsx:262-272`. It follows a `return` and never runs.
- The unused `scrollProgress` at `tst_forFramer.tsx:226`.
- The `hsl(...)` string of `generateColor`. Its three numbers are modelled; the string formatting is rendering only.
- The React/Framer component and property controls at `tst_forFramer.tsx:277-313`. They are UI framework glue.
- The particle-slider bootstrap, dat.GUI controls, click re-initialisation and script injection in `script.js`, plus the `drawParticles` calls. These are wrappers over a library that is not part of this model.
- `getParticle` is never called in `tst_forFramer.tsx`, and nothing fills the pool. The model includes it, but no other operation uses it.
- Console logging.
