# Animated background: adaptive quality and input fusion

A Dafny model of the control logic of `js/bg.js`, a full-page WebGL background
effect. The script keeps a little state in module-level variables and changes it
step by step:

- the **adaptive quality controller** at the top of `render`. It keeps an integer
  counter `dropped`, a render scale `perfscale` and the previous timestamp `then`
  (here `lastNow`). Each frame it counts slow frames (under 30 fps) up and fast
  frames (over 50 fps) down. When the counter leaves [-10, 10] it makes the scale
  coarser by 0.25 or finer by a quarter, never finer than 0.5, and restarts the
  counter;
- the **input fusion**. Pointer moves overwrite the `mouse` vector.
  Device-orientation samples go through a noise gate and a dead zone, then move
  the orientation baseline `motion` and nudge `mouse`;
- the **resize path** of `render`. It resizes the drawing buffer to client size ×
  density, where density is the pixel ratio over the scale, and only then uploads
  the edge uniforms `max(1, perfscale)`, `100 / min(w, h)` and `min(w, h) / 700`.

Files:

- `timing.dfy` (module `Timing`): the controller as a pure function `Frame` over
  `Perf`, runs of frames, and the invariant, cooldown and burst lemmas.
- `input.dfy` (module `Input`): `PointerMove` and `Orientation` over the value
  `Pointer(mouse, motion)`, with their properties.
- `uniforms.dfy` (module `Uniforms`): the resize guard, the density, the edge
  uniforms and the orthographic bounds.
- `background.dfy` (module `Bg`): class `Background`. Its fields are the
  script's variables: `mouse` and `motion` are two-element arrays updated in
  place. Its methods `Step`, `OnMouseMove`, `OnOrientation` and `Render` are
  proved equal to the pure definitions.
- `wrappers.dfy`: `Option`, for the timestamp that is undefined before the first
  frame.

All numbers are mathematical reals. `dropped` and the client sizes are integers.

## Model

| member | source | states |
|---|---|---|
| Timing.Tick | js/bg.js:234-237 | the counter goes up by 1 exactly when the frame took longer than 1000/30 ms, down by 1 exactly when it took less than 1000/50 ms, and is unchanged exactly in the band between |
| Timing.Frame | js/bg.js:231-245 | after any frame the previous timestamp is `now` and the counter is within [-10, 10]; a scale of at least 0.5 stays at least 0.5; a frame that adjusts resets the counter; a frame that does not adjust leaves the scale unchanged |
| Timing.Adjustment | js/bg.js:238-244 | past +10 the scale grows by exactly 0.25 and the counter becomes 0; below -10 the scale becomes max(0.5, 0.75 × scale) and the counter becomes 0; otherwise the scale is unchanged and the counter keeps its ticked value |
| Timing.FirstFrameIsFast | js/bg.js:228-233 | while the timestamp is unset (undefined or 0) the frame counts as fast, and the very first frame takes the initial state to counter 0, scale 1, timestamp `now` |
| Timing.FramePreservesInv | js/bg.js:238-245 | one frame keeps -10 ≤ dropped ≤ 10 and perfscale ≥ 0.5 |
| Timing.RunPreservesInv | js/bg.js:231-245 | any sequence of frames from a state inside the invariant stays inside it |
| Timing.ReachableInv | js/bg.js:228-245 | every state reachable from `dropped = 1`, `perfscale = 1` satisfies the invariant |
| Timing.QuietRun | js/bg.js:234-244 | while the counter's magnitude plus the number of frames is at most 10, no frame adjusts, the scale is unchanged, and the counter ends within the number of frames of where it started, in either direction |
| Timing.Cooldown | js/bg.js:238-244 | after a frame that adjusts the scale, none of the next 10 frames can adjust it, whatever their timing |
| Timing.SlowBurst | js/bg.js:234-240 | from any counter in [-10, 10] and a set positive timestamp, slow frames raise the counter one by one; the frame that takes it past 10 adds exactly 0.25 to the scale, resets the counter and leaves its own timestamp; from 0 this takes exactly 11 frames, so the cooldown is tight |
| Timing.Climb | js/bg.js:234-240 | from any state inside the invariant with a set positive timestamp, for every n some sequence of frames raises the scale by exactly 0.25 n |
| Timing.GrowthUnbounded | js/bg.js:228-240 | the growth branch has no upper bound: for every n some run from the initial state reaches scale 1 + 0.25 n |
| Timing.NeutralFrame | js/bg.js:234-245 | a frame within the 30-50 fps band changes neither counter nor scale, only the timestamp |
| Input.PointerMove | js/bg.js:16-19 | the pointer vector is (pageX / H, 1 - pageY / H), unclamped: multiplying back by H recovers pageX and pageY |
| Input.Orientation | js/bg.js:22-34 | with y = -beta, a sample whose two deltas are both under 0.2 leaves mouse and baseline unchanged; otherwise the baseline becomes (gamma, -beta); the baseline moves exactly when the sample is not noise |
| Input.DeadZoneShift | js/bg.js:28-33 | a zero delta moves its axis by nothing; otherwise the axis moves by 5% of the absolute value of (abs(delta) - 0.15); the move follows the delta's sign when abs(delta) > 0.15, and goes against it when 0 < abs(delta) < 0.15, because the dead zone is subtracted, not clamped |
| Input.OrientationShift | js/bg.js:28-33 | an accepted sample moves each axis of mouse by exactly (delta - sign(delta) × 0.15) × 0.05, and leaves an axis with zero delta unchanged |
| Input.OrientationRepeat | js/bg.js:25-31 | delivering the same reading twice has the effect of delivering it once |
| Input.OrientationExample | js/bg.js:22-33 | a tilt of (0.5, 0.5) from a zero baseline moves mouse by (0.0175, 0.0175) and becomes the new baseline |
| Uniforms.EdgeScale | js/bg.js:289-292 | the edge scale is at least 1 and at least perfscale, and equals one of them |
| Uniforms.EdgeWidth | js/bg.js:293-296 | the edge width is Infinity exactly when the shorter client side is 0, otherwise positive with width × shorter side = 100 |
| Uniforms.EdgeCount | js/bg.js:297-300 | the edge count is non-negative and 700 times it is the shorter client side |
| Uniforms.EdgeProduct | js/bg.js:293-300 | at every non-empty size, edge width × edge count is 1/7 |
| Uniforms.Density | js/bg.js:255-262 | density × perfscale is the host pixel ratio |
| Uniforms.DensityFalls | js/bg.js:255-262 | a larger perfscale gives a strictly smaller density |
| Uniforms.ScaleChangeResizes | js/bg.js:255-267 | any change of perfscale makes the next frame's guard fire on a surface with at least one non-zero side |
| Uniforms.Aspect | js/bg.js:251 | the aspect is absent (Infinity or NaN in the source) exactly when the client height is 0; otherwise it is non-negative and aspect × height = width |
| Uniforms.NeedsResize | js/bg.js:265 | at a non-zero density, the guard lets a buffer through exactly when dividing its size by the density gives back the client size |
| Uniforms.ResizeValues | js/bg.js:270-300 | the values recomputed on resize: bounds exactly when the client height is non-zero, with the client's aspect ratio; an edge scale of at least 1 and at least perfscale; an edge width that is finite exactly on a non-empty surface, where edge width × edge count = 1/7 |
| Uniforms.OrthoBounds | js/bg.js:271-274 | the orthographic bounds are centred, have the client aspect ratio, and their longer side is exactly 1 |
| Bg.Background.constructor | js/bg.js:228-230 | the state starts as dropped 1, perfscale 1 and no timestamp, with mouse (0.5, 0.5) and motion (0, 0) as set on lines 15 and 21; this state satisfies the invariant |
| Bg.Background.OnMouseMove | js/bg.js:16-19 | the handler writes `PointerMove` into `mouse` in place and leaves `motion` alone |
| Bg.Background.OnOrientation | js/bg.js:22-34 | the handler updates `mouse` and `motion` in place to exactly `Orientation` of the old state |
| Bg.Background.RenderSameSize | js/bg.js:265-300 | two frames at the same client size and pixel ratio, the second of which does not adjust the scale: the state is that of the two timing steps; the first frame uploads the resize uniforms exactly when the guard fires against the buffer it started with and the density after its timing step; the second frame uploads none. So after a size change they are sent exactly once, not on every frame |
| Bg.Background.Step | js/bg.js:231-245 | the timing step updates the three variables to exactly `Frame` of the old state and keeps the invariant |
| Bg.Background.Render | js/bg.js:251-310 | after the timing step, the buffer is resized to client size × new density, and the orthographic bounds and edge uniforms are recomputed and uploaded, exactly when the guard fires; otherwise the buffer is unchanged and nothing is uploaded; `uMouse` is the current mouse vector every frame |

## Left out

- WebGL: context acquisition, shader compilation and linking, buffers, uniform
  locations, `clear`, `viewport` and `drawArrays` are host API calls with no
  logic of their own here.
- The GLSL shader sources: floating-point noise run on the GPU.
- Context loss and restore, and `requestAnimationFrame` scheduling: event and
  scheduler plumbing.
- The projection and model-view matrices come from the external `mat4` library,
  which is not part of this model. Only the bounds passed to `mat4.ortho` are
  modelled, as `Uniforms.OrthoBounds`, recomputed on the resize path only.
- The `time` uniform comes from `Date.now()`, a wall clock, so it is not
  modelled. `Render` returns `uMouse` but not `uTime`.
- The host pixel ratio (`devicePixelRatio` and the vendor backing-store ratios)
  is a parameter of `Render`.
- The browser truncates a non-integer value assigned to `canvas.width` and
  `canvas.height`. The model stores the buffer size as an exact real. With
  truncation, the guard can fire on every frame when client size × density is
  not an integer.
- IEEE arithmetic is not modelled: rounding, NaN, and the falsy NaN timestamp.
  The model does keep `!then` being true for a timestamp of 0.
- Bg.Background.OnMouseMove: requires a non-zero client height, because
  dividing by 0 gives JavaScript Infinity or NaN, which is not modelled.
- Input.PointerMove: requires a non-zero client height, for the same reason.
- Uniforms.OrthoBounds: requires a non-negative aspect, because a zero client
  height makes the source's aspect Infinity or NaN, which is not modelled. When
  the client width is non-zero the aspect is Infinity, and line 274 passes the
  finite, degenerate bounds (-0.5, 0.5, -0, 0) to `mat4.ortho`. When both sides
  are 0 the aspect is NaN and so are the bounds. In both cases `Render` records
  no bounds.
