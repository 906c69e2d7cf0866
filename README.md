# Scroll-driven camera of the Fresh Produce Media 2.5D scene

The page shows a photograph of a television set as a backdrop plane with an
animated static overlay placed on the television's screen. Scrolling (mouse
wheel or touch drag) dollies the camera from z = 800 toward z = 200. The
backdrop and the overlay grow, and the overlay moves toward the camera for a
parallax effect. This project models the arithmetic and the state behind
that, from `script.js`:

- **Scroll input** (`scroll.dfy`, module `Scroll`). `handleScroll` adds
  `deltaY * 0.0008` to the target progress and clamps it to [0, 1]. The wheel
  handler passes `deltaY` through unchanged. The touch handler scrolls by
  twice the finger's movement since the previous touch event. Folds over
  sequences of deltas state what a run of events does: the target stays in
  range, it is additive while unclamped, it saturates exactly, and a touch
  drag telescopes to its end-to-end distance.
- **Smoothing** (`smoothing.dfy`, module `Smoothing`). Each frame moves the
  current progress 5% of the way to the target. The model proves that a step
  never overshoots, that the target is the only fixed point, that the gap
  after n frames is exactly 0.95^n of the first one and at most 19/(19+n) of
  it (so the value converges), and that a target which moves in one
  direction only, forward or backward, is never overtaken, frame by frame.
- **Transforms** (`transforms.dfy`, module `Transforms`). Camera Z, backdrop
  scale, overlay Z and overlay scale are pure functions of the progress. The
  overlay rectangle is fixed fractions of the backdrop plane. The load path
  and the resize path compute the same layout.
- **Scene state** (`scene.dfy`, module `Scene`). The class `CinematicScene`
  holds the module-level state that the handlers and `animate` overwrite:
  `target` (targetScrollProgress), `current` (scrollProgress), `touchStartY`,
  the camera's Z and the two meshes. The meshes are `None` until the texture
  has loaded, as the `if (bgLayer)` / `if (screenMesh)` checks in the source
  expect. Every method keeps `Valid()`: both progress values stay in [0, 1],
  every transform stays in its range, the two meshes exist together, and the
  overlay is always `ScreenRect` of the backdrop's plane. Every event handler
  and every frame also keeps `CameraSynced()` (the camera's Z is `CameraZ`
  of the current progress); only `Tick` on its own, which `Animate` follows
  at once with the camera update, leaves it stale. Each `modifies` clause names only
  the fields that the source handler writes. So `Tick` cannot change the
  target, and scroll input cannot change the current progress.

The dolly in `script.js` is linear in the progress, with no easing curve,
and the smoothing runs once per frame whatever the frame interval is. The
model follows this code.

The backdrop's plane height `2 * tan(fov / 2) * 800` is taken as an input
(`planeHeight`). The load callback receives the plane height and viewport
of the moment loading began (`LayersLoaded`), as the source's closure
captures `planeWidth` and `planeHeight` at that moment. If the window is resized while the texture is
still loading, the meshes get the old size until the next resize.

## Model

| member | source | states |
|---|---|---|
| `Scroll.Clamp01` | script.js:228 | the result is in [0, 1]; it equals the input on [0, 1], 0 below and 1 above |
| `Scroll.NextTarget` | script.js:226-229 | after handleScroll the target is in [0, 1] for any delta; it is exactly `target + deltaY * 0.0008` when that is in range, otherwise the bound that was crossed; a zero delta leaves an in-range target unchanged; a non-negative delta never lowers it and a non-positive one never raises it |
| `Scroll.TouchDelta` | script.js:67-69 | the delta passed to handleScroll is positive exactly when the finger moved up, negative exactly when it moved down, and zero exactly when it did not move |
| `Scroll.TouchDeltas` | script.js:62-70 | a drag yields one delta per touchmove; the first is measured from the touchstart position and each later one from the previous touchmove's position |
| `Scroll.TargetAfter` | script.js:226-229 | after any non-empty run of scroll calls, the target is in [0, 1], whatever the start; an in-range target never drops under only non-negative deltas and never rises under only non-positive ones |
| `Scroll.UnclampedScrollAdds` | script.js:227 | while no call reaches a bound, the target moves by exactly the sum of the deltas times 0.0008 |
| `Scroll.ForwardScrollSaturates` | script.js:227-228 | under only non-negative deltas, the target ends at exactly min(1, start + sum * 0.0008) |
| `Scroll.BackwardScrollSaturates` | script.js:227-228 | under only non-positive deltas, the target ends at exactly max(0, start + sum * 0.0008) |
| `Scroll.TouchDeltasTelescope` | script.js:66-69 | the deltas of one drag add up to 2 * (start position - last position), however the finger moved in between |
| `Scroll.TouchDragMovesTarget` | script.js:62-70 | a drag that reaches no bound moves the target by (start - end) * 2 * 0.0008 |
| `Smoothing.Ease` | script.js:242 | one step lands between the old value and the target (no overshoot); the gap to the target shrinks by exactly 0.95; the value is unchanged exactly when it already equals the target; [0, 1] is preserved |
| `Smoothing.CurrentAfter` | script.js:241-242 | after n frames with a fixed target, the gap is the first gap times 0.95^n, and the value stays between its start and the target |
| `Smoothing.EasingConverges` | script.js:242 | after n frames the gap is at most 19/(19+n) of the first gap, so the current progress converges on the target |
| `Smoothing.FollowNeverOvershoots` | script.js:242 | when the target only moves forward between frames and the current value starts at or below it, the value ends at or above its start and at or below the latest target |
| `Smoothing.FollowNeverUndershoots` | script.js:242 | when the target only moves backward between frames and the current value starts at or above it, the value ends at or below its start and at or above the latest target |
| `Smoothing.FollowRisesEachFrame` | script.js:242 | under a forward-moving target, every frame raises the current value or keeps it, and never past that frame's target |
| `Smoothing.FollowFallsEachFrame` | script.js:242 | under a backward-moving target, every frame lowers the current value or keeps it, and never below that frame's target |
| `Transforms.CameraZ` | script.js:245 | camera Z is 800 - 600p (a linear dolly between cameraStart.z and cameraEnd.z): 800 at p = 0, 200 at p = 1, within [200, 800] for p in [0, 1] |
| `Transforms.BackgroundScale` | script.js:251 | the backdrop scale is 1 at p = 0 and within [1, 1.3] for p in [0, 1] |
| `Transforms.ScreenZ` | script.js:257 | the overlay's Z is 1 at p = 0, within [1, 51] for p in [0, 1], and always in front of the backdrop at z = 0 |
| `Transforms.ScreenScale` | script.js:261 | the overlay scale is 1 at p = 0, within [1, 1.5] for p in [0, 1], and never smaller than the backdrop's scale |
| `Transforms.TransformsMonotone` | script.js:244-262 | as p grows, camera Z strictly decreases and the backdrop scale, overlay Z and overlay scale strictly increase |
| `Transforms.DollyStaysInFrustum` | script.js:244-258 | for p in [0, 1] the overlay stays at least the near distance (1) in front of the camera, and the backdrop stays within the far distance (2000) |
| `Transforms.ScreenRect` | script.js:145-148 | for a plane of positive size, the overlay rectangle (0.175w by 0.20h at (-0.022w, 0.175h)) lies inside the plane, left of centre and in the upper half |
| `Transforms.ScreenRectScales` | script.js:145-148 | scaling the plane by k scales the overlay's size and position by k |
| `Transforms.LoadLayout` | script.js:115-116 | at load, the plane width is the plane height times the viewport aspect, and the overlay is ScreenRect of that plane |
| `Transforms.ResizeLayout` | script.js:284-296 | on resize, the plane width is the plane height times camera.aspect, and the overlay recomputed inline equals ScreenRect of the new plane |
| `Transforms.ResizeMatchesLoad` | script.js:283-296 | for the same plane height and viewport, the resize path and the load path produce identical layouts |
| `Scene.CinematicScene.constructor` | script.js:10-11 | the initial state: target and current progress 0, camera at z = 800 (so the camera matches the progress), touchStartY 0, no layers loaded |
| `Scene.CinematicScene.LayersLoaded` | script.js:113-134 | the texture callback creates the backdrop mesh for LoadLayout's plane (height times the viewport aspect) at the origin, and the overlay mesh at ScreenRect of that plane at z = 1, both unscaled; the overlay then sits on the backdrop as `Valid()` requires |
| `Scene.CinematicScene.HandleScroll` | script.js:226-229 | the target becomes NextTarget of the old target; nothing else changes; the state stays valid |
| `Scene.CinematicScene.OnWheel` | script.js:221-224 | a wheel event scrolls by its deltaY unchanged |
| `Scene.CinematicScene.TouchStart` | script.js:63-65 | touchstart records the touch position and changes nothing else |
| `Scene.CinematicScene.TouchMove` | script.js:66-70 | touchmove records the new position and moves the target by the touch delta from the previous position |
| `Scene.CinematicScene.Tick` | script.js:242 | the current progress becomes one smoothing step toward the target; the target is not modified |
| `Scene.CinematicScene.Animate` | script.js:233-263 | one frame eases the progress, puts the camera at CameraZ of the new progress, and updates the scales and overlay Z of the meshes that exist; the overlay stays at least the near distance in front of the camera |
| `Scene.CinematicScene.OnResize` | script.js:276-302 | the meshes that exist get the geometry and overlay position of ResizeLayout; their Z and scale are unchanged; the overlay stays ScreenRect of the resized backdrop |

## Left out

- The Three.js scene, camera, renderer, bloom composer and render calls (script.js:31-43, 85-108, 269-273). These are calls into a foreign library. Only the camera's Z and the meshes' size, position and scale are modelled.
- Texture loading, its error callback and the 1.5-second loader hiding (script.js:52-55, 110-139). These are asynchronous I/O. The load callback is the method `LayersLoaded`.
- The GLSL static shader (script.js:155-208). It is GPU code over floating-point noise.
- The brightness pulse `0.95 + sin(time * 1.2) * 0.05` and the shader time uniform (script.js:236-239, 266). They depend on the clock and on `sin`.
- The plane height `2 * tan(fov / 2) * 800` (script.js:114-115, 283-284). It is transcendental, so it is a parameter.
- `requestAnimationFrame`, `preventDefault` and event registration (script.js:58-70, 222, 234). This is browser plumbing. Only the arithmetic inside the handlers is modelled.
- IEEE floating point: all quantities are `real`, so rounding, NaN deltas and infinities are not modelled.
- `Transforms.LoadLayout`, `Transforms.ResizeLayout`, `Scene.CinematicScene.LayersLoaded` and `Scene.CinematicScene.OnResize` require a positive viewport height. With a zero height the source divides by zero and gets an infinite aspect, which reals cannot represent.
- The camera's projection update on resize (script.js:277-280). It is renderer state.
- screenshot.js and screenshot.mjs. They are browser-automation scripts with no logic of their own.
