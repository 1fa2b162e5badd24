# Parallax: a verified model of the scroll-parallax core

`parallax.js` mirrors each tracked image or video onto a fixed-position canvas.
On every scroll it moves each canvas with its parent. It redraws the canvases
that are in sight, shifted vertically by a fraction of the scroll offset (the
*parallax level*).
With the `animateOnScroll` option, key and wheel input snap the page to the
previous or next item ("slide"), or to the top or bottom of the document. The
snap uses an eased scroll animation.

This project models that core in Dafny and proves its properties:

- `easing.dfy`, module `Easing`: `easeInOutQuart` (quartic ease-in-out, after
  Robert Penner's easing equations), over `real`, with `(t*t)*(t*t)` for
  `Math.pow(t, 4)`.
- `geometry.dfy`, module `Geometry`: the rectangle arithmetic of
  `updateCanvases`, as pure functions of a `Snapshot`: aspect multiplier,
  desired height per alignment, width fill, `posX`, `posY`. The snapshot
  carries the per-item parallax level (`level`, line 215). It also carries the
  option's own level (`baseLevel`), which lines 236 and 260 read instead.
- `config.dfy`, module `Config`: the option defaults of the constructor, the
  `position` strings, and per-item parallax levels.
- `frame.dfy`, module `FrameDriver`: the `updateCanvases` loop as a method over
  an array of surfaces. It returns each canvas's translation and what is drawn:
  nothing (out of sight), a pattern offset, or an image rectangle.
  `VideoPump` is the `playVideoFrame` toggle. It is shared by one
  self-rescheduling chain per loaded video. `AnimationFrame` runs every chain's
  callback once.
- `snap.dfy`, module `Snap`: event classification, `findNearestSlide` (a loop
  proved against a recursive reference definition), the direction policy, and
  the class `SnapScroller`. Its fields are `currentSlide`, `animating`,
  `preventAnimateOnScroll`, `iteration`, `startValue`, `difference`, `frames`
  and the scroll offset `scrollY`. `slideTo` is `SlideTo`; `animateScroll` is
  `Tick`, which the caller drives once per frame instead of
  `requestAnimFrame`.

The class invariant `SnapScroller.Valid` states these facts:

- `currentSlide` stays in [1, N].
- A run in flight has 40 or 60 frames and iterations left.
- A finished run performed exactly `frames + 1` ticks.
- The offsets written so far (ghost `written`) are the eased values, in order.

`SlideTo` sets `iteration` to 0, and each `Tick` adds one. `Tick` ends the run
exactly when `iteration` passes `frames`. `FinishedRunLandsOnTarget` shows that
the last offset written is `startValue + difference`.

The host environment enters as parameters. The `Viewport` holds
`innerHeight` and `pageYOffset`. The anchors are the parents' `offsetTop`
values, and `maxScroll` stands for `document.body.scrollHeight - innerHeight`.
The browser tier that picks 60 or 40 frames is the boolean `fastTier`. The user
scrolling the page is `SnapScroller.ScrollTo`.

Details of the code the model keeps:

- `slideTo` itself does not check `animating`. Only `handleSlideEvents` refuses
  to start a run while one is in flight (lines 304 and 311), so
  `SnapScroller.SlideTo` has no such guard and `HandleSlideEvents` does.
- The width fill compares with the parent's `offsetWidth` (line 247), but
  `posX` uses the canvas width (line 253). Both are kept apart.
- The "top" alignment (line 260) and the scaled "center" height (line 236)
  read `options.parallaxLevel`, not the per-item level of line 215.
  `VerticalParallaxRate` states the resulting rates.
- With a zero media height or a zero rendered width, the code does not skip the
  surface: it computes with infinities and NaN. The model excludes those
  inputs by precondition (`Geometry.Defined`, `FrameDriver.Drawable`).
- `findNearestSlide` with no items returns `null + 1`, which is 1.
  `NearestSlide` returns 1 for an empty anchor list.
- The aspect ratio comes from the element's `width` and `height` properties for
  an image (line 219) and from `videoWidth` and `videoHeight` for a video
  (line 217). The snapshot fields `mediaWidth` and `mediaHeight` stand for
  whichever of the two applies.
- Every loaded video starts its own `playVideoFrame` chain, making the chain's
  first callback at once (line 150). All the
  chains flip the one shared `videoToggle` (line 161). See "## Findings".

## Model

| member | source | states |
|---|---|---|
| `Easing.EaseInOutQuart` | parallax.js:365-370 | the definition of `easeInOutQuart`: time rescaled by half the run, then the accelerating branch below 1 and the decelerating branch from 1 on; what it promises is stated by the lemmas below |
| `Easing.EaseEndpoints` | parallax.js:365-370 | the eased value is `start` at iteration 0, `start + change/2` at `total/2` and `start + change` at `total`, for any `total > 0` |
| `Easing.EaseWithinRun` | parallax.js:365-370 | for iterations in [0, total] the value lies between `start` and `start + change`, either way round; the first half lies between `start` and the midpoint, the second half between the midpoint and the target |
| `Easing.EaseFirstHalfBelowMidpoint` | parallax.js:366-367 | with a positive change the first half is strictly below `start + change/2` |
| `Easing.EaseMonotone` | parallax.js:365-370 | within a run the value never turns back: non-decreasing in the iteration for `change >= 0`, non-increasing for `change <= 0` |
| `Easing.EaseSymmetric` | parallax.js:365-370 | ease-in-out symmetry: the distance covered by iteration `i` equals the distance left at iteration `total - i` |
| `Easing.EaseIsScaledQuart` | parallax.js:365-370 | every run is the normalised curve on t in [0, 2], scaled by `change` and shifted by `start` |
| `Geometry.Multiplier` | parallax.js:216-220 | the aspect ratio: multiplied by the media height it gives the media width |
| `Geometry.DesiredHeight` | parallax.js:232-243 | the definition of the desired height per alignment; its bounds are `DesiredHeightBounds` |
| `Geometry.FilledHeight` | parallax.js:245-250 | the definition of the width fill; what it achieves is `WidthFill` |
| `Geometry.PosX` | parallax.js:253 | the definition of `posX`; its bound is in `DrawRectCoversWidth` |
| `Geometry.Remainder` | parallax.js:254 | the image overhangs the canvas by `remainder` above and by `remainder` below: canvas height plus twice the remainder is the image height |
| `Geometry.CenterScroll` | parallax.js:255 | the scroll offset at which the canvas centre is at the viewport centre |
| `Geometry.PosY` | parallax.js:256-263 | the definition of `posY` per alignment; its rate and rest positions are `VerticalParallaxRate` and `AlignmentRestPositions` |
| `Geometry.DrawRect` | parallax.js:265-267 | the definition of the `drawImage` arguments; their properties are the lemmas below |
| `Geometry.DesiredHeightBounds` | parallax.js:233-243 | the desired height is at least the canvas height; for "center" it is at most the larger of viewport and canvas, the parallax scale-up adds at most `innerHeight * baseLevel`, and without scale-up it is at least the viewport height; top alignments keep the canvas height |
| `Geometry.NondegenerateDefined` | parallax.js:216-250 | with positive media size and canvas height, a non-negative viewport height and a non-negative level, the multiplier and the width-fill division are defined and the desired height is positive |
| `Geometry.WidthFill` | parallax.js:247-250 | for a positive aspect ratio, after the fill the rendered width is at least the parent's `offsetWidth`, and equal to it when the fill fired; the height only grows, and is unchanged when no fill is needed |
| `Geometry.RemainderNonNegative` | parallax.js:254 | for a positive aspect ratio, a non-negative viewport height and level, the vertical overflow `remainder` is never negative and the image is at least as tall as the canvas |
| `Geometry.DrawRectKeepsAspect` | parallax.js:216-267 | the drawn rectangle keeps the media's aspect ratio |
| `Geometry.DrawRectCoversWidth` | parallax.js:253 | `posX <= 0`; for a positive aspect ratio and a canvas as wide as its parent, the image reaches the right edge and overhangs both sides equally |
| `Geometry.VerticalParallaxRate` | parallax.js:257-263 | scrolling by `delta` moves `posY` by `delta * level` for "center" and "top center", and by `delta * baseLevel` for "top" |
| `Geometry.AlignmentRestPositions` | parallax.js:254-263 | a "center" image is centred on the canvas when the canvas is centred in the viewport, a "top center" image is centred at scroll 0, and a "top" image is flush with the canvas top at scroll 0 |
| `Config.WithDefaults` | parallax.js:35-40 | each supplied option is kept and each absent one takes its default (0.8, null, "center", true, false) |
| `Config.DefaultsKeepSuppliedOptions` | parallax.js:35-40 | defaulting never overrides an explicitly supplied option and is idempotent |
| `Config.DefaultOptions` | parallax.js:35-40 | with no options object the options are level 0.8, no `dimens`, "center", scale to parallax, no snap scrolling |
| `Config.PositionOf` | parallax.js:233-263 | exactly the strings "center", "top" and "top center" select an alignment |
| `Config.ItemLevel` | parallax.js:215 | the definition of the per-item level: the array entry at the item's index, or the single number |
| `FrameDriver.Translation` | parallax.js:202-206 | the canvas is translated to where its parent is in the viewport: translation plus scroll offset is the parent's `offsetTop` |
| `FrameDriver.InSight` | parallax.js:208-212 | the definition of the visibility test, the negation of the skip condition |
| `FrameDriver.SurfaceDraw` | parallax.js:208-230 | a surface is skipped exactly when `pageYOffset < offsetTop - innerHeight` or `pageYOffset > offsetTop + canvas height`; in sight, a pattern surface gets a pattern offset and no rectangle, any other gets an image |
| `FrameDriver.PatternOffsetRate` | parallax.js:224 | a pattern's offset moves at the item's own parallax level per scrolled pixel, and is zero when the scrolled distance times that level equals the parent's offset |
| `FrameDriver.ImageCoversCanvas` | parallax.js:232-267 | for a positive aspect ratio, a non-negative viewport height and level, the image drawn for a surface in sight keeps its aspect, is at least as tall as the canvas, starts at or left of the canvas's left edge and is at least as wide as the parent |
| `FrameDriver.UpdateCanvases` | parallax.js:199-268 | every canvas gets its `Translation`, culled or not; each canvas's drawing is its own surface's `SurfaceDraw` |
| `FrameDriver.FrameRedraws` | parallax.js:157-163 | the redraws of one frame with `chains` callbacks on the shared toggle: at most one per callback, and exactly half of them for an even number |
| `FrameDriver.TotalRedrawsHalfTheCallbacks` | parallax.js:146-163 | with `chains` videos loaded before the first frame, the loads and `frames` frames redraw half of `(frames + 1) * chains` times, rounded down; one video redraws in half the frames rounded up |
| `FrameDriver.OneChainThrottles` | parallax.js:157-163 | with one chain, frames alternate between no redraw and one redraw |
| `FrameDriver.TwoChainsRedrawEveryFrame` | parallax.js:146-163 | with two chains, every frame redraws exactly once |
| `FrameDriver.VideoPump.constructor` | parallax.js:44 | the toggle starts off, with no chains, no callbacks and no redraws |
| `FrameDriver.VideoPump.OnVideoLoad` | parallax.js:146-150 | each loaded video adds one `playVideoFrame` chain and makes its first callback at once: a redraw exactly when the toggle was set, then the toggle flips |
| `FrameDriver.VideoPump.OnVideoLoadOnce` | parallax.js:146-150 | the corrected load handler: the first video starts the one chain with its first callback; later videos add no chain and no callback |
| `FrameDriver.VideoPump.PlayVideoFrame` | parallax.js:157-163 | a callback redraws exactly when the toggle was set and then flips it, so redraws stay at half the callbacks so far, rounded down |
| `FrameDriver.VideoPump.AnimationFrame` | parallax.js:157-163 | one display frame runs each chain's callback once on the shared toggle and makes `FrameRedraws` redraws |
| `Snap.Classify` | parallax.js:277-299 | up exactly for keys 38 and 33, a positive `wheelDeltaY` or a negative `deltaY`; down exactly for keys 40 and 34, a negative `wheelDeltaY` or a positive `deltaY`; otherwise no direction |
| `Snap.PreventsDefault` | parallax.js:277-299 | the default action is cancelled for every wheel event and for a key exactly when it has a direction |
| `Snap.WheelConventions` | parallax.js:288-298 | `wheelDeltaY` has the opposite sign convention to `deltaY`, and a reversed wheel turn gives the opposite direction |
| `Snap.Distance` | parallax.js:326 | `Math.abs`: non-negative, and one of the two differences of anchor and offset |
| `Snap.NearestIndex` | parallax.js:323-335 | the index of an anchor at minimal distance `abs(offsetTop - pageYOffset)`, and the lowest such index |
| `Snap.NearestSlide` | parallax.js:323-335 | a 1-based slide in [1, N] that is the first nearest anchor; 1 when there are no anchors |
| `Snap.NearestUnique` | parallax.js:329 | at most one index is the first nearest, so ties are decided by the strict comparison |
| `Snap.NearestSlideExactMatch` | parallax.js:326-328 | when some anchor is at zero distance, the result is the first such anchor |
| `Snap.ExactIsNearest` | parallax.js:327-328 | the first anchor at zero distance is the first nearest, so the early return agrees with the full scan |
| `Snap.FindNearestSlide` | parallax.js:323-335 | the loop with early return and strict-less update returns the first nearest slide |
| `Snap.Decide` | parallax.js:304-318 | the new slide is in [1, N]; a transition starts exactly for a direction while not animating; up moves at most one slide back and targets offset 0 exactly at slide 1 with offset >= 0; down moves at most one slide on and targets the maximum scroll exactly at slide N with offset <= max; a slide target is the new current slide |
| `Snap.StepsReachBoundary` | parallax.js:308-315 | below the last slide, down steps to the next slide; above the first, up steps to the previous one |
| `Snap.FramesFor` | parallax.js:345 | the definition of the frame count: 60 on the fast tier, 40 otherwise |
| `Snap.TargetOffset` | parallax.js:344 | the definition of the offset a target stands for: the pixel amount, or the anchor of the slide |
| `Snap.SnapScroller.constructor` | parallax.js:49-51 | a new instance is at slide 1, not animating, with input not suppressed |
| `Snap.SnapScroller.SlideTo` | parallax.js:340-347 | a run starts: `animating`, iteration 0, `startValue` the current offset, `difference` the target (pixel or anchor) minus it, 60 or 40 frames by tier |
| `Snap.SnapScroller.Tick` | parallax.js:351-361 | writes the eased offset for the current iteration, advances the iteration, and stays animating exactly while the iteration has not passed `frames` |
| `Snap.SnapScroller.HandleSlideEvents` | parallax.js:273-319 | when suppressed nothing changes; otherwise the slide is re-found from the offset even while animating or without direction, the policy `Decide` sets the new slide, and a run starts exactly when it says so, a run in flight never being replaced |
| `Snap.FinishedRunLandsOnTarget` | parallax.js:351-361 | a finished run made `frames + 1` ticks and last wrote `startValue + difference` |
| `Snap.WrittenOffsetsTrackTarget` | parallax.js:352-354 | every offset written in a run lies between its start and its target and moves monotonically towards the target |

## Left out

- DOM construction, class toggling, and the image and video load handlers (`layout`, `onImageLoad`, lines 98-143) are left out: they are document plumbing. Of `onVideoLoad` (lines 146-154) only the start of a `playVideoFrame` chain is modelled: the new chain and its first callback, made at once (line 150).
- `onResize` (lines 167-195) writes styles and canvas sizes. It is not modelled. `DrawRectCoversWidth` assumes, in one clause, the canvas width it sets.
- The transform-property polyfill (lines 26-32) and the CSS strings of the translation (lines 202-206) are left out. Only the translation's value is modelled.
- User-agent sniffing (lines 45 and 345) is replaced by the boolean `fastTier`. Fallback mode is not modelled.
- `requestAnimFrame` and `setTimeout` scheduling (lines 89-94) are left out. The caller calls `Tick` once per frame of a run, and `VideoPump.AnimationFrame` once per display frame, which runs the callback of every chain once, in turn.
- `window.scrollTo`, `drawImage`, `clearRect`, `translate`, `fillRect` and `createPattern` are browser calls. They are modelled as returned values (the written offset, the draw rectangle, the pattern offset).
- The browser's clamping and rounding of the offset passed to `scrollTo` is not modelled.
- Video playback, load-event registration and event-listener wiring (lines 58-84) are left out.
- `Config.WithDefaults`: the constructor writes the defaults into the caller's own options object (`this.options = options || {}`, then assigns its keys, lines 35-40), so the caller sees the filled-in object. The model returns a fresh `Options` value; that aliasing is not modelled.
- Numbers are exact reals. IEEE rounding, infinities, NaN and `undefined` are not modelled. These cases are excluded by preconditions (`Geometry.Defined`, `FrameDriver.Drawable`): an unknown `position` string, an array-valued `parallaxLevel` on the paths that read the option directly (lines 236 and 260), a missing array entry, a zero media height, and a zero rendered width under the width fill.
- DOM sizes are reals; the integer nature of `offsetWidth` and canvas sizes is not modelled.
- Options are typed. Non-boolean `scaleToParallax` values (compared with `=== true`) and non-string `position` values are not modelled.
- `Snap.SnapScroller.HandleSlideEvents`: requires at least one item. With none, `findNearestSlide` returns 1, and the source behaves as follows. An event with no direction, or any event during a run, only sets the current slide to 1. "Up" at an offset >= 0 starts a scroll to 0 without error. "Up" at a negative offset reads `items[0]`, and "down" reads `items[-1]`; both then throw a TypeError. The model covers none of these zero-item cases, including the ones that succeed.
- `Snap.SnapScroller.Tick`: requires a run in flight. `animateScroll` is only ever scheduled by `slideTo` and by itself during a run.
- `Geometry.WidthFill`: stated for a positive aspect ratio (`Multiplier(s) > 0`). A media width of zero with a positive parent width is not `Defined`, and negative sizes do not occur in a page.
- `Geometry.DrawRectCoversWidth`: its width clause has the same positive-aspect assumption as `WidthFill`.
- `Geometry.RemainderNonNegative`: also assumes a non-negative viewport height and parallax level. With a negative level, the scaled "center" height can fall below the canvas height.
- `FrameDriver.ImageCoversCanvas`: stated under the assumptions of `WidthFill` and `RemainderNonNegative`.
- `FrameDriver.TotalRedrawsHalfTheCallbacks` counts the case where every video loads before the first display frame; for loads between frames, `VideoPump.Valid` still keeps the redraws at half the callbacks so far, rounded down.

## Findings

| source | as written | input that shows it | evidently intended | confidence | as-written member | corrected member |
|---|---|---|---|---|---|---|
| parallax.js:146-163 | every loaded video calls `playVideoFrame` (line 150), which reschedules itself (line 162), so each video runs a chain of its own; all chains flip the one shared `videoToggle` (line 161) | a page with two videos: in each frame the first callback sees the toggle off and the second sees it on, so every frame redraws all canvases | the toggle throttles redraws to every other frame ("30fps", line 44), whatever the number of videos: one chain is started, and with one chain frames alternate between no redraw and one (`OneChainThrottles`) | medium; not executed | `FrameDriver.TwoChainsRedrawEveryFrame` | `FrameDriver.VideoPump.OnVideoLoadOnce` |
