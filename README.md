# Shift-zoom engine for Pale Moon: a Dafny model

This project models the zoom engine of the add-on. A frame script in each
content window (`chrome/mtzoom/content/frame-script.js`) scales the page's root
element with a CSS transform while Shift and the wheel are held. It keeps the
page's native scroll offsets in step with its own translation. It marks
control as disabled while a zoom is in progress and, when
`disableScrollbarsWhenZooming` is set, hides the scrollbars. It pans the
transform-origin with the mouse. The model also covers the arithmetic of the options page
(`chrome/mtzoom/content/prefs.js`): the slider-to-speed conversions and the way
a number setting is stored as integer tenths when the preference service has
no float setter.

Modules:

- `Wrappers`: `Option`.
- `ZoomMath`: the pure arithmetic of the frame script and the lemmas about it:
  - the scale clamp to [1, 10]
  - re-anchoring a translation about a screen point
  - the translation clamp of `setTranslationX/Y`
  - the integer offset the browser keeps
  - the wheel formula
  - the low-quality perspective transform
- `Dom`: the host objects the engine touches.
  - `Element` is the root element: fixed layout metrics, integer `scrollLeft` / `scrollTop`, and a style record.
  - `Document` holds a content type, a root and the attach marker.
- `FrameScript`: the engine.
  - `ZoomEngine` is a class whose fields are the frame script's module-level variables.
  - Each function and listener of the script is a method that updates them in place.
  - The content window's timer queue is a map from handle to task. A timer runs only when the host calls `FireTimer`.
  - `Valid()` is the invariant every handler keeps:
    - the scale is in [1, 10]
    - panning is off only at scale 1 with no origin shift
    - the overflow translation is 0
    - every pending task is the one whose handle the engine holds, so at most one of each kind is pending
- `Prefs`: the pure conversions and the tenths encoding, with the set-then-get round trip.
- `Scenarios`: concrete runs on a 2000 x 1500 page in a 1000 x 800 box, each with its end state stated:
  - zoom in about a point
  - a wheel notch that the clamp absorbs
  - a reset, including its stale translation
  - a drag
  - both timers firing
  - the attach filters

The model keeps these behaviours of the code, which a reader may not expect:

- **Lower clamp bound.** The lower bound of the translation clamp is `-(scrollWidth - clientWidth)`, not `-max(..., 0)`. A page narrower than its box gets a positive translation.
- **Overflow.** The overflow translation is computed after the clamp, so it is always 0.
- **Scroll sentinel.** It is not cleared when a scroll event matches it.
- **Mousemove.** It records nothing while panning is disarmed.
- **canFollowMouse after a reset.** `resetScale` leaves `canFollowMouse` as it was. So "scale 1 implies panning off and no origin shift" is not an invariant: `Scenarios.PanAfterReset` shifts the origin at scale 1. The invariant kept instead is "panning off implies scale 1 and no origin shift".
- **Hard wheel-up.** The wheel factor is `pageScale / (pageScale + deltaY * speed * 0.006)`. A fast wheel-up can make the denominator negative, for example deltaY = -1000 at scale 2 with speed 0.7. The factor is then negative, and the clamp of `applyScale` turns the new scale into 1, so the page zooms all the way out (`ZoomMath.HardWheelUpZoomsOut`).
- **Tenths fallback.** `setIntPref` takes a 32-bit `long`, so a count `Math.round(v * 10)` outside [-2^31, 2^31) is stored wrapped (`Prefs.LargeValueWraps`). The options page only stores speeds in [0, 1.4], which always fit.

## Model

| member | source | states |
|---|---|---|
| ZoomMath.ClampScale | chrome/mtzoom/content/frame-script.js:192 | the scale is clamped into [1, 10]: unchanged inside, the nearer bound outside |
| ZoomMath.ScaleAfterCases | chrome/mtzoom/content/frame-script.js:190-192 | ScaleAfter: the scale after pageScale *= scaleBy and the clamp lies in [1, 10], is the product inside the range and the nearer bound outside; a factor of 1 keeps a clamped scale |
| ZoomMath.Anchor | chrome/mtzoom/content/frame-script.js:213-217 | (t - z) * k + z: a factor of 1 leaves the translation alone, and a positive factor keeps it on the same side of the anchor point |
| ZoomMath.AnchorFixesAnchorPoint | chrome/mtzoom/content/frame-script.js:210-217 | re-anchoring about z leaves a translation equal to z where it is |
| ZoomMath.AnchorComposes | chrome/mtzoom/content/frame-script.js:210-217 | re-anchoring by k1 then k2 about one point is re-anchoring by k1 * k2 |
| ZoomMath.AnchorInverse | chrome/mtzoom/content/frame-script.js:210-217 | re-anchoring by k then 1/k about one point restores the translation |
| ZoomMath.AnchorAllIsProduct | chrome/mtzoom/content/frame-script.js:210-217 | any run of re-anchorings about one point is one re-anchoring by the product of the factors |
| ZoomMath.ClampTranslation | chrome/mtzoom/content/frame-script.js:165-166 | the stored translation is at least -extent; with a non-negative extent it lies in [-extent, 0], a value inside is kept, a positive one becomes 0 and one below -extent becomes -extent; with a negative extent it is -extent (positive) |
| ZoomMath.ClampTranslationIdempotent | chrome/mtzoom/content/frame-script.js:165-166 | clamping a clamped translation changes nothing |
| ZoomMath.OverflowOfCases | chrome/mtzoom/content/frame-script.js:173-174 | OverflowOf: never negative, 0 for a translation of at least 0, else how far -v reaches past the scroll range |
| ZoomMath.OverflowAfterClampIsZero | chrome/mtzoom/content/frame-script.js:173-174 | the overflow computed from the clamped translation is always 0 |
| ZoomMath.RequestedOffset | chrome/mtzoom/content/frame-script.js:170 | the offset written is max(-v, 0): non-negative, either -v or 0 |
| ZoomMath.NativeOffset | chrome/mtzoom/content/frame-script.js:170-171 | the offset the browser keeps is an integer in [0, max(extent, 0)], the floor of the value assigned when that is in range |
| ZoomMath.WrittenOffsetCases | chrome/mtzoom/content/frame-script.js:170-171 | WrittenOffset: for any translation, a pixel count inside the scroll range, 0 for a translation of at least 0, and the floor of -v for one in [-extent, 0] |
| ZoomMath.WrittenOffsetTracksTranslation | chrome/mtzoom/content/frame-script.js:164-171 | after setTranslationX the box's offset is the floor of -translation, within one pixel of it and inside the scroll range |
| ZoomMath.WrittenOffsetWithoutExtent | chrome/mtzoom/content/frame-script.js:164-171 | with content no wider than the box the offset written is 0 |
| ZoomMath.NativeOffsetOfHeldOffset | chrome/mtzoom/content/frame-script.js:238-246 | writing back an offset the box already holds keeps it |
| ZoomMath.WheelScaleBy | chrome/mtzoom/content/frame-script.js:334-337 | scaleBy = pageScale / (pageScale + deltaY * speed * multiplier): exactly 1 with no delta or no speed, and 0 only for a scale of 0 |
| ZoomMath.WheelExample | chrome/mtzoom/content/frame-script.js:334-337 | speed 0.7 and deltaY 100 at scale 1 give scaleBy = 1 / 1.42 |
| ZoomMath.WheelDirection | chrome/mtzoom/content/frame-script.js:334-337 | with a positive speed, wheel down (deltaY > 0) gives a factor in (0, 1), wheel up one above 1, and a zero delta gives exactly 1, all while the new scale stays positive |
| ZoomMath.HardWheelUpZoomsOut | chrome/mtzoom/content/frame-script.js:334-337 | a wheel-up that makes pageScale + deltaY * speed * 0.006 negative gives a negative factor, which the clamp of applyScale turns into scale 1 |
| ZoomMath.HardWheelUpExample | chrome/mtzoom/content/frame-script.js:334-337 | at scale 2 with speed 0.7, a wheel-up of 1000 gives a negative factor and scale 1 |
| ZoomMath.PerspectiveMagnifiesByScale | chrome/mtzoom/content/frame-script.js:114-117 | perspective(1px) translateZ(1 - 1/s px) magnifies by exactly s, the scale of the high-quality transform |
| ZoomMath.ScaleRoundTrip | chrome/mtzoom/content/frame-script.js:190-193 | scaling by k and by 1/k, both inside [1, 10], restores the scale, with effective factors k and 1/k |
| ZoomMath.RetranslateCases | chrome/mtzoom/content/frame-script.js:213-220 | Retranslate: the re-anchored, clamped coordinate lies in the scroll range, is the re-anchored value when that is in range, and a factor of 1 keeps an in-range translation |
| ZoomMath.ZoomRoundTrip | chrome/mtzoom/content/frame-script.js:190-220 | applyScale by k then 1/k about one point restores scale and translation when no clamp bites |
| Dom.IsHtml | chrome/mtzoom/content/frame-script.js:258 | the content type is HTML exactly when it starts with "text/html"; an empty one is not |
| Dom.ScrollBoxOf | chrome/mtzoom/content/frame-script.js:60-62 | the scroll box is the document element, or the body when there is none |
| Dom.Element.SetScrollLeft | chrome/mtzoom/content/frame-script.js:170 | assigning scrollLeft stores the native offset of the value and nothing else |
| Dom.Element.SetScrollTop | chrome/mtzoom/content/frame-script.js:183 | assigning scrollTop stores the native offset of the value and nothing else |
| FrameScript.CancelRemovesHeld | chrome/mtzoom/content/frame-script.js:119 | Cancel: clearTimeout removes the held timer if it is pending and keeps every other pending timer; a null handle cancels nothing |
| FrameScript.RearmedHandles | chrome/mtzoom/content/frame-script.js:119-123 | Rearmed: clearTimeout then setTimeout issues the next handle for the task, holds it as that kind's handle, cancels the old timer of that kind and keeps every other one |
| FrameScript.RenderChoice | chrome/mtzoom/content/frame-script.js:104-111 | RendersHighQuality, RenderMode and Locks: with scale mode 1 the render is low quality unless the override is 0, and it locks unless told false |
| FrameScript.RenderedHandles | chrome/mtzoom/content/frame-script.js:104-158 | Rendered: one updateTransform re-arms the quality timer only on the low-quality path and the release timer only when it locks, one new handle each |
| FrameScript.AtMostOnePerKind | chrome/mtzoom/content/frame-script.js:119-157 | in a consistent queue two pending timers of the same kind are the same timer |
| FrameScript.RearmedConsistent | chrome/mtzoom/content/frame-script.js:119-123 | clearTimeout then setTimeout on a kind's handle keeps the queue consistent |
| FrameScript.RenderedConsistent | chrome/mtzoom/content/frame-script.js:104-158 | every updateTransform keeps the queue consistent |
| FrameScript.ZoomRendersTwice | chrome/mtzoom/content/frame-script.js:206-222 | after applyScale's two renders exactly one quality upgrade and one release are pending, under the last two handles, and the earlier ones are cancelled |
| FrameScript.FiredConsistent | chrome/mtzoom/content/frame-script.js:119-157 | a timer leaving the queue keeps it consistent |
| FrameScript.LockStyles | chrome/mtzoom/content/frame-script.js:78-102 | ForcedLock, EngagedLock and ReleasedLockOf: the forced lock is overflow hidden with the scrollbar sizes as margins; only the first lock with the setting on forces it; a release after a lock leaves overflow auto and no margins, and a release without a lock changes nothing |
| FrameScript.EngagedLockIdempotent | chrome/mtzoom/content/frame-script.js:78-92 | locking a locked engine changes no style |
| FrameScript.EngagedLockWithoutSetting | chrome/mtzoom/content/frame-script.js:82-89 | without disableScrollbarsWhenZooming the lock forces no style |
| FrameScript.RetranslatedInRange | chrome/mtzoom/content/frame-script.js:210-220 | Retranslated: both new translations lie in the scroll range and each sentinel is the floor of minus its translation |
| FrameScript.OwnScrollIgnored | chrome/mtzoom/content/frame-script.js:64-76 | the scroll event caused by applyScale's own write leaves translation and sentinels as applyScale set them |
| FrameScript.Resynced | chrome/mtzoom/content/frame-script.js:64-76 | per coordinate: an offset equal to its sentinel keeps the translation and the sentinel; any other offset sets the translation to minus the offset and clears the sentinel; so after a vertical scroll of a zoomed page only the y translation is adopted |
| FrameScript.ForeignScrollAdopted | chrome/mtzoom/content/frame-script.js:64-76 | for an offset differing from the sentinel, the translation becomes minus the offset and the sentinel is cleared |
| FrameScript.ResyncedIdempotent | chrome/mtzoom/content/frame-script.js:64-76 | a second scroll event at the same offsets changes nothing |
| FrameScript.BoolField | chrome/mtzoom/content/frame-script.js:370 | a boolean setting is replaced exactly when the message field is a boolean |
| FrameScript.NumberField | chrome/mtzoom/content/frame-script.js:371 | a number setting is replaced exactly when the message field is a number |
| FrameScript.PanStepComposes | chrome/mtzoom/content/frame-script.js:281-282 | PanStep: two panning steps are one step over the combined travel, and a move to the recorded position changes nothing |
| FrameScript.DragTelescopes | chrome/mtzoom/content/frame-script.js:278-291 | a drag moves the origin shift by the pointer's net travel from the last recorded position, whatever the path |
| FrameScript.ZoomEngine.constructor | chrome/mtzoom/content/frame-script.js:18-58 | the initial settings and state, and the invariant |
| FrameScript.ZoomEngine.DisableControl | chrome/mtzoom/content/frame-script.js:78-92 | no-op without a page; otherwise locked, with overflow and margins forced only on the first call and only when the setting asks |
| FrameScript.ZoomEngine.RestoreControl | chrome/mtzoom/content/frame-script.js:94-102 | no-op without a page; otherwise unlocked, with overflow auto and margins cleared only when it was locked |
| FrameScript.ZoomEngine.Rearm | chrome/mtzoom/content/frame-script.js:119-123 | the kind's previous timer is cancelled and a new one is pending under a fresh handle |
| FrameScript.ZoomEngine.UpdateTransform | chrome/mtzoom/content/frame-script.js:104-158 | no-op without a page; otherwise the transform of the chosen quality and the origin are written, the quality timer is re-armed on the low-quality path, and unless told not to the lock is engaged and the release re-armed |
| FrameScript.ZoomEngine.SetTranslationX | chrome/mtzoom/content/frame-script.js:164-175 | the translation is clamped, the box offset is the native offset of max(-v, 0), the sentinel equals that offset, the overflow is 0 |
| FrameScript.ZoomEngine.SetTranslationY | chrome/mtzoom/content/frame-script.js:177-188 | the vertical counterpart |
| FrameScript.ZoomEngine.UpdateTranslationFromScroll | chrome/mtzoom/content/frame-script.js:64-76 | the sentinel rule: a matching offset is ignored and the sentinel stays, any other is adopted and clears it; no-op without a scroll box |
| FrameScript.ZoomEngine.ApplyScale | chrome/mtzoom/content/frame-script.js:160-223 | keeps the invariant; scale is the clamped product; panning is armed exactly when the scale is not 1; the origin is zeroed at scale 1; when the clamp leaves the scale as it was, nothing is rendered and neither translation nor offsets change; otherwise the translation is re-anchored by the effective factor and clamped, the offsets and sentinels written, and the page rendered twice |
| FrameScript.ZoomEngine.Rescale | chrome/mtzoom/content/frame-script.js:190-206 | the scale update, the panning flag, the origin reset, and that the effective factor is 1 exactly when the scale did not change |
| FrameScript.ZoomEngine.Zoom | chrome/mtzoom/content/frame-script.js:208-222 | the effect of the two renders and the re-translation |
| FrameScript.ZoomEngine.RetranslateAndRender | chrome/mtzoom/content/frame-script.js:210-222 | translation re-anchored and clamped, offsets and sentinels written, one render |
| FrameScript.ZoomEngine.ResetScale | chrome/mtzoom/content/frame-script.js:225-252 | scale 1, origin and overflow 0, one high-quality render that neither locks nor re-arms a timer, the old offsets written back, translation re-read through the sentinels, overflow style cleared, canFollowMouse kept |
| FrameScript.ZoomEngine.RenderReset | chrome/mtzoom/content/frame-script.js:229-241 | the zeroed state and the high-quality render without lock |
| FrameScript.ZoomEngine.WriteBackScroll | chrome/mtzoom/content/frame-script.js:243-249 | the offsets written back and the translation re-read through the sentinels |
| FrameScript.ZoomEngine.MouseMove | chrome/mtzoom/content/frame-script.js:276-293 | nothing while panning is disarmed; with Shift held and a recorded pointer the origin moves by the pointer's travel and is written to the page; the pointer is then recorded, except when the missing page makes the write throw |
| FrameScript.ZoomEngine.KeyDown | chrome/mtzoom/content/frame-script.js:296-306 | Ctrl+0 resets the zoom; any other key sets the pan flag to the Shift state and changes nothing else |
| FrameScript.ZoomEngine.KeyUp | chrome/mtzoom/content/frame-script.js:308-314 | the pan flag follows the Shift state |
| FrameScript.ZoomEngine.OnWheel | chrome/mtzoom/content/frame-script.js:325-348 | Shift with shiftKeyZoom on consumes a fresh event and zooms by pageScale / (pageScale + deltaY * speed * 0.006) about the pointer relative to the box; an already-handled one changes nothing; without Shift or with the setting off only the lock is released |
| FrameScript.ZoomEngine.WheelZoom | chrome/mtzoom/content/frame-script.js:331-339 | the zoom step of the wheel listener is applyScale with the wheel factor |
| FrameScript.ZoomEngine.FireTimer | chrome/mtzoom/content/frame-script.js:119-157 | the fired timer leaves the queue; the quality upgrade redraws at high quality with the current scale; the release runs restoreControl; the invariant is kept |
| FrameScript.ZoomEngine.Attach | chrome/mtzoom/content/frame-script.js:254-273 | documents without a window, not of type text/html, or already marked are skipped and nothing changes; otherwise the document is marked and its root (possibly none) becomes the page element |
| FrameScript.ZoomEngine.OnPrefsMessage | chrome/mtzoom/content/frame-script.js:368-375 | no data changes nothing; otherwise each setting is replaced only by a field of its own type |
| FrameScript.ZoomEngine.OnShutdown | chrome/mtzoom/content/frame-script.js:377-383 | the current document, if any, is reset |
| Prefs.RoundInt | chrome/mtzoom/content/prefs.js:47 | Math.round of an integer is that integer |
| Prefs.RoundMonotone | chrome/mtzoom/content/prefs.js:47 | Math.round keeps order |
| Prefs.SpeedToSlider | chrome/mtzoom/content/prefs.js:43-48 | the slider value is an integer in 0..10; speeds at or below 0 give 0, at or above 1.4 give 10 |
| Prefs.SliderToSpeed | chrome/mtzoom/content/prefs.js:50-54 | the speed lies in [0, 1.4]; slider values at or below 0 give 0, at or above 10 give 1.4 |
| Prefs.DefaultMapping | chrome/mtzoom/content/prefs.js:43-54 | slider 5 is speed 0.7 and speed 0.7 is slider 5 |
| Prefs.SliderRoundTrip | chrome/mtzoom/content/prefs.js:43-54 | every integer slider position 0..10 survives the trip to a speed and back |
| Prefs.SpeedSnapsToNearestStep | chrome/mtzoom/content/prefs.js:43-54 | a speed taken to the slider and back lands within 0.07 of the clamped speed |
| Prefs.SpeedToSliderMonotone | chrome/mtzoom/content/prefs.js:43-48 | speedToSlider is monotone |
| Prefs.SliderToSpeedMonotone | chrome/mtzoom/content/prefs.js:50-54 | sliderToSpeed is monotone |
| Prefs.EncodeTenths | chrome/mtzoom/content/prefs.js:40 | Math.round(v * 10): the integer nearest to ten times the value |
| Prefs.DecodeTenths | chrome/mtzoom/content/prefs.js:23 | the integer preference / 10: a tenth of the stored count |
| Prefs.TenthsWithinHalfATenth | chrome/mtzoom/content/prefs.js:17-41 | a value stored as Math.round(v * 10) and read back / 10 is within 0.05 of v |
| Prefs.TenthsExact | chrome/mtzoom/content/prefs.js:17-41 | a whole number of tenths is stored exactly |
| Prefs.ToInt32 | chrome/mtzoom/content/prefs.js:40 | the 32-bit long setIntPref receives: in [-2^31, 2^31), equal to the count when it fits, and equal to it modulo 2^32 |
| Prefs.SetNum | chrome/mtzoom/content/prefs.js:28-41 | a non-finite value changes nothing; a finite one is stored under its name, as a float when the service can set one, else as Math.round(v * 10) wrapped to 32 bits; no other preference changes |
| Prefs.GetNum | chrome/mtzoom/content/prefs.js:17-26 | the float preference if it can be read, else the integer preference / 10, else the fallback |
| Prefs.LargeValueWraps | chrome/mtzoom/content/prefs.js:23-40 | without a float setter, 3e8 is stored as 3000000000 wrapped to -1294967296 and read back as -129496729.6 |
| Prefs.SetThenGet | chrome/mtzoom/content/prefs.js:17-41 | reading back a finite value gives it exactly through the float accessors, the fallback when only the float setter exists, and through the tenths fallback the wrapped count / 10, within 0.05 of the value while Math.round(v * 10) fits 32 bits |
| Scenarios.Setup | chrome/mtzoom/content/frame-script.js:254-273 | attaching a fresh HTML document binds its root with the initial state |
| Scenarios.ZoomInAboutPoint | chrome/mtzoom/content/frame-script.js:160-223 | zooming by 2 about (100, 50) gives scale 2, translation (-100, -50), offsets (100, 50), a low-quality render, panning armed, and the following scroll event is ignored |
| Scenarios.WheelOutAtMinimum | chrome/mtzoom/content/frame-script.js:328-341 | a wheel notch of 100 at scale 1 is consumed but the clamp keeps scale 1 and nothing is drawn |
| Scenarios.WheelWithoutShift | chrome/mtzoom/content/frame-script.js:343-345 | without Shift the wheel is not consumed and changes nothing on an unlocked page |
| Scenarios.ZoomedByThree | chrome/mtzoom/content/frame-script.js:190-204 | zooming by 3 from scale 1 gives scale 3 with panning armed |
| Scenarios.ResetFromThree | chrome/mtzoom/content/frame-script.js:225-252 | Ctrl+0 at scale 3 draws scale 1 in high quality with the origin at 0 and leaves panning armed |
| Scenarios.ResetKeepsStaleTranslation | chrome/mtzoom/content/frame-script.js:238-249 | after a zoom and a reset the box stays scrolled to (100, 50) while the translation stays (0, 0), because the offsets equal the sentinels |
| Scenarios.FirstZoomTimers | chrome/mtzoom/content/frame-script.js:119-157 | from an empty queue, applyScale's two renders leave exactly handles n+2 (quality upgrade) and n+3 (release) pending |
| Scenarios.ZoomedByTwo | chrome/mtzoom/content/frame-script.js:190-222 | zooming by 2 about the corner gives scale 2, a low-quality transform, the lock and the timers of two renders |
| Scenarios.Zoomed | chrome/mtzoom/content/frame-script.js:206-222 | after a zoom and a Shift keydown, panning is armed and exactly one quality upgrade and one release are pending |
| Scenarios.DragWhileZoomed | chrome/mtzoom/content/frame-script.js:278-291 | a three-point drag moves the origin by the net travel (40, 30) and writes it to the page |
| Scenarios.TimersAfterZoom | chrome/mtzoom/content/frame-script.js:119-157 | firing both pending timers draws high quality and releases the lock |
| Scenarios.ResetWhileArmed | chrome/mtzoom/content/frame-script.js:225-252 | a reset with Shift held leaves scale 1 with panning armed |
| Scenarios.PanAfterReset | chrome/mtzoom/content/frame-script.js:278-291 | after a reset a drag shifts the origin of a page at scale 1 |
| Scenarios.AttachTwice | chrome/mtzoom/content/frame-script.js:261-263 | the second attach of a document finds the marker |
| Scenarios.AttachFilters | chrome/mtzoom/content/frame-script.js:255-259 | documents without a window, of another type, or with an empty content type are skipped |

## Left out

- bootstrap.js: the add-on lifecycle, the message manager and pref observers. It is plumbing over services that cannot be seen; the two messages it sends become `OnPrefsMessage` and `OnShutdown`.
- The double-install marker on the content window (frame-script.js lines 8-15) and the load/readyState bootstrapping (lines 355-392): host plumbing around `attachToDocument`.
- Listener registration, capture and passive options, `preventDefault` and `stopPropagation`. A handled wheel event is the `consumed` result. `wheelEventElement` and `scrollEventElement` only carry listeners and are not modelled.
- Elapsed time, including the delays of the two timers (400 ms for the release, 40 ms for the quality upgrade). A timer is a pending entry in a queue, and the host decides when it runs (`FireTimer`).
- CSS text. Transforms, origins and lock styles are records. The `position`, `height` and transition writes are not modelled. The `minScale < 1` branch (lines 135-146) is dead with the constant 1.0 and is not modelled.
- IEEE-754 arithmetic. Numbers are reals. NaN and Infinity are not modelled in the engine. `FrameScript.ZoomEngine.OnWheel` requires the wheel divisor to be non-zero, where the source would divide by zero.
- Layout. An element's scroll and client sizes are constants, so the reflow after a transform change is not modelled. The browser's scroll-offset setter is modelled as truncation to whole pixels and clamping to the scroll range.
- Exceptions, apart from the `TypeError` a missing page element raises in the mousemove listener, which the model reproduces. The `try` blocks around the offset writes of `resetScale`, the load handler and the shutdown handler cannot catch anything in the model. `resetScale` on a missing page element skips its last write, which is where the source throws.
- `attachToDocument`'s check for a missing scroll box after the root check cannot fail, because the scroll box is then the root.
- prefs.js: the options-page DOM (`restore`, `bind`, `updateSpeedLabel`) and the boolean preference accessors.
- Prefs.SetNum: the preference service's type-mismatch errors are not modelled. A float setter always succeeds.
- Prefs.SliderToSpeed: the model takes the numeric value of `Number(s)`. The NaN that a non-numeric slider string gives in the source, which lies outside [0, 1.4], is not modelled.
- Prefs.SpeedToSlider: only numeric input is modelled.
