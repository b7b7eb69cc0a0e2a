# Booth map viewer: viewport controller, bottom sheet and navbar lookup

This project models three parts of an interactive convention floor-plan viewer in Dafny and proves properties about them.

- **Map viewport controller** (`map_controller.dfy`, with `renderer.dfy`). It turns wheel, single-tap, double-tap, pan and pinch gestures into updates of the camera record that the map renderer owns. The camera record holds the scale, the pan position `x/y`, the zoom anchor `offsetX/offsetY`, its correction `outerX/outerY`, the pan and zoom momentum, and the double-tap toggle.
  - Each handler is a pure function giving the camera record it leaves (`Wheel`, `SingleTap`, `DoubleTap`, `Pan`, `Pinch`).
  - The class `MapController` performs them on a `MapRenderer` object. It also keeps the pan and pinch snapshots taken at gesture start.
  - The renderer is reduced to its camera record. Its `updateState` writes the fields a partial record defines. lodash's `merge` combines two partial records, and fields of the later one win.
- **Circle card bottom sheet** (`circle_card.dfy`). Dragging the card's header moves the sheet. A release either pulls the sheet open, tabs it back to its peek position, hides it, or does nothing, decided by velocity, distance and position thresholds.
  - The overlay fades with the sheet's position.
  - The sheet never moves above fully open.
  - Element heights are parameters. The callbacks are returned as a value.
- **Navbar lookup** (`navbar_container.dfy`). A first-match search for the item whose route path equals the current path, falling back to the first item.

Numbers are Dafny `real`s and `Math.sign` is a three-valued function (`common.dfy`).

Points where the code's behaviour is easy to mistake, and which the model follows as written:
- The controller has no scale bounds and no momentum decay. These would live in the renderer, which is not part of this model.
- The code does not guard a pinch end with zero elapsed time. The model therefore requires `deltaTime > 0` at `pinchend`.
- Pinch momentum accumulation is not clamped.
- Pan writes `x/y`, which are separate fields from the anchor offset `offsetX/offsetY`.
- A wheel event with `deltaY == 0` leaves zero zoom momentum and the scale unchanged.

## Model

| member | source | states |
|---|---|---|
| Renderer.Merge | src/map/MapController.ts:134-140 | merging with an absent partial record keeps the other one unchanged |
| Renderer.Apply | src/map/MapController.ts:94-99 | an empty partial record changes nothing; every field the partial record defines is written and every undefined field keeps its value |
| Renderer.ApplyMerge | src/map/MapController.ts:140 | writing a merged partial record equals writing the two records one after the other |
| Renderer.MapRenderer.UpdateState | src/map/MapController.ts:94-99 | the renderer's camera record becomes the old one with the patch written on top |
| MapController.AnchorPatch | src/map/MapController.ts:125-139 | the computed anchor fields satisfy `offsetX + outerX == x` and `offsetY + outerY == y`, and touch nothing else |
| MapController.ReAnchor | src/map/MapController.ts:123-141 | after `updateOffset` the anchor sits exactly on (x, y); the anchor deltas are scaled by the pre-update scale; any field in `newState` overrides the computed ones, including the anchor fields `offset*`/`outer*` themselves, and fields in neither keep their value |
| MapController.ReAnchorFixesAnchored | src/map/MapController.ts:125-132 | re-anchoring a record already anchored at (x, y) changes nothing |
| MapController.ReAnchorIdempotent | src/map/MapController.ts:123-141 | `updateOffset` twice at the same point equals once |
| Common.Sign | src/map/MapController.ts:36 | `Math.sign` is −1, 0 or 1, and is 1 exactly for positive and −1 exactly for negative arguments |
| Common.Abs | src/components/CircleCard/index.tsx:96-97 | `Math.abs` is non-negative and equals its argument or its negation |
| Common.Min | src/map/MapController.ts:45 | `Math.min` is at most both arguments and equals one of them |
| Common.Max | src/map/MapController.ts:46 | `Math.max` is at least both arguments and equals one of them |
| MapController.PanSnapshot | src/map/MapController.ts:74-79 | `panstart` copies position and momentum from the camera record into the pan snapshot; every other event leaves the snapshot as it was |
| MapController.PinchSnapshot | src/map/MapController.ts:106-109 | `pinchstart` copies scale and zoom momentum into the pinch snapshot; every other event leaves it as it was; the snapshot scale is positive once a pinch has begun on a positive scale |
| MapController.Accumulate | src/map/MapController.ts:86-91 | the result has the new impulse's sign; it is the sum with the carried velocity when the signs agree, and the impulse alone otherwise |
| MapController.WheelScaleVelocity | src/map/MapController.ts:40-47 | wheel zoom momentum is always within ±3 and has the notch's sign; a same-direction notch adds 1 up to the bound; any other notch gives just ±1 (0 for no movement) |
| MapController.PanVelocity | src/map/MapController.ts:83-92 | pan-end momentum has the flick's sign and is zero for a zero flick; it is carried + v·20/scale when the signs match and v·20/scale otherwise, with no clamp |
| MapController.PinchVelocity | src/map/MapController.ts:111-117 | pinch-end momentum has the sign of `ratio − 1` and is zero for ratio 1; it is `(ratio − 1)/(deltaTime/100)`, added to the snapshot when the signs agree, with no clamp |
| MapController.Wheel | src/map/MapController.ts:34-50 | one notch scales by 1.05 (scroll up), by 0.95 (down) or not at all; the scale stays positive; the new momentum satisfies `abs ≤ 3` and has sign `−sign(deltaY)`; the anchor is on the cursor; pan state and the toggle are unchanged |
| MapController.WheelFromOrigin | src/map/MapController.ts:34-50 | from scale 1 with zero offsets, a zoom-in notch at (100, 100) gives scale 1.05 and offset (100, 100) |
| MapController.SingleTap | src/map/MapController.ts:52-55 | a single tap re-anchors at the tap point and changes no field other than `offset*`/`outer*` |
| MapController.DoubleTap | src/map/MapController.ts:57-68 | a double tap flips the toggle, scales by 0.8 if it was set and 1.2 if not, sets momentum to −3 or +3 to match, and re-anchors at the tap point |
| MapController.Pan | src/map/MapController.ts:70-100 | `(start − x)·scale == deltaX` (and the same for y) against the snapshot in force; momentum is 0 except at `panend`, where it follows the flick's sign and is `PanVelocity` of the flick, the scale and the snapshot momentum, including after moves between start and end; scale, anchor and toggle are unchanged |
| MapController.Pinch | src/map/MapController.ts:102-121 | scale = snapshot scale × pinch ratio, where `pinchstart` snapshots the current scale; momentum is 0 except at `pinchend`, where it has the sign of `ratio − 1` and is `PinchVelocity` of the ratio, the elapsed time and the `pinchstart` snapshot momentum; anchored at the pinch centre; pan state unchanged |
| MapController.Scroll | src/map/MapController.ts:34-50 | a run of wheel events keeps the scale positive |
| MapController.WheelMomentumBuilds | src/map/MapController.ts:40-47 | `n` same-direction notches from momentum that is zero or already in that direction give magnitude `min(|v| + n, 3)` in that direction; this includes momentum above 3 left by an unclamped pinch, which the first notch lowers to 3 |
| MapController.WheelMomentumFromRest | src/map/MapController.ts:40-47 | from rest, same-direction notches give momentum 1, 2, 3, 3, … (times the direction) |
| MapController.ScrollMomentum | src/map/MapController.ts:34-50 | on the camera record, a one-way run of wheel events leaves the momentum `WheelMomentum` describes |
| MapController.ScrollZoom | src/map/MapController.ts:35-38 | a one-way run of `n` wheel events multiplies the scale by `(1 ± 0.05)^n` |
| MapController.DoubleTapTwice | src/map/MapController.ts:57-68 | two double taps scale by 0.96 overall, restore the toggle and reverse the momentum; at the same point the second tap leaves the anchor where the first put it |
| MapController.PanGesture | src/map/MapController.ts:70-100 | `panstart` shows zero momentum but snapshots the old momentum; the following `panend` adds its flick to that momentum when the signs match and replaces it otherwise; the final position is the start position minus drag/scale |
| MapController.PinchGesture | src/map/MapController.ts:102-121 | over pinchstart, pinchmove and pinchend, the final scale is the pre-gesture scale × the final ratio |
| MapController.MapController.constructor | src/map/MapController.ts:13-28 | the pan and pinch snapshots start at zero |
| MapController.MapController.UpdateOffset | src/map/MapController.ts:123-141 | the renderer's record becomes `ReAnchor` of the old one, from the anchor fields `AnchorPatch` computes merged under `newState` |
| MapController.MapController.OnMouseWheel | src/map/MapController.ts:34-50 | the renderer's record becomes `Wheel` of the old one, and the scale stays positive |
| MapController.MapController.OnViewSingleTap | src/map/MapController.ts:52-55 | the renderer's record becomes `SingleTap` of the old one |
| MapController.MapController.OnViewDoubleTap | src/map/MapController.ts:57-68 | the renderer's record becomes `DoubleTap` of the old one |
| MapController.MapController.OnViewPan | src/map/MapController.ts:70-100 | `panstart` overwrites the pan snapshot from the record; the record becomes `Pan` of the old one; the pinch snapshot is untouched |
| MapController.MapController.OnViewPinch | src/map/MapController.ts:102-121 | `pinchstart` overwrites the pinch snapshot; the record becomes `Pinch` of the old one; the scale stays positive |
| CircleCard.FadeSpan | src/components/CircleCard/index.tsx:143 | the fade span plus the preview strip and the navbar make up the container's height |
| CircleCard.HiddenThreshold | src/components/CircleCard/index.tsx:113-118 | the hiding threshold lies half the preview strip beyond the fade span, so strictly past the peek position when the preview has height |
| CircleCard.TargetBottom | src/components/CircleCard/index.tsx:80-85 | hidden is `−containerHeight`, the peek position is exactly minus the fade span (where the overlay is clear), and pulled is 0; with non-negative heights the target is never above fully open |
| CircleCard.Opacity | src/components/CircleCard/index.tsx:142-144 | the overlay opacity is always in [0, 1]; it is 1 when fully open, fades linearly over the fade span, and is 0 beyond it |
| CircleCard.NextBottom | src/components/CircleCard/index.tsx:135-137 | a requested position above fully open (`bottom > 0`) leaves the sheet where it is, so `currentBottom ≤ 0` is preserved |
| CircleCard.PanEndRelease | src/components/CircleCard/index.tsx:95-126 | exact conditions for each outcome. Pulled: an upward or zero flick, or else an upward long drag. Tabbed: pulled, and a downward flick or a downward long drag short of the hiding threshold. Hidden: a downward flick while not pulled, or else a release past the hiding threshold. `wasPulled` is set true only on pulled, cleared on tabbed and on slow hiding, and otherwise untouched |
| CircleCard.SlowReleaseAtPeekStays | src/components/CircleCard/index.tsx:80-86 | an unpulled sheet released slowly at its peek position fires nothing (preview height > 0) |
| CircleCard.SlowReleaseAtHiddenHides | src/components/CircleCard/index.tsx:80-82 | a sheet released slowly at the fully hidden position fires `onCardHidden` |
| CircleCard.CircleCard.constructor | src/components/CircleCard/index.tsx:48-53 | the pan state starts at zero, not pulled and not pulling |
| CircleCard.CircleCard.UpdateContainerPosition | src/components/CircleCard/index.tsx:135-148 | `bottom > 0` is ignored; otherwise `currentBottom := bottom` and the overlay opacity becomes `Opacity(bottom)`; `currentBottom ≤ 0` and opacity ∈ [0, 1] are kept |
| CircleCard.CircleCard.UpdateCard | src/components/CircleCard/index.tsx:65-87 | `wasPulled := pulled` always; nothing moves while pulling or without a container; otherwise the sheet goes to `−containerHeight` (not shown), the peek position `−(container − navbar − preview)` (shown, not pulled) or 0 (pulled) |
| CircleCard.CircleCard.OnPanMove | src/components/CircleCard/index.tsx:89-133 | `panstart` sets `startBottom := currentBottom` and marks pulling; every non-end event requests `startBottom − deltaY`, which moves the sheet and sets the overlay to `Opacity` of that position unless it is above fully open; `panend` fires exactly the callback `PanEndRelease` chooses, updates `wasPulled` as it says, ends pulling and moves nothing |
| NavbarContainer.NavbarItems | src/containers/NavbarContainer.tsx:15-42 | three items (four when full screen), the first being the Map item with path "/" |
| NavbarContainer.FindIndexByPath | src/containers/NavbarContainer.tsx:44-53 | the result is a valid index; no earlier item has the path; it is the matching item when one exists and 0 otherwise; the selected item always has a path, so Refresh is never selected |

## Left out

- The renderer is not part of this model. This covers its drawing, its momentum-decay tick, any scale bounds and `render()`. It is reduced to a camera record with a merging `updateState`. `onWindowResize` only asks for a repaint and is not modelled.
- `presenter.toggleUi()` in the single-tap handler is an external side effect and is not modelled.
- Floating point is not modelled: NaN, infinities, negative zero and rounding. Numbers are exact reals. The double-tap pair therefore scales by exactly 0.96.
- MapController.MapController.OnViewPinch requires a positive pinch ratio. It also requires that a pinch began with `pinchstart`, because the initial snapshot scale is 0 and every handler divides by the scale. It requires `deltaTime > 0` at `pinchend`, where the code would produce NaN or an infinity.
- CircleCard.Opacity requires a non-zero fade span (`container − preview − navbar`). With a zero span the code divides by zero and writes NaN or a clamped infinity.
- CircleCard.CircleCard.OnPanMove passes the props and element heights as parameters. DOM reads (`clientHeight`, `window.innerHeight`), style writes and the Hammer.js wiring are left out. `setPulling` takes effect at once instead of on React's next render.
- The container's `bottom` style always equals `currentBottom`, so it is not a separate field. The bottom padding that `updateCard` sets for the navbar, the body's scroll reset and the rendered markup are not modelled.
- `PULL_DELTA_THRESHOLD` (80) is declared in the card component but never used, so it is not modelled.
- Navbar icons, the Refresh item's action and the rxjs subscription wiring are not modelled. The full-screen flag is a parameter.
- The other containers (app, card, page, search, snackbar), the entry points, the search form, the visibility button, the model type declarations and the build configuration have no computation of the kind modelled here, and are not modelled.
