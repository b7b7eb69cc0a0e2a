/** The map viewport controller: wheel, tap, double-tap, pan and pinch events become
    updates of the renderer's camera record. Each handler is a short formula followed by
    a merge into the record; the functions below state the camera record each handler
    leaves, and the class `MapController` performs them on a `Renderer.MapRenderer`. */
module MapController {
  import opened Common
  import opened Renderer

  /** Zoom change per wheel notch (a four-fold step for a double-tap). */
  const ScaleStep: real := 0.05
  /** Factor from the recognizer's pan-end velocity to pan momentum. */
  const VelocityMultiplier: real := 20.0
  /** Bound on the zoom momentum a wheel builds up (and a double-tap's momentum). */
  const MaxScaleVelocity: real := 3.0

  datatype WheelEvent = WheelEvent(deltaY: real, clientX: real, clientY: real)
  datatype TapEvent = TapEvent(centerX: real, centerY: real)

  /** 'panstart', 'panend', and every other pan event type, which all act alike. */
  datatype PanPhase = PanStart | PanMove | PanEnd
  datatype PanEvent = PanEvent(phase: PanPhase, deltaX: real, deltaY: real, velocityX: real, velocityY: real)

  /** 'pinchstart', 'pinchend', and every other pinch event type. */
  datatype PinchPhase = PinchStart | PinchMove | PinchEnd
  datatype PinchEvent = PinchEvent(phase: PinchPhase, scale: real, deltaTime: real, centerX: real, centerY: real)

  /** What the controller keeps from the camera record at the start of a pan. */
  datatype PanState = PanState(startX: real, startY: real, velocityX: real, velocityY: real)
  /** What the controller keeps from the camera record at the start of a pinch. */
  datatype PinchState = PinchState(startScale: real, scaleVelocity: real)

  /** A camera record whose zoom anchor sits exactly on the screen point (x, y). */
  predicate AnchoredAt(s: AppState, x: real, y: real)
  {
    s.offsetX + s.outerX == x && s.offsetY + s.outerY == y
  }

  /** True when a partial record leaves the anchor fields alone. */
  predicate KeepsAnchor(p: Patch)
  {
    p.offsetX.None? && p.offsetY.None? && p.outerX.None? && p.outerY.None?
  }

  /** True when two camera records agree on pan position and pan momentum. */
  predicate SamePan(a: AppState, b: AppState)
  {
    a.x == b.x && a.y == b.y && a.velocityX == b.velocityX && a.velocityY == b.velocityY
  }

  // ---------------------------------------------------------------------------
  // Re-anchoring (updateOffset)
  // ---------------------------------------------------------------------------

  /** The anchor fields `updateOffset` computes for the screen point (x, y), from the
      scale the record has before any new scale is written. */
  function AnchorPatch(s: AppState, x: real, y: real): (p: Patch)
    requires s.scale > 0.0
    ensures p.offsetX.Some? && p.offsetY.Some? && p.outerX.Some? && p.outerY.Some?
    ensures p.offsetX.value + p.outerX.value == x
    ensures p.offsetY.value + p.outerY.value == y
    ensures p.scale.None? && p.x.None? && p.y.None?
    ensures p.velocityX.None? && p.velocityY.None? && p.scaleVelocity.None? && p.zoomToggle.None?
  {
    var deltaX := (x - s.offsetX - s.outerX) / s.scale;
    var deltaY := (y - s.offsetY - s.outerY) / s.scale;
    var absDeltaScale := s.scale - 1.0;
    assert deltaX * s.scale == x - s.offsetX - s.outerX;
    assert deltaY * s.scale == y - s.offsetY - s.outerY;
    Empty.(offsetX := Some(s.offsetX + deltaX), offsetY := Some(s.offsetY + deltaY),
           outerX := Some(s.outerX + deltaX * absDeltaScale), outerY := Some(s.outerY + deltaY * absDeltaScale))
  }

  /** `updateOffset(x, y, newState)`: the anchor fields for (x, y) merged with `newState`,
      whose fields win, written into the camera record. */
  function ReAnchor(s: AppState, x: real, y: real, newState: Patch): (r: AppState)
    requires s.scale > 0.0
    ensures KeepsAnchor(newState) ==> AnchoredAt(r, x, y)
    ensures KeepsAnchor(newState) ==>
      && (r.offsetX - s.offsetX) * s.scale == x - s.offsetX - s.outerX
      && (r.offsetY - s.offsetY) * s.scale == y - s.offsetY - s.outerY
      && r.outerX - s.outerX == (r.offsetX - s.offsetX) * (s.scale - 1.0)
      && r.outerY - s.outerY == (r.offsetY - s.offsetY) * (s.scale - 1.0)
    ensures r.scale == Pick(newState.scale, s.scale)
    ensures r.x == Pick(newState.x, s.x) && r.y == Pick(newState.y, s.y)
    ensures r.velocityX == Pick(newState.velocityX, s.velocityX)
    ensures r.velocityY == Pick(newState.velocityY, s.velocityY)
    ensures r.scaleVelocity == Pick(newState.scaleVelocity, s.scaleVelocity)
    ensures r.zoomToggle == Pick(newState.zoomToggle, s.zoomToggle)
    ensures newState.offsetX.Some? ==> r.offsetX == newState.offsetX.value
    ensures newState.offsetY.Some? ==> r.offsetY == newState.offsetY.value
    ensures newState.outerX.Some? ==> r.outerX == newState.outerX.value
    ensures newState.outerY.Some? ==> r.outerY == newState.outerY.value
  {
    Apply(s, Merge(AnchorPatch(s, x, y), newState))
  }

  /** A record already anchored at (x, y) is left exactly as it is by re-anchoring
      there with nothing else to write. */
  lemma ReAnchorFixesAnchored(s: AppState, x: real, y: real)
    requires s.scale > 0.0 && AnchoredAt(s, x, y)
    ensures ReAnchor(s, x, y, Empty) == s
  {
    var p := AnchorPatch(s, x, y);
    assert (x - s.offsetX - s.outerX) / s.scale == 0.0;
    assert (y - s.offsetY - s.outerY) / s.scale == 0.0;
    assert p.offsetX.value == s.offsetX && p.outerX.value == s.outerX;
    assert p.offsetY.value == s.offsetY && p.outerY.value == s.outerY;
  }

  /** `updateOffset` is idempotent: re-anchoring a second time at the same point, with
      nothing else to write, changes nothing. */
  lemma ReAnchorIdempotent(s: AppState, x: real, y: real, newState: Patch)
    requires s.scale > 0.0 && KeepsAnchor(newState)
    requires Pick(newState.scale, s.scale) > 0.0
    ensures ReAnchor(ReAnchor(s, x, y, newState), x, y, Empty) == ReAnchor(s, x, y, newState)
  {
    ReAnchorFixesAnchored(ReAnchor(s, x, y, newState), x, y);
  }

  // ---------------------------------------------------------------------------
  // Momentum accumulation
  // ---------------------------------------------------------------------------

  /** A new impulse adds to the carried one when the two have the same sign; a
      reversal (or a stop) replaces it. */
  function Accumulate(carried: real, impulse: real): (r: real)
    ensures Sign(r) == Sign(impulse)
    ensures Abs(r) >= Abs(impulse)
    ensures Sign(carried) == Sign(impulse) ==> r - carried == impulse
    ensures Sign(carried) != Sign(impulse) ==> r == impulse
  {
    if Sign(impulse) == Sign(carried) then carried + impulse else impulse
  }

  /** The zoom momentum after one wheel notch in direction `d` (1 zooms in, -1 out,
      0 for a wheel event without vertical movement). */
  function WheelScaleVelocity(current: real, d: int): (v: real)
    requires -1 <= d <= 1
    ensures Abs(v) <= MaxScaleVelocity
    ensures d == 0 ==> v == 0.0
    ensures d != 0 ==> Sign(v) == d
    ensures d != 0 && Sign(current) == d ==> Abs(v) == Min(Abs(current) + 1.0, MaxScaleVelocity)
    ensures Sign(current) != d ==> v == d as real
  {
    var impulse := (MaxScaleVelocity / 3.0) * d as real;
    if Sign(impulse) == Sign(current) then
      var sum := current + impulse;
      if d > 0 then Min(sum, MaxScaleVelocity) else Max(sum, -MaxScaleVelocity)
    else
      impulse
  }

  /** Pan momentum for one axis at 'panend': the recognizer's velocity scaled to
      map units, accumulated onto the momentum carried from 'panstart'. */
  function PanVelocity(gesture: real, scale: real, carried: real): (v: real)
    requires scale > 0.0
    ensures Sign(v) == Sign(gesture)
    ensures gesture == 0.0 ==> v == 0.0
    ensures Sign(carried) == Sign(gesture) ==> (v - carried) * scale == gesture * VelocityMultiplier
    ensures Sign(carried) != Sign(gesture) ==> v * scale == gesture * VelocityMultiplier
  {
    var impulse := (gesture * VelocityMultiplier) / scale;
    assert impulse * scale == gesture * VelocityMultiplier;
    assert Sign(impulse) == Sign(gesture);
    Accumulate(carried, impulse)
  }

  /** Zoom momentum at 'pinchend': the change of the pinch ratio per 100 ms,
      accumulated onto the momentum carried from 'pinchstart'. */
  function PinchVelocity(ratio: real, deltaTime: real, carried: real): (v: real)
    requires deltaTime > 0.0
    ensures Sign(v) == Sign(ratio - 1.0)
    ensures ratio == 1.0 ==> v == 0.0
    ensures Sign(carried) == Sign(ratio - 1.0) ==> (v - carried) * deltaTime == (ratio - 1.0) * 100.0
    ensures Sign(carried) != Sign(ratio - 1.0) ==> v * deltaTime == (ratio - 1.0) * 100.0
  {
    var impulse := (ratio - 1.0) / (deltaTime / 100.0);
    assert impulse * deltaTime == (ratio - 1.0) * 100.0;
    assert Sign(impulse) == Sign(ratio - 1.0);
    Accumulate(carried, impulse)
  }

  // ---------------------------------------------------------------------------
  // Handlers, as the camera record they leave
  // ---------------------------------------------------------------------------

  /** Wheel direction: -sign(deltaY), so scrolling up zooms in. */
  function WheelDirection(evt: WheelEvent): int
  {
    -Sign(evt.deltaY)
  }

  /** What `onMouseWheel` hands to `updateOffset`. */
  function WheelPatch(s: AppState, evt: WheelEvent): Patch
  {
    var delta := WheelDirection(evt);
    var amount := ScaleStep * delta as real;
    Empty.(scale := Some(s.scale * (1.0 + amount)),
           scaleVelocity := Some(WheelScaleVelocity(s.scaleVelocity, delta)))
  }

  /** `onMouseWheel`: one notch zooms by 5% about the cursor and builds zoom momentum
      that never exceeds `MaxScaleVelocity`; pan state and the toggle are untouched. */
  function Wheel(s: AppState, evt: WheelEvent): (r: AppState)
    requires s.scale > 0.0
    ensures evt.deltaY < 0.0 ==> r.scale == s.scale * 1.05
    ensures evt.deltaY > 0.0 ==> r.scale == s.scale * 0.95
    ensures evt.deltaY == 0.0 ==> r.scale == s.scale && r.scaleVelocity == 0.0
    ensures r.scale > 0.0
    ensures Abs(r.scaleVelocity) <= MaxScaleVelocity
    ensures Sign(r.scaleVelocity) == -Sign(evt.deltaY)
    ensures r.scaleVelocity == WheelScaleVelocity(s.scaleVelocity, WheelDirection(evt))
    ensures AnchoredAt(r, evt.clientX, evt.clientY)
    ensures SamePan(r, s) && r.zoomToggle == s.zoomToggle
  {
    ReAnchor(s, evt.clientX, evt.clientY, WheelPatch(s, evt))
  }

  /** From the initial camera record, one zoom-in notch at (100, 100) gives scale 1.05
      and moves the anchor offset to (100, 100), since the old scale was 1. */
  lemma WheelFromOrigin(s: AppState, evt: WheelEvent)
    requires s.scale == 1.0 && s.offsetX == 0.0 && s.offsetY == 0.0 && s.outerX == 0.0 && s.outerY == 0.0
    requires evt.deltaY < 0.0 && evt.clientX == 100.0 && evt.clientY == 100.0
    ensures Wheel(s, evt).scale == 1.05
    ensures Wheel(s, evt).offsetX == 100.0 && Wheel(s, evt).offsetY == 100.0
    ensures Wheel(s, evt).outerX == 0.0 && Wheel(s, evt).outerY == 0.0
  {
  }

  /** `onViewSingleTap`: re-anchors at the tap point and changes nothing else. */
  function SingleTap(s: AppState, evt: TapEvent): (r: AppState)
    requires s.scale > 0.0
    ensures AnchoredAt(r, evt.centerX, evt.centerY)
    ensures r.(offsetX := s.offsetX, offsetY := s.offsetY, outerX := s.outerX, outerY := s.outerY) == s
  {
    ReAnchor(s, evt.centerX, evt.centerY, Empty)
  }

  /** What `onViewDoubleTap` hands to `updateOffset`. */
  function DoubleTapPatch(s: AppState): Patch
  {
    var toggle := s.zoomToggle;
    var delta := if toggle then -1.0 else 1.0;
    Empty.(scale := Some(s.scale * (1.0 + 4.0 * ScaleStep * delta)),
           scaleVelocity := Some(MaxScaleVelocity * delta),
           zoomToggle := Some(!toggle))
  }

  /** `onViewDoubleTap`: flips the toggle, zooming out by 20% when it was set and in by
      20% when it was not, with full zoom momentum in the same direction. */
  function DoubleTap(s: AppState, evt: TapEvent): (r: AppState)
    requires s.scale > 0.0
    ensures r.zoomToggle == !s.zoomToggle
    ensures r.scale == s.scale * (if s.zoomToggle then 0.8 else 1.2)
    ensures r.scaleVelocity == (if s.zoomToggle then -MaxScaleVelocity else MaxScaleVelocity)
    ensures r.scale > 0.0
    ensures AnchoredAt(r, evt.centerX, evt.centerY)
    ensures SamePan(r, s)
  {
    ReAnchor(s, evt.centerX, evt.centerY, DoubleTapPatch(s))
  }

  /** The pan snapshot after an event: taken from the camera record on 'panstart',
      kept otherwise. */
  function PanSnapshot(s: AppState, ps: PanState, evt: PanEvent): (snap: PanState)
    ensures evt.phase == PanStart ==>
      snap.startX == s.x && snap.startY == s.y && snap.velocityX == s.velocityX && snap.velocityY == s.velocityY
    ensures evt.phase != PanStart ==> snap == ps
  {
    if evt.phase == PanStart then PanState(s.x, s.y, s.velocityX, s.velocityY) else ps
  }

  /** What `onViewPan` hands to `updateState`, given the snapshot in force. */
  function PanPatch(s: AppState, snap: PanState, evt: PanEvent): Patch
    requires s.scale > 0.0
  {
    var velocityX := if evt.phase == PanEnd then PanVelocity(evt.velocityX, s.scale, snap.velocityX) else 0.0;
    var velocityY := if evt.phase == PanEnd then PanVelocity(evt.velocityY, s.scale, snap.velocityY) else 0.0;
    Empty.(x := Some(snap.startX - evt.deltaX / s.scale), y := Some(snap.startY - evt.deltaY / s.scale),
           velocityX := Some(velocityX), velocityY := Some(velocityY))
  }

  /** `onViewPan`: the pan position trails the snapshot by the screen drag divided by the
      scale; momentum is zero until 'panend', where it follows the flick. */
  function Pan(s: AppState, ps: PanState, evt: PanEvent): (r: AppState)
    requires s.scale > 0.0
    ensures (PanSnapshot(s, ps, evt).startX - r.x) * s.scale == evt.deltaX
    ensures (PanSnapshot(s, ps, evt).startY - r.y) * s.scale == evt.deltaY
    ensures evt.phase != PanEnd ==> r.velocityX == 0.0 && r.velocityY == 0.0
    ensures evt.phase == PanEnd ==> Sign(r.velocityX) == Sign(evt.velocityX) && Sign(r.velocityY) == Sign(evt.velocityY)
    ensures evt.phase == PanEnd ==>
      && r.velocityX == PanVelocity(evt.velocityX, s.scale, PanSnapshot(s, ps, evt).velocityX)
      && r.velocityY == PanVelocity(evt.velocityY, s.scale, PanSnapshot(s, ps, evt).velocityY)
    ensures r.scale == s.scale && r.scaleVelocity == s.scaleVelocity && r.zoomToggle == s.zoomToggle
    ensures r.offsetX == s.offsetX && r.offsetY == s.offsetY && r.outerX == s.outerX && r.outerY == s.outerY
  {
    var snap := PanSnapshot(s, ps, evt);
    assert (evt.deltaX / s.scale) * s.scale == evt.deltaX;
    assert (evt.deltaY / s.scale) * s.scale == evt.deltaY;
    Apply(s, PanPatch(s, snap, evt))
  }

  /** The pinch snapshot after an event: taken on 'pinchstart', kept otherwise. */
  function PinchSnapshot(s: AppState, ps: PinchState, evt: PinchEvent): (snap: PinchState)
    ensures evt.phase == PinchStart ==> snap.startScale == s.scale && snap.scaleVelocity == s.scaleVelocity
    ensures evt.phase != PinchStart ==> snap == ps
    ensures s.scale > 0.0 && (evt.phase == PinchStart || ps.startScale > 0.0) ==> snap.startScale > 0.0
  {
    if evt.phase == PinchStart then PinchState(s.scale, s.scaleVelocity) else ps
  }

  /** What `onViewPinch` hands to `updateOffset`, given the snapshot in force. */
  function PinchPatch(snap: PinchState, evt: PinchEvent): Patch
    requires evt.phase == PinchEnd ==> evt.deltaTime > 0.0
  {
    var scaleVelocity := if evt.phase == PinchEnd then PinchVelocity(evt.scale, evt.deltaTime, snap.scaleVelocity) else 0.0;
    Empty.(scale := Some(snap.startScale * evt.scale), scaleVelocity := Some(scaleVelocity))
  }

  /** `onViewPinch`: the scale is the snapshot scale times the pinch ratio, anchored at
      the pinch centre; zoom momentum is zero until 'pinchend'. */
  function Pinch(s: AppState, ps: PinchState, evt: PinchEvent): (r: AppState)
    requires s.scale > 0.0
    requires evt.phase == PinchEnd ==> evt.deltaTime > 0.0
    ensures r.scale == PinchSnapshot(s, ps, evt).startScale * evt.scale
    ensures evt.phase == PinchStart ==> r.scale == s.scale * evt.scale
    ensures evt.phase != PinchEnd ==> r.scaleVelocity == 0.0
    ensures evt.phase == PinchEnd ==> Sign(r.scaleVelocity) == Sign(evt.scale - 1.0)
    ensures evt.phase == PinchEnd ==>
      r.scaleVelocity == PinchVelocity(evt.scale, evt.deltaTime, PinchSnapshot(s, ps, evt).scaleVelocity)
    ensures AnchoredAt(r, evt.centerX, evt.centerY)
    ensures SamePan(r, s) && r.zoomToggle == s.zoomToggle
  {
    ReAnchor(s, evt.centerX, evt.centerY, PinchPatch(PinchSnapshot(s, ps, evt), evt))
  }

  // ---------------------------------------------------------------------------
  // Properties over several events
  // ---------------------------------------------------------------------------

  /** The zoom momentum after `n` wheel notches in direction `d`, starting from `v`. */
  function WheelMomentum(v: real, d: int, n: nat): real
    requires -1 <= d <= 1
    decreases n
  {
    if n == 0 then v else WheelMomentum(WheelScaleVelocity(v, d), d, n - 1)
  }

  /** Notches in one direction, from momentum that is zero or already in that direction,
      add one unit of momentum each until the bound is reached, so from rest the momentum
      runs 1, 2, 3, 3, ...; a larger momentum left by a pinch drops to the bound at once. */
  lemma {:induction false} WheelMomentumBuilds(v: real, d: int, n: nat)
    requires d == 1 || d == -1
    requires Sign(v) != -d
    ensures n > 0 ==> Sign(WheelMomentum(v, d, n)) == d
    ensures n > 0 ==> Abs(WheelMomentum(v, d, n)) == Min(Abs(v) + n as real, MaxScaleVelocity)
    decreases n
  {
    if n > 0 {
      var v1 := WheelScaleVelocity(v, d);
      assert Abs(v1) == Min(Abs(v) + 1.0, MaxScaleVelocity) by {
        if v == 0.0 {
          assert Sign(v) != d;
        } else {
          assert Sign(v) == d;
        }
      }
      WheelMomentumBuilds(v1, d, n - 1);
      if n > 1 {
        assert Min(Min(Abs(v) + 1.0, MaxScaleVelocity) + (n - 1) as real, MaxScaleVelocity)
            == Min(Abs(v) + n as real, MaxScaleVelocity);
      }
    }
  }

  /** From rest, the first three notches in one direction give momentum 1, 2 and 3,
      and every later one stays at the bound 3. */
  lemma WheelMomentumFromRest(d: int, n: nat)
    requires d == 1 || d == -1
    ensures WheelMomentum(0.0, d, n) == d as real * Min(n as real, MaxScaleVelocity)
  {
    WheelMomentumBuilds(0.0, d, n);
    if n > 0 {
      var w := WheelMomentum(0.0, d, n);
      if d == 1 {
        assert w == Abs(w);
      } else {
        assert w == -Abs(w);
      }
    }
  }

  /** The camera record after a run of wheel events. */
  function Scroll(s: AppState, evts: seq<WheelEvent>): (r: AppState)
    requires s.scale > 0.0
    ensures r.scale > 0.0
    decreases |evts|
  {
    if evts == [] then s else Scroll(Wheel(s, evts[0]), evts[1..])
  }

  /** Every event of a run scrolls in direction `d`. */
  predicate OneWay(evts: seq<WheelEvent>, d: int)
  {
    forall i | 0 <= i < |evts| :: WheelDirection(evts[i]) == d
  }

  /** The rest of a one-way run is one-way too. */
  lemma OneWayTail(evts: seq<WheelEvent>, d: int)
    requires evts != [] && OneWay(evts, d)
    ensures WheelDirection(evts[0]) == d && OneWay(evts[1..], d)
  {
    var rest := evts[1..];
    forall i | 0 <= i < |rest| ensures WheelDirection(rest[i]) == d {
      assert rest[i] == evts[i + 1];
    }
  }

  /** A run of wheel events all in direction `d` leaves the momentum `WheelMomentum`
      gives. */
  lemma {:induction false} ScrollMomentum(s: AppState, evts: seq<WheelEvent>, d: int)
    requires s.scale > 0.0
    requires d == 1 || d == -1
    requires OneWay(evts, d)
    ensures Scroll(s, evts).scaleVelocity == WheelMomentum(s.scaleVelocity, d, |evts|)
    decreases |evts|
  {
    if evts != [] {
      OneWayTail(evts, d);
      ScrollMomentum(Wheel(s, evts[0]), evts[1..], d);
    }
  }

  /** `scale` multiplied by `k`, `n` times over. */
  function ZoomedBy(scale: real, k: real, n: nat): real
    decreases n
  {
    if n == 0 then scale else ZoomedBy(scale * k, k, n - 1)
  }

  /** Multiplying by `k` `n` times is multiplying by the `n`-th power of `k`. */
  lemma {:induction false} ZoomedByPow(scale: real, k: real, n: nat)
    ensures ZoomedBy(scale, k, n) == scale * Pow(k, n)
    decreases n
  {
    if n > 0 {
      ZoomedByPow(scale * k, k, n - 1);
      assert (scale * k) * Pow(k, n - 1) == scale * (k * Pow(k, n - 1));
    }
  }

  /** One wheel event multiplies the scale by 1 + 0.05 times its direction. */
  lemma WheelZoomFactor(s: AppState, evt: WheelEvent)
    requires s.scale > 0.0
    ensures Wheel(s, evt).scale == s.scale * (1.0 + ScaleStep * WheelDirection(evt) as real)
  {
    assert Wheel(s, evt).scale == Pick(WheelPatch(s, evt).scale, s.scale);
  }

  /** A one-way run multiplies the scale by the same factor at every event. */
  lemma {:induction false} ScrollZoomedBy(s: AppState, evts: seq<WheelEvent>, d: int)
    requires s.scale > 0.0
    requires d == 1 || d == -1
    requires OneWay(evts, d)
    ensures Scroll(s, evts).scale == ZoomedBy(s.scale, 1.0 + ScaleStep * d as real, |evts|)
    decreases |evts|
  {
    if evts != [] {
      OneWayTail(evts, d);
      WheelZoomFactor(s, evts[0]);
      ScrollZoomedBy(Wheel(s, evts[0]), evts[1..], d);
    }
  }

  /** A run of wheel events all in direction `d` multiplies the scale by 1 + 0.05 * d
      once per event. */
  lemma ScrollZoom(s: AppState, evts: seq<WheelEvent>, d: int)
    requires s.scale > 0.0
    requires d == 1 || d == -1
    requires OneWay(evts, d)
    ensures Scroll(s, evts).scale == s.scale * Pow(1.0 + ScaleStep * d as real, |evts|)
  {
    ScrollZoomedBy(s, evts, d);
    ZoomedByPow(s.scale, 1.0 + ScaleStep * d as real, |evts|);
  }

  /** Two double-taps in a row scale by 1.2 * 0.8 = 0.96, restore the toggle and leave
      the zoom momentum pointing the other way; at the same point the second tap keeps
      the anchor where the first put it. */
  lemma DoubleTapTwice(s: AppState, first: TapEvent, second: TapEvent)
    requires s.scale > 0.0
    ensures DoubleTap(DoubleTap(s, first), second).scale == s.scale * 0.96
    ensures DoubleTap(DoubleTap(s, first), second).zoomToggle == s.zoomToggle
    ensures DoubleTap(DoubleTap(s, first), second).scaleVelocity == -DoubleTap(s, first).scaleVelocity
    ensures first == second ==>
      var r1 := DoubleTap(s, first);
      var r2 := DoubleTap(r1, second);
      r2.offsetX == r1.offsetX && r2.offsetY == r1.offsetY && r2.outerX == r1.outerX && r2.outerY == r1.outerY
  {
    var r1 := DoubleTap(s, first);
    if first == second {
      var p := AnchorPatch(r1, second.centerX, second.centerY);
      assert (second.centerX - r1.offsetX - r1.outerX) / r1.scale == 0.0;
      assert (second.centerY - r1.offsetY - r1.outerY) / r1.scale == 0.0;
      assert p.offsetX.value == r1.offsetX && p.outerX.value == r1.outerX;
      assert p.offsetY.value == r1.offsetY && p.outerY.value == r1.outerY;
    }
  }

  /** A whole pan gesture: 'panstart' zeroes the momentum on screen but keeps it in the
      snapshot, so a 'panend' flick in the same direction adds to the momentum the map
      had before the gesture, and a reversed flick replaces it; the final position is the
      pre-gesture position moved by the total drag. */
  lemma PanGesture(s: AppState, ps: PanState, start: PanEvent, end: PanEvent)
    requires s.scale > 0.0
    requires start.phase == PanStart && end.phase == PanEnd
    ensures Pan(s, ps, start).velocityX == 0.0 && Pan(s, ps, start).velocityY == 0.0
    ensures
      var r := Pan(Pan(s, ps, start), PanSnapshot(s, ps, start), end);
      && (s.x - r.x) * s.scale == end.deltaX
      && (s.y - r.y) * s.scale == end.deltaY
      && (Sign(s.velocityX) == Sign(end.velocityX) ==> (r.velocityX - s.velocityX) * s.scale == end.velocityX * VelocityMultiplier)
      && (Sign(s.velocityX) != Sign(end.velocityX) ==> r.velocityX * s.scale == end.velocityX * VelocityMultiplier)
      && (Sign(s.velocityY) == Sign(end.velocityY) ==> (r.velocityY - s.velocityY) * s.scale == end.velocityY * VelocityMultiplier)
      && (Sign(s.velocityY) != Sign(end.velocityY) ==> r.velocityY * s.scale == end.velocityY * VelocityMultiplier)
  {
    var s1 := Pan(s, ps, start);
    var snap := PanSnapshot(s, ps, start);
    assert s1.scale == s.scale;
    assert PanSnapshot(s1, snap, end) == snap;
    assert snap == PanState(s.x, s.y, s.velocityX, s.velocityY);
  }

  /** A whole pinch gesture: the final scale is the scale before the gesture times the
      final pinch ratio, whatever ratios the intermediate events reported. */
  lemma PinchGesture(s: AppState, ps: PinchState, start: PinchEvent, move: PinchEvent, end: PinchEvent)
    requires s.scale > 0.0
    requires start.phase == PinchStart && move.phase == PinchMove && end.phase == PinchEnd
    requires start.scale > 0.0 && move.scale > 0.0 && end.deltaTime > 0.0
    ensures
      var snap := PinchSnapshot(s, ps, start);
      var s1 := Pinch(s, ps, start);
      var s2 := Pinch(s1, snap, move);
      var r := Pinch(s2, snap, end);
      r.scale == s.scale * end.scale
  {
    var snap := PinchSnapshot(s, ps, start);
    var s1 := Pinch(s, ps, start);
    assert s1.scale == s.scale * start.scale;
    var s2 := Pinch(s1, snap, move);
    assert PinchSnapshot(s1, snap, move) == snap;
    assert PinchSnapshot(s2, snap, end) == snap;
  }

  // ---------------------------------------------------------------------------
  // The controller object
  // ---------------------------------------------------------------------------

  /** The controller: the renderer it drives and the gesture snapshots it keeps. */
  class MapController {
    const renderer: MapRenderer
    var panState: PanState
    var pinchState: PinchState

    /** The camera record keeps a positive scale, which every handler divides by. */
    ghost predicate Valid()
      reads this, renderer
    {
      renderer.state.scale > 0.0
    }

    constructor (renderer: MapRenderer)
      requires renderer.state.scale > 0.0
      ensures this.renderer == renderer && Valid()
      ensures panState == PanState(0.0, 0.0, 0.0, 0.0)
      ensures pinchState == PinchState(0.0, 0.0)
    {
      this.renderer := renderer;
      panState := PanState(0.0, 0.0, 0.0, 0.0);
      pinchState := PinchState(0.0, 0.0);
    }

    /** `updateOffset`: re-anchors at (x, y) and writes `newState` on top. */
    method UpdateOffset(x: real, y: real, newState: Patch)
      requires Valid()
      modifies renderer
      ensures renderer.state == ReAnchor(old(renderer.state), x, y, newState)
    {
      var state := renderer.state;
      var updatedState := AnchorPatch(state, x, y);
      renderer.UpdateState(Merge(updatedState, newState));
    }

    method OnMouseWheel(evt: WheelEvent)
      requires Valid()
      modifies renderer
      ensures Valid()
      ensures renderer.state == Wheel(old(renderer.state), evt)
    {
      var state := renderer.state;
      var delta := -Sign(evt.deltaY);
      var amount := ScaleStep * delta as real;
      var scale := state.scale * (1.0 + amount);
      var scaleVelocity := WheelScaleVelocity(state.scaleVelocity, delta);
      UpdateOffset(evt.clientX, evt.clientY, Empty.(scale := Some(scale), scaleVelocity := Some(scaleVelocity)));
    }

    method OnViewSingleTap(evt: TapEvent)
      requires Valid()
      modifies renderer
      ensures Valid()
      ensures renderer.state == SingleTap(old(renderer.state), evt)
    {
      UpdateOffset(evt.centerX, evt.centerY, Empty);
    }

    method OnViewDoubleTap(evt: TapEvent)
      requires Valid()
      modifies renderer
      ensures Valid()
      ensures renderer.state == DoubleTap(old(renderer.state), evt)
    {
      var state := renderer.state;
      var toggle := state.zoomToggle;
      var delta := if toggle then -1.0 else 1.0;
      var scale := state.scale * (1.0 + 4.0 * ScaleStep * delta);
      var scaleVelocity := MaxScaleVelocity * delta;
      UpdateOffset(evt.centerX, evt.centerY,
                   Empty.(scale := Some(scale), scaleVelocity := Some(scaleVelocity), zoomToggle := Some(!toggle)));
    }

    method OnViewPan(evt: PanEvent)
      requires Valid()
      modifies this`panState, renderer
      ensures Valid()
      ensures panState == PanSnapshot(old(renderer.state), old(panState), evt)
      ensures renderer.state == Pan(old(renderer.state), old(panState), evt)
    {
      var state := renderer.state;
      if evt.phase == PanStart {
        panState := PanState(state.x, state.y, state.velocityX, state.velocityY);
      }
      var velocityX := 0.0;
      var velocityY := 0.0;
      if evt.phase == PanEnd {
        velocityX := PanVelocity(evt.velocityX, state.scale, panState.velocityX);
        velocityY := PanVelocity(evt.velocityY, state.scale, panState.velocityY);
      }
      renderer.UpdateState(Empty.(x := Some(panState.startX - evt.deltaX / state.scale),
                                  y := Some(panState.startY - evt.deltaY / state.scale),
                                  velocityX := Some(velocityX), velocityY := Some(velocityY)));
    }

    /** A pinch ratio is positive, a pinch starts with 'pinchstart' (before it the
        snapshot scale is 0) and its 'pinchend' comes a positive time after its start. */
    method OnViewPinch(evt: PinchEvent)
      requires Valid()
      requires evt.scale > 0.0
      requires evt.phase == PinchStart || pinchState.startScale > 0.0
      requires evt.phase == PinchEnd ==> evt.deltaTime > 0.0
      modifies this`pinchState, renderer
      ensures Valid() && pinchState.startScale > 0.0
      ensures pinchState == PinchSnapshot(old(renderer.state), old(pinchState), evt)
      ensures renderer.state == Pinch(old(renderer.state), old(pinchState), evt)
    {
      var state := renderer.state;
      if evt.phase == PinchStart {
        pinchState := PinchState(state.scale, state.scaleVelocity);
      }
      var scaleVelocity := 0.0;
      if evt.phase == PinchEnd {
        scaleVelocity := PinchVelocity(evt.scale, evt.deltaTime, pinchState.scaleVelocity);
      }
      var scale := pinchState.startScale * evt.scale;
      UpdateOffset(evt.centerX, evt.centerY, Empty.(scale := Some(scale), scaleVelocity := Some(scaleVelocity)));
    }
  }
}
