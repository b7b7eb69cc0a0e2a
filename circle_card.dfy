/** The bottom sheet that shows a circle's details. Dragging its header moves the sheet;
    releasing it decides, by thresholds on the flick velocity, the drag distance and the
    sheet's position, whether the sheet is pulled open, tabbed back to its peek position,
    hidden, or left to the props to place. Element heights are parameters (0 for an
    element that is not on the page); the callbacks are returned as a `Callback`. */
module CircleCard {
  import opened Common

  /** A flick at least this fast (`PULL_VELOCITY_THRESHOLD`) counts. */
  const PullVelocityThreshold: real := 0.5
  /** Slack added to the hiding threshold (`VISIBLE_HEIGHT_THRESHOLD`). */
  const VisibleHeightThreshold: real := 0.0

  /** The props the pan logic reads. */
  datatype CardProps = CardProps(shown: bool, pulled: bool)

  /** Heights of the sheet's container, the navigation bar, the sheet's preview strip,
      and the window. */
  datatype Layout = Layout(containerHeight: real, navbarHeight: real, previewHeight: real, windowHeight: real)

  /** 'panstart', 'panend', and the 'panup'/'pandown' moves in between. */
  datatype PanPhase = PanStart | PanMove | PanEnd
  datatype CardPanEvent = CardPanEvent(phase: PanPhase, deltaY: real, velocityY: real)

  /** Which of `onCardPulled`, `onCardTabbed`, `onCardHidden` a release fires, if any. */
  datatype Callback = NoCallback | CardPulled | CardTabbed | CardHidden

  /** The callback a release fires and what it writes to `wasPulled` (None: nothing). */
  datatype Release = Release(callback: Callback, wasPulled: Option<bool>)

  /** The drag distance over which the overlay fades from opaque to clear: what is left
      of the container once the preview strip and the navigation bar are taken out. */
  function FadeSpan(l: Layout): (span: real)
    ensures span + l.previewHeight + l.navbarHeight == l.containerHeight
  {
    l.containerHeight - l.previewHeight - l.navbarHeight
  }

  /** How far below fully open the sheet must be for a release to hide it: half the
      preview strip further down than the fade span, so past the peek position. */
  function HiddenThreshold(l: Layout): (t: real)
    ensures t == FadeSpan(l) + l.previewHeight / 2.0 + VisibleHeightThreshold
    ensures l.previewHeight > 0.0 ==> t > FadeSpan(l)
  {
    l.containerHeight - l.navbarHeight - l.previewHeight / 2.0 + VisibleHeightThreshold
  }

  /** The release was a flick. */
  predicate Flick(evt: CardPanEvent)
  {
    Abs(evt.velocityY) >= PullVelocityThreshold
  }

  /** The drag covered at least half the window. */
  predicate LongDrag(evt: CardPanEvent, l: Layout)
  {
    Abs(evt.deltaY) >= l.windowHeight / 2.0
  }

  /** The overlay's opacity for a sheet at `bottom`: opaque when fully open, fading
      linearly over `FadeSpan`, and never outside [0, 1]. */
  function Opacity(bottom: real, l: Layout): (o: real)
    requires FadeSpan(l) != 0.0
    ensures 0.0 <= o <= 1.0
    ensures bottom == 0.0 ==> o == 1.0
    ensures FadeSpan(l) > 0.0 && -FadeSpan(l) <= bottom <= 0.0 ==> o * FadeSpan(l) == FadeSpan(l) + bottom
    ensures FadeSpan(l) > 0.0 && bottom <= -FadeSpan(l) ==> o == 0.0
  {
    var span := FadeSpan(l);
    var currentOpacity := 1.0 + bottom / span;
    assert (bottom / span) * span == bottom;
    Min(Max(0.0, currentOpacity), 1.0)
  }

  /** Where the sheet is after asking for `bottom`: a position above fully open is
      ignored, so a sheet that is never above fully open stays so. */
  function NextBottom(current: real, bottom: real): (r: real)
    ensures current <= 0.0 ==> r <= 0.0
    ensures bottom <= 0.0 ==> r == bottom
    ensures bottom > 0.0 ==> r == current
  {
    if bottom > 0.0 then current else bottom
  }

  /** The position `updateCard` asks for: fully hidden when not shown, the peek position
      (preview strip above the navigation bar) when shown but not pulled, fully open
      otherwise. */
  function TargetBottom(props: CardProps, l: Layout): (bottom: real)
    ensures !props.shown ==> bottom == -l.containerHeight
    ensures props.shown && !props.pulled ==> bottom == -FadeSpan(l)
    ensures props.shown && props.pulled ==> bottom == 0.0
    ensures l.containerHeight >= 0.0 && FadeSpan(l) >= 0.0 ==> bottom <= 0.0
  {
    if !props.shown then -l.containerHeight
    else if props.shown && !props.pulled then -(l.containerHeight - l.navbarHeight - l.previewHeight)
    else 0.0
  }

  /** What a 'panend' does, given the `pulled` prop and the sheet's position. */
  function PanEndRelease(pulled: bool, evt: CardPanEvent, currentBottom: real, l: Layout): (r: Release)
    ensures r.callback == CardPulled <==>
      (Flick(evt) && evt.velocityY <= 0.0) || (!Flick(evt) && LongDrag(evt, l) && evt.deltaY <= 0.0)
    ensures r.callback == CardTabbed <==>
      pulled && ((Flick(evt) && evt.velocityY > 0.0)
                 || (!Flick(evt) && LongDrag(evt, l) && evt.deltaY > 0.0 && -currentBottom < HiddenThreshold(l)))
    ensures r.callback == CardHidden <==>
      (Flick(evt) && evt.velocityY > 0.0 && !pulled)
      || (!Flick(evt) && !(LongDrag(evt, l) && evt.deltaY <= 0.0) && -currentBottom >= HiddenThreshold(l))
    ensures r.callback == CardPulled <==> r.wasPulled == Some(true)
    ensures r.callback == CardTabbed ==> r.wasPulled == Some(false)
    ensures r.callback == CardHidden ==> r.wasPulled == (if Flick(evt) then None else Some(false))
    ensures r.callback == NoCallback ==> r.wasPulled == None
  {
    var deltaThreshold := Abs(evt.deltaY) >= l.windowHeight / 2.0;
    var velocityThreshold := Abs(evt.velocityY) >= PullVelocityThreshold;
    var reachThreshold := deltaThreshold || velocityThreshold;
    if velocityThreshold && Sign(evt.velocityY) <= 0 then
      Release(CardPulled, Some(true))
    else if velocityThreshold && Sign(evt.velocityY) > 0 then
      if pulled then Release(CardTabbed, Some(false)) else Release(CardHidden, None)
    else if deltaThreshold && Sign(evt.deltaY) <= 0 then
      Release(CardPulled, Some(true))
    else if -currentBottom >= HiddenThreshold(l) then
      Release(CardHidden, Some(false))
    else if pulled && reachThreshold then
      Release(CardTabbed, Some(false))
    else
      Release(NoCallback, None)
  }

  /** A slow, short drag released at the peek position of an unpulled sheet fires
      nothing: the peek position lies above the hiding threshold by half the preview. */
  lemma SlowReleaseAtPeekStays(evt: CardPanEvent, l: Layout)
    requires l.previewHeight > 0.0
    requires !Flick(evt) && !LongDrag(evt, l)
    ensures PanEndRelease(false, evt, TargetBottom(CardProps(true, false), l), l).callback == NoCallback
  {
  }

  /** A slow, short drag released at the fully hidden position hides the sheet. */
  lemma SlowReleaseAtHiddenHides(evt: CardPanEvent, l: Layout, pulled: bool)
    requires l.previewHeight >= 0.0 && l.navbarHeight >= 0.0
    requires !Flick(evt) && !LongDrag(evt, l)
    ensures PanEndRelease(pulled, evt, TargetBottom(CardProps(false, pulled), l), l).callback == CardHidden
  {
  }

  /** The sheet's pan and display state. `opacity` is the overlay's opacity style
      (None until first written); the container's `bottom` style is always written
      together with `currentBottom` and equals it. */
  class CircleCard {
    var deltaY: real
    var startBottom: real
    var currentBottom: real
    var wasPulled: bool
    var pulling: bool
    var opacity: Option<real>

    /** The sheet is never above fully open and the overlay's opacity is in [0, 1]. */
    ghost predicate Valid()
      reads this
    {
      currentBottom <= 0.0 && (opacity.Some? ==> 0.0 <= opacity.value <= 1.0)
    }

    constructor ()
      ensures Valid()
      ensures deltaY == 0.0 && startBottom == 0.0 && currentBottom == 0.0
      ensures !wasPulled && !pulling && opacity == None
    {
      deltaY, startBottom, currentBottom := 0.0, 0.0, 0.0;
      wasPulled, pulling := false, false;
      opacity := None;
    }

    /** `updateContainerPosition`: moves the sheet to `bottom` and sets the overlay's
        opacity, unless `bottom` is above fully open. */
    method UpdateContainerPosition(bottom: real, l: Layout)
      requires Valid()
      requires bottom <= 0.0 ==> FadeSpan(l) != 0.0
      modifies this`currentBottom, this`opacity
      ensures Valid()
      ensures currentBottom == NextBottom(old(currentBottom), bottom)
      ensures opacity == if bottom > 0.0 then old(opacity) else Some(Opacity(bottom, l))
    {
      if bottom > 0.0 {
        return;
      }
      opacity := Some(Opacity(bottom, l));
      currentBottom := bottom;
    }

    /** `updateCard`: records the `pulled` prop, then, when the container is on the page
        and no drag is under way, moves the sheet to the position the props ask for. */
    method UpdateCard(props: CardProps, l: Layout, hasContainer: bool)
      requires Valid()
      requires hasContainer && !pulling && TargetBottom(props, l) <= 0.0 ==> FadeSpan(l) != 0.0
      modifies this`wasPulled, this`currentBottom, this`opacity
      ensures Valid() && wasPulled == props.pulled
      ensures !hasContainer || pulling ==> currentBottom == old(currentBottom) && opacity == old(opacity)
      ensures hasContainer && !pulling ==>
        && currentBottom == NextBottom(old(currentBottom), TargetBottom(props, l))
        && opacity == if TargetBottom(props, l) > 0.0 then old(opacity) else Some(Opacity(TargetBottom(props, l), l))
    {
      wasPulled := props.pulled;
      if !hasContainer || pulling {
        return;
      }
      var bottom := 0.0;
      if !props.shown {
        bottom := -l.containerHeight;
      } else if props.shown && !props.pulled {
        bottom := -(l.containerHeight - l.navbarHeight - l.previewHeight);
      }
      UpdateContainerPosition(bottom, l);
    }

    /** `onPanMove`: 'panstart' takes the sheet's position as the drag origin and marks a
        drag under way; every event but 'panend' asks for the origin moved by the drag;
        'panend' fires the callback `PanEndRelease` chooses and ends the drag. */
    method OnPanMove(props: CardProps, l: Layout, evt: CardPanEvent) returns (fired: Callback)
      requires Valid()
      requires evt.phase != PanEnd && (if evt.phase == PanStart then currentBottom else startBottom) - evt.deltaY <= 0.0
               ==> FadeSpan(l) != 0.0
      modifies this
      ensures Valid()
      ensures evt.phase == PanEnd ==>
        var release := PanEndRelease(props.pulled, evt, old(currentBottom), l);
        && fired == release.callback
        && wasPulled == Pick(release.wasPulled, old(wasPulled))
        && !pulling
        && startBottom == old(startBottom) && currentBottom == old(currentBottom)
        && deltaY == old(deltaY) && opacity == old(opacity)
      ensures evt.phase != PanEnd ==>
        && fired == NoCallback
        && startBottom == (if evt.phase == PanStart then old(currentBottom) else old(startBottom))
        && deltaY == evt.deltaY
        && currentBottom == NextBottom(old(currentBottom), startBottom - evt.deltaY)
        && opacity == (if startBottom - evt.deltaY > 0.0 then old(opacity) else Some(Opacity(startBottom - evt.deltaY, l)))
        && pulling == (evt.phase == PanStart || old(pulling))
        && wasPulled == old(wasPulled)
    {
      if evt.phase == PanStart {
        startBottom := currentBottom;
        pulling := true;
      } else if evt.phase == PanEnd {
        var release := PanEndRelease(props.pulled, evt, currentBottom, l);
        if release.wasPulled.Some? {
          wasPulled := release.wasPulled.value;
        }
        fired := release.callback;
        pulling := false;
        return;
      }
      deltaY := evt.deltaY;
      var bottom := startBottom - evt.deltaY;
      UpdateContainerPosition(bottom, l);
      fired := NoCallback;
    }
  }
}
