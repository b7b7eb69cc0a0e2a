/** The part of the map renderer the controller relies on: the camera record it owns
    (`AppState`), partial records (`Patch`, the `Partial<AppState>` of the controller),
    lodash's `merge` of two partial records and the renderer's `updateState`, which writes
    the fields a partial record carries and leaves every other field as it was. The
    renderer's drawing, momentum decay and any scale bounds are not part of this model. */
module Renderer {
  import opened Common

  /** The camera record: zoom factor, pan position, zoom anchor offset and its correction,
      pan and zoom momentum, and the double-tap zoom toggle. */
  datatype AppState = AppState(
    scale: real,
    x: real, y: real,
    offsetX: real, offsetY: real,
    outerX: real, outerY: real,
    velocityX: real, velocityY: real,
    scaleVelocity: real,
    zoomToggle: bool)

  /** A partial camera record: `None` is a field left undefined. */
  datatype Patch = Patch(
    scale: Option<real>,
    x: Option<real>, y: Option<real>,
    offsetX: Option<real>, offsetY: Option<real>,
    outerX: Option<real>, outerY: Option<real>,
    velocityX: Option<real>, velocityY: Option<real>,
    scaleVelocity: Option<real>,
    zoomToggle: Option<bool>)

  /** The partial record that sets nothing (an absent `newState`). */
  const Empty: Patch := Patch(None, None, None, None, None, None, None, None, None, None, None)

  /** The field of whichever partial record defines it, the later one first. */
  function Over<T>(first: Option<T>, later: Option<T>): Option<T>
  {
    if later.Some? then later else first
  }

  /** lodash `merge(first, later)` on flat partial records: a field defined in `later`
      wins, an undefined one keeps the value of `first`. */
  function Merge(first: Patch, later: Patch): (r: Patch)
    ensures later == Empty ==> r == first
    ensures first == Empty ==> r == later
  {
    Patch(
      Over(first.scale, later.scale),
      Over(first.x, later.x), Over(first.y, later.y),
      Over(first.offsetX, later.offsetX), Over(first.offsetY, later.offsetY),
      Over(first.outerX, later.outerX), Over(first.outerY, later.outerY),
      Over(first.velocityX, later.velocityX), Over(first.velocityY, later.velocityY),
      Over(first.scaleVelocity, later.scaleVelocity),
      Over(first.zoomToggle, later.zoomToggle))
  }

  /** The camera record after `updateState(p)`: every field `p` defines is written,
      every other field keeps its value. */
  function Apply(s: AppState, p: Patch): (r: AppState)
    ensures p == Empty ==> r == s
    ensures p.scale.Some? ==> r.scale == p.scale.value
    ensures p.scale.None? ==> r.scale == s.scale
    ensures p.zoomToggle.Some? ==> r.zoomToggle == p.zoomToggle.value
    ensures p.zoomToggle.None? ==> r.zoomToggle == s.zoomToggle
    ensures r.x == Pick(p.x, s.x) && r.y == Pick(p.y, s.y)
    ensures r.offsetX == Pick(p.offsetX, s.offsetX) && r.offsetY == Pick(p.offsetY, s.offsetY)
    ensures r.outerX == Pick(p.outerX, s.outerX) && r.outerY == Pick(p.outerY, s.outerY)
    ensures r.velocityX == Pick(p.velocityX, s.velocityX) && r.velocityY == Pick(p.velocityY, s.velocityY)
    ensures r.scaleVelocity == Pick(p.scaleVelocity, s.scaleVelocity)
  {
    AppState(
      Pick(p.scale, s.scale),
      Pick(p.x, s.x), Pick(p.y, s.y),
      Pick(p.offsetX, s.offsetX), Pick(p.offsetY, s.offsetY),
      Pick(p.outerX, s.outerX), Pick(p.outerY, s.outerY),
      Pick(p.velocityX, s.velocityX), Pick(p.velocityY, s.velocityY),
      Pick(p.scaleVelocity, s.scaleVelocity),
      Pick(p.zoomToggle, s.zoomToggle))
  }

  /** Writing a merged partial record is the same as writing the two records one after
      the other, the later one last. */
  lemma ApplyMerge(s: AppState, first: Patch, later: Patch)
    ensures Apply(s, Merge(first, later)) == Apply(Apply(s, first), later)
  {
  }

  /** The renderer, reduced to the camera record it owns. */
  class MapRenderer {
    var state: AppState

    constructor (initial: AppState)
      ensures state == initial
    {
      state := initial;
    }

    /** `updateState(partial)`: merges `p` into the camera record. */
    method UpdateState(p: Patch)
      modifies this
      ensures state == Apply(old(state), p)
    {
      state := Apply(state, p);
    }
  }
}
