/**
 * The swipe card's drag-end rule: a drag that ends past a distance or speed
 * threshold is reported as one swipe, checked up first, then left, then right.
 */
module Card {
  import opened Wrappers
  import opened Types

  /** Distance, in pixels, a drag must travel to count as a swipe. */
  const Threshold: real := 100.0
  /** Speed, in pixels per second, at which a flick counts as a swipe. */
  const FlickSpeed: real := 500.0

  /** A two-dimensional offset or velocity of the drag gesture (screen y grows downwards). */
  datatype Vector = Vector(x: real, y: real)

  predicate PastUp(offset: Vector, velocity: Vector) {
    offset.y < -Threshold || velocity.y < -FlickSpeed
  }

  predicate PastLeft(offset: Vector, velocity: Vector) {
    offset.x < -Threshold || velocity.x < -FlickSpeed
  }

  predicate PastRight(offset: Vector, velocity: Vector) {
    offset.x > Threshold || velocity.x > FlickSpeed
  }

  /** The swipe reported when a drag ends, if any (at most one per drag end). */
  function DragEndSwipe(offset: Vector, velocity: Vector): (swipe: Option<SwipeDirection>)
    ensures swipe == Some(Up) <==> PastUp(offset, velocity)
    ensures swipe == Some(Left) <==> !PastUp(offset, velocity) && PastLeft(offset, velocity)
    ensures swipe == Some(Right) <==> !PastUp(offset, velocity) && !PastLeft(offset, velocity) && PastRight(offset, velocity)
    ensures swipe == None <==> !PastUp(offset, velocity) && !PastLeft(offset, velocity) && !PastRight(offset, velocity)
  {
    if PastUp(offset, velocity) then Some(Up)
    else if PastLeft(offset, velocity) then Some(Left)
    else if PastRight(offset, velocity) then Some(Right)
    else None
  }

  /** The card can be dragged only while no swipe is in progress. */
  function DragEnabled(swipeDirection: Option<SwipeDirection>): (enabled: bool)
    ensures enabled <==> swipeDirection == None
  {
    swipeDirection.None?
  }

  function MirrorX(v: Vector): Vector {
    Vector(-v.x, v.y)
  }

  function MirrorSwipe(s: Option<SwipeDirection>): Option<SwipeDirection> {
    match s
    case Some(Left) => Some(Right)
    case Some(Right) => Some(Left)
    case _ => s
  }

  /**
   * The rule is left-right symmetric except where a drag signals both left
   * and right (say, moved right but flicked left): there left wins both ways.
   */
  lemma MirrorSymmetry(offset: Vector, velocity: Vector)
    requires !(PastLeft(offset, velocity) && PastRight(offset, velocity))
    ensures DragEndSwipe(MirrorX(offset), MirrorX(velocity)) == MirrorSwipe(DragEndSwipe(offset, velocity))
  {
  }

  /** A drag that signals both left and right, and not up, is a left swipe, also after mirroring. */
  lemma LeftWinsConflicts(offset: Vector, velocity: Vector)
    requires !PastUp(offset, velocity) && PastLeft(offset, velocity) && PastRight(offset, velocity)
    ensures DragEndSwipe(offset, velocity) == Some(Left)
    ensures DragEndSwipe(MirrorX(offset), MirrorX(velocity)) == Some(Left)
  {
  }

  /** Dragging further (or faster) in the direction already reported keeps the report. */
  lemma FurtherKeepsSwipe(offset: Vector, velocity: Vector, dx: real, dy: real)
    requires DragEndSwipe(offset, velocity) == Some(Up) ==> dx == 0.0 && dy <= 0.0
    requires DragEndSwipe(offset, velocity) == Some(Left) ==> dx <= 0.0 && dy == 0.0
    requires DragEndSwipe(offset, velocity) == Some(Right) ==> dx >= 0.0 && dy == 0.0
    requires DragEndSwipe(offset, velocity).Some?
    ensures DragEndSwipe(Vector(offset.x + dx, offset.y + dy), velocity) == DragEndSwipe(offset, velocity)
  {
  }
}
