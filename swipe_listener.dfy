/**
 * The fling classifier of OnSwipeTouchListener: the gesture detector reports the
 * down event, the up event and the fling velocity, and the listener picks at most
 * one of four swipe callbacks.  Coordinates and velocities are `real`.
 */
module SwipeListener {
  import opened Wrappers

  /** The position of a touch event (`MotionEvent.getX()`, `getY()`). */
  datatype Point = Point(x: real, y: real)

  /** The four callbacks onKeySwipeLeft, onKeySwipeUp, onKeySwipeRight, onKeySwipeDown. */
  datatype Swipe = Left | Up | Right | Down

  /** SWIPE_MIN_DISTANCE and SWIPE_THRESHOLD_VELOCITY. */
  const SwipeMinDistance: real := 10.0
  const SwipeThresholdVelocity: real := 10.0

  /**
   * What one call of onFling does: the callback it invokes, if any, and the
   * boolean it returns to the gesture detector.
   */
  datatype FlingOutcome = FlingOutcome(callback: Option<Swipe>, handled: bool)

  function Abs(r: real): (a: real)
    ensures a >= 0.0 && (a == r || a == -r)
  {
    if r < 0.0 then -r else r
  }

  /** The horizontal branch is taken only when the x speed strictly dominates. */
  predicate Horizontal(velocityX: real, velocityY: real)
  {
    Abs(velocityX) > Abs(velocityY)
  }

  /**
   * GestureListener.onFling.  The start event `down` is None when the detector
   * has none to report; reading its coordinates then throws, the exception is
   * caught and no callback runs.
   */
  function OnFling(down: Option<Point>, up: Point, velocityX: real, velocityY: real): (r: FlingOutcome)
    ensures !r.handled
    ensures down.None? ==> r.callback.None?
    ensures r.callback == Some(Left) <==>
      down.Some? && Horizontal(velocityX, velocityY) &&
      down.value.x - up.x > SwipeMinDistance && Abs(velocityX) > SwipeThresholdVelocity
    ensures r.callback == Some(Right) <==>
      down.Some? && Horizontal(velocityX, velocityY) &&
      up.x - down.value.x > SwipeMinDistance && Abs(velocityX) > SwipeThresholdVelocity
    ensures r.callback == Some(Up) <==>
      down.Some? && !Horizontal(velocityX, velocityY) &&
      down.value.y - up.y > SwipeMinDistance && Abs(velocityY) > SwipeThresholdVelocity
    ensures r.callback == Some(Down) <==>
      down.Some? && !Horizontal(velocityX, velocityY) &&
      up.y - down.value.y > SwipeMinDistance && Abs(velocityY) > SwipeThresholdVelocity
  {
    match down
    case None => FlingOutcome(None, false)
    case Some(start) =>
      var callback :=
        if Abs(velocityX) > Abs(velocityY) then
          if start.x - up.x > SwipeMinDistance && Abs(velocityX) > SwipeThresholdVelocity then Some(Left)
          else if up.x - start.x > SwipeMinDistance && Abs(velocityX) > SwipeThresholdVelocity then Some(Right)
          else None
        else
          if start.y - up.y > SwipeMinDistance && Abs(velocityY) > SwipeThresholdVelocity then Some(Up)
          else if up.y - start.y > SwipeMinDistance && Abs(velocityY) > SwipeThresholdVelocity then Some(Down)
          else None;
      FlingOutcome(callback, false)
  }

  /** A fling whose speeds are equal in size is classified on the vertical axis only. */
  lemma TieGoesVertical(down: Option<Point>, up: Point, velocityX: real, velocityY: real)
    requires Abs(velocityX) == Abs(velocityY)
    ensures OnFling(down, up, velocityX, velocityY).callback !in {Some(Left), Some(Right)}
  {
  }

  /**
   * The thresholds are strict: a movement of exactly SWIPE_MIN_DISTANCE, or a speed of
   * exactly SWIPE_THRESHOLD_VELOCITY, along the axis the speeds select produces no swipe.
   */
  lemma ThresholdsAreExclusive(start: Point, up: Point, velocityX: real, velocityY: real)
    requires
      || (Horizontal(velocityX, velocityY) &&
          (Abs(start.x - up.x) == SwipeMinDistance || Abs(velocityX) == SwipeThresholdVelocity))
      || (!Horizontal(velocityX, velocityY) &&
          (Abs(start.y - up.y) == SwipeMinDistance || Abs(velocityY) == SwipeThresholdVelocity))
    ensures OnFling(Some(start), up, velocityX, velocityY).callback.None?
  {
  }

  function MirrorX(p: Point): Point { Point(-p.x, p.y) }
  function MirrorY(p: Point): Point { Point(p.x, -p.y) }
  function Transpose(p: Point): Point { Point(p.y, p.x) }

  function SwapLeftRight(s: Option<Swipe>): Option<Swipe>
  {
    match s
    case Some(Left) => Some(Right)
    case Some(Right) => Some(Left)
    case _ => s
  }

  function SwapUpDown(s: Option<Swipe>): Option<Swipe>
  {
    match s
    case Some(Up) => Some(Down)
    case Some(Down) => Some(Up)
    case _ => s
  }

  function SwapAxes(s: Option<Swipe>): Option<Swipe>
  {
    match s
    case Some(Left) => Some(Up)
    case Some(Up) => Some(Left)
    case Some(Right) => Some(Down)
    case Some(Down) => Some(Right)
    case None => None
  }

  /** Mirroring a gesture left to right exchanges the Left and Right callbacks. */
  lemma MirrorXSwapsLeftRight(start: Point, up: Point, velocityX: real, velocityY: real)
    ensures OnFling(Some(MirrorX(start)), MirrorX(up), -velocityX, velocityY).callback
         == SwapLeftRight(OnFling(Some(start), up, velocityX, velocityY).callback)
  {
  }

  /** Mirroring a gesture top to bottom exchanges the Up and Down callbacks. */
  lemma MirrorYSwapsUpDown(start: Point, up: Point, velocityX: real, velocityY: real)
    ensures OnFling(Some(MirrorY(start)), MirrorY(up), velocityX, -velocityY).callback
         == SwapUpDown(OnFling(Some(start), up, velocityX, velocityY).callback)
  {
  }

  /**
   * Exchanging the x and y axes exchanges Left with Up and Right with Down, except
   * on a speed tie, where both the gesture and its transpose go to the vertical branch.
   */
  lemma TransposeSwapsAxes(start: Point, up: Point, velocityX: real, velocityY: real)
    requires Abs(velocityX) != Abs(velocityY)
    ensures OnFling(Some(Transpose(start)), Transpose(up), velocityY, velocityX).callback
         == SwapAxes(OnFling(Some(start), up, velocityX, velocityY).callback)
  {
  }
}
