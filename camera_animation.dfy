/** The one-shot intro camera tween (app/components/CameraAnimation.tsx): once
    `startAnimation` is raised, the camera glides over 2.5 seconds from the
    overview pose (0, 30, 20) to the follow pose behind the drone's start
    position, eased in and out, looking at a point just above the drone; it
    then snaps to the end pose and never moves the camera again. */
module CameraTween {
  import opened Geometry
  import opened Wrappers

  /** Length of the tween in milliseconds. */
  const Duration: real := 2500.0

  /** Where the tween starts (the `startPos` ref, never changed). */
  const StartPos: Vec3 := Vec3(0.0, 30.0, 20.0)

  /** The end pose relative to the drone, the follow offset of the home
      page's controls. */
  const EndOffset: Vec3 := Vec3(0.0, 7.0, 12.0)

  /** The look-at point relative to the drone. */
  const LookOffset: Vec3 := Vec3(0.0, 1.0, 0.0)

  function Min(a: real, b: real): real {
    if a <= b then a else b
  }

  /** `Math.min(elapsed / duration, 1)`. */
  function Progress(elapsed: int): (p: real)
    ensures elapsed >= 0 ==> 0.0 <= p
    ensures p <= 1.0
    ensures p == 1.0 <==> elapsed as real >= Duration
    ensures p < 1.0 ==> p * Duration == elapsed as real
  {
    Min(elapsed as real / Duration, 1.0)
  }

  /** The ease-in-out curve: quadratic acceleration up to the midpoint, then
      the mirrored deceleration. */
  function Ease(p: real): real {
    if p < 0.5 then 2.0 * p * p else -1.0 + (4.0 - 2.0 * p) * p
  }

  /** The decelerating branch is one minus twice the squared distance to 1. */
  lemma {:induction false} EaseUpperForm(p: real)
    requires p >= 0.5
    ensures Ease(p) == 1.0 - 2.0 * (1.0 - p) * (1.0 - p)
  {
    assert (1.0 - p) * (1.0 - p) == 1.0 - 2.0 * p + p * p;
  }

  /** The curve starts at 0, ends at 1, and both branches meet at 0.5 at the
      midpoint, so it is continuous there. */
  lemma EaseEnds()
    ensures Ease(0.0) == 0.0 && Ease(1.0) == 1.0 && Ease(0.5) == 0.5
    ensures 2.0 * 0.5 * 0.5 == -1.0 + (4.0 - 2.0 * 0.5) * 0.5
  {
  }

  /** A square of a number in [0, 1/2] lies in [0, 1/4]. */
  lemma {:induction false} HalfSquare(q: real)
    requires 0.0 <= q <= 0.5
    ensures 0.0 <= q * q <= 0.25
  {
    assert q * q <= 0.5 * q;
  }

  /** Squaring keeps the order of non-negative numbers. */
  lemma {:induction false} SquareMonotone(a: real, b: real)
    requires 0.0 <= a <= b
    ensures a * a <= b * b
  {
    assert a * a <= a * b;
    assert a * b <= b * b;
  }

  /** On [0, 1] the eased value stays in [0, 1]. */
  lemma {:induction false} EaseRange(p: real)
    requires 0.0 <= p <= 1.0
    ensures 0.0 <= Ease(p) <= 1.0
    ensures p < 0.5 ==> Ease(p) < 0.5
    ensures p >= 0.5 ==> Ease(p) >= 0.5
  {
    if p < 0.5 {
      HalfSquare(p);
      assert p * p < 0.25 by {
        assert p * p <= 0.5 * p;
      }
    } else {
      EaseUpperForm(p);
      HalfSquare(1.0 - p);
    }
  }

  /** On [0, 1] the eased value never decreases. */
  lemma {:induction false} EaseMonotone(p: real, q: real)
    requires 0.0 <= p <= q <= 1.0
    ensures Ease(p) <= Ease(q)
  {
    if q < 0.5 {
      SquareMonotone(p, q);
    } else if p >= 0.5 {
      EaseUpperForm(p);
      EaseUpperForm(q);
      SquareMonotone(1.0 - q, 1.0 - p);
    } else {
      EaseRange(p);
      EaseRange(q);
    }
  }

  /** The curve is point-symmetric about the midpoint: easing out mirrors
      easing in. */
  lemma {:induction false} EaseSymmetric(p: real)
    ensures Ease(1.0 - p) == 1.0 - Ease(p)
  {
    if p < 0.5 {
      EaseUpperForm(1.0 - p);
    } else if p > 0.5 {
      EaseUpperForm(p);
    }
  }

  /** The camera pose the tween ends in for a given drone start position. */
  function EndPose(droneStart: Vec3): Vec3 {
    Add(droneStart, EndOffset)
  }

  /** Where a frame with progress p puts the camera. */
  function TweenPose(endPos: Vec3, p: real): Vec3 {
    Lerp(StartPos, endPos, Ease(p))
  }

  /** The tween starts at the overview pose and ends exactly at the end pose. */
  lemma TweenEnds(endPos: Vec3)
    ensures TweenPose(endPos, 0.0) == StartPos
    ensures TweenPose(endPos, 1.0) == endPos
  {
    EaseEnds();
    LerpGap(StartPos, endPos, 1.0);
  }

  /** The three refs of the component, plus the two pose refs. */
  class CameraAnimation {
    var startTime: Option<int>
    var isAnimating: bool
    var hasStarted: bool
    var endPos: Vec3
    var droneStartPosition: Vec3

    /** The flags agree: a start time is recorded exactly while animating,
        and animating implies the animation has been started. */
    predicate Valid()
      reads this
    {
      (isAnimating <==> startTime.Some?) && (isAnimating ==> hasStarted)
    }

    /** First render: nothing started, poses computed from the prop. */
    constructor (droneStartPos: Vec3)
      ensures Valid()
      ensures startTime == None && !isAnimating && !hasStarted
      ensures endPos == EndPose(droneStartPos) && droneStartPosition == droneStartPos
    {
      startTime := None;
      isAnimating := false;
      hasStarted := false;
      endPos := Add(droneStartPos, EndOffset);
      droneStartPosition := droneStartPos;
    }

    /** The effect run when `startAnimation` or `droneStartPos` changes; `now`
        is the clock reading. It starts the animation at most once. */
    method Effect(startAnimation: bool, droneStartPos: Vec3, now: int)
      requires Valid()
      modifies this
      ensures Valid()
      ensures old(hasStarted) ==> hasStarted
      ensures if startAnimation && !old(hasStarted) then
                hasStarted && isAnimating && startTime == Some(now)
                && endPos == EndPose(droneStartPos) && droneStartPosition == droneStartPos
              else
                unchanged(this)
    {
      if startAnimation && !hasStarted {
        hasStarted := true;
        isAnimating := true;
        startTime := Some(now);
        endPos := Add(droneStartPos, EndOffset);
        droneStartPosition := droneStartPos;
      }
    }

    /** One rendered frame at clock reading `now`. */
    method Frame(cam: Camera, startAnimation: bool, now: int)
      requires Valid()
      modifies this, cam
      ensures Valid()
      ensures hasStarted == old(hasStarted) && endPos == old(endPos)
      ensures droneStartPosition == old(droneStartPosition)
      ensures !startAnimation || !old(isAnimating) ==> unchanged(this) && unchanged(cam)
      ensures startAnimation && old(isAnimating) ==>
                var p := Progress(now - old(startTime).value);
                cam.target == Add(droneStartPosition, LookOffset)
                && (p < 1.0 ==> cam.position == TweenPose(endPos, p) && unchanged(this))
                && (p >= 1.0 ==> cam.position == endPos && !isAnimating && startTime == None)
    {
      if !startAnimation || !isAnimating || startTime == None {
        return;
      }
      var elapsed := now - startTime.value;
      var progress := Progress(elapsed);
      var easeProgress := Ease(progress);
      cam.position := Lerp(StartPos, endPos, easeProgress);
      cam.target := Add(droneStartPosition, LookOffset);
      if progress >= 1.0 {
        cam.position := endPos;
        cam.target := Add(droneStartPosition, LookOffset);
        isAnimating := false;
        startTime := None;
        return;
      }
    }
  }
}
