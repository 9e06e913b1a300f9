/** The home page (app/page.tsx): the drone controls with their per-frame
    step, the intro sequencing that hands the camera from the intro tween to
    the follow camera, and the camera-bookmark tween. */
module Home {
  import opened Geometry
  import opened Wrappers
  import CameraTween

  /** Where the drone model is placed on mount. */
  const DroneStart: Vec3 := Vec3(0.0, 2.0, 7.0)

  /** The camera position the canvas is created with. */
  const InitialCamera: Vec3 := Vec3(0.0, 30.0, 20.0)

  /** The follow camera sits 7 above and 12 behind the drone and looks at a
      point 1 above it, moving 5% of the way per frame. */
  const FollowOffset: Vec3 := Vec3(0.0, 7.0, 12.0)
  const LookOffset: Vec3 := Vec3(0.0, 1.0, 0.0)
  const FollowRate: real := 0.05

  /** Distance per second of flight, and the slerp rate of the drone's turn. */
  const MoveSpeed: real := 4.0
  const RotationRate: real := 0.1

  /** The arguments of an `onDirectionUpdate` call. */
  datatype DirectionNotice = DirectionNotice(direction: Vec3, flying: bool)

  function FollowTarget(drone: Vec3): Vec3 {
    Add(drone, FollowOffset)
  }

  /** The handoff from the intro tween to the follow camera is seamless: the
      canvas starts where the tween starts, the tween ends at the follow
      target of the drone still on its start position, (0, 9, 19), so the
      first follow step leaves the camera where it is; both look at the point
      1 above the drone. */
  lemma Handoff()
    ensures InitialCamera == CameraTween.StartPos
    ensures CameraTween.EndPose(DroneStart) == Vec3(0.0, 9.0, 19.0) == FollowTarget(DroneStart)
    ensures Follow(CameraTween.EndPose(DroneStart), DroneStart, FollowOffset, FollowRate)
            == CameraTween.EndPose(DroneStart)
    ensures CameraTween.LookOffset == LookOffset
  {
    FollowGap(FollowTarget(DroneStart), DroneStart, FollowOffset, FollowRate);
  }

  /** `DroneControls` of the home page. The heading handed to the mouse
      handler is the library-normalised pointer offset, given by its two
      horizontal components. */
  class Controls {
    var targetDir: Vec3
    var isFlying: bool
    var isSpacePressed: bool
    const drone: Drone

    /** The handlers always set or clear both flags together, and a move
        copies the pressed flag into the flying flag. */
    predicate Valid()
      reads this
    {
      isFlying == isSpacePressed
    }

    constructor (drone: Drone)
      ensures Valid()
      ensures this.drone == drone && targetDir == Vec3(0.0, 0.0, -1.0)
      ensures !isFlying && !isSpacePressed
    {
      this.drone := drone;
      targetDir := Vec3(0.0, 0.0, -1.0);
      isFlying := false;
      isSpacePressed := false;
    }

    /** `mousemove`: the heading follows the pointer; flying follows the
        pressed flag. */
    method MouseMove(hx: real, hz: real) returns (notice: DirectionNotice)
      modifies this
      ensures Valid()
      ensures targetDir == Vec3(hx, 0.0, hz) && isSpacePressed == old(isSpacePressed)
      ensures isFlying == isSpacePressed
      ensures notice == DirectionNotice(targetDir, isFlying)
    {
      var direction := Vec3(hx, 0.0, hz);
      targetDir := direction;
      if isSpacePressed {
        isFlying := true;
        notice := DirectionNotice(direction, true);
      } else {
        isFlying := false;
        notice := DirectionNotice(direction, false);
      }
    }

    /** `mousedown`: only the left button (0) counts. */
    method MouseDown(button: int) returns (notice: Option<DirectionNotice>)
      modifies this
      ensures button != 0 ==> unchanged(this) && notice == None
      ensures button == 0 ==> isSpacePressed && isFlying && targetDir == old(targetDir)
                              && notice == Some(DirectionNotice(targetDir, true))
    {
      if button != 0 {
        return None;
      }
      isSpacePressed := true;
      isFlying := true;
      notice := Some(DirectionNotice(targetDir, true));
    }

    /** `mouseup`: only the left button (0) counts. */
    method MouseUp(button: int) returns (notice: Option<DirectionNotice>)
      modifies this
      ensures button != 0 ==> unchanged(this) && notice == None
      ensures button == 0 ==> !isSpacePressed && !isFlying && targetDir == old(targetDir)
                              && notice == Some(DirectionNotice(targetDir, false))
    {
      if button != 0 {
        return None;
      }
      isSpacePressed := false;
      isFlying := false;
      notice := Some(DirectionNotice(targetDir, false));
    }

    /** `touchstart`: like a left-button press, with no button to check. */
    method TouchStart() returns (notice: DirectionNotice)
      modifies this
      ensures isSpacePressed && isFlying && targetDir == old(targetDir)
      ensures notice == DirectionNotice(targetDir, true)
    {
      isSpacePressed := true;
      isFlying := true;
      notice := DirectionNotice(targetDir, true);
    }

    /** `touchend`: like a left-button release. */
    method TouchEnd() returns (notice: DirectionNotice)
      modifies this
      ensures !isSpacePressed && !isFlying && targetDir == old(targetDir)
      ensures notice == DirectionNotice(targetDir, false)
    {
      isSpacePressed := false;
      isFlying := false;
      notice := DirectionNotice(targetDir, false);
    }

    /** One frame of `delta` seconds: the drone always turns toward the
        heading, moves only while flying (with no regard to the follow gate),
        publishes its pose, and the camera follows unless follow is disabled. */
    method Frame(cam: Camera, delta: real, disableCameraFollow: bool)
      returns (published: (Vec3, Orientation))
      modifies drone, cam
      ensures drone.orientation == Slerped(old(drone.orientation), targetDir, RotationRate)
      ensures drone.position == if isFlying then Fly(old(drone.position), targetDir, MoveSpeed * delta)
                                else old(drone.position)
      ensures published == (drone.position, drone.orientation)
      ensures disableCameraFollow ==> unchanged(cam)
      ensures !disableCameraFollow ==>
                cam.position == Follow(old(cam.position), drone.position, FollowOffset, FollowRate)
                && cam.target == Add(drone.position, LookOffset)
    {
      var moveSpeed := MoveSpeed * delta;
      drone.orientation := Slerped(drone.orientation, targetDir, RotationRate);
      if isFlying {
        var moveDirection := Vec3(targetDir.x, 0.0, targetDir.z);
        drone.position := Add(drone.position, Scale(moveDirection, moveSpeed));
      }
      published := (drone.position, drone.orientation);
      if !disableCameraFollow {
        var dronePos := drone.position;
        var targetCamPos := Add(dronePos, FollowOffset);
        cam.position := Lerp(cam.position, targetCamPos, FollowRate);
        cam.target := Add(dronePos, LookOffset);
      }
    }
  }

  /** A pending `setTimeout` of the intro handoff, with the clock reading it
      is due at. */
  datatype Timer = CompleteIntro(due: int) | MarkCameraSet(due: int)

  /** The intro state of `Home` and its pending timers. `clock` is the time
      of the last event handled, in milliseconds. */
  class IntroSequence {
    var startCameraAnimation: bool
    var introCompleted: bool
    var cameraPositionSet: bool
    var pending: seq<Timer>
    var clock: int
    /** When the intro was first marked complete. */
    ghost var completedAt: int

    /** The intro overlay is mounted. */
    predicate IntroMounted()
      reads this
    {
      !introCompleted
    }

    /** The camera tween is mounted and drives the camera. */
    predicate TweenMounted()
      reads this
    {
      startCameraAnimation && !introCompleted
    }

    /** The controls' follow camera drives the camera
        (`disableCameraFollow` is `!cameraPositionSet`). */
    predicate FollowEnabled()
      reads this
    {
      cameraPositionSet
    }

    ghost predicate Valid()
      reads this
    {
      (introCompleted ==> startCameraAnimation && completedAt <= clock)
      && (cameraPositionSet ==> introCompleted && completedAt + 100 <= clock)
      && (forall i :: 0 <= i < |pending| ==> clock <= pending[i].due)
      && (forall i :: 0 <= i < |pending| && pending[i].CompleteIntro? ==> startCameraAnimation)
      && (forall i :: 0 <= i < |pending| && pending[i].MarkCameraSet? ==>
            introCompleted && completedAt + 100 <= pending[i].due)
    }

    constructor (now: int)
      ensures Valid() && clock == now && pending == []
      ensures !startCameraAnimation && !introCompleted && !cameraPositionSet
    {
      startCameraAnimation := false;
      introCompleted := false;
      cameraPositionSet := false;
      pending := [];
      clock := now;
      completedAt := now;
    }

    /** `handleIntroComplete`, called at `now`, before any pending timer is
        due: start the tween and schedule the completion 3000 ms later. */
    method HandleIntroComplete(now: int)
      requires Valid() && clock <= now
      requires forall i :: 0 <= i < |pending| ==> now <= pending[i].due
      modifies this
      ensures Valid() && !(TweenMounted() && FollowEnabled())
      ensures startCameraAnimation && clock == now
      ensures introCompleted == old(introCompleted) && cameraPositionSet == old(cameraPositionSet)
      ensures pending == old(pending) + [CompleteIntro(now + 3000)]
    {
      startCameraAnimation := true;
      clock := now;
      pending := pending + [CompleteIntro(now + 3000)];
    }

    /** The earliest pending timer fires: the 3000 ms one completes the intro
        and schedules the camera flag 100 ms later; that one sets it. */
    method Fire(i: int)
      requires Valid() && 0 <= i < |pending|
      requires forall j :: 0 <= j < |pending| ==> pending[i].due <= pending[j].due
      modifies this
      ensures Valid() && !(TweenMounted() && FollowEnabled())
      ensures clock == old(pending[i].due)
      ensures old(introCompleted) ==> introCompleted
      ensures old(cameraPositionSet) ==> cameraPositionSet
      ensures startCameraAnimation == old(startCameraAnimation)
      ensures old(pending[i]).CompleteIntro? ==>
                introCompleted && cameraPositionSet == old(cameraPositionSet)
                && pending == old(pending[..i] + pending[i + 1..]) + [MarkCameraSet(old(pending[i].due) + 100)]
      ensures old(pending[i]).MarkCameraSet? ==>
                cameraPositionSet && introCompleted == old(introCompleted)
                && pending == old(pending[..i] + pending[i + 1..])
    {
      var timer := pending[i];
      pending := pending[..i] + pending[i + 1..];
      clock := timer.due;
      match timer {
        case CompleteIntro(due) =>
          if !introCompleted {
            completedAt := due;
          }
          introCompleted := true;
          pending := pending + [MarkCameraSet(due + 100)];
        case MarkCameraSet(_) =>
          cameraPositionSet := true;
      }
    }
  }

  /** A camera bookmark: the pose to fly to, the point to face, the button caption (`label`). */
  datatype Bookmark = Bookmark(p: Vec3, l: Vec3, caption: string)

  const Bookmarks: seq<Bookmark> := [
    Bookmark(Vec3(-6.0, 7.0, -6.0), Vec3(0.0, 0.5, 0.0), "PROJEKT 1"),
    Bookmark(Vec3(10.0, 10.0, 10.0), Vec3(4.0, 0.5, 4.0), "PROJEKT 2"),
    Bookmark(Vec3(-10.0, 6.0, 10.0), Vec3(-6.0, 0.4, 6.0), "PROJEKT 3")
  ]

  /** Seconds added per frame, and the length of the bookmark tween. */
  const FrameTime: real := 0.016
  const BookmarkDuration: real := 1.2

  /** `Math.min(t / dur, 1)`. */
  function BookmarkFraction(t: real): (k: real)
    ensures t >= 0.0 ==> 0.0 <= k
    ensures k <= 1.0
    ensures k == 1.0 <==> t >= BookmarkDuration
  {
    CameraTween.Min(t / BookmarkDuration, 1.0)
  }

  /** easeOutQuad. */
  function EaseOut(k: real): real {
    k * (2.0 - k)
  }

  lemma NonnegativeProduct(a: real, b: real)
    requires 0.0 <= a && 0.0 <= b
    ensures 0.0 <= a * b
  {
  }

  /** On [0, 1] the ease stays in [0, 1], starting at 0 and ending at 1,
      since 1 - k(2 - k) = (1 - k)^2. */
  lemma EaseOutRange(k: real)
    requires 0.0 <= k <= 1.0
    ensures 0.0 <= EaseOut(k) <= 1.0
    ensures EaseOut(0.0) == 0.0 && EaseOut(1.0) == 1.0
  {
    assert 1.0 - EaseOut(k) == (1.0 - k) * (1.0 - k);
    NonnegativeProduct(k, 2.0 - k);
  }

  /** On [0, 1] the ease never decreases, since the difference of two values
      is (b - a)(2 - a - b). */
  lemma EaseOutMonotone(a: real, b: real)
    requires 0.0 <= a <= b <= 1.0
    ensures EaseOut(a) <= EaseOut(b)
  {
    assert EaseOut(b) - EaseOut(a) == (b - a) * (2.0 - a - b);
    NonnegativeProduct(b - a, 2.0 - a - b);
  }

  /** The `anim` closure of a bookmark button: its elapsed time `t` and the
      two poses it interpolates between. The camera's turn toward the
      bookmark's look point is a library slerp and not part of this model. */
  class BookmarkTween {
    var t: real
    const startPos: Vec3
    const targetPos: Vec3

    constructor (startPos: Vec3, targetPos: Vec3)
      ensures t == 0.0 && this.startPos == startPos && this.targetPos == targetPos
    {
      t := 0.0;
      this.startPos := startPos;
      this.targetPos := targetPos;
    }

    /** One call of `anim`: advance, place the camera, and ask for another
        frame while the fraction is below 1. */
    method Step(cam: Camera) returns (again: bool)
      modifies this, cam
      ensures t == old(t) + FrameTime
      ensures cam.position == Lerp(startPos, targetPos, EaseOut(BookmarkFraction(t)))
      ensures cam.target == old(cam.target)
      ensures again <==> t < BookmarkDuration
    {
      t := t + FrameTime;
      var k := BookmarkFraction(t);
      var ease := EaseOut(k);
      cam.position := Lerp(startPos, targetPos, ease);
      again := k < 1.0;
    }

    /** The chain of animation frames a click starts: with exact arithmetic it
        runs 75 frames and leaves the camera exactly on the bookmark. */
    method Play(cam: Camera) returns (frames: nat)
      requires t == 0.0
      modifies this, cam
      ensures frames == 75 && cam.position == targetPos
    {
      var again := Step(cam);
      frames := 1;
      while again
        invariant 1 <= frames <= 75
        invariant t == FrameTime * frames as real
        invariant again <==> frames < 75
        invariant !again ==> cam.position == Lerp(startPos, targetPos, EaseOut(BookmarkFraction(t)))
        decreases 75 - frames
      {
        again := Step(cam);
        frames := frames + 1;
      }
      LerpGap(startPos, targetPos, 1.0);
    }
  }
}
