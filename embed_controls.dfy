/** The drone controls of the embed page (app/embed/page.tsx): pointer and
    touch handlers with a 16 ms direction throttle, a per-frame step that
    smooths the heading, flies only while the follow camera is enabled, and
    a low, close follow camera; and the page's 100 ms throttle on publishing
    the drone pose. Clock readings and library-normalised headings (their two
    horizontal components) are inputs. */
module EmbedControls {
  import opened Geometry
  import opened Wrappers

  const MoveSpeed: real := 4.0
  const RotationRate: real := 0.08
  /** The share of the way the smoothed heading moves toward the target per frame. */
  const Smoothing: real := 0.15
  const FollowOffset: Vec3 := Vec3(0.0, 3.0, 8.0)
  const LookOffset: Vec3 := Vec3(0.0, 0.5, 0.0)
  const FollowRate: real := 0.05
  /** Minimum milliseconds between accepted direction updates. */
  const DirectionInterval: real := 16.0
  /** Milliseconds that must be exceeded between published poses. */
  const PublishInterval: real := 100.0
  /** Windows narrower than this count as mobile. */
  const MobileWidth: real := 768.0

  /** Where the drone model is placed on mount. */
  const DroneStart: Vec3 := Vec3(0.0, 0.6, 7.0)

  /** The arguments of an `onDirectionUpdate` call. */
  datatype DirectionNotice = DirectionNotice(direction: Vec3, flying: bool)

  /** One frame of heading smoothing. */
  function Smooth(smoothed: Vec3, target: Vec3): Vec3 {
    Lerp(smoothed, target, Smoothing)
  }

  /** Smoothing moves the heading 15% of the way: the gap to the target
      shrinks to 85% each frame, and a heading already on target stays. */
  lemma SmoothingConverges(smoothed: Vec3, target: Vec3)
    ensures Sub(Smooth(smoothed, target), target) == Scale(Sub(smoothed, target), 0.85)
    ensures Smooth(target, target) == target
  {
    LerpGap(smoothed, target, Smoothing);
    LerpGap(target, target, Smoothing);
  }

  /** A smoothed heading of a horizontal target stays horizontal. */
  lemma SmoothingStaysLevel(smoothed: Vec3, target: Vec3)
    requires smoothed.y == 0.0 && target.y == 0.0
    ensures Smooth(smoothed, target).y == 0.0
  {
  }

  /** The `DroneControls` of the embed page. */
  class Controls {
    var targetDir: Vec3
    var smoothedTargetDir: Vec3
    var isFlying: bool
    var isSpacePressed: bool
    var isMobile: bool
    var lastDirectionUpdate: real
    const drone: Drone

    /** Every handler sets or clears both flags together, or copies the
        pressed flag into the flying flag. */
    predicate Valid()
      reads this
    {
      isFlying == isSpacePressed
    }

    constructor (drone: Drone)
      ensures Valid()
      ensures this.drone == drone
      ensures targetDir == Vec3(0.0, 0.0, -1.0) && smoothedTargetDir == Vec3(0.0, 0.0, -1.0)
      ensures !isFlying && !isSpacePressed && !isMobile && lastDirectionUpdate == 0.0
    {
      this.drone := drone;
      targetDir := Vec3(0.0, 0.0, -1.0);
      smoothedTargetDir := Vec3(0.0, 0.0, -1.0);
      isFlying := false;
      isSpacePressed := false;
      isMobile := false;
      lastDirectionUpdate := 0.0;
    }

    /** `checkMobile`, on mount and on resize: mouse handlers are installed
        only when this is false, touch handlers only when it is true. */
    method CheckMobile(innerWidth: real, hasTouch: bool)
      modifies this
      ensures isMobile == (innerWidth < MobileWidth || hasTouch)
      ensures targetDir == old(targetDir) && smoothedTargetDir == old(smoothedTargetDir)
      ensures isFlying == old(isFlying) && isSpacePressed == old(isSpacePressed)
      ensures lastDirectionUpdate == old(lastDirectionUpdate)
    {
      isMobile := innerWidth < MobileWidth || hasTouch;
    }

    /** `mousemove` at clock reading `now`: ignored on mobile and within 16 ms
        of the last accepted update; otherwise the heading follows the
        pointer and flying follows the pressed flag. */
    method MouseMove(now: real, hx: real, hz: real) returns (notice: Option<DirectionNotice>)
      requires Valid()
      modifies this
      ensures Valid()
      ensures isMobile || now - old(lastDirectionUpdate) < DirectionInterval ==>
                unchanged(this) && notice == None
      ensures !isMobile && now - old(lastDirectionUpdate) >= DirectionInterval ==>
                lastDirectionUpdate == now && targetDir == Vec3(hx, 0.0, hz)
                && isSpacePressed == old(isSpacePressed) && isFlying == isSpacePressed
                && smoothedTargetDir == old(smoothedTargetDir) && isMobile == old(isMobile)
                && notice == Some(DirectionNotice(targetDir, isFlying))
    {
      if isMobile {
        return None;
      }
      if now - lastDirectionUpdate < DirectionInterval {
        return None;
      }
      lastDirectionUpdate := now;
      var direction := Vec3(hx, 0.0, hz);
      targetDir := direction;
      if isSpacePressed {
        isFlying := true;
        notice := Some(DirectionNotice(direction, true));
      } else {
        isFlying := false;
        notice := Some(DirectionNotice(direction, false));
      }
    }

    /** `mousedown`: desktop only, left button (0) only. */
    method MouseDown(button: int) returns (notice: Option<DirectionNotice>)
      requires Valid()
      modifies this
      ensures Valid()
      ensures isMobile || button != 0 ==> unchanged(this) && notice == None
      ensures !isMobile && button == 0 ==>
                isSpacePressed && isFlying && targetDir == old(targetDir)
                && smoothedTargetDir == old(smoothedTargetDir) && isMobile == old(isMobile)
                && lastDirectionUpdate == old(lastDirectionUpdate)
                && notice == Some(DirectionNotice(targetDir, true))
    {
      if isMobile || button != 0 {
        return None;
      }
      isSpacePressed := true;
      isFlying := true;
      notice := Some(DirectionNotice(targetDir, true));
    }

    /** `mouseup`: desktop only, left button (0) only. */
    method MouseUp(button: int) returns (notice: Option<DirectionNotice>)
      requires Valid()
      modifies this
      ensures Valid()
      ensures isMobile || button != 0 ==> unchanged(this) && notice == None
      ensures !isMobile && button == 0 ==>
                !isSpacePressed && !isFlying && targetDir == old(targetDir)
                && smoothedTargetDir == old(smoothedTargetDir) && isMobile == old(isMobile)
                && lastDirectionUpdate == old(lastDirectionUpdate)
                && notice == Some(DirectionNotice(targetDir, false))
    {
      if isMobile || button != 0 {
        return None;
      }
      isSpacePressed := false;
      isFlying := false;
      notice := Some(DirectionNotice(targetDir, false));
    }

    /** `touchstart`: mobile only. */
    method TouchStart() returns (notice: Option<DirectionNotice>)
      requires Valid()
      modifies this
      ensures Valid()
      ensures !isMobile ==> unchanged(this) && notice == None
      ensures isMobile ==>
                isSpacePressed && isFlying && targetDir == old(targetDir)
                && smoothedTargetDir == old(smoothedTargetDir) && isMobile == old(isMobile)
                && lastDirectionUpdate == old(lastDirectionUpdate)
                && notice == Some(DirectionNotice(targetDir, true))
    {
      if !isMobile {
        return None;
      }
      isSpacePressed := true;
      isFlying := true;
      notice := Some(DirectionNotice(targetDir, true));
    }

    /** `touchend` and `touchcancel`, which do the same: mobile only. */
    method TouchEnd() returns (notice: Option<DirectionNotice>)
      requires Valid()
      modifies this
      ensures Valid()
      ensures !isMobile ==> unchanged(this) && notice == None
      ensures isMobile ==>
                !isSpacePressed && !isFlying && targetDir == old(targetDir)
                && smoothedTargetDir == old(smoothedTargetDir) && isMobile == old(isMobile)
                && lastDirectionUpdate == old(lastDirectionUpdate)
                && notice == Some(DirectionNotice(targetDir, false))
    {
      if !isMobile {
        return None;
      }
      isSpacePressed := false;
      isFlying := false;
      notice := Some(DirectionNotice(targetDir, false));
    }

    /** `touchmove` with `touchCount` fingers down at clock reading `now`:
        mobile only. No finger left ends the flight; otherwise the throttled
        heading update, flying while pressed. */
    method TouchMove(touchCount: nat, now: real, hx: real, hz: real)
      returns (notice: Option<DirectionNotice>)
      requires Valid()
      modifies this
      ensures Valid()
      ensures !isMobile ==> unchanged(this) && notice == None
      ensures isMobile && touchCount == 0 ==>
                !isSpacePressed && !isFlying && targetDir == old(targetDir)
                && lastDirectionUpdate == old(lastDirectionUpdate)
                && notice == Some(DirectionNotice(targetDir, false))
      ensures isMobile && touchCount > 0 && now - old(lastDirectionUpdate) < DirectionInterval ==>
                unchanged(this) && notice == None
      ensures isMobile && touchCount > 0 && now - old(lastDirectionUpdate) >= DirectionInterval ==>
                lastDirectionUpdate == now && targetDir == Vec3(hx, 0.0, hz)
                && isSpacePressed == old(isSpacePressed) && isFlying == isSpacePressed
                && notice == Some(DirectionNotice(targetDir, isFlying))
      ensures isMobile == old(isMobile) && smoothedTargetDir == old(smoothedTargetDir)
    {
      if !isMobile {
        return None;
      }
      if touchCount == 0 {
        isSpacePressed := false;
        isFlying := false;
        return Some(DirectionNotice(targetDir, false));
      }
      if now - lastDirectionUpdate < DirectionInterval {
        return None;
      }
      lastDirectionUpdate := now;
      var direction := Vec3(hx, 0.0, hz);
      targetDir := direction;
      if isSpacePressed && touchCount > 0 {
        isFlying := true;
        notice := Some(DirectionNotice(direction, true));
      } else {
        isSpacePressed := false;
        isFlying := false;
        notice := Some(DirectionNotice(direction, false));
      }
    }

    /** One frame of `delta` seconds: the smoothed heading moves toward the
        target and the drone turns toward it; the drone flies along it only
        while flying and while the follow camera is enabled; the pose is
        published; the camera follows unless disabled. */
    method Frame(cam: Camera, delta: real, disableCameraFollow: bool)
      returns (published: (Vec3, Orientation))
      modifies this, drone, cam
      ensures smoothedTargetDir == Smooth(old(smoothedTargetDir), targetDir)
      ensures targetDir == old(targetDir) && isFlying == old(isFlying)
      ensures isSpacePressed == old(isSpacePressed) && isMobile == old(isMobile)
      ensures lastDirectionUpdate == old(lastDirectionUpdate)
      ensures drone.orientation == Slerped(old(drone.orientation), smoothedTargetDir, RotationRate)
      ensures drone.position == if isFlying && !disableCameraFollow
                                then Fly(old(drone.position), smoothedTargetDir, MoveSpeed * delta)
                                else old(drone.position)
      ensures published == (drone.position, drone.orientation)
      ensures disableCameraFollow ==> unchanged(cam)
      ensures !disableCameraFollow ==>
                cam.position == Follow(old(cam.position), drone.position, FollowOffset, FollowRate)
                && cam.target == Add(drone.position, LookOffset)
    {
      var moveSpeed := MoveSpeed * delta;
      smoothedTargetDir := Lerp(smoothedTargetDir, targetDir, Smoothing);
      drone.orientation := Slerped(drone.orientation, smoothedTargetDir, RotationRate);
      if isFlying && !disableCameraFollow {
        var moveDirection := Vec3(smoothedTargetDir.x, 0.0, smoothedTargetDir.z);
        drone.position := Add(drone.position, Scale(moveDirection, moveSpeed));
      }
      published := (drone.position, drone.orientation);
      if !disableCameraFollow {
        var dronePos := drone.position;
        cam.position := Lerp(cam.position, Add(dronePos, FollowOffset), FollowRate);
        cam.target := Add(dronePos, LookOffset);
      }
    }
  }

  /** The page's `dronePosition`/`droneRotation` state and the time of the
      last update (`lastStateUpdateRef`). */
  class PoseState {
    var dronePosition: Vec3
    var droneRotation: Orientation
    var lastStateUpdate: real

    constructor (position: Vec3)
      ensures dronePosition == position && droneRotation == Identity && lastStateUpdate == 0.0
    {
      dronePosition := position;
      droneRotation := Identity;
      lastStateUpdate := 0.0;
    }

    /** `handlePositionUpdate` at clock reading `now`: a pose is taken only
        when more than 100 ms have passed since the last one taken. */
    method HandlePositionUpdate(now: real, pos: Vec3, rot: Orientation)
      modifies this
      ensures now - old(lastStateUpdate) > PublishInterval ==>
                lastStateUpdate == now && dronePosition == pos && droneRotation == rot
      ensures now - old(lastStateUpdate) <= PublishInterval ==> unchanged(this)
    {
      if now - lastStateUpdate > PublishInterval {
        lastStateUpdate := now;
        dronePosition := pos;
        droneRotation := rot;
      }
    }
  }
}
