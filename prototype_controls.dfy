/** The `DroneControls` copied verbatim into the eight prototype pages
    (app/page-with-controls.tsx, page-perfect-drone, page-manual-rotors,
    page-last-try, page-blender-drone, page-animated, page-animate-all and
    page-debug): the drone turns and flies only while the mouse is held
    down, at 3 units per second with a slerp rate of 0.05; the camera
    follows every frame at a per-page offset. Nothing is published to the
    page. Headings are the library-normalised pointer offset, given by
    their two horizontal components.

    Every page mounts the controls inside a group raised by (0, 2, 0), or
    (0, 3, 0) on app/page-last-try.tsx. The drone position here is local to
    that group while the camera is in world space, so the camera really
    sits 2 (or 3) lower relative to the rendered drone than the offset says,
    and looks 1 (or 2) below it. */
module PrototypeControls {
  import opened Geometry

  const MoveSpeed: real := 3.0
  const RotationRate: real := 0.05
  const FollowRate: real := 0.05
  const LookOffset: Vec3 := Vec3(0.0, 1.0, 0.0)

  /** The follow offset of every copy except app/page-last-try.tsx. */
  const StandardOffset: Vec3 := Vec3(0.0, 8.0, 15.0)

  class Controls {
    var targetDir: Vec3
    var isFlying: bool
    /** The `isMouseDown` local of the handler effect's closure. */
    var isMouseDown: bool
    const drone: Drone
    /** `(0, camHeight, camDistance)` of the page. */
    const camOffset: Vec3

    /** Every heading is horizontal. */
    predicate Valid()
      reads this
    {
      targetDir.y == 0.0
    }

    constructor (drone: Drone, camOffset: Vec3)
      ensures Valid()
      ensures this.drone == drone && this.camOffset == camOffset
      ensures targetDir == Vec3(0.0, 0.0, -1.0) && !isFlying && !isMouseDown
    {
      this.drone := drone;
      this.camOffset := camOffset;
      targetDir := Vec3(0.0, 0.0, -1.0);
      isFlying := false;
      isMouseDown := false;
    }

    /** `mousemove`: ignored unless the mouse is down; otherwise the heading
        follows the pointer and the drone flies. */
    method MouseMove(hx: real, hz: real)
      requires Valid()
      modifies this
      ensures Valid() && isMouseDown == old(isMouseDown)
      ensures !isMouseDown ==> unchanged(this)
      ensures isMouseDown ==> targetDir == Vec3(hx, 0.0, hz) && isFlying
    {
      if !isMouseDown {
        return;
      }
      var direction := Vec3(hx, 0.0, hz);
      targetDir := direction;
      isFlying := true;
    }

    /** `mousedown`, any button: set the flag and handle the event as a
        move, so the drone flies at once. */
    method MouseDown(hx: real, hz: real)
      requires Valid()
      modifies this
      ensures Valid()
      ensures isMouseDown && isFlying && targetDir == Vec3(hx, 0.0, hz)
    {
      isMouseDown := true;
      MouseMove(hx, hz);
    }

    /** `mouseup` and `mouseleave`, which do the same. */
    method MouseUp()
      requires Valid()
      modifies this
      ensures Valid()
      ensures !isMouseDown && !isFlying && targetDir == old(targetDir)
    {
      isMouseDown := false;
      isFlying := false;
    }

    /** A change of the canvas size re-runs the handler effect, whose new
        closure starts with the mouse flag cleared; the flying state is
        React state and survives. */
    method Resize()
      requires Valid()
      modifies this
      ensures Valid()
      ensures !isMouseDown && isFlying == old(isFlying) && targetDir == old(targetDir)
    {
      isMouseDown := false;
    }

    /** One frame of `delta` seconds: while flying, turn toward the heading
        and fly along it; the camera follows in every frame. */
    method Frame(cam: Camera, delta: real)
      requires Valid()
      modifies drone, cam
      ensures isFlying ==>
                drone.orientation == Slerped(old(drone.orientation), targetDir, RotationRate)
                && drone.position == Add(old(drone.position), Scale(targetDir, MoveSpeed * delta))
      ensures !isFlying ==>
                drone.orientation == old(drone.orientation) && drone.position == old(drone.position)
      ensures drone.position.y == old(drone.position.y)
      ensures cam.position == Follow(old(cam.position), drone.position, camOffset, FollowRate)
      ensures cam.target == Add(drone.position, LookOffset)
    {
      var moveSpeed := MoveSpeed * delta;
      if isFlying {
        drone.orientation := Slerped(drone.orientation, targetDir, RotationRate);
        var move := Scale(targetDir, moveSpeed);
        drone.position := Add(drone.position, move);
      }
      var dronePos := drone.position;
      cam.position := Lerp(cam.position, Add(dronePos, camOffset), FollowRate);
      cam.target := Add(dronePos, LookOffset);
    }
  }

  /** A flight frame moves the drone exactly as the home page's horizontal
      flight does, since headings are horizontal. */
  lemma FlightIsLevel(pos: Vec3, dir: Vec3, distance: real)
    requires dir.y == 0.0
    ensures Add(pos, Scale(dir, distance)) == Fly(pos, dir, distance)
  {
  }
}
