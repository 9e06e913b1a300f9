/** app/page-with-controls.tsx: the shared prototype controls with the
    standard camera offset, and a drone model whose rotors spin by the rpm
    rule. The rpm and spinning flag reaching the model are the controls'
    own state, which nothing sets; the page's slider and pause button
    update a separate state that is never passed down. */
module WithControlsPage {
  import opened Geometry
  import opened Rotors
  import opened PrototypeControls

  /** The `rpm` and `spinning` states of `DroneControls`, never updated. */
  const ControlsRpm: real := 2000.0
  const ControlsSpinning: bool := true

  /** The page's own rotor state, changed by its controls and read by
      nothing else. */
  class PageState {
    var rpm: real
    var spinning: bool

    constructor ()
      ensures rpm == 2000.0 && spinning
    {
      rpm := 2000.0;
      spinning := true;
    }

    /** The pause/resume button. */
    method ToggleSpinning()
      modifies this
      ensures spinning == !old(spinning) && rpm == old(rpm)
    {
      spinning := !spinning;
    }

    /** The RPM slider. */
    method SetRpm(value: real)
      modifies this
      ensures rpm == value && spinning == old(spinning)
    {
      rpm := value;
    }
  }

  /** Mounting `DroneControls` for a drone group. */
  method Mount(drone: Drone) returns (controls: Controls)
    ensures fresh(controls) && controls.Valid()
    ensures controls.drone == drone && controls.camOffset == StandardOffset
    ensures !controls.isFlying && !controls.isMouseDown
  {
    controls := new Controls(drone, StandardOffset);
  }

  /** One frame of the drone model's rotors, whatever the page state. */
  method RotorFrame(page: PageState, rotorRefs: seq<Node?>, delta: real)
    modifies NodesOf(rotorRefs)
    ensures forall node :: node in NodesOf(rotorRefs) ==>
              node.rotationY == old(node.rotationY)
                                + Received(rotorRefs, Alternating(RadPerSec(ControlsRpm)), delta, node, |rotorRefs|)
  {
    RpmFrame(ControlsRpm, ControlsSpinning, rotorRefs, delta);
  }
}
