/** app/page-manual-rotors.tsx: the shared prototype controls with the
    standard camera offset, and four hand-built rotor groups over the loaded
    model that all turn two turns per second in the same direction. */
module ManualRotorsPage {
  import opened Geometry
  import opened Rotors
  import opened PrototypeControls

  method Mount(drone: Drone) returns (controls: Controls)
    ensures fresh(controls) && controls.Valid()
    ensures controls.drone == drone && controls.camOffset == StandardOffset
    ensures !controls.isFlying && !controls.isMouseDown
  {
    controls := new Controls(drone, StandardOffset);
  }

  /** One frame of the rotor `useFrame`. */
  method RotorFrame(rotorRefs: seq<Node?>, delta: real)
    modifies NodesOf(rotorRefs)
    ensures forall node :: node in NodesOf(rotorRefs) ==>
              node.rotationY == old(node.rotationY)
                                + Received(rotorRefs, Uniform(TwoTurns), delta, node, |rotorRefs|)
  {
    Spin(rotorRefs, Uniform(TwoTurns), delta);
  }
}
