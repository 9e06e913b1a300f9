/** app/page-perfect-drone.tsx: the shared prototype controls with the
    standard camera offset, and four rotor groups that all turn two turns
    per second in the same direction. */
module PerfectDronePage {
  import opened Geometry
  import opened Rotors
  import opened PrototypeControls

  method Mount(drone: Drone) returns (controls: Controls)
    ensures fresh(controls) && controls.Valid()
    ensures controls.drone == drone && controls.camOffset == StandardOffset
    ensures !controls.isFlying && !controls.isMouseDown
  {
    controls := new Controls(drone, StandardOffset);
  }

  /** One frame of the rotor `useFrame`. */
  method RotorFrame(rotorRefs: seq<Node?>, delta: real)
    modifies NodesOf(rotorRefs)
    ensures forall node :: node in NodesOf(rotorRefs) ==>
              node.rotationY == old(node.rotationY)
                                + Received(rotorRefs, Uniform(TwoTurns), delta, node, |rotorRefs|)
  {
    Spin(rotorRefs, Uniform(TwoTurns), delta);
  }
}
