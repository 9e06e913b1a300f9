/** app/page-blender-drone.tsx: the shared prototype controls with the
    standard camera offset, rotors found in the loaded model by name and
    appended to the rotor list, turning two turns per second in directions
    that alternate by index. The model file state is never set again.

    The traversal runs over the loaded `scene`, but the page renders
    `scene.clone()`, so the nodes collected and turned here are not the
    displayed ones. */
module BlenderDronePage {
  import opened Geometry
  import opened Rotors
  import opened PrototypeControls

  /** The `currentModel` state: its setter is never called. */
  const CurrentModel: string := "/dji_phantom4.glb"

  method Mount(drone: Drone) returns (controls: Controls)
    ensures fresh(controls) && controls.Valid()
    ensures controls.drone == drone && controls.camOffset == StandardOffset
    ensures !controls.isFlying && !controls.isMouseDown
  {
    controls := new Controls(drone, StandardOffset);
  }

  /** The analysis effect, as on the last-try page. */
  method FindRotors(rotorRefs: NodeList, traversal: seq<Node>)
    modifies rotorRefs
    ensures rotorRefs.items == old(rotorRefs.items) + Filter(RotorNamed, traversal)
  {
    rotorRefs.Collect(RotorNamed, traversal);
  }

  /** One frame of the rotor `useFrame`: no spinning flag, fixed speed. */
  method RotorFrame(rotorRefs: seq<Node?>, delta: real)
    modifies NodesOf(rotorRefs)
    ensures forall node :: node in NodesOf(rotorRefs) ==>
              node.rotationY == old(node.rotationY)
                                + Received(rotorRefs, Alternating(TwoTurns), delta, node, |rotorRefs|)
  {
    Spin(rotorRefs, Alternating(TwoTurns), delta);
  }
}
