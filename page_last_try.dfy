/** app/page-last-try.tsx: the shared prototype controls with a nearer
    camera (height 6, distance 12), rotors found in the loaded model by name
    and appended to the rotor list, spun by the rpm rule with the model's
    own rpm 2000 and spinning flag, neither of which is ever changed.

    The traversal runs over the loaded `scene`, but the page renders
    `scene.clone()`, so the nodes collected and turned here are not the
    displayed ones. */
module LastTryPage {
  import opened Geometry
  import opened Rotors
  import opened PrototypeControls

  const CamOffset: Vec3 := Vec3(0.0, 6.0, 12.0)
  const ModelRpm: real := 2000.0
  const ModelSpinning: bool := true

  method Mount(drone: Drone) returns (controls: Controls)
    ensures fresh(controls) && controls.Valid()
    ensures controls.drone == drone && controls.camOffset == CamOffset
    ensures !controls.isFlying && !controls.isMouseDown
  {
    controls := new Controls(drone, CamOffset);
  }

  /** The analysis effect: the loaded scene's nodes with rotor-like names
      are pushed onto the rotor list, in traversal order. */
  method FindRotors(rotorRefs: NodeList, traversal: seq<Node>)
    modifies rotorRefs
    ensures rotorRefs.items == old(rotorRefs.items) + Filter(RotorNamed, traversal)
  {
    rotorRefs.Collect(RotorNamed, traversal);
  }

  /** One frame of the rotor `useFrame`. */
  method RotorFrame(rotorRefs: seq<Node?>, delta: real)
    modifies NodesOf(rotorRefs)
    ensures forall node :: node in NodesOf(rotorRefs) ==>
              node.rotationY == old(node.rotationY)
                                + Received(rotorRefs, Alternating(RadPerSec(ModelRpm)), delta, node, |rotorRefs|)
  {
    RpmFrame(ModelRpm, ModelSpinning, rotorRefs, delta);
  }
}
