/** app/page-animate-all.tsx: the shared prototype controls with the
    standard camera offset; every mesh and group of the loaded model is
    collected, and every fourth of them turns two turns per second.

    The traversal runs over the loaded `scene`, but the page renders
    `scene.clone()`, so the nodes collected and turned here are not the
    displayed ones. */
module AnimateAllPage {
  import opened Geometry
  import opened Rotors
  import opened PrototypeControls

  method Mount(drone: Drone) returns (controls: Controls)
    ensures fresh(controls) && controls.Valid()
    ensures controls.drone == drone && controls.camOffset == StandardOffset
    ensures !controls.isFlying && !controls.isMouseDown
  {
    controls := new Controls(drone, StandardOffset);
  }

  /** The collecting effect: meshes and groups, in traversal order. */
  method CollectObjects(allObjects: NodeList, traversal: seq<Node>)
    modifies allObjects
    ensures allObjects.items == old(allObjects.items) + Filter(MeshOrGroup, traversal)
  {
    allObjects.Collect(MeshOrGroup, traversal);
  }

  /** One frame: only indices divisible by four turn. */
  method RotateFrame(allObjects: seq<Node?>, delta: real)
    modifies NodesOf(allObjects)
    ensures forall node :: node in NodesOf(allObjects) ==>
              node.rotationY == old(node.rotationY)
                                + Received(allObjects, EveryFourth(TwoTurns), delta, node, |allObjects|)
  {
    Spin(allObjects, EveryFourth(TwoTurns), delta);
  }
}
