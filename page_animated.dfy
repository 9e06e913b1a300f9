/** app/page-animated.tsx: the shared prototype controls with the standard
    camera offset; the model's own animation clips are played by the
    animation library. */
module AnimatedPage {
  import opened Geometry
  import opened PrototypeControls

  method Mount(drone: Drone) returns (controls: Controls)
    ensures fresh(controls) && controls.Valid()
    ensures controls.drone == drone && controls.camOffset == StandardOffset
    ensures !controls.isFlying && !controls.isMouseDown
  {
    controls := new Controls(drone, StandardOffset);
  }
}
