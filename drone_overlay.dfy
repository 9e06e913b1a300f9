/** The 2D drone overlay (app/components/DroneOverlay.tsx): a model viewer in
    a container pinned to the viewport, tilted toward the heading. The screen
    position it computes from the drone position is never used for
    placement. */
module Overlay {
  import opened Geometry
  import opened Wrappers

  /** Pixels per world unit of the screen mapping. */
  const PixelsPerUnit: real := 50.0

  /** The browser window's inner size, absent when rendering on the server. */
  datatype Window = Window(innerWidth: real, innerHeight: real)

  /** `getScreenPosition`: the window centre, shifted by the drone's x to the
      right and by its z upward. */
  function ScreenPosition(window: Option<Window>, drone: Vec3): (r: (real, real))
    ensures window.None? ==> r == (0.0, 0.0)
    ensures window.Some? ==>
              r.0 - window.value.innerWidth / 2.0 == PixelsPerUnit * drone.x
              && window.value.innerHeight / 2.0 - r.1 == PixelsPerUnit * drone.z
  {
    if window.None? then (0.0, 0.0)
    else
      var centerX := window.value.innerWidth / 2.0;
      var centerY := window.value.innerHeight / 2.0;
      (centerX + drone.x * PixelsPerUnit, centerY + -drone.z * PixelsPerUnit)
  }

  /** The mapping is invertible in a window: the drone's x and z can be read
      back from the screen position, and the height plays no part. */
  lemma ScreenPositionInverse(w: Window, drone: Vec3, other: Vec3)
    ensures var (sx, sy) := ScreenPosition(Some(w), drone);
            drone.x == (sx - w.innerWidth / 2.0) / PixelsPerUnit
            && drone.z == (w.innerHeight / 2.0 - sy) / PixelsPerUnit
    ensures ScreenPosition(Some(w), drone) == ScreenPosition(Some(w), other)
            <==> drone.x == other.x && drone.z == other.z
  {
  }

  /** The CSS transform of the container: centred only, or centred and
      tilted by rotateX then rotateZ degrees. */
  datatype Transform = Centred | CentredTilted(rotateX: real, rotateZ: real)

  /** `isFlying ? 1.0 : 0.4`; an absent flag counts as false. */
  function TiltMultiplier(isFlying: Option<bool>): (m: real)
    ensures m == 1.0 <==> isFlying == Some(true)
    ensures m == 1.0 || m == 0.4
  {
    if isFlying == Some(true) then 1.0 else 0.4
  }

  /** `getRotationStyle`: no tilt without a heading; otherwise the x heading
      rolls the model (rotateZ) and the z heading pitches it (rotateX). */
  function RotationStyle(targetDirection: Option<Vec3>, isFlying: Option<bool>): (t: Transform)
    ensures targetDirection.None? <==> t == Centred
    ensures targetDirection.Some? ==>
              t.rotateZ == 25.0 * TiltMultiplier(isFlying) * targetDirection.value.x
              && t.rotateX == -20.0 * TiltMultiplier(isFlying) * targetDirection.value.z
  {
    if targetDirection.None? then Centred
    else
      var m := TiltMultiplier(isFlying);
      var tiltX := targetDirection.value.x * 25.0 * m;
      var tiltZ := -targetDirection.value.z * 20.0 * m;
      CentredTilted(tiltZ, tiltX)
  }

  /** Headings in [-1, 1] keep the roll within 25 and the pitch within 20
      degrees, and the tilt on the ground is 0.4 of the tilt in flight. */
  lemma TiltBounds(dir: Vec3, isFlying: Option<bool>)
    requires -1.0 <= dir.x <= 1.0 && -1.0 <= dir.z <= 1.0
    ensures var t := RotationStyle(Some(dir), isFlying);
            t.CentredTilted? && -25.0 <= t.rotateZ <= 25.0 && -20.0 <= t.rotateX <= 20.0
    ensures isFlying != Some(true) ==>
              var ground := RotationStyle(Some(dir), isFlying);
              var flight := RotationStyle(Some(dir), Some(true));
              ground.rotateZ == 0.4 * flight.rotateZ && ground.rotateX == 0.4 * flight.rotateX
  {
    var m := TiltMultiplier(isFlying);
    assert -1.0 * m <= dir.x * m <= 1.0 * m;
    assert -1.0 * m <= dir.z * m <= 1.0 * m;
  }

  /** The container's style: pinned at 50% from the left and 70% from the
      top, whatever the drone's position, with the heading's transform. */
  datatype Container = Container(leftPercent: real, topPercent: real, transform: Transform)

  function ContainerStyle(dronePosition: Vec3, targetDirection: Option<Vec3>,
                          isFlying: Option<bool>): (c: Container)
    ensures c.transform == RotationStyle(targetDirection, isFlying)
    ensures c.leftPercent == 50.0 && c.topPercent == 70.0
  {
    Container(50.0, 70.0, RotationStyle(targetDirection, isFlying))
  }

  /** The model file shown. */
  const LastTry: string := "/last-try.glb"

  /** The `modelSrc` state and the HEAD probe of the model file. */
  class ModelSource {
    var modelSrc: string

    constructor ()
      ensures modelSrc == LastTry
    {
      modelSrc := LastTry;
    }

    /** The probe's outcome: a success sets the same file again, a failure
        only logs. */
    method ProbeResult(ok: bool)
      modifies this
      ensures modelSrc == if ok then LastTry else old(modelSrc)
    {
      if ok {
        modelSrc := LastTry;
      }
    }
  }

  /** Whatever the probe reports, the source stays the shipped file. */
  method ProbeKeepsSource(ok: bool) returns (src: string)
    ensures src == LastTry
  {
    var source := new ModelSource();
    source.ProbeResult(ok);
    src := source.modelSrc;
  }
}
