/** Vectors, linear interpolation and the scene objects that the per-frame
    routines of the drone pages mutate in place: the render camera, the drone
    group and nodes of a loaded model. Quaternion maths (slerp, look-at
    rotations) belongs to the 3D library and is kept symbolic here. */
module Geometry {

  datatype Vec3 = Vec3(x: real, y: real, z: real)

  function Add(a: Vec3, b: Vec3): Vec3 {
    Vec3(a.x + b.x, a.y + b.y, a.z + b.z)
  }

  function Sub(a: Vec3, b: Vec3): Vec3 {
    Vec3(a.x - b.x, a.y - b.y, a.z - b.z)
  }

  function Scale(a: Vec3, k: real): Vec3 {
    Vec3(a.x * k, a.y * k, a.z * k)
  }

  /** The library's `lerp`/`lerpVectors`: each component becomes a + (b - a) * t. */
  function Lerp(a: Vec3, b: Vec3, t: real): Vec3 {
    Vec3(a.x + (b.x - a.x) * t, a.y + (b.y - a.y) * t, a.z + (b.z - a.z) * t)
  }

  /** After one lerp step of rate t the remaining gap to the target is the old
      gap scaled by 1 - t; at t = 1 the target is reached exactly, at t = 0
      nothing moves. */
  lemma LerpGap(a: Vec3, b: Vec3, t: real)
    ensures Sub(Lerp(a, b, t), b) == Scale(Sub(a, b), 1.0 - t)
    ensures Lerp(a, b, 1.0) == b && Lerp(a, b, 0.0) == a
    ensures Lerp(b, b, t) == b
  {
    assert (a.x + (b.x - a.x) * t) - b.x == (a.x - b.x) * (1.0 - t);
    assert (a.y + (b.y - a.y) * t) - b.y == (a.y - b.y) * (1.0 - t);
    assert (a.z + (b.z - a.z) * t) - b.z == (a.z - b.z) * (1.0 - t);
  }

  /** One frame of flight along a heading: the heading's horizontal part
      scaled by the distance flown. The height never changes. */
  function Fly(pos: Vec3, dir: Vec3, distance: real): (r: Vec3)
    ensures r.y == pos.y
    ensures r.x - pos.x == dir.x * distance && r.z - pos.z == dir.z * distance
  {
    Add(pos, Scale(Vec3(dir.x, 0.0, dir.z), distance))
  }

  /** One frame of a follow camera: a lerp at `rate` toward the point at
      `offset` from the followed position. */
  function Follow(cam: Vec3, followed: Vec3, offset: Vec3, rate: real): Vec3 {
    Lerp(cam, Add(followed, offset), rate)
  }

  /** Each follow step scales the gap to the follow point by 1 - rate; a
      camera already there stays there. */
  lemma FollowGap(cam: Vec3, followed: Vec3, offset: Vec3, rate: real)
    ensures Sub(Follow(cam, followed, offset, rate), Add(followed, offset))
            == Scale(Sub(cam, Add(followed, offset)), 1.0 - rate)
    ensures cam == Add(followed, offset) ==> Follow(cam, followed, offset, rate) == cam
  {
    LerpGap(cam, Add(followed, offset), rate);
  }

  /** An orientation as the library computes it, kept as the term that
      produced it: the initial identity rotation, or a slerp of a previous
      orientation toward the look-at rotation facing `toward` at `rate`. */
  datatype Orientation = Identity | Slerped(from: Orientation, toward: Vec3, rate: real)

  /** The render camera: its position, and the point its last `lookAt` call
      aimed at (the rotation that call computes is the library's). */
  class Camera {
    var position: Vec3
    var target: Vec3

    constructor (position: Vec3, target: Vec3)
      ensures this.position == position && this.target == target
    {
      this.position := position;
      this.target := target;
    }
  }

  /** The drone group of a page: its position and orientation, both updated
      in place every frame. */
  class Drone {
    var position: Vec3
    var orientation: Orientation

    constructor (position: Vec3)
      ensures this.position == position && orientation == Identity
    {
      this.position := position;
      orientation := Identity;
    }
  }

  /** A node of a loaded model; the rotor animations only ever change its
      rotation about the vertical axis. */
  class Node {
    const name: string
    const kind: string
    var rotationY: real

    constructor (name: string, kind: string, rotationY: real)
      ensures this.name == name && this.kind == kind && this.rotationY == rotationY
    {
      this.name := name;
      this.kind := kind;
      this.rotationY := rotationY;
    }
  }

  /** No node occurs twice among the non-null entries of a ref list. */
  ghost predicate DistinctNodes(refs: seq<Node?>) {
    forall i, j :: 0 <= i < j < |refs| && refs[i] != null ==> refs[i] != refs[j]
  }

  /** The nodes of a ref list, as a frame. */
  ghost function NodesOf(refs: seq<Node?>): set<Node> {
    set i | 0 <= i < |refs| && refs[i] != null :: refs[i]
  }

  /** The value of `Math.PI`, written as the shortest decimal that reads back
      to the same double. */
  const PI: real := 3.141592653589793

  /** `root` is the square root of `v`. */
  ghost predicate IsSqrt(root: real, v: real) {
    0.0 <= root && root * root == v
  }

  /** Squaring keeps a strict order between non-negative reals. */
  lemma SquareLess(a: real, b: real)
    requires 0.0 <= a < b
    ensures a * a < b * b
  {
    var c := b - a;
    assert b * c > 0.0;
    assert a * c >= 0.0;
    assert b * b == a * a + a * c + b * c;
  }

  /** Comparing a squared distance with the square of a positive limit
      decides exactly what comparing the distance itself decides. */
  lemma SqrtLess(dist: real, v: real, limit: real)
    requires IsSqrt(dist, v)
    ensures (0.0 < limit && v < limit * limit) <==> dist < limit
  {
    if 0.0 < limit {
      if dist < limit {
        SquareLess(dist, limit);
      } else {
        assert dist * dist >= dist * limit >= limit * limit;
      }
    }
  }
}
