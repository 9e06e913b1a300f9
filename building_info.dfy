/** The building info panel (app/components/BuildingInfo.tsx): after every
    change of the drone position it shows the first building of a constant
    table whose sphere of influence contains the drone, or hides itself. */
module BuildingInfoPanel {
  import opened Geometry
  import opened Wrappers

  /** A table entry: a centre, the texts shown, and the radius (`distance`)
      within which the entry is shown. */
  datatype Info = Info(position: Vec3, title: string, subtitle: string,
                       description: string, distance: real)

  /** `BUILDINGS`. */
  const Buildings: seq<Info> := [
    Info(Vec3(0.0, 0.0, 3.0), "Berlin Tempelhof", "Das Wohnprojekt",
         "Neubau eines 11-Parteienhauses in Berlin Tempelhof mit moderner Bauweise und nachhaltigen Materialien. Das Projekt zeichnet sich durch innovative architektonische Lösungen und energieeffiziente Bauweise aus.",
         3.0),
    Info(Vec3(-7.7, 0.0, -6.0), "Hamburg Veddel", "Das Infrastrukturprojekt",
         "Projekt DB-Gleisquerung Veddel in Hamburg. Innovatives Bauvorhaben zur Verbesserung der Verkehrsinfrastruktur mit modernen Brückenbau-Lösungen.",
         8.0)
  ]

  function Sq(r: real): real {
    r * r
  }

  /** The squared 3D distance, the height included. */
  function SquaredDistance(a: Vec3, b: Vec3): real {
    Sq(a.x - b.x) + Sq(a.y - b.y) + Sq(a.z - b.z)
  }

  /** The drone is strictly inside the entry's sphere. A square root is never
      negative, so an entry with a radius of 0 or less is never in range. */
  predicate InRange(drone: Vec3, b: Info) {
    0.0 < b.distance && SquaredDistance(drone, b.position) < b.distance * b.distance
  }

  /** `Math.sqrt(dx*dx + dy*dy + dz*dz) < building.distance`, decided on
      squares. */
  lemma InRangeIsDistanceTest(drone: Vec3, b: Info, dist: real)
    requires IsSqrt(dist, SquaredDistance(drone, b.position))
    ensures InRange(drone, b) <==> dist < b.distance
  {
    SqrtLess(dist, SquaredDistance(drone, b.position), b.distance);
  }

  /** Entry i is the first entry of the table in range of the drone. */
  predicate FirstMatchAt(drone: Vec3, table: seq<Info>, i: int) {
    0 <= i < |table| && InRange(drone, table[i])
    && forall j :: 0 <= j < i ==> !InRange(drone, table[j])
  }

  /** The search loop: the first entry in range, in table order, or none. */
  function FindFirst(drone: Vec3, table: seq<Info>): (r: Option<Info>)
    ensures r.None? <==> forall j :: 0 <= j < |table| ==> !InRange(drone, table[j])
    ensures r.Some? ==> exists i :: FirstMatchAt(drone, table, i) && table[i] == r.value
  {
    if table == [] then None
    else if InRange(drone, table[0]) then
      assert FirstMatchAt(drone, table, 0);
      Some(table[0])
    else
      var r := FindFirst(drone, table[1..]);
      if r.Some? then
        var i :| FirstMatchAt(drone, table[1..], i) && table[1..][i] == r.value;
        assert FirstMatchAt(drone, table, i + 1);
        r
      else
        assert forall j :: 1 <= j < |table| ==> table[j] == table[1..][j - 1];
        r
  }

  /** The search picks exactly the entry at the first matching index. */
  lemma FindFirstAt(drone: Vec3, table: seq<Info>, i: int)
    requires FirstMatchAt(drone, table, i)
    ensures FindFirst(drone, table) == Some(table[i])
  {
    var r := FindFirst(drone, table);
    var k :| FirstMatchAt(drone, table, k) && table[k] == r.value;
    if k < i {
      assert false;
    } else if i < k {
      assert false;
    }
  }

  /** `c * x < c * y` for a positive factor. */
  lemma {:induction false} ScaleLess(c: real, x: real, y: real)
    requires 0.0 < c && x < y
    ensures c * x < c * y
  {
    assert c * y - c * x == c * (y - x);
  }

  /** `c * x <= c * y` for a positive factor. */
  lemma {:induction false} ScaleAtMost(c: real, x: real, y: real)
    requires 0.0 < c && x <= y
    ensures c * x <= c * y
  {
    assert c * y - c * x == c * (y - x);
  }

  /** One axis of the weighted bound behind the triangle inequality: the
      difference of the two sides is the square (r2·u + r1·v)^2 with
      u = p - a and v = p - b. */
  lemma {:induction false} WeightedAxisGap(p: real, a: real, b: real, r1: real, r2: real)
    ensures r1 * r2 * Sq(a - b) <= r2 * (r1 + r2) * Sq(p - a) + r1 * (r1 + r2) * Sq(p - b)
  {
    var u, v := p - a, p - b;
    var w := r2 * u + r1 * v;
    assert 0.0 <= w * w;
    assert a - b == v - u;
    assert w * w == r2 * r2 * (u * u) + 2.0 * r1 * r2 * (u * v) + r1 * r1 * (v * v);
    assert r1 * r2 * ((v - u) * (v - u)) == r1 * r2 * (u * u) - 2.0 * r1 * r2 * (u * v) + r1 * r2 * (v * v);
  }

  /** The weighted bound on all three axes. */
  lemma {:induction false} SumOfGaps(p: Vec3, a: Vec3, b: Vec3, r1: real, r2: real)
    ensures r1 * r2 * SquaredDistance(a, b)
            <= r2 * (r1 + r2) * SquaredDistance(p, a) + r1 * (r1 + r2) * SquaredDistance(p, b)
  {
    WeightedAxisGap(p.x, a.x, b.x, r1, r2);
    WeightedAxisGap(p.y, a.y, b.y, r1, r2);
    WeightedAxisGap(p.z, a.z, b.z, r1, r2);
    var k, m, n := r1 * r2, r2 * (r1 + r2), r1 * (r1 + r2);
    assert k * SquaredDistance(a, b) == k * Sq(a.x - b.x) + k * Sq(a.y - b.y) + k * Sq(a.z - b.z);
    assert m * SquaredDistance(p, a) == m * Sq(p.x - a.x) + m * Sq(p.y - a.y) + m * Sq(p.z - a.z);
    assert n * SquaredDistance(p, b) == n * Sq(p.x - b.x) + n * Sq(p.y - b.y) + n * Sq(p.z - b.z);
  }

  /** A point strictly within r1 of one centre and strictly within r2 of
      another puts the centres strictly within r1 + r2 of each other (all
      distances squared). */
  lemma {:induction false} WeightedBound(r1: real, r2: real, pa: real, pb: real, ab: real)
    requires 0.0 < r1 && 0.0 < r2 && pa < r1 * r1 && pb < r2 * r2
    requires r1 * r2 * ab <= r2 * (r1 + r2) * pa + r1 * (r1 + r2) * pb
    ensures ab < (r1 + r2) * (r1 + r2)
  {
    var s := r1 + r2;
    ScaleLess(r2 * s, pa, r1 * r1);
    ScaleLess(r1 * s, pb, r2 * r2);
    assert r2 * s * (r1 * r1) + r1 * s * (r2 * r2) == r1 * r2 * (s * s);
    if s * s <= ab {
      ScaleAtMost(r1 * r2, s * s, ab);
      assert false;
    }
  }

  /** Two entries whose spheres do not overlap: positive radii, and centres
      at least the sum of the radii apart. */
  predicate SpheresApart(a: Info, b: Info) {
    0.0 < a.distance && 0.0 < b.distance
    && Sq(a.distance + b.distance) <= SquaredDistance(a.position, b.position)
  }

  /** No drone position is in range of two entries whose spheres are apart. */
  lemma {:induction false} DisjointSpheres(drone: Vec3, a: Info, b: Info)
    requires SpheresApart(a, b)
    ensures !(InRange(drone, a) && InRange(drone, b))
  {
    var r1, r2 := a.distance, b.distance;
    var pa, pb := SquaredDistance(drone, a.position), SquaredDistance(drone, b.position);
    var ab := SquaredDistance(a.position, b.position);
    SumOfGaps(drone, a.position, b.position, r1, r2);
    if pa < r1 * r1 && pb < r2 * r2 {
      WeightedBound(r1, r2, pa, pb, ab);
    }
  }

  /** For two entries whose spheres are apart, the first-match order does not
      matter: searching them in either order selects the same entry. */
  lemma OrderImmaterial(drone: Vec3, a: Info, b: Info)
    requires SpheresApart(a, b)
    ensures FindFirst(drone, [a, b]) == FindFirst(drone, [b, a])
  {
    DisjointSpheres(drone, a, b);
    if InRange(drone, a) {
      FindFirstAt(drone, [a, b], 0);
      FindFirstAt(drone, [b, a], 1);
    } else if InRange(drone, b) {
      FindFirstAt(drone, [a, b], 1);
      FindFirstAt(drone, [b, a], 0);
    }
  }

  /** The shipped spheres are apart: their centres are sqrt(140.29) apart,
      more than the 3 + 8 their radii add up to. So DisjointSpheres and
      OrderImmaterial apply to the shipped table. */
  lemma ShippedApart()
    ensures SquaredDistance(Buildings[0].position, Buildings[1].position) == 140.29
    ensures SpheresApart(Buildings[0], Buildings[1])
    ensures Buildings == [Buildings[0], Buildings[1]]
  {
  }

  /** The two container styles of the rendered panel. */
  datatype Placement = CentredRight | BottomLeft

  /** The component's state. */
  class Panel {
    var visibleInfo: Option<Info>

    constructor ()
      ensures visibleInfo == None
    {
      visibleInfo := None;
    }

    /** The effect run on every change of `dronePosition` or `alwaysShow`:
        the selection depends on the drone position only. */
    method Effect(dronePosition: Vec3, alwaysShow: bool)
      modifies this
      ensures visibleInfo == FindFirst(dronePosition, Buildings)
    {
      visibleInfo := FindFirst(dronePosition, Buildings);
    }

    /** What the component renders: nothing without a selection, otherwise
        the selected entry in the container `alwaysShow` picks. */
    function Render(alwaysShow: bool): (r: Option<(Info, Placement)>)
      reads this
      ensures r.None? <==> visibleInfo.None?
      ensures r.Some? ==> r.value.0 == visibleInfo.value
      ensures r.Some? ==> (r.value.1 == CentredRight <==> alwaysShow)
    {
      if visibleInfo.None? then None
      else Some((visibleInfo.value, if alwaysShow then CentredRight else BottomLeft))
    }
  }
}
