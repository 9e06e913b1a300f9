/** Rotor animation of the prototype pages: lists of node refs that a
    traversal of the loaded model appends to, a name test for rotor-like
    nodes, and a per-frame spin that advances each listed node's rotation
    about the vertical axis. */
module Rotors {
  import opened Geometry
  import opened Text

  /** How one frame spins the node at index i of a list, in radians per
      second: all alike, alternating in direction by index parity, or only
      every fourth node. */
  datatype SpinRule =
    | Uniform(radPerSec: real)
    | Alternating(radPerSec: real)
    | EveryFourth(radPerSec: real)

  /** `2 * Math.PI * 2`: two turns per second. */
  const TwoTurns: real := 2.0 * PI * 2.0

  /** `rpm * 360 / 60 * (Math.PI / 180)`: revolutions per minute in radians
      per second. */
  function RadPerSec(rpm: real): (w: real)
    ensures w == rpm * (PI / 30.0)
  {
    rpm * 360.0 / 60.0 * (PI / 180.0)
  }

  /** The angle added to the node at index i during a frame of `delta`
      seconds. */
  function Increment(rule: SpinRule, i: nat, delta: real): (a: real)
    ensures rule.Uniform? ==> a == rule.radPerSec * delta
    ensures rule.Alternating? ==>
              a == if i % 2 == 0 then rule.radPerSec * delta else -(rule.radPerSec * delta)
    ensures rule.EveryFourth? ==> a == if i % 4 == 0 then rule.radPerSec * delta else 0.0
  {
    match rule
    case Uniform(w) => w * delta
    case Alternating(w) =>
      var dir := if i % 2 == 0 then 1.0 else -1.0;
      dir * w * delta
    case EveryFourth(w) => if i % 4 == 0 then w * delta else 0.0
  }

  /** Neighbouring rotors of an alternating rule turn by opposite angles. */
  lemma AlternatingOpposite(w: real, i: nat, delta: real)
    ensures Increment(Alternating(w), i + 1, delta) == -Increment(Alternating(w), i, delta)
  {
    if i % 2 == 0 {
      assert (i + 1) % 2 == 1;
    } else {
      assert (i + 1) % 2 == 0;
    }
  }

  /** The total angle a node receives from the first n entries of a list:
      once for every index at which it appears. */
  function Received(refs: seq<Node?>, rule: SpinRule, delta: real, node: Node, n: nat): real
    requires n <= |refs|
  {
    if n == 0 then 0.0
    else Received(refs, rule, delta, node, n - 1)
         + (if refs[n - 1] == node then Increment(rule, n - 1, delta) else 0.0)
  }

  /** In a list without repeated nodes, a node receives the increment of its
      own index and nothing else. */
  lemma {:induction false} ReceivedOnce(refs: seq<Node?>, rule: SpinRule, delta: real, i: nat, n: nat)
    requires DistinctNodes(refs) && i < n <= |refs| && refs[i] != null
    ensures Received(refs, rule, delta, refs[i], n) == Increment(rule, i, delta)
  {
    if n - 1 == i {
      ReceivedNone(refs, rule, delta, i, i);
    } else {
      assert refs[n - 1] != refs[i];
      ReceivedOnce(refs, rule, delta, i, n - 1);
    }
  }

  /** A node of a list without repeats receives nothing from the entries
      before it. */
  lemma {:induction false} ReceivedNone(refs: seq<Node?>, rule: SpinRule, delta: real, i: nat, n: nat)
    requires DistinctNodes(refs) && n <= i < |refs| && refs[i] != null
    ensures Received(refs, rule, delta, refs[i], n) == 0.0
  {
    if n > 0 {
      assert refs[n - 1] != refs[i];
      ReceivedNone(refs, rule, delta, i, n - 1);
    }
  }

  /** One frame of a rotor `useFrame`: every non-null entry of the list, in
      order, gets its rotation advanced by the increment of its index. */
  method Spin(refs: seq<Node?>, rule: SpinRule, delta: real)
    modifies NodesOf(refs)
    ensures forall node :: node in NodesOf(refs) ==>
              node.rotationY == old(node.rotationY) + Received(refs, rule, delta, node, |refs|)
  {
    var i := 0;
    while i < |refs|
      invariant 0 <= i <= |refs|
      invariant forall node :: node in NodesOf(refs) ==>
                  node.rotationY == old(node.rotationY) + Received(refs, rule, delta, node, i)
    {
      var rotor := refs[i];
      if rotor != null {
        assert rotor in NodesOf(refs);
        rotor.rotationY := rotor.rotationY + Increment(rule, i, delta);
      }
      i := i + 1;
    }
  }

  /** The case every page has, where no node is listed twice: each listed
      node turns by the increment of its own index. */
  lemma SpinDistinct(refs: seq<Node?>, rule: SpinRule, delta: real, i: nat)
    requires DistinctNodes(refs) && i < |refs| && refs[i] != null
    ensures Received(refs, rule, delta, refs[i], |refs|) == Increment(rule, i, delta)
  {
    ReceivedOnce(refs, rule, delta, i, |refs|);
  }

  /** Under a uniform rule, every rotor listed once turns by the same angle. */
  lemma UniformSpinAt(w: real, refs: seq<Node?>, delta: real, i: nat)
    requires DistinctNodes(refs) && i < |refs| && refs[i] != null
    ensures Received(refs, Uniform(w), delta, refs[i], |refs|) == w * delta
  {
    SpinDistinct(refs, Uniform(w), delta, i);
  }

  /** Under the every-fourth rule, exactly the nodes at indices divisible by
      four turn; the others keep their rotation. */
  lemma EveryFourthSpinAt(w: real, refs: seq<Node?>, delta: real, i: nat)
    requires DistinctNodes(refs) && i < |refs| && refs[i] != null
    ensures Received(refs, EveryFourth(w), delta, refs[i], |refs|)
            == if i % 4 == 0 then w * delta else 0.0
  {
    SpinDistinct(refs, EveryFourth(w), delta, i);
  }

  /** The rpm-driven `useFrame` of app/page-with-controls.tsx and
      app/page-last-try.tsx: while `spinning`, rotors alternate in direction
      at `rpm` converted to radians per second; otherwise nothing moves. */
  method RpmFrame(rpm: real, spinning: bool, refs: seq<Node?>, delta: real)
    modifies NodesOf(refs)
    ensures spinning ==> forall node :: node in NodesOf(refs) ==>
              node.rotationY == old(node.rotationY)
                                + Received(refs, Alternating(RadPerSec(rpm)), delta, node, |refs|)
    ensures !spinning ==> forall node :: node in NodesOf(refs) ==> node.rotationY == old(node.rotationY)
  {
    if spinning {
      var degPerSec := rpm * 360.0 / 60.0;
      var radPerSec := degPerSec * (PI / 180.0);
      Spin(refs, Alternating(radPerSec), delta);
    }
  }

  /** Under the rpm rule, a rotor listed once at index i turns by rpm/30 of
      a half turn per second, forward at even and backward at odd indices. */
  lemma RpmSpinAt(rpm: real, refs: seq<Node?>, delta: real, i: nat)
    requires DistinctNodes(refs) && i < |refs| && refs[i] != null
    ensures var turn := rpm * (PI / 30.0) * delta;
            Received(refs, Alternating(RadPerSec(rpm)), delta, refs[i], |refs|)
            == if i % 2 == 0 then turn else -turn
  {
    SpinDistinct(refs, Alternating(RadPerSec(rpm)), delta, i);
  }

  /** The rotor test of the GLTF pages: the lowercased name contains one of
      'rotor', 'propeller', 'blade', 'motor', 'prop'. */
  predicate IsRotorName(name: string) {
    var n := Lower(name);
    Contains(n, "rotor") || Contains(n, "propeller") || Contains(n, "blade")
    || Contains(n, "motor") || Contains(n, "prop")
  }

  /** 'propeller' begins with 'prop', so the test is the same without it. */
  lemma RotorNameFourWords(name: string)
    ensures IsRotorName(name) <==>
              var n := Lower(name);
              Contains(n, "rotor") || Contains(n, "blade") || Contains(n, "motor") || Contains(n, "prop")
  {
    var n := Lower(name);
    if Contains(n, "propeller") {
      ContainsPrefix(n, "propeller", "prop");
    }
  }

  /** Which nodes a traversal collects. */
  datatype Selector =
    | RotorNamed        // rotor-like names
    | MeshOrGroup       // nodes of type 'Mesh' or 'Group'

  predicate Selected(sel: Selector, node: Node) {
    match sel
    case RotorNamed => IsRotorName(node.name)
    case MeshOrGroup => node.kind == "Mesh" || node.kind == "Group"
  }

  /** The nodes of a traversal that a selector keeps, in traversal order. */
  function Filter(sel: Selector, nodes: seq<Node>): (r: seq<Node>)
    ensures |r| <= |nodes|
    ensures forall i :: 0 <= i < |r| ==> r[i] in nodes && Selected(sel, r[i])
    ensures forall i :: 0 <= i < |nodes| && Selected(sel, nodes[i]) ==> nodes[i] in r
  {
    if nodes == [] then []
    else
      var rest := Filter(sel, nodes[..|nodes| - 1]);
      assert nodes == nodes[..|nodes| - 1] + [nodes[|nodes| - 1]];
      if Selected(sel, nodes[|nodes| - 1]) then rest + [nodes[|nodes| - 1]] else rest
  }

  /** Filtering a traversal in two parts gives the two filtered parts in
      order. */
  lemma {:induction false} FilterAppend(sel: Selector, a: seq<Node>, b: seq<Node>)
    ensures Filter(sel, a + b) == Filter(sel, a) + Filter(sel, b)
    decreases |b|
  {
    if b == [] {
      assert a + b == a;
    } else {
      var c := b[..|b| - 1];
      assert (a + b)[..|a + b| - 1] == a + c;
      assert (a + b)[|a + b| - 1] == b[|b| - 1];
      FilterAppend(sel, a, c);
    }
  }

  /** Extending a traversal prefix by one node extends its filtered part by
      that node when it is selected. */
  lemma FilterStep(sel: Selector, nodes: seq<Node>, i: nat)
    requires i < |nodes|
    ensures Filter(sel, nodes[..i + 1])
            == Filter(sel, nodes[..i]) + (if Selected(sel, nodes[i]) then [nodes[i]] else [])
  {
    var pre := nodes[..i + 1];
    assert pre[..|pre| - 1] == nodes[..i];
    assert pre[|pre| - 1] == nodes[i];
  }

  /** A `useRef` array of nodes that traversals push into. */
  class NodeList {
    var items: seq<Node?>

    constructor (initial: seq<Node?>)
      ensures items == initial
    {
      items := initial;
    }

    /** A `scene.traverse` whose callback pushes the selected nodes. */
    method Collect(sel: Selector, traversal: seq<Node>)
      modifies this
      ensures items == old(items) + Filter(sel, traversal)
    {
      var i := 0;
      while i < |traversal|
        invariant 0 <= i <= |traversal|
        invariant items == old(items) + Filter(sel, traversal[..i])
      {
        var child := traversal[i];
        FilterStep(sel, traversal, i);
        if Selected(sel, child) {
          items := items + [child];
        }
        i := i + 1;
      }
      assert traversal[..|traversal|] == traversal;
    }
  }
}
