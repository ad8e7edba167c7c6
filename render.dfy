/** The render pass: the parent-to-child connectors derived from the node list. */
module Render {
  import opened Geometry
  import opened NodeStore

  /** One drawn connector: the parent, the child and the curve between their anchors. */
  datatype Connector = Connector(parent: Node, child: Node, path: Curve)

  /** Where connectors attach to a block: a fixed offset from its top-left corner. */
  function Anchor(n: Node): Point {
    Point(n.x + Offset, n.y + Offset)
  }

  /** The connector drawn from parent p to child c. */
  function Connect(p: Node, c: Node): Connector {
    var from, to := Anchor(p), Anchor(c);
    Connector(p, c, CreatePath(from.x, from.y, to.x, to.y))
  }

  /** The nodes whose parent is `pid`, in list order. */
  function Children(nodes: seq<Node>, pid: int): (r: seq<Node>)
    ensures |r| <= |nodes|
    ensures forall c :: c in r <==> c in nodes && c.parentId == Some(pid)
  {
    if nodes == [] then []
    else (if nodes[0].parentId == Some(pid) then [nodes[0]] else []) + Children(nodes[1..], pid)
  }

  /** The connectors from p to each of its children among `nodes`, in list order. */
  function ConnectorsOf(p: Node, nodes: seq<Node>): seq<Connector> {
    var cs := Children(nodes, p.id);
    seq(|cs|, k requires 0 <= k < |cs| => Connect(p, cs[k]))
  }

  /** For each parent candidate in `parents`, in order, its connectors to `nodes`. */
  function EdgesFrom(parents: seq<Node>, nodes: seq<Node>): seq<Connector> {
    if parents == [] then []
    else ConnectorsOf(parents[0], nodes) + EdgesFrom(parents[1..], nodes)
  }

  /** Every connector the chart draws for the store `nodes`. */
  function Edges(nodes: seq<Node>): seq<Connector> {
    EdgesFrom(nodes, nodes)
  }

  // ---------------------------------------------------------------------------
  // Which connectors are drawn

  /** A connector is drawn exactly for a parent/child pair. */
  predicate Drawn(parents: seq<Node>, nodes: seq<Node>, e: Connector) {
    && e.parent in parents
    && e.child in nodes
    && e.child.parentId == Some(e.parent.id)
    && e == Connect(e.parent, e.child)
  }

  lemma ConnectorsOfMember(p: Node, nodes: seq<Node>, e: Connector)
    ensures e in ConnectorsOf(p, nodes) <==> e.parent == p && Drawn([p], nodes, e)
  {
    var cs := Children(nodes, p.id);
    var r := ConnectorsOf(p, nodes);
    if e.parent == p && Drawn([p], nodes, e) {
      assert e.child in cs;
      var k :| 0 <= k < |cs| && cs[k] == e.child;
      assert r[k] == e;
    }
  }

  /** The connectors derived from `parents` are exactly the drawn pairs. */
  lemma {:induction false} EdgesFromMember(parents: seq<Node>, nodes: seq<Node>, e: Connector)
    ensures e in EdgesFrom(parents, nodes) <==> Drawn(parents, nodes, e)
    decreases |parents|
  {
    if parents != [] {
      ConnectorsOfMember(parents[0], nodes, e);
      EdgesFromMember(parents[1..], nodes, e);
      assert parents == [parents[0]] + parents[1..];
    }
  }

  /** The chart draws a connector exactly for each node c and its parent p, from
      p's anchor to c's anchor. */
  lemma EdgesMember(nodes: seq<Node>, e: Connector)
    ensures e in Edges(nodes) <==>
      && e.parent in nodes && e.child in nodes
      && e.child.parentId == Some(e.parent.id)
      && e.path == CreatePath(Anchor(e.parent).x, Anchor(e.parent).y, Anchor(e.child).x, Anchor(e.child).y)
  {
    EdgesFromMember(nodes, nodes, e);
  }

  // ---------------------------------------------------------------------------
  // How many connectors are drawn

  /** How many of `parents` have `Some(id)` equal to v. */
  function Hits(parents: seq<Node>, v: Option<int>): nat {
    if parents == [] then 0
    else (if v == Some(parents[0].id) then 1 else 0) + Hits(parents[1..], v)
  }

  /** Putting a node c in front of the children list adds one connector per parent it names. */
  lemma {:induction false} EdgesFromCons(parents: seq<Node>, c: Node, nodes: seq<Node>)
    ensures |EdgesFrom(parents, [c] + nodes)| == Hits(parents, c.parentId) + |EdgesFrom(parents, nodes)|
    decreases |parents|
  {
    if parents != [] {
      var cs := [c] + nodes;
      assert cs[1..] == nodes;
      EdgesFromCons(parents[1..], c, nodes);
    }
  }

  lemma {:induction false} EdgesFromNoChildren(parents: seq<Node>)
    ensures EdgesFrom(parents, []) == []
    decreases |parents|
  {
    if parents != [] {
      EdgesFromNoChildren(parents[1..]);
    }
  }

  /** When `parents` carry consecutive ids from `base`, a value names exactly one of
      them if it lies in that range, and none otherwise. */
  lemma {:induction false} HitsConsecutive(parents: seq<Node>, base: int, v: Option<int>)
    requires forall i :: 0 <= i < |parents| ==> parents[i].id == base + i
    ensures Hits(parents, v) == if v.Some? && base <= v.value < base + |parents| then 1 else 0
    decreases |parents|
  {
    if parents != [] {
      HitsConsecutive(parents[1..], base + 1, v);
    }
  }

  /** Each child naming a parent of a well-formed store is drawn exactly once. */
  lemma {:induction false} EdgesFromCount(parents: seq<Node>, cs: seq<Node>)
    requires IdsAreIndices(parents)
    requires forall k :: 0 <= k < |cs| ==>
      cs[k].parentId.Some? && 0 <= cs[k].parentId.value < |parents|
    ensures |EdgesFrom(parents, cs)| == |cs|
    decreases |cs|
  {
    if cs == [] {
      EdgesFromNoChildren(parents);
    } else {
      assert cs == [cs[0]] + cs[1..];
      EdgesFromCons(parents, cs[0], cs[1..]);
      HitsConsecutive(parents, 0, cs[0].parentId);
      EdgesFromCount(parents, cs[1..]);
    }
  }

  /** A well-formed store of n nodes draws n - 1 connectors: one per non-root node. */
  lemma EdgesCount(nodes: seq<Node>)
    requires WellFormed(nodes)
    ensures |Edges(nodes)| == |nodes| - 1
  {
    assert nodes == [nodes[0]] + nodes[1..];
    EdgesFromCons(nodes, nodes[0], nodes[1..]);
    HitsConsecutive(nodes, 0, nodes[0].parentId);
    EdgesFromCount(nodes, nodes[1..]);
  }

  // ---------------------------------------------------------------------------
  // In which order connectors are drawn

  /** Connector a is drawn before b: by parent id, then by child id. */
  predicate Before(a: Connector, b: Connector) {
    a.parent.id < b.parent.id || (a.parent.id == b.parent.id && a.child.id < b.child.id)
  }

  predicate SortedEdges(es: seq<Connector>) {
    forall k, l :: 0 <= k < l < |es| ==> Before(es[k], es[l])
  }

  predicate IncreasingIds(nodes: seq<Node>) {
    forall i, j :: 0 <= i < j < |nodes| ==> nodes[i].id < nodes[j].id
  }

  /** The children of a node keep the list order. */
  lemma {:induction false} ChildrenIncreasing(nodes: seq<Node>, pid: int)
    requires IncreasingIds(nodes)
    ensures IncreasingIds(Children(nodes, pid))
    decreases |nodes|
  {
    if nodes != [] {
      var rest := nodes[1..];
      ChildrenIncreasing(rest, pid);
      forall c | c in Children(rest, pid) ensures nodes[0].id < c.id {
        var j :| 0 <= j < |rest| && rest[j] == c;
        assert nodes[j + 1] == c;
      }
    }
  }

  lemma SortedConcat(a: seq<Connector>, b: seq<Connector>)
    requires SortedEdges(a) && SortedEdges(b)
    requires forall x, y :: x in a && y in b ==> Before(x, y)
    ensures SortedEdges(a + b)
  {
  }

  lemma {:induction false} EdgesFromSorted(parents: seq<Node>, nodes: seq<Node>)
    requires IncreasingIds(parents) && IncreasingIds(nodes)
    ensures SortedEdges(EdgesFrom(parents, nodes))
    decreases |parents|
  {
    if parents != [] {
      var p := parents[0];
      var block := ConnectorsOf(p, nodes);
      var rest := EdgesFrom(parents[1..], nodes);
      ChildrenIncreasing(nodes, p.id);
      EdgesFromSorted(parents[1..], nodes);
      forall x, y | x in block && y in rest ensures Before(x, y) {
        ConnectorsOfMember(p, nodes, x);
        EdgesFromMember(parents[1..], nodes, y);
        var j :| 0 <= j < |parents[1..]| && parents[1..][j] == y.parent;
        assert parents[j + 1] == y.parent;
      }
      SortedConcat(block, rest);
    }
  }

  /** Connectors come grouped by parent in list order and, within a parent, by
      child in list order; so no (parent, child) pair, and no drawing key built
      from the two ids, is repeated. */
  lemma EdgesSorted(nodes: seq<Node>)
    requires WellFormed(nodes)
    ensures SortedEdges(Edges(nodes))
  {
    EdgesFromSorted(nodes, nodes);
  }

  lemma ChildrenStep(c: Node, rest: seq<Node>, pid: int)
    ensures Children([c] + rest, pid)
         == (if c.parentId == Some(pid) then [c] else []) + Children(rest, pid)
  {
  }

  lemma EdgesFromStep(p: Node, rest: seq<Node>, nodes: seq<Node>)
    ensures EdgesFrom([p] + rest, nodes) == ConnectorsOf(p, nodes) + EdgesFrom(rest, nodes)
  {
  }

  /** The connectors of p in `nodes` when its children there are exactly `cs`. */
  lemma ConnectorsOfChildren(p: Node, nodes: seq<Node>, cs: seq<Node>)
    requires Children(nodes, p.id) == cs
    ensures |ConnectorsOf(p, nodes)| == |cs|
    ensures forall k :: 0 <= k < |cs| ==> ConnectorsOf(p, nodes)[k] == Connect(p, cs[k])
  {
  }

  /** The example tree {0: root, 1: child of 0, 2: child of 0, 3: child of 1},
      node k placed at (xs[k], ys[k]). */
  function ExampleTree(xs: seq<real>, ys: seq<real>): (r: seq<Node>)
    requires |xs| == 4 && |ys| == 4
  {
    [Node(0, None, xs[0], ys[0]), Node(1, Some(0), xs[1], ys[1]),
     Node(2, Some(0), xs[2], ys[2]), Node(3, Some(1), xs[3], ys[3])]
  }

  /** An example: with nodes {0: root, 1: child of 0, 2: child of 0, 3: child of 1},
      wherever they are placed, the chart draws exactly (0, 1), (0, 2), (1, 3), in that order. */
  lemma EdgesExample(xs: seq<real>, ys: seq<real>)
    requires |xs| == 4 && |ys| == 4
    ensures var ns := ExampleTree(xs, ys);
      Edges(ns) == [Connect(ns[0], ns[1]), Connect(ns[0], ns[2]), Connect(ns[1], ns[3])]
  {
    var ns := ExampleTree(xs, ys);
    var n0, n1, n2, n3 := ns[0], ns[1], ns[2], ns[3];
    assert ns == [n0, n1, n2, n3];
    ExampleConnectors(xs, ys);
    EdgesFromStep(n3, [], ns);
    EdgesFromStep(n2, [n3], ns);
    EdgesFromStep(n1, [n2, n3], ns);
    EdgesFromStep(n0, [n1, n2, n3], ns);
  }

  lemma ExampleConnectors(xs: seq<real>, ys: seq<real>)
    requires |xs| == 4 && |ys| == 4
    ensures var ns := ExampleTree(xs, ys);
      && ConnectorsOf(ns[0], ns) == [Connect(ns[0], ns[1]), Connect(ns[0], ns[2])]
      && ConnectorsOf(ns[1], ns) == [Connect(ns[1], ns[3])]
      && ConnectorsOf(ns[2], ns) == [] && ConnectorsOf(ns[3], ns) == []
  {
    var ns := ExampleTree(xs, ys);
    ExampleChildrenOf(xs, ys, 0);
    ExampleChildrenOf(xs, ys, 1);
    ExampleChildrenOf(xs, ys, 2);
    ExampleChildrenOf(xs, ys, 3);
    ConnectorsOfChildren(ns[0], ns, [ns[1], ns[2]]);
    ConnectorsOfChildren(ns[1], ns, [ns[3]]);
    ConnectorsOfChildren(ns[2], ns, []);
    ConnectorsOfChildren(ns[3], ns, []);
  }

  lemma ExampleChildrenOf(xs: seq<real>, ys: seq<real>, pid: int)
    requires |xs| == 4 && |ys| == 4
    ensures var ns := ExampleTree(xs, ys);
      Children(ns, pid)
        == (if pid == 0 then [ns[1], ns[2]] else []) + (if pid == 1 then [ns[3]] else [])
  {
    var ns := ExampleTree(xs, ys);
    var n0, n1, n2, n3 := ns[0], ns[1], ns[2], ns[3];
    assert ns == [n0, n1, n2, n3];
    ChildrenStep(n3, [], pid);
    ChildrenStep(n2, [n3], pid);
    ChildrenStep(n1, [n2, n3], pid);
    ChildrenStep(n0, [n1, n2, n3], pid);
  }

  /** After a node is dragged to the pointer, every connector touching it ends at the pointer. */
  lemma MovedConnectorsFollow(nodes: seq<Node>, id: int, clientX: real, clientY: real, e: Connector)
    requires e in Edges(Moved(nodes, Some(id), clientX, clientY))
    ensures e.parent.id == id ==> e.path.start == Point(clientX, clientY)
    ensures e.child.id == id ==> e.path.end == Point(clientX, clientY)
  {
    EdgesMember(Moved(nodes, Some(id), clientX, clientY), e);
  }
}
