/** The node list held by the chart, and the two updates the handlers apply to it. */
module NodeStore {

  datatype Option<T> = None | Some(value: T)

  /** A block of the chart: `parentId == None` marks the root; (x, y) is its top-left corner. */
  datatype Node = Node(id: int, parentId: Option<int>, x: real, y: real)

  /** A fixed offset from a block's top-left corner: connectors attach this far right
      of and below the corner, and a dragged block is placed so that this point is
      under the pointer. It is a constant, not half of the rendered block size. */
  const Offset: real := 20.0

  /** Width and height of the area a new block is placed in at random. */
  const SpreadX: real := 1000.0
  const SpreadY: real := 500.0

  /** The store when the chart is mounted: the root alone, at (200, 200). */
  function Initial(): seq<Node> {
    [Node(0, None, 200.0, 200.0)]
  }

  /** The node at index i carries id i, so ids are unique and locate their node. */
  predicate IdsAreIndices(nodes: seq<Node>) {
    forall i :: 0 <= i < |nodes| ==> nodes[i].id == i
  }

  /** Only the first node is a root; every other node names an earlier node as parent. */
  predicate ParentsPrecede(nodes: seq<Node>) {
    && |nodes| > 0
    && nodes[0].parentId == None
    && forall i :: 0 < i < |nodes| ==>
         nodes[i].parentId.Some? && 0 <= nodes[i].parentId.value < i
  }

  /** The invariant of every store the chart can reach. */
  predicate WellFormed(nodes: seq<Node>) {
    IdsAreIndices(nodes) && ParentsPrecede(nodes)
  }

  /** The store after adding a child of `parentId`; `r1` and `r2` are the two draws
      of the random source that place the new block. */
  function Added(nodes: seq<Node>, parentId: int, r1: real, r2: real): seq<Node> {
    nodes + [Node(|nodes|, Some(parentId), r1 * SpreadX, r2 * SpreadY)]
  }

  /** One element of a move: the node with the matching id is placed so that its
      anchor is at the pointer; every other node is returned as it is. A missing
      id (an unparsable drop payload) matches nothing. */
  function Relocated(n: Node, target: Option<int>, clientX: real, clientY: real): Node {
    if target == Some(n.id) then n.(x := clientX - Offset, y := clientY - Offset) else n
  }

  /** The store after moving node `target` to the pointer at (clientX, clientY). */
  function Moved(nodes: seq<Node>, target: Option<int>, clientX: real, clientY: real): seq<Node> {
    seq(|nodes|, i requires 0 <= i < |nodes| => Relocated(nodes[i], target, clientX, clientY))
  }

  // ---------------------------------------------------------------------------
  // Initial state

  lemma InitialState()
    ensures |Initial()| == 1
    ensures Initial()[0] == Node(0, None, 200.0, 200.0)
    ensures WellFormed(Initial())
  {
  }

  // ---------------------------------------------------------------------------
  // Invariant consequences

  /** Ids are unique. */
  lemma IdsUnique(nodes: seq<Node>, i: int, j: int)
    requires IdsAreIndices(nodes)
    requires 0 <= i < |nodes| && 0 <= j < |nodes|
    ensures nodes[i].id == nodes[j].id <==> i == j
  {
  }

  /** The root is the only node without a parent, and every parent exists. */
  lemma ParentExists(nodes: seq<Node>, i: int)
    requires WellFormed(nodes)
    requires 0 <= i < |nodes|
    ensures nodes[i].parentId == None <==> i == 0
    ensures nodes[i].parentId.Some? ==>
      var p := nodes[i].parentId.value;
      0 <= p < |nodes| && nodes[p].id == p
  {
  }

  /** Following parent links from any node strictly decreases the id, so a chain of
      one or more parent steps never comes back to where it started: the parent
      relation has no cycle. */
  lemma {:induction false} ParentChainDescends(nodes: seq<Node>, chain: seq<int>)
    requires WellFormed(nodes)
    requires |chain| >= 2
    requires forall k :: 0 <= k < |chain| ==> 0 <= chain[k] < |nodes|
    requires forall k :: 0 <= k < |chain| - 1 ==> nodes[chain[k]].parentId == Some(chain[k + 1])
    ensures chain[|chain| - 1] < chain[0]
  {
    if |chain| > 2 {
      ParentChainDescends(nodes, chain[1..]);
    }
  }

  /** The ancestors of node i, from i itself up to the root. */
  function AncestorPath(nodes: seq<Node>, i: int): (r: seq<int>)
    requires WellFormed(nodes)
    requires 0 <= i < |nodes|
    ensures |r| >= 1 && r[0] == i && r[|r| - 1] == 0
    ensures forall k :: 0 <= k < |r| ==> 0 <= r[k] < |nodes|
    ensures forall k :: 0 <= k < |r| - 1 ==> nodes[r[k]].parentId == Some(r[k + 1])
    decreases i
  {
    if i == 0 then [0] else [i] + AncestorPath(nodes, nodes[i].parentId.value)
  }

  // ---------------------------------------------------------------------------
  // Adding a child

  /** Adding a child to a store of n nodes gives n + 1 nodes; the new last node has
      id n, the given parent and a position inside the placement area, and the
      earlier nodes are untouched. */
  lemma AddedShape(nodes: seq<Node>, parentId: int, r1: real, r2: real)
    requires 0.0 <= r1 < 1.0 && 0.0 <= r2 < 1.0
    ensures var r := Added(nodes, parentId, r1, r2);
      && |r| == |nodes| + 1
      && r[..|nodes|] == nodes
      && r[|nodes|].id == |nodes|
      && r[|nodes|].parentId == Some(parentId)
      && 0.0 <= r[|nodes|].x < SpreadX
      && 0.0 <= r[|nodes|].y < SpreadY
  {
  }

  /** Adding a child of an existing node keeps the invariant. */
  lemma AddedWellFormed(nodes: seq<Node>, parentId: int, r1: real, r2: real)
    requires WellFormed(nodes)
    requires 0 <= parentId < |nodes|
    ensures WellFormed(Added(nodes, parentId, r1, r2))
  {
  }

  // ---------------------------------------------------------------------------
  // Moving a node

  /** A move keeps the length and every id and parent; the node with the target id
      gets its anchor at the pointer, and every other node is unchanged. */
  lemma MovedShape(nodes: seq<Node>, target: Option<int>, clientX: real, clientY: real, i: int)
    requires 0 <= i < |nodes|
    ensures var r := Moved(nodes, target, clientX, clientY);
      && |r| == |nodes|
      && r[i].id == nodes[i].id
      && r[i].parentId == nodes[i].parentId
      && (target != Some(nodes[i].id) ==> r[i] == nodes[i])
      && (target == Some(nodes[i].id) ==>
            r[i].x + Offset == clientX && r[i].y + Offset == clientY)
  {
  }

  /** A move whose id matches no node (including an unparsable one) changes nothing. */
  lemma MovedNoMatch(nodes: seq<Node>, target: Option<int>, clientX: real, clientY: real)
    requires forall i :: 0 <= i < |nodes| ==> target != Some(nodes[i].id)
    ensures Moved(nodes, target, clientX, clientY) == nodes
  {
  }

  /** A move keeps the invariant. */
  lemma MovedWellFormed(nodes: seq<Node>, target: Option<int>, clientX: real, clientY: real)
    requires WellFormed(nodes)
    ensures WellFormed(Moved(nodes, target, clientX, clientY))
  {
  }

  /** In a well-formed store a move rewrites exactly the entry at index `id`,
      or nothing at all when no node has that id. */
  lemma MovedIsPointUpdate(nodes: seq<Node>, id: int, clientX: real, clientY: real)
    requires WellFormed(nodes)
    ensures Moved(nodes, Some(id), clientX, clientY)
         == if 0 <= id < |nodes|
            then nodes[id := nodes[id].(x := clientX - Offset, y := clientY - Offset)]
            else nodes
  {
  }

  /** Only the last of several moves of the same node counts: the drop after a
      series of drag updates leaves the node where the drop put it. */
  lemma MovedLastWins(nodes: seq<Node>, target: Option<int>, x1: real, y1: real, x2: real, y2: real)
    ensures Moved(Moved(nodes, target, x1, y1), target, x2, y2) == Moved(nodes, target, x2, y2)
  {
  }
}
