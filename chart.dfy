/** The chart component: its node state and the event handlers that replace it. */
module Chart {
  import opened NodeStore
  import opened Render

  class BlockChart {
    /** The node state; every handler replaces it with a new list. */
    var nodes: seq<Node>

    ghost predicate Valid()
      reads this
    {
      WellFormed(nodes)
    }

    /** Mounting the chart: the store holds the root alone. */
    constructor ()
      ensures nodes == Initial()
      ensures Valid()
    {
      nodes := Initial();
    }

    /** Adds a child of `parentId`, placed at random: `r1` and `r2` are the two
        draws of the random source, each in [0, 1). The parent is not checked;
        the invariant survives whenever it names an existing node. */
    method HandleNewNode(parentId: int, r1: real, r2: real)
      requires 0.0 <= r1 < 1.0 && 0.0 <= r2 < 1.0
      modifies this
      ensures |nodes| == |old(nodes)| + 1
      ensures nodes[..|old(nodes)|] == old(nodes)
      ensures nodes[|old(nodes)|] == Node(|old(nodes)|, Some(parentId), r1 * SpreadX, r2 * SpreadY)
      ensures 0.0 <= nodes[|old(nodes)|].x < SpreadX && 0.0 <= nodes[|old(nodes)|].y < SpreadY
      ensures old(Valid()) && 0 <= parentId < |old(nodes)| ==> Valid()
    {
      var newNode := Node(|nodes|, Some(parentId), r1 * SpreadX, r2 * SpreadY);
      nodes := nodes + [newNode];
      assert nodes[..|old(nodes)|] == old(nodes);
    }

    /** The "+" button drawn on the node at index k: adds a child of that node. */
    method ClickAddButton(k: int, r1: real, r2: real)
      requires Valid()
      requires 0 <= k < |nodes|
      requires 0.0 <= r1 < 1.0 && 0.0 <= r2 < 1.0
      modifies this
      ensures Valid()
      ensures nodes == Added(old(nodes), old(nodes)[k].id, r1, r2)
      ensures |Edges(nodes)| == |old(Edges(nodes))| + 1
    {
      EdgesCount(nodes);
      HandleNewNode(nodes[k].id, r1, r2);
      EdgesCount(nodes);
    }

    /** Replaces the node list by its image under the move: the loop is the
        per-node `map`, and the list built is then installed. */
    method MoveNode(target: Option<int>, clientX: real, clientY: real)
      modifies this
      ensures nodes == Moved(old(nodes), target, clientX, clientY)
      ensures old(Valid()) ==> Valid()
    {
      var updatedNodes: seq<Node> := [];
      var i := 0;
      while i < |nodes|
        invariant 0 <= i <= |nodes|
        invariant |updatedNodes| == i
        invariant forall j :: 0 <= j < i ==>
          updatedNodes[j] == Relocated(nodes[j], target, clientX, clientY)
      {
        var node := nodes[i];
        var moved := if target == Some(node.id)
                     then node.(x := clientX - Offset, y := clientY - Offset)
                     else node;
        updatedNodes := updatedNodes + [moved];
        i := i + 1;
      }
      assert updatedNodes == Moved(nodes, target, clientX, clientY);
      if Valid() {
        MovedWellFormed(nodes, target, clientX, clientY);
      }
      nodes := updatedNodes;
    }

    /** A drag-move event on the node with id `id`, the pointer at (clientX, clientY). */
    method HandleDragBlock(id: int, clientX: real, clientY: real)
      modifies this
      ensures nodes == Moved(old(nodes), Some(id), clientX, clientY)
      ensures old(Valid()) ==> Valid()
    {
      MoveNode(Some(id), clientX, clientY);
    }

    /** A drop on the canvas: `payload` is the id read back from the drag data,
        None when it does not parse as an integer. */
    method HandleDrop(payload: Option<int>, clientX: real, clientY: real)
      modifies this
      ensures nodes == Moved(old(nodes), payload, clientX, clientY)
      ensures old(Valid()) ==> Valid()
      ensures payload == None ==> nodes == old(nodes)
    {
      MoveNode(payload, clientX, clientY);
      if payload == None {
        MovedNoMatch(old(nodes), payload, clientX, clientY);
      }
    }
  }
}
