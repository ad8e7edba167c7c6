# Block chart: verified model of the node store and connector geometry

This project models the `BlockChart` React component, a canvas where a user
builds a tree of blocks. The component holds one piece of state: an ordered
list of nodes `{id, parentId, x, y}`. It starts with a root at (200, 200).
The "+" button on a block appends a child of that block, with id equal to the
current list length and a random position. Dragging a block, and dropping it,
replaces the list with a copy in which only that block is moved, so that the
pointer sits 20 px right of and below its top-left corner. On every render,
each node `p` draws one connector to every node `c` whose `parentId` is `p.id`.
The connector is a cubic Bézier between the two blocks' anchors, `(x + 20, y + 20)`:
a fixed 20 px offset from each top-left corner, which is also the point a dragged
block keeps under the pointer. Its control points lie on the vertical line through
the midpoint of the two anchors.

Modules, one per part of the component:

- `Geometry` (`geometry.dfy`): `createPath`, as the four points of the curve
  (`Curve`) rather than an SVG string, and the curve evaluated at a parameter t.
- `NodeStore` (`node_store.dfy`): the `Node` record, the initial list, the
  store invariant `WellFormed`, and the two updates as functions on lists:
  `Added` (add a child) and `Moved` (the `map` that moves one node).
- `Render` (`render.dfy`): the connector derivation `Edges`, written as the
  nested `map`/`filter` over the list.
- `Chart` (`chart.dfy`): the component as a class. It has a `nodes` field and
  one method per handler. Each method replaces `nodes` and is proved against
  the functions of `NodeStore`.

The store invariant `WellFormed` has two parts:
- the node at index i has id i, so ids are unique;
- the first node is the only root, and every other node's parent is an earlier node.

The invariant holds initially. Adding a child of an existing node keeps it,
and so does any move. From it the model proves that:
- every parent exists;
- the parent relation has no cycle, and every node has a path to the root;
- a well-formed store of n nodes draws exactly n - 1 connectors, each pair once,
  in parent-then-child order.

## Model

| member | source | states |
|---|---|---|
| `NodeStore.Initial` | src/components/BlockGraph.tsx:12 | the store at mount: the root alone at (200, 200); its properties are stated by `InitialState` |
| `NodeStore.Added` | src/components/BlockGraph.tsx:15-22 | the store after `handleNewNode`: the old list plus one node with id equal to the old length, the given parent and the scaled random position; stated by `AddedShape` and `AddedWellFormed` |
| `NodeStore.Relocated` | src/components/BlockGraph.tsx:33 | one element of the move's `map`: the node with the matching id gets x = clientX - 20, y = clientY - 20, any other node is returned as is |
| `NodeStore.Moved` | src/components/BlockGraph.tsx:41-45 | the moved list, `Relocated` applied to every node in order; stated by `MovedShape`, `MovedNoMatch`, `MovedIsPointUpdate` and `MovedLastWins` |
| `Render.Anchor` | src/components/BlockGraph.tsx:74-77 | the point a connector attaches to: the node's corner plus 20 in each direction |
| `Render.Connect` | src/components/BlockGraph.tsx:71-83 | the connector drawn for a parent and a child: `CreatePath` from the parent's anchor to the child's |
| `Render.ConnectorsOf` | src/components/BlockGraph.tsx:68-84 | the inner `filter`/`map`: one connector from the parent to each of its children, in list order; stated by `ConnectorsOfMember` |
| `Render.EdgesFrom` | src/components/BlockGraph.tsx:67-85 | the outer `map` over a list of parent candidates, concatenating their connectors in order; stated by `EdgesFromMember` |
| `Render.Edges` | src/components/BlockGraph.tsx:67-85 | every connector drawn for the store; stated by `EdgesMember`, `EdgesCount`, `EdgesSorted` and `EdgesExample` |
| `NodeStore.InitialState` | src/components/BlockGraph.tsx:12 | the initial store is exactly one node `{id 0, no parent, (200, 200)}`, and it is well-formed |
| `NodeStore.IdsUnique` | src/components/BlockGraph.tsx:15-22 | when every node's id is its index, two nodes share an id only if they are the same entry |
| `NodeStore.ParentExists` | src/components/BlockGraph.tsx:12-22 | in a well-formed store, only the first node has no parent, and every parent id names an existing node |
| `NodeStore.ParentChainDescends` | src/components/BlockGraph.tsx:15-22 | any chain of one or more parent links ends at a smaller id than it started from, so the parent relation is acyclic |
| `NodeStore.AncestorPath` | src/components/BlockGraph.tsx:15-22 | every node of a well-formed store reaches the root (id 0) by following parent links through existing nodes |
| `NodeStore.AddedShape` | src/components/BlockGraph.tsx:15-22 | adding a child to n nodes gives n + 1 nodes; the earlier n are unchanged; the new node has id n, the given parent, and x in [0, 1000), y in [0, 500) |
| `NodeStore.AddedWellFormed` | src/components/BlockGraph.tsx:15-22 | adding a child of an existing node keeps the store invariant |
| `NodeStore.MovedShape` | src/components/BlockGraph.tsx:32-34 | a move keeps the length and every id and parent; a node whose id differs from the target is unchanged; the target gets x = clientX - 20, y = clientY - 20 |
| `NodeStore.MovedNoMatch` | src/components/BlockGraph.tsx:39-45 | a move whose id matches no node leaves the list unchanged; this includes an id that does not parse |
| `NodeStore.MovedWellFormed` | src/components/BlockGraph.tsx:32-34 | a move keeps the store invariant |
| `NodeStore.MovedIsPointUpdate` | src/components/BlockGraph.tsx:41-45 | in a well-formed store, moving id k rewrites only the entry at index k, or nothing when k is not an index |
| `NodeStore.MovedLastWins` | src/components/BlockGraph.tsx:30-47 | two moves of the same node equal the second one alone, so the drop after drag updates decides the final place |
| `Geometry.CreatePath` | src/components/BlockGraph.tsx:53-58 | the curve starts at (x1, y1) and ends at (x2, y2); both control points have x equal to the midpoint (x1 + x2) / 2, the first at y1 and the second at y2 |
| `Geometry.CreatePathReversed` | src/components/BlockGraph.tsx:53-58 | swapping the two endpoints gives the same curve, traversed backwards |
| `Geometry.CreatePathEndpoints` | src/components/BlockGraph.tsx:55-57 | evaluated as a Bézier, the curve is at the first anchor when t = 0 and at the second when t = 1 |
| `Geometry.CreatePathPointSymmetric` | src/components/BlockGraph.tsx:53-58 | the curve is symmetric about the midpoint of its anchors: its points at t and 1 - t mirror each other, and it passes through the midpoint at t = 1/2 |
| `Geometry.CreatePathExample` | src/components/BlockGraph.tsx:53-58 | from (0, 0) to (100, 50), the control points are (50, 0) and (50, 50) |
| `Render.Children` | src/components/BlockGraph.tsx:68-69 | the filtered list holds exactly the nodes whose parent is the given id, and is no longer than the list |
| `Render.ConnectorsOfMember` | src/components/BlockGraph.tsx:68-78 | a parent's connectors are exactly those from it to each of its children |
| `Render.EdgesFromMember` | src/components/BlockGraph.tsx:67-85 | the connectors derived from a list of parent candidates are exactly the pairs (p, c) where p is a candidate, c is a node and c's parent is p |
| `Render.EdgesMember` | src/components/BlockGraph.tsx:67-85 | a connector is drawn exactly for each pair of nodes (p, c) with c's parent p; its path runs from p's anchor (x + 20, y + 20) to c's anchor |
| `Render.EdgesCount` | src/components/BlockGraph.tsx:67-85 | a well-formed store of n nodes draws n - 1 connectors, one per non-root node |
| `Render.EdgesSorted` | src/components/BlockGraph.tsx:67-85 | connectors appear in parent-list order, then child-list order, strictly, so no (parent, child) pair or drawing key repeats |
| `Render.EdgesExample` | src/components/BlockGraph.tsx:67-85 | with nodes {0: root, 1 and 2: children of 0, 3: child of 1}, each at any position, the connectors are (0, 1), (0, 2), (1, 3), in that order |
| `Render.MovedConnectorsFollow` | src/components/BlockGraph.tsx:73-78 | for any node list, after a node is moved to the pointer, every connector touching it has its end at the pointer |
| `Chart.BlockChart.constructor` | src/components/BlockGraph.tsx:12 | the component mounts holding the initial store, which satisfies the invariant |
| `Chart.BlockChart.HandleNewNode` | src/components/BlockGraph.tsx:15-23 | appends one node with id equal to the old length, the given parent and a position from the two random draws; earlier nodes are untouched; the invariant survives when the parent exists |
| `Chart.BlockChart.ClickAddButton` | src/components/BlockGraph.tsx:98-101 | the "+" button of node k adds a child of node k; the invariant is kept, and one more connector is drawn |
| `Chart.BlockChart.MoveNode` | src/components/BlockGraph.tsx:32-35 | the loop over the list builds and installs exactly the moved list, and keeps the invariant |
| `Chart.BlockChart.HandleDragBlock` | src/components/BlockGraph.tsx:30-36 | a drag event moves the dragged node to the pointer, and keeps the invariant |
| `Chart.BlockChart.HandleDrop` | src/components/BlockGraph.tsx:38-47 | a drop moves the node named by the payload; a payload that does not parse changes nothing |

## Left out

- Rendering: the JSX elements, CSS classes, stroke styling and block sizes (src/components/BlockGraph.tsx:60-107). They are presentation only.
- The anchor is the fixed point `(x + 20, y + 20)` the source uses. The rendered block is larger, so this point is not the block's visual centre; the model does not relate anchors to the drawn block.
- `handleDragStart` and `handleAllowDrop` (src/components/BlockGraph.tsx:25-28, 49-51). They only call browser APIs (`dataTransfer.setData`, `preventDefault`, `console.log`). The drop payload reaches the model already recovered, as `Option<int>`.
- `parseInt` is not modelled. `HandleDrop` takes its outcome instead: `Some(id)` for a number and `None` for NaN, which equals no id.
- `Math.random()` is not modelled. Its two draws are parameters `r1` and `r2` in [0, 1), scaled by 1000 and 500 as in the source.
- The path is modelled as four points, not as an SVG `d` string. JavaScript's number-to-string formatting is not modelled.
- Coordinates are exact reals, not IEEE doubles. The rounding of `clientX - 20`, `x + 20` and `/ 2` is not modelled.
- React state scheduling is not modelled. Each handler is an atomic update of the current list, so stale closures, which would read an older `nodes`, are not captured.
- `Chart.BlockChart.HandleNewNode`: it keeps the invariant only when the parent id names an existing node. The source does not check this. The only caller, the "+" button of an existing node, guarantees it, and `ClickAddButton` models that call.
