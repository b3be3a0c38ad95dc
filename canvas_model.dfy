/**
 * The canvas document: nodes and edges as the graph library stores them, the camera
 * viewport, the persisted document record, and the integrity predicates that the
 * startup document satisfies (unique ids, edges between existing nodes).
 */
module CanvasModel {
  import opened Wrappers
  import opened Values

  datatype Position = Position(x: real, y: real)

  datatype Viewport = Viewport(x: real, y: real, zoom: real)

  /**
   * A node. `nodeType` selects the component that renders it; `selected` and
   * `dragging` are the transient interaction flags; `width`/`height` are measured sizes.
   */
  datatype Node = Node(
    id: string,
    nodeType: Option<string>,
    position: Position,
    data: Record,
    width: Option<real>,
    height: Option<real>,
    style: Option<Record>,
    selected: Option<bool>,
    dragging: Option<bool>)

  datatype Edge = Edge(
    id: string,
    source: string,
    target: string,
    edgeType: Option<string>,
    edgeLabel: Option<string>,
    animated: Option<bool>,
    style: Option<Record>,
    selected: Option<bool>)

  datatype Metadata = Metadata(createdAt: string, lastModified: string, version: string)

  /** The persisted document. */
  datatype CanvasState = CanvasState(
    nodes: seq<Node>,
    edges: seq<Edge>,
    viewport: Option<Viewport>,
    metadata: Option<Metadata>)

  /** A node with only the fields a freshly created node carries. */
  function PlainNode(id: string, nodeType: string, position: Position, data: Record): Node {
    Node(id, Some(nodeType), position, data, None, None, None, None, None)
  }

  function NodeIds(nodes: seq<Node>): (ids: seq<string>)
    ensures |ids| == |nodes|
    ensures forall i :: 0 <= i < |nodes| ==> ids[i] == nodes[i].id
  {
    seq(|nodes|, i requires 0 <= i < |nodes| => nodes[i].id)
  }

  predicate HasNode(nodes: seq<Node>, id: string) {
    exists i :: 0 <= i < |nodes| && nodes[i].id == id
  }

  predicate NodeIdsUnique(nodes: seq<Node>) {
    forall i, j :: 0 <= i < j < |nodes| ==> nodes[i].id != nodes[j].id
  }

  predicate EdgeIdsUnique(edges: seq<Edge>) {
    forall i, j :: 0 <= i < j < |edges| ==> edges[i].id != edges[j].id
  }

  /** Every edge's endpoints name nodes of the document. */
  predicate EdgesResolve(nodes: seq<Node>, edges: seq<Edge>) {
    forall k :: 0 <= k < |edges| ==> HasNode(nodes, edges[k].source) && HasNode(nodes, edges[k].target)
  }

  /** The referential-integrity invariant of a document. */
  predicate WellFormed(nodes: seq<Node>, edges: seq<Edge>) {
    NodeIdsUnique(nodes) && EdgeIdsUnique(edges) && EdgesResolve(nodes, edges)
  }
}
