/**
 * The document the canvas opens with: seventeen sample nodes of the content types and
 * twelve connecting edges. Each node is given by its id, type, position and style size;
 * each edge by its id, endpoints, type, label, animation flag and stroke colour.
 */
module InitialElements {
  import opened Wrappers
  import opened Values
  import opened CanvasModel
  import OverviewFlow

  /** A fixture node: type, position and the style box it is drawn in. */
  function Fixture(id: string, nodeType: string, x: real, y: real, w: real, h: real): (n: Node)
    ensures n.id == id && n.nodeType == Some(nodeType) && n.position == Position(x, y)
    ensures n.style == Some(map["width" := Num(w), "height" := Num(h)])
  {
    Node(id, Some(nodeType), Position(x, y), map[], None, None,
         Some(map["width" := Num(w), "height" := Num(h)]), None, None)
  }

  /** A fixture edge with its stroke colour as its style. */
  function Link(id: string, source: string, target: string, edgeType: string,
                edgeLabel: Option<string>, animated: Option<bool>, stroke: string): (e: Edge)
    ensures e.id == id && e.source == source && e.target == target
    ensures e.edgeType == Some(edgeType) && e.edgeLabel == edgeLabel && e.animated == animated
  {
    Edge(id, source, target, Some(edgeType), edgeLabel, animated,
         Some(map["stroke" := Str(stroke)]), None)
  }

  const Nodes: seq<Node> := [
    Fixture("1", "textNode", 100.0, 100.0, 400.0, 200.0),
    Fixture("2", "linkNode", 600.0, 50.0, 350.0, 150.0),
    Fixture("3", "linkNode", 1000.0, 100.0, 350.0, 150.0),
    Fixture("4", "imageNode", 150.0, 350.0, 300.0, 250.0),
    Fixture("5", "imageNode", 500.0, 400.0, 280.0, 220.0),
    Fixture("6", "noteNode", 850.0, 300.0, 200.0, 120.0),
    Fixture("7", "noteNode", 1100.0, 300.0, 180.0, 140.0),
    Fixture("8", "noteNode", 1320.0, 250.0, 200.0, 100.0),
    Fixture("9", "documentNode", 100.0, 650.0, 400.0, 350.0),
    Fixture("10", "videoNode", 600.0, 700.0, 350.0, 250.0),
    Fixture("11", "videoNode", 1000.0, 650.0, 320.0, 220.0),
    Fixture("12", "iframeNode", 1400.0, 500.0, 400.0, 300.0),
    Fixture("13", "markdownNode", 150.0, 1050.0, 450.0, 400.0),
    Fixture("14", "noteNode", 700.0, 1000.0, 200.0, 100.0),
    Fixture("15", "noteNode", 950.0, 1050.0, 180.0, 100.0),
    Fixture("16", "textNode", 1200.0, 950.0, 300.0, 150.0),
    Fixture("17", "imageNode", 1450.0, 850.0, 250.0, 180.0)
  ]

  const Edges: seq<Edge> := [
    Link("e1-2", "1", "2", "button", None, Some(true), "#2563eb"),
    Link("e1-4", "1", "4", "button", None, None, "#059669"),
    Link("e2-3", "2", "3", "button", Some("React ekosysteemi"), Some(true), "#7c3aed"),
    Link("e4-5", "4", "5", "button", Some("Inspiraatio"), None, "#dc2626"),
    Link("e6-9", "6", "9", "button", None, None, "#f59e0b"),
    Link("e7-9", "7", "9", "button", None, None, "#3b82f6"),
    Link("e10-11", "10", "11", "button", Some("Oppimateriaali"), None, "#ec4899"),
    Link("e9-13", "9", "13", "button", Some("Projektin status"), Some(true), "#06b6d4"),
    Link("e14-15", "14", "15", "button", None, None, "#10b981"),
    Link("e16-17", "16", "17", "button", Some("Tiimi"), None, "#f97316"),
    Link("e8-12", "8", "12", "button", None, None, "#ef4444"),
    Link("e13-14", "13", "14", "button", None, None, "#8b5cf6")
  ]

  /** The node ids, in order. */
  const Ids: seq<string> := [
    "1", "2", "3", "4", "5", "6", "7", "8", "9", "10", "11", "12", "13", "14", "15", "16", "17"]

  /** The edge ids, sources and targets, in order. */
  const EdgeIdList: seq<string> := [
    "e1-2", "e1-4", "e2-3", "e4-5", "e6-9", "e7-9", "e10-11", "e9-13", "e14-15", "e16-17", "e8-12", "e13-14"]
  const Sources: seq<string> := ["1", "1", "2", "4", "6", "7", "10", "9", "14", "16", "8", "13"]
  const Targets: seq<string> := ["2", "4", "3", "5", "9", "9", "11", "13", "15", "17", "12", "14"]

  /** For every edge, the positions of its source and target among the nodes. */
  const SourceIndex: seq<nat> := [0, 0, 1, 3, 5, 6, 9, 8, 13, 15, 7, 12]
  const TargetIndex: seq<nat> := [1, 3, 2, 4, 8, 8, 10, 12, 14, 16, 11, 13]

  function EdgeIdsOf(edges: seq<Edge>): (ids: seq<string>)
    ensures |ids| == |edges| && forall k :: 0 <= k < |edges| ==> ids[k] == edges[k].id
  {
    seq(|edges|, k requires 0 <= k < |edges| => edges[k].id)
  }

  function SourcesOf(edges: seq<Edge>): (ids: seq<string>)
    ensures |ids| == |edges| && forall k :: 0 <= k < |edges| ==> ids[k] == edges[k].source
  {
    seq(|edges|, k requires 0 <= k < |edges| => edges[k].source)
  }

  function TargetsOf(edges: seq<Edge>): (ids: seq<string>)
    ensures |ids| == |edges| && forall k :: 0 <= k < |edges| ==> ids[k] == edges[k].target
  {
    seq(|edges|, k requires 0 <= k < |edges| => edges[k].target)
  }

  /** The node ids are "1" to "17" in order. */
  lemma NodeIdsInOrder()
    ensures NodeIds(Nodes) == Ids
  {
  }

  lemma EdgeColumns()
    ensures EdgeIdsOf(Edges) == EdgeIdList
    ensures SourcesOf(Edges) == Sources
    ensures TargetsOf(Edges) == Targets
  {
  }

  lemma IdsDistinct()
    ensures forall i, j :: 0 <= i < j < |Ids| ==> Ids[i] != Ids[j]
  {
  }

  lemma EdgeIdListDistinct()
    ensures forall i, j :: 0 <= i < j < |EdgeIdList| ==> EdgeIdList[i] != EdgeIdList[j]
  {
  }

  lemma EndpointsIndexed()
    ensures |Sources| == |Targets| == |SourceIndex| == |TargetIndex|
    ensures forall k :: 0 <= k < |Sources| ==>
      SourceIndex[k] < |Ids| && Ids[SourceIndex[k]] == Sources[k]
      && TargetIndex[k] < |Ids| && Ids[TargetIndex[k]] == Targets[k]
  {
  }

  lemma EdgeIdListNamesEndpoints()
    ensures |EdgeIdList| == |Sources| == |Targets|
    ensures forall k :: 0 <= k < |EdgeIdList| ==> EdgeIdList[k] == "e" + Sources[k] + "-" + Targets[k]
  {
  }

  /** The node ids are pairwise distinct. */
  lemma NodeIdsDistinct()
    ensures NodeIdsUnique(Nodes)
  {
    NodeIdsInOrder();
    IdsDistinct();
    forall i, j | 0 <= i < j < |Nodes|
      ensures Nodes[i].id != Nodes[j].id
    {
      assert Nodes[i].id == Ids[i] && Nodes[j].id == Ids[j];
    }
  }

  /** Every edge runs between two nodes of the document. */
  lemma EdgesBetweenNodes()
    ensures EdgesResolve(Nodes, Edges)
  {
    NodeIdsInOrder();
    EdgeColumns();
    EndpointsIndexed();
    forall k | 0 <= k < |Edges|
      ensures HasNode(Nodes, Edges[k].source) && HasNode(Nodes, Edges[k].target)
    {
      assert Edges[k].source == Sources[k] && Edges[k].target == Targets[k];
      assert Nodes[SourceIndex[k]].id == Ids[SourceIndex[k]];
      assert Nodes[TargetIndex[k]].id == Ids[TargetIndex[k]];
    }
  }

  /** Every edge's id names its endpoints. */
  lemma EdgeIdsNameEndpoints()
    ensures forall k :: 0 <= k < |Edges| ==> Edges[k].id == "e" + Edges[k].source + "-" + Edges[k].target
  {
    EdgeColumns();
    EdgeIdListNamesEndpoints();
    forall k | 0 <= k < |Edges|
      ensures Edges[k].id == "e" + Edges[k].source + "-" + Edges[k].target
    {
      assert Edges[k].id == EdgeIdList[k] && Edges[k].source == Sources[k] && Edges[k].target == Targets[k];
    }
  }

  /** Every edge is drawn by the button edge component. */
  lemma EdgesAreButtonEdges()
    ensures forall k :: 0 <= k < |Edges| ==> Edges[k].edgeType == Some("button")
  {
  }

  /** The edge ids are pairwise distinct. */
  lemma EdgeIdsDistinct()
    ensures EdgeIdsUnique(Edges)
  {
    EdgeColumns();
    EdgeIdListDistinct();
    forall i, j | 0 <= i < j < |Edges|
      ensures Edges[i].id != Edges[j].id
    {
      assert Edges[i].id == EdgeIdList[i] && Edges[j].id == EdgeIdList[j];
    }
  }

  /** The startup document satisfies the referential-integrity invariant. */
  lemma InitialDocumentWellFormed()
    ensures WellFormed(Nodes, Edges)
  {
    NodeIdsDistinct();
    EdgeIdsDistinct();
    EdgesBetweenNodes();
  }

  /** Every node has a type the canvas host registers a component for. */
  lemma NodeTypesRegistered()
    ensures forall i :: 0 <= i < |Nodes| ==>
      Nodes[i].nodeType.Some? && Nodes[i].nodeType.value in OverviewFlow.RegisteredTypes
  {
    NodeTypesInOrder();
    forall i | 0 <= i < |Nodes|
      ensures Nodes[i].nodeType.Some? && Nodes[i].nodeType.value in OverviewFlow.RegisteredTypes
    {
      assert Nodes[i].nodeType == Some(Types[i]);
      assert Types[i] in {"textNode", "linkNode", "imageNode", "noteNode", "documentNode",
                          "videoNode", "iframeNode", "markdownNode"};
    }
  }

  /** The node types, in order. */
  const Types: seq<string> := [
    "textNode", "linkNode", "linkNode", "imageNode", "imageNode", "noteNode", "noteNode",
    "noteNode", "documentNode", "videoNode", "videoNode", "iframeNode", "markdownNode",
    "noteNode", "noteNode", "textNode", "imageNode"]

  function TypesOf(nodes: seq<Node>): (types: seq<Option<string>>)
    ensures |types| == |nodes| && forall i :: 0 <= i < |nodes| ==> types[i] == nodes[i].nodeType
  {
    seq(|nodes|, i requires 0 <= i < |nodes| => nodes[i].nodeType)
  }

  lemma NodeTypesInOrder()
    ensures TypesOf(Nodes) == seq(|Types|, i requires 0 <= i < |Types| => Some(Types[i]))
  {
  }
}
