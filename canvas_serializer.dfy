/**
 * Saving and loading the canvas document, and the adapters that flatten nodes into
 * records for an external document system and build nodes back from them.
 * The text encoding (JSON) is a codec passed in by the caller; a lawful codec
 * decodes what it encoded.
 */
module CanvasSerializer {
  import opened Wrappers
  import opened Values
  import opened CanvasModel
  import JsStrings

  /**
   * The fields of a decoded document that loading looks at. `nodes` and `edges`
   * are None when the text lacks them or holds a falsy value there.
   */
  datatype Decoded = Decoded(
    nodes: Option<seq<Node>>,
    edges: Option<seq<Edge>>,
    viewport: Option<Viewport>,
    metadata: Option<Metadata>)

  /** `JSON.stringify` and `JSON.parse` (None where parsing throws). */
  datatype Codec = Codec(encode: CanvasState -> string, decode: string -> Option<Decoded>)

  /**
   * Decoding the text written for `s` gives back every field of `s`. The law is
   * asked of one state at a time: no injective encoding of every state into
   * finite strings exists, since states hold real numbers.
   */
  ghost predicate LawfulAt(c: Codec, s: CanvasState) {
    c.decode(c.encode(s)) == Some(Decoded(Some(s.nodes), Some(s.edges), s.viewport, s.metadata))
  }

  /** Every state has a codec that is lawful at it, so the law excludes no saved state. */
  lemma LawfulAtSatisfiable(s: CanvasState)
    ensures exists c: Codec :: LawfulAt(c, s)
  {
    var dec := Decoded(Some(s.nodes), Some(s.edges), s.viewport, s.metadata);
    var c := Codec((_: CanvasState) => "", (_: string) => Some(dec));
    assert LawfulAt(c, s);
  }

  /** The version tag written into every saved document. */
  const FormatVersion: string := "1.0.0"

  /** A node as saved: not selected and not being dragged, everything else as it was. */
  function CleanNode(n: Node): (r: Node)
    ensures r.selected == Some(false) && r.dragging == Some(false)
    ensures r.(selected := n.selected, dragging := n.dragging) == n
  {
    n.(selected := Some(false), dragging := Some(false))
  }

  /** An edge as saved: not selected, everything else as it was. */
  function CleanEdge(e: Edge): (r: Edge)
    ensures r.selected == Some(false)
    ensures r.(selected := e.selected) == e
  {
    e.(selected := Some(false))
  }

  /** `nodes.map(node => ({...node, selected: false, dragging: false}))`. */
  function CleanNodes(nodes: seq<Node>): (r: seq<Node>)
    ensures |r| == |nodes|
    ensures forall i :: 0 <= i < |nodes| ==> r[i] == CleanNode(nodes[i])
  {
    seq(|nodes|, i requires 0 <= i < |nodes| => CleanNode(nodes[i]))
  }

  /** `edges.map(edge => ({...edge, selected: false}))`. */
  function CleanEdges(edges: seq<Edge>): (r: seq<Edge>)
    ensures |r| == |edges|
    ensures forall i :: 0 <= i < |edges| ==> r[i] == CleanEdge(edges[i])
  {
    seq(|edges|, i requires 0 <= i < |edges| => CleanEdge(edges[i]))
  }

  /**
   * The document `serialize` encodes: cleaned nodes and edges in their order, the
   * given viewport, and both timestamps set to the time of the call.
   */
  function SerializedState(nodes: seq<Node>, edges: seq<Edge>, viewport: Option<Viewport>,
                           now: string): (s: CanvasState)
    ensures |s.nodes| == |nodes| && |s.edges| == |edges|
    ensures forall i :: 0 <= i < |nodes| ==>
      s.nodes[i].id == nodes[i].id && s.nodes[i].position == nodes[i].position
      && s.nodes[i].data == nodes[i].data && s.nodes[i].nodeType == nodes[i].nodeType
      && s.nodes[i].selected == Some(false) && s.nodes[i].dragging == Some(false)
    ensures forall i :: 0 <= i < |edges| ==>
      s.edges[i].id == edges[i].id && s.edges[i].source == edges[i].source
      && s.edges[i].target == edges[i].target && s.edges[i].selected == Some(false)
    ensures s.viewport == viewport
    ensures s.metadata == Some(Metadata(now, now, FormatVersion))
  {
    CanvasState(CleanNodes(nodes), CleanEdges(edges), viewport, Some(Metadata(now, now, FormatVersion)))
  }

  /**
   * `serialize(nodes, edges, viewport)` at time `now`. Under a codec that reads back what
   * it writes, loading the saved text gives back the saved document.
   */
  function Serialize(c: Codec, nodes: seq<Node>, edges: seq<Edge>, viewport: Option<Viewport>,
                     now: string): (text: string)
    ensures LawfulAt(c, SerializedState(nodes, edges, viewport, now)) ==>
      Deserialize(c, text) == Some(SerializedState(nodes, edges, viewport, now))
  {
    c.encode(SerializedState(nodes, edges, viewport, now))
  }

  /**
   * `deserialize`: null when the text does not decode or lacks `nodes` or `edges`;
   * otherwise the decoded document exactly as decoded, with no further checks.
   */
  function Deserialize(c: Codec, text: string): (r: Option<CanvasState>)
    ensures r.None? <==>
      c.decode(text).None? || c.decode(text).value.nodes.None? || c.decode(text).value.edges.None?
    ensures r.Some? ==>
      var d := c.decode(text).value;
      && r.value.nodes == d.nodes.value && r.value.edges == d.edges.value
      && r.value.viewport == d.viewport && r.value.metadata == d.metadata
  {
    match c.decode(text)
    case None => None
    case Some(d) =>
      if d.nodes.None? || d.edges.None? then None
      else Some(CanvasState(d.nodes.value, d.edges.value, d.viewport, d.metadata))
  }

  /**
   * Loading what was saved gives the cleaned nodes and edges, the viewport and the
   * save-time metadata.
   */
  lemma DeserializeSerialize(c: Codec, nodes: seq<Node>, edges: seq<Edge>,
                             viewport: Option<Viewport>, now: string)
    requires LawfulAt(c, SerializedState(nodes, edges, viewport, now))
    ensures Deserialize(c, Serialize(c, nodes, edges, viewport, now))
         == Some(SerializedState(nodes, edges, viewport, now))
  {
  }

  /** Saving a loaded document again writes the same nodes and edges: cleaning is idempotent. */
  lemma CleanIdempotent(nodes: seq<Node>, edges: seq<Edge>)
    ensures CleanNodes(CleanNodes(nodes)) == CleanNodes(nodes)
    ensures CleanEdges(CleanEdges(edges)) == CleanEdges(edges)
  {
  }

  /** Cleaning keeps ids and endpoints, so it neither creates nor repairs an integrity fault. */
  lemma CleanKeepsWellFormed(nodes: seq<Node>, edges: seq<Edge>)
    ensures WellFormed(CleanNodes(nodes), CleanEdges(edges)) <==> WellFormed(nodes, edges)
  {
    var cn := CleanNodes(nodes);
    var ce := CleanEdges(edges);
    assert forall id :: HasNode(cn, id) <==> HasNode(nodes, id) by {
      forall id ensures HasNode(cn, id) <==> HasNode(nodes, id) {
        if HasNode(nodes, id) {
          var i :| 0 <= i < |nodes| && nodes[i].id == id;
          assert cn[i].id == id;
        }
      }
    }
  }

  /** Loading keeps an edge whose endpoint is missing: nothing checks references. */
  lemma DanglingEdgeIsKept(c: Codec, text: string, e: Edge)
    requires c.decode(text) == Some(Decoded(Some([]), Some([e]), None, None))
    ensures Deserialize(c, text) == Some(CanvasState([], [e], None, None))
    ensures !EdgesResolve([], [e])
  {
    assert !HasNode([], [e][0].source);
  }

  /** A document whose `edges` are missing is refused, whatever else it holds. */
  lemma MissingEdgesIsRefused(c: Codec, text: string, nodes: seq<Node>)
    requires c.decode(text) == Some(Decoded(Some(nodes), None, None, None))
    ensures Deserialize(c, text).None?
  {
  }

  // The flattened record of the external document system.

  datatype NodeMetadata = NodeMetadata(width: Option<real>, height: Option<real>, style: Option<Record>)

  /** A flattened node; every field may be absent. */
  datatype NodeRecord = NodeRecord(
    id: Option<string>,
    nodeType: Option<string>,
    position: Option<Position>,
    data: Option<Record>,
    metadata: Option<NodeMetadata>)

  /** One node of `extractNodeData`: sizes and style folded into `metadata`. */
  function ExtractNode(n: Node): (r: NodeRecord)
    ensures r.id == Some(n.id) && r.nodeType == n.nodeType
    ensures r.position == Some(n.position) && r.data == Some(n.data)
    ensures r.metadata == Some(NodeMetadata(n.width, n.height, n.style))
  {
    NodeRecord(Some(n.id), n.nodeType, Some(n.position), Some(n.data),
               Some(NodeMetadata(n.width, n.height, n.style)))
  }

  /** `extractNodeData`: one record per node, in order. */
  function ExtractNodeData(nodes: seq<Node>): (r: seq<NodeRecord>)
    ensures |r| == |nodes|
    ensures forall i :: 0 <= i < |nodes| ==> r[i] == ExtractNode(nodes[i])
  {
    seq(|nodes|, i requires 0 <= i < |nodes| => ExtractNode(nodes[i]))
  }

  /**
   * One node of `createNodesFromData`: a falsy id becomes `freshId`, a falsy type
   * "textNode", a missing position the origin, missing data an empty record;
   * sizes and style come from `metadata`.
   */
  function CreateNode(item: NodeRecord, freshId: string): (n: Node)
    ensures item.id.Some? && item.id.value != "" ==> n.id == item.id.value
    ensures item.id.None? || item.id.value == "" ==> n.id == freshId
    ensures item.nodeType.Some? && item.nodeType.value != "" ==> n.nodeType == item.nodeType
    ensures item.nodeType.None? || item.nodeType.value == "" ==> n.nodeType == Some("textNode")
    ensures n.position == item.position.GetOr(Position(0.0, 0.0))
    ensures n.data == item.data.GetOr(map[])
    ensures item.metadata.None? ==> n.width.None? && n.height.None? && n.style.None?
    ensures item.metadata.Some? ==>
      n.width == item.metadata.value.width && n.height == item.metadata.value.height
      && n.style == item.metadata.value.style
    ensures n.selected.None? && n.dragging.None?
  {
    var width := if item.metadata.Some? then item.metadata.value.width else None;
    var height := if item.metadata.Some? then item.metadata.value.height else None;
    var style := if item.metadata.Some? then item.metadata.value.style else None;
    Node(
      JsStrings.OrElse(item.id, freshId),
      Some(JsStrings.OrElse(item.nodeType, "textNode")),
      item.position.GetOr(Position(0.0, 0.0)),
      item.data.GetOr(map[]),
      width, height, style, None, None)
  }

  /** `createNodesFromData`, with `freshId(i)` the id drawn for the i-th record. */
  function CreateNodesFromData(items: seq<NodeRecord>, freshId: nat -> string): (r: seq<Node>)
    ensures |r| == |items|
    ensures forall i :: 0 <= i < |items| ==> r[i] == CreateNode(items[i], freshId(i))
  {
    seq(|items|, i requires 0 <= i < |items| => CreateNode(items[i], freshId(i)))
  }

  /** A node the adapters carry exactly: a non-empty id and type, and no interaction flags. */
  predicate Portable(n: Node) {
    n.id != "" && n.nodeType.Some? && n.nodeType.value != "" && n.selected.None? && n.dragging.None?
  }

  /** A record the adapters carry exactly: every field present, id and type non-empty. */
  predicate CompleteRecord(r: NodeRecord) {
    && r.id.Some? && r.id.value != "" && r.nodeType.Some? && r.nodeType.value != ""
    && r.position.Some? && r.data.Some? && r.metadata.Some?
  }

  /** Building nodes from their extracted records gives back the nodes. */
  lemma CreateAfterExtract(nodes: seq<Node>, freshId: nat -> string)
    requires forall i :: 0 <= i < |nodes| ==> Portable(nodes[i])
    ensures CreateNodesFromData(ExtractNodeData(nodes), freshId) == nodes
  {
    var r := CreateNodesFromData(ExtractNodeData(nodes), freshId);
    forall i | 0 <= i < |nodes| ensures r[i] == nodes[i] {
      assert r[i] == CreateNode(ExtractNode(nodes[i]), freshId(i));
    }
  }

  /** Extracting the nodes built from complete records gives back the records. */
  lemma ExtractAfterCreate(items: seq<NodeRecord>, freshId: nat -> string)
    requires forall i :: 0 <= i < |items| ==> CompleteRecord(items[i])
    ensures ExtractNodeData(CreateNodesFromData(items, freshId)) == items
  {
    var r := ExtractNodeData(CreateNodesFromData(items, freshId));
    forall i | 0 <= i < |items| ensures r[i] == items[i] {
      assert r[i] == ExtractNode(CreateNode(items[i], freshId(i)));
    }
  }

  /** Records without an id get the fresh ids, so distinct fresh ids keep the nodes apart. */
  lemma FreshIdsAreUsed(items: seq<NodeRecord>, freshId: nat -> string)
    requires forall i :: 0 <= i < |items| ==> items[i].id.None?
    requires forall i, j :: 0 <= i < j < |items| ==> freshId(i) != freshId(j)
    ensures NodeIdsUnique(CreateNodesFromData(items, freshId))
  {
    var r := CreateNodesFromData(items, freshId);
    assert forall i :: 0 <= i < |items| ==> r[i].id == freshId(i);
  }
}

/**
 * The adapter between a canvas node of type documentNode and the external document
 * record (title, content, categories, actors, attachments, metadata).
 */
module DocumentIntegration {
  import opened Wrappers
  import opened Values
  import opened CanvasModel
  import JsStrings

  datatype Actor = Actor(id: string, name: string, avatar: Option<string>)

  datatype Attachment = Attachment(
    id: string, name: string, attachmentType: string, url: string, thumbnail: Option<string>)

  datatype DocumentMetadata = DocumentMetadata(
    createdAt: string, updatedAt: string, tags: Option<seq<string>>)

  datatype DocumentSchema = DocumentSchema(
    id: string,
    title: string,
    content: Option<string>,
    categories: Option<seq<string>>,
    actors: Option<seq<Actor>>,
    attachments: Option<seq<Attachment>>,
    metadata: Option<DocumentMetadata>)

  /** The fields of the external record as read back from a node; each may be anything. */
  datatype PartialDocument = PartialDocument(
    id: Value, title: Value, content: Value, categories: Value,
    actors: Value, attachments: Value, metadata: Value)

  /** An optional string field as stored on an object: left out when absent. */
  function OptionalField(key: string, v: Option<string>): Record {
    if v.Some? then map[key := Str(v.value)] else map[]
  }

  /** An actor as a plain object: id and name, and the avatar only when it has one. */
  function ActorValue(a: Actor): (v: Value)
    ensures v.Obj? && Get(v.fields, "id") == Str(a.id) && Get(v.fields, "name") == Str(a.name)
    ensures "avatar" in v.fields <==> a.avatar.Some?
    ensures a.avatar.Some? ==> v.fields["avatar"] == Str(a.avatar.value)
  {
    Obj(map["id" := Str(a.id), "name" := Str(a.name)] + OptionalField("avatar", a.avatar))
  }

  /** An attachment as a plain object, its kind under `type`, the thumbnail only when present. */
  function AttachmentValue(a: Attachment): (v: Value)
    ensures v.Obj? && Get(v.fields, "id") == Str(a.id) && Get(v.fields, "name") == Str(a.name)
    ensures Get(v.fields, "type") == Str(a.attachmentType) && Get(v.fields, "url") == Str(a.url)
    ensures "thumbnail" in v.fields <==> a.thumbnail.Some?
    ensures a.thumbnail.Some? ==> v.fields["thumbnail"] == Str(a.thumbnail.value)
  {
    Obj(map["id" := Str(a.id), "name" := Str(a.name), "type" := Str(a.attachmentType),
            "url" := Str(a.url)] + OptionalField("thumbnail", a.thumbnail))
  }

  /** The document's metadata as an object, its tags only when present; undefined when absent. */
  function MetadataValue(m: Option<DocumentMetadata>): (v: Value)
    ensures m.None? ==> v == Undefined
    ensures m.Some? ==>
      && v.Obj? && Get(v.fields, "createdAt") == Str(m.value.createdAt)
      && Get(v.fields, "updatedAt") == Str(m.value.updatedAt)
      && ("tags" in v.fields <==> m.value.tags.Some?)
      && (m.value.tags.Some? ==> v.fields["tags"] == StrArray(m.value.tags.value))
  {
    match m
    case None => Undefined
    case Some(md) =>
      Obj(map["createdAt" := Str(md.createdAt), "updatedAt" := Str(md.updatedAt)]
          + (if md.tags.Some? then map["tags" := StrArray(md.tags.value)] else map[]))
  }

  function ActorsValue(actors: seq<Actor>): (v: Value)
    ensures v.Arr? && |v.items| == |actors|
    ensures forall i :: 0 <= i < |actors| ==> v.items[i] == ActorValue(actors[i])
  {
    Arr(seq(|actors|, i requires 0 <= i < |actors| => ActorValue(actors[i])))
  }

  function AttachmentsValue(attachments: seq<Attachment>): (v: Value)
    ensures v.Arr? && |v.items| == |attachments|
    ensures forall i :: 0 <= i < |attachments| ==> v.items[i] == AttachmentValue(attachments[i])
  {
    Arr(seq(|attachments|, i requires 0 <= i < |attachments| => AttachmentValue(attachments[i])))
  }

  /** The `data` record of a document node. */
  function DocumentData(doc: DocumentSchema): Record {
    map[
      "documentId" := Str(doc.id),
      "title" := Str(doc.title),
      "content" := Str(JsStrings.OrElse(doc.content, "")),
      "categories" := StrArray(doc.categories.GetOr([])),
      "actors" := ActorsValue(doc.actors.GetOr([])),
      "attachments" := AttachmentsValue(doc.attachments.GetOr([])),
      "metadata" := MetadataValue(doc.metadata)]
  }

  /**
   * `createDocumentNode`: id "doc-" + the document id, type documentNode, at the
   * given position; absent content, categories, actors and attachments become ''
   * or an empty array.
   */
  function CreateDocumentNode(doc: DocumentSchema, position: Position): (n: Node)
    ensures n.id == "doc-" + doc.id
    ensures n.nodeType == Some("documentNode")
    ensures n.position == position
    ensures Get(n.data, "documentId") == Str(doc.id) && Get(n.data, "title") == Str(doc.title)
    ensures doc.content.None? ==> Get(n.data, "content") == Str("")
    ensures doc.categories.None? ==> Get(n.data, "categories") == Arr([])
    ensures doc.actors.None? ==> Get(n.data, "actors") == Arr([])
    ensures doc.attachments.None? ==> Get(n.data, "attachments") == Arr([])
    ensures doc.metadata.None? ==> Get(n.data, "metadata") == Undefined
    ensures doc.content.Some? && doc.content.value != "" ==>
      Get(n.data, "content") == Str(doc.content.value)
    ensures doc.content.Some? && doc.content.value == "" ==> Get(n.data, "content") == Str("")
    ensures doc.categories.Some? ==> Get(n.data, "categories") == StrArray(doc.categories.value)
    ensures doc.actors.Some? ==> Get(n.data, "actors") == ActorsValue(doc.actors.value)
    ensures doc.attachments.Some? ==>
      Get(n.data, "attachments") == AttachmentsValue(doc.attachments.value)
    ensures doc.metadata.Some? ==>
      Get(n.data, "metadata") == MetadataValue(doc.metadata) && Get(n.data, "metadata").Obj?
  {
    PlainNode("doc-" + doc.id, "documentNode", position, DocumentData(doc))
  }

  /** `extractDocumentData`: null exactly for a node that is not a documentNode. */
  function ExtractDocumentData(n: Node): (r: Option<PartialDocument>)
    ensures r.None? <==> n.nodeType != Some("documentNode")
    ensures r.Some? ==>
      r.value.id == Get(n.data, "documentId") && r.value.title == Get(n.data, "title")
      && r.value.content == Get(n.data, "content") && r.value.categories == Get(n.data, "categories")
      && r.value.actors == Get(n.data, "actors") && r.value.attachments == Get(n.data, "attachments")
      && r.value.metadata == Get(n.data, "metadata")
  {
    if n.nodeType != Some("documentNode") then None
    else Some(PartialDocument(
      Get(n.data, "documentId"), Get(n.data, "title"), Get(n.data, "content"),
      Get(n.data, "categories"), Get(n.data, "actors"), Get(n.data, "attachments"),
      Get(n.data, "metadata")))
  }

  /**
   * Extracting the node created from a document gives back its id and title, its
   * content or '', its categories, actors and attachments or [], and its metadata.
   */
  lemma ExtractAfterCreate(doc: DocumentSchema, position: Position)
    ensures var r := ExtractDocumentData(CreateDocumentNode(doc, position));
      && r.Some?
      && r.value.id == Str(doc.id) && r.value.title == Str(doc.title)
      && r.value.content == Str(JsStrings.OrElse(doc.content, ""))
      && r.value.categories == StrArray(doc.categories.GetOr([]))
      && r.value.actors == ActorsValue(doc.actors.GetOr([]))
      && r.value.attachments == AttachmentsValue(doc.attachments.GetOr([]))
      && r.value.metadata == MetadataValue(doc.metadata)
  {
  }
}
