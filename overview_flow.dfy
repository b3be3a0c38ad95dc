/**
 * The canvas host: the registered node components, the default data of a node
 * dropped from the sidebar, and the handlers that change the host's node and edge
 * lists (drop, pane click, import, export and the keyboard shortcuts).
 */
module OverviewFlow {
  import opened Wrappers
  import opened JsStrings
  import opened Values
  import opened CanvasModel
  import opened Urls
  import CanvasSerializer
  import ClipboardService
  import DocumentIntegration

  /** The node types the host has a component for. */
  const RegisteredTypes: set<string> := {
    "annotation", "tools", "resizer", "circle", "textinput", "textNode", "linkNode",
    "imageNode", "noteNode", "documentNode", "videoNode", "iframeNode", "markdownNode"}

  /** The node types `getDefaultNodeData` has a record for. */
  const TypesWithDefaults: set<string> := {
    "textNode", "linkNode", "imageNode", "noteNode", "documentNode", "videoNode",
    "iframeNode", "sketchNode", "markdownNode"}

  /** The markdown case's content: a backslash and an `n` where a line break was presumably meant. */
  const DroppedMarkdownContent := "# New Note\\n\\nClick to edit..."

  /**
   * `getDefaultNodeData`: the starting data of a node of the given type; any type
   * without a case gets the empty record. The markdown case holds a backslash and an
   * `n` where a line break was presumably meant, exactly as the source writes it.
   */
  function DefaultNodeData(nodeType: string): (r: Record)
    ensures |r| == 0 <==> nodeType !in TypesWithDefaults
    ensures nodeType in TypesWithDefaults ==> forall k :: k in r ==> r[k].Str? || r[k] == Arr([])
  {
    match nodeType
    case "textNode" => map["text" := Str("New text node")]
    case "linkNode" => map["url" := Str("https://example.com"), "title" := Str("New Link")]
    case "imageNode" => map["imageUrl" := Str(""), "caption" := Str("New image")]
    case "noteNode" => map["note" := Str("New note..."), "color" := Str("yellow")]
    case "documentNode" =>
      map["title" := Str("New Document"), "categories" := Arr([]), "actors" := Arr([]),
          "attachments" := Arr([]), "content" := Str("")]
    case "videoNode" => map["url" := Str(""), "title" := Str("New Video")]
    case "iframeNode" => map["url" := Str(""), "title" := Str("Web View")]
    case "sketchNode" => map["title" := Str("New Sketch"), "drawing" := Str("")]
    case "markdownNode" =>
      map["content" := Str(DroppedMarkdownContent), "title" := Str("Markdown Note")]
    case _ => map[]
  }

  /** Default data exists for every registered content component, and for sketches, which have no component. */
  lemma DefaultsCoverContentTypes()
    ensures TypesWithDefaults == (RegisteredTypes - {"annotation", "tools", "resizer", "circle", "textinput"}) + {"sketchNode"}
    ensures "sketchNode" !in RegisteredTypes
  {
  }

  /**
   * A document node dropped from the sidebar reads back as a document with the
   * default title and empty lists, and with no document id.
   */
  lemma DroppedDocumentReadsBack(id: string, position: Position)
    ensures DocumentIntegration.ExtractDocumentData(
              PlainNode(id, "documentNode", position, DefaultNodeData("documentNode")))
         == Some(DocumentIntegration.PartialDocument(
              Undefined, Str("New Document"), Str(""), Arr([]), Arr([]), Arr([]), Undefined))
  {
    var d := DefaultNodeData("documentNode");
    assert "documentId" !in d && "metadata" !in d;
  }

  /** A dropped markdown note's content is a single line: the escaped break is two characters. */
  lemma DroppedMarkdownNoteIsOneLine()
    ensures var c := DefaultNodeData("markdownNode")["content"].s;
      '\n' !in c && Split(c, '\n') == [c]
  {
    assert DefaultNodeData("markdownNode")["content"].s == DroppedMarkdownContent;
    assert '\n' !in DroppedMarkdownContent by { DroppedMarkdownContentHasNoBreak(); }
    SplitNoSeparator(DroppedMarkdownContent, '\n');
  }

  lemma DroppedMarkdownContentHasNoBreak()
    ensures '\n' !in DroppedMarkdownContent
  {
    assert DroppedMarkdownContent == "# New Note\\" + "n\\nClick to edit...";
  }

  /** The node a drop of the given type creates at the given flow position. */
  function DroppedNode(nodeType: string, position: Position, timestamp: string): (n: Node)
    ensures n.id == nodeType + "-" + timestamp && n.nodeType == Some(nodeType)
    ensures n.position == position && n.data == DefaultNodeData(nodeType)
    ensures n.width.None? && n.height.None? && n.style.None? && n.selected.None? && n.dragging.None?
  {
    PlainNode(nodeType + "-" + timestamp, nodeType, position, DefaultNodeData(nodeType))
  }

  /** Every node with its selection flag cleared, in the same order. */
  function Deselected(nodes: seq<Node>): (r: seq<Node>)
    ensures |r| == |nodes|
    ensures forall i :: 0 <= i < |nodes| ==> r[i] == nodes[i].(selected := Some(false))
  {
    seq(|nodes|, i requires 0 <= i < |nodes| => nodes[i].(selected := Some(false)))
  }

  /** After a pane click no node is selected; a second click changes nothing. */
  lemma DeselectedSelectsNone(nodes: seq<Node>)
    ensures forall i :: 0 <= i < |Deselected(nodes)| ==> Deselected(nodes)[i].selected == Some(false)
    ensures Deselected(Deselected(nodes)) == Deselected(nodes)
  {
  }

  /** A pane click keeps ids, so a well-formed document stays well-formed. */
  lemma DeselectedKeepsWellFormed(nodes: seq<Node>, edges: seq<Edge>)
    requires WellFormed(nodes, edges)
    ensures WellFormed(Deselected(nodes), edges)
  {
    var r := Deselected(nodes);
    forall k | 0 <= k < |edges|
      ensures HasNode(r, edges[k].source) && HasNode(r, edges[k].target)
    {
      var i :| 0 <= i < |nodes| && nodes[i].id == edges[k].source;
      var j :| 0 <= j < |nodes| && nodes[j].id == edges[k].target;
      assert r[i].id == edges[k].source && r[j].id == edges[k].target;
    }
  }

  /** Saving after a pane click writes the same nodes as saving before it. */
  lemma DeselectedSavesTheSame(nodes: seq<Node>)
    ensures CanvasSerializer.CleanNodes(Deselected(nodes)) == CanvasSerializer.CleanNodes(nodes)
  {
  }

  /** Appending a node whose id is new keeps a well-formed document well-formed. */
  lemma AppendFreshKeepsWellFormed(nodes: seq<Node>, edges: seq<Edge>, n: Node)
    requires WellFormed(nodes, edges)
    requires !HasNode(nodes, n.id)
    ensures WellFormed(nodes + [n], edges)
  {
    var r := nodes + [n];
    forall i, j | 0 <= i < j < |r| ensures r[i].id != r[j].id {
      if j == |nodes| {
        assert r[i] == nodes[i];
      } else {
        assert r[i] == nodes[i] && r[j] == nodes[j];
      }
    }
    forall k | 0 <= k < |edges|
      ensures HasNode(r, edges[k].source) && HasNode(r, edges[k].target)
    {
      var i :| 0 <= i < |nodes| && nodes[i].id == edges[k].source;
      var j :| 0 <= j < |nodes| && nodes[j].id == edges[k].target;
      assert r[i] == nodes[i] && r[j] == nodes[j];
    }
  }

  /** `importFromFile`: no file chosen gives null, otherwise the file's text deserialized. */
  function ImportedState(c: CanvasSerializer.Codec, file: Option<string>): (r: Option<CanvasState>)
    ensures file.None? ==> r.None?
    ensures file.Some? ==> r == CanvasSerializer.Deserialize(c, file.value)
  {
    match file
    case None => None
    case Some(text) => CanvasSerializer.Deserialize(c, text)
  }

  /** Importing the file an export wrote gives back the cleaned document and its viewport. */
  lemma ImportOfExport(c: CanvasSerializer.Codec, nodes: seq<Node>, edges: seq<Edge>,
                       viewport: Option<Viewport>, now: string)
    requires CanvasSerializer.LawfulAt(c, CanvasSerializer.SerializedState(nodes, edges, viewport, now))
    ensures var st := ImportedState(c, Some(CanvasSerializer.Serialize(c, nodes, edges, viewport, now)));
      && st.Some?
      && st.value.nodes == CanvasSerializer.CleanNodes(nodes)
      && st.value.edges == CanvasSerializer.CleanEdges(edges)
      && st.value.viewport == viewport
  {
    CanvasSerializer.DeserializeSerialize(c, nodes, edges, viewport, now);
  }

  /** A key press as the handler sees it. */
  datatype KeyEvent = KeyEvent(key: string, ctrlKey: bool, metaKey: bool, shiftKey: bool, altKey: bool)

  datatype KeyAction = Paste | Export | Import | Ignore

  /** The branch of `handleKeyDown` a key press takes. */
  function KeyDispatch(ev: KeyEvent, hasInstance: bool): (a: KeyAction)
    ensures a == Paste <==> ev.ctrlKey && ev.key == "v" && hasInstance
    ensures a == Export <==> ev.ctrlKey && ev.key == "s"
    ensures a == Import <==> ev.ctrlKey && ev.key == "o"
  {
    if ev.ctrlKey && ev.key == "v" && hasInstance then Paste
    else if ev.ctrlKey && ev.key == "s" then Export
    else if ev.ctrlKey && ev.key == "o" then Import
    else Ignore
  }

  /** Only the key and the Control flag are consulted; without Control every key is ignored. */
  lemma OnlyCtrlIsConsulted(ev1: KeyEvent, ev2: KeyEvent, hasInstance: bool)
    requires ev1.key == ev2.key && ev1.ctrlKey == ev2.ctrlKey
    ensures KeyDispatch(ev1, hasInstance) == KeyDispatch(ev2, hasInstance)
    ensures !ev1.ctrlKey ==> KeyDispatch(ev1, hasInstance) == Ignore
  {
  }

  /** The wrapper's measured size. */
  datatype Rect = Rect(width: real, height: real)

  /** The node a paste adds, or None when the text is blank or the wrapper has no size. */
  function PastedNode(text: string, rect: Option<Rect>, toFlow: Position -> Position, nonce: string,
                      parse: UrlParser): (r: Option<Node>)
    ensures r.Some? <==> Trim(text) != "" && rect.Some?
    ensures r.Some? ==>
      r.value == ClipboardService.CreateNodeFromClipboard(
        text, toFlow(Position(rect.value.width / 2.0, rect.value.height / 2.0)), nonce, parse)
  {
    if Trim(text) != "" && rect.Some? then
      Some(ClipboardService.CreateNodeFromClipboard(
        text, toFlow(Position(rect.value.width / 2.0, rect.value.height / 2.0)), nonce, parse))
    else None
  }

  /** Text that is only whitespace never adds a node. */
  lemma BlankPasteAddsNothing(text: string, rect: Option<Rect>, toFlow: Position -> Position,
                              nonce: string, parse: UrlParser)
    requires AllWhitespace(text)
    ensures PastedNode(text, rect, toFlow, nonce, parse).None?
  {
  }

  /**
   * The host component's state: the node and edge lists, whether the graph instance
   * has been initialised, and the instance's viewport.
   */
  class CanvasHost {
    var nodes: seq<Node>
    var edges: seq<Edge>
    var hasInstance: bool
    var viewport: Viewport

    /** The host starts from the given document, before the graph instance exists. */
    constructor (initialNodes: seq<Node>, initialEdges: seq<Edge>, initialViewport: Viewport)
      ensures nodes == initialNodes && edges == initialEdges
      ensures !hasInstance && viewport == initialViewport
    {
      nodes := initialNodes;
      edges := initialEdges;
      hasInstance := false;
      viewport := initialViewport;
    }

    /** `onInit`: the graph instance becomes available. */
    method Init()
      modifies this
      ensures hasInstance
      ensures nodes == old(nodes) && edges == old(edges) && viewport == old(viewport)
    {
      hasInstance := true;
    }

    /**
     * `onDrop`: a missing or empty type, or no instance, changes nothing; otherwise
     * one node of that type is appended at the drop point converted to flow coordinates.
     */
    method OnDrop(dragType: Option<string>, client: Position, toFlow: Position -> Position,
                  timestamp: string)
      modifies this
      ensures dragType.None? || dragType.value == "" || !old(hasInstance) ==> nodes == old(nodes)
      ensures dragType.Some? && dragType.value != "" && old(hasInstance) ==>
        nodes == old(nodes) + [DroppedNode(dragType.value, toFlow(client), timestamp)]
      ensures edges == old(edges) && hasInstance == old(hasInstance) && viewport == old(viewport)
    {
      if dragType.None? || dragType.value == "" {
        return;
      }
      if hasInstance {
        var newNode := DroppedNode(dragType.value, toFlow(client), timestamp);
        nodes := nodes + [newNode];
      }
    }

    /** `onPaneClick`: every node is deselected and nothing else changes. */
    method OnPaneClick()
      modifies this
      ensures nodes == Deselected(old(nodes))
      ensures edges == old(edges) && hasInstance == old(hasInstance) && viewport == old(viewport)
    {
      nodes := Deselected(nodes);
    }

    /** `exportCanvas`: the text written to the export file, with the viewport when there is an instance. */
    method ExportCanvas(c: CanvasSerializer.Codec, now: string) returns (text: string)
      ensures text == CanvasSerializer.Serialize(c, nodes, edges,
                        if hasInstance then Some(viewport) else None, now)
    {
      var vp: Option<Viewport> := if hasInstance then Some(viewport) else None;
      text := CanvasSerializer.Serialize(c, nodes, edges, vp, now);
    }

    /**
     * `importCanvas`: a null import leaves everything as it was; otherwise nodes and
     * edges are replaced wholesale, and the viewport only when the file has one and
     * there is an instance.
     */
    method ImportCanvas(c: CanvasSerializer.Codec, file: Option<string>)
      modifies this
      ensures var st := ImportedState(c, file);
        && (st.None? ==> nodes == old(nodes) && edges == old(edges) && viewport == old(viewport))
        && (st.Some? ==> nodes == st.value.nodes && edges == st.value.edges)
        && (st.Some? && st.value.viewport.Some? && old(hasInstance) ==> viewport == st.value.viewport.value)
        && (st.Some? && (st.value.viewport.None? || !old(hasInstance)) ==> viewport == old(viewport))
      ensures hasInstance == old(hasInstance)
    {
      var state := ImportedState(c, file);
      if state.Some? {
        nodes := state.value.nodes;
        edges := state.value.edges;
        if state.value.viewport.Some? && hasInstance {
          viewport := state.value.viewport.value;
        }
      }
    }

    /** The paste branch of `handleKeyDown`: the node built from the clipboard text, if any, is appended. */
    method PasteClipboard(clipboard: Option<string>, rect: Option<Rect>, toFlow: Position -> Position,
                          nonce: string, parse: UrlParser)
      modifies this
      ensures (clipboard.None? || PastedNode(clipboard.value, rect, toFlow, nonce, parse).None?)
                ==> nodes == old(nodes)
      ensures (clipboard.Some? && PastedNode(clipboard.value, rect, toFlow, nonce, parse).Some?)
                ==> nodes == old(nodes) + [PastedNode(clipboard.value, rect, toFlow, nonce, parse).value]
      ensures edges == old(edges) && viewport == old(viewport) && hasInstance == old(hasInstance)
    {
      if clipboard.Some? {
        var pasted := PastedNode(clipboard.value, rect, toFlow, nonce, parse);
        if pasted.Some? {
          nodes := nodes + [pasted.value];
        }
      }
    }

    /**
     * `handleKeyDown`: Ctrl+V with an instance appends the node built from the
     * clipboard text (None when reading it failed), Ctrl+S exports, Ctrl+O imports,
     * and any other key changes nothing. The exported text, if any, is returned.
     */
    method HandleKeyDown(ev: KeyEvent, clipboard: Option<string>, rect: Option<Rect>,
                         toFlow: Position -> Position, nonce: string, parse: UrlParser,
                         c: CanvasSerializer.Codec, now: string, file: Option<string>)
      returns (exported: Option<string>)
      modifies this
      ensures var action := KeyDispatch(ev, old(hasInstance));
        && (action == Paste ==>
              && edges == old(edges) && viewport == old(viewport)
              && ((clipboard.None? || PastedNode(clipboard.value, rect, toFlow, nonce, parse).None?)
                    ==> nodes == old(nodes))
              && ((clipboard.Some? && PastedNode(clipboard.value, rect, toFlow, nonce, parse).Some?)
                    ==> nodes == old(nodes) + [PastedNode(clipboard.value, rect, toFlow, nonce, parse).value]))
        && (action == Export ==>
              && nodes == old(nodes) && edges == old(edges) && viewport == old(viewport)
              && exported == Some(CanvasSerializer.Serialize(c, old(nodes), old(edges),
                                    if old(hasInstance) then Some(old(viewport)) else None, now)))
        && (action == Import ==>
              var st := ImportedState(c, file);
              && (st.None? ==> nodes == old(nodes) && edges == old(edges) && viewport == old(viewport))
              && (st.Some? ==> nodes == st.value.nodes && edges == st.value.edges)
              && (st.Some? && st.value.viewport.Some? && old(hasInstance) ==>
                    viewport == st.value.viewport.value)
              && (st.Some? && (st.value.viewport.None? || !old(hasInstance)) ==>
                    viewport == old(viewport)))
        && (action == Ignore ==> nodes == old(nodes) && edges == old(edges) && viewport == old(viewport))
        && (action != Export ==> exported.None?)
      ensures hasInstance == old(hasInstance)
    {
      exported := None;
      var action := KeyDispatch(ev, hasInstance);
      match action
      case Paste =>
        PasteClipboard(clipboard, rect, toFlow, nonce, parse);
      case Export =>
        var text := ExportCanvas(c, now);
        exported := Some(text);
      case Import =>
        ImportCanvas(c, file);
      case Ignore =>
    }
  }
}
