# Canvas mood board — a verified model of its core

The mood board is a React canvas (built on React Flow) on which notes, links, images,
videos, documents, markdown notes and sketches are placed as nodes and joined by edges.
This project models in Dafny the logic underneath that canvas, and proves what that logic
promises:

- the undo/redo history of the drawing tools, and the drawing calls a shape makes;
- the clipboard classifier that turns pasted text into a video, image, link, markdown or
  text node;
- the canvas serializer (save and load of a whole canvas), the node-record adapters and
  the document-schema adapter;
- the link-preview metadata service: its cache, its OpenGraph tag dispatch and its
  fallbacks;
- the markdown block renderer of the markdown note;
- the state transitions of the canvas host: drop, pane click, paste, export, import and
  the keyboard shortcuts;
- the small pure helpers and state flags inside the components: the text splice and
  shortcuts of the smart text area, the link dialog, the word and character statistics,
  the drop zone, text truncation, section ids, the data hierarchy's entry order and
  collapse rules, video embed URLs, actor initials, the note palette and editing flag,
  and the sketch surface;
- the startup document (the fixture of 17 nodes and 12 edges) and its referential
  integrity.

One Dafny module models each source file. Five shared modules give the model its
vocabulary:

- `Wrappers` holds `Option`.
- `JsStrings` holds the JavaScript string operations the code calls: `trim` with its
  whitespace set, `split`, `substring`/`slice` index clamping, first-occurrence
  `replace`, `includes`/`startsWith`/`endsWith`, and the case maps.
- `Values` holds the JavaScript values stored in node data, with truthiness.
- `CanvasModel` holds nodes, edges, viewports and the well-formedness predicate of a
  canvas: every edge endpoint names a node, and ids are unique.
- `Urls` holds the parsed URL, a host name and a path.

Whatever the code gets from the browser or the network is a parameter of the model:
- the URL parser (`new URL`), as a partial function;
- the JSON codec, as a pair of functions;
- the HTML parser;
- the outcome of the proxy fetch;
- the clipboard text;
- fresh ids and timestamps;
- the flow coordinate transform;
- whether the canvas has a 2D context.

Lemmas about a round trip assume only the codec law `decode(encode(s)) == s`, and
only at the one state being saved (`CanvasSerializer.LawfulAt`). No codec can obey it
at every state, since states hold real numbers and strings are countable, but every
state has a codec that obeys it there (`CanvasSerializer.LawfulAtSatisfiable`).

Where the code and its written description disagree, the model follows the code:
- The metadata cache is an unbounded map with no eviction order.
- Saving stamps both `createdAt` and `lastModified` with the current time; an earlier
  `createdAt` is not kept.
- Loading keeps edges whose endpoints are missing.
- No snapshot is taken when the drawing history is created.
- On the note card, an arrow key steps from the colour of the button that has the focus,
  and the focus does not move with the selection. So pressing the same arrow twice on one
  button chooses the same neighbour both times (`NoteNode.RepeatedArrowOnOneButton`).
  Pressing Right then Left on one button chooses its right neighbour and then its left
  neighbour, so it ends on the button's left neighbour and never on the button's own
  colour (`NoteNode.RightThenLeftOnOneButton`). Only the index arithmetic is an inverse
  (`NoteNode.LeftUndoesRight`).
- The markdown note placed by a drop from the sidebar gets a content string holding a
  backslash followed by `n` where the markdown note's own default has a line break
  (`src/OverviewFlow.tsx:196` against `src/MarkdownNode.tsx:13`). The model keeps that
  content as written, and proves it renders as one line
  (`OverviewFlow.DroppedMarkdownNoteIsOneLine`).

## Model

| member | source | states |
|---|---|---|
| DrawingUtils.CreateHistoryManager | src/DrawingUtils.ts:7-11 | a new history has no snapshots and cursor -1; its capacity is the argument, or 50 when absent; with a positive capacity it satisfies the history invariant |
| DrawingUtils.Undo | src/DrawingUtils.ts:36-52 | undo moves the cursor one step back when it is above 0, and otherwise leaves the history as it was; the snapshots and the capacity never change |
| DrawingUtils.Redo | src/DrawingUtils.ts:54-70 | redo moves the cursor one step forward when a later snapshot exists, and otherwise leaves the history as it was; the snapshots and the capacity never change |
| DrawingUtils.Canvas.constructor | src/DrawingUtils.ts:13-18 | a canvas whose 2D context is present or absent, holding the given image |
| DrawingUtils.SaveDrawingState | src/DrawingUtils.ts:13-34 | without a 2D context the history comes back unchanged; with one, the result is the history after saving the canvas image (keep up to the cursor, append, drop the oldest on overflow, cursor at the end) |
| DrawingUtils.UndoDrawing | src/DrawingUtils.ts:36-52 | returns the undone history, and paints the snapshot now under the cursor when the cursor moved and a context exists; otherwise the image is untouched |
| DrawingUtils.RedoDrawing | src/DrawingUtils.ts:54-70 | returns the redone history, and paints the snapshot now under the cursor when the cursor moved and a context exists; otherwise the image is untouched |
| DrawingUtils.SaveAppendsAtCursor | src/DrawingUtils.ts:21-33 | after a save the new snapshot is the last element, the cursor points at it, and the capacity is unchanged |
| DrawingUtils.Saved | src/DrawingUtils.ts:21-33 | a save keeps the capacity, leaves the cursor on the newest snapshot, and with a positive capacity that newest snapshot is the saved one |
| DrawingUtils.SaveTruncatesAndEvicts | src/DrawingUtils.ts:21-27 | a save discards every snapshot after the cursor, then drops the oldest snapshot exactly when the kept ones already fill the capacity |
| DrawingUtils.SaveKeepsValid | src/DrawingUtils.ts:21-33 | a save keeps the invariant: capacity at least one, never more snapshots than the capacity, the cursor inside the list, and cursor -1 exactly when the list is empty |
| DrawingUtils.UndoRedoKeepValid | src/DrawingUtils.ts:40-69 | undo and redo keep the same invariant |
| DrawingUtils.RedoAfterSaveIsNoOp | src/DrawingUtils.ts:21-58 | right after a save there is nothing to redo |
| DrawingUtils.UndoRedoInverse | src/DrawingUtils.ts:40-69 | redo after a real undo restores the history, and undo after a real redo restores it |
| DrawingUtils.SaveAfterUndoDropsRedo | src/DrawingUtils.ts:21-58 | a save after an undo from the end replaces the last snapshot, keeps the length, and leaves nothing to redo |
| DrawingUtils.FourSavesIntoThree | src/DrawingUtils.ts:7-27 | four saves into a history of capacity 3 keep the last three snapshots in order, with the cursor on the newest |
| DrawingUtils.Context2D.constructor | src/DrawingUtils.ts:83-91 | a context with opacity 1 on which nothing has been drawn |
| DrawingUtils.DrawShape | src/DrawingUtils.ts:83-135 | drawing a shape sets stroke and fill colour from the state, and the line width when it is positive (a context keeps its width otherwise), sets the font only for the text tool, appends the tool's drawing calls, and leaves opacity reset to 1 |
| DrawingUtils.RectangleSpansDrag | src/DrawingUtils.ts:105-113 | the rectangle is one call, filled exactly when `fill` is set and stroked otherwise; it starts at the drag start and ends at the drag end, with no clamping, so a leftward drag gives a negative width |
| ClipboardService.DetectContentType | src/ClipboardService.ts:9-39 | trimmed text that does not parse as a URL is text; a parsed URL is a video exactly when its host or path passes the video test; it is an image exactly when it is not a video and its path has an image extension; any other URL is a link |
| ClipboardService.DetectIgnoresSurroundingWhitespace | src/ClipboardService.ts:11 | classification looks only at the trimmed text |
| ClipboardService.VideoBeforeImage | src/ClipboardService.ts:20-31 | a YouTube URL whose path ends in `.png` is a video, because the video test comes first |
| ClipboardService.Capitalize | src/ClipboardService.ts:120 | upper-cases the first character and keeps the rest and the length |
| ClipboardService.ExtractTitle | src/ClipboardService.ts:104-124 | no title exactly when the URL does not parse; otherwise, with the first `www.` removed from the host, YouTube hosts give "YouTube Video", Vimeo hosts give "Vimeo Video", and any other host is capitalised |
| ClipboardService.HeadingText | src/ClipboardService.ts:128-129 | a heading line loses its leading `#`s and the whitespace after them; the result is a proper suffix of the line |
| ClipboardService.HeadingIsShorter | src/ClipboardService.ts:128-129 | stripping a heading line always shortens it |
| ClipboardService.HeadingIsSuffix | src/ClipboardService.ts:128-129 | the stripped heading is a suffix of the line |
| ClipboardService.ExtractFirstLine | src/ClipboardService.ts:126-132 | a heading first line gives its stripped text, untruncated; another line over 50 characters gives its first 50 characters and "..."; a shorter line is kept; a non-heading result is at most 53 characters |
| ClipboardService.ExtractFirstLineIgnoresRest | src/ClipboardService.ts:127 | only the first line counts: what follows the first line break never changes the title |
| ClipboardService.MarkdownExtendsRight | src/ClipboardService.ts:134-147 | text that matches one of the markdown patterns still matches with anything appended |
| ClipboardService.MarkdownAfterNewLine | src/ClipboardService.ts:134-147 | the patterns are line-local: markdown text still matches with any lines put before it |
| ClipboardService.PlainTextIsNotMarkdown | src/ClipboardService.ts:137-143 | text with none of the characters `#`, `*`, `-`, backtick or `[` is never markdown |
| ClipboardService.MarkdownExamples | src/ClipboardService.ts:137-143 | a header line and a link match; plain words do not |
| ClipboardService.CreateNodeFromClipboard | src/ClipboardService.ts:41-102 | the node id is the content type, a dash and the nonce; the position is passed through; video, image and link nodes store the trimmed text with their titles or caption; markdown and text nodes store the text untrimmed; the node type follows the content type |
| ClipboardService.PastedTitlesAreNonEmpty | src/ClipboardService.ts:53-88 | every title a pasted node gets is a non-empty string, thanks to the "Video", "Link" and "Markdown Note" fallbacks |
| ClipboardService.NodeTypeMatchesContentType | src/ClipboardService.ts:43-100 | the node type is videoNode, imageNode or linkNode exactly when the content is a video, an image or a link; it is markdownNode or textNode exactly when the content is text; the id starts with the content type and a dash |
| CanvasSerializer.CleanNode | src/CanvasSerializer.ts:21-26 | a saved node is not selected and not dragged, and agrees with the original in every other field |
| CanvasSerializer.CleanEdge | src/CanvasSerializer.ts:27-30 | a saved edge is not selected, and agrees with the original in every other field |
| CanvasSerializer.CleanNodes | src/CanvasSerializer.ts:21-26 | saving keeps the number and order of the nodes and cleans each one |
| CanvasSerializer.CleanEdges | src/CanvasSerializer.ts:27-30 | saving keeps the number and order of the edges and cleans each one |
| CanvasSerializer.SerializedState | src/CanvasSerializer.ts:20-37 | the saved record keeps every node's id, position, data and type and every edge's id and endpoints, clears the transient flags, writes the given viewport, and stamps creation and modification with the current time and version "1.0.0" |
| CanvasSerializer.Serialize | src/CanvasSerializer.ts:19-40 | under a codec that reads back what it writes, loading the saved text gives back exactly the saved record: the cleaned nodes and edges, the viewport and the metadata |
| CanvasSerializer.Deserialize | src/CanvasSerializer.ts:42-56 | loading fails exactly when the text does not decode or lacks the nodes or the edges; otherwise it returns the decoded nodes, edges, viewport and metadata as they are |
| CanvasSerializer.LawfulAtSatisfiable | src/CanvasSerializer.ts:39-44 | for every state some codec gives that state back from the text it writes |
| CanvasSerializer.DeserializeSerialize | src/CanvasSerializer.ts:19-51 | when the codec gives back the saved record from its text, loading the saved text returns exactly that record |
| CanvasSerializer.CleanIdempotent | src/CanvasSerializer.ts:21-30 | cleaning twice is cleaning once |
| CanvasSerializer.CleanKeepsWellFormed | src/CanvasSerializer.ts:21-30 | cleaning keeps a canvas well formed and never makes a malformed one well formed |
| CanvasSerializer.DanglingEdgeIsKept | src/CanvasSerializer.ts:44-51 | an edge whose endpoints are missing is loaded anyway |
| CanvasSerializer.MissingEdgesIsRefused | src/CanvasSerializer.ts:47-49 | a document without edges is refused |
| CanvasSerializer.ExtractNode | src/CanvasSerializer.ts:100-110 | the exported record carries the node's id, type, position and data, plus its width, height and style as metadata |
| CanvasSerializer.ExtractNodeData | src/CanvasSerializer.ts:99-111 | export keeps the number and order of the nodes |
| CanvasSerializer.CreateNode | src/CanvasSerializer.ts:115-123 | a falsy id becomes the fresh id, a falsy type becomes textNode, a missing position becomes (0, 0), missing data becomes an empty record, and width, height and style come from the metadata |
| CanvasSerializer.CreateNodesFromData | src/CanvasSerializer.ts:114-124 | import keeps the number and order of the records, and the i-th record gets the i-th fresh id |
| CanvasSerializer.CreateAfterExtract | src/CanvasSerializer.ts:99-124 | importing exported nodes gives the nodes back, when each has a non-empty id and type and no transient flags |
| CanvasSerializer.ExtractAfterCreate | src/CanvasSerializer.ts:99-124 | exporting imported records gives the records back, when every field is present and id and type are non-empty |
| CanvasSerializer.FreshIdsAreUsed | src/CanvasSerializer.ts:116 | records without ids get pairwise distinct fresh ids, so the created nodes have unique ids |
| DocumentIntegration.ActorValue | src/CanvasSerializer.ts:163 | an actor is stored as an object with its id and name, and with an avatar exactly when it has one |
| DocumentIntegration.AttachmentValue | src/CanvasSerializer.ts:164 | an attachment is stored as an object with its id, name, type and url, and with a thumbnail exactly when it has one |
| DocumentIntegration.MetadataValue | src/CanvasSerializer.ts:165 | absent metadata is undefined; present metadata is an object with its two timestamps, and with its tags exactly when it has them |
| DocumentIntegration.ActorsValue | src/CanvasSerializer.ts:163 | the stored actors are an array with one entry per actor, in order, each the actor's object |
| DocumentIntegration.AttachmentsValue | src/CanvasSerializer.ts:164 | the stored attachments are an array with one entry per attachment, in order, each the attachment's object |
| DocumentIntegration.CreateDocumentNode | src/CanvasSerializer.ts:153-168 | the node has id "doc-" and the document id, type documentNode and the given position; it stores the document id and title; a non-empty content is kept and a missing or empty one becomes `''`; present categories, actors and attachments are stored element by element and missing ones become `[]`; present metadata is stored as an object and missing metadata stays undefined |
| DocumentIntegration.ExtractDocumentData | src/CanvasSerializer.ts:170-182 | no result exactly when the node is not a document node; otherwise each field is read from the node's data |
| DocumentIntegration.ExtractAfterCreate | src/CanvasSerializer.ts:153-182 | reading back a created document node returns its id, title, content, categories, actors, attachments and metadata |
| MetadataService.NonEmpty | src/MetadataService.ts:93-98 | the fallback to `undefined` for a falsy value: a value survives exactly when it is a non-empty string |
| MetadataService.WithFallbacks | src/MetadataService.ts:90-99 | the page title and the description meta fill the title and description only when the tags left them unset or empty; the other fields are untouched |
| MetadataService.ParseMetadata | src/MetadataService.ts:53-102 | the loop over the OpenGraph tags, then the fallbacks, gives the parsed metadata of the document |
| MetadataService.ApplyTagField | src/MetadataService.ts:62-87 | one tag sets the field its property names exactly when both its property and its content are non-empty, and touches no other field |
| MetadataService.LastTagWins | src/MetadataService.ts:61-88 | a field stays unset exactly when no tag sets it; otherwise it holds the content of the last tag that sets it |
| MetadataService.OgTitleTakesPrecedence | src/MetadataService.ts:69-94 | when some tag sets og:title, the page title is ignored; otherwise the title is the page title, if non-empty |
| MetadataService.ExtractDomainName | src/MetadataService.ts:104-111 | an unparseable URL gives "Link"; otherwise the host with its first `www.` removed |
| MetadataService.DomainNameStripsWww | src/MetadataService.ts:107 | a host starting with `www.` loses exactly those four characters; a host without `www.` is kept |
| MetadataService.FallbackMetadata | src/MetadataService.ts:42-46 | the fallback record has the domain name as title and the URL as description and as url, and nothing else |
| MetadataService.MissResult | src/MetadataService.ts:19-50 | for an uncached URL, fetched non-empty contents give the parsed record; a failed fetch or missing or empty contents give the fallback, titled by the domain, with the URL |
| MetadataService.CacheStep | src/MetadataService.ts:13-51 | after one call the URL is cached with the returned record; the keys grow by that URL only and every other entry is untouched; a hit returns the cached record and leaves the cache as it was; a miss returns the parsed record or the fallback |
| MetadataService.SecondCallHitsCache | src/MetadataService.ts:15-48 | a second call for the same URL changes nothing and returns the same record, whatever the network does |
| MetadataService.FailureIsCached | src/MetadataService.ts:27-49 | a failed fetch and an empty `contents` both cache the fallback record |
| MetadataService.MetadataCache.constructor | src/MetadataService.ts:11 | the cache starts empty |
| MetadataService.MetadataCache.FetchMetadata | src/MetadataService.ts:13-51 | fetches exactly on a miss; the new cache and the result are the cache step of the old cache |
| MetadataService.MetadataCache.ClearCache | src/MetadataService.ts:113-115 | the cache is empty afterwards |
| MetadataService.MetadataCache.CacheSize | src/MetadataService.ts:117-119 | the number of cached URLs |
| MarkdownNode.CloseAt | src/MarkdownNode.tsx:59-62 | a span opening at the start closes at the first later delimiter, and only when no line terminator comes before it |
| MarkdownNode.ReplaceDelimited | src/MarkdownNode.tsx:59-62 | a span that opens at the start and closes on the line becomes the tag around its text; any other first character is kept; text without the delimiter's first character is unchanged |
| MarkdownNode.Inline | src/MarkdownNode.tsx:59-62 | text without `*` or backtick comes out of the inline substitutions unchanged |
| MarkdownNode.Classify | src/MarkdownNode.tsx:39-63 | a "# ", "## " or "### " line is a heading of level 1, 2 or 3 with the rest of the line as its text; otherwise a "- " line is a list item of the rest with inline markup; a line is blank exactly when it has none of the prefixes and is all whitespace; any other line is a paragraph with inline markup |
| MarkdownNode.Flush | src/MarkdownNode.tsx:25-36 | the pending list is empty after a flush |
| MarkdownNode.FlushList | src/MarkdownNode.tsx:25-36 | the imperative flush does what `Flush` specifies: a non-empty pending list becomes one list block and the buffer is cleared |
| MarkdownNode.RenderLine | src/MarkdownNode.tsx:39-64 | one pass of the loop body takes the render state one `Step` further |
| MarkdownNode.RenderMarkdown | src/MarkdownNode.tsx:20-69 | the loop over the lines, with the final flush, returns exactly the blocks the line-by-line specification gives |
| MarkdownNode.RunOutput | src/MarkdownNode.tsx:38-65 | the blocks emitted so far, with the pending items, spell out each line's own output in line order; some block has been emitted exactly when some line is not blank |
| MarkdownNode.RenderedInLineOrder | src/MarkdownNode.tsx:20-69 | the rendered blocks come out in source-line order: each heading, item and paragraph line gives its own block, and a blank line gives a break only after earlier content |
| MarkdownNode.RunShape | src/MarkdownNode.tsx:25-65 | during the loop no list is empty, no two lists are adjacent, and the last block emitted is never a list |
| MarkdownNode.FlushShape | src/MarkdownNode.tsx:67 | the final flush keeps lists non-empty and never adjacent |
| MarkdownNode.RenderedListsWellFormed | src/MarkdownNode.tsx:20-69 | in the rendered output every list is non-empty and no two lists are adjacent: consecutive "- " lines form one list |
| MarkdownNode.RunCount | src/MarkdownNode.tsx:48-53 | the items emitted plus those pending equal the number of list lines so far |
| MarkdownNode.RenderedItemCount | src/MarkdownNode.tsx:20-69 | the rendered lists hold as many items as the content has "- " lines |
| MarkdownNode.SnippetIsOneLine | src/MarkdownNode.tsx:126-130 | no toolbar snippet contains a line break |
| MarkdownNode.RenderedAppend | src/MarkdownNode.tsx:21-67 | rendering content with one more line is the loop over the old lines, one more step, and the final flush |
| MarkdownNode.HeadingLineAppends | src/MarkdownNode.tsx:39-47 | appending a heading line adds exactly that heading block at the end of the old rendering |
| MarkdownNode.ListLineExtendsList | src/MarkdownNode.tsx:48-67 | appending a list line adds its item to the list pending at the end of the old content |
| MarkdownNode.HeadingButtonAddsHeading | src/MarkdownNode.tsx:128 | the H button adds a "Heading" h1 at the end of the rendering |
| MarkdownNode.ListButtonExtendsList | src/MarkdownNode.tsx:129 | the list button adds a "List item" to the trailing list, or starts one |
| MarkdownNode.DefaultContentLines | src/MarkdownNode.tsx:13 | the default content is three lines: the heading, an empty line and the prompt |
| MarkdownNode.ClassifyDefaultLines | src/MarkdownNode.tsx:13-63 | those lines are a first-level heading, a blank line and a paragraph |
| MarkdownNode.DefaultContentRendering | src/MarkdownNode.tsx:13-69 | the default content renders as the h1 "New Note", a break and the paragraph "Click to edit..." |
| MarkdownNode.MarkdownEditor.constructor | src/MarkdownNode.tsx:13-14 | a missing or empty content or title takes its default |
| MarkdownNode.MarkdownEditor.Press | src/MarkdownNode.tsx:126-130 | a toolbar button appends a line break and its snippet to the content |
| OverviewFlow.DefaultNodeData | src/OverviewFlow.tsx:171-200 | a known type gets a non-empty record of strings and empty arrays; any other type gets `{}` |
| OverviewFlow.DefaultsCoverContentTypes | src/OverviewFlow.tsx:38-200 | the types with defaults are the registered content types plus sketchNode, which has defaults but is not registered |
| OverviewFlow.DroppedDocumentReadsBack | src/OverviewFlow.tsx:181-188 | a dropped document node reads back as titled "New Document", with empty content and empty lists and no id or metadata |
| OverviewFlow.DroppedMarkdownNoteIsOneLine | src/OverviewFlow.tsx:196 | the dropped markdown note's content has no line break, so it renders as one line |
| OverviewFlow.DroppedNode | src/OverviewFlow.tsx:97-102 | the dropped node has id "type-timestamp", the dropped type, the drop position and the type's default data |
| OverviewFlow.Deselected | src/OverviewFlow.tsx:73 | every node is kept in place, with `selected` false and nothing else changed |
| OverviewFlow.DeselectedSelectsNone | src/OverviewFlow.tsx:71-74 | after a pane click nothing is selected, and a second click changes nothing |
| OverviewFlow.DeselectedKeepsWellFormed | src/OverviewFlow.tsx:71-74 | a pane click keeps the canvas well formed |
| OverviewFlow.DeselectedSavesTheSame | src/OverviewFlow.tsx:73 | a pane click never changes what is saved |
| OverviewFlow.AppendFreshKeepsWellFormed | src/OverviewFlow.tsx:104-146 | appending a node with a new id keeps the canvas well formed |
| OverviewFlow.ImportedState | src/CanvasSerializer.ts:72-96 | no file gives no state; a file gives what loading its text gives |
| OverviewFlow.ImportOfExport | src/OverviewFlow.tsx:111-125 | importing an exported canvas restores its cleaned nodes and edges and its viewport |
| OverviewFlow.KeyDispatch | src/OverviewFlow.tsx:128-158 | Ctrl+V pastes exactly when a flow instance exists, Ctrl+S exports, Ctrl+O imports; every other key is ignored |
| OverviewFlow.OnlyCtrlIsConsulted | src/OverviewFlow.tsx:130-155 | only the key and the Ctrl flag decide the action, and nothing happens without Ctrl |
| OverviewFlow.PastedNode | src/OverviewFlow.tsx:135-146 | a node is pasted exactly when the trimmed text is non-empty and the canvas has a bounding box; it is the classifier's node, placed at the flow position of the box centre |
| OverviewFlow.BlankPasteAddsNothing | src/OverviewFlow.tsx:135 | whitespace-only clipboard text adds no node |
| OverviewFlow.CanvasHost.constructor | src/OverviewFlow.tsx:61-64 | the host starts with the initial nodes, edges and viewport, and without a flow instance |
| OverviewFlow.CanvasHost.Init | src/OverviewFlow.tsx:212 | initialisation provides the flow instance and changes nothing else |
| OverviewFlow.CanvasHost.OnDrop | src/OverviewFlow.tsx:81-108 | a drop with a missing or empty type, or before the flow instance exists, changes nothing; otherwise exactly one dropped node is appended after the existing nodes |
| OverviewFlow.CanvasHost.OnPaneClick | src/OverviewFlow.tsx:71-74 | the nodes become deselected; edges and viewport are untouched |
| OverviewFlow.CanvasHost.ExportCanvas | src/OverviewFlow.tsx:111-114 | exports the current nodes and edges, with the viewport only when a flow instance exists |
| OverviewFlow.CanvasHost.ImportCanvas | src/OverviewFlow.tsx:116-125 | a failed import leaves everything; a successful one replaces nodes and edges wholesale, and sets the viewport only when the file has one and a flow instance exists |
| OverviewFlow.CanvasHost.PasteClipboard | src/OverviewFlow.tsx:133-151 | no clipboard text or no pastable node leaves the nodes; otherwise exactly the pasted node is appended; edges and viewport never change |
| OverviewFlow.CanvasHost.HandleKeyDown | src/OverviewFlow.tsx:128-161 | performs what the key dispatch chose (paste, export of the current canvas, or import, which takes the file's viewport only when it has one and there is an instance) and changes nothing for any other key |
| AdvancedUIComponents.Spliced | src/AdvancedUIComponents.tsx:163 | the value before the selection, then the text, then the value after the selection |
| AdvancedUIComponents.SplicedPlacesText | src/AdvancedUIComponents.tsx:160-163 | the inserted text sits at the selection start, the length changes by the text's length less the selection's, and the value outside the selection is kept |
| AdvancedUIComponents.InsertThenCut | src/AdvancedUIComponents.tsx:163 | cutting out a text just inserted at a caret gives the original value back |
| AdvancedUIComponents.KeyCommand | src/AdvancedUIComponents.tsx:176-199 | with Ctrl or Meta, b inserts "**bold**", i inserts "*italic*" and Enter blurs; Tab inserts two spaces; nothing else is a command |
| AdvancedUIComponents.ShortcutsMatchButtons | src/AdvancedUIComponents.tsx:20-187 | the bold and italic shortcuts insert the same text as the bold and italic buttons |
| AdvancedUIComponents.ButtonText | src/AdvancedUIComponents.tsx:19-30 | the line-prefix buttons (headings, lists, quote) insert a snippet ending in a space and the others do not; only the code block spans several lines |
| AdvancedUIComponents.ButtonTextsDistinct | src/AdvancedUIComponents.tsx:19-30 | every format button inserts a non-empty snippet, and no two buttons insert the same one |
| AdvancedUIComponents.LinkMarkup | src/AdvancedUIComponents.tsx:13 | the link markup is the URL wrapped in "[Link text](" and ")" |
| AdvancedUIComponents.LinkMarkupHoldsUrl | src/AdvancedUIComponents.tsx:13 | the URL can be read back from between the parentheses |
| AdvancedUIComponents.RichTextToolbar.constructor | src/AdvancedUIComponents.tsx:8-9 | the link dialog starts closed with an empty URL |
| AdvancedUIComponents.RichTextToolbar.OpenLinkDialog | src/AdvancedUIComponents.tsx:47 | opens the dialog and keeps the URL |
| AdvancedUIComponents.RichTextToolbar.SetLinkUrl | src/AdvancedUIComponents.tsx:61 | typing sets the URL |
| AdvancedUIComponents.RichTextToolbar.HandleLinkInsert | src/AdvancedUIComponents.tsx:11-17 | with an empty URL nothing is inserted and nothing changes; otherwise the link markup is inserted, the URL cleared and the dialog closed |
| AdvancedUIComponents.RichTextToolbar.LinkKeyDown | src/AdvancedUIComponents.tsx:62-65 | Enter inserts the link as above; Escape closes the dialog and inserts nothing; other keys change nothing |
| AdvancedUIComponents.RichTextToolbar.CancelLinkDialog | src/AdvancedUIComponents.tsx:72 | closes the dialog and keeps the URL |
| AdvancedUIComponents.Words | src/AdvancedUIComponents.tsx:230 | the words of a value (split on whitespace runs, empty pieces dropped) are non-empty, contain no whitespace, and are no more than its characters |
| AdvancedUIComponents.WordCount | src/AdvancedUIComponents.tsx:230 | the word count is at most the character count, and zero exactly when the value is all whitespace |
| AdvancedUIComponents.CharCount | src/AdvancedUIComponents.tsx:230 | the character count is the value's length and never below the word count |
| AdvancedUIComponents.SomeWord | src/AdvancedUIComponents.tsx:230 | a value with a character that is not whitespace has at least one word |
| AdvancedUIComponents.OneWord | src/AdvancedUIComponents.tsx:230 | a non-empty value without whitespace is exactly one word, the value itself |
| AdvancedUIComponents.NoWordsInWhitespace | src/AdvancedUIComponents.tsx:230 | a whitespace-only value has no words |
| AdvancedUIComponents.WordsAroundSeparator | src/AdvancedUIComponents.tsx:230 | a whitespace character splits the words: the words of `a + c + b` are the words of `a` followed by those of `b` |
| AdvancedUIComponents.WordCountAdds | src/AdvancedUIComponents.tsx:230 | joining two values with a space adds their word counts |
| AdvancedUIComponents.SmartTextArea.constructor | src/AdvancedUIComponents.tsx:148-157 | the area holds the given value, and the text element is not yet mounted |
| AdvancedUIComponents.SmartTextArea.HandleInsert | src/AdvancedUIComponents.tsx:159-174 | once mounted, the text replaces the selection and the caret lands just after it; before mounting nothing changes |
| AdvancedUIComponents.SmartTextArea.HandleKeyDown | src/AdvancedUIComponents.tsx:176-199 | blurs exactly on the blur command, inserts the command's text like an insertion, and otherwise changes nothing |
| AdvancedUIComponents.FileDropZone.constructor | src/AdvancedUIComponents.tsx:94 | the zone starts not dragging |
| AdvancedUIComponents.FileDropZone.DragOver | src/AdvancedUIComponents.tsx:96-100 | dragging over sets the flag |
| AdvancedUIComponents.FileDropZone.DragLeave | src/AdvancedUIComponents.tsx:102-106 | leaving clears the flag |
| AdvancedUIComponents.FileDropZone.Drop | src/AdvancedUIComponents.tsx:108-117 | a drop clears the flag and hands over the files exactly when the list is non-empty |
| InformationComponents.WhitespaceRun | src/InformationComponents.tsx:48 | the length of the leading whitespace run |
| InformationComponents.Dashed | src/InformationComponents.tsx:48 | replacing whitespace runs leaves no whitespace and never lengthens the text |
| InformationComponents.SectionId | src/InformationComponents.tsx:48-69 | a section id starts with "section-" and contains no whitespace |
| InformationComponents.DashedWithoutWhitespace | src/InformationComponents.tsx:48 | text without whitespace is kept as it is |
| InformationComponents.DashedRunIsOneDash | src/InformationComponents.tsx:48 | a whole whitespace run becomes a single dash |
| InformationComponents.CollapsibleSection.constructor | src/InformationComponents.tsx:16-22 | the section starts expanded only when asked to; the default is collapsed |
| InformationComponents.CollapsibleSection.HandleToggle | src/InformationComponents.tsx:24-26 | a toggle flips the expansion |
| InformationComponents.CollapsibleSection.HeaderKeyDown | src/InformationComponents.tsx:41-46 | Enter or Space flips the expansion; other keys do not |
| InformationComponents.JoinPrefix | src/InformationComponents.tsx:102 | joining the first lines gives a prefix of the joined whole |
| InformationComponents.Preview | src/InformationComponents.tsx:99-103 | the preview is a prefix of the text; without line truncation it is the first `maxLength` characters; with it, it is exactly the first `previewLines` lines (all but the last `-previewLines` for a negative count, nothing for zero), followed in the text by a line break |
| InformationComponents.PreviewLines | src/InformationComponents.tsx:98-103 | the first `j` lines joined back split into those same lines and are followed in the text by a line break |
| InformationComponents.Truncated | src/InformationComponents.tsx:95-107 | empty or short text is shown whole; a preview longer than the limit is cut to the limit with "..."; a line-truncated preview gets "\n..."; otherwise "..." is added; the result is at most the limit plus 4 |
| InformationComponents.TruncatedStartsLikeText | src/InformationComponents.tsx:99-107 | a text cut by characters is its first `maxLength` characters followed by "..."; a text cut by lines is its preview, a prefix of the text, followed by a line break and "..." |
| InformationComponents.SmartTruncate.constructor | src/InformationComponents.tsx:86-93 | the limit defaults to 100 and the preview lines to 2; the text starts collapsed |
| InformationComponents.SmartTruncate.Shown | src/InformationComponents.tsx:112-130 | expanded shows the whole text, collapsed shows the truncated text |
| InformationComponents.SmartTruncate.ToggleExpanded | src/InformationComponents.tsx:114-136 | the button flips the expansion |
| InformationComponents.Toggled | src/InformationComponents.tsx:161-171 | the toggled key is in the set exactly when it was not; every other key is in it exactly when it was |
| InformationComponents.ToggledTwice | src/InformationComponents.tsx:161-171 | toggling a key twice gives back the set |
| InformationComponents.ToggledCommutes | src/InformationComponents.tsx:161-171 | toggles of two keys commute |
| InformationComponents.TypeRank | src/InformationComponents.tsx:288-292 | strings rank 1, numbers 2, booleans 3, objects and null 4, arrays and undefined 5, each exactly |
| InformationComponents.KeyLessIrreflexive | src/InformationComponents.tsx:295 | no key is less than itself |
| InformationComponents.KeyLessTransitive | src/InformationComponents.tsx:295 | the key order is transitive |
| InformationComponents.KeyLessTotal | src/InformationComponents.tsx:295 | two different keys are always ordered one way |
| InformationComponents.EntryLessIrreflexive | src/InformationComponents.tsx:286-296 | the entry order (type rank, then key) is irreflexive |
| InformationComponents.EntryLessTransitive | src/InformationComponents.tsx:286-296 | the entry order is transitive |
| InformationComponents.EntryLessTotal | src/InformationComponents.tsx:286-296 | entries with different keys are always ordered |
| InformationComponents.Insert | src/InformationComponents.tsx:286-296 | inserting into sorted entries keeps them sorted and adds exactly that entry |
| InformationComponents.SortEntries | src/InformationComponents.tsx:285-296 | the sorted entries are in order and a permutation of the entries |
| InformationComponents.SortedEntriesAreCanonical | src/InformationComponents.tsx:285-296 | with distinct keys the result is the one strictly ordered arrangement of the entries, whatever the sort algorithm |
| InformationComponents.RenderValue | src/InformationComponents.tsx:173-279 | a non-empty array collapses exactly when longer than the limit and not expanded; a non-empty object collapses exactly at depth at least the maximum; a string shows truncated to 50 characters |
| InformationComponents.ToggleFlipsLongArray | src/InformationComponents.tsx:204-219 | toggling a long array's key flips it between collapsed and shown; a short array is always shown |
| InformationComponents.DefaultCollapseExamples | src/InformationComponents.tsx:155-275 | with the defaults, six items collapse, one to five are shown, and an object above depth 3 nests one level deeper |
| InformationComponents.DataHierarchy.constructor | src/InformationComponents.tsx:159 | no key starts expanded |
| InformationComponents.DataHierarchy.ToggleKey | src/InformationComponents.tsx:161-171 | the expanded set becomes the toggled set |
| VideoNode.Capture | src/VideoNode.tsx:20-25 | the captured id is the maximal non-empty run of id characters right after the matched prefix |
| VideoNode.FirstMatch | src/VideoNode.tsx:20-25 | the leftmost position where the pattern matches, or none when it matches nowhere |
| VideoNode.GetEmbedUrl | src/VideoNode.tsx:19-31 | the result is a YouTube embed URL, a Vimeo player URL, or the URL itself |
| VideoNode.YouTubeEmbedding | src/VideoNode.tsx:20-23 | at the leftmost YouTube match, the embed URL is the YouTube embed prefix plus the captured id |
| VideoNode.VimeoEmbedding | src/VideoNode.tsx:25-28 | without a YouTube match, at the leftmost Vimeo match, it is the Vimeo player prefix plus the captured digits |
| VideoNode.NoEmbedding | src/VideoNode.tsx:30 | with no match the URL is returned unchanged |
| VideoNode.EmbeddableIsValid | src/VideoNode.tsx:19-35 | every URL that gets embedded passes the validity test |
| VideoNode.IsValidVideoUrl | src/VideoNode.tsx:33-35 | a URL is valid exactly when it contains one of "youtube.com", "youtu.be", "vimeo.com" or ".mp4" |
| VideoNode.ValidInContext | src/VideoNode.tsx:33-35 | text before or after a valid URL, such as a query string or a fragment, keeps it valid |
| VideoNode.YouTubeLinkEmbeds | src/VideoNode.tsx:20-23 | a watch or short link followed by an id embeds exactly that id |
| VideoNode.VimeoLinkEmbeds | src/VideoNode.tsx:25-28 | a Vimeo link followed by digits embeds exactly those digits |
| VideoNode.Mp4FileIsValidAndKept | src/VideoNode.tsx:30-35 | a plain `.mp4` file name is valid and is played as it is |
| DocumentNode.Initials | src/DocumentNode.tsx:22-24 | initials have at most two characters and no lower-case letter |
| DocumentNode.InitialsOfOneWord | src/DocumentNode.tsx:22-24 | a single word gives its upper-cased first letter |
| DocumentNode.InitialsOfTwoWords | src/DocumentNode.tsx:22-24 | two words give both upper-cased first letters |
| DocumentNode.LeadingSpaceIgnored | src/DocumentNode.tsx:23 | a leading space adds an empty part, so it does not change the initials |
| DocumentNode.GetActorDisplay | src/DocumentNode.tsx:26-36 | a string is shown as itself with its initials; an object with a truthy name is shown by that name with its truthy avatar, or else the name's initials; every other actor is shown as unknown; the display fails exactly for an object with a truthy non-string name and no avatar |
| DocumentNode.StoredActorDisplay | src/DocumentNode.tsx:26-36 | a stored actor is shown by its name with its avatar or its initials, or as unknown when the name is empty; it never fails |
| NoteNode.ArrowIndex | src/NoteNode.tsx:36-41 | Right goes to the next palette index and wraps from the last to the first; Left goes to the previous one and wraps from the first to the last; the result is a palette index |
| NoteNode.LeftUndoesRight | src/NoteNode.tsx:38-40 | a step left undoes a step right |
| NoteNode.RightUndoesLeft | src/NoteNode.tsx:38-40 | a step right undoes a step left |
| NoteNode.NoteCard.constructor | src/NoteNode.tsx:13-15 | a missing or empty note or colour takes its default, and editing is off |
| NoteNode.NoteCard.ClickColor | src/NoteNode.tsx:32 | clicking a colour button selects its colour |
| NoteNode.NoteCard.ColorKeyDown | src/NoteNode.tsx:33-43 | an arrow on a button selects that button's neighbour in the palette; other keys keep the colour; the note and the editing flag never change |
| NoteNode.NoteCard.ChangeNote | src/NoteNode.tsx:57 | typing replaces the note |
| NoteNode.NoteCard.TextAreaKeyDown | src/NoteNode.tsx:59-66 | Ctrl+Enter or Escape leaves editing; other keys do not |
| NoteNode.NoteCard.Blur | src/NoteNode.tsx:58 | losing focus leaves editing |
| NoteNode.NoteCard.ClickContent | src/NoteNode.tsx:75 | a click starts editing |
| NoteNode.NoteCard.ContentKeyDown | src/NoteNode.tsx:76-80 | Enter or Space starts editing; other keys do not |
| NoteNode.RepeatedArrowOnOneButton | src/NoteNode.tsx:33-43 | the same arrow pressed twice on one button selects the same colour both times |
| NoteNode.RightThenLeftOnOneButton | src/NoteNode.tsx:33-43 | Right then Left on one button ends on that button's left neighbour, not on the button's own colour |
| SketchNode.Max | src/SketchNode.tsx:28-29 | the larger of two numbers |
| SketchNode.CanvasSize | src/SketchNode.tsx:28-29 | the canvas is at least 400 by 300, and never smaller than the node less its padding |
| SketchNode.CanvasFollowsLargeNode | src/SketchNode.tsx:28-29 | a node large enough gives a canvas of exactly its size less the padding |
| SketchNode.Initialized | src/SketchNode.tsx:38-47 | the initialised context draws in black, 2 wide, with a white fill |
| SketchNode.WithTool | src/SketchNode.tsx:98-105 | the pen draws source-over in black at width 2; the eraser erases destination-out at width 10 and keeps the colour |
| SketchNode.PenResetsEraser | src/SketchNode.tsx:98-105 | taking the pen after the eraser is the same as taking the pen |
| SketchNode.WithToolIdempotent | src/SketchNode.tsx:98-105 | choosing a tool twice is choosing it once |
| SketchNode.AttachmentName | src/SketchNode.tsx:156 | the title with ".png", or "Sketch.png" for an empty title |
| SketchNode.DownloadName | src/SketchNode.tsx:184 | the title with ".png", or "sketch.png" for an empty title |
| SketchNode.NamesAgreeForTitled | src/SketchNode.tsx:156-184 | with a title, the saved and the downloaded file names agree |
| SketchNode.Attachment | src/SketchNode.tsx:154-161 | the attachment holds the image as data and thumbnail, is a PNG, and takes its name, id and time stamp from the title and the clock |
| SketchNode.SketchSurface.constructor | src/SketchNode.tsx:15-19 | the surface starts with the data's title, the pen, not drawing, and no canvas or context |
| SketchNode.SketchSurface.Mount | src/SketchNode.tsx:18-190 | mounting provides the canvas element and changes nothing else |
| SketchNode.CanvasPixels | src/SketchNode.tsx:34-35 | a size written to the canvas loses its fraction: the whole number at or below it |
| SketchNode.SketchSurface.InitializeCanvas | src/SketchNode.tsx:22-52 | with a canvas, sizes it by the size floor, truncated to whole pixels, and clears it; with a context, sets it up as initialised; without a canvas changes nothing |
| SketchNode.SketchSurface.SelectTool | src/SketchNode.tsx:205-224 | selects the tool and changes nothing else |
| SketchNode.SketchSurface.SetTitle | src/SketchNode.tsx:198 | sets the title and changes nothing else |
| SketchNode.SketchSurface.StartDrawing | src/SketchNode.tsx:76-106 | without canvas or context nothing happens; otherwise drawing starts, a new path begins at the point, and the context takes the current tool's settings |
| SketchNode.SketchSurface.Draw | src/SketchNode.tsx:108-127 | the path grows by the point only while drawing with a canvas and a context; otherwise nothing happens |
| SketchNode.SketchSurface.StopDrawing | src/SketchNode.tsx:129-135 | drawing stops and nothing else changes |
| SketchNode.SketchSurface.ClearCanvas | src/SketchNode.tsx:137-144 | with canvas and context the fill becomes white; otherwise nothing happens |
| SketchNode.SketchSurface.SaveSketch | src/SketchNode.tsx:146-177 | produces the attachment exactly when a canvas exists |
| SketchNode.SketchSurface.DownloadSketch | src/SketchNode.tsx:179-187 | produces the download name exactly when a canvas exists |
| SketchNode.StrokeScenario | src/SketchNode.tsx:76-135 | a press, two moves, a release and one more move leave a three-point path and drawing stopped |
| InitialElements.NodeIdsDistinct | src/initial-elements.ts:3-270 | the 17 node ids are pairwise distinct |
| InitialElements.EdgesBetweenNodes | src/initial-elements.ts:272-382 | every edge's source and target name a node of the fixture |
| InitialElements.EdgeIdsNameEndpoints | src/initial-elements.ts:272-382 | every edge id is "e", the source, a dash and the target |
| InitialElements.EdgesAreButtonEdges | src/initial-elements.ts:272-382 | every edge has type "button" |
| InitialElements.EdgeIdsDistinct | src/initial-elements.ts:272-382 | the edge ids are pairwise distinct |
| InitialElements.InitialDocumentWellFormed | src/initial-elements.ts:3-382 | the startup canvas is well formed |
| InitialElements.NodeTypesRegistered | src/initial-elements.ts:3-270 | every fixture node has a type the host registers |

## Left out

- Browser and network I/O are not modelled; they are parameters of the model. This covers:
  - file export and import (`exportToFile`, `importFromFile`), the download link and the
    `sketchSaved` event;
  - the clipboard read;
  - the proxy fetch and `response.json()`;
  - `DOMParser` and the CSS selector queries;
  - `new URL` (the WHATWG URL Standard);
  - `JSON.parse`/`JSON.stringify` (RFC 8259).
  The model passes the results in as values or as functions.
- Clocks, `crypto.randomUUID` and `Date.now` are left out: fresh ids and timestamps are
  parameters. The attachment's event id uses a second clock reading, which is not
  modelled.
- CanvasSerializer.SerializedState: one timestamp parameter stamps both `createdAt` and
  `lastModified`. The source reads the clock once for each, so the two stamps it writes
  can differ by the time between the two readings.
- Asynchrony is not modelled: the awaits, timers, the debounce, the ResizeObserver and the
  deferred caret focus in `handleInsert`. Each handler runs as one atomic step.
- Floating point is modelled as exact reals. The circle radius's square root is not
  computed; the arc keeps the centre and the dragged vector. The mouse-position scaling of the
  sketch canvas is not modelled, and points are passed already scaled.
- Canvas pixels are not represented. Snapshots are an opaque type; the sketch keeps its
  path and the context fields.
- Case mapping is ASCII-only, and `localeCompare` is code-point order. Strings are
  sequences of code points, so `value.length` counts code points where JavaScript counts
  UTF-16 units.
- Regular expressions are modelled as direct scans: the leftmost match for the markdown
  patterns, the video ids and the inline markup.
- The fixture data payloads (labels, texts, styles beyond width and height) are not
  reproduced. The ids, types, positions, sizes and edge fields are.
- The graph library (`addEdge`, React Flow's change handlers) and the presentation-only
  components are not part of this model.
- The contracts of classes (methods using `old`, and constructors) are stated in full, but
  they are about state rather than values.
- DrawingUtils.UndoDrawing: requires the cursor to lie between -1 and the number of
  snapshots, which every history the module builds satisfies; the source indexes
  `undefined` outside that range.
- DrawingUtils.RedoDrawing: has the same requirement on the cursor.
- DocumentNode.GetActorDisplay: an actor object with a truthy non-string name and no avatar
  makes the source throw; the model returns `None` there instead.
- SketchNode.SketchSurface.InitializeCanvas: without a context, it models the reset of the
  context's state that resizing a canvas causes (HTML Living Standard, section 4.12.5).
  It does not model the size set on the canvas style. It truncates the size to whole
  pixels but does not model the fallback to the default size for a value above
  2147483647, which a node would have to be over two billion pixels wide to reach.
- DrawingUtils.DrawShape: models that the context ignores a line width that is not
  positive; NaN and infinite widths do not arise with exact reals. It does not model that
  the context ignores a colour string it cannot parse or an opacity outside 0 to 1: the
  colour is stored as given, and the opacity is reset to 1 at the end in every case.
- CanvasSerializer.CleanNode: nodes and edges are closed records of the fields the
  components use. The further React Flow fields that spreading a node or edge keeps on
  save (`measured`, `parentId`, `hidden`, `zIndex`, `sourceHandle` and the like) are not
  represented, so the model does not show them surviving a save and a load.
- CanvasSerializer.Deserialize: the decoded `nodes` and `edges` are either absent or
  sequences of well-typed records. A document whose `nodes` is truthy but not an array,
  or whose entries are malformed, is accepted as it is by the source and later fails in
  the graph library; the model cannot represent such a document.
- SketchNode.Initialized: states line width, colour, fill and compositing; it does not
  state the round line caps and joins, though the body sets them.
- InformationComponents.SortEntries: the source's `Array.prototype.sort` is modelled as an
  insertion sort. `SortedEntriesAreCanonical` shows that any correct sort gives the same
  result when keys are distinct, as they are for an object's keys.
- InformationComponents.RenderValue: only the collapse decisions and the string display
  are modelled. The markup and the recursion into nested items are not.
- The number and boolean displays of the data hierarchy are not modelled; they are markup.
