/**
 * The sketch tool's linear undo/redo history of raster snapshots, bounded by
 * `maxStates`, and the shape-drawing routine. Snapshots are values of the type
 * parameter `S`; the canvas keeps the snapshot it currently shows.
 */
module DrawingUtils {
  import opened Wrappers
  import JsStrings

  /** The history record: snapshots oldest first, the cursor, and the capacity. */
  datatype History<S> = History(states: seq<S>, currentIndex: int, maxStates: int)

  /** The capacity when the caller gives none. */
  const DefaultMaxStates: int := 50

  /**
   * The invariant every history built by the operations below keeps: within capacity,
   * the cursor on a snapshot, and at -1 exactly when there is none.
   */
  predicate Valid<S>(h: History<S>) {
    && 1 <= h.maxStates
    && |h.states| <= h.maxStates
    && -1 <= h.currentIndex < |h.states|
    && (h.currentIndex == -1 <==> h.states == [])
  }

  /** `createHistoryManager(maxStates = 50)`: an empty history. */
  function CreateHistoryManager<S>(maxStates: Option<int>): (h: History<S>)
    ensures h.states == [] && h.currentIndex == -1
    ensures maxStates.None? ==> h.maxStates == DefaultMaxStates
    ensures maxStates.Some? ==> h.maxStates == maxStates.value
    ensures h.maxStates >= 1 ==> Valid(h)
  {
    History([], -1, maxStates.GetOr(DefaultMaxStates))
  }

  /** The history after recording `snap`: the snapshots past the cursor are dropped. */
  function Saved<S>(h: History<S>, snap: S): (r: History<S>)
    ensures r.maxStates == h.maxStates && r.currentIndex == |r.states| - 1
    ensures h.maxStates >= 1 ==> |r.states| >= 1 && r.states[|r.states| - 1] == snap
  {
    var kept := JsStrings.Slice(h.states, 0, h.currentIndex + 1) + [snap];
    var states := if |kept| > h.maxStates then kept[1..] else kept;
    assert |kept| >= 2 ==> kept[1..][|kept| - 2] == snap;
    h.(states := states, currentIndex := |states| - 1)
  }

  /** The history after `undoDrawing`: one step back when there is a step to go back to. */
  function Undo<S>(h: History<S>): (r: History<S>)
    ensures r.states == h.states && r.maxStates == h.maxStates
    ensures h.currentIndex > 0 ==> r.currentIndex == h.currentIndex - 1
    ensures h.currentIndex <= 0 ==> r == h
  {
    if h.currentIndex > 0 then h.(currentIndex := h.currentIndex - 1) else h
  }

  /** The history after `redoDrawing`: one step forward when there is a later snapshot. */
  function Redo<S>(h: History<S>): (r: History<S>)
    ensures r.states == h.states && r.maxStates == h.maxStates
    ensures h.currentIndex < |h.states| - 1 ==> r.currentIndex == h.currentIndex + 1
    ensures h.currentIndex >= |h.states| - 1 ==> r == h
  {
    if h.currentIndex < |h.states| - 1 then h.(currentIndex := h.currentIndex + 1) else h
  }

  /**
   * The drawing surface: whether `getContext('2d')` yields a context, and the
   * snapshot it shows (`getImageData` reads it, `putImageData` replaces it).
   */
  class Canvas<S> {
    var hasContext: bool
    var image: S

    constructor (hasContext: bool, image: S)
      ensures this.hasContext == hasContext && this.image == image
    {
      this.hasContext := hasContext;
      this.image := image;
    }
  }

  /**
   * `saveDrawingState`: copy the snapshots up to the cursor, push the canvas image,
   * drop the oldest when over capacity, and put the cursor on the last snapshot.
   * Without a 2D context the history is returned as it was.
   */
  method SaveDrawingState<S>(canvas: Canvas<S>, h: History<S>) returns (r: History<S>)
    ensures !canvas.hasContext ==> r == h
    ensures canvas.hasContext ==> r == Saved(h, canvas.image)
  {
    if !canvas.hasContext {
      return h;
    }
    var imageData := canvas.image;
    var newStates := JsStrings.Slice(h.states, 0, h.currentIndex + 1);
    newStates := newStates + [imageData];
    if |newStates| > h.maxStates {
      newStates := newStates[1..];
    }
    r := h.(states := newStates, currentIndex := |newStates| - 1);
  }

  /**
   * `undoDrawing`: step back and, when the canvas has a context, repaint it with the
   * snapshot now under the cursor.
   */
  method UndoDrawing<S>(canvas: Canvas<S>, h: History<S>) returns (r: History<S>)
    requires -1 <= h.currentIndex <= |h.states|
    modifies canvas
    ensures r == Undo(h)
    ensures canvas.hasContext == old(canvas.hasContext)
    ensures canvas.image ==
      if h.currentIndex > 0 && canvas.hasContext then h.states[h.currentIndex - 1] else old(canvas.image)
  {
    if h.currentIndex > 0 {
      var newIndex := h.currentIndex - 1;
      if canvas.hasContext {
        canvas.image := h.states[newIndex];
      }
      return h.(currentIndex := newIndex);
    }
    return h;
  }

  /**
   * `redoDrawing`: step forward and, when the canvas has a context, repaint it with
   * the snapshot now under the cursor.
   */
  method RedoDrawing<S>(canvas: Canvas<S>, h: History<S>) returns (r: History<S>)
    requires -1 <= h.currentIndex <= |h.states|
    modifies canvas
    ensures r == Redo(h)
    ensures canvas.hasContext == old(canvas.hasContext)
    ensures canvas.image ==
      if h.currentIndex < |h.states| - 1 && canvas.hasContext then h.states[h.currentIndex + 1]
      else old(canvas.image)
  {
    if h.currentIndex < |h.states| - 1 {
      var newIndex := h.currentIndex + 1;
      if canvas.hasContext {
        canvas.image := h.states[newIndex];
      }
      return h.(currentIndex := newIndex);
    }
    return h;
  }

  /** After a save the new snapshot is the last one and the cursor is on it. */
  lemma SaveAppendsAtCursor<S>(h: History<S>, snap: S)
    requires Valid(h)
    ensures var r := Saved(h, snap);
      && |r.states| >= 1
      && r.states[|r.states| - 1] == snap
      && r.currentIndex == |r.states| - 1
      && r.maxStates == h.maxStates
  {
  }

  /**
   * A save keeps the snapshots up to the cursor, in order, and discards the later ones;
   * when that would exceed the capacity the oldest kept snapshot is the one dropped.
   */
  lemma SaveTruncatesAndEvicts<S>(h: History<S>, snap: S)
    requires Valid(h)
    ensures var kept := h.states[..h.currentIndex + 1];
      && (|kept| < h.maxStates ==> Saved(h, snap).states == kept + [snap])
      && (|kept| == h.maxStates ==> Saved(h, snap).states == kept[1..] + [snap])
  {
    var kept := h.states[..h.currentIndex + 1];
    assert JsStrings.Slice(h.states, 0, h.currentIndex + 1) == kept;
    if |kept| == h.maxStates {
      assert (kept + [snap])[1..] == kept[1..] + [snap];
    }
  }

  /** Saving preserves the history invariant, in particular the capacity bound. */
  lemma SaveKeepsValid<S>(h: History<S>, snap: S)
    requires Valid(h)
    ensures Valid(Saved(h, snap))
  {
    assert JsStrings.Slice(h.states, 0, h.currentIndex + 1) == h.states[..h.currentIndex + 1];
  }

  /** Undo and redo preserve the history invariant. */
  lemma UndoRedoKeepValid<S>(h: History<S>)
    requires Valid(h)
    ensures Valid(Undo(h)) && Valid(Redo(h))
  {
  }

  /** Right after any save there is nothing to redo. */
  lemma RedoAfterSaveIsNoOp<S>(h: History<S>, snap: S)
    ensures Redo(Saved(h, snap)) == Saved(h, snap)
  {
  }

  /** Undo followed by redo returns to the same history, and so does redo then undo. */
  lemma UndoRedoInverse<S>(h: History<S>)
    requires Valid(h)
    ensures h.currentIndex > 0 ==> Redo(Undo(h)) == h
    ensures h.currentIndex < |h.states| - 1 && h.currentIndex >= 0 ==> Undo(Redo(h)) == h
  {
  }

  /**
   * A save after an undo makes the undone snapshot unreachable: the history ends at
   * the new snapshot and redo does nothing.
   */
  lemma SaveAfterUndoDropsRedo<S>(h: History<S>, snap: S)
    requires Valid(h) && 0 < h.currentIndex == |h.states| - 1
    ensures var r := Saved(Undo(h), snap);
      && |r.states| == |h.states|
      && r.states == h.states[..|h.states| - 1] + [snap]
      && Redo(r) == r
  {
    SaveTruncatesAndEvicts(Undo(h), snap);
  }

  /**
   * Four saves into a fresh history of capacity 3 leave the last three snapshots,
   * oldest first, with the cursor on the newest.
   */
  lemma FourSavesIntoThree<S>(a: S, b: S, c: S, d: S)
    ensures var h := Saved(Saved(Saved(Saved(CreateHistoryManager<S>(Some(3)), a), b), c), d);
      h.states == [b, c, d] && h.currentIndex == 2 && h.maxStates == 3
  {
    var h0 := CreateHistoryManager<S>(Some(3));
    var h1 := Saved(h0, a);
    assert h1.states == [a];
    var h2 := Saved(h1, b);
    assert JsStrings.Slice(h1.states, 0, 1) == [a];
    assert h2.states == [a, b];
    var h3 := Saved(h2, c);
    assert JsStrings.Slice(h2.states, 0, 2) == [a, b];
    assert h3.states == [a, b, c];
    var h4 := Saved(h3, d);
    assert JsStrings.Slice(h3.states, 0, 3) == [a, b, c];
    assert [a, b, c, d][1..] == [b, c, d];
  }

  // Shape drawing

  datatype Tool = Pen | Brush | Eraser | Line | Rectangle | Circle | TextStamp

  /** The current style of the drawing tools. */
  datatype DrawingState = DrawingState(
    tool: Tool, color: string, size: real, opacity: real, fill: bool, fontSize: real)

  /** A font setting `<px>px <family>`. */
  datatype Font = Font(px: real, family: string)

  /**
   * A drawing call on the 2D context. An arc stands for its centre and the vector
   * from the centre to a point on the circle.
   */
  datatype CanvasCall =
    | BeginPath
    | MoveTo(x: real, y: real)
    | LineTo(x: real, y: real)
    | Stroke
    | Fill
    | FillRect(rx: real, ry: real, w: real, h: real)
    | StrokeRect(rx: real, ry: real, w: real, h: real)
    | Arc(cx: real, cy: real, dx: real, dy: real)
    | FillText(text: string, tx: real, ty: real)

  /** The placeholder text the text tool stamps. */
  const PlaceholderText: string := "Click to edit text"

  /** The calls `drawShape` makes for one tool and one drag from start to end. */
  function ShapeCalls(tool: Tool, startX: real, startY: real, endX: real, endY: real,
                      fill: bool): seq<CanvasCall>
  {
    match tool
    case Line => [BeginPath, MoveTo(startX, startY), LineTo(endX, endY), Stroke]
    case Rectangle =>
      var width := endX - startX;
      var height := endY - startY;
      if fill then [FillRect(startX, startY, width, height)]
      else [StrokeRect(startX, startY, width, height)]
    case Circle =>
      [BeginPath, Arc(startX, startY, endX - startX, endY - startY), if fill then Fill else Stroke]
    case TextStamp => [FillText(PlaceholderText, startX, startY)]
    case _ => []
  }

  /** A 2D rendering context: the style fields `drawShape` sets and the calls made on it. */
  class Context2D {
    var globalAlpha: real
    var strokeStyle: string
    var fillStyle: string
    var lineWidth: real
    var font: Font
    var calls: seq<CanvasCall>

    constructor ()
      ensures globalAlpha == 1.0 && calls == []
    {
      globalAlpha := 1.0;
      strokeStyle := "#000000";
      fillStyle := "#000000";
      lineWidth := 1.0;
      font := Font(10.0, "sans-serif");
      calls := [];
    }
  }

  /**
   * `drawShape`: set opacity, colours and width from the style, make the tool's
   * calls, then reset the opacity to 1. The context ignores a line width that is
   * not positive (the line styles of section 4.12.5 of the HTML Living Standard).
   */
  method DrawShape(ctx: Context2D, tool: Tool, startX: real, startY: real,
                   endX: real, endY: real, state: DrawingState)
    modifies ctx
    ensures ctx.globalAlpha == 1.0
    ensures ctx.strokeStyle == state.color && ctx.fillStyle == state.color
    ensures state.size > 0.0 ==> ctx.lineWidth == state.size
    ensures state.size <= 0.0 ==> ctx.lineWidth == old(ctx.lineWidth)
    ensures ctx.font == if tool == TextStamp then Font(state.fontSize, "Arial") else old(ctx.font)
    ensures ctx.calls == old(ctx.calls) + ShapeCalls(tool, startX, startY, endX, endY, state.fill)
  {
    ctx.globalAlpha := state.opacity;
    ctx.strokeStyle := state.color;
    ctx.fillStyle := state.color;
    if state.size > 0.0 {
      ctx.lineWidth := state.size;
    }
    match tool {
      case Line =>
        ctx.calls := ctx.calls + [BeginPath];
        ctx.calls := ctx.calls + [MoveTo(startX, startY)];
        ctx.calls := ctx.calls + [LineTo(endX, endY)];
        ctx.calls := ctx.calls + [Stroke];
      case Rectangle =>
        var width := endX - startX;
        var height := endY - startY;
        if state.fill {
          ctx.calls := ctx.calls + [FillRect(startX, startY, width, height)];
        } else {
          ctx.calls := ctx.calls + [StrokeRect(startX, startY, width, height)];
        }
      case Circle =>
        ctx.calls := ctx.calls + [BeginPath];
        ctx.calls := ctx.calls + [Arc(startX, startY, endX - startX, endY - startY)];
        if state.fill {
          ctx.calls := ctx.calls + [Fill];
        } else {
          ctx.calls := ctx.calls + [Stroke];
        }
      case TextStamp =>
        ctx.font := Font(state.fontSize, "Arial");
        ctx.calls := ctx.calls + [FillText(PlaceholderText, startX, startY)];
      case _ =>
    }
    ctx.globalAlpha := 1.0;
  }

  /**
   * The rectangle spans from the start point to the end point: its corner is the
   * start and its sides are the signed differences, negative when the drag goes
   * left or up; `fill` chooses a filled rectangle over an outline.
   */
  lemma RectangleSpansDrag(startX: real, startY: real, endX: real, endY: real, fill: bool)
    ensures var calls := ShapeCalls(Rectangle, startX, startY, endX, endY, fill);
      && |calls| == 1
      && (fill <==> calls[0].FillRect?)
      && (!fill <==> calls[0].StrokeRect?)
      && calls[0].rx == startX && calls[0].ry == startY
      && calls[0].rx + calls[0].w == endX && calls[0].ry + calls[0].h == endY
      && (endX < startX ==> calls[0].w < 0.0)
  {
  }
}
