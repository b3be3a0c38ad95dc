/**
 * The sketch node: a drawing surface with a pen and an eraser. The mouse handlers run a
 * small state machine (drawing or not) over the canvas's 2D context, the canvas is sized
 * from its node with a minimum, and a finished sketch can be saved or downloaded as PNG.
 *
 * The 2D context is held as a record of the drawing settings the component touches, plus
 * the points of the current path; pixels themselves are not represented.
 */
module SketchNode {
  import opened Wrappers
  import opened JsStrings

  const MinWidth: real := 400.0
  const MinHeight: real := 300.0
  /** Horizontal padding and header-plus-padding subtracted from the node's size. */
  const WidthInset: real := 24.0
  const HeightInset: real := 80.0

  datatype Tool = Pen | Eraser

  datatype Point = Point(x: real, y: real)

  /** The 2D context's state as far as the component reads or writes it. */
  datatype Context = Context(
    lineCap: string,
    lineJoin: string,
    lineWidth: real,
    strokeStyle: string,
    compositeOp: string,
    fillStyle: string)

  /** The state a context returns to when its canvas is resized (HTML canvas defaults). */
  const ResetContext := Context("butt", "miter", 1.0, "#000000", "source-over", "#000000")

  function Max(a: real, b: real): (m: real)
    ensures m >= a && m >= b && (m == a || m == b)
  {
    if a >= b then a else b
  }

  /** The canvas size for a node of the given size: the node's inner area, but at least 400×300. */
  function CanvasSize(nodeWidth: real, nodeHeight: real): (r: (real, real))
    ensures r.0 >= MinWidth && r.1 >= MinHeight
    ensures r.0 >= nodeWidth - WidthInset && r.1 >= nodeHeight - HeightInset
    ensures r.0 == MinWidth || r.0 == nodeWidth - WidthInset
    ensures r.1 == MinHeight || r.1 == nodeHeight - HeightInset
  {
    (Max(MinWidth, nodeWidth - WidthInset), Max(MinHeight, nodeHeight - HeightInset))
  }

  /**
   * A size assigned to `canvas.width` or `canvas.height`: the attribute is an
   * unsigned integer, so the fraction is dropped.
   */
  function CanvasPixels(x: real): (n: nat)
    requires x >= 0.0
    ensures n as real <= x < n as real + 1.0
  {
    x.Floor
  }

  /** Above the floor the canvas follows the node exactly. */
  lemma CanvasFollowsLargeNode(nodeWidth: real, nodeHeight: real)
    requires nodeWidth >= MinWidth + WidthInset && nodeHeight >= MinHeight + HeightInset
    ensures CanvasSize(nodeWidth, nodeHeight) == (nodeWidth - WidthInset, nodeHeight - HeightInset)
  {
  }

  /** The settings `initializeCanvas` gives a freshly reset context. */
  function Initialized(): (c: Context)
    ensures c.lineWidth == 2.0 && c.strokeStyle == "#000000" && c.fillStyle == "white"
    ensures c.compositeOp == ResetContext.compositeOp
  {
    ResetContext.(lineCap := "round", lineJoin := "round", lineWidth := 2.0,
                  strokeStyle := "#000000", fillStyle := "white")
  }

  /** The settings a stroke starts with for the chosen tool. */
  function WithTool(c: Context, tool: Tool): (r: Context)
    ensures tool == Pen ==>
      r.compositeOp == "source-over" && r.strokeStyle == "#000000" && r.lineWidth == 2.0
    ensures tool == Eraser ==>
      r.compositeOp == "destination-out" && r.strokeStyle == c.strokeStyle && r.lineWidth == 10.0
    ensures r.lineCap == c.lineCap && r.lineJoin == c.lineJoin && r.fillStyle == c.fillStyle
  {
    match tool
    case Pen => c.(compositeOp := "source-over", strokeStyle := "#000000", lineWidth := 2.0)
    case Eraser => c.(compositeOp := "destination-out", lineWidth := 10.0)
  }

  /** The pen's settings do not depend on what was drawn with before. */
  lemma PenResetsEraser(c: Context)
    ensures WithTool(WithTool(c, Eraser), Pen) == WithTool(c, Pen)
  {
  }

  /** Choosing the same tool again changes nothing. */
  lemma WithToolIdempotent(c: Context, tool: Tool)
    ensures WithTool(WithTool(c, tool), tool) == WithTool(c, tool)
  {
  }

  /** A saved sketch, as handed to the host. */
  datatype SketchAttachment = SketchAttachment(
    id: string, name: string, attachmentType: string, data: string, thumbnail: string,
    createdAt: string)

  /** The attachment's file name: the title, or "Sketch" when it is empty, as PNG. */
  function AttachmentName(title: string): (r: string)
    ensures EndsWith(r, ".png")
    ensures title != "" ==> r == title + ".png"
    ensures title == "" ==> r == "Sketch.png"
  {
    OrElse(Some(title), "Sketch") + ".png"
  }

  /** The downloaded file's name: the title, or "sketch" when it is empty, as PNG. */
  function DownloadName(title: string): (r: string)
    ensures EndsWith(r, ".png")
    ensures title != "" ==> r == title + ".png"
    ensures title == "" ==> r == "sketch.png"
  {
    OrElse(Some(title), "sketch") + ".png"
  }

  /** The two names agree except for the capital of the default. */
  lemma NamesAgreeForTitled(title: string)
    requires title != ""
    ensures AttachmentName(title) == DownloadName(title)
  {
  }

  /**
   * The attachment `saveSketch` builds from the canvas's PNG data; the clock readings are
   * parameters.
   */
  function Attachment(title: string, imageData: string, now: string, isoTime: string): (a: SketchAttachment)
    ensures a.data == imageData && a.thumbnail == a.data
    ensures a.attachmentType == "image/png" && a.name == AttachmentName(title)
    ensures a.id == "sketch-" + now && a.createdAt == isoTime
  {
    SketchAttachment("sketch-" + now, AttachmentName(title), "image/png", imageData, imageData, isoTime)
  }

  /** The sketch component: its title, tool, drawing flag, canvas and context. */
  class SketchSurface {
    var title: string
    var currentTool: Tool
    var isDrawing: bool
    /** Whether the canvas element is attached (the canvas reference is set). */
    var canvasPresent: bool
    var width: nat
    var height: nat
    /** The context reference, set once the canvas has been initialised. */
    var ctx: Option<Context>
    /** The points of the current path: its start, then every point drawn to. */
    var path: seq<Point>

    /** Drawing needs a context, and a context only exists on a sized canvas. */
    predicate Valid()
      reads this
    {
      (isDrawing ==> ctx.Some?)
      && (ctx.Some? ==> canvasPresent && width as real >= MinWidth && height as real >= MinHeight)
    }

    /** The first render: the data's title, the pen, not drawing, no canvas yet. */
    constructor(dataTitle: string)
      ensures Valid()
      ensures title == dataTitle && currentTool == Pen && !isDrawing
      ensures !canvasPresent && ctx.None? && path == []
    {
      title := dataTitle;
      currentTool := Pen;
      isDrawing := false;
      canvasPresent := false;
      width := 300;
      height := 150;
      ctx := None;
      path := [];
    }

    /** The canvas element is attached to the page. */
    method Mount()
      requires Valid()
      modifies this
      ensures Valid() && canvasPresent
      ensures title == old(title) && currentTool == old(currentTool) && isDrawing == old(isDrawing)
      ensures width == old(width) && height == old(height) && ctx == old(ctx) && path == old(path)
    {
      canvasPresent := true;
    }

    /**
     * `initializeCanvas` for a node of the given size. Without a canvas nothing happens.
     * Otherwise the canvas is resized (which resets its context and clears its path) and,
     * when a context is available, it gets the round pen settings and a white fill.
     */
    method InitializeCanvas(nodeWidth: real, nodeHeight: real, contextAvailable: bool)
      requires Valid()
      modifies this
      ensures Valid()
      ensures !old(canvasPresent) ==>
        width == old(width) && height == old(height) && ctx == old(ctx) && path == old(path)
      ensures old(canvasPresent) ==>
        var size := CanvasSize(nodeWidth, nodeHeight);
        width == CanvasPixels(size.0) && height == CanvasPixels(size.1) && path == []
      ensures old(canvasPresent) && contextAvailable ==> ctx == Some(Initialized())
      ensures old(canvasPresent) && !contextAvailable ==>
        ctx == (if old(ctx).Some? then Some(ResetContext) else None)
      ensures title == old(title) && currentTool == old(currentTool) && isDrawing == old(isDrawing)
      ensures canvasPresent == old(canvasPresent)
    {
      if !canvasPresent {
        return;
      }
      var size := CanvasSize(nodeWidth, nodeHeight);
      width := CanvasPixels(size.0);
      height := CanvasPixels(size.1);
      path := [];
      if ctx.Some? {
        ctx := Some(ResetContext);
      }
      if contextAvailable {
        ctx := Some(Initialized());
      }
    }

    /** Choosing a tool; it applies from the next stroke on. */
    method SelectTool(tool: Tool)
      requires Valid()
      modifies this
      ensures Valid() && currentTool == tool
      ensures title == old(title) && isDrawing == old(isDrawing) && canvasPresent == old(canvasPresent)
      ensures width == old(width) && height == old(height) && ctx == old(ctx) && path == old(path)
    {
      currentTool := tool;
    }

    method SetTitle(text: string)
      requires Valid()
      modifies this
      ensures Valid() && title == text
      ensures currentTool == old(currentTool) && isDrawing == old(isDrawing)
      ensures canvasPresent == old(canvasPresent)
      ensures width == old(width) && height == old(height) && ctx == old(ctx) && path == old(path)
    {
      title := text;
    }

    /**
     * `startDrawing` at canvas point `at`: without canvas or context nothing happens;
     * otherwise drawing starts, a new path begins at `at` and the tool's settings apply.
     */
    method StartDrawing(at: Point)
      requires Valid()
      modifies this
      ensures Valid()
      ensures !old(canvasPresent) || old(ctx).None? ==>
        isDrawing == old(isDrawing) && ctx == old(ctx) && path == old(path)
      ensures old(canvasPresent) && old(ctx).Some? ==>
        isDrawing && path == [at] && ctx == Some(WithTool(old(ctx).value, currentTool))
      ensures title == old(title) && currentTool == old(currentTool)
      ensures canvasPresent == old(canvasPresent) && width == old(width) && height == old(height)
    {
      if !canvasPresent || ctx.None? {
        return;
      }
      isDrawing := true;
      path := [at];
      ctx := Some(WithTool(ctx.value, currentTool));
    }

    /** `draw` to canvas point `to`: only while drawing, and then it extends the path. */
    method Draw(to: Point)
      requires Valid()
      modifies this
      ensures Valid()
      ensures !old(isDrawing) || !old(canvasPresent) || old(ctx).None? ==> path == old(path)
      ensures old(isDrawing) && old(canvasPresent) && old(ctx).Some? ==> path == old(path) + [to]
      ensures isDrawing == old(isDrawing) && ctx == old(ctx)
      ensures title == old(title) && currentTool == old(currentTool)
      ensures canvasPresent == old(canvasPresent) && width == old(width) && height == old(height)
    {
      if !isDrawing {
        return;
      }
      if !canvasPresent || ctx.None? {
        return;
      }
      path := path + [to];
    }

    /** `stopDrawing`, on mouse up or when the mouse leaves the canvas. */
    method StopDrawing()
      requires Valid()
      modifies this
      ensures Valid() && !isDrawing
      ensures title == old(title) && currentTool == old(currentTool) && ctx == old(ctx)
      ensures path == old(path) && canvasPresent == old(canvasPresent)
      ensures width == old(width) && height == old(height)
    {
      isDrawing := false;
    }

    /** `clearCanvas`: paints the canvas white; without canvas or context nothing happens. */
    method ClearCanvas()
      requires Valid()
      modifies this
      ensures Valid()
      ensures !old(canvasPresent) || old(ctx).None? ==> ctx == old(ctx)
      ensures old(canvasPresent) && old(ctx).Some? ==> ctx == Some(old(ctx).value.(fillStyle := "white"))
      ensures isDrawing == old(isDrawing) && path == old(path)
      ensures title == old(title) && currentTool == old(currentTool)
      ensures canvasPresent == old(canvasPresent) && width == old(width) && height == old(height)
    {
      if !canvasPresent || ctx.None? {
        return;
      }
      ctx := Some(ctx.value.(fillStyle := "white"));
    }

    /** `saveSketch`: the attachment for the current title, or nothing without a canvas. */
    method SaveSketch(imageData: string, now: string, isoTime: string) returns (a: Option<SketchAttachment>)
      requires Valid()
      ensures a.Some? <==> canvasPresent
      ensures a.Some? ==> a.value == Attachment(title, imageData, now, isoTime)
    {
      if !canvasPresent {
        return None;
      }
      return Some(Attachment(title, imageData, now, isoTime));
    }

    /** `downloadSketch`: the file name offered, or nothing without a canvas. */
    method DownloadSketch() returns (name: Option<string>)
      requires Valid()
      ensures name.Some? <==> canvasPresent
      ensures name.Some? ==> name.value == DownloadName(title)
    {
      if !canvasPresent {
        return None;
      }
      return Some(DownloadName(title));
    }
  }

  /**
   * A complete stroke: start, two moves, stop. The path holds exactly the three points
   * and no further move is recorded after the stop.
   */
  method StrokeScenario(s: SketchSurface, a: Point, b: Point, c: Point, d: Point)
    requires s.Valid() && s.canvasPresent && s.ctx.Some?
    modifies s
    ensures s.Valid() && !s.isDrawing && s.path == [a, b, c]
  {
    s.StartDrawing(a);
    s.Draw(b);
    s.Draw(c);
    s.StopDrawing();
    s.Draw(d);
  }
}
