/**
 * The image editor's input state machine, snapshot manager, text overlay and
 * filter application, as functions from the component's state to its next
 * state. The class `ImageEditorComponent` performs these steps in place;
 * each of its methods is specified by the function of the same name here.
 */
module EditorMachine {
  import opened Wrappers
  import opened Geometry
  import opened EditorStyle
  import opened Canvas
  import JsString
  import ColorFilter

  /**
   * Everything the component holds: whether the 2D context exists (`ready`),
   * the canvas pixels, the tool state, and the gesture, snapshot, text and
   * filter fields.
   */
  datatype EditorModel = EditorModel(
    ready: bool,
    buf: seq<int>,
    state: EditorState,
    isDrawing: bool,
    lastX: real,
    lastY: real,
    startX: real,
    startY: real,
    isShapeDrawing: bool,
    savedImageData: Option<seq<int>>,
    textInputActive: bool,
    textInputX: real,
    textInputY: real,
    textInputValue: string,
    filterBrightness: int,
    filterContrast: int,
    filterSaturation: int)
  {
    function Last(): Point { Point(lastX, lastY) }
    function Start(): Point { Point(startX, startY) }
    function Params(): ColorFilter.FilterParams {
      ColorFilter.FilterParams(filterBrightness, filterContrast, filterSaturation)
    }
  }

  /**
   * The invariant the handlers keep: the buffer holds whole RGBA pixels of
   * bytes; a snapshot exists exactly while a shape is being previewed, and
   * has the buffer's size and bytes only; without a context no gesture and no
   * text entry is open.
   */
  predicate Inv(m: EditorModel) {
    |m.buf| % 4 == 0 && AllBytes(m.buf)
    && (m.savedImageData.Some? ==> |m.savedImageData.value| == |m.buf| && AllBytes(m.savedImageData.value))
    && (m.isShapeDrawing <==> m.savedImageData.Some?)
    && (!m.ready ==> !m.isDrawing && !m.isShapeDrawing && !m.textInputActive)
  }

  /** After construction: initial tool state, idle gesture, filters at 100; white when the context exists. */
  function Initial(ready: bool, n: nat): (m: EditorModel)
    requires n % 4 == 0
    ensures Inv(m)
    ensures m.ready == ready && m.state == InitialState() && |m.buf| == n
    ensures !m.isDrawing && !m.isShapeDrawing && m.savedImageData.None? && !m.textInputActive
    ensures m.filterBrightness == 100 && m.filterContrast == 100 && m.filterSaturation == 100
    ensures ready ==> m.buf == WhiteBuffer(n)
  {
    EditorModel(ready, if ready then WhiteBuffer(n) else seq(n, k => 0), InitialState(),
      false, 0.0, 0.0, 0.0, 0.0, false, None, false, 0.0, 0.0, "", 100, 100, 100)
  }

  // ---- Snapshot manager ----

  /** `saveCanvasState`: the stored copy becomes the whole current buffer. */
  function SaveCanvasState(m: EditorModel): (r: EditorModel)
    ensures m.ready ==> r == m.(savedImageData := Some(m.buf))
    ensures !m.ready ==> r == m
  {
    if !m.ready then m else m.(savedImageData := Some(m.buf))
  }

  /** `restoreCanvasState`: the buffer becomes exactly the stored copy; nothing happens without one. */
  function RestoreCanvasState(m: EditorModel): (r: EditorModel)
    ensures m.ready && m.savedImageData.Some? ==> r == m.(buf := m.savedImageData.value)
    ensures !m.ready || m.savedImageData.None? ==> r == m
  {
    if !m.ready || m.savedImageData.None? then m else m.(buf := m.savedImageData.value)
  }

  /** Capture, then any change to the buffer, then restore: the captured buffer is back. */
  lemma SnapshotRoundTrip(m: EditorModel, changed: seq<int>)
    requires m.ready
    ensures RestoreCanvasState(SaveCanvasState(m).(buf := changed)).buf == m.buf
  {
  }

  // ---- Shapes: preview, then commit ----

  /**
   * `drawShapePreview`: restore the snapshot, then paint the shape for the drag
   * from the start point to `(x, y)`. The frame depends only on the snapshot
   * and the drag, never on the buffer before it, so previews do not accumulate.
   */
  function DrawShapePreview(m: EditorModel, paint: Rasterizer, x: real, y: real): (r: EditorModel)
    ensures !m.ready || m.savedImageData.None? ==> r == m
    ensures m.ready && m.savedImageData.Some? ==>
      r == m.(buf := PaintAll(paint, m.savedImageData.value, ShapeCommands(m.state, m.Start(), Point(x, y))))
  {
    if !m.ready || m.savedImageData.None? then m
    else
      var restored := RestoreCanvasState(m);
      restored.(buf := PaintAll(paint, restored.buf, ShapeCommands(m.state, m.Start(), Point(x, y))))
  }

  /**
   * `finishShapeDrawing`: restore the snapshot, paint the shape for the drag
   * from the start point to the last point, and drop the snapshot.
   */
  function FinishShapeDrawing(m: EditorModel, paint: Rasterizer): (r: EditorModel)
    ensures !m.ready || m.savedImageData.None? ==> r == m
    ensures m.ready && m.savedImageData.Some? ==>
      r == m.(buf := PaintAll(paint, m.savedImageData.value, ShapeCommands(m.state, m.Start(), m.Last())),
              savedImageData := None)
  {
    if !m.ready || m.savedImageData.None? then m
    else
      var restored := RestoreCanvasState(m);
      restored.(buf := PaintAll(paint, restored.buf, ShapeCommands(m.state, m.Start(), m.Last())),
                savedImageData := None)
  }

  // ---- Text overlay ----

  /**
   * `startTextInput`: open the overlay at the clicked canvas point moved into
   * wrapper coordinates by the canvas's offset in its wrapper; nothing happens
   * without a context or without a wrapper element (`wrapper == None`).
   */
  function StartTextInput(m: EditorModel, x: real, y: real, wrapper: Option<Offset>): (r: EditorModel)
    ensures !m.ready || wrapper.None? ==> r == m
    ensures m.ready && wrapper.Some? ==>
      r.textInputActive && r.textInputValue == ""
      && ToCanvas(Point(r.textInputX, r.textInputY), wrapper.value) == Point(x, y)
      && r == m.(textInputActive := true, textInputValue := "", textInputX := r.textInputX, textInputY := r.textInputY)
  {
    if !m.ready || wrapper.None? then m
    else
      var q := ToWrapper(Point(x, y), wrapper.value);
      m.(textInputX := q.x, textInputY := q.y, textInputActive := true, textInputValue := "")
  }

  /** The baseline of committed text: the top of the text plus its measured ascent, or the font size when that is 0. */
  function Baseline(s: EditorState, top: real, ascent: real): (y: real)
    ensures ascent != 0.0 ==> y == top + ascent
    ensures ascent == 0.0 ==> y == top + TextFontSize(s) as real
  {
    top + (if ascent != 0.0 then ascent else TextFontSize(s) as real)
  }

  /** The command that paints committed text at canvas point `p` (the top-left of the overlay). */
  function TextCommand(s: EditorState, text: string, p: Point, ascent: real): DrawCmd {
    FillText(text, Point(p.x, Baseline(s, p.y, ascent)), RasterTextColor(s), RasterFont(s),
             EffectiveWeight(s), EffectiveSlant(s))
  }

  /**
   * `finishTextInput`: when the trimmed input is non-empty, paint it at the
   * overlay position moved back into canvas coordinates; then close the
   * overlay. `input == None` is an input element that does not exist and
   * `wrapper == None` a missing wrapper; both return before closing.
   */
  function FinishTextInput(m: EditorModel, paint: Rasterizer, input: Option<string>,
                           wrapper: Option<Offset>, ascent: real): (r: EditorModel)
    ensures !m.ready || input.None? ==> r == m
    ensures m.ready && input.Some? && JsString.Trim(input.value) == "" ==>
      r == m.(textInputActive := false, textInputValue := "")
    ensures m.ready && input.Some? && JsString.Trim(input.value) != "" && wrapper.None? ==> r == m
    ensures m.ready && input.Some? && JsString.Trim(input.value) != "" && wrapper.Some? ==>
      r == m.(buf := paint(m.buf, TextCommand(m.state, JsString.Trim(input.value),
                                              ToCanvas(Point(m.textInputX, m.textInputY), wrapper.value), ascent)),
              textInputActive := false, textInputValue := "")
  {
    if !m.ready || input.None? then m
    else
      var text := JsString.Trim(input.value);
      if text != "" then
        if wrapper.None? then m
        else
          var p := ToCanvas(Point(m.textInputX, m.textInputY), wrapper.value);
          m.(buf := paint(m.buf, TextCommand(m.state, text, p, ascent)),
             textInputActive := false, textInputValue := "")
      else m.(textInputActive := false, textInputValue := "")
  }

  /** `cancelTextInput`: close the overlay, painting nothing. */
  function CancelTextInput(m: EditorModel): (r: EditorModel)
    ensures !r.textInputActive && r.textInputValue == "" && r.buf == m.buf
    ensures r.(textInputActive := m.textInputActive, textInputValue := m.textInputValue) == m
  {
    m.(textInputActive := false, textInputValue := "")
  }

  // ---- Input state machine ----

  /**
   * `startDrawing` / `handleTouchStart` at canvas point `(x, y)`: the text
   * tool opens the overlay; a shape tool captures a snapshot and starts a
   * preview at the point; every other tool starts a stroke there.
   */
  function StartDrawing(m: EditorModel, x: real, y: real, wrapper: Option<Offset>): (r: EditorModel)
    ensures !m.ready ==> r == m
    ensures m.ready && m.state.activeTool == "text" ==> r == StartTextInput(m, x, y, wrapper)
    ensures m.ready && IsShapeTool(m.state.activeTool) ==>
      r == m.(savedImageData := Some(m.buf), isShapeDrawing := true,
              startX := x, startY := y, lastX := x, lastY := y)
    ensures m.ready && m.state.activeTool != "text" && !IsShapeTool(m.state.activeTool) ==>
      r == m.(isDrawing := true, lastX := x, lastY := y)
    ensures Inv(m) ==> Inv(r)
  {
    if !m.ready then m
    else if m.state.activeTool == "text" then StartTextInput(m, x, y, wrapper)
    else if IsShapeTool(m.state.activeTool) then
      SaveCanvasState(m).(isShapeDrawing := true, startX := x, startY := y, lastX := x, lastY := y)
    else m.(isDrawing := true, lastX := x, lastY := y)
  }

  /** `drawOnCanvas`: paint one stroke segment in the current brush (or eraser) style. */
  function DrawOnCanvas(m: EditorModel, paint: Rasterizer, from: Point, to: Point): (r: EditorModel)
    ensures !m.ready ==> r == m
    ensures m.ready ==> r == m.(buf := paint(m.buf, SegmentCommand(m.state, from, to)))
  {
    if !m.ready then m else m.(buf := paint(m.buf, SegmentCommand(m.state, from, to)))
  }

  /**
   * `draw` / `handleTouchMove` at canvas point `(x, y)`: while previewing a
   * shape with a shape tool, the point becomes the last point and the preview
   * is redrawn; while stroking, a segment from the last point is painted and
   * the point becomes the last point; otherwise nothing happens.
   */
  function Draw(m: EditorModel, paint: Rasterizer, x: real, y: real): (r: EditorModel)
    ensures !m.ready ==> r == m
    ensures m.ready && m.isShapeDrawing && IsShapeTool(m.state.activeTool) ==>
      r == DrawShapePreview(m.(lastX := x, lastY := y), paint, x, y)
    ensures m.ready && !(m.isShapeDrawing && IsShapeTool(m.state.activeTool)) && m.isDrawing ==>
      r == m.(buf := paint(m.buf, SegmentCommand(m.state, m.Last(), Point(x, y))), lastX := x, lastY := y)
    ensures m.ready && !(m.isShapeDrawing && IsShapeTool(m.state.activeTool)) && !m.isDrawing ==> r == m
    ensures Inv(m) ==> Inv(r)
  {
    if !m.ready then m
    else if m.isShapeDrawing && IsShapeTool(m.state.activeTool) then
      DrawShapePreview(m.(lastX := x, lastY := y), paint, x, y)
    else if m.isDrawing then
      DrawOnCanvas(m, paint, m.Last(), Point(x, y)).(lastX := x, lastY := y)
    else m
  }

  /**
   * `stopDrawing` (mouse up, mouse out, touch end): a shape preview with a
   * shape tool is committed and ends; otherwise only the stroke flag is cleared.
   */
  function StopDrawing(m: EditorModel, paint: Rasterizer): (r: EditorModel)
    ensures m.isShapeDrawing && IsShapeTool(m.state.activeTool) ==>
      r == FinishShapeDrawing(m, paint).(isShapeDrawing := false)
    ensures !(m.isShapeDrawing && IsShapeTool(m.state.activeTool)) ==> r == m.(isDrawing := false)
    ensures Inv(m) ==> Inv(r)
  {
    if m.isShapeDrawing && IsShapeTool(m.state.activeTool) then
      FinishShapeDrawing(m, paint).(isShapeDrawing := false)
    else m.(isDrawing := false)
  }

  // ---- Tool state ----

  /** `onToolSelected`: only the active tool changes. */
  function OnToolSelected(m: EditorModel, tool: string): (r: EditorModel)
    ensures r.state.activeTool == tool && r == m.(state := r.state)
    ensures r.state.(activeTool := m.state.activeTool) == m.state
  {
    m.(state := m.state.(activeTool := tool))
  }

  /**
   * `onPropertyChange`: the tool state takes the new value; with a context, a
   * brightness, contrast or saturation change also sets the matching filter
   * percentage of the live preview.
   */
  function OnPropertyChange(m: EditorModel, c: PropertyChange): (r: EditorModel)
    ensures r.state == ApplyChange(m.state, c)
    ensures m.ready && c.Brightness? ==> r == m.(state := r.state, filterBrightness := c.level)
    ensures m.ready && c.Contrast? ==> r == m.(state := r.state, filterContrast := c.level)
    ensures m.ready && c.Saturation? ==> r == m.(state := r.state, filterSaturation := c.level)
    ensures !m.ready || !c.IsFilter() ==> r == m.(state := r.state)
  {
    var next := m.(state := ApplyChange(m.state, c));
    if !m.ready then next
    else
      match c
      case Brightness(v) => next.(filterBrightness := v)
      case Contrast(v) => next.(filterContrast := v)
      case Saturation(v) => next.(filterSaturation := v)
      case _ => next
  }

  // ---- Canvas surface and colour pipeline ----

  /** `clearCanvas`: every pixel becomes opaque white. */
  function ClearCanvas(m: EditorModel): (r: EditorModel)
    ensures m.ready ==> r == m.(buf := WhiteBuffer(|m.buf|))
    ensures !m.ready ==> r == m
  {
    if !m.ready then m else m.(buf := WhiteBuffer(|m.buf|))
  }

  /**
   * `applyFiltersToCanvas`: the buffer is passed through the colour pipeline with
   * the current percentages, which then return to 100.
   */
  function ApplyFiltersToCanvas(m: EditorModel): (r: EditorModel)
    requires |m.buf| % 4 == 0
    ensures m.ready ==> r == m.(buf := ColorFilter.Filtered(m.buf, m.Params()),
                                filterBrightness := 100, filterContrast := 100, filterSaturation := 100)
    ensures !m.ready ==> r == m
    ensures Inv(m) ==> Inv(r)
  {
    if !m.ready then m
    else
      ColorFilter.FilteredKeepsAlpha(m.buf, m.Params());
      m.(buf := ColorFilter.Filtered(m.buf, m.Params()),
            filterBrightness := 100, filterContrast := 100, filterSaturation := 100)
  }

  /** `applyFilter`: store the three percentages, then apply them. */
  function ApplyFilter(m: EditorModel, brightness: int, contrast: int, saturation: int): (r: EditorModel)
    requires |m.buf| % 4 == 0
    ensures r == ApplyFiltersToCanvas(m.(filterBrightness := brightness, filterContrast := contrast,
                                         filterSaturation := saturation))
    ensures m.ready ==> r.buf == ColorFilter.Filtered(m.buf, ColorFilter.FilterParams(brightness, contrast, saturation))
    ensures !m.ready ==> r.filterBrightness == brightness && r.filterContrast == contrast && r.filterSaturation == saturation
  {
    ApplyFiltersToCanvas(m.(filterBrightness := brightness, filterContrast := contrast,
                            filterSaturation := saturation))
  }

  /** Applying the filter keeps the alpha bytes and the size, and writes bytes into the colour channels. */
  lemma ApplyFilterWritesColourOnly(m: EditorModel, brightness: int, contrast: int, saturation: int)
    requires Inv(m) && m.ready
    ensures var r := ApplyFilter(m, brightness, contrast, saturation);
      Inv(r) && |r.buf| == |m.buf|
      && (forall k :: 0 <= k < |m.buf| && k % 4 == 3 ==> r.buf[k] == m.buf[k])
      && (forall k :: 0 <= k < |m.buf| && k % 4 != 3 ==> 0 <= r.buf[k] <= 255)
  {
    ColorFilter.FilteredKeepsAlpha(m.buf, ColorFilter.FilterParams(brightness, contrast, saturation));
  }

  // ---- Whole gestures ----

  /** The mouse or finger moving through `pts`, one `draw` per point. */
  function Moves(m: EditorModel, paint: Rasterizer, pts: seq<Point>): EditorModel
    decreases |pts|
  {
    if pts == [] then m else Moves(Draw(m, paint, pts[0].x, pts[0].y), paint, pts[1..])
  }

  function LastOr(pts: seq<Point>, p: Point): Point {
    if pts == [] then p else pts[|pts| - 1]
  }

  /**
   * During a shape preview, any number of moves keeps the snapshot, the start
   * point and the tool state, makes the last move the last point, and leaves
   * on the buffer exactly one shape painted over the snapshot.
   */
  lemma {:induction false} PreviewMoves(m: EditorModel, paint: Rasterizer, pts: seq<Point>)
    requires m.ready && m.isShapeDrawing && m.savedImageData.Some? && IsShapeTool(m.state.activeTool)
    ensures var r := Moves(m, paint, pts);
      r.ready && r.isShapeDrawing && r.savedImageData == m.savedImageData
      && r.state == m.state && r.Start() == m.Start() && r.Last() == LastOr(pts, m.Last())
      && r.isDrawing == m.isDrawing
      && (pts != [] ==> r.buf == PaintAll(paint, m.savedImageData.value, ShapeCommands(m.state, m.Start(), r.Last())))
    decreases |pts|
  {
    if pts != [] {
      var next := Draw(m, paint, pts[0].x, pts[0].y);
      PreviewMoves(next, paint, pts[1..]);
      if |pts| > 1 {
        assert LastOr(pts[1..], next.Last()) == LastOr(pts, m.Last());
      }
    }
  }

  /**
   * A whole shape gesture: press at `p0`, any moves, release. The
   * result is the buffer from before the gesture with exactly one shape, the
   * one for the drag from `p0` to the last point, and no snapshot is left.
   */
  lemma ShapeGesture(m: EditorModel, paint: Rasterizer, p0: Point, pts: seq<Point>, wrapper: Option<Offset>)
    requires Inv(m) && m.ready && IsShapeTool(m.state.activeTool)
    ensures var r := StopDrawing(Moves(StartDrawing(m, p0.x, p0.y, wrapper), paint, pts), paint);
      r.buf == PaintAll(paint, m.buf, ShapeCommands(m.state, p0, LastOr(pts, p0)))
      && r.savedImageData.None? && !r.isShapeDrawing && r.state == m.state && Inv(r)
  {
    var down := StartDrawing(m, p0.x, p0.y, wrapper);
    PreviewMoves(down, paint, pts);
  }

  /** While stroking, moves through `pts` paint one segment per move, each from the previous point. */
  lemma {:induction false} StrokeMoves(m: EditorModel, paint: Rasterizer, pts: seq<Point>)
    requires m.ready && m.isDrawing && !(m.isShapeDrawing && IsShapeTool(m.state.activeTool))
    ensures var r := Moves(m, paint, pts);
      r.buf == PaintAll(paint, m.buf, Strokes(m.state, [m.Last()] + pts))
      && r.Last() == LastOr(pts, m.Last()) && r.isDrawing && r.state == m.state
      && r.isShapeDrawing == m.isShapeDrawing && r.savedImageData == m.savedImageData
    decreases |pts|
  {
    if pts != [] {
      var next := Draw(m, paint, pts[0].x, pts[0].y);
      StrokeMoves(next, paint, pts[1..]);
      var all := [m.Last()] + pts;
      assert all[1..] == [next.Last()] + pts[1..];
      assert Strokes(m.state, all) == [SegmentCommand(m.state, m.Last(), pts[0])] + Strokes(m.state, all[1..]);
      if |pts| > 1 {
        assert LastOr(pts[1..], next.Last()) == LastOr(pts, m.Last());
      }
    } else {
      assert Strokes(m.state, [m.Last()]) == [];
    }
  }

  /**
   * A whole stroke with any tool other than text and the shapes: press
   * at `p0`, moves through `pts`, release. The buffer receives exactly the
   * segments joining `p0` and the points in order, and the stroke ends.
   */
  lemma StrokeGesture(m: EditorModel, paint: Rasterizer, p0: Point, pts: seq<Point>, wrapper: Option<Offset>)
    requires m.ready && m.state.activeTool != "text" && !IsShapeTool(m.state.activeTool)
    ensures var r := StopDrawing(Moves(StartDrawing(m, p0.x, p0.y, wrapper), paint, pts), paint);
      r.buf == PaintAll(paint, m.buf, Strokes(m.state, [p0] + pts)) && !r.isDrawing && r.state == m.state
  {
    var down := StartDrawing(m, p0.x, p0.y, wrapper);
    StrokeMoves(down, paint, pts);
  }

  /**
   * A whole text entry at canvas point `p` with an unchanged wrapper offset:
   * non-blank input is painted at `p`, its baseline lowered by the ascent (or
   * the font size); blank input paints nothing. The overlay closes either way.
   */
  lemma TextEntry(m: EditorModel, paint: Rasterizer, p: Point, o: Offset, input: string, ascent: real)
    requires m.ready && m.state.activeTool == "text"
    ensures var r := FinishTextInput(StartDrawing(m, p.x, p.y, Some(o)), paint, Some(input), Some(o), ascent);
      !r.textInputActive && r.textInputValue == "" && r.state == m.state
      && r.buf == (if JsString.Trim(input) == "" then m.buf
                   else paint(m.buf, TextCommand(m.state, JsString.Trim(input), p, ascent)))
  {
    OverlayRoundTrip(p, o);
  }
}
