/**
 * `ImageEditorComponent`: the canvas buffer, the tool state and the gesture,
 * snapshot, text and filter fields, updated in place by the event handlers.
 * Each method leaves the component in the state that the function of the
 * same name in `EditorMachine` computes from the state before the call.
 *
 * The browser's side enters as parameters: canvas-local event coordinates
 * (`clientX - rect.left`), the canvas's offset in its wrapper (`None` when the
 * canvas has no parent element), the text input's value (`None` when the
 * element does not exist), the measured text ascent, and the rasteriser.
 */
module ImageEditor {
  import opened Wrappers
  import opened Geometry
  import opened EditorStyle
  import opened Canvas
  import JsString
  import ColorFilter
  import M = EditorMachine

  class ImageEditorComponent {
    /** Whether `getContext('2d')` returned a context. */
    const ready: bool
    /** The platform's rasterisation of lines, rectangles, arcs and text. */
    const paint: Rasterizer
    const width: nat
    const height: nat
    /** The canvas's RGBA bytes, `width * height * 4` of them. */
    const buf: array<int>

    var state: EditorState

    var isDrawing: bool
    var lastX: real
    var lastY: real

    var startX: real
    var startY: real
    var isShapeDrawing: bool
    var savedImageData: Option<seq<int>>

    var textInputActive: bool
    var textInputX: real
    var textInputY: real
    var textInputValue: string

    var filterBrightness: int
    var filterContrast: int
    var filterSaturation: int

    ghost predicate Valid()
      reads this
    {
      buf.Length == 4 * (width * height) && buf.Length % 4 == 0
      && (savedImageData.Some? ==> |savedImageData.value| == buf.Length)
    }

    /** The component's whole state as a value. */
    ghost function View(): M.EditorModel
      reads this, buf
    {
      M.EditorModel(ready, buf[..], state, isDrawing, lastX, lastY, startX, startY,
        isShapeDrawing, savedImageData, textInputActive, textInputX, textInputY, textInputValue,
        filterBrightness, filterContrast, filterSaturation)
    }

    /** Construction followed by `initializeCanvas`: a white canvas when the context exists. */
    constructor (width: nat, height: nat, hasContext: bool, paint: Rasterizer)
      ensures Valid() && fresh(buf) && this.width == width && this.height == height && this.paint == paint
      ensures View() == M.Initial(hasContext, 4 * (width * height)) && M.Inv(View())
    {
      this.width, this.height, this.ready, this.paint := width, height, hasContext, paint;
      var pixels := new int[4 * (width * height)](k => 0);
      buf := pixels;
      state := InitialState();
      isDrawing, lastX, lastY := false, 0.0, 0.0;
      startX, startY, isShapeDrawing, savedImageData := 0.0, 0.0, false, None;
      textInputActive, textInputX, textInputY, textInputValue := false, 0.0, 0.0, "";
      filterBrightness, filterContrast, filterSaturation := 100, 100, 100;
      new;
      if hasContext {
        forall k | 0 <= k < pixels.Length {
          pixels[k] := 255;
        }
      }
      assert buf[..] == M.Initial(hasContext, buf.Length).buf;
    }

    // ---- Canvas surface ----

    /** `putImageData(s, 0, 0)` of a whole-canvas image: the buffer becomes `s`. */
    method PutImageData(s: seq<int>)
      requires |s| == buf.Length
      modifies buf
      ensures buf[..] == s
    {
      forall k | 0 <= k < buf.Length {
        buf[k] := s[k];
      }
    }

    /** One platform drawing call. */
    method Rasterize(c: DrawCmd)
      modifies buf
      ensures buf[..] == paint(old(buf[..]), c)
    {
      PutImageData(paint(buf[..], c));
    }

    method ClearCanvas()
      requires Valid() && M.Inv(View())
      modifies buf
      ensures Valid() && M.Inv(View()) && View() == M.ClearCanvas(old(View()))
    {
      if ready {
        forall k | 0 <= k < buf.Length {
          buf[k] := 255;
        }
        assert buf[..] == WhiteBuffer(buf.Length);
      }
    }

    // ---- Snapshot manager ----

    method SaveCanvasState()
      requires Valid()
      modifies this
      ensures Valid() && View() == M.SaveCanvasState(old(View()))
    {
      if !ready { return; }
      savedImageData := Some(buf[..]);
    }

    method RestoreCanvasState()
      requires Valid()
      modifies buf
      ensures Valid() && View() == M.RestoreCanvasState(old(View()))
    {
      if !ready || savedImageData.None? { return; }
      PutImageData(savedImageData.value);
    }

    /** Paints the shape commands for a drag, in the order `ShapeCommands` lists them. */
    method RasterizeShape(start: Point, cur: Point)
      modifies buf
      ensures buf[..] == PaintAll(paint, old(buf[..]), ShapeCommands(state, start, cur))
    {
      var stroke := OrString(state.shapeStrokeColor, state.brushColor);
      var fill := OrString(state.shapeFillColor, state.brushColor);
      var width := OrNumber(state.shapeStrokeWidth, state.brushWidth);
      ghost var before := buf[..];
      if state.activeTool == "rectangle" {
        var r := RectFromDrag(start, cur);
        Rasterize(FillRect(r, fill));
        Rasterize(StrokeRect(r, stroke, width));
        assert PaintAll(paint, before, [FillRect(r, fill), StrokeRect(r, stroke, width)])
            == PaintAll(paint, paint(before, FillRect(r, fill)), [StrokeRect(r, stroke, width)]);
      } else if state.activeTool == "circle" {
        var c := CircleFromDrag(start, cur);
        Rasterize(Arc(c, fill, stroke, width));
        assert PaintAll(paint, before, [Arc(c, fill, stroke, width)])
            == PaintAll(paint, paint(before, Arc(c, fill, stroke, width)), []);
      }
    }

    method DrawShapePreview(x: real, y: real)
      requires Valid()
      modifies buf
      ensures Valid() && View() == M.DrawShapePreview(old(View()), paint, x, y)
    {
      if !ready || savedImageData.None? { return; }
      RestoreCanvasState();
      RasterizeShape(Point(startX, startY), Point(x, y));
    }

    method FinishShapeDrawing()
      requires Valid()
      modifies this, buf
      ensures Valid() && View() == M.FinishShapeDrawing(old(View()), paint)
    {
      if !ready || savedImageData.None? { return; }
      RestoreCanvasState();
      RasterizeShape(Point(startX, startY), Point(lastX, lastY));
      savedImageData := None;
    }

    // ---- Input state machine ----

    method StartDrawing(x: real, y: real, wrapper: Option<Offset>)
      requires Valid() && M.Inv(View())
      modifies this
      ensures Valid() && M.Inv(View()) && View() == M.StartDrawing(old(View()), x, y, wrapper)
    {
      if !ready { return; }
      if state.activeTool == "text" {
        StartTextInput(x, y, wrapper);
        return;
      }
      if IsShapeTool(state.activeTool) {
        BeginShape(x, y);
        return;
      }
      isDrawing := true;
      lastX, lastY := x, y;
    }

    /** Snapshot the canvas and start a shape preview at `(x, y)`. */
    method BeginShape(x: real, y: real)
      requires Valid() && ready
      modifies this
      ensures Valid()
      ensures View() == old(View()).(savedImageData := Some(old(buf[..])), isShapeDrawing := true,
                                     startX := x, startY := y, lastX := x, lastY := y)
    {
      SaveCanvasState();
      isShapeDrawing := true;
      startX, startY := x, y;
      lastX, lastY := x, y;
    }

    /** The touch path: `handleTouchStart` repeats `startDrawing` for the first touch point. */
    method HandleTouchStart(x: real, y: real, wrapper: Option<Offset>)
      requires Valid() && M.Inv(View())
      modifies this
      ensures Valid() && M.Inv(View()) && View() == M.StartDrawing(old(View()), x, y, wrapper)
    {
      StartDrawing(x, y, wrapper);
    }

    method DrawOnCanvas(x0: real, y0: real, x1: real, y1: real)
      requires Valid()
      modifies buf
      ensures Valid() && View() == M.DrawOnCanvas(old(View()), paint, Point(x0, y0), Point(x1, y1))
    {
      if !ready { return; }
      var color := if state.activeTool == "eraser" then EraserColor else state.brushColor;
      Rasterize(Segment(Point(x0, y0), Point(x1, y1), color, state.brushWidth));
    }

    method Draw(x: real, y: real)
      requires Valid() && M.Inv(View())
      modifies this, buf
      ensures Valid() && M.Inv(View()) && View() == M.Draw(old(View()), paint, x, y)
    {
      if !ready { return; }
      if isShapeDrawing && IsShapeTool(state.activeTool) {
        lastX, lastY := x, y;
        DrawShapePreview(x, y);
        return;
      }
      if isDrawing {
        DrawOnCanvas(lastX, lastY, x, y);
        lastX, lastY := x, y;
      }
    }

    /** The touch path: `handleTouchMove` repeats `draw` for the first touch point. */
    method HandleTouchMove(x: real, y: real)
      requires Valid() && M.Inv(View())
      modifies this, buf
      ensures Valid() && M.Inv(View()) && View() == M.Draw(old(View()), paint, x, y)
    {
      Draw(x, y);
    }

    method StopDrawing()
      requires Valid() && M.Inv(View())
      modifies this, buf
      ensures Valid() && M.Inv(View()) && View() == M.StopDrawing(old(View()), paint)
    {
      if isShapeDrawing && IsShapeTool(state.activeTool) {
        FinishShapeDrawing();
        isShapeDrawing := false;
        return;
      }
      isDrawing := false;
    }

    // ---- Text overlay ----

    method StartTextInput(x: real, y: real, wrapper: Option<Offset>)
      requires Valid() && M.Inv(View())
      modifies this
      ensures Valid() && M.Inv(View()) && View() == M.StartTextInput(old(View()), x, y, wrapper)
    {
      if !ready { return; }
      if wrapper.None? { return; }
      textInputX := x + wrapper.value.dx;
      textInputY := y + wrapper.value.dy;
      textInputActive := true;
      textInputValue := "";
    }

    method FinishTextInput(input: Option<string>, wrapper: Option<Offset>, ascent: real)
      requires Valid() && M.Inv(View())
      modifies this, buf
      ensures Valid() && M.Inv(View()) && View() == M.FinishTextInput(old(View()), paint, input, wrapper, ascent)
    {
      if !ready || input.None? { return; }
      var text := JsString.Trim(input.value);
      if text != "" {
        if wrapper.None? { return; }
        CommitText(text, ToCanvas(Point(textInputX, textInputY), wrapper.value), ascent);
        return;
      }
      textInputActive := false;
      textInputValue := "";
    }

    /** Paint `text` with its top-left at canvas point `at`, then close the overlay. */
    method CommitText(text: string, at: Point, ascent: real)
      requires Valid()
      modifies this, buf
      ensures Valid()
      ensures View() == old(View()).(buf := paint(old(buf[..]), M.TextCommand(old(state), text, at, ascent)),
                                     textInputActive := false, textInputValue := "")
    {
      Rasterize(M.TextCommand(state, text, at, ascent));
      textInputActive := false;
      textInputValue := "";
    }

    method CancelTextInput()
      requires Valid() && M.Inv(View())
      modifies this
      ensures Valid() && M.Inv(View()) && View() == M.CancelTextInput(old(View()))
    {
      textInputActive := false;
      textInputValue := "";
    }

    // ---- Tool state and filters ----

    method OnToolSelected(tool: string)
      requires Valid() && M.Inv(View())
      modifies this
      ensures Valid() && M.Inv(View()) && View() == M.OnToolSelected(old(View()), tool)
    {
      state := state.(activeTool := tool);
    }

    method OnPropertyChange(c: PropertyChange)
      requires Valid() && M.Inv(View())
      modifies this
      ensures Valid() && M.Inv(View()) && View() == M.OnPropertyChange(old(View()), c)
    {
      state := ApplyChange(state, c);
      if ready && c.Brightness? {
        filterBrightness := c.level;
      } else if ready && c.Contrast? {
        filterContrast := c.level;
      } else if ready && c.Saturation? {
        filterSaturation := c.level;
      }
    }

    /** `getFilterStyle`: the CSS filter string carries exactly the three current percentages. */
    function GetFilterStyle(): (css: string)
      reads this
      ensures ParseFilterStyle(css) == Some((filterBrightness, filterContrast, filterSaturation))
    {
      FilterStyleRoundTrip(filterBrightness, filterContrast, filterSaturation);
      FilterStyle(filterBrightness, filterContrast, filterSaturation)
    }

    /**
     * The pixel loop of `applyFiltersToCanvas`, four bytes at a time: each
     * pixel's colour is replaced by `g` of it, its alpha byte is not written.
     */
    method MapPixelsInPlace(g: ColorFilter.Rgb -> ColorFilter.Rgb)
      requires buf.Length % 4 == 0
      modifies buf
      ensures buf[..] == ColorFilter.MapPixels(old(buf[..]), g)
    {
      ghost var before := buf[..];
      ghost var pixels := buf.Length / 4;
      assert buf.Length == 4 * pixels;
      var i := 0;
      ghost var done := 0;
      while i < buf.Length
        modifies buf
        invariant 0 <= done <= pixels && i == 4 * done
        invariant forall j: nat :: j < done ==> ColorFilter.QuadMapped(before, buf[..], g, j)
        invariant forall j: nat :: done <= j < pixels ==> ColorFilter.QuadSame(before, buf[..], j)
        decreases buf.Length - i
      {
        assert ColorFilter.QuadSame(before, buf[..], done);
        ghost var prev := buf[..];
        var p := g(ColorFilter.Rgb(buf[i], buf[i + 1], buf[i + 2]));
        buf[i], buf[i + 1], buf[i + 2] := p.r, p.g, p.b;
        assert ColorFilter.QuadMapped(before, buf[..], g, done);
        forall j: nat | j < done
          ensures ColorFilter.QuadMapped(before, buf[..], g, j)
        {
          assert ColorFilter.QuadMapped(before, prev, g, j);
        }
        forall j: nat | done < j < pixels
          ensures ColorFilter.QuadSame(before, buf[..], j)
        {
          assert ColorFilter.QuadSame(before, prev, j);
        }
        i, done := i + 4, done + 1;
      }
      ColorFilter.MapPixelsByQuads(before, buf[..], g, pixels);
    }

    /** `applyFiltersToCanvas`: filter every pixel by the current percentages, then reset them to 100. */
    method ApplyFiltersToCanvas()
      requires Valid() && M.Inv(View())
      modifies this, buf
      ensures Valid() && M.Inv(View()) && View() == M.ApplyFiltersToCanvas(old(View()))
    {
      if !ready { return; }
      ghost var m0 := View();
      MapPixelsInPlace(ColorFilter.PixelFilter(ColorFilter.FilterParams(filterBrightness, filterContrast, filterSaturation)));
      filterBrightness := 100;
      filterContrast := 100;
      filterSaturation := 100;
      assert buf[..] == ColorFilter.Filtered(m0.buf, m0.Params());
      assert View() == M.ApplyFiltersToCanvas(m0);
    }

    method ApplyFilter(brightness: int, contrast: int, saturation: int)
      requires Valid() && M.Inv(View())
      modifies this, buf
      ensures Valid() && M.Inv(View()) && View() == M.ApplyFilter(old(View()), brightness, contrast, saturation)
    {
      filterBrightness := brightness;
      filterContrast := contrast;
      filterSaturation := saturation;
      ApplyFiltersToCanvas();
    }
  }

  /**
   * A client of the component: capture a snapshot, change the canvas by a
   * stroke and any other drawing call, then restore: the captured pixels are back.
   */
  method SnapshotScenario(e: ImageEditorComponent, x0: real, y0: real, x1: real, y1: real, c: DrawCmd)
    requires e.Valid() && e.ready
    modifies e, e.buf
    ensures e.Valid() && e.buf[..] == old(e.buf[..])
  {
    e.SaveCanvasState();
    ghost var captured := e.buf[..];
    e.DrawOnCanvas(x0, y0, x1, y1);
    e.Rasterize(c);
    e.RestoreCanvasState();
    assert e.buf[..] == captured;
  }
}
