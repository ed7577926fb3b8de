/**
 * What the editor asks the browser's 2D context to paint. Lines, rectangles,
 * arcs and glyphs are rasterised by the platform; the model records each such
 * call as a `DrawCmd`, carrying the style it is painted with, and leaves its
 * effect on the pixels to an arbitrary `Rasterizer`. Every property proved
 * about the editor holds for every rasteriser.
 */
module Canvas {
  import opened Geometry
  import opened EditorStyle

  datatype DrawCmd =
    /** `moveTo(from); lineTo(to); stroke()` with round caps and joins. */
    | Segment(from: Point, to: Point, color: string, width: int)
    | FillRect(rect: Rect, color: string)
    | StrokeRect(rect: Rect, color: string, width: int)
    /** `arc(...); fill(); stroke()` of a full circle. */
    | Arc(circle: Circle, fill: string, stroke: string, width: int)
    /** `fillText(text, at)` with the given font and variable-font axes. */
    | FillText(text: string, at: Point, color: string, font: string, weight: int, slant: int)

  /** Every element is a byte, as in the canvas's `Uint8ClampedArray`. */
  predicate AllBytes(s: seq<int>) {
    forall k :: 0 <= k < |s| ==> 0 <= s[k] <= 255
  }

  /**
   * The platform's painting of one command onto an RGBA buffer; it never
   * resizes the buffer, and a buffer of bytes stays one.
   */
  type Rasterizer = paint: (seq<int>, DrawCmd) -> seq<int>
    | forall s, c :: |paint(s, c)| == |s| && (AllBytes(s) ==> AllBytes(paint(s, c)))
    witness (s: seq<int>, c: DrawCmd) => s

  /** The buffer after painting `cmds` in order. */
  function PaintAll(paint: Rasterizer, s: seq<int>, cmds: seq<DrawCmd>): (t: seq<int>)
    ensures |t| == |s|
    ensures cmds == [] ==> t == s
    ensures AllBytes(s) ==> AllBytes(t)
    decreases |cmds|
  {
    if cmds == [] then s else PaintAll(paint, paint(s, cmds[0]), cmds[1..])
  }

  /** The canvas background: opaque white, every RGBA byte 255. */
  function WhiteBuffer(n: nat): (s: seq<int>)
    ensures |s| == n && forall k :: 0 <= k < n ==> s[k] == 255
  {
    seq(n, k => 255)
  }

  const EraserColor: string := "#ffffff"

  predicate IsShapeTool(tool: string) {
    tool == "rectangle" || tool == "circle"
  }

  /** `drawOnCanvas`: one stroke segment; the eraser paints in the background colour. */
  function SegmentCommand(s: EditorState, from: Point, to: Point): (c: DrawCmd)
    ensures c.Segment? && c.from == from && c.to == to && c.width == s.brushWidth
    ensures c.color == (if s.activeTool == "eraser" then EraserColor else s.brushColor)
  {
    Segment(from, to, if s.activeTool == "eraser" then EraserColor else s.brushColor, s.brushWidth)
  }

  /**
   * The commands of one shape frame for a drag from `start` to `cur`: a filled
   * and stroked rectangle, or a filled and stroked circle, in the shape colours
   * with their brush fallbacks; nothing for any other tool.
   */
  function ShapeCommands(s: EditorState, start: Point, cur: Point): (cmds: seq<DrawCmd>)
    ensures s.activeTool == "rectangle" ==> cmds == [
      FillRect(RectFromDrag(start, cur), ShapeFillColorOf(s)),
      StrokeRect(RectFromDrag(start, cur), ShapeStrokeColorOf(s), ShapeStrokeWidthOf(s))]
    ensures s.activeTool == "circle" ==> cmds == [
      Arc(CircleFromDrag(start, cur), ShapeFillColorOf(s), ShapeStrokeColorOf(s), ShapeStrokeWidthOf(s))]
    ensures !IsShapeTool(s.activeTool) ==> cmds == []
  {
    var stroke := OrString(s.shapeStrokeColor, s.brushColor);
    var fill := OrString(s.shapeFillColor, s.brushColor);
    var width := OrNumber(s.shapeStrokeWidth, s.brushWidth);
    if s.activeTool == "rectangle" then
      var r := RectFromDrag(start, cur);
      [FillRect(r, fill), StrokeRect(r, stroke, width)]
    else if s.activeTool == "circle" then
      [Arc(CircleFromDrag(start, cur), fill, stroke, width)]
    else []
  }

  /** The segments of a stroke through `pts`: one per pair of consecutive points. */
  function Strokes(s: EditorState, pts: seq<Point>): (cmds: seq<DrawCmd>)
    ensures |cmds| == if |pts| < 2 then 0 else |pts| - 1
    ensures forall k :: 0 <= k < |cmds| ==> cmds[k] == SegmentCommand(s, pts[k], pts[k + 1])
    decreases |pts|
  {
    if |pts| < 2 then [] else [SegmentCommand(s, pts[0], pts[1])] + Strokes(s, pts[1..])
  }
}
