/**
 * Shape geometry of the image editor: the rectangle and the circle drawn for a
 * drag from a start point to a current point, and the offset between the
 * canvas element and the wrapper that hosts the text-entry overlay.
 * Coordinates are CSS pixels, modelled as reals.
 */
module Geometry {

  datatype Point = Point(x: real, y: real)

  /** A rectangle by its top-left corner and its size, as `fillRect` takes it. */
  datatype Rect = Rect(x: real, y: real, w: real, h: real)

  /** A full circle by its centre and radius, as `arc(cx, cy, r, 0, 2π)` takes it. */
  datatype Circle = Circle(cx: real, cy: real, r: real)

  function Abs(v: real): real {
    if v < 0.0 then -v else v
  }

  function Min(a: real, b: real): real {
    if a <= b then a else b
  }

  function Max(a: real, b: real): real {
    if a >= b then a else b
  }

  /** `Math.abs(d) || 1`: the extent of a drag along one axis, 1 for a zero extent. */
  function Extent(d: real): (e: real)
    ensures e > 0.0
    ensures d != 0.0 ==> e == Abs(d)
    ensures d == 0.0 ==> e == 1.0
  {
    var a := if d < 0.0 then -d else d;
    if a != 0.0 then a else 1.0
  }

  /**
   * The rectangle for a drag from `start` to `cur`: anchored at the current
   * coordinate on an axis where the drag went negative, at the start coordinate
   * otherwise, with the extent of the drag as its size.
   */
  function RectFromDrag(start: Point, cur: Point): (r: Rect)
    ensures r.x == Min(start.x, cur.x) && r.y == Min(start.y, cur.y)
    ensures r.w == Extent(cur.x - start.x) && r.h == Extent(cur.y - start.y)
  {
    var width := cur.x - start.x;
    var height := cur.y - start.y;
    Rect(if width < 0.0 then cur.x else start.x,
         if height < 0.0 then cur.y else start.y,
         Extent(width), Extent(height))
  }

  /**
   * The circle for a drag from `start` to `cur`: centred on the middle of the
   * drag, with radius `Math.max(|dx|/2, |dy|/2, 1)`.
   */
  function CircleFromDrag(start: Point, cur: Point): (c: Circle)
    ensures c.cx == (start.x + cur.x) / 2.0 && c.cy == (start.y + cur.y) / 2.0
    ensures c.r == Max(Max(Abs(cur.x - start.x) / 2.0, Abs(cur.y - start.y) / 2.0), 1.0)
  {
    var width := cur.x - start.x;
    var height := cur.y - start.y;
    Circle(start.x + width / 2.0, start.y + height / 2.0,
           Max(Max(Abs(width) / 2.0, Abs(height) / 2.0), 1.0))
  }

  predicate InRect(p: Point, r: Rect) {
    r.x <= p.x <= r.x + r.w && r.y <= p.y <= r.y + r.h
  }

  /**
   * The rectangle always has a positive size and contains both ends of the drag;
   * on an axis the drag moved along, the two ends are its opposite edges, so the
   * rectangle is the drag's bounding box.
   */
  lemma RectCoversDrag(start: Point, cur: Point)
    ensures var r := RectFromDrag(start, cur);
      r.w > 0.0 && r.h > 0.0 && InRect(start, r) && InRect(cur, r)
      && (start.x != cur.x ==> r.x + r.w == Max(start.x, cur.x))
      && (start.y != cur.y ==> r.y + r.h == Max(start.y, cur.y))
  {
  }

  /**
   * The rectangle from a drag does not depend on which end is the start: the
   * opposite drag draws the same rectangle.
   */
  lemma RectSymmetric(start: Point, cur: Point)
    ensures RectFromDrag(start, cur) == RectFromDrag(cur, start)
  {
  }

  /**
   * The radius is at least 1 and at least half of each extent, and it is one of
   * the three; the circle's bounding square contains the drag's bounding box.
   */
  lemma CircleCoversDrag(start: Point, cur: Point)
    ensures var c := CircleFromDrag(start, cur);
      c.r >= 1.0
      && c.r >= Abs(cur.x - start.x) / 2.0 && c.r >= Abs(cur.y - start.y) / 2.0
      && (c.r == 1.0 || c.r == Abs(cur.x - start.x) / 2.0 || c.r == Abs(cur.y - start.y) / 2.0)
      && c.cx - c.r <= Min(start.x, cur.x) && Max(start.x, cur.x) <= c.cx + c.r
      && c.cy - c.r <= Min(start.y, cur.y) && Max(start.y, cur.y) <= c.cy + c.r
  {
  }

  /** The offset of the canvas element inside its wrapper: `canvasRect - wrapperRect`. */
  datatype Offset = Offset(dx: real, dy: real)

  /** Canvas-local point to wrapper-local point, where the overlay is placed. */
  function ToWrapper(p: Point, o: Offset): (q: Point)
    ensures q.x - p.x == o.dx && q.y - p.y == o.dy
  {
    Point(p.x + o.dx, p.y + o.dy)
  }

  /** Wrapper-local point back to canvas-local point, for rasterising the text. */
  function ToCanvas(q: Point, o: Offset): (p: Point)
    ensures q.x - p.x == o.dx && q.y - p.y == o.dy
  {
    Point(q.x - o.dx, q.y - o.dy)
  }

  /** With an unchanged offset the overlay position maps back to the clicked point. */
  lemma OverlayRoundTrip(p: Point, o: Offset)
    ensures ToCanvas(ToWrapper(p, o), o) == p
    ensures ToWrapper(ToCanvas(p, o), o) == p
  {
  }

  /** When the wrapper moved by `(mx, my)` between entry and commit, the text lands shifted by it. */
  lemma OverlayDrift(p: Point, o: Offset, mx: real, my: real)
    ensures ToCanvas(ToWrapper(p, o), Offset(o.dx + mx, o.dy + my)) == Point(p.x - mx, p.y - my)
  {
  }
}
