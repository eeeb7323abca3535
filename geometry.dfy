/** Surface-local pixel geometry of the drawing surface: points, the
    translation from client coordinates to surface coordinates, and the
    bounding box spanned by a drag. JavaScript numbers are modelled as
    integers (whole pixels). */
module Geometry {

  /** A position in pixels. */
  datatype Point = Point(x: int, y: int)

  /** An axis-aligned box given by its top-left corner and its extent. */
  datatype Box = Box(x: int, y: int, width: int, height: int)

  /** `Math.min` on two numbers. */
  function Min(a: int, b: int): int { if a <= b then a else b }

  /** `Math.max` on two numbers. */
  function Max(a: int, b: int): int { if a <= b then b else a }

  /** `Math.abs`. */
  function Abs(a: int): int { if a < 0 then -a else a }

  /** The pointer position relative to the surface: the client position
      minus the surface's on-screen top-left corner. */
  function ToLocal(client: Point, origin: Point): (p: Point)
    ensures Point(p.x + origin.x, p.y + origin.y) == client
  {
    Point(client.x - origin.x, client.y - origin.y)
  }

  /** The box contains the point, edges included. */
  predicate Covers(b: Box, p: Point)
  {
    b.x <= p.x <= b.x + b.width && b.y <= p.y <= b.y + b.height
  }

  /** The box lies within `outer`. */
  predicate Within(b: Box, outer: Box)
  {
    outer.x <= b.x && b.x + b.width <= outer.x + outer.width &&
    outer.y <= b.y && b.y + b.height <= outer.y + outer.height
  }

  /** The axis-aligned bounding box of the drag start and the current
      pointer position: its extent is never negative and its left/right
      (top/bottom) edges are exactly the two x (y) coordinates. */
  function BBox(start: Point, end: Point): (b: Box)
    ensures b.width >= 0 && b.height >= 0
    ensures {b.x, b.x + b.width} == {start.x, end.x}
    ensures {b.y, b.y + b.height} == {start.y, end.y}
    ensures Covers(b, start) && Covers(b, end)
  {
    var width := Abs(end.x - start.x);
    var height := Abs(end.y - start.y);
    Box(Min(start.x, end.x), Min(start.y, end.y), width, height)
  }

  /** The bounding box is the smallest box holding both points. */
  lemma BBoxSmallest(start: Point, end: Point, b: Box)
    requires Covers(b, start) && Covers(b, end)
    ensures Within(BBox(start, end), b)
  {
  }

  /** The box does not depend on the drag direction. */
  lemma BBoxSymmetric(start: Point, end: Point)
    ensures BBox(start, end) == BBox(end, start)
  {
  }

  /** Measuring in surface coordinates rather than client coordinates only
      shifts the box by the surface origin; its extent is the same. */
  lemma BBoxTranslates(start: Point, end: Point, origin: Point)
    ensures var local := BBox(ToLocal(start, origin), ToLocal(end, origin));
            var client := BBox(start, end);
            local == Box(client.x - origin.x, client.y - origin.y, client.width, client.height)
  {
  }
}
