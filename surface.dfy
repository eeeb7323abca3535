/** The drawing surface's controller: the state of the `App` component and
    its event handlers, each one atomic transition on that state. */
module Drawing {
  import opened Geometry
  import opened Rectangles
  import opened Style

  class Surface {
    /** Drawing mode, switched by the toggle button and cleared by mouse-up. */
    var isDrawing: bool
    /** Surface-local position of the last mouse-down in drawing mode. */
    var startPos: Point
    /** The rectangles on the surface, in rendering order. */
    var rectangles: seq<Rectangle>
    /** The id the rectangle being drawn carries. */
    var nextId: int

    /** What every reachable state satisfies: the list holds at most one
        rectangle (a drag only ever replaces the last element), every stored
        id lies in 1..nextId, and no extent is negative. */
    ghost predicate Valid()
      reads this
    {
      1 <= nextId &&
      |rectangles| <= 1 &&
      forall r <- rectangles :: 1 <= r.id <= nextId && r.width >= 0 && r.height >= 0
    }

    /** The initial component state: not drawing, start at (0, 0), no
        rectangles, next id 1. */
    constructor ()
      ensures Valid()
      ensures !isDrawing && startPos == Point(0, 0) && rectangles == [] && nextId == 1
    {
      isDrawing := false;
      startPos := Point(0, 0);
      rectangles := [];
      nextId := 1;
    }

    /** The toggle button: flips drawing mode and nothing else. */
    method Toggle()
      requires Valid()
      modifies this
      ensures Valid()
      ensures isDrawing == !old(isDrawing)
      ensures startPos == old(startPos) && rectangles == old(rectangles) && nextId == old(nextId)
    {
      isDrawing := !isDrawing;
    }

    /** Mouse-down at `client`, the surface's top-left being at `origin`:
        in drawing mode it records the surface-local start point; otherwise
        nothing changes. */
    method MouseDown(client: Point, origin: Point)
      requires Valid()
      modifies this
      ensures Valid()
      ensures startPos == if old(isDrawing) then ToLocal(client, origin) else old(startPos)
      ensures isDrawing == old(isDrawing) && rectangles == old(rectangles) && nextId == old(nextId)
    {
      if isDrawing {
        startPos := ToLocal(client, origin);
      }
    }

    /** Mouse-move to `client`: in drawing mode the last rectangle (if any)
        is dropped and a rectangle with id `nextId`, the bounding box of the
        start point and the pointer, and empty text is pushed in its place;
        all earlier rectangles stay. Otherwise nothing changes. */
    method MouseMove(client: Point, origin: Point)
      requires Valid()
      modifies this
      ensures Valid()
      ensures isDrawing == old(isDrawing) && startPos == old(startPos) && nextId == old(nextId)
      ensures !old(isDrawing) ==> rectangles == old(rectangles)
      ensures old(isDrawing) ==>
        |rectangles| == (if old(rectangles) == [] then 1 else |old(rectangles)|) &&
        rectangles[..|rectangles| - 1] == old(rectangles)[..|rectangles| - 1] &&
        rectangles[|rectangles| - 1] == Draft(nextId, BBox(startPos, ToLocal(client, origin)))
    {
      if isDrawing {
        var end := ToLocal(client, origin);
        var updated := DropLast(rectangles);
        updated := updated + [Draft(nextId, BBox(startPos, end))];
        rectangles := updated;
      }
    }

    /** Mouse-up: in drawing mode it leaves drawing mode and advances the
        id, whether or not a rectangle was drawn; the rectangles and the
        start point stay. Otherwise nothing changes. */
    method MouseUp()
      requires Valid()
      modifies this
      ensures Valid()
      ensures isDrawing == false
      ensures nextId == if old(isDrawing) then old(nextId) + 1 else old(nextId)
      ensures startPos == old(startPos) && rectangles == old(rectangles)
    {
      if isDrawing {
        isDrawing := false;
        nextId := nextId + 1;
      }
    }

    /** An edit in the text area of rectangle `id`. */
    method TextChange(id: int, text: string)
      requires Valid()
      modifies this
      ensures Valid()
      ensures rectangles == WithText(old(rectangles), id, text)
      ensures isDrawing == old(isDrawing) && startPos == old(startPos) && nextId == old(nextId)
    {
      rectangles := WithText(rectangles, id, text);
    }

    /** The end of a drag of rectangle `id`, reported at position `d`. */
    method DragStop(id: int, d: Point)
      requires Valid()
      modifies this
      ensures Valid()
      ensures rectangles == Moved(old(rectangles), id, d.x, d.y)
      ensures isDrawing == old(isDrawing) && startPos == old(startPos) && nextId == old(nextId)
    {
      rectangles := Moved(rectangles, id, d.x, d.y);
    }

    /** The end of a resize of rectangle `id`, reported at `position` with
        the box's CSS width and height (such as "77.8px"), whose leading
        integers become the new size. */
    method ResizeStop(id: int, position: Point, widthStyle: string, heightStyle: string)
      requires Valid()
      requires LeadingInt(widthStyle).Some? && LeadingInt(heightStyle).Some?
      modifies this
      ensures Valid()
      ensures rectangles == Resized(old(rectangles), id, position.x, position.y,
                                    LeadingInt(widthStyle).value, LeadingInt(heightStyle).value)
      ensures isDrawing == old(isDrawing) && startPos == old(startPos) && nextId == old(nextId)
    {
      var width := LeadingInt(widthStyle).value;
      var height := LeadingInt(heightStyle).value;
      rectangles := Resized(rectangles, id, position.x, position.y, width, height);
    }
  }

  /** One full draw cycle from the initial state, wherever the surface sits
      on screen: start drawing, press at (10, 10), drag to (50, 40), release.
      One rectangle with id 1 and the dragged bounds results; the next id
      is 2. */
  method DrawOnce(origin: Point) returns (rs: seq<Rectangle>, next: int, drawing: bool)
    ensures rs == [Rectangle(1, 10, 10, 40, 30, "")] && next == 2 && !drawing
  {
    var s := new Surface();
    s.Toggle();
    s.MouseDown(Point(origin.x + 10, origin.y + 10), origin);
    s.MouseMove(Point(origin.x + 50, origin.y + 40), origin);
    s.MouseUp();
    rs, next, drawing := s.rectangles, s.nextId, s.isDrawing;
  }

  /** After drawing a rectangle: typing "hello" into it, dragging it to
      (100, 5) and resizing it to "77.8px" by "20px". Text, position and
      the truncated size all land on the one rectangle. */
  method EditDrawn(origin: Point) returns (rs: seq<Rectangle>)
    ensures rs == [Rectangle(1, 100, 5, 77, 20, "hello")]
  {
    var s := new Surface();
    s.Toggle();
    s.MouseDown(Point(origin.x + 10, origin.y + 10), origin);
    s.MouseMove(Point(origin.x + 50, origin.y + 40), origin);
    s.MouseUp();
    s.TextChange(1, "hello");
    assert s.rectangles == [Rectangle(1, 10, 10, 40, 30, "hello")];
    s.DragStop(1, Point(100, 5));
    assert s.rectangles == [Rectangle(1, 100, 5, 40, 30, "hello")];
    assert Decimal(77) + ".8px" == "77.8px" && Decimal(20) + "px" == "20px";
    ParsePixels(77, ".8px");
    ParsePixels(20, "px");
    s.ResizeStop(1, Point(100, 5), "77.8px", "20px");
    rs := s.rectangles;
  }

  /** A second draw cycle does not add a rectangle: its first move replaces
      the one drawn before, so only the second rectangle, with id 2,
      remains. */
  method DrawTwice(origin: Point) returns (rs: seq<Rectangle>, next: int)
    ensures rs == [Rectangle(2, 20, 20, 5, 5, "")] && next == 3
  {
    var s := new Surface();
    s.Toggle();
    s.MouseDown(Point(origin.x + 10, origin.y + 10), origin);
    s.MouseMove(Point(origin.x + 50, origin.y + 40), origin);
    s.MouseUp();
    s.Toggle();
    s.MouseDown(Point(origin.x + 25, origin.y + 25), origin);
    s.MouseMove(Point(origin.x + 20, origin.y + 20), origin);
    s.MouseUp();
    rs, next := s.rectangles, s.nextId;
  }

  /** A click without movement in drawing mode creates no rectangle but
      still advances the id. */
  method ClickWithoutMove(origin: Point, at: Point) returns (rs: seq<Rectangle>, next: int)
    ensures rs == [] && next == 2
  {
    var s := new Surface();
    s.Toggle();
    s.MouseDown(at, origin);
    s.MouseUp();
    rs, next := s.rectangles, s.nextId;
  }

  /** Leaving drawing mode with the toggle in the middle of a drag keeps the
      half-drawn rectangle, and its id is not advanced. */
  method ToggleOffMidDraw(origin: Point) returns (rs: seq<Rectangle>, next: int, drawing: bool)
    ensures rs == [Rectangle(1, 0, 0, 7, 3, "")] && next == 1 && !drawing
  {
    var s := new Surface();
    s.Toggle();
    s.MouseDown(origin, origin);
    s.MouseMove(Point(origin.x + 7, origin.y + 3), origin);
    s.Toggle();
    rs, next, drawing := s.rectangles, s.nextId, s.isDrawing;
  }
}
