/** The rectangle records held by the drawing surface and the update-by-id
    operations the surface applies to its list of them (a text edit, the end
    of a drag, the end of a resize). Each is `rectangles.map(r => r.id === id
    ? { ...r, <changes> } : r)`: every element whose id matches is rewritten,
    every other element is kept as it is. */
module Rectangles {
  import opened Geometry

  /** One rectangle on the surface. */
  datatype Rectangle = Rectangle(id: int, x: int, y: int, width: int, height: int, text: string)

  /** The rectangle a drag creates: the given id, the box's bounds, empty text. */
  function Draft(id: int, b: Box): Rectangle
  {
    Rectangle(id, b.x, b.y, b.width, b.height, "")
  }

  /** The ids of the list, in list order. */
  function Ids(rs: seq<Rectangle>): seq<int>
  {
    seq(|rs|, i requires 0 <= i < |rs| => rs[i].id)
  }

  /** `rs.slice(0, -1)`: the list without its last element; an empty list
      stays empty, since JavaScript clamps the end index at 0. */
  function DropLast<T>(s: seq<T>): (r: seq<T>)
    ensures |r| == if s == [] then 0 else |s| - 1
    ensures r == s[..|r|]
  {
    if s == [] then [] else s[..|s| - 1]
  }

  /** `rs.map(r => r.id === id ? f(r) : r)`: every element with the given
      id is replaced by its image under `f`, all others are kept, in place. */
  function MapById(rs: seq<Rectangle>, id: int, f: Rectangle -> Rectangle): (r: seq<Rectangle>)
    ensures |r| == |rs|
    ensures forall i :: 0 <= i < |rs| && rs[i].id == id ==> r[i] == f(rs[i])
    ensures forall i :: 0 <= i < |rs| && rs[i].id != id ==> r[i] == rs[i]
  {
    if rs == [] then []
    else [if rs[0].id == id then f(rs[0]) else rs[0]] + MapById(rs[1..], id, f)
  }

  /** An id that no element carries selects nothing: the list is returned
      equal to before. */
  lemma {:induction false} MapByIdUnknown(rs: seq<Rectangle>, id: int, f: Rectangle -> Rectangle)
    ensures id !in Ids(rs) ==> MapById(rs, id, f) == rs
  {
    if rs != [] && id !in Ids(rs) {
      assert rs[0].id == Ids(rs)[0];
      assert Ids(rs[1..]) == Ids(rs)[1..];
      MapByIdUnknown(rs[1..], id, f);
    }
  }

  /** A text edit (`{ ...r, text }`): the matching elements get the new
      text, their id and bounds stay; other elements are untouched; an
      unknown id changes nothing. */
  function WithText(rs: seq<Rectangle>, id: int, text: string): (r: seq<Rectangle>)
    ensures |r| == |rs| && Ids(r) == Ids(rs)
    ensures forall i :: 0 <= i < |rs| && rs[i].id == id ==>
      r[i].text == text &&
      r[i].x == rs[i].x && r[i].y == rs[i].y &&
      r[i].width == rs[i].width && r[i].height == rs[i].height
    ensures forall i :: 0 <= i < |rs| && rs[i].id != id ==> r[i] == rs[i]
    ensures id !in Ids(rs) ==> r == rs
  {
    var update := (rect: Rectangle) => rect.(text := text);
    MapByIdUnknown(rs, id, update);
    MapById(rs, id, update)
  }

  /** The end of a drag (`{ ...r, x: d.x, y: d.y }`): the matching elements
      move to the new position, keeping id, size and text; other elements
      are untouched; an unknown id changes nothing. */
  function Moved(rs: seq<Rectangle>, id: int, x: int, y: int): (r: seq<Rectangle>)
    ensures |r| == |rs| && Ids(r) == Ids(rs)
    ensures forall i :: 0 <= i < |rs| && rs[i].id == id ==>
      r[i].x == x && r[i].y == y &&
      r[i].width == rs[i].width && r[i].height == rs[i].height && r[i].text == rs[i].text
    ensures forall i :: 0 <= i < |rs| && rs[i].id != id ==> r[i] == rs[i]
    ensures id !in Ids(rs) ==> r == rs
  {
    var update := (rect: Rectangle) => rect.(x := x, y := y);
    MapByIdUnknown(rs, id, update);
    MapById(rs, id, update)
  }

  /** The end of a resize (`{ ...r, width, height, x, y }`): the matching
      elements get the new position and size, keeping id and text; other
      elements are untouched; an unknown id changes nothing. */
  function Resized(rs: seq<Rectangle>, id: int, x: int, y: int, width: int, height: int): (r: seq<Rectangle>)
    ensures |r| == |rs| && Ids(r) == Ids(rs)
    ensures forall i :: 0 <= i < |rs| && rs[i].id == id ==>
      r[i].x == x && r[i].y == y && r[i].width == width && r[i].height == height &&
      r[i].text == rs[i].text
    ensures forall i :: 0 <= i < |rs| && rs[i].id != id ==> r[i] == rs[i]
    ensures id !in Ids(rs) ==> r == rs
  {
    var update := (rect: Rectangle) => rect.(x := x, y := y, width := width, height := height);
    MapByIdUnknown(rs, id, update);
    MapById(rs, id, update)
  }

  /** The text area reports its whole content on every keystroke: of two
      successive edits of the same rectangle only the later one is kept. */
  lemma WithTextLastWins(rs: seq<Rectangle>, id: int, first: string, second: string)
    ensures WithText(WithText(rs, id, first), id, second) == WithText(rs, id, second)
  {
  }

  /** Likewise for two successive drags of the same rectangle. */
  lemma MovedLastWins(rs: seq<Rectangle>, id: int, x1: int, y1: int, x2: int, y2: int)
    ensures Moved(Moved(rs, id, x1, y1), id, x2, y2) == Moved(rs, id, x2, y2)
  {
  }
}
