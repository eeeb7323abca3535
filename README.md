# ArDraw rectangle controller in Dafny

ArDraw is a browser canvas on which the user toggles a drawing mode and drags
out rectangles, then moves them, resizes them and types text into them. All of
its logic is in the `App` component (`src/App.tsx`). The component holds four
pieces of state and a handful of event handlers that change them. This project
models that controller and proves what each handler does.

- `geometry.dfy` (module `Geometry`): points, the translation from client
  coordinates to surface coordinates, and the bounding box of a drag.
- `rectangles.dfy` (module `Rectangles`): the `Rectangle` record and the
  update-by-id list operations. These are the `rectangles.map(...)`
  expressions of the text, drag-stop and resize-stop handlers, built on one
  `MapById`.
- `style.dfy` (module `Style`): reading the leading integer out of a CSS size
  such as `"77.8px"`, as the resize handler's `parseInt` does.
- `surface.dfy` (module `Drawing`): the class `Surface`. Its fields are
  `isDrawing`, `startPos`, `rectangles` and `nextId`, and it has one method per
  handler. The file ends with client methods that replay whole scenarios: a
  draw cycle, editing a drawn rectangle, a second draw cycle, a click without
  movement, and toggling off mid-draw.

The object invariant `Surface.Valid()` holds in the initial state and is kept
by every handler. It says:
- the list holds at most one rectangle;
- every stored id lies between 1 and `nextId`;
- no width or height is negative.

Ids are therefore unique. The list stays this short because mouse-move always
drops the last element before pushing the new box (`src/App.tsx:38-39`).

Where the system's documented design says otherwise, this model follows the
code:
- The list does not grow by one per draw cycle. The first move of a new
  drag replaces the rectangle drawn before (`Drawing.DrawTwice`).
- Mouse-up clears drawing mode itself. It also advances `nextId` whenever
  drawing mode was on, even after a click without movement
  (`Drawing.ClickWithoutMove`).
- Toggling drawing mode off in the middle of a drag keeps the half-drawn
  rectangle, whose id equals `nextId` (`Drawing.ToggleOffMidDraw`).

## Model

| member | source | states |
|---|---|---|
| Geometry.ToLocal | src/App.tsx:21-24 | the surface-local point plus the surface origin is the client point |
| Geometry.BBox | src/App.tsx:31-36 | width and height are never negative; the box's left and right edges are exactly {startX, endX}, its top and bottom edges exactly {startY, endY}; the box covers both points |
| Geometry.BBoxSmallest | src/App.tsx:33-36 | every box covering the start and end points contains the bounding box |
| Geometry.BBoxSymmetric | src/App.tsx:33-36 | the box is the same whichever way the drag went |
| Geometry.BBoxTranslates | src/App.tsx:28-36 | computing the box in surface coordinates shifts it by the origin and keeps its size |
| Rectangles.DropLast | src/App.tsx:38 | `slice(0, -1)` is the list minus its last element, and an empty list stays empty |
| Rectangles.MapById | src/App.tsx:52-54 | same length; each element with the id becomes its image under the update, every other element is unchanged |
| Rectangles.MapByIdUnknown | src/App.tsx:52-54 | an id no element carries leaves the list equal to before |
| Rectangles.WithText | src/App.tsx:51-56 | length and id sequence kept; matching elements get the new text and keep x, y, width, height; others unchanged; an unknown id changes nothing |
| Rectangles.Moved | src/App.tsx:74-79 | length and id sequence kept; matching elements get the new x, y and keep width, height, text; others unchanged; an unknown id changes nothing |
| Rectangles.Resized | src/App.tsx:80-91 | length and id sequence kept; matching elements get the new x, y, width, height and keep their text; others unchanged; an unknown id changes nothing |
| Rectangles.WithTextLastWins | src/App.tsx:95-97 | of two successive text edits of one rectangle only the later is kept |
| Rectangles.MovedLastWins | src/App.tsx:74-79 | of two successive drags of one rectangle only the later position is kept |
| Style.LeadingDigits | src/App.tsx:84-85 | the result is the longest all-digit prefix of the string |
| Style.LeadingInt | src/App.tsx:84-85 | there is no number (NaN) exactly when the string does not start with a digit |
| Style.ParsePixels | src/App.tsx:84-85 | the numeral of n followed by any text that does not start with a digit (such as "px" or ".8px") reads back as n, so a fractional size is truncated |
| Drawing.Surface.constructor | src/App.tsx:15-18 | initial state: not drawing, start (0, 0), no rectangles, next id 1; the invariant holds |
| Drawing.Surface.Toggle | src/App.tsx:66 | only `isDrawing` changes, to its negation; the invariant is kept |
| Drawing.Surface.MouseDown | src/App.tsx:21-26 | in drawing mode only `startPos` changes, to pointer minus origin; otherwise nothing changes |
| Drawing.Surface.MouseMove | src/App.tsx:28-42 | in drawing mode: length becomes 1 from empty and is unchanged otherwise; all but the last element are kept; the last becomes id `nextId`, the bounding box, empty text. Otherwise nothing changes. At most one rectangle remains |
| Drawing.Surface.MouseUp | src/App.tsx:44-49 | in drawing mode it clears `isDrawing` and advances `nextId` by one, keeping rectangles and start point; otherwise a no-op |
| Drawing.Surface.TextChange | src/App.tsx:51-56 | the list becomes `WithText` of the old list; the other fields are kept |
| Drawing.Surface.DragStop | src/App.tsx:74-79 | the list becomes `Moved` of the old list at the reported position; the other fields are kept |
| Drawing.Surface.ResizeStop | src/App.tsx:80-91 | the list becomes `Resized` of the old list, with the leading integers of the width and height styles; the other fields are kept |
| Drawing.DrawOnce | src/App.tsx:21-49 | toggle on, press at (10,10), move to (50,40), release: exactly [{1, 10, 10, 40, 30, ""}], next id 2, drawing off, for any surface origin |
| Drawing.EditDrawn | src/App.tsx:51-91 | after that draw, text "hello", drag to (100,5) and resize to "77.8px" by "20px" give [{1, 100, 5, 77, 20, "hello"}] |
| Drawing.DrawTwice | src/App.tsx:38-47 | a second draw cycle replaces the first rectangle: only id 2 remains, next id 3 |
| Drawing.ClickWithoutMove | src/App.tsx:44-49 | press and release without movement add no rectangle but advance the id to 2 |
| Drawing.ToggleOffMidDraw | src/App.tsx:28-42 | toggling off mid-drag keeps the half-drawn rectangle, with id still equal to `nextId` |

## Left out

- Rendering, CSS and the button and text-area markup (`src/App.tsx:58-103`) are presentation only.
- The `react-rnd` widget is a foreign library. Its drag-stop position and its resize-stop position and style strings are taken as plain inputs.
- `getBoundingClientRect` is I/O. The surface origin is a parameter of `MouseDown` and `MouseMove`.
- The `appRef.current` null check is not modelled. The ref is attached before the surface can receive any event, so the handlers always take the branch where it is set.
- Coordinates are JavaScript floating-point numbers. They are modelled as integers (whole pixels), and nothing in the handlers depends on fractions.
- Drawing.Surface.ResizeStop: requires both style strings to start with a digit, as react-rnd's `"<n>px"` sizes do. The NaN size that `parseInt` gives for any other string is not modelled.
- Style.LeadingInt: models only the digit-reading part of `parseInt`. Leading whitespace, a sign, a `0x` prefix and a radix are not modelled.
- React's asynchronous, batched state updates and the closures that capture an older `rectangles` list are not modelled. Each handler is one atomic transition on the current state.
- Event bubbling is not modelled. A press on the toggle button also reaches the surface's mouse handlers, and the caller picks the order of events.
