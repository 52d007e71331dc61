/**
 The mutation engine of `BoardViewModel`. Every element operation looks the
 element up by id (first match), edits a copy and writes it back at the same
 index; an absent id, or an element of the wrong kind for a content edit, is
 a silent no-op. The element array is a `seq<BoardElement>`; the canvas
 transform lives next to it in `Board`.
 */
module ViewModel {
  import opened Common
  import opened ElementModel

  /** The corner handle being dragged during a resize. */
  datatype ResizeAnchor = TopLeft | TopRight | BottomLeft | BottomRight

  /** The factor one `zoomIn` multiplies, and one `zoomOut` divides, the canvas scale by. */
  const ZoomStep: real := 1.2

  /** The published, persisted-or-saving state of the view model (selection is left out). */
  datatype Board = Board(elements: seq<BoardElement>, canvasScale: real, canvasOffset: Size)

  /** The state a fresh `BoardViewModel` starts from before loading. */
  const InitialBoard: Board := Board([], 1.0, Size(0.0, 0.0))

  /**
   `elements.firstIndex(where: { $0.id == id })`, which also serves
   `index(for:)`: the position of the first element carrying `id`, if any.
   */
  function IndexOf(es: seq<BoardElement>, id: Uuid): (r: Option<nat>)
    ensures r.Some? ==> r.value < |es| && es[r.value].id == id
    ensures r.Some? ==> forall j :: 0 <= j < r.value ==> es[j].id != id
    ensures r.None? <==> !HasId(es, id)
    decreases |es|
  {
    if |es| == 0 then None
    else if es[0].id == id then Some(0)
    else
      match IndexOf(es[1..], id)
      case None => None
      case Some(k) => Some(k + 1)
  }

  /** Lookup depends only on the sequence of ids. */
  lemma {:induction false} IndexOfOnlyReadsIds(es: seq<BoardElement>, r: seq<BoardElement>, id: Uuid)
    requires |r| == |es|
    requires forall k :: 0 <= k < |es| ==> r[k].id == es[k].id
    ensures IndexOf(r, id) == IndexOf(es, id)
    decreases |es|
  {
    if |es| > 0 && es[0].id != id {
      IndexOfOnlyReadsIds(es[1..], r[1..], id);
    }
  }

  /** Same length, and every position keeps its element's id and kind. */
  predicate SameLayout(es: seq<BoardElement>, r: seq<BoardElement>)
  {
    && |r| == |es|
    && forall k :: 0 <= k < |es| ==> r[k].id == es[k].id && r[k].Kind() == es[k].Kind()
  }

  /** Every element except the first one carrying `id` is unchanged. */
  predicate OnlyAt(es: seq<BoardElement>, r: seq<BoardElement>, id: Uuid)
  {
    && |r| == |es|
    && forall k :: 0 <= k < |es| && IndexOf(es, id) != Some(k) ==> r[k] == es[k]
  }

  /** A layout-preserving mutation keeps ids unique and lookups stable. */
  lemma SameLayoutKeepsIds(es: seq<BoardElement>, r: seq<BoardElement>, id: Uuid)
    requires SameLayout(es, r)
    ensures UniqueIds(es) ==> UniqueIds(r)
    ensures IndexOf(r, id) == IndexOf(es, id)
  {
    IndexOfOnlyReadsIds(es, r, id);
  }

  /** The shared look-up / copy / write-back step: `edit` the first element carrying `id`. */
  function EditFirst(es: seq<BoardElement>, id: Uuid, edit: BoardElement -> BoardElement): (r: seq<BoardElement>)
    ensures OnlyAt(es, r, id)
    ensures !HasId(es, id) ==> r == es
    ensures HasId(es, id) ==> r[IndexOf(es, id).value] == edit(es[IndexOf(es, id).value])
  {
    match IndexOf(es, id)
    case None => es
    case Some(i) => es[i := edit(es[i])]
  }

  /** `updateElement`: overwrite the first element whose id matches `updated.id`. */
  function UpdateElement(es: seq<BoardElement>, updated: BoardElement): (r: seq<BoardElement>)
    ensures |r| == |es|
    ensures forall k :: 0 <= k < |es| ==> r[k].id == es[k].id
    ensures OnlyAt(es, r, updated.id)
    ensures HasId(es, updated.id) ==> r[IndexOf(es, updated.id).value] == updated
    ensures HasId(es, updated.id) <==> updated in r
    ensures !HasId(es, updated.id) ==> r == es
  {
    EditFirst(es, updated.id, _ => updated)
  }

  /**
   Reading back after `updateElement`: looking the id up again finds the same
   position, now holding the replacement, even when it is of another kind.
   */
  lemma UpdateReadBack(es: seq<BoardElement>, updated: BoardElement)
    requires HasId(es, updated.id)
    ensures var r := UpdateElement(es, updated);
      IndexOf(r, updated.id) == IndexOf(es, updated.id) && r[IndexOf(r, updated.id).value] == updated
  {
    IndexOfOnlyReadsIds(es, UpdateElement(es, updated), updated.id);
  }

  function Translate(p: Point, t: Size): Point
  {
    Point(p.x + t.width, p.y + t.height)
  }

  /** `moveElement(id:by:)`: shift the centre by the translation, any kind. */
  function MoveElement(es: seq<BoardElement>, id: Uuid, t: Size): (r: seq<BoardElement>)
    ensures SameLayout(es, r) && OnlyAt(es, r, id)
    ensures !HasId(es, id) ==> r == es
    ensures HasId(es, id) ==>
      var i := IndexOf(es, id).value;
      && r[i] == es[i].(geometry := r[i].geometry)
      && r[i].geometry.size == es[i].geometry.size
      && r[i].geometry.angle == es[i].geometry.angle
      && r[i].geometry.position.x - es[i].geometry.position.x == t.width
      && r[i].geometry.position.y - es[i].geometry.position.y == t.height
  {
    EditFirst(es, id, (e: BoardElement) => e.(geometry := e.geometry.(position := Translate(e.geometry.position, t))))
  }

  /** A drag back by the opposite translation restores the whole element array. */
  lemma MoveInverse(es: seq<BoardElement>, id: Uuid, t: Size)
    ensures MoveElement(MoveElement(es, id, t), id, Size(-t.width, -t.height)) == es
  {
    var m := MoveElement(es, id, t);
    var back := MoveElement(m, id, Size(-t.width, -t.height));
    SameLayoutKeepsIds(es, m, id);
    if HasId(es, id) {
      var i := IndexOf(es, id).value;
      assert back[i] == es[i];
      assert forall k :: 0 <= k < |es| ==> back[k] == es[k];
    }
  }

  /** `rotateElement(id:to:)`: set the angle to the absolute value given, any kind. */
  function RotateElement(es: seq<BoardElement>, id: Uuid, angle: real): (r: seq<BoardElement>)
    ensures SameLayout(es, r) && OnlyAt(es, r, id)
    ensures !HasId(es, id) ==> r == es
    ensures HasId(es, id) ==>
      var i := IndexOf(es, id).value;
      && r[i] == es[i].(geometry := r[i].geometry)
      && r[i].geometry.angle == angle
      && r[i].geometry.size == es[i].geometry.size
      && r[i].geometry.position == es[i].geometry.position
  {
    EditFirst(es, id, (e: BoardElement) => e.(geometry := e.geometry.(angle := angle)))
  }

  /**
   Rotation is absolute, not cumulative: the last angle set wins, so setting
   the same angle twice is the same as setting it once.
   */
  lemma RotateLastWins(es: seq<BoardElement>, id: Uuid, a: real, b: real)
    ensures RotateElement(RotateElement(es, id, a), id, b) == RotateElement(es, id, b)
    ensures RotateElement(RotateElement(es, id, a), id, a) == RotateElement(es, id, a)
  {
    var once := RotateElement(es, id, a);
    SameLayoutKeepsIds(es, once, id);
    var r1 := RotateElement(once, id, b);
    var r2 := RotateElement(es, id, b);
    if HasId(es, id) {
      assert forall k :: 0 <= k < |es| ==> r1[k] == r2[k];
    }
  }

  /** Both sides multiplied by the factor. */
  function ScaleSize(s: Size, factor: real): Size
  {
    Size(s.width * factor, s.height * factor)
  }

  /** `scaleElement(id:by:)`: multiply both sides by the factor, with no floor. */
  function ScaleElement(es: seq<BoardElement>, id: Uuid, factor: real): (r: seq<BoardElement>)
    ensures SameLayout(es, r) && OnlyAt(es, r, id)
    ensures !HasId(es, id) ==> r == es
    ensures HasId(es, id) ==>
      var i := IndexOf(es, id).value;
      && r[i] == es[i].(geometry := r[i].geometry)
      && r[i].geometry.size == ScaleSize(es[i].geometry.size, factor)
      && r[i].geometry.position == es[i].geometry.position
      && r[i].geometry.angle == es[i].geometry.angle
  {
    EditFirst(es, id, (e: BoardElement) => e.(geometry := e.geometry.(size := ScaleSize(e.geometry.size, factor))))
  }

  /**
   Pinch-scaling ignores the 60-point floor that resizing enforces: a quarter
   scale of a fresh sticky note leaves it 40 x 40.
   */
  lemma ScaleIgnoresFloor(id: Uuid)
    ensures var r := ScaleElement([NewStickyNote(id)], id, 0.25);
      r[0].geometry.size == Size(40.0, 40.0) && !AboveFloor(r[0].geometry.size)
  {
    var r := ScaleElement([NewStickyNote(id)], id, 0.25);
    assert IndexOf([NewStickyNote(id)], id) == Some(0);
  }

  lemma ScaleSizeTwice(s: Size, a: real, b: real)
    ensures ScaleSize(ScaleSize(s, a), b) == ScaleSize(s, a * b)
  {
    assert s.width * a * b == s.width * (a * b);
    assert s.height * a * b == s.height * (a * b);
  }

  /** Two pinch scalings in a row are one scaling by the product of the factors. */
  lemma ScaleTwice(es: seq<BoardElement>, id: Uuid, a: real, b: real)
    ensures ScaleElement(ScaleElement(es, id, a), id, b) == ScaleElement(es, id, a * b)
  {
    var once := ScaleElement(es, id, a);
    SameLayoutKeepsIds(es, once, id);
    var r1 := ScaleElement(once, id, b);
    var r2 := ScaleElement(es, id, a * b);
    if HasId(es, id) {
      var i := IndexOf(es, id).value;
      ScaleSizeTwice(es[i].geometry.size, a, b);
      assert r1[i] == r2[i];
      assert forall k :: 0 <= k < |es| ==> r1[k] == r2[k];
    }
  }

  /** Scaling by 1 changes nothing. */
  lemma ScaleByOne(es: seq<BoardElement>, id: Uuid)
    ensures ScaleElement(es, id, 1.0) == es
  {
    var r := ScaleElement(es, id, 1.0);
    if HasId(es, id) {
      assert forall k :: 0 <= k < |es| ==> r[k] == es[k];
    }
  }

  /** Scaling by two factors whose product is 1 restores the array. */
  lemma ScaleUndone(es: seq<BoardElement>, id: Uuid, a: real, b: real)
    requires a * b == 1.0
    ensures ScaleElement(ScaleElement(es, id, a), id, b) == es
  {
    ScaleTwice(es, id, a, b);
    ScaleByOne(es, id);
  }

  /** Scaling by a non-zero factor and then by its reciprocal restores the array. */
  lemma ScaleInverse(es: seq<BoardElement>, id: Uuid, factor: real)
    requires factor != 0.0
    ensures ScaleElement(ScaleElement(es, id, factor), id, 1.0 / factor) == es
  {
    ScaleUndone(es, id, factor, 1.0 / factor);
  }

  function Max(a: real, b: real): real
  {
    if a >= b then a else b
  }

  /** +1 when the dragged handle is on the right edge, -1 on the left. */
  function WidthSign(anchor: ResizeAnchor): real
  {
    if anchor == BottomRight || anchor == TopRight then 1.0 else -1.0
  }

  /** +1 when the dragged handle is on the bottom edge, -1 on the top. */
  function HeightSign(anchor: ResizeAnchor): real
  {
    if anchor == BottomRight || anchor == BottomLeft then 1.0 else -1.0
  }

  /**
   The nested `applyResize` of `resizeElement`: each side grows by the drag
   component in the direction of its handle, then is floored at 60 points on
   its own; the centre moves by half the drag whatever the anchor.
   */
  function ApplyResize(size: Size, position: Point, delta: Size, anchor: ResizeAnchor): (r: (Size, Point))
    ensures AboveFloor(r.0)
    ensures r.0.width == Max(MinSide, size.width + WidthSign(anchor) * delta.width)
    ensures r.0.height == Max(MinSide, size.height + HeightSign(anchor) * delta.height)
    ensures r.1.x - position.x == delta.width / 2.0 && r.1.y - position.y == delta.height / 2.0
  {
    var (dWidth, dHeight) :=
      match anchor
      case BottomRight => (delta.width, delta.height)
      case TopLeft => (-delta.width, -delta.height)
      case TopRight => (delta.width, -delta.height)
      case BottomLeft => (-delta.width, delta.height);
    (Size(Max(MinSide, size.width + dWidth), Max(MinSide, size.height + dHeight)),
     Point(position.x + delta.width / 2.0, position.y + delta.height / 2.0))
  }

  /** The corner diagonally opposite the dragged handle. */
  function OppositeCorner(anchor: ResizeAnchor, size: Size, position: Point): Point
  {
    Point(position.x - WidthSign(anchor) * size.width / 2.0, position.y - HeightSign(anchor) * size.height / 2.0)
  }

  /**
   While neither side hits the floor, a resize keeps the corner opposite the
   dragged handle exactly where it was, for all four anchors.
   */
  lemma ResizeKeepsOppositeCorner(size: Size, position: Point, delta: Size, anchor: ResizeAnchor)
    requires size.width + WidthSign(anchor) * delta.width >= MinSide
    requires size.height + HeightSign(anchor) * delta.height >= MinSide
    ensures var (s, p) := ApplyResize(size, position, delta, anchor);
      OppositeCorner(anchor, s, p) == OppositeCorner(anchor, size, position)
  {
    var (s, p) := ApplyResize(size, position, delta, anchor);
    var sx, sy := WidthSign(anchor), HeightSign(anchor);
    assert sx * sx == 1.0 && sy * sy == 1.0;
    assert s.width == size.width + sx * delta.width;
    assert s.height == size.height + sy * delta.height;
    calc {
      p.x - sx * s.width / 2.0;
      position.x + delta.width / 2.0 - sx * (size.width + sx * delta.width) / 2.0;
      position.x + delta.width / 2.0 - sx * size.width / 2.0 - (sx * sx) * delta.width / 2.0;
      position.x - sx * size.width / 2.0;
    }
    calc {
      p.y - sy * s.height / 2.0;
      position.y + delta.height / 2.0 - sy * (size.height + sy * delta.height) / 2.0;
      position.y + delta.height / 2.0 - sy * size.height / 2.0 - (sy * sy) * delta.height / 2.0;
      position.y - sy * size.height / 2.0;
    }
  }

  /**
   Once a side is at the floor the centre still moves by half the drag, so
   the opposite corner drifts: a 60 x 60 element at the origin dragged by
   (-10, -10) on its bottom-right handle stays 60 x 60 but its top-left
   corner moves from (-30, -30) to (-35, -35).
   */
  lemma ClampedResizeDrifts()
    ensures var (s, p) := ApplyResize(Size(60.0, 60.0), Origin, Size(-10.0, -10.0), BottomRight);
      && s == Size(60.0, 60.0)
      && OppositeCorner(BottomRight, Size(60.0, 60.0), Origin) == Point(-30.0, -30.0)
      && OppositeCorner(BottomRight, s, p) == Point(-35.0, -35.0)
  {
  }

  /** `resizeElement(id:by:anchor:)`: apply `ApplyResize` to the element's size and centre. */
  function ResizeElement(es: seq<BoardElement>, id: Uuid, delta: Size, anchor: ResizeAnchor): (r: seq<BoardElement>)
    ensures SameLayout(es, r) && OnlyAt(es, r, id)
    ensures !HasId(es, id) ==> r == es
    ensures HasId(es, id) ==>
      var i := IndexOf(es, id).value;
      && r[i] == es[i].(geometry := r[i].geometry)
      && AboveFloor(r[i].geometry.size)
      && (r[i].geometry.size, r[i].geometry.position)
         == ApplyResize(es[i].geometry.size, es[i].geometry.position, delta, anchor)
      && r[i].geometry.angle == es[i].geometry.angle
  {
    EditFirst(es, id, (e: BoardElement) =>
      var (s, p) := ApplyResize(e.geometry.size, e.geometry.position, delta, anchor);
      e.(geometry := e.geometry.(size := s, position := p)))
  }

  /** Shrinking a 160 x 160 note by (-200, -200) from its bottom-right handle floors it at exactly 60 x 60. */
  lemma ResizeClampsAtFloor(id: Uuid)
    ensures var r := ResizeElement([NewStickyNote(id)], id, Size(-200.0, -200.0), BottomRight);
      r[0].geometry.size == Size(60.0, 60.0)
  {
    assert IndexOf([NewStickyNote(id)], id) == Some(0);
  }

  /** `setNoteText(id:text:)`: replace a sticky note's text; any other kind is left alone. */
  function SetNoteText(es: seq<BoardElement>, id: Uuid, text: string): (r: seq<BoardElement>)
    ensures SameLayout(es, r) && OnlyAt(es, r, id)
    ensures !HasId(es, id) || !es[IndexOf(es, id).value].StickyNoteModel? ==> r == es
    ensures HasId(es, id) && es[IndexOf(es, id).value].StickyNoteModel? ==>
      var i := IndexOf(es, id).value;
      r[i].text == text && r[i] == es[i].(text := r[i].text)
  {
    EditFirst(es, id, (e: BoardElement) => if e.StickyNoteModel? then e.(text := text) else e)
  }

  /**
   `setTodoItems(id:items:)`: replace a todo list's whole item sequence (an
   empty one included); any other kind is left alone.
   */
  function SetTodoItems(es: seq<BoardElement>, id: Uuid, items: seq<TodoItem>): (r: seq<BoardElement>)
    ensures SameLayout(es, r) && OnlyAt(es, r, id)
    ensures !HasId(es, id) || !es[IndexOf(es, id).value].TodoListModel? ==> r == es
    ensures HasId(es, id) && es[IndexOf(es, id).value].TodoListModel? ==>
      var i := IndexOf(es, id).value;
      r[i].items == items && r[i] == es[i].(items := r[i].items)
  {
    EditFirst(es, id, (e: BoardElement) => if e.TodoListModel? then e.(items := items) else e)
  }

  /** Appending one element with a fresh id: one more element, at the end, ids still unique. */
  predicate AppendedFresh(es: seq<BoardElement>, r: seq<BoardElement>, e: BoardElement)
  {
    && |r| == |es| + 1
    && r[..|es|] == es
    && r[|es|] == e
    && (UniqueIds(es) && !HasId(es, e.id) ==> UniqueIds(r))
  }

  /** `addStickyNote()`: append a default sticky note; `id` stands for the generated `UUID()`. */
  function AddStickyNote(es: seq<BoardElement>, id: Uuid): (r: seq<BoardElement>)
    ensures AppendedFresh(es, r, NewStickyNote(id))
  {
    es + [NewStickyNote(id)]
  }

  /** `addTodoList()`: append a default todo list; `itemId` is its default item's generated id. */
  function AddTodoList(es: seq<BoardElement>, id: Uuid, itemId: Uuid): (r: seq<BoardElement>)
    ensures AppendedFresh(es, r, NewTodoList(id, itemId))
  {
    es + [NewTodoList(id, itemId)]
  }

  /** `addImage(_:)`: append a default image element holding the picked picture. */
  function AddImage(es: seq<BoardElement>, id: Uuid, image: Bitmap): (r: seq<BoardElement>)
    ensures AppendedFresh(es, r, ImageElementModel(id, NewImage(id).geometry, NewImage(id).title, Some(image)))
  {
    var blank := NewImage(id);
    es + [ImageElementModel(blank.id, blank.geometry, blank.title, Some(image))]
  }

  /** `zoomIn()`: only the canvas scale changes, growing by a fifth, and it stays positive. */
  function ZoomIn(b: Board): (r: Board)
    ensures r.elements == b.elements && r.canvasOffset == b.canvasOffset
    ensures r.canvasScale == b.canvasScale * 6.0 / 5.0
    ensures b.canvasScale > 0.0 ==> r.canvasScale > b.canvasScale > 0.0
  {
    b.(canvasScale := b.canvasScale * ZoomStep)
  }

  /** `zoomOut()`: only the canvas scale changes, to five sixths of itself, and it stays positive. */
  function ZoomOut(b: Board): (r: Board)
    ensures r.elements == b.elements && r.canvasOffset == b.canvasOffset
    ensures r.canvasScale == b.canvasScale * 5.0 / 6.0
    ensures b.canvasScale > 0.0 ==> 0.0 < r.canvasScale < b.canvasScale
  {
    b.(canvasScale := b.canvasScale / ZoomStep)
  }

  /** Zooming out undoes zooming in and vice versa, exactly. */
  lemma ZoomRoundTrip(b: Board)
    ensures ZoomOut(ZoomIn(b)) == b
    ensures ZoomIn(ZoomOut(b)) == b
  {
  }
}
