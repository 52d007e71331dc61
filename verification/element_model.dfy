/**
 The board's element model: a closed set of three element kinds sharing one
 geometry record (centre position, size, rotation) and each carrying its own
 payload. Swift's `any BoardElement` existential over three structs becomes one
 datatype with a constructor per struct, so every `switch` over it is
 exhaustive by construction.
 */
module ElementModel {
  import opened Common

  /** The element kinds; `rawValue` is the text used in the persisted document. */
  datatype BoardElementKind = StickyNote | TodoList | Image {

    function RawValue(): string
    {
      match this
      case StickyNote => "stickyNote"
      case TodoList => "todoList"
      case Image => "image"
    }
  }

  /** The palette shared by sticky notes and todo lists. */
  datatype BoardColor = Yellow | Orange | Pink | Blue | Green {

    function RawValue(): string
    {
      match this
      case Yellow => "yellow"
      case Orange => "orange"
      case Pink => "pink"
      case Blue => "blue"
      case Green => "green"
    }
  }

  /** `BoardElementKind.allCases`: every kind exactly once, in declaration order. */
  function AllKinds(): (ks: seq<BoardElementKind>)
    ensures |ks| == 3
    ensures forall k: BoardElementKind :: k in ks
    ensures forall i, j :: 0 <= i < j < |ks| ==> ks[i] != ks[j]
  {
    var ks := [StickyNote, TodoList, Image];
    forall k: BoardElementKind ensures k in ks {
      assert k == ks[0] || k == ks[1] || k == ks[2];
    }
    ks
  }

  /** `BoardColor.allCases`: every colour exactly once, in declaration order. */
  function AllColors(): (cs: seq<BoardColor>)
    ensures |cs| == 5
    ensures forall c: BoardColor :: c in cs
    ensures forall i, j :: 0 <= i < j < |cs| ==> cs[i] != cs[j]
  {
    var cs := [Yellow, Orange, Pink, Blue, Green];
    forall c: BoardColor ensures c in cs {
      assert c == cs[0] || c == cs[1] || c == cs[2] || c == cs[3] || c == cs[4];
    }
    cs
  }

  /** Decoding a kind from its raw text, as the synthesised `Codable` conformance does. */
  function KindFromRaw(s: string): (k: Option<BoardElementKind>)
    ensures k.Some? ==> k.value.RawValue() == s
    ensures k.None? ==> forall c: BoardElementKind :: c.RawValue() != s
  {
    if s == "stickyNote" then Some(StickyNote)
    else if s == "todoList" then Some(TodoList)
    else if s == "image" then Some(Image)
    else None
  }

  /** Decoding a colour from its raw text. */
  function ColorFromRaw(s: string): (c: Option<BoardColor>)
    ensures c.Some? ==> c.value.RawValue() == s
    ensures c.None? ==> forall d: BoardColor :: d.RawValue() != s
  {
    if s == "yellow" then Some(Yellow)
    else if s == "orange" then Some(Orange)
    else if s == "pink" then Some(Pink)
    else if s == "blue" then Some(Blue)
    else if s == "green" then Some(Green)
    else None
  }

  /** Raw values identify their cases: decoding an encoded kind or colour gives it back. */
  lemma RawValuesRoundTrip(k: BoardElementKind, c: BoardColor)
    ensures KindFromRaw(k.RawValue()) == Some(k)
    ensures ColorFromRaw(c.RawValue()) == Some(c)
  {
  }

  /** A point in board coordinates (`CGPoint`). */
  datatype Point = Point(x: real, y: real)

  /** A size, also used for translations and resize deltas (`CGSize`). */
  datatype Size = Size(width: real, height: real)

  /**
   The geometry every element shares. `angle` is the clockwise rotation in
   degrees: the persisted document stores degrees, and Swift's `Angle` converts
   between units losslessly in this exact-arithmetic model.
   */
  datatype Geometry = Geometry(position: Point, size: Size, angle: real)

  const Origin: Point := Point(0.0, 0.0)

  /** Decoded pixel data held in memory (`UIImage`). */
  datatype Bitmap = Bitmap(pixels: Bytes)

  datatype TodoItem = TodoItem(id: Uuid, title: string, isDone: bool)

  /** One element on the board; each constructor mirrors one Swift struct. */
  datatype BoardElement =
    | StickyNoteModel(id: Uuid, geometry: Geometry, title: string, text: string, style: BoardColor)
    | TodoListModel(id: Uuid, geometry: Geometry, title: string, items: seq<TodoItem>, style: BoardColor)
    | ImageElementModel(id: Uuid, geometry: Geometry, title: string, uiImage: Option<Bitmap>)
  {
    /** The computed `kind` property: fixed by the variant. */
    function Kind(): (k: BoardElementKind)
      ensures k == StickyNote <==> this.StickyNoteModel?
      ensures k == TodoList <==> this.TodoListModel?
      ensures k == Image <==> this.ImageElementModel?
    {
      match this
      case StickyNoteModel(_, _, _, _, _) => StickyNote
      case TodoListModel(_, _, _, _, _) => TodoList
      case ImageElementModel(_, _, _, _) => Image
    }
  }

  /** `StickyNoteModel()` with its declared defaults and the given id. */
  function NewStickyNote(id: Uuid): BoardElement
  {
    StickyNoteModel(id, Geometry(Origin, Size(160.0, 160.0), 0.0), "Note", "New Note", Yellow)
  }

  /** `TodoItem(title:)` with `isDone` defaulting to false. */
  function NewTodoItem(id: Uuid, title: string): TodoItem
  {
    TodoItem(id, title, false)
  }

  /** `TodoListModel()`; `itemId` is the id generated for its single default item. */
  function NewTodoList(id: Uuid, itemId: Uuid): BoardElement
  {
    TodoListModel(id, Geometry(Origin, Size(200.0, 220.0), 0.0), "List", [NewTodoItem(itemId, "New Item")], Yellow)
  }

  /** `ImageElementModel()`: no image yet. */
  function NewImage(id: Uuid): BoardElement
  {
    ImageElementModel(id, Geometry(Origin, Size(240.0, 240.0), 0.0), "Image", None)
  }

  /** The smallest side length a resize may leave (the 60-point floor). */
  const MinSide: real := 60.0

  predicate AboveFloor(s: Size)
  {
    s.width >= MinSide && s.height >= MinSide
  }

  /**
   Every freshly constructed element sits upright at the origin, carries the
   requested id, has the kind of its constructor, and already respects the
   60-point floor; the per-kind defaults are as declared.
   */
  lemma DefaultElements(id: Uuid, itemId: Uuid)
    ensures var n := NewStickyNote(id);
      && n.id == id && n.Kind() == StickyNote && AboveFloor(n.geometry.size)
      && n.geometry == Geometry(Origin, Size(160.0, 160.0), 0.0)
      && n.title == "Note" && n.text == "New Note" && n.style == Yellow
    ensures var l := NewTodoList(id, itemId);
      && l.id == id && l.Kind() == TodoList && AboveFloor(l.geometry.size)
      && l.geometry == Geometry(Origin, Size(200.0, 220.0), 0.0)
      && l.title == "List" && l.style == Yellow
      && |l.items| == 1 && l.items[0].title == "New Item" && !l.items[0].isDone
    ensures var m := NewImage(id);
      && m.id == id && m.Kind() == Image && AboveFloor(m.geometry.size)
      && m.geometry == Geometry(Origin, Size(240.0, 240.0), 0.0)
      && m.title == "Image" && m.uiImage == None
  {
  }

  /**
   Swift `==` on elements: the synthesised memberwise equality for sticky
   notes, todo lists and todo items, but identity-only equality for image
   elements (their custom `==` compares `id` alone). Elements of different
   kinds are never equal.
   */
  predicate Same(a: BoardElement, b: BoardElement)
  {
    if a.ImageElementModel? && b.ImageElementModel? then a.id == b.id
    else a == b
  }

  /**
   Image elements compare by id alone: moving, resizing, retitling or
   replacing the picture of an image element leaves it `==` to the original,
   while any change to a note or list makes it unequal. `Same` is an
   equivalence relation and implies equal ids for every kind.
   */
  lemma SameSemantics(a: BoardElement, b: BoardElement, c: BoardElement)
    ensures Same(a, a)
    ensures Same(a, b) ==> Same(b, a)
    ensures Same(a, b) && Same(b, c) ==> Same(a, c)
    ensures Same(a, b) ==> a.id == b.id && a.Kind() == b.Kind()
    ensures a.ImageElementModel? && b.ImageElementModel? ==> (Same(a, b) <==> a.id == b.id)
    ensures !a.ImageElementModel? ==> (Same(a, b) <==> a == b)
  {
  }

  /** Some element on the board carries `id`. */
  predicate HasId(es: seq<BoardElement>, id: Uuid)
  {
    exists k :: 0 <= k < |es| && es[k].id == id
  }

  /** The document invariant: no two elements share an id. */
  predicate UniqueIds(es: seq<BoardElement>)
  {
    forall i, j :: 0 <= i < j < |es| ==> es[i].id != es[j].id
  }
}
