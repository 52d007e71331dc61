/**
 The view model as a whole session: `init` loads the board from disk, and
 every write to `elements`, `canvasScale` or `canvasOffset` runs the
 property observer that saves the elements. Each user intent is modelled as
 the mutation followed by that save, made explicit.
 */
module AutoSave {
  import opened Common
  import opened ElementModel
  import opened ViewModel
  import opened Persistence

  /** The files the app keeps: `board.json` and the `images` directory. */
  datatype Disk = Disk(document: DocumentFile, images: ImageStore)

  /** First launch: no document and an empty image directory. */
  const EmptyDisk: Disk := Disk(Missing, map[])

  datatype Session = Session(board: Board, disk: Disk)

  /**
   The mutation entry points of `BoardViewModel`, plus the canvas view's
   direct writes: a pan adds to `canvasOffset` (here the resulting offset),
   a finished pinch-zoom multiplies `canvasScale` by its magnification.
   */
  datatype Intent =
    | NewNote(noteId: Uuid)
    | NewList(listId: Uuid, itemId: Uuid)
    | NewPicture(imageId: Uuid, image: Bitmap)
    | Update(element: BoardElement)
    | Move(id: Uuid, translation: Size)
    | Rotate(id: Uuid, angle: real)
    | Scale(id: Uuid, factor: real)
    | Resize(id: Uuid, delta: Size, anchor: ResizeAnchor)
    | SetText(id: Uuid, text: string)
    | SetItems(id: Uuid, items: seq<TodoItem>)
    | ZoomInStep
    | ZoomOutStep
    | SetOffset(offset: Size)
    | Magnify(value: real)

  /** The in-memory effect of an intent. */
  function Apply(b: Board, intent: Intent): Board
  {
    match intent
    case NewNote(id) => b.(elements := AddStickyNote(b.elements, id))
    case NewList(id, itemId) => b.(elements := AddTodoList(b.elements, id, itemId))
    case NewPicture(id, image) => b.(elements := AddImage(b.elements, id, image))
    case Update(e) => b.(elements := UpdateElement(b.elements, e))
    case Move(id, t) => b.(elements := MoveElement(b.elements, id, t))
    case Rotate(id, a) => b.(elements := RotateElement(b.elements, id, a))
    case Scale(id, f) => b.(elements := ScaleElement(b.elements, id, f))
    case Resize(id, d, anchor) => b.(elements := ResizeElement(b.elements, id, d, anchor))
    case SetText(id, text) => b.(elements := SetNoteText(b.elements, id, text))
    case SetItems(id, items) => b.(elements := SetTodoItems(b.elements, id, items))
    case ZoomInStep => ZoomIn(b)
    case ZoomOutStep => ZoomOut(b)
    case SetOffset(o) => b.(canvasOffset := o)
    case Magnify(v) => b.(canvasScale := b.canvasScale * v)
  }

  /**
   Does the intent assign a published property, and so run its observer?
   Adds and canvas writes always do. An element intent returns early, before
   assigning `elements`, when the id is absent or, for a content edit, when
   the element is of another kind.
   */
  predicate Writes(b: Board, intent: Intent): (w: bool)
    ensures !w ==> Apply(b, intent) == b
    ensures intent.NewNote? || intent.NewList? || intent.NewPicture? ==> w
    ensures intent.ZoomInStep? || intent.ZoomOutStep? || intent.SetOffset? || intent.Magnify? ==> w
  {
    var es := b.elements;
    match intent
    case Update(e) => HasId(es, e.id)
    case Move(id, _) => HasId(es, id)
    case Rotate(id, _) => HasId(es, id)
    case Scale(id, _) => HasId(es, id)
    case Resize(id, _, _) => HasId(es, id)
    case SetText(id, _) => HasId(es, id) && es[IndexOf(es, id).value].StickyNoteModel?
    case SetItems(id, _) => HasId(es, id) && es[IndexOf(es, id).value].TodoListModel?
    case _ => true
  }

  /** An intent that assigns nothing leaves the board as it was. */
  lemma SilentIntentKeepsBoard(b: Board, intent: Intent)
    requires !Writes(b, intent)
    ensures Apply(b, intent) == b
  {
  }

  /** The document invariants the board keeps: unique ids and a positive zoom. */
  predicate Valid(b: Board)
  {
    UniqueIds(b.elements) && b.canvasScale > 0.0
  }

  /**
   What the callers guarantee: the id an adding intent introduces is not
   already on the board (`UUID()` is fresh), and a pinch-zoom's
   magnification is positive.
   */
  predicate Admissible(intent: Intent, b: Board)
  {
    match intent
    case NewNote(id) => !HasId(b.elements, id)
    case NewList(id, _) => !HasId(b.elements, id)
    case NewPicture(id, _) => !HasId(b.elements, id)
    case Magnify(v) => v > 0.0
    case _ => true
  }

  /** Every admissible intent keeps the board valid. */
  lemma ApplyKeepsValid(b: Board, intent: Intent)
    requires Valid(b) && Admissible(intent, b)
    ensures Valid(Apply(b, intent))
  {
    var es := b.elements;
    match intent {
      case Move(id, t) => SameLayoutKeepsIds(es, MoveElement(es, id, t), id);
      case Rotate(id, a) => SameLayoutKeepsIds(es, RotateElement(es, id, a), id);
      case Scale(id, f) => SameLayoutKeepsIds(es, ScaleElement(es, id, f), id);
      case Resize(id, d, anchor) => SameLayoutKeepsIds(es, ResizeElement(es, id, d, anchor), id);
      case SetText(id, text) => SameLayoutKeepsIds(es, SetNoteText(es, id, text), id);
      case SetItems(id, items) => SameLayoutKeepsIds(es, SetTodoItems(es, id, items), id);
      case _ =>
    }
  }

  /** The property observers' `save(elements:)`: rewrite the document, add missing blobs. */
  function Persist(es: seq<BoardElement>, disk: Disk, png: PngEncoder): Disk
  {
    var (records, images) := Save(es, disk.images, png);
    Disk(Decoded(records), images)
  }

  /** The disk holds the board's elements: the document lists them and every encodable picture has its file. */
  predicate Synced(s: Session, png: PngEncoder)
  {
    && s.disk.document == Decoded(Records(s.board.elements))
    && forall i :: 0 <= i < |s.board.elements| && Encodes(s.board.elements[i], png) ==>
         ImageFilename(s.board.elements[i].id) in s.disk.images
  }

  /**
   One intent: mutate, then save if a published property was assigned. After
   a write the disk is in sync with the new board; an intent that writes
   nothing leaves board and disk alone, so a synced session stays synced. No
   image file that existed before is ever removed or changed, and the only
   new files are those of pictures on the new board that encode.
   */
  function Step(s: Session, intent: Intent, png: PngEncoder): (r: Session)
    ensures r.board == Apply(s.board, intent)
    ensures Writes(s.board, intent) ==> Synced(r, png)
    ensures !Writes(s.board, intent) ==> r == s
    ensures Synced(s, png) ==> Synced(r, png)
    ensures s.disk.images.Keys <= r.disk.images.Keys
    ensures forall f :: f in s.disk.images ==> r.disk.images[f] == s.disk.images[f]
    ensures forall f :: f in r.disk.images && f !in s.disk.images ==>
      exists i :: 0 <= i < |r.board.elements| && Encodes(r.board.elements[i], png)
                  && ImageFilename(r.board.elements[i].id) == f
  {
    if Writes(s.board, intent) then
      var b := Apply(s.board, intent);
      Session(b, Persist(b.elements, s.disk, png))
    else
      SilentIntentKeepsBoard(s.board, intent);
      s
  }

  /**
   Moving an element that is not on the board writes nothing: a corrupt
   document stays on disk instead of being replaced by an empty one.
   */
  lemma MissedEditLeavesDisk(x: Uuid, png: PngEncoder)
    ensures var s := Session(InitialBoard, Disk(Corrupt, map[]));
      Step(s, Move(x, Size(1.0, 1.0)), png).disk.document == Corrupt
  {
  }

  /**
   Zooming and panning also trigger a save, but `save` writes only the
   elements: on a synced session the save rewrites exactly what is on disk.
   */
  lemma CanvasChangeRewritesSameDisk(s: Session, intent: Intent, png: PngEncoder)
    requires intent.ZoomInStep? || intent.ZoomOutStep? || intent.SetOffset? || intent.Magnify?
    requires Synced(s, png)
    ensures Step(s, intent, png).disk == s.disk
  {
    WriteImagesSettled(s.board.elements, s.disk.images, png);
  }

  /** `init()`: a fresh view model loads its elements; the canvas transform starts at identity. */
  function Open(disk: Disk, decode: ImageDecoder, supply: ItemIdSupply): (b: Board)
    ensures b.canvasScale == 1.0 && b.canvasOffset == Size(0.0, 0.0)
    ensures !disk.document.Decoded? ==> b == InitialBoard
    ensures disk.document.Decoded? ==> |b.elements| == |disk.document.records|
    ensures disk.document.Decoded? ==> forall i :: 0 <= i < |b.elements| ==>
      b.elements[i] == Restore(disk.document.records[i], disk.images, decode, (k: nat) => supply(i, k))
  {
    Board(Load(disk.document, disk.images, decode, supply), 1.0, Size(0.0, 0.0))
  }

  /**
   After any intent, reopening the app restores the elements up to todo-item
   ids, while zoom and pan are back at their initial values. An intent that
   writes nothing relies on the disk already being in sync.
   */
  lemma ReopenAfterStep(s: Session, intent: Intent, png: PngEncoder, decode: ImageDecoder, supply: ItemIdSupply)
    requires Valid(s.board) && Admissible(intent, s.board)
    requires Writes(s.board, intent) || Synced(s, png)
    requires BlobsRecoverable(Apply(s.board, intent).elements, s.disk.images, png, decode)
    ensures var t := Step(s, intent, png);
      var o := Open(t.disk, decode, supply);
      && EraseAllItemIds(o.elements) == EraseAllItemIds(t.board.elements)
      && o.canvasScale == 1.0 && o.canvasOffset == Size(0.0, 0.0)
  {
    ApplyKeepsValid(s.board, intent);
    var es := Apply(s.board, intent).elements;
    SaveLoadRoundTrip(es, s.disk.images, png, decode, supply);
    if !Writes(s.board, intent) {
      SilentIntentKeepsBoard(s.board, intent);
      assert Step(s, intent, png) == s;
      WriteImagesSettled(es, s.disk.images, png);
      assert s.disk.document == Decoded(Records(es));
    }
  }

  /**
   Add a sticky note to an empty board, set its text to "Buy milk", and
   reopen: the board holds one sticky note reading "Buy milk".
   */
  lemma BuyMilkSurvivesReopen(id: Uuid, png: PngEncoder, decode: ImageDecoder, supply: ItemIdSupply)
    ensures var s1 := Step(Session(InitialBoard, EmptyDisk), NewNote(id), png);
      var s2 := Step(s1, SetText(id, "Buy milk"), png);
      var o := Open(s2.disk, decode, supply);
      && |o.elements| == 1
      && o.elements[0].Kind() == StickyNote
      && o.elements[0].text == "Buy milk"
  {
    var s1 := Step(Session(InitialBoard, EmptyDisk), NewNote(id), png);
    assert s1.board.elements == [NewStickyNote(id)];
    assert IndexOf(s1.board.elements, id) == Some(0);
    var s2 := Step(s1, SetText(id, "Buy milk"), png);
    assert s2.board.elements[0].text == "Buy milk";
  }

  /**
   Emptying a todo list is kept: after `setTodoItems` with no items and a
   reopen, that list has zero items, not a restored default item.
   */
  lemma EmptiedListStaysEmpty(s: Session, id: Uuid, png: PngEncoder, decode: ImageDecoder, supply: ItemIdSupply)
    requires HasId(s.board.elements, id) && s.board.elements[IndexOf(s.board.elements, id).value].TodoListModel?
    ensures var t := Step(s, SetItems(id, []), png);
      var o := Open(t.disk, decode, supply);
      var i := IndexOf(s.board.elements, id).value;
      && i < |o.elements|
      && o.elements[i].TodoListModel?
      && o.elements[i].items == []
  {
    var i := IndexOf(s.board.elements, id).value;
    var t := Step(s, SetItems(id, []), png);
    assert t.board.elements[i].items == [];
    assert Records(t.board.elements)[i].items == Some([]);
  }
}
