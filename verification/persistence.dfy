/**
 `BoardPersistence`: the mapping between elements and the flat records of
 the board document, and the side store of image files.

 The JSON document is modelled by the records it encodes; reading it back
 yields `Decoded(records)`, or `Missing` / `Corrupt` when the file is absent
 or does not decode. The image directory is a map from file name to bytes.
 PNG encoding (`pngData()`) and image decoding (`UIImage(data:)`) are partial
 functions passed in, and the `UUID()`s that `load` generates for todo items
 come from an id supply.
 */
module Persistence {
  import opened Common
  import opened ElementModel

  datatype PersistableTodoItem = PersistableTodoItem(title: string, isDone: bool)

  /** One element as stored: shared geometry always, kind-specific fields optional. */
  datatype PersistableElement = PersistableElement(
    id: Uuid,
    kind: BoardElementKind,
    positionX: real,
    positionY: real,
    width: real,
    height: real,
    angleDegrees: real,
    text: Option<string>,
    items: Option<seq<PersistableTodoItem>>,
    imageFilename: Option<string>,
    title: Option<string>,
    style: Option<BoardColor>)

  /** The `images` directory: file name to file contents. */
  type ImageStore = map<string, Bytes>

  /** What reading `board.json` can give. */
  datatype DocumentFile = Missing | Corrupt | Decoded(records: seq<PersistableElement>)

  /** `pngData()`: `None` when the image cannot be encoded. */
  type PngEncoder = Bitmap -> Option<Bytes>

  /** `UIImage(data:)`: `None` when the bytes are not an image. */
  type ImageDecoder = Bytes -> Option<Bitmap>

  /** The ids `UUID()` hands out while loading: item `k` of record `i` gets `supply(i, k)`. */
  type ItemIdSupply = (nat, nat) -> Uuid

  /** The blob file name of an image element: its uuid text followed by `.png`. */
  function ImageFilename(id: Uuid): string
  {
    id.uuidString + ".png"
  }

  /** Distinct elements never share a blob file. */
  lemma ImageFilenameInjective(a: Uuid, b: Uuid)
    ensures ImageFilename(a) == ImageFilename(b) <==> a == b
  {
    if ImageFilename(a) == ImageFilename(b) {
      var n := |a.uuidString|;
      assert |b.uuidString| == n;
      assert ImageFilename(a)[..n] == a.uuidString;
      assert ImageFilename(b)[..n] == b.uuidString;
    }
  }

  /** The element-to-record half of `save`. */
  function Record(e: BoardElement): (r: PersistableElement)
    ensures r.id == e.id && r.kind == e.Kind()
    ensures r.positionX == e.geometry.position.x && r.positionY == e.geometry.position.y
    ensures r.width == e.geometry.size.width && r.height == e.geometry.size.height
    ensures r.angleDegrees == e.geometry.angle
    ensures r.title == Some(e.title)
    ensures r.text.Some? <==> e.StickyNoteModel?
    ensures r.items.Some? <==> e.TodoListModel?
    ensures r.style.Some? <==> !e.ImageElementModel?
    ensures r.imageFilename.Some? <==> e.ImageElementModel? && e.uiImage.Some?
    ensures r.imageFilename.Some? ==> r.imageFilename.value == ImageFilename(e.id)
    ensures e.StickyNoteModel? ==> r.text == Some(e.text) && r.style == Some(e.style)
    ensures e.TodoListModel? ==> r.style == Some(e.style)
    ensures e.TodoListModel? ==>
      && |r.items.value| == |e.items|
      && forall k :: 0 <= k < |e.items| ==>
           r.items.value[k].title == e.items[k].title && r.items.value[k].isDone == e.items[k].isDone
  {
    var g := e.geometry;
    var base := PersistableElement(e.id, e.Kind(), g.position.x, g.position.y, g.size.width, g.size.height,
                                   g.angle, None, None, None, None, None);
    match e
    case StickyNoteModel(_, _, title, text, style) =>
      base.(text := Some(text), title := Some(title), style := Some(style))
    case TodoListModel(_, _, title, items, style) =>
      var stored := seq(|items|, k requires 0 <= k < |items| => PersistableTodoItem(items[k].title, items[k].isDone));
      base.(items := Some(stored), title := Some(title), style := Some(style))
    case ImageElementModel(id, _, title, image) =>
      base.(title := Some(title), imageFilename := if image.Some? then Some(ImageFilename(id)) else None)
  }

  /** The document `save` writes: one record per element, in element order. */
  function Records(es: seq<BoardElement>): (rs: seq<PersistableElement>)
    ensures |rs| == |es|
    ensures forall i :: 0 <= i < |es| ==> rs[i] == Record(es[i])
  {
    seq(|es|, i requires 0 <= i < |es| => Record(es[i]))
  }

  /** Does `save` have bytes to write for `e` (an image element whose picture encodes)? */
  predicate Encodes(e: BoardElement, png: PngEncoder)
  {
    e.ImageElementModel? && e.uiImage.Some? && png(e.uiImage.value).Some?
  }

  /** The blob write `save` does for one element: only when no file of that name exists yet. */
  function WriteImage(e: BoardElement, store: ImageStore, png: PngEncoder): ImageStore
  {
    match e
    case ImageElementModel(id, _, _, Some(image)) =>
      var f := ImageFilename(id);
      if f in store then store
      else (
        match png(image)
        case None => store
        case Some(data) => store[f := data])
    case _ => store
  }

  /**
   The blob writes of `save`, element by element. Existing files are never
   overwritten; every new file belongs to an element that encodes; and every
   element that encodes has its file afterwards.
   */
  function WriteImages(es: seq<BoardElement>, store: ImageStore, png: PngEncoder): (r: ImageStore)
    ensures store.Keys <= r.Keys
    ensures forall f :: f in store ==> r[f] == store[f]
    ensures forall f :: f in r && f !in store ==>
      exists i :: 0 <= i < |es| && Encodes(es[i], png) && ImageFilename(es[i].id) == f
    ensures forall i :: 0 <= i < |es| && Encodes(es[i], png) ==> ImageFilename(es[i].id) in r
    decreases |es|
  {
    if |es| == 0 then store
    else
      var r := WriteImages(es[1..], WriteImage(es[0], store, png), png);
      assert forall i :: 1 <= i < |es| ==> es[i] == es[1..][i - 1];
      r
  }

  /**
   `save`: the records for the document and the image store after the blob
   writes. The document lists every element in order; no existing file is
   touched; every new file belongs to a picture that encodes, and every such
   picture has its file.
   */
  function Save(es: seq<BoardElement>, store: ImageStore, png: PngEncoder): (r: (seq<PersistableElement>, ImageStore))
    ensures |r.0| == |es| && forall i :: 0 <= i < |es| ==> r.0[i] == Record(es[i])
    ensures store.Keys <= r.1.Keys && forall f :: f in store ==> r.1[f] == store[f]
    ensures forall f :: f in r.1 && f !in store ==>
      exists i :: 0 <= i < |es| && Encodes(es[i], png) && ImageFilename(es[i].id) == f
    ensures forall i :: 0 <= i < |es| && Encodes(es[i], png) ==> ImageFilename(es[i].id) in r.1
  {
    (Records(es), WriteImages(es, store, png))
  }

  /** When every blob `save` could write already exists, the blob writes change nothing. */
  lemma {:induction false} WriteImagesSettled(es: seq<BoardElement>, store: ImageStore, png: PngEncoder)
    requires forall i :: 0 <= i < |es| && Encodes(es[i], png) ==> ImageFilename(es[i].id) in store
    ensures WriteImages(es, store, png) == store
    decreases |es|
  {
    if |es| > 0 {
      assert WriteImage(es[0], store, png) == store;
      assert forall i :: 0 <= i < |es| - 1 ==> es[1..][i] == es[i + 1];
      WriteImagesSettled(es[1..], store, png);
    }
  }

  /** Saving the same elements twice leaves the image store as the first save left it. */
  lemma SaveTwiceIsIdempotent(es: seq<BoardElement>, store: ImageStore, png: PngEncoder)
    ensures Save(es, Save(es, store, png).1, png) == Save(es, store, png)
  {
    WriteImagesSettled(es, WriteImages(es, store, png), png);
  }

  /**
   With unique ids, after `save` an image element's file holds what was
   already there, or else the element's own PNG bytes.
   */
  lemma {:induction false} BlobAfterSave(es: seq<BoardElement>, store: ImageStore, png: PngEncoder, i: nat)
    requires UniqueIds(es)
    requires i < |es| && es[i].ImageElementModel? && es[i].uiImage.Some?
    ensures var f := ImageFilename(es[i].id);
      var r := WriteImages(es, store, png);
      && (f in store ==> f in r && r[f] == store[f])
      && (f !in store && png(es[i].uiImage.value).Some? ==> f in r && r[f] == png(es[i].uiImage.value).value)
    decreases |es|
  {
    var f := ImageFilename(es[i].id);
    var s1 := WriteImage(es[0], store, png);
    assert WriteImages(es, store, png) == WriteImages(es[1..], s1, png);
    if i == 0 {
      assert f !in store && png(es[0].uiImage.value).Some? ==> f in s1 && s1[f] == png(es[0].uiImage.value).value;
    } else {
      ImageFilenameInjective(es[0].id, es[i].id);
      assert f in s1 <==> f in store;
      assert f in store ==> s1[f] == store[f];
      assert es[1..][i - 1] == es[i];
      BlobAfterSave(es[1..], s1, png, i - 1);
    }
  }

  /** The element `load` starts from for a record of the given kind. */
  function Blank(kind: BoardElementKind, id: Uuid, itemId: Uuid): (e: BoardElement)
    ensures e.Kind() == kind && e.id == id
  {
    match kind
    case StickyNote => NewStickyNote(id)
    case TodoList => NewTodoList(id, itemId)
    case Image => NewImage(id)
  }

  /** The picture an image record resolves to: a readable, decodable file, or none. */
  function ResolveImage(filename: Option<string>, store: ImageStore, decode: ImageDecoder): (r: Option<Bitmap>)
    ensures r.Some? ==> filename.Some? && filename.value in store && decode(store[filename.value]) == r
    ensures filename.Some? && filename.value in store && decode(store[filename.value]).Some? ==> r.Some?
  {
    match filename
    case None => None
    case Some(f) => if f in store then decode(store[f]) else None
  }

  /**
   The record-to-element half of `load`: start from the kind's defaults, copy
   id and geometry, and override each content field the record carries;
   sticky-note text alone falls back to the empty string. Loaded todo items
   get new ids from `itemId`.
   */
  function Restore(p: PersistableElement, store: ImageStore, decode: ImageDecoder, itemId: nat -> Uuid): (e: BoardElement)
    ensures e.id == p.id && e.Kind() == p.kind
    ensures e.geometry == Geometry(Point(p.positionX, p.positionY), Size(p.width, p.height), p.angleDegrees)
    ensures p.title.Some? ==> e.title == p.title.value
    ensures p.title.None? ==> e.title == Blank(p.kind, p.id, itemId(0)).title
    ensures e.StickyNoteModel? ==> e.text == p.text.GetOr("")
    ensures !e.ImageElementModel? && p.style.Some? ==> e.style == p.style.value
    ensures !e.ImageElementModel? && p.style.None? ==> e.style == Blank(p.kind, p.id, itemId(0)).style
    ensures e.TodoListModel? && p.items.None? ==> e.items == Blank(p.kind, p.id, itemId(0)).items
    ensures e.TodoListModel? && p.items.Some? ==>
      && |e.items| == |p.items.value|
      && forall k :: 0 <= k < |e.items| ==>
           e.items[k] == TodoItem(itemId(k), p.items.value[k].title, p.items.value[k].isDone)
    ensures e.ImageElementModel? ==> e.uiImage == ResolveImage(p.imageFilename, store, decode)
  {
    var g := Geometry(Point(p.positionX, p.positionY), Size(p.width, p.height), p.angleDegrees);
    match p.kind
    case StickyNote =>
      var note := NewStickyNote(p.id);
      StickyNoteModel(p.id, g, p.title.GetOr(note.title), p.text.GetOr(""), p.style.GetOr(note.style))
    case TodoList =>
      var list := NewTodoList(p.id, itemId(0));
      var items := match p.items
        case None => list.items
        case Some(stored) =>
          seq(|stored|, k requires 0 <= k < |stored| => TodoItem(itemId(k), stored[k].title, stored[k].isDone));
      TodoListModel(p.id, g, p.title.GetOr(list.title), items, p.style.GetOr(list.style))
    case Image =>
      var img := NewImage(p.id);
      ImageElementModel(p.id, g, p.title.GetOr(img.title), ResolveImage(p.imageFilename, store, decode))
  }

  /**
   `load`: no document, or one that does not decode, gives an empty board;
   otherwise exactly one element per record, in record order, each restored
   from its record (the `i`-th element draws its item ids from `supply(i, _)`).
   */
  function Load(file: DocumentFile, store: ImageStore, decode: ImageDecoder, supply: ItemIdSupply): (r: seq<BoardElement>)
    ensures !file.Decoded? ==> r == []
    ensures file.Decoded? ==> |r| == |file.records|
    ensures file.Decoded? ==> forall i :: 0 <= i < |r| ==>
      r[i].id == file.records[i].id && r[i].Kind() == file.records[i].kind
    ensures file.Decoded? ==> forall i :: 0 <= i < |r| ==>
      r[i] == Restore(file.records[i], store, decode, (k: nat) => supply(i, k))
  {
    match file
    case Missing => []
    case Corrupt => []
    case Decoded(rs) =>
      seq(|rs|, i requires 0 <= i < |rs| => Restore(rs[i], store, decode, (k: nat) => supply(i, k)))
  }

  /** The placeholder every todo-item id is replaced with when comparing up to item ids. */
  const NoId: Uuid := Uuid("")

  /** `e` with its todo-item ids forgotten. */
  function EraseItemIds(e: BoardElement): BoardElement
  {
    match e
    case TodoListModel(id, g, title, items, style) =>
      TodoListModel(id, g, title, seq(|items|, k requires 0 <= k < |items| => items[k].(id := NoId)), style)
    case _ => e
  }

  function EraseAllItemIds(es: seq<BoardElement>): (r: seq<BoardElement>)
    ensures |r| == |es|
  {
    seq(|es|, i requires 0 <= i < |es| => EraseItemIds(es[i]))
  }

  /**
   The image store can give every picture back: an existing file already
   decodes to the element's picture, or, when there is none, the picture
   encodes to bytes that decode back to it.
   */
  predicate BlobsRecoverable(es: seq<BoardElement>, store: ImageStore, png: PngEncoder, decode: ImageDecoder)
  {
    forall i :: 0 <= i < |es| && es[i].ImageElementModel? && es[i].uiImage.Some? ==>
      var f := ImageFilename(es[i].id);
      var picture := es[i].uiImage.value;
      if f in store then decode(store[f]) == Some(picture)
      else png(picture).Some? && decode(png(picture).value) == Some(picture)
  }

  /** One element survives the record round trip, up to its todo-item ids. */
  lemma RestoreRecord(e: BoardElement, store: ImageStore, decode: ImageDecoder, itemId: nat -> Uuid)
    requires e.ImageElementModel? && e.uiImage.Some? ==>
      ImageFilename(e.id) in store && decode(store[ImageFilename(e.id)]) == e.uiImage
    ensures EraseItemIds(Restore(Record(e), store, decode, itemId)) == EraseItemIds(e)
  {
    var back := Restore(Record(e), store, decode, itemId);
    if e.TodoListModel? {
      assert |back.items| == |e.items|;
      assert forall k :: 0 <= k < |e.items| ==> back.items[k].(id := NoId) == e.items[k].(id := NoId);
    }
  }

  /**
   Save then load gives the same elements field for field, up to the fresh
   ids of todo items; pictures come back through the image store.
   */
  lemma SaveLoadRoundTrip(es: seq<BoardElement>, store: ImageStore, png: PngEncoder,
                          decode: ImageDecoder, supply: ItemIdSupply)
    requires UniqueIds(es)
    requires BlobsRecoverable(es, store, png, decode)
    ensures var (records, images) := Save(es, store, png);
      EraseAllItemIds(Load(Decoded(records), images, decode, supply)) == EraseAllItemIds(es)
  {
    var (records, images) := Save(es, store, png);
    var loaded := Load(Decoded(records), images, decode, supply);
    forall i | 0 <= i < |es|
      ensures EraseItemIds(loaded[i]) == EraseItemIds(es[i])
    {
      if es[i].ImageElementModel? && es[i].uiImage.Some? {
        BlobAfterSave(es, store, png, i);
      }
      RestoreRecord(es[i], images, decode, (k: nat) => supply(i, k));
    }
  }

  /**
   An image whose picture will not encode, and whose file does not exist,
   is still recorded with its file name but loads back without a picture.
   */
  lemma UnencodableImageLoadsEmpty(e: BoardElement, store: ImageStore, png: PngEncoder,
                                   decode: ImageDecoder, supply: ItemIdSupply)
    requires e.ImageElementModel? && e.uiImage.Some?
    requires png(e.uiImage.value).None? && ImageFilename(e.id) !in store
    ensures var (records, images) := Save([e], store, png);
      && records[0].imageFilename == Some(ImageFilename(e.id))
      && Load(Decoded(records), images, decode, supply)[0].uiImage == None
  {
    var (records, images) := Save([e], store, png);
    assert images == store by {
      assert WriteImage(e, store, png) == store;
      assert [e][1..] == [];
    }
  }

  /**
   A file that already exists is never replaced, so an image element whose
   picture changed after its first save loads back with the old picture.
   */
  lemma ExistingBlobWins(e: BoardElement, store: ImageStore, png: PngEncoder,
                         decode: ImageDecoder, supply: ItemIdSupply)
    requires e.ImageElementModel? && e.uiImage.Some? && ImageFilename(e.id) in store
    ensures var (records, images) := Save([e], store, png);
      && images == store
      && Load(Decoded(records), images, decode, supply)[0].uiImage == decode(store[ImageFilename(e.id)])
  {
    assert WriteImage(e, store, png) == store;
    assert [e][1..] == [];
  }
}
