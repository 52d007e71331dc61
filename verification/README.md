# RoomBoard board engine in Dafny

RoomBoard is an iPad whiteboard. It holds sticky notes, todo lists and
pictures on a pannable, zoomable canvas. This project models the engine
behind it. There are three parts.

- **Element model** (`element_model.dfy`, module `ElementModel`). The three
  element kinds form one closed datatype. Every element has shared geometry:
  a centre position, a size and an angle in degrees. Each kind also has its
  own payload. The module also holds the per-kind defaults, the raw values of
  the kind and colour enums, and Swift `==`, under which image elements
  compare by id alone.
- **Mutation engine** (`view_model.dfy`, module `ViewModel`). These are the
  intents of `BoardViewModel`:
  - add a sticky note, a todo list or an image;
  - update an element;
  - move, rotate, scale or resize an element;
  - set a note's text or a list's items;
  - zoom in and zoom out.

  Every element intent looks the element up by id and takes the first match.
  It edits that one element and leaves every other element alone. An absent
  id, or a content edit on the wrong kind, changes nothing.
- **Persistence codec** (`persistence.dfy`, module `Persistence`). `save`
  turns the elements into flat records for `board.json` and writes a
  `<uuid>.png` file for each picture that has none yet and whose PNG
  encoding succeeds. `load` turns the records back into elements.

Two more modules connect the parts.

- `auto_save.dfy` (module `AutoSave`) models the property observers. Every
  assignment to `elements`, `canvasScale` or `canvasOffset` saves the
  elements (never the zoom or pan);
  an element intent that returns early (absent id, wrong kind) assigns
  nothing and so saves nothing. `init` loads the board.
- `pinch_gesture.dfy` (module `PinchGesture`) models how the canvas view feeds
  pinch reports into `scaleElement`. It holds the finding below.

`common.dfy` (module `Common`) holds `Option`, bytes and `Uuid`.

Modelling choices:

- Geometry is exact `real` arithmetic. Angles are kept in degrees, the unit
  the document stores.
- `UUID()` is a parameter. The id of a new element is passed in, and so are
  the ids `load` gives to todo items.
- PNG encoding and image decoding are partial functions passed in as
  parameters.
- The image directory is a map from file name to bytes.
- `board.json` is `Missing`, `Corrupt`, or `Decoded` into its records.

Only `resizeElement` floors each side at 60 (BoardViewModel.swift:132-133).
`scaleElement` and `load` do not, so an element can end up smaller;
`ViewModel.ScaleIgnoresFloor` shows this.

## Model

| member | source | states |
|---|---|---|
| ElementModel.AllKinds | RoomBoard/RoomBoard/Models/Canvas/BoardElement.swift:27-31 | `allCases` lists each of the three kinds exactly once |
| ElementModel.AllColors | RoomBoard/RoomBoard/Models/Canvas/BoardElement.swift:34-35 | `allCases` lists each of the five colours exactly once |
| ElementModel.KindFromRaw | RoomBoard/RoomBoard/Models/Canvas/BoardElement.swift:27-31 | decoding a kind yields one whose raw value is the input text; failure means no kind has that raw value |
| ElementModel.ColorFromRaw | RoomBoard/RoomBoard/Models/Canvas/BoardElement.swift:34-35 | decoding a colour yields one whose raw value is the input text; failure means no colour has that raw value |
| ElementModel.RawValuesRoundTrip | RoomBoard/RoomBoard/Models/Canvas/BoardElement.swift:27-35 | decoding the raw value of any kind or colour gives that case back |
| ElementModel.DefaultElements | RoomBoard/RoomBoard/Models/Canvas/BoardElement.swift:50-96 | new elements sit upright at the origin with the declared size, title, text, item and colour defaults; their kind matches the struct; they already respect the 60 floor |
| ElementModel.BoardElement.Kind | RoomBoard/RoomBoard/Models/Canvas/BoardElement.swift:60-96 | the `kind` property is fixed by the concrete type: sticky note, todo list or image exactly for the matching struct |
| ElementModel.SameSemantics | RoomBoard/RoomBoard/Models/Canvas/BoardElement.swift:84-104 | `==` is an equivalence; for images it holds exactly when ids match, whatever else differs; for notes and lists it is full structural equality |
| ViewModel.IndexOf | RoomBoard/RoomBoard/ViewModels/Canvas/BoardViewModel.swift:47-49 | the index found holds the id and no earlier element does; it is absent exactly when no element has the id |
| ViewModel.IndexOfOnlyReadsIds | RoomBoard/RoomBoard/ViewModels/Canvas/BoardViewModel.swift:47-49 | lookup depends only on the ids, so an edit that keeps ids keeps every lookup |
| ViewModel.SameLayoutKeepsIds | RoomBoard/RoomBoard/ViewModels/Canvas/BoardViewModel.swift:57-179 | an edit that keeps each position's id and kind keeps ids unique and lookups stable |
| ViewModel.UpdateElement | RoomBoard/RoomBoard/ViewModels/Canvas/BoardViewModel.swift:51-54 | the replacement lands at the first index carrying its id, and exactly when that id is on the board; nothing else changes; ids stay put; an absent id is a no-op |
| ViewModel.UpdateReadBack | RoomBoard/RoomBoard/ViewModels/Canvas/BoardViewModel.swift:47-54 | after an update, looking the id up again finds the same position holding the replacement, even if its kind changed |
| ViewModel.MoveElement | RoomBoard/RoomBoard/ViewModels/Canvas/BoardViewModel.swift:57-74 | for every kind, the centre moves by exactly the translation and nothing else changes; an absent id is a no-op |
| ViewModel.MoveInverse | RoomBoard/RoomBoard/ViewModels/Canvas/BoardViewModel.swift:57-74 | moving back by the opposite translation restores the whole board |
| ViewModel.RotateElement | RoomBoard/RoomBoard/ViewModels/Canvas/BoardViewModel.swift:76-90 | the angle becomes the given absolute value; size, centre and every other element are kept |
| ViewModel.RotateLastWins | RoomBoard/RoomBoard/ViewModels/Canvas/BoardViewModel.swift:76-90 | rotation does not accumulate: the last angle set wins, and setting one twice is idempotent |
| ViewModel.ScaleElement | RoomBoard/RoomBoard/ViewModels/Canvas/BoardViewModel.swift:92-109 | both sides are multiplied by the factor with no floor; centre and angle are kept; an absent id is a no-op |
| ViewModel.ScaleIgnoresFloor | RoomBoard/RoomBoard/ViewModels/Canvas/BoardViewModel.swift:92-109 | scaling a new note by 0.25 leaves it 40 x 40, below the 60 floor |
| ViewModel.ScaleTwice | RoomBoard/RoomBoard/ViewModels/Canvas/BoardViewModel.swift:92-109 | two scalings equal one scaling by the product of their factors |
| ViewModel.ScaleByOne | RoomBoard/RoomBoard/ViewModels/Canvas/BoardViewModel.swift:92-109 | scaling by 1 changes nothing |
| ViewModel.ScaleUndone | RoomBoard/RoomBoard/ViewModels/Canvas/BoardViewModel.swift:92-109 | two scalings whose factors multiply to 1 restore the board |
| ViewModel.ScaleInverse | RoomBoard/RoomBoard/ViewModels/Canvas/BoardViewModel.swift:92-109 | scaling by a non-zero factor and then by its reciprocal restores the board |
| ViewModel.ApplyResize | RoomBoard/RoomBoard/ViewModels/Canvas/BoardViewModel.swift:114-134 | each side grows by the drag component toward its handle and is then floored at 60 on its own; the centre moves by half the drag for every anchor |
| ViewModel.ResizeKeepsOppositeCorner | RoomBoard/RoomBoard/ViewModels/Canvas/BoardViewModel.swift:114-134 | while no side hits the floor, the corner opposite the dragged handle does not move, for all four anchors |
| ViewModel.ClampedResizeDrifts | RoomBoard/RoomBoard/ViewModels/Canvas/BoardViewModel.swift:114-134 | once a side is floored, the centre still moves, so the opposite corner drifts by half the drag |
| ViewModel.ResizeElement | RoomBoard/RoomBoard/ViewModels/Canvas/BoardViewModel.swift:112-155 | for every kind, size and centre become the nested resize of the old ones; both sides end up at least 60; the angle and every other element are kept |
| ViewModel.ResizeClampsAtFloor | RoomBoard/RoomBoard/ViewModels/Canvas/BoardViewModel.swift:132-133 | shrinking a 160 x 160 note by 200 from its bottom-right handle leaves exactly 60 x 60 |
| ViewModel.SetNoteText | RoomBoard/RoomBoard/ViewModels/Canvas/BoardViewModel.swift:167-172 | only a sticky note's text changes; a missing id or any other kind leaves the board as it was |
| ViewModel.SetTodoItems | RoomBoard/RoomBoard/ViewModels/Canvas/BoardViewModel.swift:174-179 | only a todo list's items change, and an empty list is allowed; a missing id or any other kind leaves the board as it was |
| ViewModel.AddStickyNote | RoomBoard/RoomBoard/ViewModels/Canvas/BoardViewModel.swift:31-34 | the board grows by one default note at the end, the rest is unchanged, and a fresh id keeps ids unique |
| ViewModel.AddTodoList | RoomBoard/RoomBoard/ViewModels/Canvas/BoardViewModel.swift:36-39 | the board grows by one default list at the end, the rest is unchanged, and a fresh id keeps ids unique |
| ViewModel.AddImage | RoomBoard/RoomBoard/ViewModels/Canvas/BoardViewModel.swift:41-45 | the board grows by one default image holding the picture at the end, the rest is unchanged, and a fresh id keeps ids unique |
| ViewModel.ZoomIn | RoomBoard/RoomBoard/ViewModels/Canvas/BoardViewModel.swift:158-160 | the canvas scale is multiplied by 1.2, so a positive scale grows and stays positive; elements and offset are untouched |
| ViewModel.ZoomOut | RoomBoard/RoomBoard/ViewModels/Canvas/BoardViewModel.swift:162-164 | the canvas scale is divided by 1.2, so a positive scale shrinks but stays positive; elements and offset are untouched |
| ViewModel.ZoomRoundTrip | RoomBoard/RoomBoard/ViewModels/Canvas/BoardViewModel.swift:158-164 | zooming in and out undo each other exactly |
| Persistence.ImageFilenameInjective | RoomBoard/RoomBoard/Utils/BoardPersistence.swift:67 | two elements share an image file name only if they share an id |
| Persistence.Record | RoomBoard/RoomBoard/Utils/BoardPersistence.swift:37-78 | id, kind, geometry and title are copied; each optional field is present exactly for the kinds that own it; a file name is written exactly when the image element has a picture; item titles and done flags are kept in order |
| Persistence.Records | RoomBoard/RoomBoard/Utils/BoardPersistence.swift:37 | one record per element, in element order |
| Persistence.WriteImages | RoomBoard/RoomBoard/Utils/BoardPersistence.swift:66-73 | existing files are never replaced or removed; each new file belongs to an image whose picture encodes; each such image has its file afterwards |
| Persistence.Save | RoomBoard/RoomBoard/Utils/BoardPersistence.swift:36-85 | the document gets one record per element, in order; no existing image file is replaced or removed; every new file belongs to a picture that encodes, and every such picture has its file |
| Persistence.WriteImagesSettled | RoomBoard/RoomBoard/Utils/BoardPersistence.swift:69 | when every file a save could write already exists, the save writes nothing |
| Persistence.SaveTwiceIsIdempotent | RoomBoard/RoomBoard/Utils/BoardPersistence.swift:36-85 | saving the same elements again leaves the records and the image files as they were |
| Persistence.BlobAfterSave | RoomBoard/RoomBoard/Utils/BoardPersistence.swift:66-73 | with unique ids, after a save an image's file holds the old bytes if it existed, or else the picture's own PNG bytes |
| Persistence.Blank | RoomBoard/RoomBoard/Utils/BoardPersistence.swift:92-130 | loading starts from a default element of the record's kind carrying the record's id |
| Persistence.ResolveImage | RoomBoard/RoomBoard/Utils/BoardPersistence.swift:122-127 | a picture is found exactly when the file name is present, the file exists and its bytes decode |
| Persistence.Restore | RoomBoard/RoomBoard/Utils/BoardPersistence.swift:93-129 | id, kind and geometry come from the record; each present field overrides the default; missing note text becomes empty; loaded items get new ids; an image's picture is whatever its file resolves to |
| Persistence.Load | RoomBoard/RoomBoard/Utils/BoardPersistence.swift:87-131 | a missing or undecodable document loads as an empty board; otherwise one element per record, in order, with the record's id and kind, and each element is exactly its record restored (defaults for missing fields, empty missing text, no picture for a missing or undecodable file) |
| Persistence.RestoreRecord | RoomBoard/RoomBoard/Utils/BoardPersistence.swift:37-129 | one element survives record and restore unchanged except for its todo-item ids |
| Persistence.SaveLoadRoundTrip | RoomBoard/RoomBoard/Utils/BoardPersistence.swift:36-131 | with unique ids and pictures that can be read back, load after save returns the same elements except for todo-item ids |
| Persistence.UnencodableImageLoadsEmpty | RoomBoard/RoomBoard/Utils/BoardPersistence.swift:66-74 | a picture that will not encode still gets a file name in its record, but loads back with no picture |
| Persistence.ExistingBlobWins | RoomBoard/RoomBoard/Utils/BoardPersistence.swift:69-73 | an image whose file already exists keeps the old file, and loads back with the old picture even if its picture changed |
| AutoSave.ApplyKeepsValid | RoomBoard/RoomBoard/ViewModels/Canvas/BoardViewModel.swift:31-179 | with fresh ids for new elements and a positive pinch-zoom magnification, every intent keeps ids unique and the canvas scale positive |
| AutoSave.Writes | RoomBoard/RoomBoard/ViewModels/Canvas/BoardViewModel.swift:51-179 | an intent that does not reach an assignment (absent id, or a content edit on another kind) leaves the board unchanged; every add, zoom, pinch-zoom and pan assigns, and so saves |
| AutoSave.SilentIntentKeepsBoard | RoomBoard/RoomBoard/ViewModels/Canvas/BoardViewModel.swift:51-179 | an intent that returns early (absent id, or wrong kind for a content edit) leaves the board unchanged |
| AutoSave.Step | RoomBoard/RoomBoard/ViewModels/Canvas/BoardViewModel.swift:7-19 | an intent that assigns a property leaves the document listing the new elements and every encodable picture with its file; one that returns early leaves board and disk alone, so a synced session stays synced; no existing image file is ever lost or changed, and the only new files belong to pictures on the new board that encode |
| AutoSave.MissedEditLeavesDisk | RoomBoard/RoomBoard/ViewModels/Canvas/BoardViewModel.swift:57-58 | moving an absent element writes nothing, so a corrupt document stays on disk rather than being replaced by an empty one |
| AutoSave.CanvasChangeRewritesSameDisk | RoomBoard/RoomBoard/ViewModels/Canvas/BoardViewModel.swift:14-19 | zooming (buttons or pinch) or panning a saved board rewrites exactly what is already on disk |
| AutoSave.Open | RoomBoard/RoomBoard/ViewModels/Canvas/BoardViewModel.swift:13-28 | a new view model starts at scale 1 and offset zero; with no readable document its board is empty, otherwise it holds each record restored, in order |
| AutoSave.ReopenAfterStep | RoomBoard/RoomBoard/ViewModels/Canvas/BoardViewModel.swift:7-28 | after any intent that writes, or any intent on a board already in sync, reopening restores the elements except for todo-item ids, while zoom and pan reset |
| AutoSave.BuyMilkSurvivesReopen | RoomBoard/RoomBoard/ViewModels/Canvas/BoardViewModel.swift:167-172 | a new note whose text is set to "Buy milk" still reads "Buy milk" after reopening |
| AutoSave.EmptiedListStaysEmpty | RoomBoard/RoomBoard/Utils/BoardPersistence.swift:110-112 | a list emptied of all items reloads with zero items, not the default item |
| PinchGesture.PinchAsWrittenMultipliesAll | RoomBoard/RoomBoard/Views/Canvas/CanvasView.swift:81-84 | as written, a pinch gesture scales the element by the product of all its reports |
| PinchGesture.PinchCompounds | RoomBoard/RoomBoard/Views/Canvas/CanvasView.swift:81-84 | a pinch held at 2x and reported twice makes a new note 640 x 640, four times its size |
| PinchGesture.PinchCorrectedTracksGesture | RoomBoard/RoomBoard/Views/Canvas/CanvasView.swift:81-84 | when each report is divided by the one before, a gesture scales the element by its latest report only |
| PinchGesture.PinchCorrectedHolds | RoomBoard/RoomBoard/Views/Canvas/CanvasView.swift:81-84 | the same held 2x pinch, corrected, makes the note 320 x 320 |

## Left out

- Views, layout and rendering are not modelled. This covers `ContentView`, the element views, colours as SwiftUI `Color`, and the resize handles' drag plumbing. They hold no engine logic.
- `selectedElementID` is left out. No intent of the engine reads or writes it.
- `deleteElement` and `setTitle` are left out because the source defines no such intents.
- The canvas pan and pinch-zoom gestures (CanvasView.swift:91-106) are modelled only as their effect on the view model: `SetOffset` writes the resulting `canvasOffset`, and `Magnify` multiplies `canvasScale` by the gesture's final magnification. The gesture state while a gesture is in progress is not modelled. A pan's two component writes are one write in the model; both save the same elements.
- Failed file writes are left out. The code ignores them with `try?`, and the model treats every write as succeeding. Failed reads are modelled: an unreadable or undecodable `board.json` is `Missing` or `Corrupt`, and an absent or undecodable image file loads as no picture.
- Floating point is not modelled. Geometry is exact, so rounding, infinities and NaN are out; so are JSON encoding's refusal of non-finite numbers and radian-to-degree rounding.
- `imageDirectory()` and its creation of the `images` directory are left out. The directory is the image store map, which always exists.
- `UUID()` is not modelled as a generator. New ids are parameters, and distinct ids are required where uniqueness matters.
- The `default: break` arms of the element switches are left out. They cannot be reached with a closed set of kinds.

## Findings

| source | as written | input that shows it | evidently intended | confidence | as-written member | corrected member |
|---|---|---|---|---|---|---|
| RoomBoard/RoomBoard/Views/Canvas/CanvasView.swift:81-84 | each pinch report, which is the total magnification since the gesture began, goes straight to `scaleElement`, which multiplies the current size by it, so reports compound | a 160 x 160 sticky note and a pinch held at 2x reported twice: 640 x 640 | the element follows the gesture: 320 x 320, dividing each report by the previous one as the drag handler does with translations | medium, not executed | PinchGesture.PinchCompounds | PinchGesture.PinchCorrectedTracksGesture |
