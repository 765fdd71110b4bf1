# Video editor core in Dafny

This project models the editing logic of a browser video-labeling and trimming editor.
A user uploads a video, drags text labels onto the frame and picks a trim window.
The model covers the editor state behind that, not the browser around it:

- the Redux store of video records and its four reducers (`VideoStore`);
- the id-keyed map of dropped boxes in the react-dnd drop targets (`BoxBoard`);
- the list-based label canvas and its grab / move / release drag protocol
  (`LabelList`, `LabelCanvas`, `ExporterPage`, `EditorOne.DragState`);
- the trim-range slider handlers (`TrimSlider`);
- the percent-to-seconds conversion (`SliderTime`) and the minutes/seconds display (`PlayerClock`);
- the loop-inside-the-window seek rule of the two editor components (`PlaybackWindow`);
- which record the store-backed editor pages edit, and the record their upload
  dispatches (`EditorMain`, `EditorOne`).

Numbers are mathematical `real`s. `Math.round` is `floor(v + 0.5)`. JavaScript's `%` is
written out as a remainder with the sign of the dividend. Generated ids (`Date.now()`),
parsed numbers (`parseFloat`), bounding rectangles and cursor positions are parameters.
State that a component keeps with `useState`, or that Immer lets a reducer write in place,
is a class field, and a handler that sets that state is a method with a `modifies` clause.
Each method's `ensures` gives the new fields, mostly through pure functions, and the
properties are lemmas about those functions or, for the drag sequences
(`ExporterPage.Page.ReleaseThenMove`, `ExporterPage.Page.GrabThenMove`), methods whose
`ensures` state the end result. The two pages' upload handlers change no local state but dispatch one record
to the store; they are functions returning that record (`EditorMain.UploadAction`,
`EditorOne.UploadAction`).

Several source files hold the same code, and each piece is modelled once:

- `src/app/videoeditor/Canvas.tsx` and `src/app/videoeditor1/dragdrop/Container.tsx`
  share the box map, `moveBox`, `drop` and the offset computation. The only difference is
  the element the offset is measured against, which is a parameter of `BoxBoard.Board.Drop`.
- The two `Slider.tsx` files share `onValueChange`. In `src/app/videoeditor/Slider.tsx` the
  range inputs that would call it are commented out, so there it is attached to nothing;
  `TrimSlider.RangeInputs.OnValueChange` stands for the videoeditor1 slider, and that
  file's antd slider for `TrimSlider.RangeOfHandles`.
- `src/components/NewVideoEditor/index.tsx` and `src/components/VideoEditor/index.tsx`
  share their three effects.
- Label dropping, moving and grabbing are the same expressions in
  `src/app/videoeditor1/Canvas.tsx`, `src/app/exporter/page-drag-working.tsx` and
  `src/app/videoeditor1/VideoEditor.tsx`.

Two error paths are modelled as outcomes rather than excluded by preconditions:

- `updateRange` has no not-found guard. For an absent id, `state[-1]` is `undefined` and
  the assignment throws a `TypeError`; the model reports `ThrewTypeError` and leaves the
  store unchanged, since a reducer that throws produces no new state.
- `moveBox` with `isNew` false on a key that holds no box makes immutability-helper's
  `$merge` throw on an undefined target. The drop handler decides "new" by reading the
  item's id as a key, but moves the box under the item's id or, when that is absent or
  empty, a fresh one. So it throws in two cases, each only when the fresh id is not a key:
  a side-menu item, which has no id and is read as the key "undefined", while a box is
  stored under "undefined"; and an item whose id is the empty string while a box is
  stored under "" (`BoxBoard.DropThrowsWhen`).

A video record's `title` is optional in the model. The store's interface types it as a
string, but the videoeditor1 upload form sends no title, so that page's upload writes a
record whose `title` is undefined over the stored one.

`src/app/exporter/page-drag-working.tsx` defines `handleLabelDrag` but attaches it to no
element, so on that page no label is ever grabbed and `handleMouseMove` never moves one.
`ExporterPage.Page.HandleLabelDrag` and `ExporterPage.Page.GrabThenMove` model the handler
as written, for a caller the page does not have.

The editor components' seek effects never fire with the program's own video player.
`src/components/VideoPlayer/index.tsx` keeps its player in state that nothing sets, so it
always hands `null` to `onPlayerChange` and never subscribes to, or reports, a player
state. `PlaybackWindow.SliderSeek`, `PlaybackWindow.LoopSeeks` and the `Editor` methods
model the effects as written, for a player that would report itself and its state;
`PlaybackWindow.Editor.OnPlayerChange` stores whether it was handed a player or null.

## Model

| member | source | states |
|---|---|---|
| `VideoStore.FindIndex` | src/store/videoSlice.ts:52 | -1 exactly when the id is absent; otherwise an index holding the id with no earlier index holding it |
| `VideoStore.Upserted` | src/store/videoSlice.ts:50-61 | absent id: the payload is appended, length grows by one, earlier records unchanged; present id: only the first match becomes the payload, length and all other positions unchanged; the id set gains the payload's id |
| `VideoStore.UpsertedKeepsIdsDistinct` | src/store/videoSlice.ts:50-61 | `updateVideo` preserves "all ids distinct" |
| `VideoStore.WithRange` | src/store/videoSlice.ts:62-72 | throws exactly when the id is absent; otherwise only the first match changes, and only its range, to `{startTime, endTime}` of the payload |
| `VideoStore.WithLabels` | src/store/videoSlice.ts:73-79 | no-op when the id is absent; otherwise only the first match's labels are replaced |
| `VideoStore.WithoutFirst` | src/store/videoSlice.ts:80-82 | empty stays empty; otherwise the result is the tail, one shorter |
| `VideoStore.FieldUpdatesKeepIdsDistinct` | src/store/videoSlice.ts:62-82 | `updateRange`, `updateLabels` and `removeVideo` preserve "all ids distinct" |
| `VideoStore.FindIndexBySameIds` | src/store/videoSlice.ts:67 | `findIndex` depends only on the ids at each position |
| `VideoStore.WithRangeIdempotent` | src/store/videoSlice.ts:67-71 | `updateRange` applied twice with one payload equals applying it once |
| `VideoStore.WithLabelsIdempotent` | src/store/videoSlice.ts:75-78 | `updateLabels` applied twice with one payload equals applying it once |
| `VideoStore.VideoList.constructor` | src/store/videoSlice.ts:44 | the store starts empty |
| `VideoStore.VideoList.UpdateVideo` | src/store/videoSlice.ts:50-61 | new array is `Upserted` of the old one; distinct ids stay distinct |
| `VideoStore.VideoList.UpdateRange` | src/store/videoSlice.ts:62-72 | absent id: `ThrewTypeError` and the array unchanged; else `Applied` and the array is `WithRange` of the old one |
| `VideoStore.VideoList.UpdateLabels` | src/store/videoSlice.ts:73-79 | new array is `WithLabels` of the old one; distinct ids stay distinct |
| `VideoStore.VideoList.RemoveVideo` | src/store/videoSlice.ts:80-82 | new array is `WithoutFirst` of the old one, whatever the payload |
| `BoxBoard.BoxesOf` | src/app/videoeditor/Canvas.tsx:52-55 | the keys are exactly the label ids; each key holds the last label with that id |
| `BoxBoard.KeyedByMatchesIds` | src/app/videoeditor1/dragdrop/Container.tsx:43-46 | in the initial map every box is stored under its own id |
| `BoxBoard.ValuesOf` | src/app/videoeditor/Canvas.tsx:68 | `Object.values`: one value per key, each the box under its key, every key listed once |
| `BoxBoard.Moved` | src/app/videoeditor/Canvas.tsx:60-66 | `isNew`: exactly `{x, y, text, id}` under `id`; existing box: new x, y, same text and id; other keys unchanged, no key lost; throws exactly on a merge into a missing key |
| `BoxBoard.MovedKeepsKeysMatchingIds` | src/app/videoeditor1/dragdrop/Container.tsx:51-57 | a move keeps every box stored under its own id |
| `BoxBoard.LookupKey` | src/app/videoeditor1/dragdrop/Container.tsx:77 | the key `boxes[item.id]` reads: the item's id, or "undefined" for an item without one |
| `BoxBoard.IsNewDrop` | src/app/videoeditor/Canvas.tsx:86 | new exactly when no box is stored under the item's id, or, for an item without an id, under "undefined" |
| `BoxBoard.DropThrowsWhen` | src/app/videoeditor/Canvas.tsx:81-87 | a drop throws exactly when the key read holds a box and the id passed on holds none: no id with an "undefined" box, or the empty id with a "" box, the fresh id absent in both; a non-empty id never throws |
| `BoxBoard.DropId` | src/app/videoeditor/Canvas.tsx:82 | an absent or empty item id is replaced by the fresh id, any other is kept |
| `BoxBoard.DropOfIdentifiedItem` | src/app/videoeditor1/dragdrop/Container.tsx:72-78 | for an item with an id, the drop is new exactly when no box has that id, and it never throws |
| `BoxBoard.DropOfSideMenuItem` | src/app/videoeditor/Canvas.tsx:81-87 | when no box is stored under "undefined", an item without an id lands as a new box `{x, y, text, freshId}`, the rest of the map unchanged |
| `BoxBoard.DroppedOffset` | src/app/videoeditor/Canvas.tsx:94-120 | both drag directions give final position minus the target's top-left; a null position counts as (0, 0) |
| `BoxBoard.Board.constructor` | src/app/videoeditor1/dragdrop/Container.tsx:40-47 | the initial state is the id-keyed map of the labels, every box under its own id |
| `BoxBoard.Board.MoveBox` | src/app/videoeditor1/dragdrop/Container.tsx:49-62 | new state is `Moved` of the old one, and `onChange` receives all of its values; on a throw (`ThrewError`) the state stays and `onChange` is not called |
| `BoxBoard.Board.Drop` | src/app/videoeditor1/dragdrop/Container.tsx:67-111 | moves the box under `DropId` to `DroppedOffset` against the target rectangle, new exactly when the item's key is absent |
| `Geometry.Min` | src/app/exporter/page-drag-working.tsx:77 | `Math.min`: no greater than either argument, and equal to one of them |
| `Geometry.Max` | src/app/exporter/page-drag-working.tsx:117 | `Math.max`: no less than either argument, and equal to one of them |
| `Geometry.Clamp` | src/app/exporter/page-drag-working.tsx:117-118 | result in `[0, hi]`; identity inside; 0 below; `hi` above |
| `Geometry.ClampToCanvas` | src/app/videoeditor1/Canvas.tsx:34-35 | both coordinates within the canvas; identity for a point already on it |
| `LabelList.IsDragging` | src/app/exporter/page-drag-working.tsx:137 | truthiness of the dragged id: false for null and for the empty string, true for any non-empty id |
| `LabelList.DroppedLabel` | src/app/videoeditor1/Canvas.tsx:32-40 | `0 <= x <= width`, `0 <= y <= height`; equals the offset from the canvas corner when that is on the canvas; text and id as given |
| `LabelList.DragTarget` | src/app/videoeditor1/Canvas.tsx:49-53 | the position is the cursor minus the drag offset, clamped to the canvas |
| `LabelList.Repositioned` | src/app/videoeditor1/Canvas.tsx:55-59 | same length, ids and texts; labels with the dragged id get the new x, y; all others unchanged |
| `LabelList.FindLabel` | src/app/exporter/page-drag-working.tsx:130 | none exactly when no label has the id; otherwise the first label with it |
| `LabelList.GrabOffset` | src/app/exporter/page-drag-working.tsx:130-133 | cursor minus the found label's position; the previous offset when the id is absent |
| `LabelList.GrabThenMoveInPlace` | src/app/exporter/page-drag-working.tsx:128-150 | grab then move at the same point leaves the grabbed label, if on the canvas, where it was; with distinct ids the list is unchanged |
| `LabelList.RepositionedIdempotent` | src/app/exporter/page-drag-working.tsx:144-150 | moving twice to one point equals moving once |
| `LabelCanvas.Canvas.constructor` | src/app/videoeditor1/Canvas.tsx:29 | the canvas's own list starts as the labels it is given |
| `LabelCanvas.Canvas.HandleDrop` | src/app/videoeditor1/Canvas.tsx:31-45 | appends exactly the clamped label; `onChange` gets the new list; the page's mouse-up handler clears the drag |
| `LabelCanvas.Canvas.HandleMouseMove` | src/app/videoeditor1/Canvas.tsx:47-63 | with a dragged id and a mounted canvas, the list is `Repositioned` to the clamped target and reported; otherwise nothing changes and nothing is reported |
| `ExporterPage.Page.constructor` | src/app/exporter/page-drag-working.tsx:9-24 | initial state: no labels, no drag, offset (0, 0), window [0, 10], duration 0 |
| `ExporterPage.Page.HandleVideoUpload` | src/app/exporter/page-drag-working.tsx:66-72 | a chosen file and its URL are kept; without a file nothing changes |
| `ExporterPage.Page.OnMetadataLoaded` | src/app/exporter/page-drag-working.tsx:75-78 | the duration is recorded and `endTime = min(10, duration)` |
| `ExporterPage.Page.HandleDrop` | src/app/exporter/page-drag-working.tsx:114-126 | appends one label clamped to `[0,640]x[0,360]`, earlier labels kept in order |
| `ExporterPage.Page.HandleLabelDrag` | src/app/exporter/page-drag-working.tsx:128-134 | the dragged id is always set; the offset is updated only when that id exists |
| `ExporterPage.Page.HandleMouseMove` | src/app/exporter/page-drag-working.tsx:136-152 | with a drag in progress and the canvas mounted, only labels with the dragged id move, to the clamped cursor-minus-offset; otherwise a no-op |
| `ExporterPage.Page.HandleMouseUp` | src/app/exporter/page-drag-working.tsx:154-156 | clears the dragged id |
| `ExporterPage.Page.ReleaseThenMove` | src/app/exporter/page-drag-working.tsx:136-156 | after a release a move changes no label |
| `ExporterPage.Page.GrabThenMove` | src/app/exporter/page-drag-working.tsx:128-152 | grabbing a label on the canvas and moving at the same point leaves it in place |
| `TrimSlider.RangeInputs.constructor` | src/app/videoeditor1/Slider.tsx:25-26 | local start and end begin as the props |
| `TrimSlider.RangeInputs.OnValueChange` | src/app/videoeditor1/Slider.tsx:28-40 | "start" reports `(seconds, old end)`, any other name `(old start, seconds)`; only that local field changes, and the local state equals the one reported range |
| `TrimSlider.RangeOfHandles` | src/app/videoeditor/Slider.tsx:52-55 | `values[0]` becomes `startTime` and `values[1]` `endTime` |
| `SliderTime.Round` | src/lib/utils.ts:10 | `Math.round`: the integer `r` with `r - 0.5 <= v < r + 0.5`, halves rounded up |
| `SliderTime.SliderValueToVideoTime` | src/lib/utils.ts:9-11 | an integer within 0.5 of `duration * sliderValue / 100` |
| `SliderTime.SliderStartIsZero` | src/lib/utils.ts:10 | slider value 0 gives time 0 |
| `SliderTime.SliderEndIsDuration` | src/lib/utils.ts:10 | slider value 100 gives `round(duration)`, the duration itself when it is whole |
| `SliderTime.SliderTimeMonotone` | src/lib/utils.ts:10 | for `duration >= 0`, non-decreasing in the slider value |
| `SliderTime.SliderTimeBounds` | src/lib/utils.ts:10 | for values in `[0, 100]` and `duration >= 0`, the time lies in `[0, round(duration)]` |
| `PlayerClock.JsRemainder` | src/app/videoeditor/NewVideoPlayer.tsx:20 | for non-negative operands, the remainder lies in `[0, b)` and is `a - b*floor(a/b)` |
| `PlayerClock.Sec2Min` | src/app/videoeditor/NewVideoPlayer.tsx:18-25 | for `sec >= 0`: minutes `>= 0` and seconds in `0..59` |
| `PlayerClock.Sec2MinRecombines` | src/app/videoeditor/NewVideoPlayer.tsx:19-20 | for any `sec >= 0`, `min*60 + sec' = floor(sec)`: the display is the whole seconds, split |
| `PlayerClock.Sec2MinUnderAMinute` | src/app/videoeditor/NewVideoPlayer.tsx:19-24 | for `0 <= sec < 60`, zero minutes and `floor(sec)` seconds |
| `PlaybackWindow.MinTime` | src/components/NewVideoEditor/index.tsx:49 | the left handle as whole seconds, within 0.5 of its share of the duration; in `[0, round(duration)]` for a handle in `[0, 100]` and `0 <= duration` |
| `PlaybackWindow.MaxTime` | src/components/NewVideoEditor/index.tsx:50 | the right handle as whole seconds, within 0.5 of its share of the duration; never before `MinTime` when the handles are in order and `0 <= duration` |
| `PlaybackWindow.SliderSeek` | src/components/NewVideoEditor/index.tsx:34-41 | a seek happens exactly when a player and its state exist, and its target is the window start |
| `PlaybackWindow.LoopSeeks` | src/components/NewVideoEditor/index.tsx:43-60 | no seek without player and state; every seek targets the window start; some seek happens exactly when playback is before or after the window |
| `PlaybackWindow.LoopSeeksInOrderedWindow` | src/components/VideoEditor/index.tsx:37-54 | with ordered handles and a non-negative duration: one seek to the start before or after the window, none inside |
| `PlaybackWindow.Editor.constructor` | src/components/VideoEditor/index.tsx:12-16 | no file, player or state; slider [0, 100] |
| `PlaybackWindow.Editor.OnPlayerChange` | src/components/NewVideoEditor/index.tsx:106-108 | stores what it is handed: a player is available exactly when a non-null one was passed |
| `PlaybackWindow.Editor.OnSliderChange` | src/components/VideoEditor/index.tsx:28-35 | stores the slider values and issues `SliderSeek` of them |
| `PlaybackWindow.Editor.OnPlayerStateChange` | src/components/VideoEditor/index.tsx:37-54 | stores the player state and issues `LoopSeeks` of it |
| `PlaybackWindow.Editor.OnVideoFileChange` | src/components/NewVideoEditor/index.tsx:62-71 | removing the file resets the slider to [0, 100] and clears the player state and GIF URL, so the slider effect cannot seek; with a file nothing else changes |
| `EditorMain.DefaultVideo` | src/app/videoeditor/VideoEditor.tsx:33-43 | fresh id, title '', no labels, no image, no file or URL, duration 0, range [0, 10] |
| `EditorMain.CurrentVideo` | src/app/videoeditor/VideoEditor.tsx:44-45 | the first record when the store is non-empty, else the page's default record, passed in; videoeditor1 (VideoEditor.tsx:35-37) selects the same way with its own default |
| `EditorMain.MergedUpload` | src/app/videoeditor/VideoEditor.tsx:134-144 | id, labels, range and image carried over; title from the form, which always sends one; video detail unchanged without a file, from the form with one |
| `EditorMain.UploadAction` | src/app/videoeditor/VideoEditor.tsx:132-151 | a falsy form object dispatches nothing; otherwise the merged record of the current video |
| `EditorMain.UploadReplacesCurrent` | src/app/videoeditor/VideoEditor.tsx:139-145 | since the id is kept, `updateVideo` replaces the first record in place; into an empty store it appends |
| `EditorOne.DefaultVideo` | src/app/videoeditor1/VideoEditor.tsx:26-34 | fresh id, no labels, no file or URL, duration 0, range [0, 10], and neither title nor image |
| `EditorOne.UploadRecord` | src/app/videoeditor1/VideoEditor.tsx:104-116 | keeps id, labels and start time; image null; file, duration and URL from the form; title undefined, as the form sends none; `endTime = min(10, duration)` |
| `EditorOne.UploadAction` | src/app/videoeditor1/VideoEditor.tsx:102-123 | a falsy argument dispatches nothing; otherwise the upload record of the current video |
| `EditorOne.UploadOverwritesFirst` | src/app/videoeditor1/VideoEditor.tsx:104-116 | with a non-empty store the dispatched record overwrites `videos[0]`, keeping its labels and leaving its title undefined |
| `EditorOne.UploadIntoEmptyStore` | src/app/videoeditor1/VideoEditor.tsx:26-37 | with an empty store the default record is used: the appended record has the fresh id, no labels, no title and range [0, min(10, duration)] |
| `EditorOne.DragState.constructor` | src/app/videoeditor1/VideoEditor.tsx:52-56 | no drag, offset (0, 0) |
| `EditorOne.DragState.Prop` | src/app/videoeditor1/VideoEditor.tsx:297 | `draggingLabel \|\| ''`: empty exactly when no drag is in progress |
| `EditorOne.DragState.Grab` | src/app/videoeditor1/VideoEditor.tsx:160-167 | the grabbed id is set; the offset becomes `(x - label.x, y - label.y)` only when the id is among the labels |
| `EditorOne.DragState.Release` | src/app/videoeditor1/VideoEditor.tsx:169-171 | clears the dragged id |

## Left out

- FFmpeg trimming and encoding (`trimVideoInMemory`, `exportVideo`): calls into an external transcoder binary.
- The frame-capture loops (`processFrames`): they run on asynchronous `seeked` events and `canvas.toBlob`.
- Canvas 2D and WebGL drawing, render loops and shaders: graphics API calls.
- Persistence and networking (PouchDB, Mongo, `fetch`), and `videoToImage` (DOM elements, timers, blobs).
- React and react-dnd plumbing, including hook dependency lists and React's render batching. `onChange` and `seek` calls are return values; one call per handler is one returned value.
- IEEE-754 behaviour: NaN, infinities and rounding of `+`, `*`, `/`, `Math.round`, `Math.floor`, `%`.
- `BoxBoard.IsNewDrop`: the box store is a plain JavaScript object, modelled as a map. Ids that name `Object.prototype` members (`toString`, `constructor`, `__proto__`, ...) are not modelled: for those, `boxes[id] == null` is false on an empty store and assigning `__proto__` changes the prototype. Every id the app creates comes from `Date.now()`, so no such id arises.
- `BoxBoard.BoxesOf`: the same plain-object caveat: a label whose id is `__proto__` would not become an own key of the result. Label ids are `Date.now()` values, so this does not arise.
- `BoxBoard.ValuesOf`: the order of `Object.values` (integer-like keys ascending, then the other keys in insertion order) is not modelled. The result lists each key once in some order.
- `EditorMain.CurrentVideo`: the `videos[0] != null` test is not modelled separately. Every reducer stores records only, so it always passes.
- `EditorOne.DefaultVideo`: the record has no `img` field at all, and the model's "no image" does not tell that apart from `img: null`.
- `TrimSlider.RangeOfHandles` requires two values, because antd's range slider always reports two handles.
- `PlaybackWindow.SliderSeek`: the slider state only ever holds two numbers, so the `min !== undefined` test always passes and is not modelled.
- `PlayerClock.Sec2Min` is stated for non-negative times only. For negative times it follows JavaScript's truncated `%`, and the parts do not add back up.
