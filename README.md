# Insulator-defect annotation editor: a Dafny model

The application lets an operator upload photographs of power-line insulators. An AI server predicts defect boxes on them, and the operator reviews and corrects the boxes on a canvas before they are saved. This project models the four pieces that hold the logic:

- **The bounding-box editor** (`src/components/ImagePreview.tsx`), as the class `Editor.ImagePreview`.
  - It holds the component's own state: zoom, pan, tool mode, the quick-pan flag, and the gesture variables `tempBox`, `initialBoxState`, `draggingBox` and `activeHandle`.
  - Each handler is a method that performs exactly one step function over that state. The step functions live in module `Editor` and read the state as it was when the event arrived, as React's batched updates do.
  - What a handler reads from its parent and the DOM is a `Props` value: the image size, container width, canvas origin, the shown list and the selected box id.
  - What it hands back is the list of callbacks it makes (`onSelectBox`, `onUpdateErrors`, `onAction`).
  - The pure geometry (clamping, render metrics, coordinate maps, corner handles, hit test) is module `Geometry`.
- **The page's annotation store** (`src/app/page.tsx`), as the class `Store.Home`.
  - It holds `images`, `selectedImage`, `selectedErrors` and `selectedBoxId`.
  - Backend requests are not performed. Handlers return the `Intent`s they would send, and the create endpoint's reply is an input of its own handler, applied as one update.
- **The prediction route** (`src/app/api/predict-insulator/route.ts`), module `Predict`. It covers upload validation, the positional decoding of the AI server's results, label lookup with the "Unknown" fallback, and palette choice with the `default` fallback.
- **The error list's toggles** (`src/components/ErrorList.tsx`), module `ErrorList`: check/uncheck, accept and reject as pure rules over the shown list.

`Taxonomy` holds the fixed class list and palettes, and `Types` holds the shared record shapes of `src/types/index.ts`. `Scenarios` walks through concrete runs, each across several modules.

Further modelling choices:

- Coordinates are exact reals.
- Status is `Accepted | Rejected | Pending`, where `Pending` stands for `null`.
- JavaScript truthiness of optional strings is written out as `Truthy`: `null` and `""` are false.
- The AI server, `uuidv4`, `Math.random`, `Number.prototype.toString` and `ctx.measureText` are function or value parameters.

### Behaviour worth noting (the model follows the code)

- Ending a gesture or switching tools does not reset the whole interaction state.
  - A mouse-up under quick-pan keeps `tempBox`.
  - The tool buttons change only `mode`.
- A move clamps each coordinate on its own, so a box pushed past the image edge shrinks instead of stopping at the edge. (`MoveKeepsSizeInside` gives the size-preserving case.)
- The draw gesture clamps first and then normalises with min/max.
- Replacing the shown list (`handleUpdateErrors`) does not clear the selected box.
- `handleUpdateErrors` writes the shown list over the image's own list. Entries unticked in the error list are therefore dropped from the image at the next edit.
- `handleVerifyError` still sends a request carrying bbox `[]` and class `""` when the image matches but no entry has the id.
- The create request sends the entry as the editor passed it, not the accepted, confidence-1 copy stored locally.
- Every page handler the editor calls (`handleUpdateErrors`, `handleErrorAction` and the `createError` it calls) is the closure of the render the event arrived in. All callbacks of one editor event therefore read the store as it was before the event (`DispatchAll`), and only their writes land in order.
  - The create reply handler reads `selectedImage` and `selectedBoxId` from that closure. The `CreateError` intent records them.
  - For a box just drawn, that recorded selection is the one from before the draw, never the new temporary id, because the draw's own `onSelectBox` is not seen by the closure. The plain write at page.tsx lines 132-134 can fire only if the temporary id was already selected before the event; the updater at lines 136-138 is what moves the selection to the server id.
  - A box the operator selects after the draw and before the reply keeps its selection (`ClickBeforeReplyScenario`).
- The upload worker is created once, in a `useState` initialiser, so the `addNewImage` it calls belongs to the first render, whose `selectedImage` is `null`. Every uploaded image therefore becomes the selected one: every upload, not only the first, replaces the selection (`UploadSelectsEveryImage`, `UploadDropsSelection`).

## Model

| member | source | states |
|---|---|---|
| Types.FindFirst | src/components/ImagePreview.tsx:396 | `find` returns the first index satisfying the predicate, and none before it satisfies it; none means no element does |
| Types.FindLast | src/components/ImagePreview.tsx:415-443 | reverse-then-find returns the last index satisfying the predicate, and none after it satisfies it |
| Types.FindById | src/components/ImagePreview.tsx:691 | an entry with the id is found iff one exists; the one found has that id and no earlier entry has it |
| Taxonomy.FindClass | src/components/ImagePreview.tsx:668 | a class is found only if it is in the taxonomy with that id; none means no taxonomy entry has the id |
| Taxonomy.ClassLabel | src/app/api/predict-insulator/route.ts:241 | the route's label for a known class key, "Unknown" for any other key |
| Taxonomy.PaletteKey | src/app/api/predict-insulator/route.ts:194 | the key always names a palette; it is the class key itself, or `default` exactly when the class key is unknown |
| Taxonomy.PickColor | src/app/api/predict-insulator/route.ts:194-195 | the colour is an element of the class's own palette for a known key and of the default palette otherwise, for every random draw in [0,1) |
| Taxonomy.PalettesCoverLabels | src/app/api/predict-insulator/route.ts:65-191 | the palette keys are exactly the class keys plus `default`, and `default` is not a class key |
| Taxonomy.PalettesHaveFourColors | src/app/api/predict-insulator/route.ts:65-191 | every palette has four colours |
| Taxonomy.LabelsAgree | src/app/api/predict-insulator/route.ts:39-60 | every class of the editor's list has the route dictionary's label under its id |
| Taxonomy.ClassNameIsLabel | src/components/ImagePreview.tsx:16-73 | a listed class's name is the route's label for its id |
| Taxonomy.LabelsHaveNoExtraKey | src/app/api/predict-insulator/route.ts:39-60 | every key of the route's dictionary is the id of some class in the editor's list |
| Geometry.ClampAxis | src/components/ImagePreview.tsx:135-138 | the result is in [0, limit], equals the input when the input is already there, is 0 below and the limit above |
| Geometry.ClampBBox | src/components/ImagePreview.tsx:127-143 | without an image the box is unchanged; with one every coordinate lies in [0,width] or [0,height], and a box already inside is unchanged |
| Geometry.ClampIdempotent | src/components/ImagePreview.tsx:127-143 | clamping twice equals clamping once |
| Geometry.Normalise | src/components/ImagePreview.tsx:588-591 | the result is ordered, each axis keeps its two values (possibly swapped), and an ordered box is unchanged |
| Geometry.NormaliseKeepsBounds | src/components/ImagePreview.tsx:585-591 | normalising a box inside the image keeps it inside and makes it ordered |
| Geometry.RenderMetricsProperties | src/components/ImagePreview.tsx:161-183 | one scale factor for both axes; the drawn size is image size times it; the image fits the zoomed container on one axis and within it on the other; it is centred before the offset is added |
| Geometry.GetRenderMetrics | src/components/ImagePreview.tsx:161-183 | no contract of its own; what it computes is stated by RenderMetricsProperties |
| Geometry.CanvasToImage | src/components/ImagePreview.tsx:198-199 | the image point maps forward onto the canvas point: start + q·scale = p |
| Geometry.CanvasImageRoundTrip | src/components/ImagePreview.tsx:253-254 | image→canvas and canvas→image are mutual inverses whenever both scales are non-zero |
| Geometry.CanvasRect | src/components/ImagePreview.tsx:253-256 | the canvas rectangle's corners are the image→canvas images of the box's corners |
| Geometry.HoverHandle | src/components/ImagePreview.tsx:338-362 | the handle returned is strictly within 8 px of its corner and no corner earlier in tl, tr, bl, br order is; none iff no corner is that near |
| Geometry.Resize | src/components/ImagePreview.tsx:517-541 | the dragged corner is the pointer and the opposite corner is the starting box's |
| Geometry.ResizeDetermined | src/components/ImagePreview.tsx:517-541 | any box with that dragged corner and that opposite corner is the resize result, so nothing else changes |
| Geometry.Translate | src/components/ImagePreview.tsx:559-571 | each coordinate is shifted by the image-space displacement; width and height are kept |
| Geometry.MoveKeepsSizeInside | src/components/ImagePreview.tsx:559-573 | when the moved box lies inside the image, clamping keeps its width and height |
| Geometry.NatToString | src/components/ImagePreview.tsx:433 | the text is non-empty, made of decimal digits, spells n (its value as digits is n) and has no leading zero |
| Geometry.TopmostHit | src/components/ImagePreview.tsx:415-443 | the entry returned is under the pointer (body or label) and no later entry is; none iff no entry is hit |
| Geometry.NoContextNoLabelHit | src/components/ImagePreview.tsx:429-442 | with widths below -10 (no 2D context) no pointer is on a label chip, and a hit is exactly a hit on the box body |
| Editor.CurrentModeRule | src/components/ImagePreview.tsx:124 | the effective tool is hand while quick-pan is held, and the chosen mode otherwise |
| Editor.Visible | src/components/ImagePreview.tsx:312 | the drawn and hit-tested set is exactly the non-rejected entries of the list |
| Editor.VisibleAppend | src/components/ImagePreview.tsx:312 | the filter keeps the list order: the visible part of a concatenation is the concatenation of the visible parts |
| Editor.VisibleSingleton | src/components/ImagePreview.tsx:312 | a single entry is kept exactly when it is not rejected |
| Editor.Metrics | src/components/ImagePreview.tsx:154-185 | metrics exist iff an image is loaded, and then both scale factors are positive |
| Editor.MousePosInImage | src/components/ImagePreview.tsx:189-203 | a position exists iff an image is loaded; the canvas point is client minus canvas origin, and the image point maps back onto it |
| Editor.RenderedBoxes | src/components/ImagePreview.tsx:312-318 | one box per visible entry; every unselected entry, and every entry while no drag box exists, is drawn at its own bbox; while a drag box exists the selected entry is drawn at it |
| Editor.EditErrorsChangesOnlyMatches | src/components/ImagePreview.tsx:663-679 | the list keeps length and order; entries without the id are unchanged; index, id, description, confidence and status never change; matches take the new bbox |
| Editor.ClassEditRule | src/components/ImagePreview.tsx:665-674 | an unknown class id leaves class, name and colour unchanged; a known one sets the class, its route label as name, and one colour for stroke and fill |
| Editor.LastWithId | src/components/ImagePreview.tsx:662-679 | the edited entry reported is the last one with the id; none iff the id is absent |
| Editor.UpdateLocalErrorCalls | src/components/ImagePreview.tsx:657-687 | the edited list is always reported first; an update action follows exactly when a class was given and the id exists, carrying the edited entry |
| Editor.EditErrors | src/components/ImagePreview.tsx:662-679 | the list keeps its length and every id; entries without the id are unchanged (the full rule is EditErrorsChangesOnlyMatches) |
| Editor.UpdateLocalError | src/components/ImagePreview.tsx:657-687 | one or two callbacks: the list replacement first, then possibly an update action for the entry with the id (the full rule is UpdateLocalErrorCalls) |
| Editor.Grabbed | src/components/ImagePreview.tsx:395-396 | none iff the selected id is falsy or no visible entry has it; otherwise the first visible entry with that id, which is not rejected |
| Editor.MouseDownStep | src/components/ImagePreview.tsx:364-454 | a press never changes zoom, pan, tool or quick-pan, and makes at most one callback, a selection (per tool: MouseDownPan, MouseDownDraw, MouseDownGrabsHandle, MouseDownHitTest) |
| Editor.MouseMoveStep | src/components/ImagePreview.tsx:456-576 | a move changes only the pan offset, the box being drawn and the live drag box, and nothing without a drag (per tool: PanMove, DrawMove, ResizeMove, MoveMove) |
| Editor.MouseUpStep | src/components/ImagePreview.tsx:578-654 | a release ends the drag and clears the handle, live box and snapshot, keeps zoom, pan and quick-pan, and never sends a delete (per gesture: DrawCommit, EditCommit) |
| Editor.KeyDownStep | src/components/ImagePreview.tsx:701-720 | a key press changes at most the mode and quick-pan, nothing inside a text field, and its only possible callback clears the selection (SpaceEntersDraw, QuickPanRule) |
| Editor.Committed | src/components/ImagePreview.tsx:583-591 | a committed box is ordered and, with an image, inside it |
| Editor.WheelStep | src/components/ImagePreview.tsx:741-752 | only the scale changes; with Ctrl it lands in [0.1, 5] and equals scale − deltaY/1000 when that is in range; without Ctrl nothing changes |
| Editor.ZoomInStep | src/components/ImagePreview.tsx:884 | only the scale changes; it stays in [0.1, 5], never decreases, and grows by 0.2 when that fits |
| Editor.ZoomOutStep | src/components/ImagePreview.tsx:888 | only the scale changes; it stays in [0.1, 5], never increases, and shrinks by 0.2 when that fits |
| Editor.ResetStep | src/components/ImagePreview.tsx:776-779 | scale 1 and offset (0,0), every other field unchanged |
| Editor.DeleteErrorCalls | src/components/ImagePreview.tsx:689-695 | one delete action exactly when the selected id is truthy and present in the list, carrying that entry |
| Editor.ActiveError | src/components/ImagePreview.tsx:147-150 | none iff the effective tool is not select or no entry is both selected and not rejected; otherwise the first such entry of the list |
| Editor.ImagePreview.constructor | src/components/ImagePreview.tsx:103-121 | the initial state: scale 1, no offset, select mode, no gesture |
| Editor.ImagePreview.MouseDown | src/components/ImagePreview.tsx:364-454 | performs exactly the mouse-down step on the pre-state and returns its callbacks; the scale stays in range |
| Editor.ImagePreview.PressSelect | src/components/ImagePreview.tsx:390-452 | performs exactly the select-tool press: a handle of the selected box, else the topmost hit, else deselect |
| Editor.ImagePreview.MouseMove | src/components/ImagePreview.tsx:456-576 | performs exactly the mouse-move step on the pre-state |
| Editor.ImagePreview.MouseUp | src/components/ImagePreview.tsx:578-654 | performs exactly the mouse-up step on the pre-state and returns its callbacks |
| Editor.ImagePreview.KeyDown | src/components/ImagePreview.tsx:701-720 | performs exactly the key-down step |
| Editor.ImagePreview.KeyUp | src/components/ImagePreview.tsx:722-726 | performs exactly the key-up step |
| Editor.ImagePreview.Wheel | src/components/ImagePreview.tsx:741-752 | performs exactly the wheel step |
| Editor.ImagePreview.ZoomIn | src/components/ImagePreview.tsx:884 | performs exactly the zoom-in step |
| Editor.ImagePreview.ZoomOut | src/components/ImagePreview.tsx:888 | performs exactly the zoom-out step |
| Editor.ImagePreview.Reset | src/components/ImagePreview.tsx:776-779 | performs exactly the reset step |
| Editor.ImagePreview.SetMode | src/components/ImagePreview.tsx:862-876 | the tool buttons change the mode and nothing else |
| EditorLemmas.MouseDownWithoutImage | src/components/ImagePreview.tsx:365-366 | without an image a press changes nothing and calls nothing |
| EditorLemmas.MouseDownStartsDrag | src/components/ImagePreview.tsx:367-368 | over an image every press starts a drag at the client point and keeps zoom, pan, mode and quick-pan |
| EditorLemmas.MouseDownPan | src/components/ImagePreview.tsx:371-374 | hand tool: the offset is remembered for the pan and no callback is made |
| EditorLemmas.MouseDownDraw | src/components/ImagePreview.tsx:377-381 | draw tool: the selection is cleared and a zero-size box starts at the pointer's image position, nothing else changes |
| EditorLemmas.MouseDownSelects | src/components/ImagePreview.tsx:384-453 | select tool: the press continues as the select half at the pointer's canvas position |
| EditorLemmas.MouseDownGrabsHandle | src/components/ImagePreview.tsx:395-410 | near a corner of the selected visible box, the first such corner in tl, tr, bl, br order is grabbed, the box is snapshot, with no callback |
| EditorLemmas.MouseDownHitTest | src/components/ImagePreview.tsx:412-452 | off the handles, the last visible entry hit by body or label becomes selected with its box snapshot for a move; if none is hit the selection is cleared; rejected entries are never selected |
| EditorLemmas.MouseMoveIdle | src/components/ImagePreview.tsx:457-493 | without a drag a move changes no state |
| EditorLemmas.PanMove | src/components/ImagePreview.tsx:499-506 | the offset is the press-time offset plus the screen displacement since the press; nothing else changes |
| EditorLemmas.DrawMove | src/components/ImagePreview.tsx:509-512 | only the second corner of the new box follows the pointer |
| EditorLemmas.ResizeMove | src/components/ImagePreview.tsx:515-541 | the live box stays in the image for any snapshot; with the pointer inside, the dragged corner is the pointer, and with the snapshot inside too the opposite corner is the snapshot's |
| EditorLemmas.MoveMove | src/components/ImagePreview.tsx:545-574 | the live box stays in the image; while the shifted box fits it is the snapshot moved by the image-space displacement, with its width and height |
| EditorLemmas.MouseUpEndsGesture | src/components/ImagePreview.tsx:578-654 | every release ends the drag and clears the handle, the live box and the snapshot; zoom, pan and quick-pan stay; the mode changes only to select |
| EditorLemmas.DrawCommit | src/components/ImagePreview.tsx:583-613 | a drawn box over 5 px on both sides becomes a new entry with the next index, the first class and its colour as stroke and fill, confidence 1, description "1.0" and status accepted, selected and sent as create, and the tool returns to select; a smaller one produces nothing |
| EditorLemmas.DrawnBoxInsideIsKept | src/components/ImagePreview.tsx:585-591 | a drawn box inside the image keeps its corners up to min/max order |
| EditorLemmas.EditCommit | src/components/ImagePreview.tsx:615-646 | callbacks happen iff the committed box differs from the snapshot; it is ordered and inside the image and reported in the list; an update is sent exactly when the selected id is in the list, carrying the first entry with that id with the new box and status accepted |
| EditorLemmas.ChangeClassRule | src/components/ImagePreview.tsx:796 | the class selector does nothing without an active entry; otherwise it reports the re-classed list and sends one update carrying the new class (for a known class) |
| EditorLemmas.SpaceEntersDraw | src/components/ImagePreview.tsx:709-712 | Space without repeat selects the draw tool and clears the selection |
| EditorLemmas.QuickPanRule | src/components/ImagePreview.tsx:716-725 | Control down sets quick-pan (effective tool hand) and Control up clears it, both leaving the mode and selection alone |
| EditorLemmas.ApplyKeepsScale | src/components/ImagePreview.tsx:747-749 | every editor event keeps the scale in [0.1, 5] |
| EditorLemmas.ScaleStaysInRange | src/components/ImagePreview.tsx:747-749 | any sequence of events from a state in range keeps the scale in [0.1, 5] |
| EditorLemmas.InitialScaleInRange | src/components/ImagePreview.tsx:103 | from the initial scale 1, any sequence of events keeps the scale in [0.1, 5] |
| Store.FindSelected | src/app/page.tsx:271 | the image found has the selected src and no earlier image has it; none iff no image has it |
| Store.UpdateErrorsRule | src/app/page.tsx:262-276 | only the closure's images with the selected src get the new list; if one exists it becomes selected and the list is shown, otherwise only the (unchanged) images are written; the selected box is kept |
| Store.UpdateErrorsStep | src/app/page.tsx:262-276 | the selected box is kept and the images keep their number, ids and srcs (the full rule is UpdateErrorsRule) |
| Store.VerifyPass | src/app/page.tsx:287-302 | the map computes the status-updated images and, as it goes, the captured image id, bbox and class |
| Store.VerifyErrors | src/app/page.tsx:291-298 | the inner map sets the status of the entries with the id and captures the last one's bbox and class |
| Store.VerifyChangesOnlyStatus | src/app/page.tsx:279-313 | only the status of entries with the id in images with the selected src changes; every list keeps its length; the shown list and the selected box stay |
| Store.CapturedMeaning | src/app/page.tsx:284-298 | the captured image id is the last matching image's (or ""); a captured bbox and class come from an entry with the id in such an image |
| Store.CaptureErrorsMeaning | src/app/page.tsx:291-298 | the captured bbox and class change only to those of an entry with the id, and are set when one exists |
| Store.VerifyIntent | src/app/page.tsx:310-312 | at most one status request, sent iff a matching image with a non-empty id was visited; it carries that image's id, the id and status, and the matching entry's bbox and class |
| Store.VerifyIntentUnique | src/app/page.tsx:279-313 | with one matching image and one entry with the id, the request is exactly that image's id with that entry's class and bbox |
| Store.VerifyStep | src/app/page.tsx:279-313 | the shown list and the selected box are untouched, the images keep their number, and at most one request goes out (full rules: VerifyChangesOnlyStatus, VerifyIntent) |
| Store.CapturedUnique | src/app/page.tsx:287-302 | with one matching image, the captured locals are its id and its last entry with the id |
| Store.LastEntryCaptured | src/app/page.tsx:291-298 | the captured bbox and class are those of the last entry with the id |
| Store.ReplaceById | src/app/page.tsx:342 | same length; entries with the id become the replacement, all others are unchanged; an absent id changes nothing; a replacement with that id keeps every position's id |
| Store.ActionNeedsImageId | src/app/page.tsx:320 | without a selected image id an action changes nothing and sends nothing |
| Store.ErrorActionStep | src/app/page.tsx:316-375 | exactly one request iff the closure has a selected image id, addressed to that image, a create request exactly for the create action (full rules: CreateAppends, UpdateAndDeleteReplace) |
| Store.CreateAppends | src/app/page.tsx:323-333 | create appends the entry as accepted with confidence 1 to the closure's list, shows it in the selected image, keeps the selected box, and sends the entry as received with the closure's selection |
| Store.UpdateAndDeleteReplace | src/app/page.tsx:334-373 | update and delete replace the entries with the id in the closure's list by the given entry as accepted or rejected, removing nothing; both send that status with class and bbox; delete clears the selected box |
| Store.FailedResponseChangesNothing | src/app/page.tsx:97-103 | a failed reply, or one without a truthy error id, changes no store state |
| Store.SwapChangesOnlyTempId | src/app/page.tsx:106-119 | the swap changes only the ids equal to the temporary id, in images with the request's image id; all other fields, entries and images are unchanged |
| Store.SwapLeavesNoTempId | src/app/page.tsx:106-119 | after the swap no entry of that image carries the temporary id, given a different real id |
| Store.SwapIdempotent | src/app/page.tsx:106-119 | repeating the swap changes nothing |
| Store.SwapImages | src/app/page.tsx:106-119 | the images keep their number, ids, srcs and list lengths (the full rule is SwapChangesOnlyTempId) |
| Store.SwapSelectedBox | src/app/page.tsx:132-138 | the result is the current selection or the real id, and never the temporary id when the two ids differ |
| Store.CreateResponseStep | src/app/page.tsx:97-143 | a failed reply changes nothing and the number of images never changes (full rules: FailedResponseChangesNothing, AcceptedResponseRule) |
| Store.SwapSelectedBoxRule | src/app/page.tsx:132-138 | the selected box becomes the real id when it, or the issuing handler's view of it, held the temporary id; otherwise it is kept |
| Store.AcceptedResponseRule | src/app/page.tsx:104-138 | an accepted reply swaps the ids; if an image with the issuing handler's selected src exists, it is selected and its list shown, else the selection and shown list stay |
| Store.AddNewImageRule | src/app/page.tsx:237-243 | the image is appended after the current images; when the closure saw no selection it is selected and its list shown, otherwise the selection stays; the selected box is kept |
| Store.UploadSelectsEveryImage | src/app/page.tsx:171-217 | through the upload worker, whose closure is the first render's empty store, every added image becomes the selected image with its list shown |
| Store.UploadDropsSelection | src/app/page.tsx:237-243 | so an upload while another image is selected replaces that selection, where the same handler with a current closure keeps it |
| Store.RemoveRule | src/app/page.tsx:245-259 | exactly the image at the index is removed, the others keep their order; removing the selected image selects the first remaining one or nothing, otherwise the selection stays |
| Store.RemoveStep | src/app/page.tsx:245-259 | one image fewer and the selected box kept (the full rule is RemoveRule) |
| Store.DispatchStep | src/app/page.tsx:399-406 | at most one request, only from an action; a list replacement or an update never changes the selected box |
| Store.DispatchOne | src/app/page.tsx:399-406 | an event with one callback is that callback's step |
| Store.EventRequestsSeeRender | src/app/page.tsx:85-138 | every create request of an editor event records the selected image and box from before the event, whatever callbacks came earlier in it |
| Store.Home.constructor | src/app/page.tsx:23-28 | the store starts with no images, nothing selected, and an empty shown list |
| Store.Home.UpdateErrors | src/app/page.tsx:262-276 | performs exactly the list-replacement step of the render whose store is given |
| Store.Home.VerifyError | src/app/page.tsx:279-313 | performs exactly the verify step and returns its status request |
| Store.Home.ErrorAction | src/app/page.tsx:316-375 | performs exactly the create, update or delete step of the render whose store is given and returns its request |
| Store.Home.OnCreateResponse | src/app/page.tsx:97-143 | performs exactly the reply step: the id swap and the two selected-box writes |
| Store.Home.AddNewImage | src/app/page.tsx:237-243 | performs exactly the add step of the render whose store is given |
| Store.Home.Remove | src/app/page.tsx:245-259 | performs exactly the remove step, for an index in range |
| Store.Home.SelectImage | src/components/ImageList.tsx:44-45 | clicking an image selects it and shows its list, changing nothing else |
| Store.Home.SetSelectedErrors | src/components/ErrorList.tsx:99 | the error list's setter replaces the shown list and nothing else |
| Store.Home.Dispatch | src/app/page.tsx:316-375 | applies one callback: the selection setter directly, the list replacement and the actions as handlers of the given render |
| Store.Home.DispatchEvent | src/app/page.tsx:399-406 | runs an editor event's callbacks in order, each handler reading the store from before the event, and returns all their requests in order |
| Predict.Validate | src/app/api/predict-insulator/route.ts:203-222 | a missing file is rejected first; a present file passes iff its type is image/jpeg |
| Predict.ImageIdOf | src/app/api/predict-insulator/route.ts:235 | the server's image id when it is non-empty, the fresh id otherwise |
| Predict.Decode | src/app/api/predict-insulator/route.ts:237-258 | one entry per result, at its position, with the result's id and bbox (the full rule is DecodeIsPositional) |
| Predict.Post | src/app/api/predict-insulator/route.ts:198-274 | a 400 exactly when validation fails, 400 missing-file for no file, a 500 exactly when a valid upload's server call fails, for well-formed request bodies and replies |
| Predict.RejectionSkipsServer | src/app/api/predict-insulator/route.ts:203-222 | a rejected upload gives the same 400 whatever the server would say, so the server is not consulted |
| Predict.SuccessfulPost | src/app/api/predict-insulator/route.ts:224-262 | a JPEG upload the server answers yields its decoded results under the server's or a fresh image id |
| Predict.DecodeIsPositional | src/app/api/predict-insulator/route.ts:237-255 | as many entries as results (none when absent); each entry's index is its position; id, class, confidence, bbox and status are copied and the description is the confidence as text |
| Predict.DecodedNames | src/app/api/predict-insulator/route.ts:241 | the name is the route's label for a known class key, which is never "Unknown" and is the editor's name for it, and "Unknown" for any other key |
| Predict.LabelsAreNotUnknown | src/app/api/predict-insulator/route.ts:39-60 | no class label is the fallback text |
| Predict.DecodedColors | src/app/api/predict-insulator/route.ts:194-195 | a known class key draws its colour from its own palette, an unknown one from the default palette |
| ErrorList.RemoveId | src/components/ErrorList.tsx:44 | the filter keeps exactly the entries without the id, never grows, and changes nothing when the id is absent |
| ErrorList.RemoveIdAppend | src/components/ErrorList.tsx:44 | the filter keeps the list order: filtering a concatenation concatenates the filtered parts |
| ErrorList.RemoveIdSingleton | src/components/ErrorList.tsx:44 | a single entry is kept exactly when it has another id |
| ErrorList.IsCheckedRule | src/components/ErrorList.tsx:51 | an item is ticked iff some shown entry has its id |
| ErrorList.ErrorChange | src/components/ErrorList.tsx:30-47 | ticking appends one non-rejected entry with the item id after the unchanged list and selects it; unticking leaves no entry with the id and sends nothing; a report is only ever "null" (full rules: CheckRule, UncheckRule) |
| ErrorList.Accept | src/components/ErrorList.tsx:60-89 | the request always names the item and is never rejected; the list never shrinks and the selection is untouched (full rules: AcceptToggles, AcceptList) |
| ErrorList.CheckRule | src/components/ErrorList.tsx:31-42 | ticking appends one entry and selects the item; a rejected item is appended with status null and reported as null, any other is appended unchanged with no report |
| ErrorList.UncheckRule | src/components/ErrorList.tsx:43-45 | unticking removes every entry with the id and keeps all others; the selection is cleared iff the item was the selected box |
| ErrorList.AcceptToggles | src/components/ErrorList.tsx:60-64 | accepted goes to null and anything else to accepted; the request is always sent |
| ErrorList.AcceptList | src/components/ErrorList.tsx:65-88 | accepting an unticked item appends one accepted copy; accepting a ticked one, or un-accepting, sets the status in place with the length unchanged |
| ErrorList.Reject | src/components/ErrorList.tsx:92-101 | the request always names the item and is never accepted; the list never grows and the selection is untouched (the full rule is the next row) |
| ErrorList.RejectRule | src/components/ErrorList.tsx:92-101 | rejected toggles with null and the request is always sent; becoming rejected while ticked removes the entry from the shown list, and otherwise the list is unchanged |
| Scenarios.DrawScenario | src/components/ImagePreview.tsx:583-613 | drawing from image point (10,10) to (100,100) on a 500×500 image creates that box as an accepted first-class entry, selects it, sends create and returns to select |
| Scenarios.DrawSavedScenario | src/app/page.tsx:97-138 | the drawn entry is appended and sent with its temporary id and the selection from before the draw; the new box is selected; a successful reply leaves no temporary id in the image and selects the server id |
| Scenarios.DrawEvent | src/components/ImagePreview.tsx:607-608 | the draw gesture's select-then-create event equals the create handler of the pre-event render written over the store with the new box selected |
| Scenarios.ClickBeforeReplyScenario | src/app/page.tsx:131-138 | a box selected after the draw and before the create reply stays selected when the reply arrives |
| Scenarios.ResizeScenario | src/components/ImagePreview.tsx:517-646 | dragging the tl handle of [50,50,150,150] to (20,20) commits [20,20,150,150] and sends it as an update |
| Scenarios.RejectedLeavesVisibleSet | src/components/ImagePreview.tsx:312 | a rejected entry keeps its place in the list but leaves the drawn set |
| Scenarios.PredictTwo | src/app/api/predict-insulator/route.ts:237-255 | two server records decode into two entries with their ids, confidences, boxes, statuses and classes |
| Scenarios.RejectStep | src/components/ErrorList.tsx:92-101 | rejecting A from the list hides it, reports it rejected with its class and box, and the page marks it rejected |
| Scenarios.RecheckStep | src/components/ErrorList.tsx:31-42 | ticking the rejected A again reports it as null, selects it and shows it again |
| Scenarios.RejectThenRecheck | src/app/page.tsx:279-313 | reject then tick again, for any two entries: A leaves the drawn set, stays rejected in the image, and is sent back as null with its class and box and drawn again |
| Scenarios.RejectThenRecheckScenario | src/app/api/predict-insulator/route.ts:198-274 | the whole walk from a prediction through reject and re-tick sends A back as null with the first class and A's box |

## Left out

- Canvas drawing (`draw`, `drawBox`), cursor styling, Popover anchoring and the toolbar JSX are rendering through the 2D-context API. The model keeps only the two pure render rules: the visible set, and the dragged box drawn from `draggingBox`.
- `ctx.measureText` in the label hit test is a foreign text-metrics call. It is the parameter `measure`. When the canvas has no 2D context the source skips the label test; that case is a `measure` returning widths below -10, under which no label is hit (`NoContextNoLabelHit`).
- The container size is read from the DOM (`clientWidth - 20`, height 340). The width is a parameter; the height is the constant 340. `ValidProps` requires the width to be positive, so a container 20 px wide or narrower is not modelled: there the source computes zero or negative scales.
- `fetch` and axios calls, notifications, `FileReader`/`Image` decoding and the upload debounce are I/O and timers. Requests are returned as intents, and replies are handler inputs.
- `uuidv4`, `Math.random`, `dayjs` naming and `Number.prototype.toString` are oracles. They are parameters (`freshId`, `random`, `show`).
- The create-error and update-error-status routes only check fields and rename them before a network call, so they are not part of this model.
- `createNewImage`, `generateRandomName` and the upload pipeline build new images from I/O. `AddNewImage` takes the finished image.
- `ImageUploader`, `ImageList` rendering, the header, the layout and the configuration files are UI, layout and config. Only ImageList's click handler is modelled, as `SelectImage`.
- Floating-point rounding is not modelled: coordinates are exact reals, and the round trip is stated over reals.
- Races between overlapping replies are left out. Each reply is applied as one atomic store update, and the editor's callbacks from one event are applied in order by the handlers of the render the event arrived in.
- Predict.Post: the typed inputs exclude a request body that `request.formData()` cannot parse (line 200) and an AI-server reply whose shape makes the decoding throw (`data` null at line 235, a record without `confidence` at line 250). The route answers both with 500 from its `catch` (lines 264-273), which the model does not cover.
- Store.Home.Remove: requires an index in range, because the source dereferences `removed[0]` and fails for any other index. JavaScript's negative splice indices are not modelled.
- The route's class-key lookups (`CLASSES[classId]`, `type in colors`) are plain dictionary lookups. Keys every JavaScript object inherits from `Object.prototype` (such as `constructor`) are not modelled.
- The hover cursor changes in `handleMouseMove` (lines 457-493) are not modelled. The canvas binds `onMouseLeave` to `handleMouseUp` itself (line 911), so leaving the canvas is the same `MouseUp` step.
