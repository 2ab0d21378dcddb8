/** The page's annotation store (src/app/page.tsx): the uploaded images, the
    selected image, the error list shown for it and the selected box.

    Requests to the backend are not performed; each handler returns the
    `Intent`s it would send, and a server reply is an input of its own
    handler, applied as one atomic update. */
module Store {
  import opened Types
  import Editor

  datatype Store = Store(
    images: seq<ImageItem>,
    selectedImage: Option<ImageItem>,
    selectedErrors: seq<ErrorItem>,
    selectedBoxId: Option<string>)

  const EmptyStore: Store := Store([], None, [], None)

  /** A request to the backend. `bbox` is `None` where the page sends `[]`.
      A create request also records the selection the issuing handler saw,
      which the reply handler reads from its closure. */
  datatype Intent =
    | UpdateStatus(imageId: string, errorId: string, classId: string, status: Status, bbox: Option<Box>)
    | CreateError(imageId: string, error: ErrorItem, selectedImageAtCall: Option<ImageItem>, selectedBoxIdAtCall: Option<string>)

  datatype Effect = Effect(store: Store, intents: seq<Intent>)

  /** `img.src === selectedImage?.src`: never true while nothing is selected. */
  predicate SameSrc(img: ImageItem, selected: Option<ImageItem>) {
    selected.Some? && img.src == selected.value.src
  }

  /** `images.find((i) => i.src === selectedImage?.src)`. */
  function FindSelected(images: seq<ImageItem>, selected: Option<ImageItem>): (r: Option<ImageItem>)
    ensures r.Some? ==> r.value in images && SameSrc(r.value, selected)
    ensures r.None? <==> forall i :: 0 <= i < |images| ==> !SameSrc(images[i], selected)
    ensures r.Some? ==>
      exists k :: 0 <= k < |images| && images[k] == r.value &&
        forall j :: 0 <= j < k ==> !SameSrc(images[j], selected)
  {
    match FindFirst(images, (img: ImageItem) => SameSrc(img, selected))
    case None => None
    case Some(k) => Some(images[k])
  }

  // ---------------------------------------------------------------------
  // handleUpdateErrors (lines 262-276)

  function ReplaceErrors(images: seq<ImageItem>, selected: Option<ImageItem>, newErrors: seq<ErrorItem>): seq<ImageItem> {
    seq(|images|, i requires 0 <= i < |images| =>
      if SameSrc(images[i], selected) then images[i].(errors := newErrors) else images[i])
  }

  /** The handler of the render whose store was `closure`: it reads
      `images` and `selectedImage` from there (lines 263-271) and writes
      its plain values over `st`, the store as the event has left it so
      far. Run on its own, `closure` and `st` are the same store. */
  function UpdateErrorsStep(closure: Store, st: Store, newErrors: seq<ErrorItem>): (r: Store)
    ensures r.selectedBoxId == st.selectedBoxId && |r.images| == |closure.images|
    ensures forall i :: 0 <= i < |r.images| ==> r.images[i].id == closure.images[i].id && r.images[i].src == closure.images[i].src
  {
    var newImages := ReplaceErrors(closure.images, closure.selectedImage, newErrors);
    match FindSelected(newImages, closure.selectedImage)
    case Some(current) => st.(images := newImages, selectedImage := Some(current), selectedErrors := newErrors)
    case None => st.(images := newImages)
  }

  /** Only images with the selected image's src get the new list; if one
      exists it becomes the selected image and the list becomes the shown
      list, otherwise only the images are written (unchanged); the selected
      box never changes. */
  lemma UpdateErrorsRule(closure: Store, st: Store, newErrors: seq<ErrorItem>)
    ensures var r := UpdateErrorsStep(closure, st, newErrors);
      && |r.images| == |closure.images|
      && (forall i :: 0 <= i < |closure.images| && SameSrc(closure.images[i], closure.selectedImage) ==>
            r.images[i] == closure.images[i].(errors := newErrors))
      && (forall i :: 0 <= i < |closure.images| && !SameSrc(closure.images[i], closure.selectedImage) ==>
            r.images[i] == closure.images[i])
      && r.selectedBoxId == st.selectedBoxId
      && ((exists i :: 0 <= i < |closure.images| && SameSrc(closure.images[i], closure.selectedImage)) ==>
            && r.selectedErrors == newErrors
            && r.selectedImage.Some? && r.selectedImage.value.errors == newErrors
            && r.selectedImage.value.src == closure.selectedImage.value.src
            && r.selectedImage.value in r.images)
      && ((forall i :: 0 <= i < |closure.images| ==> !SameSrc(closure.images[i], closure.selectedImage)) ==>
            r == st.(images := closure.images))
  {
    var newImages := ReplaceErrors(closure.images, closure.selectedImage, newErrors);
    if exists i :: 0 <= i < |closure.images| && SameSrc(closure.images[i], closure.selectedImage) {
      var i :| 0 <= i < |closure.images| && SameSrc(closure.images[i], closure.selectedImage);
      assert SameSrc(newImages[i], closure.selectedImage);
    } else {
      assert newImages == closure.images;
    }
  }

  // ---------------------------------------------------------------------
  // handleVerifyError (lines 279-313)

  function VerifyImages(images: seq<ImageItem>, selected: Option<ImageItem>, errorId: string, status: Status): seq<ImageItem> {
    seq(|images|, i requires 0 <= i < |images| =>
      if SameSrc(images[i], selected) then images[i].(errors := SetStatus(images[i].errors, errorId, status)) else images[i])
  }

  /** The locals `targetImageId`, `targetBbox` and `classId` that the map
      assigns as it goes; `bbox` is `None` while `targetBbox` is `[]`. */
  datatype Target = Target(imageId: string, bbox: Option<Box>, classId: string)

  const NoTarget: Target := Target("", None, "")

  /** The captured locals after visiting `errors` in order, starting from `t`. */
  function CaptureErrors(t: Target, errors: seq<ErrorItem>, errorId: string): Target
    decreases |errors|
  {
    if errors == [] then t
    else
      var prev := CaptureErrors(t, errors[..|errors| - 1], errorId);
      var e := errors[|errors| - 1];
      if e.id == errorId then prev.(bbox := Some(e.bbox), classId := e.classId) else prev
  }

  /** The captured locals after visiting `images` in order. */
  function Captured(images: seq<ImageItem>, selected: Option<ImageItem>, errorId: string): Target
    decreases |images|
  {
    if images == [] then NoTarget
    else
      var prev := Captured(images[..|images| - 1], selected, errorId);
      var img := images[|images| - 1];
      if SameSrc(img, selected) then CaptureErrors(prev.(imageId := img.id), img.errors, errorId) else prev
  }

  /** The map with its captured assignments, as the loop it is. */
  method VerifyPass(images: seq<ImageItem>, selected: Option<ImageItem>, errorId: string, status: Status)
    returns (newImages: seq<ImageItem>, target: Target)
    ensures newImages == VerifyImages(images, selected, errorId, status)
    ensures target == Captured(images, selected, errorId)
  {
    newImages, target := [], NoTarget;
    var i := 0;
    while i < |images|
      invariant 0 <= i <= |images|
      invariant newImages == VerifyImages(images[..i], selected, errorId, status)
      invariant target == Captured(images[..i], selected, errorId)
    {
      var img := images[i];
      assert images[..i + 1][..i] == images[..i];
      if SameSrc(img, selected) {
        var newErrors;
        newErrors, target := VerifyErrors(img.errors, target.(imageId := img.id), errorId, status);
        newImages := newImages + [img.(errors := newErrors)];
      } else {
        newImages := newImages + [img];
      }
      i := i + 1;
    }
    assert images[..i] == images;
  }

  /** The inner map over one image's entries, capturing as it goes. */
  method VerifyErrors(errors: seq<ErrorItem>, start: Target, errorId: string, status: Status)
    returns (newErrors: seq<ErrorItem>, target: Target)
    ensures newErrors == SetStatus(errors, errorId, status)
    ensures target == CaptureErrors(start, errors, errorId)
  {
    newErrors, target := [], start;
    var j := 0;
    while j < |errors|
      invariant 0 <= j <= |errors|
      invariant newErrors == SetStatus(errors[..j], errorId, status)
      invariant target == CaptureErrors(start, errors[..j], errorId)
    {
      var err := errors[j];
      assert errors[..j + 1][..j] == errors[..j];
      if err.id == errorId {
        target := target.(bbox := Some(err.bbox), classId := err.classId);
        newErrors := newErrors + [err.(status := status)];
      } else {
        newErrors := newErrors + [err];
      }
      j := j + 1;
    }
    assert errors[..j] == errors;
  }

  function VerifyStep(st: Store, errorId: string, status: Status): (r: Effect)
    ensures r.store.selectedErrors == st.selectedErrors && r.store.selectedBoxId == st.selectedBoxId
    ensures |r.store.images| == |st.images| && |r.intents| <= 1
  {
    var newImages := VerifyImages(st.images, st.selectedImage, errorId, status);
    var t := Captured(st.images, st.selectedImage, errorId);
    var st1 := match FindSelected(newImages, st.selectedImage)
      case Some(current) => st.(images := newImages, selectedImage := Some(current))
      case None => st.(images := newImages);
    Effect(st1, if t.imageId != "" then [UpdateStatus(t.imageId, errorId, t.classId, status, t.bbox)] else [])
  }

  /** Verifying changes only the status of the entries with that id in the
      selected image; every list keeps its length, and the shown list and
      the selected box are left alone. */
  lemma VerifyChangesOnlyStatus(st: Store, errorId: string, status: Status)
    ensures var r := VerifyStep(st, errorId, status).store;
      && |r.images| == |st.images|
      && r.selectedErrors == st.selectedErrors && r.selectedBoxId == st.selectedBoxId
      && (forall i :: 0 <= i < |st.images| && !SameSrc(st.images[i], st.selectedImage) ==> r.images[i] == st.images[i])
      && (forall i :: 0 <= i < |st.images| ==>
            && r.images[i].id == st.images[i].id && r.images[i].src == st.images[i].src
            && |r.images[i].errors| == |st.images[i].errors|
            && (forall j :: 0 <= j < |st.images[i].errors| && st.images[i].errors[j].id != errorId ==>
                  r.images[i].errors[j] == st.images[i].errors[j])
            && (forall j :: 0 <= j < |st.images[i].errors| && st.images[i].errors[j].id == errorId ==>
                  r.images[i].errors[j] == if SameSrc(st.images[i], st.selectedImage)
                                           then st.images[i].errors[j].(status := status)
                                           else st.images[i].errors[j]))
  {
  }

  /** What the captured locals hold: the id of the last image with the
      selected src, or "" if there is none; a bbox and class only if some
      such image has an entry with the id, and then the last such entry's. */
  lemma {:induction false} CapturedMeaning(images: seq<ImageItem>, selected: Option<ImageItem>, errorId: string)
    ensures var t := Captured(images, selected, errorId);
      && (t.imageId != "" ==> exists i :: 0 <= i < |images| && SameSrc(images[i], selected) && images[i].id == t.imageId)
      && ((forall i :: 0 <= i < |images| ==> !SameSrc(images[i], selected)) ==> t == NoTarget)
      && (t.bbox.Some? ==>
            exists i, j :: 0 <= i < |images| && SameSrc(images[i], selected) && 0 <= j < |images[i].errors|
              && images[i].errors[j].id == errorId
              && images[i].errors[j].bbox == t.bbox.value && images[i].errors[j].classId == t.classId)
      && (t.bbox.None? ==> t.classId == "")
    decreases |images|
  {
    if images != [] {
      var init := images[..|images| - 1];
      var img := images[|images| - 1];
      CapturedMeaning(init, selected, errorId);
      var prev := Captured(init, selected, errorId);
      if SameSrc(img, selected) {
        CaptureErrorsMeaning(prev.(imageId := img.id), img.errors, errorId);
        var t := Captured(images, selected, errorId);
        if t.bbox.Some? && t.bbox != prev.bbox {
          var j :| 0 <= j < |img.errors| && img.errors[j].id == errorId
            && img.errors[j].bbox == t.bbox.value && img.errors[j].classId == t.classId;
          assert images[|images| - 1] == img;
        } else if t.bbox.Some? {
          var i, j :| 0 <= i < |init| && SameSrc(init[i], selected) && 0 <= j < |init[i].errors|
            && init[i].errors[j].id == errorId
            && init[i].errors[j].bbox == prev.bbox.value && init[i].errors[j].classId == prev.classId;
          if t.classId != prev.classId {
            var j' :| 0 <= j' < |img.errors| && img.errors[j'].id == errorId
              && img.errors[j'].bbox == t.bbox.value && img.errors[j'].classId == t.classId;
            assert images[|images| - 1] == img;
          } else {
            assert images[i] == init[i];
          }
        }
        assert images[|images| - 1] == img;
      } else {
        assert forall i :: 0 <= i < |init| ==> init[i] == images[i];
      }
    }
  }

  /** Over one image's list: the bbox and class come from the last entry
      with the id, or stay as they were if there is none; the image id stays. */
  lemma {:induction false} CaptureErrorsMeaning(t: Target, errors: seq<ErrorItem>, errorId: string)
    ensures var r := CaptureErrors(t, errors, errorId);
      && r.imageId == t.imageId
      && ((forall j :: 0 <= j < |errors| ==> errors[j].id != errorId) ==> r == t)
      && ((r.bbox != t.bbox || r.classId != t.classId) ==>
            r.bbox.Some? && exists j :: 0 <= j < |errors| && errors[j].id == errorId && errors[j].bbox == r.bbox.value && errors[j].classId == r.classId)
      && ((exists j :: 0 <= j < |errors| && errors[j].id == errorId) ==> r.bbox.Some?)
    decreases |errors|
  {
    if errors != [] {
      var init := errors[..|errors| - 1];
      CaptureErrorsMeaning(t, init, errorId);
      var prev := CaptureErrors(t, init, errorId);
      var e := errors[|errors| - 1];
      if e.id != errorId {
        var r := CaptureErrors(t, errors, errorId);
        if r.bbox != t.bbox || r.classId != t.classId {
          var j :| 0 <= j < |init| && init[j].id == errorId && init[j].bbox == r.bbox.value && init[j].classId == r.classId;
          assert errors[j] == init[j];
        }
        if exists j :: 0 <= j < |errors| && errors[j].id == errorId {
          var j :| 0 <= j < |errors| && errors[j].id == errorId;
          assert j < |init| && init[j] == errors[j];
        }
        assert forall j :: 0 <= j < |init| ==> init[j] == errors[j];
      }
    }
  }

  /** The request rule: a status request goes out exactly when an image
      with the selected src and a non-empty id was visited last; it carries
      that image's id, the id and status given, and (when some entry of
      such an image has the id) that entry's bbox and class. Without a
      matching image nothing is sent. */
  lemma VerifyIntent(st: Store, errorId: string, status: Status)
    ensures var e := VerifyStep(st, errorId, status);
      var t := Captured(st.images, st.selectedImage, errorId);
      && |e.intents| <= 1
      && (|e.intents| == 1 <==> t.imageId != "")
      && ((forall i :: 0 <= i < |st.images| ==> !SameSrc(st.images[i], st.selectedImage)) ==> e.intents == [])
      && (|e.intents| == 1 ==>
            && e.intents[0].UpdateStatus? && e.intents[0].errorId == errorId && e.intents[0].status == status
            && (exists i :: 0 <= i < |st.images| && SameSrc(st.images[i], st.selectedImage) && st.images[i].id == e.intents[0].imageId)
            && (e.intents[0].bbox.Some? ==>
                  exists i, j :: 0 <= i < |st.images| && SameSrc(st.images[i], st.selectedImage) && 0 <= j < |st.images[i].errors|
                    && st.images[i].errors[j].id == errorId
                    && st.images[i].errors[j].bbox == e.intents[0].bbox.value
                    && st.images[i].errors[j].classId == e.intents[0].classId))
  {
    CapturedMeaning(st.images, st.selectedImage, errorId);
  }

  /** With one image of the selected src holding one entry with the id, the
      request carries exactly that image's id and that entry's bbox and class. */
  lemma VerifyIntentUnique(st: Store, errorId: string, status: Status, k: nat, j: nat)
    requires k < |st.images| && SameSrc(st.images[k], st.selectedImage) && st.images[k].id != ""
    requires forall i :: 0 <= i < |st.images| && i != k ==> !SameSrc(st.images[i], st.selectedImage)
    requires j < |st.images[k].errors| && st.images[k].errors[j].id == errorId
    requires forall j' :: 0 <= j' < |st.images[k].errors| && j' != j ==> st.images[k].errors[j'].id != errorId
    ensures VerifyStep(st, errorId, status).intents ==
      [UpdateStatus(st.images[k].id, errorId, st.images[k].errors[j].classId, status, Some(st.images[k].errors[j].bbox))]
  {
    CapturedUnique(st.images, st.selectedImage, errorId, k, j);
  }

  lemma {:induction false} CapturedUnique(images: seq<ImageItem>, selected: Option<ImageItem>, errorId: string, k: nat, j: nat)
    requires k < |images| && SameSrc(images[k], selected)
    requires forall i :: 0 <= i < |images| && i != k ==> !SameSrc(images[i], selected)
    requires j < |images[k].errors| && images[k].errors[j].id == errorId
    requires forall j' :: j < j' < |images[k].errors| ==> images[k].errors[j'].id != errorId
    ensures Captured(images, selected, errorId) ==
      Target(images[k].id, Some(images[k].errors[j].bbox), images[k].errors[j].classId)
    decreases |images|
  {
    var init := images[..|images| - 1];
    var img := images[|images| - 1];
    if k == |images| - 1 {
      CapturedMeaning(init, selected, errorId);
      assert forall i :: 0 <= i < |init| ==> !SameSrc(init[i], selected) by {
        forall i | 0 <= i < |init| ensures !SameSrc(init[i], selected) { assert init[i] == images[i]; }
      }
      LastEntryCaptured(NoTarget.(imageId := img.id), img.errors, errorId, j);
    } else {
      assert init[k] == images[k];
      CapturedUnique(init, selected, errorId, k, j);
    }
  }

  lemma {:induction false} LastEntryCaptured(t: Target, errors: seq<ErrorItem>, errorId: string, j: nat)
    requires j < |errors| && errors[j].id == errorId
    requires forall j' :: j < j' < |errors| ==> errors[j'].id != errorId
    ensures CaptureErrors(t, errors, errorId) == t.(bbox := Some(errors[j].bbox), classId := errors[j].classId)
    decreases |errors|
  {
    var init := errors[..|errors| - 1];
    if j < |errors| - 1 {
      assert init[j] == errors[j];
      LastEntryCaptured(t, init, errorId, j);
    } else {
      CaptureErrorsMeaning(t, init, errorId);
    }
  }

  // ---------------------------------------------------------------------
  // handleErrorAction (lines 316-375)

  /** `list.map((e) => (e.id === id ? x : e))`. */
  function ReplaceById(errors: seq<ErrorItem>, id: string, x: ErrorItem): (r: seq<ErrorItem>)
    ensures |r| == |errors|
    ensures forall i :: 0 <= i < |errors| && errors[i].id == id ==> r[i] == x
    ensures forall i :: 0 <= i < |errors| && errors[i].id != id ==> r[i] == errors[i]
    ensures !HasId(errors, id) ==> r == errors
    ensures x.id == id ==> forall i :: 0 <= i < |errors| ==> r[i].id == errors[i].id
  {
    seq(|errors|, i requires 0 <= i < |errors| => if errors[i].id == id then x else errors[i])
  }

  /** True when `selectedImage?.id` is truthy. */
  predicate HasSelectedId(st: Store) {
    st.selectedImage.Some? && st.selectedImage.value.id != ""
  }

  /** The handler of the render whose store was `closure`, written over `st`.
      It reads `selectedImage` and `selectedErrors` from its closure, calls
      that render's `handleUpdateErrors`, and hands `createError` (of the
      same render) its view of the selection. */
  function ErrorActionStep(closure: Store, st: Store, action: Editor.Action, error: ErrorItem): (r: Effect)
    ensures |r.intents| <= 1
    ensures |r.intents| == 1 <==> HasSelectedId(closure)
    ensures |r.intents| == 1 ==> r.intents[0].imageId == closure.selectedImage.value.id
    ensures |r.intents| == 1 ==> (r.intents[0].CreateError? <==> action == Editor.Create)
  {
    if !HasSelectedId(closure) then Effect(st, [])
    else
      var id := closure.selectedImage.value.id;
      match action
      case Create =>
        Effect(UpdateErrorsStep(closure, st, closure.selectedErrors + [error.(status := Accepted, confidence := 1.0)]),
               [CreateError(id, error, closure.selectedImage, closure.selectedBoxId)])
      case Update =>
        Effect(UpdateErrorsStep(closure, st, ReplaceById(closure.selectedErrors, error.id, error.(status := Accepted))),
               [UpdateStatus(id, error.id, error.classId, Accepted, Some(error.bbox))])
      case Delete =>
        Effect(UpdateErrorsStep(closure, st, ReplaceById(closure.selectedErrors, error.id, error.(status := Rejected))).(selectedBoxId := None),
               [UpdateStatus(id, error.id, error.classId, Rejected, Some(error.bbox))])
  }

  /** The selected image is still one of the images. */
  predicate SelectionPresent(st: Store) {
    st.selectedImage.Some? && exists i :: 0 <= i < |st.images| && SameSrc(st.images[i], st.selectedImage)
  }

  /** Without a selected image id an action does nothing. */
  lemma ActionNeedsImageId(closure: Store, st: Store, action: Editor.Action, error: ErrorItem)
    requires !HasSelectedId(closure)
    ensures ErrorActionStep(closure, st, action, error) == Effect(st, [])
  {
  }

  /** Create appends the entry as accepted with confidence 1 to the list
      its closure shows, and sends the entry as received to the create
      endpoint together with the closure's selection. */
  lemma CreateAppends(closure: Store, st: Store, error: ErrorItem)
    requires HasSelectedId(closure) && SelectionPresent(closure)
    ensures var e := ErrorActionStep(closure, st, Editor.Create, error);
      && e.store.selectedErrors == closure.selectedErrors + [error.(status := Accepted, confidence := 1.0)]
      && |e.store.selectedErrors| == |closure.selectedErrors| + 1
      && e.store.selectedImage.Some? && e.store.selectedImage.value.errors == e.store.selectedErrors
      && e.store.selectedBoxId == st.selectedBoxId
      && e.intents == [CreateError(closure.selectedImage.value.id, error, closure.selectedImage, closure.selectedBoxId)]
  {
    UpdateErrorsRule(closure, st, closure.selectedErrors + [error.(status := Accepted, confidence := 1.0)]);
  }

  /** Update and delete replace the entries with that id by the given entry
      with status accepted (update) or rejected (delete): nothing is removed.
      Both send that status with the entry's class and bbox; delete also
      clears the selected box. */
  lemma UpdateAndDeleteReplace(closure: Store, st: Store, action: Editor.Action, error: ErrorItem)
    requires HasSelectedId(closure) && SelectionPresent(closure) && action != Editor.Create
    ensures var status := if action == Editor.Update then Accepted else Rejected;
      var e := ErrorActionStep(closure, st, action, error);
      && |e.store.selectedErrors| == |closure.selectedErrors|
      && (forall i :: 0 <= i < |closure.selectedErrors| ==>
            e.store.selectedErrors[i] ==
              if closure.selectedErrors[i].id == error.id then error.(status := status) else closure.selectedErrors[i])
      && e.store.selectedImage.Some? && e.store.selectedImage.value.errors == e.store.selectedErrors
      && e.intents == [UpdateStatus(closure.selectedImage.value.id, error.id, error.classId, status, Some(error.bbox))]
      && (action == Editor.Delete ==> e.store.selectedBoxId.None?)
      && (action == Editor.Update ==> e.store.selectedBoxId == st.selectedBoxId)
  {
    var status := if action == Editor.Update then Accepted else Rejected;
    UpdateErrorsRule(closure, st, ReplaceById(closure.selectedErrors, error.id, error.(status := status)));
  }

  // ---------------------------------------------------------------------
  // The id swap in createError (lines 97-143)

  /** The create endpoint's reply: `success`, and `data.error_item.id` if present. */
  datatype CreateResponse = CreateResponse(success: bool, errorItemId: Option<string>)

  function SwapErrors(errors: seq<ErrorItem>, tempId: string, realId: string): seq<ErrorItem> {
    seq(|errors|, i requires 0 <= i < |errors| => if errors[i].id == tempId then errors[i].(id := realId) else errors[i])
  }

  function SwapImages(images: seq<ImageItem>, imageId: string, tempId: string, realId: string): (r: seq<ImageItem>)
    ensures |r| == |images|
    ensures forall i :: 0 <= i < |r| ==>
      r[i].id == images[i].id && r[i].src == images[i].src && |r[i].errors| == |images[i].errors|
  {
    seq(|images|, i requires 0 <= i < |images| =>
      if images[i].id == imageId then images[i].(errors := SwapErrors(images[i].errors, tempId, realId)) else images[i])
  }

  /** The reply is accepted when it succeeded and names a non-empty id. */
  predicate Succeeded(resp: CreateResponse) {
    resp.success && Truthy(resp.errorItemId)
  }

  /** The selected box after the two writes at lines 132-138: a plain write
      from the issuing handler's view, then an updater on the current value. */
  function SwapSelectedBox(current: Option<string>, atCall: Option<string>, tempId: string, realId: string): (r: Option<string>)
    ensures tempId != realId ==> r != Some(tempId)
    ensures r == current || r == Some(realId)
  {
    var afterWrite := if atCall == Some(tempId) then Some(realId) else current;
    if afterWrite == Some(tempId) then Some(realId) else afterWrite
  }

  function CreateResponseStep(st: Store, call: Intent, resp: CreateResponse): (r: Store)
    requires call.CreateError?
    ensures !Succeeded(resp) ==> r == st
    ensures |r.images| == |st.images|
  {
    if !Succeeded(resp) then st
    else
      var realId := resp.errorItemId.value;
      var tempId := call.error.id;
      var newImages := SwapImages(st.images, call.imageId, tempId, realId);
      var st1 := match FindSelected(newImages, call.selectedImageAtCall)
        case Some(current) => st.(images := newImages, selectedImage := Some(current), selectedErrors := current.errors)
        case None => st.(images := newImages);
      st1.(selectedBoxId := SwapSelectedBox(st.selectedBoxId, call.selectedBoxIdAtCall, tempId, realId))
  }

  /** A failed reply, or one without an id, changes nothing. */
  lemma FailedResponseChangesNothing(st: Store, call: Intent, resp: CreateResponse)
    requires call.CreateError? && !Succeeded(resp)
    ensures CreateResponseStep(st, call, resp) == st
  {
  }

  /** The swap touches only the errors of images with the request's image
      id, and of those only the ids equal to the temporary id. */
  lemma SwapChangesOnlyTempId(images: seq<ImageItem>, imageId: string, tempId: string, realId: string)
    ensures var r := SwapImages(images, imageId, tempId, realId);
      && |r| == |images|
      && (forall i :: 0 <= i < |images| && images[i].id != imageId ==> r[i] == images[i])
      && (forall i :: 0 <= i < |images| ==>
            && r[i] == images[i].(errors := r[i].errors)
            && |r[i].errors| == |images[i].errors|
            && (forall j :: 0 <= j < |images[i].errors| ==>
                  r[i].errors[j] == if images[i].id == imageId && images[i].errors[j].id == tempId
                                    then images[i].errors[j].(id := realId) else images[i].errors[j]))
  {
  }

  /** After the swap that image holds no temporary id. */
  lemma SwapLeavesNoTempId(images: seq<ImageItem>, imageId: string, tempId: string, realId: string)
    requires realId != tempId
    ensures var r := SwapImages(images, imageId, tempId, realId);
      forall i, j :: 0 <= i < |r| && r[i].id == imageId && 0 <= j < |r[i].errors| ==> r[i].errors[j].id != tempId
  {
  }

  /** Hence a second swap with the same ids changes nothing. */
  lemma SwapIdempotent(images: seq<ImageItem>, imageId: string, tempId: string, realId: string)
    requires realId != tempId
    ensures var r := SwapImages(images, imageId, tempId, realId);
      SwapImages(r, imageId, tempId, realId) == r
  {
    var r := SwapImages(images, imageId, tempId, realId);
    SwapLeavesNoTempId(images, imageId, tempId, realId);
    forall i | 0 <= i < |r| && r[i].id == imageId
      ensures SwapErrors(r[i].errors, tempId, realId) == r[i].errors
    {
    }
  }

  /** The selected box becomes the real id when it held the temporary id;
      with a fresh temporary id (one the issuing handler had not selected),
      any other selection survives. */
  lemma SwapSelectedBoxRule(current: Option<string>, atCall: Option<string>, tempId: string, realId: string)
    ensures current == Some(tempId) ==> SwapSelectedBox(current, atCall, tempId, realId) == Some(realId)
    ensures atCall == Some(tempId) ==> SwapSelectedBox(current, atCall, tempId, realId) == Some(realId)
    ensures atCall != Some(tempId) && current != Some(tempId) ==> SwapSelectedBox(current, atCall, tempId, realId) == current
  {
  }

  /** An accepted reply swaps the ids and, if an image with the issuing
      handler's selected src exists, selects it and shows its list. */
  lemma AcceptedResponseRule(st: Store, call: Intent, resp: CreateResponse)
    requires call.CreateError? && Succeeded(resp)
    ensures var r := CreateResponseStep(st, call, resp);
      var newImages := SwapImages(st.images, call.imageId, call.error.id, resp.errorItemId.value);
      && r.images == newImages
      && r.selectedBoxId == SwapSelectedBox(st.selectedBoxId, call.selectedBoxIdAtCall, call.error.id, resp.errorItemId.value)
      && ((exists i :: 0 <= i < |newImages| && SameSrc(newImages[i], call.selectedImageAtCall)) ==>
            && r.selectedImage.Some? && r.selectedImage.value in newImages
            && r.selectedImage.value.src == call.selectedImageAtCall.value.src
            && r.selectedErrors == r.selectedImage.value.errors)
      && ((forall i :: 0 <= i < |newImages| ==> !SameSrc(newImages[i], call.selectedImageAtCall)) ==>
            r.selectedImage == st.selectedImage && r.selectedErrors == st.selectedErrors)
  {
  }

  // ---------------------------------------------------------------------
  // addNewImage (lines 237-243) and handleRemove (lines 245-259)

  /** `addNewImage` of the render whose store was `closure`: the images
      are appended through an updater (on `st`), the selection test reads
      the closure's `selectedImage`. */
  function AddNewImageStep(closure: Store, st: Store, img: ImageItem): Store {
    if closure.selectedImage.None? then
      st.(images := st.images + [img], selectedImage := Some(img), selectedErrors := img.errors)
    else st.(images := st.images + [img])
  }

  /** The image is appended after the current ones; it is selected and its
      list shown when the closure saw no selection, otherwise the selection
      stays; the selected box is untouched. */
  lemma AddNewImageRule(closure: Store, st: Store, img: ImageItem)
    ensures var r := AddNewImageStep(closure, st, img);
      && r.images == st.images + [img] && |r.images| == |st.images| + 1
      && r.images[|st.images|] == img
      && r.selectedBoxId == st.selectedBoxId
      && (closure.selectedImage.None? ==> r.selectedImage == Some(img) && r.selectedErrors == img.errors)
      && (closure.selectedImage.Some? ==> r.selectedImage == st.selectedImage && r.selectedErrors == st.selectedErrors)
  {
  }

  /** The only caller, the upload worker, is created once in a `useState`
      initialiser (lines 171-217), so the `addNewImage` it calls (line 206)
      is the first render's, whose closure is the initial empty store:
      every uploaded image becomes the selected one. */
  lemma UploadSelectsEveryImage(st: Store, img: ImageItem)
    ensures var r := AddNewImageStep(EmptyStore, st, img);
      && r.images == st.images + [img]
      && r.selectedImage == Some(img) && r.selectedErrors == img.errors
      && r.selectedBoxId == st.selectedBoxId
  {
  }

  /** Hence an upload while an image is selected replaces that selection,
      where the selection test of line 239 means to keep it. */
  lemma UploadDropsSelection(st: Store, img: ImageItem)
    requires st.selectedImage.Some? && st.selectedImage != Some(img)
    ensures AddNewImageStep(EmptyStore, st, img).selectedImage != st.selectedImage
    ensures AddNewImageStep(st, st, img).selectedImage == st.selectedImage
  {
  }

  function RemoveStep(st: Store, index: nat): (r: Store)
    requires index < |st.images|
    ensures |r.images| == |st.images| - 1 && r.selectedBoxId == st.selectedBoxId
  {
    var rest := st.images[..index] + st.images[index + 1..];
    if SameSrc(st.images[index], st.selectedImage) then
      if rest == [] then st.(images := rest, selectedImage := None, selectedErrors := [])
      else st.(images := rest, selectedImage := Some(rest[0]), selectedErrors := rest[0].errors)
    else st.(images := rest)
  }

  /** Removing drops exactly the image at `index`, keeping the others in
      order; removing the selected image selects the first remaining one
      (or nothing), otherwise the selection stays. */
  lemma RemoveRule(st: Store, index: nat)
    requires index < |st.images|
    ensures var r := RemoveStep(st, index);
      && |r.images| == |st.images| - 1
      && (forall i :: 0 <= i < index ==> r.images[i] == st.images[i])
      && (forall i :: index <= i < |r.images| ==> r.images[i] == st.images[i + 1])
      && multiset(r.images) + multiset{st.images[index]} == multiset(st.images)
      && r.selectedBoxId == st.selectedBoxId
      && (SameSrc(st.images[index], st.selectedImage) && |st.images| > 1 ==>
            r.selectedImage == Some(r.images[0]) && r.selectedErrors == r.images[0].errors)
      && (SameSrc(st.images[index], st.selectedImage) && |st.images| == 1 ==>
            r.selectedImage.None? && r.selectedErrors == [])
      && (!SameSrc(st.images[index], st.selectedImage) ==>
            r.selectedImage == st.selectedImage && r.selectedErrors == st.selectedErrors)
  {
    assert st.images == st.images[..index] + [st.images[index]] + st.images[index + 1..];
  }

  // ---------------------------------------------------------------------
  // The editor's callbacks

  /** One callback of an editor event. `onSelectBox` is the setter itself;
      `onUpdateErrors` and `onAction` are the handlers of the render the
      event arrived in, so they read `closure` and write over `st`. */
  function DispatchStep(closure: Store, st: Store, cb: Editor.Callback): (r: Effect)
    ensures |r.intents| <= 1 && (!cb.OnAction? ==> r.intents == [])
    ensures cb.UpdateErrors? || (cb.OnAction? && cb.action == Editor.Update) ==> r.store.selectedBoxId == st.selectedBoxId
  {
    match cb
    case SelectBox(id) => Effect(st.(selectedBoxId := id), [])
    case UpdateErrors(es) => Effect(UpdateErrorsStep(closure, st, es), [])
    case OnAction(a, e) => ErrorActionStep(closure, st, a, e)
  }

  /** The callbacks of one editor event, in order, all made by handlers
      of the same render. */
  function DispatchAll(closure: Store, st: Store, calls: seq<Editor.Callback>): Effect
    decreases |calls|
  {
    if calls == [] then Effect(st, [])
    else
      var first := DispatchStep(closure, st, calls[0]);
      var rest := DispatchAll(closure, first.store, calls[1..]);
      Effect(rest.store, first.intents + rest.intents)
  }

  /** An event with one callback is that callback's step. */
  lemma DispatchOne(closure: Store, st: Store, cb: Editor.Callback)
    ensures DispatchAll(closure, st, [cb]) == DispatchStep(closure, st, cb)
  {
    assert [cb][1..] == [];
    var first := DispatchStep(closure, st, cb);
    assert DispatchAll(closure, first.store, []) == Effect(first.store, []);
    assert first.intents + [] == first.intents;
  }

  /** A create request carries the selection of the render its event
      arrived in. */
  predicate FromRender(closure: Store, call: Intent) {
    call.CreateError? ==> call.selectedImageAtCall == closure.selectedImage && call.selectedBoxIdAtCall == closure.selectedBoxId
  }

  /** Every create request an editor event issues records the selection
      as it was before the event: a `SelectBox` made earlier in the same
      event (the draw gesture's own, lines 607-608) is not seen by it. */
  lemma {:induction false} EventRequestsSeeRender(closure: Store, st: Store, calls: seq<Editor.Callback>)
    ensures forall k :: 0 <= k < |DispatchAll(closure, st, calls).intents| ==>
      FromRender(closure, DispatchAll(closure, st, calls).intents[k])
    decreases |calls|
  {
    if calls != [] {
      var first := DispatchStep(closure, st, calls[0]);
      EventRequestsSeeRender(closure, first.store, calls[1..]);
    }
  }

  // ---------------------------------------------------------------------
  // The page component

  class Home {
    var images: seq<ImageItem>
    var selectedImage: Option<ImageItem>
    var selectedErrors: seq<ErrorItem>
    var selectedBoxId: Option<string>

    function State(): Store
      reads this
    {
      Store(images, selectedImage, selectedErrors, selectedBoxId)
    }

    constructor ()
      ensures State() == EmptyStore
    {
      images, selectedImage, selectedErrors, selectedBoxId := [], None, [], None;
    }

    /** `handleUpdateErrors` of the render whose store was `closure`. */
    method UpdateErrors(closure: Store, newErrors: seq<ErrorItem>)
      modifies this
      ensures State() == UpdateErrorsStep(closure, old(State()), newErrors)
    {
      var newImages := ReplaceErrors(closure.images, closure.selectedImage, newErrors);
      var current := FindSelected(newImages, closure.selectedImage);
      images := newImages;
      if current.Some? {
        selectedImage := current;
        selectedErrors := newErrors;
      }
    }

    method VerifyError(errorId: string, status: Status) returns (intents: seq<Intent>)
      modifies this
      ensures State() == VerifyStep(old(State()), errorId, status).store
      ensures intents == VerifyStep(old(State()), errorId, status).intents
    {
      var newImages, target := VerifyPass(images, selectedImage, errorId, status);
      var updated := FindSelected(newImages, selectedImage);
      images := newImages;
      if updated.Some? {
        selectedImage := updated;
      }
      intents := [];
      if target.imageId != "" {
        intents := [UpdateStatus(target.imageId, errorId, target.classId, status, target.bbox)];
      }
    }

    /** `handleErrorAction` of the render whose store was `closure`. */
    method ErrorAction(closure: Store, action: Editor.Action, error: ErrorItem) returns (intents: seq<Intent>)
      modifies this
      ensures State() == ErrorActionStep(closure, old(State()), action, error).store
      ensures intents == ErrorActionStep(closure, old(State()), action, error).intents
    {
      intents := [];
      if !HasSelectedId(closure) {
        return;
      }
      var id := closure.selectedImage.value.id;
      match action
      case Create =>
        UpdateErrors(closure, closure.selectedErrors + [error.(status := Accepted, confidence := 1.0)]);
        intents := [CreateError(id, error, closure.selectedImage, closure.selectedBoxId)];
      case Update =>
        UpdateErrors(closure, ReplaceById(closure.selectedErrors, error.id, error.(status := Accepted)));
        intents := [UpdateStatus(id, error.id, error.classId, Accepted, Some(error.bbox))];
      case Delete =>
        UpdateErrors(closure, ReplaceById(closure.selectedErrors, error.id, error.(status := Rejected)));
        intents := [UpdateStatus(id, error.id, error.classId, Rejected, Some(error.bbox))];
        selectedBoxId := None;
    }

    method OnCreateResponse(call: Intent, resp: CreateResponse)
      requires call.CreateError?
      modifies this
      ensures State() == CreateResponseStep(old(State()), call, resp)
    {
      if !Succeeded(resp) {
        return;
      }
      var realId := resp.errorItemId.value;
      var tempId := call.error.id;
      var newImages := SwapImages(images, call.imageId, tempId, realId);
      var current := FindSelected(newImages, call.selectedImageAtCall);
      images := newImages;
      if current.Some? {
        selectedImage := current;
        selectedErrors := current.value.errors;
      }
      if call.selectedBoxIdAtCall == Some(tempId) {
        selectedBoxId := Some(realId);
      }
      if selectedBoxId == Some(tempId) {
        selectedBoxId := Some(realId);
      }
    }

    /** `addNewImage` of the render whose store was `closure`. */
    method AddNewImage(closure: Store, img: ImageItem)
      modifies this
      ensures State() == AddNewImageStep(closure, old(State()), img)
    {
      images := images + [img];
      if closure.selectedImage.None? {
        selectedImage := Some(img);
        selectedErrors := img.errors;
      }
    }

    method Remove(index: nat)
      requires index < |images|
      modifies this
      ensures State() == RemoveStep(old(State()), index)
    {
      var removed := images[index];
      var rest := images[..index] + images[index + 1..];
      var wasSelected := SameSrc(removed, selectedImage);
      images := rest;
      if wasSelected {
        if rest == [] {
          selectedImage, selectedErrors := None, [];
        } else {
          selectedImage, selectedErrors := Some(rest[0]), rest[0].errors;
        }
      }
    }

    /** The image list's click: select the image and show its list. */
    method SelectImage(img: ImageItem)
      modifies this
      ensures State() == old(State()).(selectedImage := Some(img), selectedErrors := img.errors)
    {
      selectedImage, selectedErrors := Some(img), img.errors;
    }

    /** `setSelectedErrors`, as the error list calls it. */
    method SetSelectedErrors(es: seq<ErrorItem>)
      modifies this
      ensures State() == old(State()).(selectedErrors := es)
    {
      selectedErrors := es;
    }

    method Dispatch(closure: Store, cb: Editor.Callback) returns (intents: seq<Intent>)
      modifies this
      ensures State() == DispatchStep(closure, old(State()), cb).store
      ensures intents == DispatchStep(closure, old(State()), cb).intents
    {
      intents := [];
      match cb
      case SelectBox(id) => selectedBoxId := id;
      case UpdateErrors(es) => UpdateErrors(closure, es);
      case OnAction(a, e) => intents := ErrorAction(closure, a, e);
    }

    /** The callbacks an editor handler returned, run by the handlers of
        the render the event arrived in. */
    method DispatchEvent(calls: seq<Editor.Callback>) returns (intents: seq<Intent>)
      modifies this
      ensures State() == DispatchAll(old(State()), old(State()), calls).store
      ensures intents == DispatchAll(old(State()), old(State()), calls).intents
    {
      var closure := State();
      intents := [];
      var i := 0;
      while i < |calls|
        invariant 0 <= i <= |calls|
        invariant DispatchAll(closure, State(), calls[i..]).store == DispatchAll(closure, closure, calls).store
        invariant intents + DispatchAll(closure, State(), calls[i..]).intents == DispatchAll(closure, closure, calls).intents
      {
        assert calls[i..][1..] == calls[i + 1..];
        var more := Dispatch(closure, calls[i]);
        intents := intents + more;
        i := i + 1;
      }
    }
  }
}
