/** End-to-end walks through the editor, the error list and the store: a
    new box drawn and saved, a corner dragged, and an entry rejected and
    ticked again. Each pointer position is given by the image point it maps
    to, so the walks hold for every zoom, pan and container width. */
module Scenarios {
  import opened Types
  import opened Geometry
  import opened Editor
  import Taxonomy
  import Store
  import ErrorList
  import Predict

  /** The pointer's image position depends on the session only through
      zoom and pan. */
  lemma SameView(p: Props, s: Session, t: Session, client: Point)
    requires ValidProps(p) && ValidSession(s) && ValidSession(t)
    requires s.scale == t.scale && s.offset == t.offset
    ensures MousePosInImage(p, s, client) == MousePosInImage(p, t, client)
  {
  }

  predicate PointsAt(p: Props, s: Session, client: Point, x: real, y: real)
    requires ValidProps(p) && ValidSession(s)
  {
    var pos := MousePosInImage(p, s, client);
    pos.Some? && pos.value.x == x && pos.value.y == y
  }

  /** Drawing from image point (10,10) to (100,100) on a 500x500 image
      creates one entry with that box, the first class, confidence 1 and
      status accepted, selects it and sends a create action. */
  lemma DrawScenario(s: Session, p: Props, down: Point, move: Point, measure: string -> real, freshId: string)
    requires ValidSession(s) && ValidProps(p) && p.image == Some(Size(500.0, 500.0))
    requires s.mode == Draw && !s.isQuickPan
    requires PointsAt(p, s, down, 10.0, 10.0) && PointsAt(p, s, move, 100.0, 100.0)
    ensures var d := MouseDownStep(s, p, down, measure);
      var m := MouseMoveStep(d.session, p, move);
      var u := MouseUpStep(m, p, freshId);
      var b := Box(10.0, 10.0, 100.0, 100.0);
      && d.calls == [SelectBox(None)]
      && m.tempBox == Some(b)
      && u.calls == [SelectBox(Some(freshId)), OnAction(Create, NewError(freshId, |p.errors|, b))]
      && NewError(freshId, |p.errors|, b).classId == Taxonomy.Classes[0].id
      && NewError(freshId, |p.errors|, b).confidence == 1.0
      && NewError(freshId, |p.errors|, b).status == Accepted
      && u.session.mode == Select && u.session.tempBox.None?
  {
    var d := MouseDownStep(s, p, down, measure);
    SameView(p, s, d.session, move);
    var m := MouseMoveStep(d.session, p, move);
    assert m.tempBox == Some(Box(10.0, 10.0, 100.0, 100.0));
    assert Committed(Box(10.0, 10.0, 100.0, 100.0), p.image) == Box(10.0, 10.0, 100.0, 100.0);
  }

  /** The draw gesture's two callbacks: the selection of the new box,
      then the create action run by the handler of the same render. */
  lemma DrawEvent(st: Store.Store, e: ErrorItem)
    ensures Store.DispatchAll(st, st, [SelectBox(Some(e.id)), OnAction(Create, e)]) ==
      Store.ErrorActionStep(st, st.(selectedBoxId := Some(e.id)), Create, e)
  {
    var calls := [SelectBox(Some(e.id)), OnAction(Create, e)];
    var st1 := st.(selectedBoxId := Some(e.id));
    var b := Store.ErrorActionStep(st, st1, Create, e);
    assert calls[1..] == [OnAction(Create, e)];
    assert calls[1..][1..] == [];
    assert Store.DispatchAll(st, st1, calls[1..]) == Store.Effect(b.store, b.intents + []);
  }

  /** The drawn entry, passed to the page: it is appended to the shown list
      as accepted, a create request goes out with the temporary id, and a
      successful reply with a server id leaves no temporary id in that
      image and moves the selection to the server id. */
  lemma DrawSavedScenario(st: Store.Store, e: ErrorItem, reply: Store.CreateResponse)
    requires Store.HasSelectedId(st) && Store.SelectionPresent(st)
    requires e.id != "" && e.status == Accepted && e.confidence == 1.0
    requires Store.Succeeded(reply) && reply.errorItemId.value != e.id
    ensures var a := Store.DispatchAll(st, st, [SelectBox(Some(e.id)), OnAction(Create, e)]);
      var imageId := st.selectedImage.value.id;
      && a.intents == [Store.CreateError(imageId, e, st.selectedImage, st.selectedBoxId)]
      && a.store.selectedErrors == st.selectedErrors + [e]
      && a.store.selectedBoxId == Some(e.id)
      && var st2 := Store.CreateResponseStep(a.store, a.intents[0], reply);
      && st2.selectedBoxId == reply.errorItemId
      && (forall i, j :: 0 <= i < |st2.images| && st2.images[i].id == imageId && 0 <= j < |st2.images[i].errors|
            ==> st2.images[i].errors[j].id != e.id)
  {
    var calls := [SelectBox(Some(e.id)), OnAction(Create, e)];
    var st1 := st.(selectedBoxId := Some(e.id));
    Store.CreateAppends(st, st1, e);
    assert e.(status := Accepted, confidence := 1.0) == e;
    var b := Store.ErrorActionStep(st, st1, Create, e);
    DrawEvent(st, e);
    Store.SwapLeavesNoTempId(b.store.images, st.selectedImage.value.id, e.id, reply.errorItemId.value);
  }

  /** The operator draws a box and then clicks another one before the
      create reply arrives: the reply leaves the later click's selection
      alone, because the request recorded the selection from before the
      draw and the updater only renames the temporary id. */
  lemma ClickBeforeReplyScenario(st: Store.Store, e: ErrorItem, other: string, reply: Store.CreateResponse)
    requires Store.HasSelectedId(st) && Store.SelectionPresent(st)
    requires st.selectedBoxId != Some(e.id) && other != e.id
    ensures var a := Store.DispatchAll(st, st, [SelectBox(Some(e.id)), OnAction(Create, e)]);
      var b := Store.DispatchAll(a.store, a.store, [SelectBox(Some(other))]);
      && |a.intents| == 1 && a.intents[0].CreateError?
      && Store.CreateResponseStep(b.store, a.intents[0], reply).selectedBoxId == Some(other)
  {
    var st1 := st.(selectedBoxId := Some(e.id));
    Store.CreateAppends(st, st1, e);
    DrawEvent(st, e);
    var a := Store.ErrorActionStep(st, st1, Create, e);
    Store.DispatchOne(a.store, a.store, SelectBox(Some(other)));
  }

  /** Dragging the top-left handle of [50,50,150,150] to image point (20,20)
      and releasing commits [20,20,150,150] and sends it as an update. */
  lemma ResizeScenario(s: Session, p: Props, client: Point, e: ErrorItem, freshId: string)
    requires ValidSession(s) && ValidProps(p) && p.image == Some(Size(500.0, 500.0))
    requires s.mode == Select && !s.isQuickPan && s.isDragging
    requires s.activeHandle == Some(TL) && s.initialBoxState == Some(Box(50.0, 50.0, 150.0, 150.0))
    requires e.id == "a" && p.errors == [e] && p.selectedBoxId == Some("a")
    requires PointsAt(p, s, client, 20.0, 20.0)
    ensures var m := MouseMoveStep(s, p, client);
      var u := MouseUpStep(m, p, freshId);
      var b := Box(20.0, 20.0, 150.0, 150.0);
      && m.draggingBox == Some(b)
      && u.calls == [UpdateErrors([e.(bbox := b)]), OnAction(Update, e.(bbox := b, status := Accepted))]
      && u.session.draggingBox.None? && u.session.initialBoxState.None? && !u.session.isDragging
  {
    var b := Box(20.0, 20.0, 150.0, 150.0);
    var m := MouseMoveStep(s, p, client);
    assert m.draggingBox == Some(b);
    assert Committed(b, p.image) == b;
    assert EditErrors(p.errors, "a", Some(b), None) == [e.(bbox := b)];
  }

  /** A rejected entry drops out of the drawn and hit-tested set but keeps
      its place in the full list. */
  lemma RejectedLeavesVisibleSet(es: seq<ErrorItem>, id: string)
    ensures var r := SetStatus(es, id, Rejected);
      && |r| == |es|
      && (forall i :: 0 <= i < |es| && es[i].id == id ==> r[i] == es[i].(status := Rejected))
      && (forall e :: e in Visible(r) ==> e.id != id)
  {
  }

  /** Two predicted entries, A (confidence 0.92) and B (0.40), of the
      first two classes. */
  lemma PredictTwo(boxA: Box, boxB: Box, random: nat -> real, show: real -> string)
    requires Predict.Oracle(random)
    ensures var d := Predict.Decode(TwoResults(boxA, boxB), random, show);
      && |d| == 2
      && d[0].id == "A" && d[0].confidence == 0.92 && d[0].status == Pending && d[0].bbox == boxA
      && d[0].classId == Taxonomy.Classes[0].id
      && d[1].id == "B" && d[1].confidence == 0.40 && d[1].status == Pending
  {
  }

  function TwoResults(boxA: Box, boxB: Box): seq<Predict.ServerResult> {
    [Predict.ServerResult("A", Taxonomy.Classes[0].id, 0.92, boxA, Pending),
     Predict.ServerResult("B", Taxonomy.Classes[1].id, 0.40, boxB, Pending)]
  }

  /** The image holding the two entries, freshly added: it is selected and
      shows both. */
  function Loaded(a: ErrorItem, b: ErrorItem): Store.Store {
    Store.AddNewImageStep(Store.EmptyStore, Store.EmptyStore, ImageItem("img", "src", "image_0", [a, b], None))
  }

  /** Rejecting A from the list: A is reported rejected with its class and
      box, the page marks it rejected in the image, and the list hides it. */
  lemma RejectStep(a: ErrorItem, b: ErrorItem)
    requires a.id == "A" && b.id == "B" && a.status == Pending
    ensures var st0 := Loaded(a, b);
      var rej := ErrorList.Reject(st0.selectedErrors, a);
      var v1 := Store.VerifyStep(st0, "A", Rejected);
      && rej.verify == Some(ErrorList.Verify("A", Rejected))
      && rej.shown == [b]
      && v1.intents == [Store.UpdateStatus("img", "A", a.classId, Rejected, Some(a.bbox))]
      && v1.store.selectedImage == Some(ImageItem("img", "src", "image_0", [a.(status := Rejected), b], None))
      && v1.store.selectedBoxId.None?
  {
    var st0 := Loaded(a, b);
    assert st0.selectedErrors == [a, b];
    RejectFromList(a, b);
    RejectInStore(a, b);
  }

  /** The list half of the rejection. */
  lemma RejectFromList(a: ErrorItem, b: ErrorItem)
    requires a.id == "A" && b.id == "B" && a.status == Pending
    ensures var rej := ErrorList.Reject([a, b], a);
      rej.verify == Some(ErrorList.Verify("A", Rejected)) && rej.shown == [b]
  {
    assert [a, b][0].id == a.id;
    assert ErrorList.IsChecked([a, b], a);
    assert ErrorList.RemoveId([a, b], "A") == [b] by {
      assert [a, b][1..] == [b];
      assert [b][1..] == [];
    }
  }

  /** The page half of the rejection. */
  lemma RejectInStore(a: ErrorItem, b: ErrorItem)
    requires a.id == "A" && b.id == "B"
    ensures var v1 := Store.VerifyStep(Loaded(a, b), "A", Rejected);
      && v1.intents == [Store.UpdateStatus("img", "A", a.classId, Rejected, Some(a.bbox))]
      && v1.store.selectedImage == Some(ImageItem("img", "src", "image_0", [a.(status := Rejected), b], None))
      && v1.store.selectedBoxId.None?
  {
    var img := ImageItem("img", "src", "image_0", [a, b], None);
    var st0 := Loaded(a, b);
    assert st0 == Store.Store([img], Some(img), [a, b], None);
    RejectRequest(img, st0);
    RejectedImage(img, st0);
  }

  lemma RejectRequest(img: ImageItem, st0: Store.Store)
    requires img.id == "img" && |img.errors| == 2 && img.errors[0].id == "A" && img.errors[1].id == "B"
    requires st0.images == [img] && st0.selectedImage == Some(img)
    ensures Store.VerifyStep(st0, "A", Rejected).intents ==
      [Store.UpdateStatus("img", "A", img.errors[0].classId, Rejected, Some(img.errors[0].bbox))]
  {
    Store.VerifyIntentUnique(st0, "A", Rejected, 0, 0);
  }

  lemma RejectedImage(img: ImageItem, st0: Store.Store)
    requires |img.errors| == 2 && img.errors[0].id == "A" && img.errors[1].id == "B"
    requires st0.images == [img] && st0.selectedImage == Some(img) && st0.selectedBoxId.None?
    ensures var r := Store.VerifyStep(st0, "A", Rejected).store;
      && r.selectedImage == Some(img.(errors := [img.errors[0].(status := Rejected), img.errors[1]]))
      && r.selectedBoxId.None?
  {
    var img' := img.(errors := [img.errors[0].(status := Rejected), img.errors[1]]);
    assert SetStatus(img.errors, "A", Rejected) == img'.errors;
    assert Store.VerifyImages([img], Some(img), "A", Rejected) == [img'];
    assert Store.SameSrc(img', Some(img));
  }

  /** Ticking the rejected A again: it is reported as null, selected, and
      shown again with status null, so the canvas draws it. */
  lemma RecheckStep(a: ErrorItem, b: ErrorItem, st1: Store.Store)
    requires a.id == "A" && b.id == "B" && a.status == Rejected
    requires st1 == Store.Store([ImageItem("img", "src", "image_0", [a, b], None)],
                                Some(ImageItem("img", "src", "image_0", [a, b], None)), [b], None)
    ensures var chk := ErrorList.ErrorChange(st1.selectedErrors, st1.selectedBoxId, a, true);
      var v2 := Store.VerifyStep(st1, "A", Pending);
      && chk.verify == Some(ErrorList.Verify("A", Pending))
      && chk.select == Some(Some("A"))
      && chk.shown == [b, a.(status := Pending)]
      && a.(status := Pending) in Visible(chk.shown)
      && v2.intents == [Store.UpdateStatus("img", "A", a.classId, Pending, Some(a.bbox))]
  {
    Store.VerifyIntentUnique(st1, "A", Pending, 0, 0);
    var chk := ErrorList.ErrorChange(st1.selectedErrors, st1.selectedBoxId, a, true);
    assert a.(status := Pending) in chk.shown;
  }

  /** Reject then tick again, for any two entries A (null) and B: the
      rejected A leaves the drawn set, the image keeps it as rejected, and
      ticking it sends A as null with A's class and box and draws it again. */
  lemma RejectThenRecheck(a: ErrorItem, b: ErrorItem)
    requires a.id == "A" && b.id == "B" && a.status == Pending
    ensures var st0 := Loaded(a, b);
      var rej := ErrorList.Reject(st0.selectedErrors, a);
      var st1 := Store.VerifyStep(st0, "A", Rejected).store.(selectedErrors := rej.shown);
      var item := st1.selectedImage.value.errors[0];
      var chk := ErrorList.ErrorChange(st1.selectedErrors, st1.selectedBoxId, item, true);
      && (forall e :: e in Visible(rej.shown) ==> e.id != "A")
      && item == a.(status := Rejected)
      && chk.verify == Some(ErrorList.Verify("A", Pending))
      && Store.VerifyStep(st1, "A", Pending).intents == [Store.UpdateStatus("img", "A", a.classId, Pending, Some(a.bbox))]
      && a in Visible(chk.shown)
  {
    RejectStep(a, b);
    var a' := a.(status := Rejected);
    var st0 := Loaded(a, b);
    var rej := ErrorList.Reject(st0.selectedErrors, a);
    var st1 := Store.VerifyStep(st0, "A", Rejected).store.(selectedErrors := rej.shown);
    assert st1 == Store.Store([ImageItem("img", "src", "image_0", [a', b], None)],
                              Some(ImageItem("img", "src", "image_0", [a', b], None)), [b], None);
    RecheckStep(a', b, st1);
    assert a'.(status := Pending) == a;
  }

  /** The whole walk: predict two entries, reject A from the list, tick it
      again; the second request reports A as null with the first class and
      A's box, and A is drawn again. */
  lemma RejectThenRecheckScenario(boxA: Box, boxB: Box, random: nat -> real, show: real -> string)
    requires Predict.Oracle(random)
    ensures var d := Predict.Decode(TwoResults(boxA, boxB), random, show);
      var st0 := Loaded(d[0], d[1]);
      var rej := ErrorList.Reject(st0.selectedErrors, d[0]);
      var st1 := Store.VerifyStep(st0, "A", Rejected).store.(selectedErrors := rej.shown);
      var item := st1.selectedImage.value.errors[0];
      var chk := ErrorList.ErrorChange(st1.selectedErrors, st1.selectedBoxId, item, true);
      && (forall e :: e in Visible(rej.shown) ==> e.id != "A")
      && item == d[0].(status := Rejected)
      && chk.verify == Some(ErrorList.Verify("A", Pending))
      && Store.VerifyStep(st1, "A", Pending).intents
           == [Store.UpdateStatus("img", "A", Taxonomy.Classes[0].id, Pending, Some(boxA))]
      && d[0] in Visible(chk.shown)
  {
    PredictTwo(boxA, boxB, random, show);
    var d := Predict.Decode(TwoResults(boxA, boxB), random, show);
    RejectThenRecheck(d[0], d[1]);
  }
}
