/** Properties of the editor's gesture machine, keyboard and zoom rules
    (src/components/ImagePreview.tsx), stated over the step functions of
    module Editor that the ImagePreview methods are proved to perform. */
module EditorLemmas {
  import opened Types
  import opened Geometry
  import opened Editor
  import Taxonomy

  // ---------------------------------------------------------------------
  // Mouse down

  /** Without an image there is no pointer position: nothing happens. */
  lemma MouseDownWithoutImage(s: Session, p: Props, client: Point, measure: string -> real)
    requires ValidSession(s) && ValidProps(p) && p.image.None?
    ensures MouseDownStep(s, p, client, measure) == Step(s, [])
  {
  }

  /** Over an image every press starts a drag and leaves zoom, pan and the
      tool mode alone. */
  lemma MouseDownStartsDrag(s: Session, p: Props, client: Point, measure: string -> real)
    requires ValidSession(s) && ValidProps(p) && p.image.Some?
    ensures var r := MouseDownStep(s, p, client, measure).session;
      && r.isDragging && r.dragStart == client
      && r.scale == s.scale && r.offset == s.offset && r.mode == s.mode && r.isQuickPan == s.isQuickPan
  {
  }

  /** Hand tool: remember the pan offset; no callback. */
  lemma MouseDownPan(s: Session, p: Props, client: Point, measure: string -> real)
    requires ValidSession(s) && ValidProps(p) && p.image.Some? && CurrentMode(s) == Hand
    ensures MouseDownStep(s, p, client, measure) ==
      Step(s.(isDragging := true, dragStart := client, startOffset := s.offset), [])
  {
  }

  /** Draw tool: clear the selection and start a zero-size box whose both
      corners are the pointer's image-space position. */
  lemma MouseDownDraw(s: Session, p: Props, client: Point, measure: string -> real)
    requires ValidSession(s) && ValidProps(p) && p.image.Some? && CurrentMode(s) == Draw
    ensures var r := MouseDownStep(s, p, client, measure);
      && r.calls == [SelectBox(None)]
      && r.session.tempBox.Some?
      && var t := r.session.tempBox.value;
         && t.x1 == t.x2 && t.y1 == t.y2
         && ImageToCanvas(Metrics(p, s).value, Point(t.x1, t.y1)) == Point(client.x - p.canvasOrigin.x, client.y - p.canvasOrigin.y)
         && r.session == s.(isDragging := true, dragStart := client, tempBox := Some(t))
  {
  }

  /** In select mode a press over the image starts the drag and hands over
      to the select half at the pointer's canvas position. */
  lemma MouseDownSelects(s: Session, p: Props, client: Point, measure: string -> real)
    requires ValidSession(s) && ValidProps(p) && p.image.Some? && CurrentMode(s) == Select
    ensures MouseDownStep(s, p, client, measure) ==
      SelectPress(s.(isDragging := true, dragStart := client), p, Metrics(p, s).value,
                  Point(client.x - p.canvasOrigin.x, client.y - p.canvasOrigin.y), measure)
  {
    var pos := MousePosInImage(p, s, client);
    assert pos.Some?;
    assert Point(pos.value.canvasX, pos.value.canvasY) == Point(client.x - p.canvasOrigin.x, client.y - p.canvasOrigin.y);
  }

  lemma RankInjective(g: Handle, h: Handle)
    ensures Rank(g) == Rank(h) ==> g == h
  {
  }

  /** Select tool, first priority: a press near a corner of the selected,
      visible box grabs the first such corner in the order tl, tr, bl, br,
      snapshots that box, and makes no callback. */
  lemma MouseDownGrabsHandle(s: Session, p: Props, client: Point, measure: string -> real, e: ErrorItem, h: Handle)
    requires ValidSession(s) && ValidProps(p) && p.image.Some? && CurrentMode(s) == Select
    requires Grabbed(p) == Some(e)
    requires var c := CanvasRect(Metrics(p, s).value, e.bbox);
      var mouse := Point(client.x - p.canvasOrigin.x, client.y - p.canvasOrigin.y);
      Near(mouse, Corner(c, h)) && forall g :: Rank(g) < Rank(h) ==> !Near(mouse, Corner(c, g))
    ensures MouseDownStep(s, p, client, measure) ==
      Step(s.(isDragging := true, dragStart := client, activeHandle := Some(h), initialBoxState := Some(e.bbox)), [])
  {
    MouseDownSelects(s, p, client, measure);
    var m := Metrics(p, s).value;
    var mouse := Point(client.x - p.canvasOrigin.x, client.y - p.canvasOrigin.y);
    var r := HoverHandle(mouse, e.bbox, m);
    assert r.Some?;
    assert !(Rank(r.value) < Rank(h));
    assert !(Rank(h) < Rank(r.value));
    RankInjective(r.value, h);
  }

  /** No corner of the selected box is near the pointer (or nothing visible
      is selected). */
  predicate OffHandles(p: Props, s: Session, client: Point)
    requires ValidSession(s) && ValidProps(p) && p.image.Some?
  {
    var mouse := Point(client.x - p.canvasOrigin.x, client.y - p.canvasOrigin.y);
    Grabbed(p).Some? ==> forall h :: !Near(mouse, Corner(CanvasRect(Metrics(p, s).value, Grabbed(p).value.bbox), h))
  }

  /** Select tool, second and third priority: off the handles, the last
      visible entry whose body or label is under the pointer becomes
      selected and its box is snapshot for a move; if there is none, the
      selection is cleared. Rejected entries are never selected. */
  lemma MouseDownHitTest(s: Session, p: Props, client: Point, measure: string -> real)
    requires ValidSession(s) && ValidProps(p) && p.image.Some? && CurrentMode(s) == Select
    requires OffHandles(p, s, client)
    ensures var r := MouseDownStep(s, p, client, measure);
      var v := Visible(p.errors);
      var m := Metrics(p, s).value;
      var mouse := Point(client.x - p.canvasOrigin.x, client.y - p.canvasOrigin.y);
      && |r.calls| == 1 && r.calls[0].SelectBox?
      && (r.calls[0].id.None? <==> forall j :: 0 <= j < |v| ==> !Hits(m, measure, v[j], mouse))
      && (r.calls[0].id.None? ==> r.session == s.(isDragging := true, dragStart := client))
      && (r.calls[0].id.Some? ==>
            exists k :: 0 <= k < |v| && v[k].id == r.calls[0].id.value
              && v[k].status != Rejected && v[k] in p.errors
              && Hits(m, measure, v[k], mouse)
              && (forall j :: k < j < |v| ==> !Hits(m, measure, v[j], mouse))
              && r.session == s.(isDragging := true, dragStart := client, activeHandle := None,
                                 initialBoxState := Some(v[k].bbox), draggingBox := Some(v[k].bbox)))
  {
    MouseDownSelects(s, p, client, measure);
    var m := Metrics(p, s).value;
    var mouse := Point(client.x - p.canvasOrigin.x, client.y - p.canvasOrigin.y);
    var g := Grabbed(p);
    if g.Some? {
      assert HoverHandle(mouse, g.value.bbox, m).None?;
    }
    var v := Visible(p.errors);
    var hit := TopmostHit(v, m, measure, mouse);
    if hit.Some? {
      var k := hit.value;
      assert v[k].status != Rejected && v[k] in p.errors;
    }
  }

  // ---------------------------------------------------------------------
  // Mouse move

  /** Without a drag, moving the pointer changes no state. */
  lemma MouseMoveIdle(s: Session, p: Props, client: Point)
    requires ValidSession(s) && ValidProps(p) && !s.isDragging
    ensures MouseMoveStep(s, p, client) == s
  {
  }

  /** Panning: the offset is the offset at press time plus the pointer's
      screen displacement since the press; nothing else changes. */
  lemma PanMove(s: Session, p: Props, client: Point)
    requires ValidSession(s) && ValidProps(p) && s.isDragging && p.image.Some? && CurrentMode(s) == Hand
    ensures var r := MouseMoveStep(s, p, client);
      && r.offset.x - s.startOffset.x == client.x - s.dragStart.x
      && r.offset.y - s.startOffset.y == client.y - s.dragStart.y
      && r == s.(offset := r.offset)
  {
  }

  /** Drawing: only the second corner of the new box follows the pointer. */
  lemma DrawMove(s: Session, p: Props, client: Point)
    requires ValidSession(s) && ValidProps(p) && s.isDragging && p.image.Some? && CurrentMode(s) == Draw
    requires s.tempBox.Some?
    ensures var r := MouseMoveStep(s, p, client);
      && r.tempBox.Some?
      && r.tempBox.value.x1 == s.tempBox.value.x1 && r.tempBox.value.y1 == s.tempBox.value.y1
      && ImageToCanvas(Metrics(p, s).value, Point(r.tempBox.value.x2, r.tempBox.value.y2))
           == Point(client.x - p.canvasOrigin.x, client.y - p.canvasOrigin.y)
      && r == s.(tempBox := r.tempBox)
  {
  }

  /** Resizing: the live box stays inside the image whatever the snapshot;
      as long as the pointer is inside the image the dragged corner is
      exactly the pointer, and when the snapshot is inside too the opposite
      corner is the snapshot's. */
  lemma ResizeMove(s: Session, p: Props, client: Point)
    requires ValidSession(s) && ValidProps(p) && s.isDragging && p.image.Some? && CurrentMode(s) == Select
    requires Truthy(p.selectedBoxId) && s.activeHandle.Some? && s.initialBoxState.Some?
    ensures var r := MouseMoveStep(s, p, client);
      var pos := MousePosInImage(p, s, client).value;
      var h := s.activeHandle.value;
      var inside := 0.0 <= pos.x <= p.image.value.width && 0.0 <= pos.y <= p.image.value.height;
      && r == s.(draggingBox := r.draggingBox)
      && r.draggingBox.Some? && InBounds(r.draggingBox.value, p.image.value)
      && (inside ==> Corner(r.draggingBox.value, h) == Point(pos.x, pos.y))
      && (inside && InBounds(s.initialBoxState.value, p.image.value) ==>
            Corner(r.draggingBox.value, Opposite(h)) == Corner(s.initialBoxState.value, Opposite(h)))
  {
    var pos := MousePosInImage(p, s, client).value;
    var h := s.activeHandle.value;
    var b := Resize(s.initialBoxState.value, h, Point(pos.x, pos.y));
    if 0.0 <= pos.x <= p.image.value.width && 0.0 <= pos.y <= p.image.value.height {
      if InBounds(s.initialBoxState.value, p.image.value) {
        assert InBounds(b, p.image.value) by {
          match h
          case TL =>
          case TR =>
          case BL =>
          case BR =>
        }
      }
    }
  }

  /** Moving: the live box stays inside the image, and while the shifted
      box fits, it is the snapshot moved by the pointer's image-space
      displacement since the press, with its width and height. */
  lemma MoveMove(s: Session, p: Props, client: Point)
    requires ValidSession(s) && ValidProps(p) && s.isDragging && p.image.Some? && CurrentMode(s) == Select
    requires Truthy(p.selectedBoxId) && s.activeHandle.None? && s.initialBoxState.Some?
    ensures var r := MouseMoveStep(s, p, client);
      var pos := MousePosInImage(p, s, client).value;
      var start := MousePosInImage(p, s, s.dragStart).value;
      var moved := Translate(s.initialBoxState.value, Point(pos.x - start.x, pos.y - start.y));
      && r == s.(draggingBox := r.draggingBox)
      && r.draggingBox.Some? && InBounds(r.draggingBox.value, p.image.value)
      && (InBounds(moved, p.image.value) ==>
            && r.draggingBox.value == moved
            && r.draggingBox.value.x2 - r.draggingBox.value.x1 == s.initialBoxState.value.x2 - s.initialBoxState.value.x1
            && r.draggingBox.value.y2 - r.draggingBox.value.y1 == s.initialBoxState.value.y2 - s.initialBoxState.value.y1)
  {
  }

  // ---------------------------------------------------------------------
  // Mouse up

  /** Every release ends the gesture: no drag, no handle, no live box and no
      snapshot afterwards; zoom, pan and quick-pan are untouched, and the
      tool mode changes only when a box was drawn. */
  lemma MouseUpEndsGesture(s: Session, p: Props, freshId: string)
    requires ValidSession(s) && ValidProps(p)
    ensures var r := MouseUpStep(s, p, freshId).session;
      && !r.isDragging && r.activeHandle.None? && r.draggingBox.None? && r.initialBoxState.None?
      && r.scale == s.scale && r.offset == s.offset && r.isQuickPan == s.isQuickPan
      && (r.mode == s.mode || r.mode == Select)
      && (CurrentMode(s) == Draw && s.tempBox.Some? ==> r.tempBox.None?)
      && (CurrentMode(s) != Draw ==> r.tempBox == s.tempBox)
  {
  }

  /** Finishing a draw: the clamped, normalised box becomes a new entry only
      if both sides exceed 5 pixels; it gets the next index, the first
      class of the taxonomy and its colour for stroke and fill, confidence
      1 with description "1.0", and status accepted; it is selected, sent as a create action, and the tool returns to select. */
  lemma DrawCommit(s: Session, p: Props, freshId: string)
    requires ValidSession(s) && ValidProps(p) && CurrentMode(s) == Draw && s.tempBox.Some?
    ensures var r := MouseUpStep(s, p, freshId);
      var b := Committed(s.tempBox.value, p.image);
      && (BigEnough(b) ==>
            && |r.calls| == 2 && r.calls[0] == SelectBox(Some(freshId))
            && r.calls[1].OnAction? && r.calls[1].action == Create
            && var e := r.calls[1].error;
               && e.id == freshId && e.bbox == b && e.index == |p.errors|
               && e.classId == Taxonomy.Classes[0].id && e.name == Taxonomy.Classes[0].name
               && e.confidence == 1.0 && e.status == Accepted && e.description == "1.0"
               && e.color == Color(Taxonomy.Classes[0].color, Taxonomy.Classes[0].color)
               && r.session.mode == Select)
      && (!BigEnough(b) ==> r.calls == [] && r.session.mode == s.mode)
  {
  }

  /** A box drawn inside the image keeps its corners, up to min/max order. */
  lemma DrawnBoxInsideIsKept(b: Box, s: Size)
    requires ValidSize(s) && InBounds(b, s)
    ensures Committed(b, Some(s)) == Normalise(b)
  {
  }

  /** Finishing a move or resize: the committed box lies ordered inside the
      image, and callbacks happen only if it differs from the snapshot; the
      list is reported with that box, and an update action is sent exactly
      when the selected entry is in the list, carrying its first occurrence
      with that box and status accepted. */
  lemma EditCommit(s: Session, p: Props, freshId: string)
    requires ValidSession(s) && ValidProps(p) && CurrentMode(s) == Select
    ensures var r := MouseUpStep(s, p, freshId);
      && (r.calls != [] ==>
            && Truthy(p.selectedBoxId) && s.draggingBox.Some? && s.initialBoxState.Some?
            && var b := Committed(s.draggingBox.value, p.image);
               && b != s.initialBoxState.value
               && Ordered(b) && (p.image.Some? ==> InBounds(b, p.image.value))
               && r.calls[0] == UpdateErrors(EditErrors(p.errors, p.selectedBoxId.value, Some(b), None)))
      && ((Truthy(p.selectedBoxId) && s.draggingBox.Some? && s.initialBoxState.Some?
             && Committed(s.draggingBox.value, p.image) != s.initialBoxState.value) ==>
            var id := p.selectedBoxId.value;
            var b := Committed(s.draggingBox.value, p.image);
            && r.calls != []
            && (|r.calls| == 2 <==> HasId(p.errors, id))
            && (!HasId(p.errors, id) ==> |r.calls| == 1)
            && (HasId(p.errors, id) ==>
                  r.calls[1] == OnAction(Update, FindById(p.errors, id).value.(bbox := b, status := Accepted))))
  {
    if Truthy(p.selectedBoxId) && s.draggingBox.Some? && s.initialBoxState.Some? {
      UpdateLocalErrorCalls(p.errors, p.selectedBoxId.value, Some(Committed(s.draggingBox.value, p.image)), None);
    }
  }

  // ---------------------------------------------------------------------
  // Popover

  /** Picking a class in the popover does nothing unless a visible entry is
      selected under the select tool; then it reports the list with that
      entry re-classed and always sends one update action for it, which for
      a known class carries the new class id. */
  lemma ChangeClassRule(p: Props, s: Session, classId: string)
    ensures var calls := ChangeClassCalls(p, s, classId);
      && (ActiveError(p, s).None? <==> calls == [])
      && (ActiveError(p, s).Some? ==>
            var e := ActiveError(p, s).value;
            && |calls| == 2
            && calls[0] == UpdateErrors(EditErrors(p.errors, e.id, None, Some(classId)))
            && calls[1].OnAction? && calls[1].action == Update && calls[1].error.id == e.id
            && calls[1].error in EditErrors(p.errors, e.id, None, Some(classId))
            && (Taxonomy.FindClass(classId).Some? ==> calls[1].error.classId == classId))
  {
    var a := ActiveError(p, s);
    if a.Some? {
      var e := a.value;
      var k :| 0 <= k < |p.errors| && p.errors[k] == e;
      assert HasId(p.errors, e.id);
      UpdateLocalErrorCalls(p.errors, e.id, None, Some(classId));
      var j := LastWithId(p.errors, e.id).value;
      assert ChangeClassCalls(p, s, classId)[1].error == EditEntry(p.errors[j], None, Some(classId));
    }
  }

  // ---------------------------------------------------------------------
  // Keyboard, wheel, toolbar

  /** Space (not a repeat, not typed into a field) switches to draw and
      clears the selection. */
  lemma SpaceEntersDraw(s: Session, e: KeyEvent)
    requires !e.inTextField && e.code == "Space" && !e.repeat
    ensures KeyDownStep(s, e) == Step(s.(mode := Draw), [SelectBox(None)])
  {
  }

  /** Holding Control turns quick-pan on, releasing it turns it off; neither
      touches the tool mode or the selection, and meanwhile the effective
      tool is the hand. */
  lemma QuickPanRule(s: Session, down: KeyEvent, up: KeyEvent)
    requires !down.inTextField && down.code != "Space" && down.key == "Control" && !down.repeat
    requires up.key == "Control"
    ensures var d := KeyDownStep(s, down);
      && d == Step(s.(isQuickPan := true), [])
      && CurrentMode(d.session) == Hand
      && KeyUpStep(d.session, up) == s.(isQuickPan := false)
      && CurrentMode(KeyUpStep(d.session, up)) == s.mode
  {
  }

  // ---------------------------------------------------------------------
  // Zoom stays within [0.1, 5]

  /** Every event the editor handles. */
  datatype Event =
    | Down(p: Props, client: Point, measure: string -> real)
    | Move(p: Props, client: Point)
    | Up(p: Props, freshId: string)
    | KeyDown(key: KeyEvent)
    | KeyUp(key: KeyEvent)
    | Wheel(ctrlKey: bool, deltaY: real)
    | ZoomIn
    | ZoomOut
    | ResetView
    | SetMode(mode: ToolMode)

  predicate WellFormed(e: Event) {
    match e
    case Down(p, _, _) => ValidProps(p)
    case Move(p, _) => ValidProps(p)
    case Up(p, _) => ValidProps(p)
    case _ => true
  }

  function Apply(s: Session, e: Event): Session
    requires ValidSession(s) && WellFormed(e)
  {
    match e
    case Down(p, client, measure) => MouseDownStep(s, p, client, measure).session
    case Move(p, client) => MouseMoveStep(s, p, client)
    case Up(p, freshId) => MouseUpStep(s, p, freshId).session
    case KeyDown(k) => KeyDownStep(s, k).session
    case KeyUp(k) => KeyUpStep(s, k)
    case Wheel(ctrl, dy) => WheelStep(s, ctrl, dy)
    case ZoomIn => ZoomInStep(s)
    case ZoomOut => ZoomOutStep(s)
    case ResetView => ResetStep(s)
    case SetMode(m) => s.(mode := m)
  }

  /** Every event keeps the zoom factor in range. */
  lemma ApplyKeepsScale(s: Session, e: Event)
    requires ValidSession(s) && WellFormed(e)
    ensures ValidSession(Apply(s, e))
  {
  }

  function Run(s: Session, events: seq<Event>): Session
    requires ValidSession(s) && forall i :: 0 <= i < |events| ==> WellFormed(events[i])
    decreases |events|
  {
    if events == [] then s
    else
      ApplyKeepsScale(s, events[0]);
      Run(Apply(s, events[0]), events[1..])
  }

  /** From the initial state (scale 1), the zoom factor stays within
      [0.1, 5] under any sequence of events. */
  lemma {:induction false} ScaleStaysInRange(s: Session, events: seq<Event>)
    requires ValidSession(s) && forall i :: 0 <= i < |events| ==> WellFormed(events[i])
    ensures MinScale <= Run(s, events).scale <= MaxScale
    decreases |events|
  {
    if events != [] {
      ApplyKeepsScale(s, events[0]);
      ScaleStaysInRange(Apply(s, events[0]), events[1..]);
    }
  }

  lemma InitialScaleInRange(events: seq<Event>)
    requires forall i :: 0 <= i < |events| ==> WellFormed(events[i])
    ensures MinScale <= Run(InitialSession, events).scale <= MaxScale
  {
    ScaleStaysInRange(InitialSession, events);
  }
}
