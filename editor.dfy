/** The bounding-box editor (src/components/ImagePreview.tsx).

    The component's own state (zoom, pan, tool mode, quick-pan flag and the
    gesture variables) is the class `ImagePreview`. What the component reads
    from its parent and from the DOM on each event (the selected image's
    size, the container width, the canvas origin, the shown error list and
    the selected box id) is a `Props` value passed to each handler; what it
    hands back to the parent (onSelectBox, onUpdateErrors, onAction) is the
    sequence of `Callback`s a handler returns, in call order.

    React applies state updates after a handler returns, so every handler
    reads the state as it was when the event arrived; each step below is a
    function of that pre-state, and each method of the class is proved to
    perform exactly that step. */
module Editor {
  import opened Types
  import opened Geometry
  import Taxonomy

  datatype ToolMode = Hand | Select | Draw

  datatype Action = Create | Update | Delete

  /** A call the editor makes on its parent. */
  datatype Callback =
    | SelectBox(id: Option<string>)
    | UpdateErrors(errors: seq<ErrorItem>)
    | OnAction(action: Action, error: ErrorItem)

  /** What a handler reads besides its own state. `canvasOrigin` is the
      canvas's bounding-rectangle corner in client coordinates. */
  datatype Props = Props(
    image: Option<Size>,
    containerWidth: real,
    canvasOrigin: Point,
    errors: seq<ErrorItem>,
    selectedBoxId: Option<string>)

  predicate ValidProps(p: Props) {
    p.containerWidth > 0.0 && (p.image.Some? ==> ValidSize(p.image.value))
  }

  const MinScale: real := 0.1
  const MaxScale: real := 5.0
  const ZoomStep: real := 0.2
  const WheelSensitivity: real := 0.001

  /** The component state, as one value. */
  datatype Session = Session(
    scale: real,
    offset: Point,
    mode: ToolMode,
    isQuickPan: bool,
    isDragging: bool,
    dragStart: Point,
    startOffset: Point,
    activeHandle: Option<Handle>,
    tempBox: Option<Box>,
    initialBoxState: Option<Box>,
    draggingBox: Option<Box>)

  predicate ValidSession(s: Session) {
    MinScale <= s.scale <= MaxScale
  }

  const Origin: Point := Point(0.0, 0.0)

  const InitialSession: Session :=
    Session(1.0, Origin, Select, false, false, Origin, Origin, None, None, None, None)

  /** The effective tool: hand while quick-pan is held, else the chosen mode. */
  function CurrentMode(s: Session): ToolMode {
    if s.isQuickPan then Hand else s.mode
  }

  /** Quick-pan forces the hand tool and otherwise the chosen mode rules. */
  lemma CurrentModeRule(s: Session)
    ensures s.isQuickPan ==> CurrentMode(s) == Hand
    ensures !s.isQuickPan ==> CurrentMode(s) == s.mode
    ensures CurrentMode(s) != Hand ==> CurrentMode(s) == s.mode
  {
  }

  datatype Step = Step(session: Session, calls: seq<Callback>)

  // ---------------------------------------------------------------------
  // Pure rules

  /** Rejected entries are neither drawn nor hit (lines 312, 390-392). */
  function Visible(es: seq<ErrorItem>): (r: seq<ErrorItem>)
    ensures |r| <= |es|
    ensures forall i :: 0 <= i < |r| ==> r[i].status != Rejected && r[i] in es
    ensures forall e :: e in es && e.status != Rejected ==> e in r
  {
    if es == [] then []
    else if es[0].status == Rejected then Visible(es[1..])
    else [es[0]] + Visible(es[1..])
  }

  /** The filter keeps the order of the list: it works entry by entry. */
  lemma {:induction false} VisibleAppend(a: seq<ErrorItem>, b: seq<ErrorItem>)
    ensures Visible(a + b) == Visible(a) + Visible(b)
    decreases |a|
  {
    if a == [] {
      assert a + b == b;
    } else {
      assert (a + b)[1..] == a[1..] + b;
      VisibleAppend(a[1..], b);
    }
  }

  /** A single entry is kept exactly when it is not rejected. */
  lemma VisibleSingleton(e: ErrorItem)
    ensures Visible([e]) == if e.status == Rejected then [] else [e]
  {
    assert [e][1..] == [];
  }

  function Metrics(p: Props, s: Session): (r: Option<RenderMetrics>)
    requires ValidProps(p) && ValidSession(s)
    ensures r.Some? <==> p.image.Some?
    ensures r.Some? ==> r.value.scaleX > 0.0 && r.value.scaleY > 0.0
  {
    match p.image
    case None => None
    case Some(img) =>
      RenderMetricsProperties(p.containerWidth, img, s.scale, s.offset);
      Some(GetRenderMetrics(p.containerWidth, img, s.scale, s.offset))
  }

  /** The pointer in image space (x, y) and in canvas space. */
  datatype MousePos = MousePos(x: real, y: real, canvasX: real, canvasY: real)

  /** `getMousePosInImage` for a pointer at `client`. */
  function MousePosInImage(p: Props, s: Session, client: Point): (r: Option<MousePos>)
    requires ValidProps(p) && ValidSession(s)
    ensures r.Some? <==> p.image.Some?
    ensures r.Some? ==> r.value.canvasX == client.x - p.canvasOrigin.x && r.value.canvasY == client.y - p.canvasOrigin.y
    ensures r.Some? ==> ImageToCanvas(Metrics(p, s).value, Point(r.value.x, r.value.y)) == Point(r.value.canvasX, r.value.canvasY)
  {
    match Metrics(p, s)
    case None => None
    case Some(m) =>
      var mouse := Point(client.x - p.canvasOrigin.x, client.y - p.canvasOrigin.y);
      var q := CanvasToImage(m, mouse);
      assert ImageToCanvas(m, q) == mouse;
      Some(MousePos(q.x, q.y, mouse.x, mouse.y))
  }

  /** The box the render pipeline draws for each visible entry: the live
      drag geometry for the selected entry while a drag is under way (line 318). */
  function RenderedBoxes(p: Props, s: Session): (r: seq<Box>)
    ensures |r| == |Visible(p.errors)|
    ensures s.draggingBox.None? ==> forall i :: 0 <= i < |r| ==> r[i] == Visible(p.errors)[i].bbox
    ensures forall i :: 0 <= i < |r| && Some(Visible(p.errors)[i].id) != p.selectedBoxId ==> r[i] == Visible(p.errors)[i].bbox
    ensures s.draggingBox.Some? ==>
      forall i :: 0 <= i < |r| && Some(Visible(p.errors)[i].id) == p.selectedBoxId ==> r[i] == s.draggingBox.value
  {
    var v := Visible(p.errors);
    seq(|v|, i requires 0 <= i < |v| =>
      if Some(v[i].id) == p.selectedBoxId && s.draggingBox.Some? then s.draggingBox.value else v[i].bbox)
  }

  /** One entry as `updateLocalError` rewrites it: a new bbox if given; a new
      class (with its label and colour) only if the id names a known class. */
  function EditEntry(e: ErrorItem, newBbox: Option<Box>, newClassId: Option<string>): ErrorItem {
    var withBox := if newBbox.Some? then e.(bbox := newBbox.value) else e;
    if newClassId.None? then withBox
    else match Taxonomy.FindClass(newClassId.value)
      case None => withBox
      case Some(c) => withBox.(classId := c.id, name := c.name, color := Color(c.color, c.color))
  }

  /** The `map` inside `updateLocalError`. */
  function EditErrors(errors: seq<ErrorItem>, id: string, newBbox: Option<Box>, newClassId: Option<string>): (r: seq<ErrorItem>)
    ensures |r| == |errors|
    ensures forall i :: 0 <= i < |r| && errors[i].id != id ==> r[i] == errors[i]
    ensures forall i :: 0 <= i < |r| ==> r[i].id == errors[i].id
  {
    seq(|errors|, i requires 0 <= i < |errors| =>
      if errors[i].id == id then EditEntry(errors[i], newBbox, newClassId) else errors[i])
  }

  /** The last entry with the given id, as `changedError` ends up. */
  function LastWithId(errors: seq<ErrorItem>, id: string): (r: Option<nat>)
    ensures r.Some? ==> r.value < |errors| && errors[r.value].id == id
    ensures r.None? <==> !HasId(errors, id)
  {
    FindLast(errors, (e: ErrorItem) => e.id == id)
  }

  /** `updateLocalError`: the edited list goes to onUpdateErrors; a class
      change on an id that exists is also sent as an update action. */
  function UpdateLocalError(errors: seq<ErrorItem>, id: string, newBbox: Option<Box>, newClassId: Option<string>): (r: seq<Callback>)
    ensures 1 <= |r| <= 2 && r[0].UpdateErrors?
    ensures |r| == 2 ==> r[1].OnAction? && r[1].action == Update && r[1].error.id == id
  {
    var edited := EditErrors(errors, id, newBbox, newClassId);
    var changed := LastWithId(errors, id);
    [UpdateErrors(edited)] +
    (if newClassId.Some? && changed.Some? then [OnAction(Update, edited[changed.value])] else [])
  }

  /** The list keeps its length and order; only entries with the given id
      change, and of them only the bbox and the class fields. */
  lemma {:induction false} EditErrorsChangesOnlyMatches(errors: seq<ErrorItem>, id: string, newBbox: Option<Box>, newClassId: Option<string>)
    ensures var r := EditErrors(errors, id, newBbox, newClassId);
      && |r| == |errors|
      && (forall i :: 0 <= i < |r| && errors[i].id != id ==> r[i] == errors[i])
      && (forall i :: 0 <= i < |r| ==>
            && r[i].index == errors[i].index && r[i].id == errors[i].id
            && r[i].description == errors[i].description && r[i].confidence == errors[i].confidence
            && r[i].status == errors[i].status)
      && (forall i :: 0 <= i < |r| && errors[i].id == id && newBbox.Some? ==> r[i].bbox == newBbox.value)
      && (forall i :: 0 <= i < |r| && newBbox.None? ==> r[i].bbox == errors[i].bbox)
  {
  }

  /** Editing an entry keeps its id, status and confidence and takes the
      new box when one is given. A class id outside the taxonomy leaves
      class, name and colour alone; a known one sets the class, names it
      with the route's label for that id, and gives it a single colour for
      stroke and fill. */
  lemma ClassEditRule(e: ErrorItem, newBbox: Option<Box>, cid: string)
    ensures var r := EditEntry(e, newBbox, Some(cid));
      && r.id == e.id && r.status == e.status && r.confidence == e.confidence
      && r.bbox == (if newBbox.Some? then newBbox.value else e.bbox)
    ensures var r := EditEntry(e, newBbox, Some(cid));
      (forall i :: 0 <= i < |Taxonomy.Classes| ==> Taxonomy.Classes[i].id != cid) ==>
        r.classId == e.classId && r.name == e.name && r.color == e.color
    ensures var r := EditEntry(e, newBbox, Some(cid));
      (exists i :: 0 <= i < |Taxonomy.Classes| && Taxonomy.Classes[i].id == cid) ==>
        && r.classId == cid && cid in Taxonomy.Labels && r.name == Taxonomy.Labels[cid]
        && r.color.stroke == r.color.fill
  {
    var f := Taxonomy.FindClass(cid);
    if f.Some? {
      Taxonomy.ClassNameIsLabel(f.value);
    }
  }

  /** updateLocalError first reports the edited list; it sends an update
      action exactly when a class was given and the id exists, carrying the
      edited entry. */
  lemma UpdateLocalErrorCalls(errors: seq<ErrorItem>, id: string, newBbox: Option<Box>, newClassId: Option<string>)
    ensures var calls := UpdateLocalError(errors, id, newBbox, newClassId);
      && 1 <= |calls| <= 2
      && calls[0] == UpdateErrors(EditErrors(errors, id, newBbox, newClassId))
      && (|calls| == 2 <==> newClassId.Some? && HasId(errors, id))
      && (|calls| == 2 ==>
            && calls[1].OnAction? && calls[1].action == Update && calls[1].error.id == id
            && calls[1].error in EditErrors(errors, id, newBbox, newClassId))
  {
  }

  // ---------------------------------------------------------------------
  // Pointer gestures

  /** Line 395's `if (selectedBoxId)` and, if it holds, the first visible
      entry with that id (line 396). */
  function Grabbed(p: Props): (r: Option<ErrorItem>)
    ensures r.Some? ==> Truthy(p.selectedBoxId) && r.value.id == p.selectedBoxId.value
    ensures r.Some? ==> r.value in Visible(p.errors) && r.value.status != Rejected
    ensures r.None? <==> !Truthy(p.selectedBoxId) || !HasId(Visible(p.errors), p.selectedBoxId.value)
    ensures r.Some? ==>
      exists k :: 0 <= k < |Visible(p.errors)| && Visible(p.errors)[k] == r.value &&
        forall j :: 0 <= j < k ==> Visible(p.errors)[j].id != r.value.id
  {
    if Truthy(p.selectedBoxId) then FindById(Visible(p.errors), p.selectedBoxId.value) else None
  }

  /** `handleMouseDown` (lines 364-454). */
  function MouseDownStep(s: Session, p: Props, client: Point, measure: string -> real): (r: Step)
    requires ValidSession(s) && ValidProps(p)
    ensures r.session.scale == s.scale && r.session.offset == s.offset
    ensures r.session.mode == s.mode && r.session.isQuickPan == s.isQuickPan
    ensures |r.calls| <= 1 && forall c :: c in r.calls ==> c.SelectBox?
  {
    match MousePosInImage(p, s, client)
    case None => Step(s, [])
    case Some(pos) =>
      var s1 := s.(isDragging := true, dragStart := client);
      match CurrentMode(s)
      case Hand => Step(s1.(startOffset := s.offset), [])
      case Draw => Step(s1.(tempBox := Some(Box(pos.x, pos.y, pos.x, pos.y))), [SelectBox(None)])
      case Select => SelectPress(s1, p, Metrics(p, s).value, Point(pos.canvasX, pos.canvasY), measure)
  }

  /** The select-tool half of `handleMouseDown` (lines 390-452), from the
      state `s1` with the drag already started, for a press at canvas point
      `mouse`: a handle of the selected box first, then the topmost hit. */
  function SelectPress(s1: Session, p: Props, m: RenderMetrics, mouse: Point, measure: string -> real): Step {
    var grabbed := Grabbed(p);
    var handle := if grabbed.Some? then HoverHandle(mouse, grabbed.value.bbox, m) else None;
    if handle.Some? then
      Step(s1.(activeHandle := handle, initialBoxState := Some(grabbed.value.bbox)), [])
    else
      var visible := Visible(p.errors);
      match TopmostHit(visible, m, measure, mouse)
      case Some(k) =>
        Step(s1.(initialBoxState := Some(visible[k].bbox), draggingBox := Some(visible[k].bbox), activeHandle := None),
             [SelectBox(Some(visible[k].id))])
      case None => Step(s1, [SelectBox(None)])
  }

  /** `handleMouseMove` (lines 456-576); the hover-only branch changes only
      the cursor. */
  function MouseMoveStep(s: Session, p: Props, client: Point): (r: Session)
    requires ValidSession(s) && ValidProps(p)
    ensures r == s.(offset := r.offset, tempBox := r.tempBox, draggingBox := r.draggingBox)
    ensures !s.isDragging ==> r == s
  {
    if !s.isDragging then s
    else match MousePosInImage(p, s, client)
      case None => s
      case Some(pos) =>
        match CurrentMode(s)
        case Hand =>
          s.(offset := Point(s.startOffset.x + (client.x - s.dragStart.x), s.startOffset.y + (client.y - s.dragStart.y)))
        case Draw =>
          if s.tempBox.Some? then s.(tempBox := Some(Box(s.tempBox.value.x1, s.tempBox.value.y1, pos.x, pos.y)))
          else s
        case Select =>
          if !Truthy(p.selectedBoxId) || s.initialBoxState.None? then s
          else if s.activeHandle.Some? then
            s.(draggingBox := Some(ClampBBox(Resize(s.initialBoxState.value, s.activeHandle.value, Point(pos.x, pos.y)), p.image)))
          else
            var start := MousePosInImage(p, s, s.dragStart).value;
            var move := Point(pos.x - start.x, pos.y - start.y);
            s.(draggingBox := Some(ClampBBox(Translate(s.initialBoxState.value, move), p.image)))
  }

  /** The entry created by a finished draw gesture (lines 595-605). */
  function NewError(id: string, index: nat, bbox: Box): ErrorItem {
    var c := Taxonomy.Classes[0];
    ErrorItem(index, id, c.name, "1.0", c.id, 1.0, bbox, Color(c.color, c.color), Accepted)
  }

  /** The box a finished gesture commits: clamped, then min/max-normalised. */
  function Committed(b: Box, image: Option<Size>): (r: Box)
    requires image.Some? ==> ValidSize(image.value)
    ensures Ordered(r)
    ensures image.Some? ==> InBounds(r, image.value)
  {
    var c := ClampBBox(b, image);
    assert image.Some? ==> InBounds(Normalise(c), image.value) by {
      if image.Some? { NormaliseKeepsBounds(c, image.value); }
    }
    Normalise(c)
  }

  /** Large enough to keep: both sides strictly over 5 image pixels. */
  predicate BigEnough(b: Box) {
    b.x2 - b.x1 > MinDrawSize && b.y2 - b.y1 > MinDrawSize
  }

  /** The draw half of `handleMouseUp` (lines 583-613). */
  function FinishDraw(s: Session, p: Props, freshId: string): Step
    requires ValidProps(p)
  {
    if CurrentMode(s) == Draw && s.tempBox.Some? then
      var b := Committed(s.tempBox.value, p.image);
      if BigEnough(b) then
        Step(s.(mode := Select, tempBox := None),
             [SelectBox(Some(freshId)), OnAction(Create, NewError(freshId, |p.errors|, b))])
      else Step(s.(tempBox := None), [])
    else Step(s, [])
  }

  /** The select half of `handleMouseUp` (lines 615-646): the calls made
      when a drag ends, given the pre-state. */
  function FinishEdit(s: Session, p: Props): seq<Callback>
    requires ValidProps(p)
  {
    if CurrentMode(s) == Select && Truthy(p.selectedBoxId) && s.draggingBox.Some? && s.initialBoxState.Some? then
      var id := p.selectedBoxId.value;
      var b := Committed(s.draggingBox.value, p.image);
      if b != s.initialBoxState.value then
        UpdateLocalError(p.errors, id, Some(b), None) +
        (match FindById(p.errors, id)
         case Some(e) => [OnAction(Update, e.(bbox := b, status := Accepted))]
         case None => [])
      else []
    else []
  }

  /** `handleMouseUp` (lines 578-654), also run when the pointer leaves
      the canvas; `freshId` is the uuid drawn for a new entry. */
  function MouseUpStep(s: Session, p: Props, freshId: string): (r: Step)
    requires ValidProps(p)
    ensures !r.session.isDragging && r.session.activeHandle.None?
    ensures r.session.draggingBox.None? && r.session.initialBoxState.None?
    ensures r.session.scale == s.scale && r.session.offset == s.offset && r.session.isQuickPan == s.isQuickPan
    ensures forall c :: c in r.calls ==> !(c.OnAction? && c.action == Delete)
  {
    var s1 := s.(isDragging := false, activeHandle := None);
    var draw := FinishDraw(s1, p, freshId);
    Step(draw.session.(draggingBox := None, initialBoxState := None), draw.calls + FinishEdit(s, p))
  }

  // ---------------------------------------------------------------------
  // Keyboard, wheel and toolbar

  /** A keyboard event; `inTextField` when its target is an input or textarea. */
  datatype KeyEvent = KeyEvent(code: string, key: string, repeat: bool, inTextField: bool)

  /** `handleKeyDown` (lines 701-720). */
  function KeyDownStep(s: Session, e: KeyEvent): (r: Step)
    ensures r.session == s.(mode := r.session.mode, isQuickPan := r.session.isQuickPan)
    ensures e.inTextField ==> r == Step(s, [])
    ensures r.calls == [] || r.calls == [SelectBox(None)]
  {
    if e.inTextField then Step(s, [])
    else if e.code == "Space" && !e.repeat then Step(s.(mode := Draw), [SelectBox(None)])
    else if e.key == "Control" && !e.repeat then Step(s.(isQuickPan := true), [])
    else Step(s, [])
  }

  /** `handleKeyUp` (lines 722-726). */
  function KeyUpStep(s: Session, e: KeyEvent): Session {
    if e.key == "Control" then s.(isQuickPan := false) else s
  }

  /** `handleWheel` (lines 741-752): with Ctrl held, zoom by -deltaY/1000, clamped. */
  function WheelStep(s: Session, ctrlKey: bool, deltaY: real): (r: Session)
    ensures MinScale <= r.scale <= MaxScale || (!ctrlKey && r == s)
    ensures r == s.(scale := r.scale)
    ensures ctrlKey && MinScale <= s.scale + -deltaY * WheelSensitivity <= MaxScale ==> r.scale == s.scale - deltaY * WheelSensitivity
  {
    if ctrlKey then s.(scale := Min(Max(s.scale + -deltaY * WheelSensitivity, MinScale), MaxScale)) else s
  }

  /** The zoom-in button (line 884). */
  function ZoomInStep(s: Session): (r: Session)
    requires ValidSession(s)
    ensures ValidSession(r) && r == s.(scale := r.scale)
    ensures r.scale >= s.scale && (s.scale + ZoomStep <= MaxScale ==> r.scale == s.scale + ZoomStep)
  {
    s.(scale := Min(s.scale + ZoomStep, MaxScale))
  }

  /** The zoom-out button (line 888). */
  function ZoomOutStep(s: Session): (r: Session)
    requires ValidSession(s)
    ensures ValidSession(r) && r == s.(scale := r.scale)
    ensures r.scale <= s.scale && (s.scale - ZoomStep >= MinScale ==> r.scale == s.scale - ZoomStep)
  {
    s.(scale := Max(s.scale - ZoomStep, MinScale))
  }

  /** `handleReset` (lines 776-779). */
  function ResetStep(s: Session): (r: Session)
    ensures ValidSession(r) && r.scale == 1.0 && r.offset == Origin
    ensures r == s.(scale := r.scale, offset := r.offset)
  {
    s.(scale := 1.0, offset := Origin)
  }

  /** The popover's delete button, `handleDeleteError` (lines 689-695). */
  function DeleteErrorCalls(p: Props): (calls: seq<Callback>)
    ensures |calls| <= 1
    ensures |calls| == 1 <==> Truthy(p.selectedBoxId) && HasId(p.errors, p.selectedBoxId.value)
    ensures |calls| == 1 ==>
      && calls[0].OnAction? && calls[0].action == Delete
      && calls[0].error in p.errors && Some(calls[0].error.id) == p.selectedBoxId
  {
    if Truthy(p.selectedBoxId) then
      match FindById(p.errors, p.selectedBoxId.value)
      case Some(e) => [OnAction(Delete, e)]
      case None => []
    else []
  }

  /** The selected entry, unless it is rejected. */
  predicate Editable(p: Props, e: ErrorItem) {
    Some(e.id) == p.selectedBoxId && e.status != Rejected
  }

  /** The entry the popover edits, `activeError` (lines 147-150): shown only
      for a selected, non-rejected entry while the effective tool is select. */
  function ActiveError(p: Props, s: Session): (r: Option<ErrorItem>)
    ensures r.Some? ==> r.value in p.errors && Editable(p, r.value)
    ensures r.Some? ==> CurrentMode(s) == Select
    ensures r.None? <==> CurrentMode(s) != Select || forall i :: 0 <= i < |p.errors| ==> !Editable(p, p.errors[i])
    ensures r.Some? ==>
      exists k :: 0 <= k < |p.errors| && p.errors[k] == r.value &&
        forall j :: 0 <= j < k ==> !Editable(p, p.errors[j])
  {
    if CurrentMode(s) != Select then None
    else match FindFirst(p.errors, (e: ErrorItem) => Editable(p, e))
      case None => None
      case Some(k) => Some(p.errors[k])
  }

  /** The popover's class selector (line 796): the entry's class changes via
      updateLocalError, which also sends an update action. */
  function ChangeClassCalls(p: Props, s: Session, classId: string): seq<Callback> {
    match ActiveError(p, s)
    case None => []
    case Some(e) => UpdateLocalError(p.errors, e.id, None, Some(classId))
  }

  // ---------------------------------------------------------------------
  // The component

  class ImagePreview {
    var scale: real
    var offset: Point
    var mode: ToolMode
    var isQuickPan: bool
    var isDragging: bool
    var dragStart: Point
    var startOffset: Point
    var activeHandle: Option<Handle>
    var tempBox: Option<Box>
    var initialBoxState: Option<Box>
    var draggingBox: Option<Box>

    function State(): Session
      reads this
    {
      Session(scale, offset, mode, isQuickPan, isDragging, dragStart, startOffset,
              activeHandle, tempBox, initialBoxState, draggingBox)
    }

    ghost predicate Valid()
      reads this
    {
      ValidSession(State())
    }

    constructor ()
      ensures Valid() && State() == InitialSession
    {
      scale, offset, mode := 1.0, Origin, Select;
      isQuickPan, isDragging := false, false;
      dragStart, startOffset := Origin, Origin;
      activeHandle, tempBox, initialBoxState, draggingBox := None, None, None, None;
    }

    method MouseDown(p: Props, client: Point, measure: string -> real) returns (calls: seq<Callback>)
      requires Valid() && ValidProps(p)
      modifies this
      ensures Valid()
      ensures State() == MouseDownStep(old(State()), p, client, measure).session
      ensures calls == MouseDownStep(old(State()), p, client, measure).calls
    {
      calls := [];
      var pos := MousePosInImage(p, State(), client);
      if pos.None? {
        return;
      }
      var mode0 := CurrentMode(State());
      var m := Metrics(p, State());
      isDragging := true;
      dragStart := client;

      if mode0 == Hand {
        startOffset := offset;
        return;
      }
      if mode0 == Draw {
        calls := [SelectBox(None)];
        tempBox := Some(Box(pos.value.x, pos.value.y, pos.value.x, pos.value.y));
        return;
      }

      calls := PressSelect(p, m.value, Point(pos.value.canvasX, pos.value.canvasY), measure);
    }

    /** The select-tool half of MouseDown, after the drag has started. */
    method PressSelect(p: Props, m: RenderMetrics, mouse: Point, measure: string -> real) returns (calls: seq<Callback>)
      modifies this
      ensures State() == SelectPress(old(State()), p, m, mouse, measure).session
      ensures calls == SelectPress(old(State()), p, m, mouse, measure).calls
    {
      var grabbed := Grabbed(p);
      var handle := if grabbed.Some? then HoverHandle(mouse, grabbed.value.bbox, m) else None;
      if handle.Some? {
        activeHandle := handle;
        initialBoxState := Some(grabbed.value.bbox);
        return [];
      }
      var visible := Visible(p.errors);
      var hit := TopmostHit(visible, m, measure, mouse);
      if hit.Some? {
        var k := hit.value;
        calls := [SelectBox(Some(visible[k].id))];
        initialBoxState := Some(visible[k].bbox);
        draggingBox := Some(visible[k].bbox);
        activeHandle := None;
      } else {
        calls := [SelectBox(None)];
      }
    }

    method MouseMove(p: Props, client: Point)
      requires Valid() && ValidProps(p)
      modifies this
      ensures Valid()
      ensures State() == MouseMoveStep(old(State()), p, client)
    {
      if !isDragging {
        return;
      }
      var pos := MousePosInImage(p, State(), client);
      if pos.None? {
        return;
      }
      var mode0 := CurrentMode(State());
      if mode0 == Hand {
        offset := Point(startOffset.x + (client.x - dragStart.x), startOffset.y + (client.y - dragStart.y));
        return;
      }
      if mode0 == Draw {
        if tempBox.Some? {
          tempBox := Some(Box(tempBox.value.x1, tempBox.value.y1, pos.value.x, pos.value.y));
        }
        return;
      }
      if Truthy(p.selectedBoxId) && initialBoxState.Some? {
        if activeHandle.Some? {
          draggingBox := Some(ClampBBox(Resize(initialBoxState.value, activeHandle.value, Point(pos.value.x, pos.value.y)), p.image));
          return;
        }
        var start := MousePosInImage(p, State(), dragStart);
        var move := Point(pos.value.x - start.value.x, pos.value.y - start.value.y);
        draggingBox := Some(ClampBBox(Translate(initialBoxState.value, move), p.image));
      }
    }

    method MouseUp(p: Props, freshId: string) returns (calls: seq<Callback>)
      requires Valid() && ValidProps(p)
      modifies this
      ensures Valid()
      ensures State() == MouseUpStep(old(State()), p, freshId).session
      ensures calls == MouseUpStep(old(State()), p, freshId).calls
    {
      var before := State();
      isDragging := false;
      activeHandle := None;
      calls := [];

      if CurrentMode(before) == Draw && before.tempBox.Some? {
        var b := Committed(before.tempBox.value, p.image);
        if BigEnough(b) {
          calls := [SelectBox(Some(freshId)), OnAction(Create, NewError(freshId, |p.errors|, b))];
          mode := Select;
        }
        tempBox := None;
      }

      calls := calls + FinishEdit(before, p);
      draggingBox := None;
      initialBoxState := None;
    }

    method KeyDown(e: KeyEvent) returns (calls: seq<Callback>)
      requires Valid()
      modifies this
      ensures Valid()
      ensures State() == KeyDownStep(old(State()), e).session
      ensures calls == KeyDownStep(old(State()), e).calls
    {
      calls := [];
      if e.inTextField {
        return;
      }
      if e.code == "Space" && !e.repeat {
        mode := Draw;
        calls := [SelectBox(None)];
        return;
      }
      if e.key == "Control" && !e.repeat {
        isQuickPan := true;
      }
    }

    method KeyUp(e: KeyEvent)
      requires Valid()
      modifies this
      ensures Valid()
      ensures State() == KeyUpStep(old(State()), e)
    {
      if e.key == "Control" {
        isQuickPan := false;
      }
    }

    method Wheel(ctrlKey: bool, deltaY: real)
      requires Valid()
      modifies this
      ensures Valid()
      ensures State() == WheelStep(old(State()), ctrlKey, deltaY)
    {
      if ctrlKey {
        var delta := -deltaY * WheelSensitivity;
        scale := Min(Max(scale + delta, MinScale), MaxScale);
      }
    }

    method ZoomIn()
      requires Valid()
      modifies this
      ensures Valid()
      ensures State() == ZoomInStep(old(State()))
    {
      scale := Min(scale + ZoomStep, MaxScale);
    }

    method ZoomOut()
      requires Valid()
      modifies this
      ensures Valid()
      ensures State() == ZoomOutStep(old(State()))
    {
      scale := Max(scale - ZoomStep, MinScale);
    }

    method Reset()
      requires Valid()
      modifies this
      ensures Valid()
      ensures State() == ResetStep(old(State()))
    {
      scale := 1.0;
      offset := Origin;
    }

    /** The three tool buttons (lines 862, 869, 876). */
    method SetMode(m: ToolMode)
      requires Valid()
      modifies this
      ensures Valid()
      ensures State() == old(State()).(mode := m)
    {
      mode := m;
    }
  }
}
