/** Record shapes shared by the editor, the store and the prediction decoder
    (src/types/index.ts). Coordinates are exact reals; a detection's `bbox`
    is always the four numbers [x1, y1, x2, y2]. */
module Types {

  datatype Option<+T> = None | Some(value: T)

  /** "accepted" | "rejected" | null; `Pending` stands for null. */
  datatype Status = Accepted | Rejected | Pending

  datatype Color = Color(stroke: string, fill: string)

  /** [x1, y1, x2, y2] in image-pixel space (or in canvas space, where said). */
  datatype Box = Box(x1: real, y1: real, x2: real, y2: real)

  datatype Point = Point(x: real, y: real)

  /** Natural pixel size of a decoded image (`currentImage.width/height`). */
  datatype Size = Size(width: real, height: real)

  predicate ValidSize(s: Size) {
    s.width > 0.0 && s.height > 0.0
  }

  /** ErrorItem: one detection. */
  datatype ErrorItem = ErrorItem(
    index: nat,
    id: string,
    name: string,
    description: string,
    classId: string,
    confidence: real,
    bbox: Box,
    color: Color,
    status: Status)

  /** ImageItem: an uploaded image; the image element is kept only as its
      size, absent while the element is null. */
  datatype ImageItem = ImageItem(
    id: string,
    src: string,
    name: string,
    errors: seq<ErrorItem>,
    currentImage: Option<Size>)

  datatype RenderMetrics = RenderMetrics(
    startX: real,
    startY: real,
    drawWidth: real,
    drawHeight: real,
    scaleX: real,
    scaleY: real)

  /** JavaScript truthiness of an optional string: null and "" are falsy. */
  predicate Truthy(s: Option<string>) {
    s.Some? && s.value != ""
  }

  /** `errors.some((e) => e.id === id)` */
  predicate HasId(errors: seq<ErrorItem>, id: string) {
    exists i :: 0 <= i < |errors| && errors[i].id == id
  }

  /** `xs.find(p)`: the index of the first element satisfying `p`. */
  function FindFirst<T>(xs: seq<T>, p: T -> bool): (r: Option<nat>)
    ensures r.Some? ==> r.value < |xs| && p(xs[r.value])
    ensures r.Some? ==> forall j :: 0 <= j < r.value ==> !p(xs[j])
    ensures r.None? ==> forall j :: 0 <= j < |xs| ==> !p(xs[j])
  {
    if xs == [] then None
    else if p(xs[0]) then Some(0)
    else match FindFirst(xs[1..], p)
      case None => None
      case Some(k) => Some(k + 1)
  }

  /** `[...xs].reverse().find(p)`: the index of the last element satisfying `p`. */
  function FindLast<T>(xs: seq<T>, p: T -> bool): (r: Option<nat>)
    ensures r.Some? ==> r.value < |xs| && p(xs[r.value])
    ensures r.Some? ==> forall j :: r.value < j < |xs| ==> !p(xs[j])
    ensures r.None? ==> forall j :: 0 <= j < |xs| ==> !p(xs[j])
  {
    if xs == [] then None
    else if p(xs[|xs| - 1]) then Some(|xs| - 1)
    else FindLast(xs[..|xs| - 1], p)
  }

  /** `errors.map((e) => (e.id === id ? { ...e, status } : e))`. */
  function SetStatus(errors: seq<ErrorItem>, id: string, status: Status): seq<ErrorItem> {
    seq(|errors|, i requires 0 <= i < |errors| =>
      if errors[i].id == id then errors[i].(status := status) else errors[i])
  }

  /** `errors.find((e) => e.id === id)` as a value. */
  function FindById(errors: seq<ErrorItem>, id: string): (r: Option<ErrorItem>)
    ensures r.Some? <==> HasId(errors, id)
    ensures r.Some? ==> r.value in errors && r.value.id == id
    ensures r.Some? ==> exists k :: 0 <= k < |errors| && errors[k] == r.value && forall j :: 0 <= j < k ==> errors[j].id != id
  {
    match FindFirst(errors, (e: ErrorItem) => e.id == id)
    case None => None
    case Some(k) => Some(errors[k])
  }
}
