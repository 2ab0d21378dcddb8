/** The editor's pure geometry (src/components/ImagePreview.tsx): bbox
    clamping and normalisation, render metrics, the image/canvas coordinate
    maps, the corner-handle test and the box/label hit test. */
module Geometry {
  import opened Types

  /** The canvas height is fixed; its width is the container's width less 20. */
  const ContainerHeight: real := 340.0

  /** A corner handle is hit strictly within this many canvas pixels. */
  const HandleTolerance: real := 8.0

  /** A drawn box is kept only if both sides exceed this many image pixels. */
  const MinDrawSize: real := 5.0

  /** The label chip is this tall, sitting right above the box. */
  const LabelHeight: real := 22.0

  /** The label chip is this much wider than its measured text. */
  const LabelPadding: real := 10.0

  function Min(a: real, b: real): real { if a <= b then a else b }
  function Max(a: real, b: real): real { if a >= b then a else b }
  function Abs(a: real): real { if a >= 0.0 then a else -a }

  // ---------------------------------------------------------------------
  // Clamping and normalisation

  /** Every coordinate lies in [0, width] or [0, height]. */
  predicate InBounds(b: Box, s: Size) {
    && 0.0 <= b.x1 <= s.width && 0.0 <= b.x2 <= s.width
    && 0.0 <= b.y1 <= s.height && 0.0 <= b.y2 <= s.height
  }

  /** x1 <= x2 and y1 <= y2. */
  predicate Ordered(b: Box) {
    b.x1 <= b.x2 && b.y1 <= b.y2
  }

  /** `Math.max(0, Math.min(v, limit))` */
  function ClampAxis(v: real, limit: real): (r: real)
    requires limit >= 0.0
    ensures 0.0 <= r <= limit
    ensures 0.0 <= v <= limit ==> r == v
    ensures v < 0.0 ==> r == 0.0
    ensures v > limit ==> r == limit
  {
    Max(0.0, Min(v, limit))
  }

  /** `clampBBox`: unchanged when there is no image, otherwise every
      coordinate is clamped into the image. */
  function ClampBBox(b: Box, image: Option<Size>): (r: Box)
    requires image.Some? ==> ValidSize(image.value)
    ensures image.None? ==> r == b
    ensures image.Some? ==> InBounds(r, image.value)
    ensures image.Some? && InBounds(b, image.value) ==> r == b
  {
    match image
    case None => b
    case Some(s) =>
      Box(ClampAxis(b.x1, s.width), ClampAxis(b.y1, s.height),
          ClampAxis(b.x2, s.width), ClampAxis(b.y2, s.height))
  }

  /** Clamping twice is clamping once. */
  lemma ClampIdempotent(b: Box, image: Option<Size>)
    requires image.Some? ==> ValidSize(image.value)
    ensures ClampBBox(ClampBBox(b, image), image) == ClampBBox(b, image)
  {
  }

  /** The corners re-derived with min/max, as the mouse-up handler does. */
  function Normalise(b: Box): (r: Box)
    ensures Ordered(r)
    ensures (r.x1 == b.x1 && r.x2 == b.x2) || (r.x1 == b.x2 && r.x2 == b.x1)
    ensures (r.y1 == b.y1 && r.y2 == b.y2) || (r.y1 == b.y2 && r.y2 == b.y1)
    ensures Ordered(b) ==> r == b
  {
    Box(Min(b.x1, b.x2), Min(b.y1, b.y2), Max(b.x1, b.x2), Max(b.y1, b.y2))
  }

  /** Normalising a clamped box keeps it inside the image. */
  lemma NormaliseKeepsBounds(b: Box, s: Size)
    requires InBounds(b, s)
    ensures InBounds(Normalise(b), s) && Ordered(Normalise(b))
  {
  }

  // ---------------------------------------------------------------------
  // Render metrics and coordinate maps

  /** `getRenderMetrics` given the container width, the image size and the
      view's zoom and pan: the image is letterboxed into the container,
      scaled by `scale`, centred, then shifted by `offset`. */
  function GetRenderMetrics(containerWidth: real, img: Size, scale: real, offset: Point): RenderMetrics
    requires ValidSize(img)
  {
    var imageRatio := img.width / img.height;
    var containerRatio := containerWidth / ContainerHeight;
    var wide := imageRatio > containerRatio;
    var drawWidth := if wide then containerWidth * scale else ContainerHeight * imageRatio * scale;
    var drawHeight := if wide then (containerWidth / imageRatio) * scale else ContainerHeight * scale;
    RenderMetrics(
      (containerWidth - drawWidth) / 2.0 + offset.x,
      (ContainerHeight - drawHeight) / 2.0 + offset.y,
      drawWidth,
      drawHeight,
      drawWidth / img.width,
      drawHeight / img.height)
  }

  /** The drawn image keeps the image's aspect ratio (one scale factor for
      both axes), fits the zoomed container exactly on one axis and within it
      on the other, and is centred before the pan offset is added. */
  lemma {:induction false} RenderMetricsProperties(containerWidth: real, img: Size, scale: real, offset: Point)
    requires containerWidth > 0.0 && ValidSize(img) && scale > 0.0
    ensures var m := GetRenderMetrics(containerWidth, img, scale, offset);
      && m.scaleX == m.scaleY > 0.0
      && m.drawWidth == img.width * m.scaleX && m.drawHeight == img.height * m.scaleY
      && m.drawWidth <= containerWidth * scale && m.drawHeight <= ContainerHeight * scale
      && (m.drawWidth == containerWidth * scale || m.drawHeight == ContainerHeight * scale)
      && m.startX - offset.x == (containerWidth - m.drawWidth) / 2.0
      && m.startY - offset.y == (ContainerHeight - m.drawHeight) / 2.0
  {
    var cw, w, h, H := containerWidth, img.width, img.height, ContainerHeight;
    var ir := w / h;
    if ir > cw / H {
      WideCase(cw, w, h, scale);
    } else {
      TallCase(cw, w, h, scale);
    }
  }

  /** The image is relatively wider than the container: full zoomed width. */
  lemma WideCase(cw: real, w: real, h: real, scale: real)
    requires cw > 0.0 && w > 0.0 && h > 0.0 && scale > 0.0 && w / h > cw / ContainerHeight
    ensures (cw / (w / h)) * scale / h == cw * scale / w
    ensures w * (cw * scale / w) == cw * scale
    ensures h * ((cw / (w / h)) * scale / h) == (cw / (w / h)) * scale
    ensures (cw / (w / h)) * scale <= ContainerHeight * scale
    ensures cw * scale / w > 0.0
  {
    var ir := w / h;
    assert ir > 0.0;
    assert cw / ir == cw * h / w by { DivByRatio(cw, w, h); }
    assert (cw * h / w) * scale / h == cw * scale / w by { CancelFactor(cw * scale, w, h); }
    GtDiv(ir, cw, ContainerHeight);
    DivBelow(cw, ir, ContainerHeight);
    MulMono(cw / ir, ContainerHeight, scale);
  }

  /** The image is relatively taller: full zoomed height. */
  lemma TallCase(cw: real, w: real, h: real, scale: real)
    requires cw > 0.0 && w > 0.0 && h > 0.0 && scale > 0.0 && !(w / h > cw / ContainerHeight)
    ensures ContainerHeight * (w / h) * scale / w == ContainerHeight * scale / h
    ensures w * (ContainerHeight * (w / h) * scale / w) == ContainerHeight * (w / h) * scale
    ensures h * (ContainerHeight * scale / h) == ContainerHeight * scale
    ensures ContainerHeight * (w / h) * scale <= cw * scale
    ensures ContainerHeight * scale / h > 0.0
  {
    var ir := w / h;
    assert ContainerHeight * ir * scale == (ContainerHeight * scale) * w / h;
    CancelFactor(ContainerHeight * scale, h, w);
    LeDiv(ir, cw, ContainerHeight);
    MulMono(ContainerHeight * ir, cw, scale);
  }

  lemma DivByRatio(a: real, w: real, h: real)
    requires w > 0.0 && h > 0.0
    ensures a / (w / h) == a * h / w
  {
  }

  /** (x * b / a) / b == x / a. */
  lemma CancelFactor(x: real, a: real, b: real)
    requires a > 0.0 && b > 0.0
    ensures (x * b / a) / b == x / a
  {
  }

  lemma GtDiv(x: real, a: real, b: real)
    requires b > 0.0 && x > a / b
    ensures x * b > a
  {
    assert (a / b) * b == a;
  }

  lemma LeDiv(x: real, a: real, b: real)
    requires b > 0.0 && x <= a / b
    ensures b * x <= a
  {
    assert (a / b) * b == a;
  }

  lemma DivBelow(a: real, b: real, c: real)
    requires b > 0.0 && b * c > a
    ensures a / b < c
  {
    assert (a / b) * b == a;
  }

  lemma MulMono(a: real, b: real, k: real)
    requires a <= b && k > 0.0
    ensures a * k <= b * k
  {
  }

  /** Canvas to image, lines 198-199: `(mouse - start) / scale`. */
  function CanvasToImage(m: RenderMetrics, p: Point): (q: Point)
    requires m.scaleX != 0.0 && m.scaleY != 0.0
    ensures m.startX + q.x * m.scaleX == p.x && m.startY + q.y * m.scaleY == p.y
  {
    Point((p.x - m.startX) / m.scaleX, (p.y - m.startY) / m.scaleY)
  }

  /** Image to canvas, lines 253-254: `start + coordinate * scale`. */
  function ImageToCanvas(m: RenderMetrics, p: Point): Point {
    Point(m.startX + p.x * m.scaleX, m.startY + p.y * m.scaleY)
  }

  /** The two maps are mutual inverses whenever the scale is non-zero. */
  lemma {:induction false} CanvasImageRoundTrip(m: RenderMetrics, p: Point)
    requires m.scaleX != 0.0 && m.scaleY != 0.0
    ensures ImageToCanvas(m, CanvasToImage(m, p)) == p
    ensures CanvasToImage(m, ImageToCanvas(m, p)) == p
  {
    var c := ImageToCanvas(m, p);
    assert (c.x - m.startX) / m.scaleX == p.x by {
      assert c.x - m.startX == p.x * m.scaleX;
    }
    assert (c.y - m.startY) / m.scaleY == p.y by {
      assert c.y - m.startY == p.y * m.scaleY;
    }
  }

  /** The canvas rectangle of an image-space box as drawBox, getHoverHandle
      and the hit test compute it: top-left (cx, cy), then cx + cw, cy + ch. */
  function CanvasRect(m: RenderMetrics, b: Box): (r: Box)
    ensures Point(r.x1, r.y1) == ImageToCanvas(m, Point(b.x1, b.y1))
    ensures Point(r.x2, r.y2) == ImageToCanvas(m, Point(b.x2, b.y2))
  {
    var cx := m.startX + b.x1 * m.scaleX;
    var cy := m.startY + b.y1 * m.scaleY;
    var cw := (b.x2 - b.x1) * m.scaleX;
    var ch := (b.y2 - b.y1) * m.scaleY;
    Box(cx, cy, cx + cw, cy + ch)
  }

  // ---------------------------------------------------------------------
  // Corner handles

  datatype Handle = TL | TR | BL | BR

  /** The order in which getHoverHandle tries the corners. */
  function Rank(h: Handle): nat {
    match h
    case TL => 0
    case TR => 1
    case BL => 2
    case BR => 3
  }

  /** The corner of a box a handle names. */
  function Corner(b: Box, h: Handle): Point {
    match h
    case TL => Point(b.x1, b.y1)
    case TR => Point(b.x2, b.y1)
    case BL => Point(b.x1, b.y2)
    case BR => Point(b.x2, b.y2)
  }

  function Opposite(h: Handle): Handle {
    match h
    case TL => BR
    case TR => BL
    case BL => TR
    case BR => TL
  }

  /** Strictly within the tolerance on both axes. */
  predicate Near(p: Point, q: Point) {
    Abs(p.x - q.x) < HandleTolerance && Abs(p.y - q.y) < HandleTolerance
  }

  /** `getHoverHandle`: the first corner of the box's canvas rectangle, in
      the order tl, tr, bl, br, that the pointer is near; none if it is near
      no corner. */
  function HoverHandle(mouse: Point, b: Box, m: RenderMetrics): (r: Option<Handle>)
    ensures r.Some? ==> Near(mouse, Corner(CanvasRect(m, b), r.value))
    ensures r.Some? ==> forall h :: Rank(h) < Rank(r.value) ==> !Near(mouse, Corner(CanvasRect(m, b), h))
    ensures r.None? <==> forall h :: !Near(mouse, Corner(CanvasRect(m, b), h))
  {
    var c := CanvasRect(m, b);
    if Abs(mouse.x - c.x1) < HandleTolerance && Abs(mouse.y - c.y1) < HandleTolerance then Some(TL)
    else if Abs(mouse.x - c.x2) < HandleTolerance && Abs(mouse.y - c.y1) < HandleTolerance then Some(TR)
    else if Abs(mouse.x - c.x1) < HandleTolerance && Abs(mouse.y - c.y2) < HandleTolerance then Some(BL)
    else if Abs(mouse.x - c.x2) < HandleTolerance && Abs(mouse.y - c.y2) < HandleTolerance then Some(BR)
    else None
  }

  /** Resizing by a handle, lines 519-538: the dragged corner goes to the
      pointer, the opposite corner of the starting box stays where it was. */
  function Resize(start: Box, h: Handle, pos: Point): (r: Box)
    ensures Corner(r, h) == pos
    ensures Corner(r, Opposite(h)) == Corner(start, Opposite(h))
  {
    match h
    case TL => Box(pos.x, pos.y, start.x2, start.y2)
    case TR => Box(start.x1, pos.y, pos.x, start.y2)
    case BL => Box(pos.x, start.y1, start.x2, pos.y)
    case BR => Box(start.x1, start.y1, pos.x, pos.y)
  }

  /** A corner and its opposite determine a box: Resize changes nothing else. */
  lemma ResizeDetermined(start: Box, h: Handle, pos: Point, b: Box)
    requires Corner(b, h) == pos && Corner(b, Opposite(h)) == Corner(start, Opposite(h))
    ensures b == Resize(start, h, pos)
  {
  }

  /** Moving, lines 559-571: the starting box shifted by the pointer's
      image-space displacement, keeping its width and height. */
  function Translate(start: Box, move: Point): (r: Box)
    ensures r.x1 == start.x1 + move.x && r.x2 == start.x2 + move.x
    ensures r.y1 == start.y1 + move.y && r.y2 == start.y2 + move.y
    ensures r.x2 - r.x1 == start.x2 - start.x1 && r.y2 - r.y1 == start.y2 - start.y1
  {
    var w := start.x2 - start.x1;
    var h := start.y2 - start.y1;
    Box(start.x1 + move.x, start.y1 + move.y, start.x1 + move.x + w, start.y1 + move.y + h)
  }

  /** Clamping cuts into a move only when the moved box leaves the image. */
  lemma MoveKeepsSizeInside(start: Box, move: Point, s: Size)
    requires ValidSize(s) && InBounds(Translate(start, move), s)
    ensures var r := ClampBBox(Translate(start, move), Some(s));
      r.x2 - r.x1 == start.x2 - start.x1 && r.y2 - r.y1 == start.y2 - start.y1
  {
  }

  // ---------------------------------------------------------------------
  // Hit test

  /** The number a string of decimal digits spells, most significant first. */
  function DigitsValue(s: string): int
    decreases |s|
  {
    if s == [] then 0 else DigitsValue(s[..|s| - 1]) * 10 + (s[|s| - 1] as int - '0' as int)
  }

  /** The decimal digits of n, without leading zeros. */
  function NatToString(n: nat): (s: string)
    ensures |s| >= 1
    ensures forall i :: 0 <= i < |s| ==> '0' <= s[i] <= '9'
    ensures DigitsValue(s) == n
    ensures |s| > 1 ==> s[0] != '0'
  {
    var d := ['0' + (n % 10) as char];
    if n < 10 then
      assert d[..0] == [];
      d
    else
      var s := NatToString(n / 10) + d;
      assert s[..|s| - 1] == NatToString(n / 10);
      s
  }

  /** The label text measured by the hit test: `${index + 1}. ${name || ""}`. */
  function LabelText(e: ErrorItem): string {
    NatToString(e.index + 1) + ". " + e.name
  }

  /** The pointer lies on the box body (edges included). */
  predicate InBody(m: RenderMetrics, e: ErrorItem, mouse: Point) {
    var c := CanvasRect(m, e.bbox);
    c.x1 <= mouse.x <= c.x2 && c.y1 <= mouse.y <= c.y2
  }

  /** The pointer lies on the label chip: from the box's left edge to the
      text's measured width plus padding, and up to 22 pixels above the top. */
  predicate InLabel(m: RenderMetrics, measure: string -> real, e: ErrorItem, mouse: Point) {
    var c := CanvasRect(m, e.bbox);
    var labelWidth := measure(LabelText(e)) + LabelPadding;
    c.x1 <= mouse.x <= c.x1 + labelWidth && c.y1 - LabelHeight <= mouse.y <= c.y1
  }

  /** Without a 2D context the source skips the label test (lines 431-440);
      a `measure` whose widths are all below -10 stands for that case, and
      then no pointer is on a label chip. */
  lemma NoContextNoLabelHit(m: RenderMetrics, measure: string -> real, e: ErrorItem, mouse: Point)
    requires forall t :: measure(t) < -LabelPadding
    ensures !InLabel(m, measure, e, mouse)
    ensures Hits(m, measure, e, mouse) <==> InBody(m, e, mouse)
  {
    var labelWidth := measure(LabelText(e)) + LabelPadding;
    assert labelWidth < 0.0;
  }

  predicate Hits(m: RenderMetrics, measure: string -> real, e: ErrorItem, mouse: Point) {
    InBody(m, e, mouse) || InLabel(m, measure, e, mouse)
  }

  /** The topmost (last in list order) entry under the pointer. */
  function TopmostHit(es: seq<ErrorItem>, m: RenderMetrics, measure: string -> real, mouse: Point): (r: Option<nat>)
    ensures r.Some? ==> r.value < |es| && Hits(m, measure, es[r.value], mouse)
    ensures r.Some? ==> forall j :: r.value < j < |es| ==> !Hits(m, measure, es[j], mouse)
    ensures r.None? <==> forall j :: 0 <= j < |es| ==> !Hits(m, measure, es[j], mouse)
  {
    FindLast(es, (e: ErrorItem) => Hits(m, measure, e, mouse))
  }
}
