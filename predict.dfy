/** The prediction route (src/app/api/predict-insulator/route.ts): it checks
    the uploaded file, forwards it to the AI server and turns the server's
    positional results into the page's `ErrorItem`s.

    The AI server is a function parameter (`None` when the request throws),
    and so are the three oracles the route consults: `freshId` for uuidv4,
    `random(i)` for the `Math.random()` drawn for the i-th result, and
    `show` for `Number.prototype.toString`. */
module Predict {
  import opened Types
  import opened Taxonomy

  /** The form's `image` entry: present or not, with its MIME type. */
  datatype Upload = Upload(mimeType: string)

  const JpegType: string := "image/jpeg"

  /** One record of the AI server's `results`. */
  datatype ServerResult = ServerResult(bboxId: string, classId: string, confidence: real, bbox: Box, status: Status)

  /** The AI server's reply; `image_id` and `results` may be missing. */
  datatype ServerReply = ServerReply(imageId: Option<string>, results: Option<seq<ServerResult>>)

  datatype Rejection = MissingFile | NotJpeg

  datatype Outcome =
    | BadRequest(reason: Rejection)  // status 400
    | InternalError                  // status 500
    | Predicted(imageId: string, errors: seq<ErrorItem>)

  /** The checks at lines 203-222, in order. */
  function Validate(file: Option<Upload>): (r: Option<Rejection>)
    ensures file.None? ==> r == Some(MissingFile)
    ensures file.Some? ==> (r.None? <==> file.value.mimeType == JpegType)
    ensures r == Some(MissingFile) <==> file.None?
  {
    if file.None? then Some(MissingFile)
    else if file.value.mimeType != JpegType then Some(NotJpeg)
    else None
  }

  ghost predicate Oracle(random: nat -> real) {
    forall i: nat :: 0.0 <= random(i) < 1.0
  }

  /** The map at lines 237-258 for the record at position `index`. */
  function DecodeEntry(index: nat, rec: ServerResult, draw: real, show: real -> string): ErrorItem
    requires 0.0 <= draw < 1.0
  {
    ErrorItem(index, rec.bboxId, ClassLabel(rec.classId), show(rec.confidence), rec.classId,
              rec.confidence, rec.bbox, PickColor(rec.classId, draw), rec.status)
  }

  function Decode(results: seq<ServerResult>, random: nat -> real, show: real -> string): (r: seq<ErrorItem>)
    requires Oracle(random)
    ensures |r| == |results|
    ensures forall i :: 0 <= i < |r| ==> r[i].index == i && r[i].id == results[i].bboxId && r[i].bbox == results[i].bbox
  {
    seq(|results|, i requires 0 <= i < |results| => DecodeEntry(i, results[i], random(i), show))
  }

  /** `data.results || []`. */
  function ResultsOf(reply: ServerReply): seq<ServerResult> {
    if reply.results.Some? then reply.results.value else []
  }

  /** `data.image_id || uuidv4()`. */
  function ImageIdOf(reply: ServerReply, freshId: string): (r: string)
    ensures Truthy(reply.imageId) ==> r == reply.imageId.value
    ensures !Truthy(reply.imageId) ==> r == freshId
  {
    if Truthy(reply.imageId) then reply.imageId.value else freshId
  }

  /** `POST` (lines 198-274). */
  function Post(file: Option<Upload>, server: Upload -> Option<ServerReply>, freshId: string,
                random: nat -> real, show: real -> string): (r: Outcome)
    requires Oracle(random)
    ensures r.BadRequest? <==> Validate(file).Some?
    ensures file.None? ==> r == BadRequest(MissingFile)
    ensures r.InternalError? <==> Validate(file).None? && server(file.value).None?
  {
    match Validate(file)
    case Some(reason) => BadRequest(reason)
    case None =>
      match server(file.value)
      case None => InternalError
      case Some(reply) => Predicted(ImageIdOf(reply, freshId), Decode(ResultsOf(reply), random, show))
  }

  /** A rejected upload never reaches the AI server: the outcome is the same
      whatever the server would have answered. */
  lemma RejectionSkipsServer(file: Option<Upload>, s1: Upload -> Option<ServerReply>, s2: Upload -> Option<ServerReply>,
                             freshId: string, random: nat -> real, show: real -> string)
    requires Oracle(random) && Validate(file).Some?
    ensures Post(file, s1, freshId, random, show) == Post(file, s2, freshId, random, show)
    ensures Post(file, s1, freshId, random, show) == BadRequest(Validate(file).value)
  {
  }

  /** A JPEG upload the server answers yields its results decoded, under
      the server's image id or a fresh one. */
  lemma SuccessfulPost(file: Option<Upload>, server: Upload -> Option<ServerReply>, freshId: string,
                       random: nat -> real, show: real -> string)
    requires Oracle(random) && file.Some? && file.value.mimeType == JpegType && server(file.value).Some?
    ensures var reply := server(file.value);
      Post(file, server, freshId, random, show) ==
        Predicted(ImageIdOf(reply.value, freshId), Decode(ResultsOf(reply.value), random, show))
  {
  }

  /** The decoded list is positional: same length as `results` (empty when
      absent), each entry's index is its position, and the record's id,
      class, confidence, bbox and status are copied, the confidence also as
      the description. */
  lemma DecodeIsPositional(reply: ServerReply, random: nat -> real, show: real -> string)
    requires Oracle(random)
    ensures var r := Decode(ResultsOf(reply), random, show);
      && (reply.results.None? ==> r == [])
      && (reply.results.Some? ==> |r| == |reply.results.value|)
      && forall i :: 0 <= i < |r| ==>
           var rec := ResultsOf(reply)[i];
           && r[i].index == i && r[i].id == rec.bboxId && r[i].classId == rec.classId
           && r[i].confidence == rec.confidence && r[i].bbox == rec.bbox && r[i].status == rec.status
           && r[i].description == show(rec.confidence)
  {
  }

  /** Names: the route's label for a known class id, "Unknown" otherwise;
      a known id gets the same label the editor shows for it. */
  lemma DecodedNames(results: seq<ServerResult>, random: nat -> real, show: real -> string)
    requires Oracle(random)
    ensures var r := Decode(results, random, show);
      forall i :: 0 <= i < |r| ==>
        && (results[i].classId in Labels ==> r[i].name == Labels[results[i].classId] && r[i].name != UnknownLabel)
        && (results[i].classId !in Labels ==> r[i].name == UnknownLabel)
        && (FindClass(results[i].classId).Some? ==> r[i].name == FindClass(results[i].classId).value.name)
  {
    var r := Decode(results, random, show);
    LabelsAreNotUnknown();
    forall i | 0 <= i < |r| && FindClass(results[i].classId).Some?
      ensures r[i].name == FindClass(results[i].classId).value.name
    {
      ClassNameIsLabel(FindClass(results[i].classId).value);
    }
  }

  /** No route label is the fallback text, so "Unknown" marks exactly the
      unknown class ids. */
  lemma LabelsAreNotUnknown()
    ensures forall k :: k in Labels ==> Labels[k] != UnknownLabel
  {
  }

  /** Colours: a known class id draws from its own palette, an unknown one
      from the default palette. */
  lemma DecodedColors(results: seq<ServerResult>, random: nat -> real, show: real -> string)
    requires Oracle(random)
    ensures var r := Decode(results, random, show);
      forall i :: 0 <= i < |r| ==>
        && (results[i].classId in Labels ==> r[i].color in Palettes[results[i].classId])
        && (results[i].classId !in Labels ==> r[i].color in Palettes[DefaultKey])
  {
  }
}
