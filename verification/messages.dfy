/** Values exchanged by the upload gateway: the multipart request, the
    processing event it fans out, the error body, and the log of calls the
    gateway issues to its collaborators (existence oracles, object store,
    message bus). */
module Messages {

  datatype Option<T> = None | Some(value: T)

  /** The media category an endpoint handles (DataTypeEnum). */
  datatype DataType = Movie | Serial | Anime

  /** Target quality of one transcoding job (ContentQuality). */
  datatype ContentQuality = FullHD | HD | SD

  /** The uploaded file (IFormFile): the client's file name, its declared
      content type and the bytes its read stream yields. */
  datatype FormFile = FormFile(fileName: string, contentType: string, content: seq<bv8>)

  /** The multipart form body shared by the three endpoints (UploadContentDto). */
  datatype UploadContentDto = UploadContentDto(contentId: string, isEpisode: bool, file: FormFile)

  /** The structured 404 body (ErrorDto). */
  datatype ErrorDto = ErrorDto(message: string, code: string)

  /** What an endpoint answers: a bare 200, a 404 with its body, or an
      exception that escapes the action (a timeout or fault of a collaborator). */
  datatype Response = Ok200 | NotFound404(error: ErrorDto) | Aborted

  /** One published VideoProcessingEvent, as captured at the moment of publishing. */
  datatype ProcessingMessage = ProcessingMessage(
    fileUrl: string,
    dataType: DataType,
    fileName: string,
    contentId: string,
    isEpisode: bool,
    quality: ContentQuality)

  /** A call the gateway issues to a collaborator. */
  datatype Effect =
    | CheckContent(contentId: string)          // ContentExistEvent request
    | CheckEpisode(episodeId: string)          // EpisodeExistEvent request
    | Put(bucket: string, objectName: string, data: seq<bv8>, objectSize: nat, contentType: string)
    | Presign(bucket: string, objectPath: string, expirySeconds: nat)
    | Publish(message: ProcessingMessage)

  datatype EffectKind = CheckKind | PutKind | PresignKind | PublishKind

  function KindOf(e: Effect): EffectKind {
    match e
    case CheckContent(_) => CheckKind
    case CheckEpisode(_) => CheckKind
    case Put(_, _, _, _, _) => PutKind
    case Presign(_, _, _) => PresignKind
    case Publish(_) => PublishKind
  }

  /** The calls of one kind in a trace, in the order they were issued. */
  function Select(t: seq<Effect>, kind: EffectKind): seq<Effect>
  {
    if t == [] then []
    else (if KindOf(t[0]) == kind then [t[0]] else []) + Select(t[1..], kind)
  }

  /** Selecting from a concatenation selects from each part. */
  lemma {:induction false} SelectAppend(a: seq<Effect>, b: seq<Effect>, kind: EffectKind)
    ensures Select(a + b, kind) == Select(a, kind) + Select(b, kind)
  {
    if a == [] {
      assert a + b == b;
    } else {
      var head := if KindOf(a[0]) == kind then [a[0]] else [];
      assert (a + b)[0] == a[0];
      assert (a + b)[1..] == a[1..] + b;
      assert Select(a + b, kind) == head + Select(a[1..] + b, kind);
      SelectAppend(a[1..], b, kind);
      assert Select(a, kind) == head + Select(a[1..], kind);
      AppendAssoc(head, Select(a[1..], kind), Select(b, kind));
    }
  }

  lemma AppendAssoc(a: seq<Effect>, b: seq<Effect>, c: seq<Effect>)
    ensures (a + b) + c == a + (b + c)
  {
  }

  /** The calls the outside world has seen so far. */
  class EffectLog {
    ghost var effects: seq<Effect>

    constructor ()
      ensures effects == []
    {
      effects := [];
    }
  }

  /** The mutable VideoProcessingEvent object the controller fills in and
      whose Quality it overwrites between publishes. */
  class VideoProcessingEvent {
    var fileUrl: string
    var dataType: DataType
    var fileName: string
    var contentId: string
    var isEpisode: bool
    var quality: ContentQuality

    /** The object initializer: every field but Quality is set. */
    constructor (fileUrl: string, dataType: DataType, fileName: string, contentId: string, isEpisode: bool)
      ensures this.fileUrl == fileUrl && this.dataType == dataType && this.fileName == fileName
      ensures this.contentId == contentId && this.isEpisode == isEpisode
    {
      this.fileUrl := fileUrl;
      this.dataType := dataType;
      this.fileName := fileName;
      this.contentId := contentId;
      this.isEpisode := isEpisode;
    }

    /** The immutable value a publish captures. */
    function Snapshot(): ProcessingMessage
      reads this
    {
      ProcessingMessage(fileUrl, dataType, fileName, contentId, isEpisode, quality)
    }
  }
}
