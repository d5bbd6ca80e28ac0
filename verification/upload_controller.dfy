/** The upload orchestration (UploadController): an existence check against
    one of two oracles, then one put, one presigned URL and an ordered fanout
    of three processing events, with a 404 short-circuit before any of it. */
module Upload {
  import opened Messages
  import opened Storage

  /** The replies the collaborators give during one request. A None reply,
      a faulting put or the faulting tier's publish stands for an exception
      thrown by that call (timeout, broker or storage failure). */
  datatype Env = Env(
    existsReply: Option<bool>,
    putFaults: bool,
    presignReply: Option<string>,
    publishFault: Option<ContentQuality>)

  /** The one body every 404 of this controller carries. */
  const ContentNotFound: ErrorDto := ErrorDto("Content not found", "404")

  /** The publish order of SendTranscodeTaskAsync. */
  const Tiers: seq<ContentQuality> := [FullHD, HD, SD]

  /** The existence request an endpoint issues. */
  function CheckFor(dataType: DataType, dto: UploadContentDto): Effect
  {
    match dataType
    case Movie => CheckContent(dto.contentId)
    case Serial => CheckEpisode(dto.contentId)
    case Anime => if dto.isEpisode then CheckEpisode(dto.contentId) else CheckContent(dto.contentId)
  }

  /** The event a successful persist is announced with, before its quality is set. */
  function BaseMessage(url: string, dataType: DataType, guid: string, dto: UploadContentDto): ProcessingMessage
  {
    ProcessingMessage(url, dataType, guid, dto.contentId, dto.isEpisode, FullHD)
  }

  /** Publishing m once per tier, in order, stopping after the tier whose publish throws. */
  function Fanout(m: ProcessingMessage, tiers: seq<ContentQuality>, fault: Option<ContentQuality>): seq<Effect>
  {
    if tiers == [] then []
    else
      [Publish(m.(quality := tiers[0]))] +
      (if fault == Some(tiers[0]) then [] else Fanout(m, tiers[1..], fault))
  }

  /** The quality a message has before the fanout does not matter. */
  lemma {:induction false} FanoutIgnoresQuality(m: ProcessingMessage, q: ContentQuality, tiers: seq<ContentQuality>, fault: Option<ContentQuality>)
    ensures Fanout(m.(quality := q), tiers, fault) == Fanout(m, tiers, fault)
  {
    if tiers != [] {
      assert m.(quality := q).(quality := tiers[0]) == m.(quality := tiers[0]);
      FanoutIgnoresQuality(m, q, tiers[1..], fault);
    }
  }

  /** The fanout over the three tiers, written out: FullHD, then HD, then SD,
      each publish issued only when the one before it returned. */
  lemma FanoutOfTiers(m: ProcessingMessage, fault: Option<ContentQuality>)
    ensures var full, hd, sd := Publish(m.(quality := FullHD)), Publish(m.(quality := HD)), Publish(m.(quality := SD));
      Fanout(m, Tiers, fault) ==
        if fault == Some(FullHD) then [full]
        else if fault == Some(HD) then [full, hd]
        else [full, hd, sd]
  {
    assert Fanout(m, [], fault) == [];
    assert [SD][1..] == [];
    assert Fanout(m, [SD], fault) == [Publish(m.(quality := SD))];
    assert [HD, SD][1..] == [SD];
    assert Tiers[1..] == [HD, SD];
  }

  /** A fault that is not at FullHD or HD is at SD, if anywhere. */
  lemma LastTierFault(fault: Option<ContentQuality>)
    requires fault != Some(FullHD) && fault != Some(HD)
    ensures fault.None? <==> fault != Some(SD)
  {
    if fault.Some? {
      assert fault.value != FullHD && fault.value != HD;
    }
  }

  /** The calls SendTranscodeTaskAsync issues: the put, then (unless it
      throws) the presign of the same object, then (unless that throws) the fanout. */
  function TranscodeTrace(dto: UploadContentDto, dataType: DataType, guid: string, bucket: string, env: Env): seq<Effect>
  {
    var key := ObjectName(guid, dto.file.fileName);
    [Put(bucket, key, dto.file.content, |dto.file.content|, dto.file.contentType)] +
    if env.putFaults then []
    else
      [Presign(bucket, key, UrlExpirySeconds)] +
      match env.presignReply
      case None => []
      case Some(url) => Fanout(BaseMessage(url, dataType, guid, dto), Tiers, env.publishFault)
  }

  /** Whether SendTranscodeTaskAsync returns normally. */
  predicate TranscodeCompletes(env: Env)
  {
    !env.putFaults && env.presignReply.Some? && env.publishFault.None?
  }

  /** The calls one request to an endpoint issues. */
  function UploadTrace(dataType: DataType, dto: UploadContentDto, guid: string, bucket: string, env: Env): seq<Effect>
  {
    [CheckFor(dataType, dto)] +
      (if env.existsReply == Some(true) then TranscodeTrace(dto, dataType, guid, bucket, env) else [])
  }

  /** What one request to an endpoint answers. */
  function UploadResponse(env: Env): Response
  {
    match env.existsReply
    case None => Aborted
    case Some(isExists) =>
      if !isExists then NotFound404(ContentNotFound)
      else if TranscodeCompletes(env) then Ok200
      else Aborted
  }

  /** How many processing events a request publishes: none unless the object
      was stored and presigned, else up to and including the tier whose
      publish throws. */
  function PublishedCount(env: Env): (n: nat)
    ensures n <= |Tiers|
  {
    if env.existsReply != Some(true) || env.putFaults || env.presignReply.None? then 0
    else if env.publishFault == Some(FullHD) then 1
    else if env.publishFault == Some(HD) then 2
    else 3
  }

  lemma SelectSingleton(e: Effect, kind: EffectKind)
    ensures Select([e], kind) == if KindOf(e) == kind then [e] else []
  {
    assert [e][1..] == [];
  }

  /** A fanout holds publishes only. */
  lemma {:induction false} SelectFanout(m: ProcessingMessage, tiers: seq<ContentQuality>, fault: Option<ContentQuality>, kind: EffectKind)
    ensures Select(Fanout(m, tiers, fault), kind) == if kind == PublishKind then Fanout(m, tiers, fault) else []
  {
    if tiers != [] {
      var head := [Publish(m.(quality := tiers[0]))];
      var rest := if fault == Some(tiers[0]) then [] else Fanout(m, tiers[1..], fault);
      SelectAppend(head, rest, kind);
      SelectSingleton(head[0], kind);
      if fault != Some(tiers[0]) {
        SelectFanout(m, tiers[1..], fault, kind);
      }
    }
  }

  /** The transcode step as its three stages: put, presign, fanout. */
  lemma TranscodeStages(dto: UploadContentDto, dataType: DataType, guid: string, bucket: string, env: Env)
    ensures var key := ObjectName(guid, dto.file.fileName);
      TranscodeTrace(dto, dataType, guid, bucket, env) ==
        [Put(bucket, key, dto.file.content, |dto.file.content|, dto.file.contentType)] +
        ((if env.putFaults then [] else [Presign(bucket, key, UrlExpirySeconds)]) +
         (if env.putFaults || env.presignReply.None? then []
          else Fanout(BaseMessage(env.presignReply.value, dataType, guid, dto), Tiers, env.publishFault)))
  {
  }

  /** Selecting from a put, an optional presign and a run of publishes. */
  lemma SelectStages(put: Effect, presign: seq<Effect>, fan: seq<Effect>, kind: EffectKind)
    requires put.Put?
    requires presign == [] || (|presign| == 1 && presign[0].Presign?)
    requires Select(fan, kind) == if kind == PublishKind then fan else []
    ensures Select([put] + (presign + fan), kind) ==
      (if kind == PutKind then [put] else []) +
      ((if kind == PresignKind then presign else []) + (if kind == PublishKind then fan else []))
  {
    SelectAppend([put], presign + fan, kind);
    SelectAppend(presign, fan, kind);
    SelectSingleton(put, kind);
    if presign != [] {
      SelectSingleton(presign[0], kind);
      assert [presign[0]] == presign;
    }
  }

  /** The calls of each kind SendTranscodeTaskAsync issues. */
  lemma TranscodeSelect(dto: UploadContentDto, dataType: DataType, guid: string, bucket: string, env: Env, kind: EffectKind)
    ensures var key := ObjectName(guid, dto.file.fileName);
      Select(TranscodeTrace(dto, dataType, guid, bucket, env), kind) ==
        (if kind == PutKind then [Put(bucket, key, dto.file.content, |dto.file.content|, dto.file.contentType)] else []) +
        ((if kind == PresignKind && !env.putFaults then [Presign(bucket, key, UrlExpirySeconds)] else []) +
         (if kind != PublishKind || env.putFaults || env.presignReply.None? then []
          else Fanout(BaseMessage(env.presignReply.value, dataType, guid, dto), Tiers, env.publishFault)))
  {
    var key := ObjectName(guid, dto.file.fileName);
    var put := Put(bucket, key, dto.file.content, |dto.file.content|, dto.file.contentType);
    var presign := if env.putFaults then [] else [Presign(bucket, key, UrlExpirySeconds)];
    var fan := if env.putFaults || env.presignReply.None? then []
      else Fanout(BaseMessage(env.presignReply.value, dataType, guid, dto), Tiers, env.publishFault);
    TranscodeStages(dto, dataType, guid, bucket, env);
    if fan != [] {
      SelectFanout(BaseMessage(env.presignReply.value, dataType, guid, dto), Tiers, env.publishFault, kind);
    }
    SelectStages(put, presign, fan, kind);
  }

  /** The calls of each kind one request issues. */
  lemma UploadSelect(dataType: DataType, dto: UploadContentDto, guid: string, bucket: string, env: Env, kind: EffectKind)
    ensures Select(UploadTrace(dataType, dto, guid, bucket, env), kind) ==
      (if kind == CheckKind then [CheckFor(dataType, dto)] else []) +
      (if env.existsReply == Some(true) then Select(TranscodeTrace(dto, dataType, guid, bucket, env), kind) else [])
  {
    var rest := if env.existsReply == Some(true) then TranscodeTrace(dto, dataType, guid, bucket, env) else [];
    SelectAppend([CheckFor(dataType, dto)], rest, kind);
    SelectSingleton(CheckFor(dataType, dto), kind);
  }

  /** Movie asks the content oracle, serial the episode oracle, anime the
      episode oracle exactly when the upload is an episode; always with the
      DTO's ContentId. */
  lemma OracleDispatch(dataType: DataType, dto: UploadContentDto)
    ensures CheckFor(dataType, dto).CheckEpisode? <==> dataType == Serial || (dataType == Anime && dto.isEpisode)
    ensures CheckFor(dataType, dto).CheckContent? <==> dataType == Movie || (dataType == Anime && !dto.isEpisode)
    ensures CheckFor(dataType, dto) in {CheckContent(dto.contentId), CheckEpisode(dto.contentId)}
  {
  }

  /** Every request issues exactly one existence check, and issues it first. */
  lemma ExactlyOneCheck(dataType: DataType, dto: UploadContentDto, guid: string, bucket: string, env: Env)
    ensures var t := UploadTrace(dataType, dto, guid, bucket, env);
      t[0] == CheckFor(dataType, dto) && Select(t, CheckKind) == [CheckFor(dataType, dto)]
  {
    UploadSelect(dataType, dto, guid, bucket, env, CheckKind);
    TranscodeSelect(dto, dataType, guid, bucket, env, CheckKind);
  }

  /** Unless the oracle says the content exists, the check is the only call:
      a negative answer is a 404 with the "Content not found" body, a failed
      check an abort. */
  lemma NoSideEffectsUnlessExists(dataType: DataType, dto: UploadContentDto, guid: string, bucket: string, env: Env)
    requires env.existsReply != Some(true)
    ensures UploadTrace(dataType, dto, guid, bucket, env) == [CheckFor(dataType, dto)]
    ensures UploadResponse(env) ==
      if env.existsReply == Some(false) then NotFound404(ErrorDto("Content not found", "404")) else Aborted
  {
  }

  /** The puts a request issues: one exactly when the content exists. */
  lemma StoredObjects(dataType: DataType, dto: UploadContentDto, guid: string, bucket: string, env: Env)
    ensures Select(UploadTrace(dataType, dto, guid, bucket, env), PutKind) ==
      if env.existsReply == Some(true)
      then [Put(bucket, ObjectName(guid, dto.file.fileName), dto.file.content, |dto.file.content|, dto.file.contentType)]
      else []
  {
    UploadSelect(dataType, dto, guid, bucket, env, PutKind);
    TranscodeSelect(dto, dataType, guid, bucket, env, PutKind);
  }

  /** The presigns a request issues: one exactly when the put returned. */
  lemma PresignedObjects(dataType: DataType, dto: UploadContentDto, guid: string, bucket: string, env: Env)
    ensures Select(UploadTrace(dataType, dto, guid, bucket, env), PresignKind) ==
      if env.existsReply == Some(true) && !env.putFaults
      then [Presign(bucket, ObjectName(guid, dto.file.fileName), UrlExpirySeconds)]
      else []
  {
    UploadSelect(dataType, dto, guid, bucket, env, PresignKind);
    TranscodeSelect(dto, dataType, guid, bucket, env, PresignKind);
  }

  /** At most one put and one presign per request: the put exactly when the
      content exists, into the content bucket under the GUID-derived object
      name with the stream's length and content type; the presign exactly
      when the put returned, for the same bucket and object name, for seven days. */
  lemma SinglePersist(dataType: DataType, dto: UploadContentDto, guid: string, bucket: string, env: Env)
    ensures var t := UploadTrace(dataType, dto, guid, bucket, env);
      var key := ObjectName(guid, dto.file.fileName);
      Select(t, PutKind) ==
        (if env.existsReply == Some(true)
         then [Put(bucket, key, dto.file.content, |dto.file.content|, dto.file.contentType)] else []) &&
      Select(t, PresignKind) ==
        (if env.existsReply == Some(true) && !env.putFaults then [Presign(bucket, key, 604800)] else [])
  {
    StoredObjects(dataType, dto, guid, bucket, env);
    PresignedObjects(dataType, dto, guid, bucket, env);
  }

  /** The events a request publishes are the fanout of the transcode step,
      and nothing unless the object was stored and presigned. */
  lemma PublishedEvents(dataType: DataType, dto: UploadContentDto, guid: string, bucket: string, env: Env)
    ensures Select(UploadTrace(dataType, dto, guid, bucket, env), PublishKind) ==
      if env.existsReply == Some(true) && !env.putFaults && env.presignReply.Some?
      then Fanout(BaseMessage(env.presignReply.value, dataType, guid, dto), Tiers, env.publishFault)
      else []
  {
    UploadSelect(dataType, dto, guid, bucket, env, PublishKind);
    TranscodeSelect(dto, dataType, guid, bucket, env, PublishKind);
  }

  /** The fanout over the tiers publishes Tiers[i] at position i. */
  lemma FanoutByIndex(m: ProcessingMessage, fault: Option<ContentQuality>)
    ensures var fan := Fanout(m, Tiers, fault);
      |fan| == (if fault == Some(FullHD) then 1 else if fault == Some(HD) then 2 else 3) &&
      forall i :: 0 <= i < |fan| ==> fan[i] == Publish(m.(quality := Tiers[i]))
  {
    FanoutOfTiers(m, fault);
  }

  /** The published events are the tiers FullHD, HD, SD in that order, cut
      after a publish that throws; each carries the presigned URL, the
      endpoint's data type, the GUID (not the client's file name) and the
      DTO's ContentId and IsEpisode. Nothing is published before the object
      is stored and its URL obtained. */
  lemma OrderedFanout(dataType: DataType, dto: UploadContentDto, guid: string, bucket: string, env: Env)
    ensures var published := Select(UploadTrace(dataType, dto, guid, bucket, env), PublishKind);
      |published| == PublishedCount(env) &&
      (published != [] ==>
        env.existsReply == Some(true) && !env.putFaults && env.presignReply.Some? &&
        forall i :: 0 <= i < |published| ==>
          published[i] == Publish(ProcessingMessage(env.presignReply.value, dataType, guid,
                                                    dto.contentId, dto.isEpisode, Tiers[i])))
  {
    PublishedEvents(dataType, dto, guid, bucket, env);
    if env.existsReply == Some(true) && !env.putFaults && env.presignReply.Some? {
      FanoutByIndex(BaseMessage(env.presignReply.value, dataType, guid, dto), env.publishFault);
    }
  }

  /** Any two published events of one request are equal but for Quality,
      and no quality is published twice. */
  lemma FanoutMessagesAgree(dataType: DataType, dto: UploadContentDto, guid: string, bucket: string, env: Env)
    ensures var published := Select(UploadTrace(dataType, dto, guid, bucket, env), PublishKind);
      forall i, j :: 0 <= i < |published| && 0 <= j < |published| ==>
        published[i].Publish? && published[j].Publish? &&
        published[i].message.(quality := published[j].message.quality) == published[j].message &&
        (i != j ==> published[i].message.quality != published[j].message.quality)
  {
    OrderedFanout(dataType, dto, guid, bucket, env);
  }

  /** A request answers 200 exactly when the content exists and no call
      throws; 404 only on a negative answer. */
  lemma OkExactlyWhenAllReturn(env: Env)
    ensures UploadResponse(env) == Ok200 <==> env.existsReply == Some(true) && TranscodeCompletes(env)
    ensures UploadResponse(env).NotFound404? <==> env.existsReply == Some(false)
  {
  }

  /** A request that answers 200 issued exactly: the check, the put, the
      presign of the put's object name, and the publishes of FullHD, HD and
      SD, the last call before the 200. */
  lemma SuccessfulUpload(dataType: DataType, dto: UploadContentDto, guid: string, bucket: string, env: Env)
    requires env.existsReply == Some(true) && TranscodeCompletes(env)
    ensures var key := ObjectName(guid, dto.file.fileName);
      var m := ProcessingMessage(env.presignReply.value, dataType, guid, dto.contentId, dto.isEpisode, FullHD);
      var t := UploadTrace(dataType, dto, guid, bucket, env);
      |t| == 6 &&
      t[0] == CheckFor(dataType, dto) &&
      t[1] == Put(bucket, key, dto.file.content, |dto.file.content|, dto.file.contentType) &&
      t[2] == Presign(bucket, key, 604800) &&
      t[3] == Publish(m) && t[4] == Publish(m.(quality := HD)) && t[5] == Publish(m.(quality := SD))
  {
    var m := BaseMessage(env.presignReply.value, dataType, guid, dto);
    assert m.(quality := FullHD) == m;
    FanoutOfTiers(m, env.publishFault);
    TranscodeStages(dto, dataType, guid, bucket, env);
    var key := ObjectName(guid, dto.file.fileName);
    SixCalls(CheckFor(dataType, dto), Put(bucket, key, dto.file.content, |dto.file.content|, dto.file.contentType),
             Presign(bucket, key, UrlExpirySeconds), Fanout(m, Tiers, env.publishFault));
  }

  /** The positions of a check, a put, a presign and three publishes. */
  lemma SixCalls(check: Effect, put: Effect, presign: Effect, fan: seq<Effect>)
    requires |fan| == 3
    ensures var t := [check] + ([put] + ([presign] + fan));
      |t| == 6 && t[0] == check && t[1] == put && t[2] == presign &&
      t[3] == fan[0] && t[4] == fan[1] && t[5] == fan[2]
  {
  }

  /** When the put or the presign throws, nothing is published; when a
      publish throws, the stored object stays and the earlier tiers stay
      published: the request aborts without undoing anything. */
  lemma FaultsAbortWithoutUndo(dataType: DataType, dto: UploadContentDto, guid: string, bucket: string, env: Env)
    requires env.existsReply == Some(true) && !TranscodeCompletes(env)
    ensures UploadResponse(env) == Aborted
    ensures var t := UploadTrace(dataType, dto, guid, bucket, env);
      |Select(t, PutKind)| == 1 &&
      (env.putFaults || env.presignReply.None? ==> Select(t, PublishKind) == []) &&
      (!env.putFaults && env.presignReply.Some? ==>
        var published := Select(t, PublishKind);
        |Select(t, PresignKind)| == 1 && env.publishFault.Some? && published != [] &&
        published[|published| - 1] == Publish(ProcessingMessage(env.presignReply.value, dataType, guid,
                                                                dto.contentId, dto.isEpisode, env.publishFault.value)))
  {
    SinglePersist(dataType, dto, guid, bucket, env);
    OrderedFanout(dataType, dto, guid, bucket, env);
    if !env.putFaults && env.presignReply.Some? {
      var published := Select(UploadTrace(dataType, dto, guid, bucket, env), PublishKind);
      var n := |published|;
      LastTierFault(if env.publishFault == Some(FullHD) || env.publishFault == Some(HD) then None else env.publishFault);
      assert 1 <= n && Tiers[n - 1] == env.publishFault.value;
    }
  }

  /** A movie upload of "trailer.mp4" for content "m1" that the oracle
      confirms: one content check, one put under "<guid>/temp.mp4", three
      publishes, 200. */
  lemma MovieUploadScenario(guid: string, bucket: string, url: string, content: seq<bv8>)
    ensures var dto := UploadContentDto("m1", false, FormFile("trailer.mp4", "video/mp4", content));
      var env := Env(Some(true), false, Some(url), None);
      var t := UploadTrace(Movie, dto, guid, bucket, env);
      |t| == 6 && t[0] == CheckContent("m1") &&
      t[1] == Put(bucket, guid + "/temp" + ".mp4", content, |content|, "video/mp4") &&
      t[2] == Presign(bucket, guid + "/temp" + ".mp4", 604800) &&
      |Select(t, PublishKind)| == 3 &&
      UploadResponse(env) == Ok200
  {
    var dto := UploadContentDto("m1", false, FormFile("trailer.mp4", "video/mp4", content));
    var env := Env(Some(true), false, Some(url), None);
    TrailerExtension();
    SuccessfulUpload(Movie, dto, guid, bucket, env);
    OrderedFanout(Movie, dto, guid, bucket, env);
  }

  /** The message bus side of publishing (IPublishEndpoint). */
  class PublishEndpoint {
    const log: EffectLog

    constructor (log: EffectLog)
      ensures this.log == log
    {
      this.log := log;
    }

    /** Publishes the value the message has now; false when the publish throws. */
    method Publish(message: ProcessingMessage, throws: bool) returns (ok: bool)
      modifies log
      ensures log.effects == old(log.effects) + [Effect.Publish(message)]
      ensures ok == !throws
    {
      log.effects := log.effects + [Effect.Publish(message)];
      ok := !throws;
    }
  }

  class UploadController {
    const publishEndpoint: PublishEndpoint
    const minioService: MinioService
    const log: EffectLog

    /** All collaborators report to one log. */
    ghost predicate Valid()
    {
      publishEndpoint.log == log && minioService.log == log
    }

    constructor (publishEndpoint: PublishEndpoint, minioService: MinioService)
      requires publishEndpoint.log == minioService.log
      ensures Valid() && this.publishEndpoint == publishEndpoint && this.minioService == minioService
    {
      this.publishEndpoint := publishEndpoint;
      this.minioService := minioService;
      this.log := minioService.log;
    }

    /** The content-exists request/reply; None when it times out or faults. */
    method GetContentExistResponse(contentId: string, reply: Option<bool>) returns (isExists: Option<bool>)
      modifies log
      ensures log.effects == old(log.effects) + [CheckContent(contentId)]
      ensures isExists == reply
    {
      log.effects := log.effects + [CheckContent(contentId)];
      isExists := reply;
    }

    /** The episode-exists request/reply; None when it times out or faults. */
    method GetEpisodeExistResponse(episodeId: string, reply: Option<bool>) returns (isExists: Option<bool>)
      modifies log
      ensures log.effects == old(log.effects) + [CheckEpisode(episodeId)]
      ensures isExists == reply
    {
      log.effects := log.effects + [CheckEpisode(episodeId)];
      isExists := reply;
    }

    /** POST v1/upload/movie/content: asks the content oracle. */
    method UploadMovie(dto: UploadContentDto, guid: string, env: Env) returns (response: Response)
      requires Valid()
      modifies log
      ensures log.effects == old(log.effects) + UploadTrace(Movie, dto, guid, minioService.contentBucket, env)
      ensures response == UploadResponse(env)
    {
      var result := GetContentExistResponse(dto.contentId, env.existsReply);
      if result.None? {
        return Aborted;
      }
      if !result.value {
        return NotFound404(ErrorDto("Content not found", "404"));
      }
      var completed := SendTranscodeTask(dto, Movie, guid, env);
      AppendAssoc(old(log.effects), [CheckFor(Movie, dto)], TranscodeTrace(dto, Movie, guid, minioService.contentBucket, env));
      if !completed {
        return Aborted;
      }
      return Ok200;
    }

    /** POST v1/upload/serial/content: asks the episode oracle. */
    method UploadSerial(dto: UploadContentDto, guid: string, env: Env) returns (response: Response)
      requires Valid()
      modifies log
      ensures log.effects == old(log.effects) + UploadTrace(Serial, dto, guid, minioService.contentBucket, env)
      ensures response == UploadResponse(env)
    {
      var result := GetEpisodeExistResponse(dto.contentId, env.existsReply);
      if result.None? {
        return Aborted;
      }
      if !result.value {
        return NotFound404(ErrorDto("Content not found", "404"));
      }
      var completed := SendTranscodeTask(dto, Serial, guid, env);
      AppendAssoc(old(log.effects), [CheckFor(Serial, dto)], TranscodeTrace(dto, Serial, guid, minioService.contentBucket, env));
      if !completed {
        return Aborted;
      }
      return Ok200;
    }

    /** POST v1/upload/anime/content: asks the episode oracle for an
        episode, the content oracle otherwise. */
    method UploadAnime(dto: UploadContentDto, guid: string, env: Env) returns (response: Response)
      requires Valid()
      modifies log
      ensures log.effects == old(log.effects) + UploadTrace(Anime, dto, guid, minioService.contentBucket, env)
      ensures response == UploadResponse(env)
    {
      if dto.isEpisode {
        var result := GetEpisodeExistResponse(dto.contentId, env.existsReply);
        if result.None? {
          return Aborted;
        }
        if !result.value {
          return NotFound404(ErrorDto("Content not found", "404"));
        }
      } else {
        var result := GetContentExistResponse(dto.contentId, env.existsReply);
        if result.None? {
          return Aborted;
        }
        if !result.value {
          return NotFound404(ErrorDto("Content not found", "404"));
        }
      }
      var completed := SendTranscodeTask(dto, Anime, guid, env);
      AppendAssoc(old(log.effects), [CheckFor(Anime, dto)], TranscodeTrace(dto, Anime, guid, minioService.contentBucket, env));
      if !completed {
        return Aborted;
      }
      return Ok200;
    }

    /** SendTranscodeTaskAsync with guid as the freshly generated GUID text:
        store, presign, then fill in one event object and publish it once
        per tier. Returns false when a call throws. */
    method SendTranscodeTask(dto: UploadContentDto, dataType: DataType, guid: string, env: Env)
      returns (completed: bool)
      requires Valid()
      modifies log
      ensures log.effects == old(log.effects) + TranscodeTrace(dto, dataType, guid, minioService.contentBucket, env)
      ensures completed == TranscodeCompletes(env)
    {
      ghost var key := ObjectName(guid, dto.file.fileName);
      ghost var put := Put(minioService.contentBucket, key, dto.file.content, |dto.file.content|, dto.file.contentType);
      ghost var presign := Presign(minioService.contentBucket, key, UrlExpirySeconds);
      TranscodeStages(dto, dataType, guid, minioService.contentBucket, env);

      var fileName := guid;
      var path := minioService.UploadContent(dto.file, fileName, env.putFaults);
      if path.None? {
        assert [put] + ([] + []) == [put];
        return false;
      }
      var url := minioService.GetUrl(path.value, env.presignReply);
      AppendAssoc(old(log.effects), [put], [presign]);
      if url.None? {
        assert [put] + ([presign] + []) == [put] + [presign];
        return false;
      }
      ghost var stored := log.effects;
      var videoProcessingEvent := new VideoProcessingEvent(url.value, dataType, fileName, dto.contentId, dto.isEpisode);
      ghost var base := BaseMessage(url.value, dataType, guid, dto);
      assert videoProcessingEvent.Snapshot() == base.(quality := videoProcessingEvent.quality);
      FanoutIgnoresQuality(base, videoProcessingEvent.quality, Tiers, env.publishFault);
      completed := PublishTiers(videoProcessingEvent, env.publishFault);
      ghost var fan := Fanout(base, Tiers, env.publishFault);
      assert log.effects == stored + fan;
      AppendAssoc(old(log.effects), [put] + [presign], fan);
      AppendAssoc([put], [presign], fan);
    }

    /** The fanout of SendTranscodeTaskAsync: Quality is overwritten with
        FullHD, HD and SD in turn and the event published after each write;
        a publish that throws ends it. Each publish records the event's value
        at that moment. */
    method PublishTiers(videoProcessingEvent: VideoProcessingEvent, fault: Option<ContentQuality>) returns (ok: bool)
      requires Valid()
      modifies log, videoProcessingEvent
      ensures log.effects == old(log.effects) + Fanout(old(videoProcessingEvent.Snapshot()), Tiers, fault)
      ensures ok == fault.None?
      ensures videoProcessingEvent.Snapshot() ==
        old(videoProcessingEvent.Snapshot()).(quality := if fault.Some? then fault.value else SD)
    {
      ghost var m := videoProcessingEvent.Snapshot();
      FanoutOfTiers(m, fault);

      videoProcessingEvent.quality := FullHD;
      ok := publishEndpoint.Publish(videoProcessingEvent.Snapshot(), fault == Some(FullHD));
      if !ok {
        return;
      }

      videoProcessingEvent.quality := HD;
      ok := publishEndpoint.Publish(videoProcessingEvent.Snapshot(), fault == Some(HD));
      if !ok {
        return;
      }

      videoProcessingEvent.quality := SD;
      ok := publishEndpoint.Publish(videoProcessingEvent.Snapshot(), fault == Some(SD));
      LastTierFault(fault);
    }
  }
}
