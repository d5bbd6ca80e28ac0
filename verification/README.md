# Upload API orchestration, modelled in Dafny

This project models the upload endpoints of the Goose-Hub Upload API: an ASP.NET
controller (`UploadController`) that receives a media file for a movie, a serial
episode or an anime, asks a catalog service over MassTransit whether the target
exists, stores the file in MinIO under a GUID-derived object name, obtains a
seven-day presigned URL for it, and publishes one `VideoProcessingEvent` per
quality tier (FullHD, HD, SD) for the transcoders.

The model is a trace of effects. Every call the controller issues to a
collaborator is appended to a shared `EffectLog`:

- a content-exists or episode-exists request;
- a MinIO put, with its bucket, object name, bytes, declared size and content type;
- a presign request, with its bucket, object path and expiry;
- a publish, holding the event value as it was at that moment.

The collaborators' answers for one request form an `Env` value. It gives the
oracle's answer, or none if the request timed out or faulted. It says whether
the put throws. It gives the signed URL, or none if the SDK throws. It names
the quality tier whose publish throws, if any. An exception aborts the request
with no further calls; the endpoint then answers `Aborted`. The freshly
generated GUID text is a parameter.

Files:

- `messages.dfy` (module `Messages`): the DTO, the event, the error body,
  `Response`, `Effect`, and `Select`, which filters a trace by kind of call. It
  also holds the `EffectLog` class and the mutable `VideoProcessingEvent` class.
- `minio_service.dfy` (module `Storage`): `GetExtension`, `ObjectName`, the
  GUID text format, the expiry constant, and the `MinioService` class.
- `upload_controller.dfy` (module `Upload`): the specification functions
  `UploadTrace`, `TranscodeTrace` and `UploadResponse`; the `UploadController`
  and `PublishEndpoint` classes; the lemmas about the trace.

Every endpoint method (`UploadMovie`, `UploadSerial`, `UploadAnime`) is
proved to append exactly `UploadTrace(...)` to the log and to answer
`UploadResponse(env)`. `SendTranscodeTask` is proved to append exactly
`TranscodeTrace(...)` and to complete exactly when `TranscodeCompletes(env)`;
`PublishTiers` appends exactly the `Fanout(...)` of the event; each existence
check method appends its one check. The lemmas state what those functions
promise.

The controller publishes three processing events (FullHD, HD, SD). It
publishes no catalog-registration event at the top tier. Every endpoint answers a bare 200
and never returns the URL to the caller.

## Model

| member | source | states |
|---|---|---|
| Storage.ExtensionScan | Services/MinioService.cs:43 | Scanning the client's file name backwards, the extension is empty or a suffix of the name that starts with '.', is at least two characters long, and holds no further '.' and no '/'; it is empty only if the name ends in '.' or every '.' is followed later by a '/' |
| Storage.GetExtension | Services/MinioService.cs:43 | `Path.GetExtension`: either empty, or the '.'-led final run of the last path segment, a suffix of the name with no other '.' and no '/'; empty exactly when the name ends in '.' or has no '.' after its last '/' |
| Storage.ObjectName | Services/MinioService.cs:43 | Defines the object name as the caller's file name, then "/temp", then `GetExtension` of the client's file name |
| Storage.ObjectNameShape | Services/MinioService.cs:43 | The object name begins with the caller's file name followed by "/temp", and the rest is a '/'-free suffix of the client's file name (its extension): nothing else of the client's name enters the key |
| Storage.ObjectNameLayout | Services/MinioService.cs:43 | With a GUID as file name, the object name starts with the GUID and has exactly one '/', right after it: the client's file name cannot add a path segment |
| Storage.IsGuidText | Controllers/UploadController.cs:143 | Defines the text `Guid.NewGuid().ToString()` yields: 36 characters, lower-case hex digits in groups of 8-4-4-4-12 separated by '-' |
| Storage.ObjectNameInjective | Controllers/UploadController.cs:143-144 | Equal object names imply equal GUIDs and equal extensions, so two uploads with different GUIDs never share an object name, even for identical file names |
| Storage.TrailerExtension | Services/MinioService.cs:43 | The client file name "trailer.mp4" has the extension ".mp4", so it is stored under "<fileName>/temp.mp4" |
| Storage.MinioService.constructor | Services/MinioService.cs:28 | The service holds the configured content bucket |
| Storage.MinioService.UploadContent | Services/MinioService.cs:41-57 | Exactly one put is issued: into the content bucket, under `ObjectName(fileName, file.fileName)`, with the stream's bytes, the stream length as object size and the file's content type unchanged; it returns that same object name, or nothing when the put throws |
| Storage.MinioService.GetUrl | Services/MinioService.cs:62-72 | Exactly one presign request is issued, for the content bucket and exactly the given path, expiring after 604800 seconds (60*60*24*7); the URL is the SDK's reply |
| Messages.VideoProcessingEvent.constructor | Controllers/UploadController.cs:147-154 | The event object is initialised with the URL, data type, GUID file name, ContentId and IsEpisode; Quality is left unset |
| Upload.CheckFor | Controllers/UploadController.cs:53-58 | Defines the existence request of each endpoint: ContentExistEvent with the DTO's ContentId for movie, EpisodeExistEvent with EpisodeId = ContentId for serial, and for anime the one IsEpisode selects |
| Upload.BaseMessage | Controllers/UploadController.cs:147-154 | Defines the event the initialiser builds: the presigned URL, the endpoint's data type, the GUID as FileName, and the DTO's ContentId and IsEpisode |
| Upload.Fanout | Controllers/UploadController.cs:156-163 | Defines the publishes of the event once per tier, in the given order, each with Quality set to that tier, ending after the tier whose publish throws |
| Upload.TranscodeTrace | Controllers/UploadController.cs:141-164 | Defines the calls of SendTranscodeTaskAsync: the put under the GUID-derived name, then unless it throws the presign of that name for 604800 seconds, then unless that throws the fanout over FullHD, HD, SD |
| Upload.UploadTrace | Controllers/UploadController.cs:51-139 | Defines the calls of one request: the endpoint's existence check, then the transcode calls only when the oracle answers yes |
| Upload.UploadResponse | Controllers/UploadController.cs:58-65 | Defines the answer: abort when the check faults, 404 with ErrorDto("Content not found", "404") when the oracle answers no, otherwise 200 when the transcode step completes and abort when it throws |
| Upload.PublishEndpoint.Publish | Controllers/UploadController.cs:157 | One publish is issued, recording the event's value at that moment; it reports whether the publish threw |
| Upload.UploadController.constructor | Controllers/UploadController.cs:30-37 | The controller keeps its publish endpoint and MinIO service, both reporting to one log |
| Upload.UploadController.GetContentExistResponse | Controllers/UploadController.cs:53-58 | One content-exists request is issued with ContentId = the given id; the answer is the oracle's |
| Upload.UploadController.GetEpisodeExistResponse | Controllers/UploadController.cs:82-87 | One episode-exists request is issued with EpisodeId = the given id; the answer is the oracle's |
| Upload.UploadController.UploadMovie | Controllers/UploadController.cs:51-66 | The calls issued are exactly `UploadTrace(Movie, ...)` and the answer is `UploadResponse(env)` |
| Upload.UploadController.UploadSerial | Controllers/UploadController.cs:80-95 | The calls issued are exactly `UploadTrace(Serial, ...)` and the answer is `UploadResponse(env)` |
| Upload.UploadController.UploadAnime | Controllers/UploadController.cs:109-139 | The calls issued are exactly `UploadTrace(Anime, ...)` and the answer is `UploadResponse(env)` |
| Upload.UploadController.SendTranscodeTask | Controllers/UploadController.cs:141-164 | Storing, presigning and publishing one mutable event three times, with Quality overwritten before each publish, issues exactly `TranscodeTrace(...)`; it returns normally exactly when no call throws |
| Upload.UploadController.PublishTiers | Controllers/UploadController.cs:156-163 | Overwriting Quality with FullHD, HD and SD in turn and publishing after each write issues exactly the fanout of the event's earlier value, whatever its Quality was; it returns normally exactly when no publish throws, and leaves the event with its other fields unchanged and Quality at the last tier written |
| Upload.FanoutOfTiers | Controllers/UploadController.cs:156-163 | The fanout is the FullHD publish, then HD, then SD, each issued only when the previous publish returned |
| Upload.FanoutIgnoresQuality | Controllers/UploadController.cs:147-163 | The Quality the event object holds before the first write has no effect on what is published |
| Upload.FanoutByIndex | Controllers/UploadController.cs:156-163 | The i-th publish of the fanout carries Tiers[i]; the fanout has one publish when the FullHD publish throws, two when the HD publish throws, and three otherwise |
| Upload.SelectFanout | Controllers/UploadController.cs:156-163 | A fanout contains publishes only |
| Upload.TranscodeSelect | Controllers/UploadController.cs:141-164 | The transcode step issues one put, then one presign unless the put threw, then the tier publishes only when both returned, and no existence check |
| Upload.UploadSelect | Controllers/UploadController.cs:51-139 | A request's calls of each kind are its one existence check plus, only when the content exists, those of the transcode step |
| Upload.StoredObjects | Controllers/UploadController.cs:141-144 | A request issues one put, under the GUID-derived object name, exactly when the content exists, and no put otherwise |
| Upload.PresignedObjects | Controllers/UploadController.cs:144-145 | A request issues one presign of that same object name exactly when the put returned, and none otherwise |
| Upload.PublishedEvents | Controllers/UploadController.cs:141-163 | The events a request publishes are exactly the tier fanout of the base event, and none unless the object was stored and presigned |
| Upload.OracleDispatch | Controllers/UploadController.cs:51-134 | Movie asks the content oracle, serial the episode oracle, and anime the episode oracle exactly when IsEpisode is set (the content oracle otherwise), always with the DTO's ContentId |
| Upload.ExactlyOneCheck | Controllers/UploadController.cs:51-139 | Every request issues exactly one existence check, as its first call, against the oracle its endpoint dispatches to |
| Upload.NoSideEffectsUnlessExists | Controllers/UploadController.cs:58-61 | When the oracle does not confirm existence, the check is the only call: no put, no presign, no publish; a negative answer gives 404 with ErrorDto("Content not found", "404"), and a failed check aborts |
| Upload.SinglePersist | Controllers/UploadController.cs:141-145 | A request issues one put exactly when the content exists, and one presign exactly when that put returned; the presign is for the same bucket and the object name the put wrote, for 604800 seconds |
| Upload.OrderedFanout | Controllers/UploadController.cs:147-163 | The published events are FullHD, HD and SD in that order, cut after a publish that throws. Each carries the presigned URL, the endpoint's data type, the GUID as FileName (not the client's file name), and the DTO's ContentId and IsEpisode, even for movie and serial. Nothing is published unless the put and presign returned |
| Upload.FanoutMessagesAgree | Controllers/UploadController.cs:147-163 | Any two events published by one request are equal except for Quality, and no quality is published twice |
| Upload.OkExactlyWhenAllReturn | Controllers/UploadController.cs:51-164 | The answer is 200 exactly when the oracle confirms the content and no later call throws, and 404 exactly when the oracle answers no |
| Upload.SuccessfulUpload | Controllers/UploadController.cs:136-164 | A request that completes issues exactly six calls: the check, the put, the presign of the put's object name for 604800 seconds, and the FullHD, HD and SD publishes, the SD publish last |
| Upload.FaultsAbortWithoutUndo | Controllers/UploadController.cs:141-164 | After a confirmed check, a throwing put or presign means nothing is published. A throwing publish leaves the stored object and the earlier tiers in place, and its own tier is the last publish issued. Either way the request aborts |
| Upload.MovieUploadScenario | Controllers/UploadController.cs:51-66 | Movie "m1" with file "trailer.mp4", confirmed by the oracle: one content check, one put and one presign of "<guid>/temp.mp4", three publishes, then 200 |

## Left out

- MassTransit request/reply transport, timeouts, broker failures and the `CancellationToken`: the oracle's reply is an input, and a fault is an abort with no further calls.
- Mapping an escaping exception to an HTTP 500 belongs to ASP.NET. The model answers `Aborted`.
- MinIO SDK behaviour: the network put, URL signing and `ConfigureAwait`. The signed URL is an opaque string from the environment.
- MinioService configuration reading and client construction: the content bucket is a constructor parameter.
- `Guid.NewGuid()`: the GUID text is a parameter. Its uniqueness across requests is a library guarantee and is not modelled. `IsGuidText` states only its format.
- Storage.GetExtension: models `Path.GetExtension` with '/' as the only directory separator, as on Unix. Windows separators ('\\', ':') and a null file name are not modelled. With those separators the scan can only stop earlier, so the extension is still a '/'-free suffix of the name. The lemmas that use what this function returns are `ObjectNameShape`, `ObjectNameLayout` and `ObjectNameInjective` (its suffix and no-'/' guarantees) and `TrailerExtension` with `MovieUploadScenario` (its value on "trailer.mp4"); the other orchestration lemmas hold whatever it returns.
- Serilog logging, Swagger and routing attributes, and the disabled request-size limits.
- Concurrency between requests and async scheduling: each request runs sequentially, and no state is shared beyond the log.
- Whether MassTransit serialises the mutated event at publish time: each publish records the event's value when the call is made.
- `AnimeAddContentEvent` and `SerialAddContentEvent` (catalog-registration events): the controller never publishes them, so there is no catalog-add variant.
- Stream contents are modelled as a byte sequence read once. Its length is the declared object size.
- Model binding and validation by `[ApiController]` (Controllers/UploadController.cs:17) with the `[Required]` ContentId and File of Dtos/UploadContentDto.cs:13-25: a request with a missing or empty ContentId or a missing File is answered 400 before the action runs. Only requests that pass this validation are modelled; the model itself accepts an empty ContentId.
