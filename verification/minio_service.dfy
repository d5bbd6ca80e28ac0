/** The object-store side of an upload (MinioService): how the object name
    is formed, what a put declares, and what a presigned-URL request asks for. */
module Storage {
  import opened Messages

  /** Lifetime of a presigned download URL: seven days, in seconds. */
  const UrlExpirySeconds: nat := 60 * 60 * 24 * 7

  /** No '.' and no '/' among path[i..]: the part already scanned. */
  ghost predicate NoDotOrSeparatorFrom(path: string, i: nat)
  {
    forall k :: i <= k < |path| ==> path[k] != '.' && path[k] != '/'
  }

  /** Path.GetExtension scanning path[..i] backwards: the first '.' found
      starts the extension unless it is the last character; a '/' found
      first means there is none. */
  function ExtensionScan(path: string, i: nat): (r: string)
    requires i <= |path|
    requires NoDotOrSeparatorFrom(path, i)
    ensures r == "" || (2 <= |r| <= |path| && r[0] == '.' && r == path[|path| - |r|..])
    ensures forall k :: 1 <= k < |r| ==> r[k] != '.' && r[k] != '/'
    ensures r == "" ==>
      (0 < |path| && path[|path| - 1] == '.') ||
      forall k :: 0 <= k < i && path[k] == '.' ==> '/' in path[k + 1..]
    decreases i
  {
    if i == 0 then ""
    else if path[i - 1] == '.' then
      (if i != |path| then path[i - 1..] else "")
    else if path[i - 1] == '/' then
      ""
    else
      ExtensionScan(path, i - 1)
  }

  /** Path.GetExtension with '/' as the only directory separator: either
      empty, or the final '.'-led run of the last path segment, which is a
      suffix of the name holding neither another '.' nor a '/'. It is empty
      exactly when the name ends in '.' or no '.' follows the last '/'. */
  function GetExtension(path: string): (ext: string)
    ensures ext == "" || (2 <= |ext| <= |path| && ext[0] == '.' && ext == path[|path| - |ext|..])
    ensures forall k :: 1 <= k < |ext| ==> ext[k] != '.' && ext[k] != '/'
    ensures ext == "" ==>
      (0 < |path| && path[|path| - 1] == '.') ||
      forall k :: 0 <= k < |path| && path[k] == '.' ==> '/' in path[k + 1..]
  {
    ExtensionScan(path, |path|)
  }

  /** The object name an upload is stored under: the caller's file name
      (a GUID), then "/temp", then the extension of the client's file name. */
  function ObjectName(fileName: string, clientFileName: string): string
  {
    fileName + "/temp" + GetExtension(clientFileName)
  }

  /** Only a '/'-free suffix of the client's file name, its extension, enters
      the object name; the rest is the caller's file name and "/temp". */
  lemma ObjectNameShape(fileName: string, clientFileName: string)
    ensures var key := ObjectName(fileName, clientFileName);
      |fileName| + 5 <= |key| <= |fileName| + 5 + |clientFileName| &&
      key[..|fileName|] == fileName && key[|fileName|..|fileName| + 5] == "/temp" &&
      '/' !in key[|fileName| + 5..] &&
      key[|fileName| + 5..] == clientFileName[|clientFileName| - (|key| - |fileName| - 5)..]
  {
    var ext := GetExtension(clientFileName);
    var key := fileName + "/temp" + ext;
    assert key[|fileName| + 5..] == ext;
    assert forall k :: 0 <= k < |ext| ==> ext[k] != '/';
  }

  predicate IsLowerHexDigit(c: char)
  {
    '0' <= c <= '9' || 'a' <= c <= 'f'
  }

  /** The text of Guid.ToString(): 32 lower-case hex digits in groups of
      8-4-4-4-12 joined by '-'. */
  predicate IsGuidText(s: string)
  {
    |s| == 36 &&
    forall k :: 0 <= k < 36 ==>
      if k == 8 || k == 13 || k == 18 || k == 23 then s[k] == '-' else IsLowerHexDigit(s[k])
  }

  /** With a GUID as file name, the object name has exactly one '/', right
      after the GUID: nothing taken from the client's file name can add a
      path segment. */
  lemma ObjectNameLayout(guid: string, clientFileName: string)
    requires IsGuidText(guid)
    ensures var key := ObjectName(guid, clientFileName);
      key[..36] == guid && key[36] == '/' &&
      forall k :: 0 <= k < |key| && key[k] == '/' ==> k == 36
  {
    ObjectNameShape(guid, clientFileName);
  }

  /** Distinct GUIDs give distinct object names, whatever the client's file
      names; equal object names mean equal GUIDs and equal extensions. */
  lemma ObjectNameInjective(guid1: string, name1: string, guid2: string, name2: string)
    requires IsGuidText(guid1) && IsGuidText(guid2)
    requires ObjectName(guid1, name1) == ObjectName(guid2, name2)
    ensures guid1 == guid2 && GetExtension(name1) == GetExtension(name2)
  {
    var key := ObjectName(guid1, name1);
    assert guid1 == key[..36] == guid2;
    assert key == guid1 + "/temp" + GetExtension(name1);
    assert key[41..] == GetExtension(name1);
    assert key == guid2 + "/temp" + GetExtension(name2);
    assert key[41..] == GetExtension(name2);
  }

  /** "trailer.mp4" has the extension ".mp4". */
  lemma TrailerExtension()
    ensures GetExtension("trailer.mp4") == ".mp4"
  {
    var path := "trailer.mp4";
    assert path[7] == '.' && path[8] == 'm' && path[9] == 'p' && path[10] == '4';
    assert path[7..] == ".mp4";
    assert ExtensionScan(path, 8) == ".mp4";
    assert ExtensionScan(path, 11) == ExtensionScan(path, 8);
  }

  /** The object-store wrapper; its calls are recorded in the shared log. */
  class MinioService {
    /** The configured MinIO:ContentBucket. */
    const contentBucket: string
    const log: EffectLog

    constructor (contentBucket: string, log: EffectLog)
      ensures this.contentBucket == contentBucket && this.log == log
    {
      this.contentBucket := contentBucket;
      this.log := log;
    }

    /** UploadContentAsync: one put into the content bucket under
        ObjectName(fileName, file.fileName), declaring the stream's length as
        the object size and passing the content type through. Returns the
        object name written, or None when the put throws. */
    method UploadContent(file: FormFile, fileName: string, putFaults: bool) returns (path: Option<string>)
      modifies log
      ensures log.effects == old(log.effects) +
        [Put(contentBucket, ObjectName(fileName, file.fileName), file.content, |file.content|, file.contentType)]
      ensures path == if putFaults then None else Some(ObjectName(fileName, file.fileName))
    {
      var objectName := ObjectName(fileName, file.fileName);
      var stream := file.content;
      log.effects := log.effects + [Put(contentBucket, objectName, stream, |stream|, file.contentType)];
      if putFaults {
        return None;
      }
      return Some(objectName);
    }

    /** GetUrlAsync: one presign request for exactly objectPath in the
        content bucket, valid for 604800 seconds (seven days). The signed URL
        is the SDK's reply, None when the SDK throws. */
    method GetUrl(objectPath: string, reply: Option<string>) returns (url: Option<string>)
      modifies log
      ensures log.effects == old(log.effects) + [Presign(contentBucket, objectPath, 604800)]
      ensures url == reply
    {
      log.effects := log.effects + [Presign(contentBucket, objectPath, UrlExpirySeconds)];
      url := reply;
    }
  }
}
