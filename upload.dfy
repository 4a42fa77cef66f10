/**
 * The upload route: file presence, type and size checks, the stored file
 * name and the URLs returned.  Writing the file and the optional
 * transcription call are effects whose outcomes are inputs.
 */
module Upload {
  import opened Wrappers
  import opened Strings

  /** The largest accepted size: 100 MiB. */
  const MaxSize: nat := 100 * 1024 * 1024

  const DefaultAppUrl := "http://localhost:3000"

  datatype File = File(name: string, mimeType: string, size: nat)

  /** What the transcription service answered. */
  datatype TranscriptInfo = TranscriptInfo(id: string, status: string, text: Option<string>)

  datatype Response =
    | NoFile
    | InvalidType
    | TooLarge
    | ServerError
    | Uploaded(filename: string, originalName: string, size: nat, mimeType: string, url: string, fullUrl: string,
               transcript: Option<TranscriptInfo>)

  function StatusCode(r: Response): int
  {
    match r
    case NoFile => 400
    case InvalidType => 400
    case TooLarge => 400
    case ServerError => 500
    case Uploaded(_, _, _, _, _, _, _) => 200
  }

  /** `allowedTypes.some((type) => file.type.startsWith(type))`. */
  predicate AllowedType(t: string)
  {
    "audio/" <= t || "video/" <= t || "application/octet-stream" <= t
  }

  /** The class `[a-zA-Z0-9.-]`. */
  predicate SafeChar(c: char)
  {
    'a' <= c <= 'z' || 'A' <= c <= 'Z' || '0' <= c <= '9' || c == '.' || c == '-'
  }

  /** `name.replace(/[^a-zA-Z0-9.-]/g, "_")`. */
  function Sanitize(name: string): (r: string)
    ensures |r| == |name|
    ensures forall i :: 0 <= i < |r| ==> (SafeChar(name[i]) ==> r[i] == name[i]) && (!SafeChar(name[i]) ==> r[i] == '_')
  {
    seq(|name|, i requires 0 <= i < |name| => if SafeChar(name[i]) then name[i] else '_')
  }

  /** `${timestamp}_${sanitizedName}`. */
  function StoredName(now: nat, name: string): string
  {
    NatToString(now) + "_" + Sanitize(name)
  }

  /**
   * `POST /api/upload`.  `form` is `None` when the form cannot be read and
   * holds `None` when there is no file; `writeFailed` says the file could
   * not be written; `transcription` is the service's answer (`None` when
   * it failed).
   */
  function UploadFile(form: Option<Option<File>>, transcribe: bool, now: nat, appUrl: string, assemblyKey: string,
                      writeFailed: bool, transcription: Option<TranscriptInfo>): Response
  {
    if form.None? then ServerError
    else if form.value.None? then NoFile
    else
      var f := form.value.value;
      if !AllowedType(f.mimeType) then InvalidType
      else if f.size > MaxSize then TooLarge
      else if writeFailed then ServerError
      else
        var filename := StoredName(now, f.name);
        var base := if appUrl != "" then appUrl else DefaultAppUrl;
        Uploaded(filename, f.name, f.size, f.mimeType, "/uploads/" + filename, base + "/uploads/" + filename,
                 if transcribe && assemblyKey != "" then transcription else None)
  }

  // ------------------------------------------------------------ properties

  /** Sanitising twice changes nothing more. */
  lemma SanitizeIdempotent(name: string)
    ensures Sanitize(Sanitize(name)) == Sanitize(name)
  {
    var once := Sanitize(name);
    forall i | 0 <= i < |once|
      ensures SafeChar(once[i]) || once[i] == '_'
    {
    }
  }

  /** The size limit is inclusive: exactly 100 MiB is stored, one byte more is refused. */
  lemma SizeLimitInclusive(name: string, mimeType: string, now: nat, appUrl: string, key: string, t: Option<TranscriptInfo>)
    requires AllowedType(mimeType)
    ensures UploadFile(Some(Some(File(name, mimeType, MaxSize))), false, now, appUrl, key, false, t).Uploaded?
    ensures UploadFile(Some(Some(File(name, mimeType, MaxSize + 1))), false, now, appUrl, key, false, t) == TooLarge
  {
  }

  /** Checks run in order: presence, type, size. */
  lemma ValidationOrder(f: File, transcribe: bool, now: nat, appUrl: string, key: string, w: bool, t: Option<TranscriptInfo>)
    ensures UploadFile(Some(None), transcribe, now, appUrl, key, w, t) == NoFile
    ensures !AllowedType(f.mimeType) ==> UploadFile(Some(Some(f)), transcribe, now, appUrl, key, w, t) == InvalidType
    ensures AllowedType(f.mimeType) && f.size > MaxSize ==> UploadFile(Some(Some(f)), transcribe, now, appUrl, key, w, t) == TooLarge
  {
  }

  /** The stored name holds no "/", whatever the uploaded name. */
  lemma StoredNameHasNoSlash(now: nat, name: string)
    ensures '/' !in StoredName(now, name)
  {
    var d := NatToString(now);
    var s := Sanitize(name);
    var x := StoredName(now, name);
    forall i | 0 <= i < |x|
      ensures x[i] != '/'
    {
      if i < |d| {
        assert x[i] == d[i];
        assert IsDigit(d[i]);
      } else if i > |d| {
        assert x[i] == s[i - |d| - 1];
      }
    }
  }

  /** The timestamp is the text before the first "_" of the stored name. */
  lemma StoredNameTimestamp(now: nat, name: string)
    ensures FirstField(StoredName(now, name), '_') == NatToString(now)
  {
    var d := NatToString(now);
    var x := StoredName(now, name);
    var f := FirstField(x, '_');
    assert '_' !in d by {
      forall i | 0 <= i < |d| ensures d[i] != '_' { assert IsDigit(d[i]); }
    }
    assert x[..|d|] == d;
    assert x[|d|] == '_';
    assert |f| == |d|;
  }

  /**
   * A stored upload is named "<timestamp>_<sanitised name>": the name
   * cannot leave the uploads directory (it holds no "/"), the timestamp is
   * the text before the first "_", and the relative URL is
   * "/uploads/<name>", the tail of the full URL.
   */
  lemma StoredNameIsSafe(form: Option<Option<File>>, transcribe: bool, now: nat, appUrl: string, key: string,
                         w: bool, t: Option<TranscriptInfo>)
    requires UploadFile(form, transcribe, now, appUrl, key, w, t).Uploaded?
    ensures var r := UploadFile(form, transcribe, now, appUrl, key, w, t);
      '/' !in r.filename && r.url == "/uploads/" + r.filename
      && FirstField(r.filename, '_') == NatToString(now)
      && r.filename == StoredName(now, form.value.value.name)
      && EndsWith(r.fullUrl, r.url)
  {
    var r := UploadFile(form, transcribe, now, appUrl, key, w, t);
    var name := StoredName(now, form.value.value.name);
    var url := "/uploads/" + name;
    var base := if appUrl != "" then appUrl else DefaultAppUrl;
    assert r.filename == name && r.url == url;
    assert r.fullUrl == base + url;
    StoredNameHasNoSlash(now, form.value.value.name);
    StoredNameTimestamp(now, form.value.value.name);
    assert (base + url)[|base + url| - |url|..] == url;
  }

  /** A failed or skipped transcription never fails the upload. */
  lemma TranscriptionFailureKeepsUpload(f: File, now: nat, appUrl: string, key: string)
    requires AllowedType(f.mimeType) && f.size <= MaxSize
    ensures var r := UploadFile(Some(Some(f)), true, now, appUrl, key, false, None);
      r.Uploaded? && r.transcript.None? && StatusCode(r) == 200
  {
  }
}
