/**
 * The transcribe route: request validation, the video id, normalisation of
 * the transcript provider's reply and the response shape chosen by
 * `format` / `includeTimestamp`.  The provider call itself is not
 * modelled; its outcome is an input.  Falsy strings ("" ) stand for absent
 * fields, as the route's `||` chains treat them.
 */
module Transcribe {
  import opened Wrappers
  import opened Strings
  import opened YouTubeUrl

  /** The request body; `None` fields take the destructuring defaults. */
  datatype Body = Body(url: string, format: Option<string>, includeTimestamp: Option<bool>, sendMetadata: Option<bool>)

  /** One element of the provider's transcript array. */
  datatype Item = Item(text: string, transcript: string, start: Option<real>, startTime: Option<real>,
                       time: Option<real>, duration: Option<real>, durationMs: Option<real>)

  /** `data.transcript` as the provider sends it; `Absent` covers every falsy value. */
  datatype UpTranscript = Absent | Items(items: seq<Item>) | Str(s: string) | Obj(text: string)

  datatype UpMeta = UpMeta(title: string, authorName: string, authorUrl: string, thumbnailUrl: string)

  datatype Data = Data(transcript: UpTranscript, metadata: Option<UpMeta>, title: string, author: string,
                       channel: string, channelUrl: string, thumbnail: string, language: string, lang: string)

  /** A parsed JSON error body of a failed provider call. */
  datatype ErrorJson = ErrorJson(error: string, message: string, code: Option<string>)

  /** The provider call: it threw, answered non-OK, or answered OK with a body (`None`: not JSON). */
  datatype Upstream = Threw | NotOk(status: int, errorText: string, parsed: Option<ErrorJson>) | Ok(data: Option<Data>)

  /** A normalised segment. */
  datatype Seg = Seg(text: string, start: Option<real>, duration: Option<real>)

  /** The route's local `transcript`: null, an array of segments or a string. */
  datatype Norm = Null | Segs(segs: seq<Seg>) | Plain(s: string)

  datatype Meta = Meta(title: string, authorName: string, authorUrl: string, thumbnailUrl: string)

  /** The `transcript` field of a success: the array, a string, or `JSON.stringify` of the array or of null. */
  datatype Out = SegmentsOut(segs: seq<Seg>) | TextOut(s: string) | StringifiedSegments(segs: seq<Seg>) | StringifiedNull

  datatype Response =
    | UrlRequired
    | InvalidUrl
    | KeyMissing
    | UpstreamError(status: int, error: string, code: Option<string>)
    | Success(transcript: Out, videoId: string, language: string, metadata: Option<Meta>)
    | ServerError

  function StatusCode(r: Response): int
  {
    match r
    case UrlRequired => 400
    case InvalidUrl => 400
    case KeyMissing => 500
    case UpstreamError(status, _, _) => status
    case Success(_, _, _, _) => 200
    case ServerError => 500
  }

  /** `a || b` on strings. */
  function Or(a: string, b: string): string
  {
    if a != "" then a else b
  }

  /** `a || b` on optional numbers: zero is falsy too. */
  function OrNum(a: Option<real>, b: Option<real>): Option<real>
  {
    if a.Some? && a.value != 0.0 then a else if b.Some? && b.value != 0.0 then b else None
  }

  /** The per-item `map` of the array case. */
  function NormalizeItem(item: Item): (r: Seg)
    ensures r.text != "" <==> item.text != "" || item.transcript != ""
    ensures item.start.Some? ==> r.start == item.start
    ensures item.duration.Some? ==> r.duration == item.duration
  {
    Seg(Or(item.text, item.transcript),
        if item.start.Some? then item.start else OrNum(item.startTime, item.time),
        if item.duration.Some? then item.duration
        else if item.durationMs.Some? && item.durationMs.value != 0.0 then Some(item.durationMs.value / 1000.0)
        else None)
  }

  function NormalizeItems(items: seq<Item>): (r: seq<Seg>)
    ensures |r| == |items|
    ensures forall k :: 0 <= k < |r| ==> r[k] == NormalizeItem(items[k])
  {
    seq(|items|, k requires 0 <= k < |items| => NormalizeItem(items[k]))
  }

  /** The "handle different response formats" block. */
  function Normalize(t: UpTranscript): Norm
  {
    match t
    case Absent => Null
    case Items(items) => Segs(NormalizeItems(items))
    case Str(s) => if s != "" then Plain(s) else Null
    case Obj(text) => if text != "" then Plain(text) else Null
  }

  function Thumbnail(videoId: string): string
  {
    "https://img.youtube.com/vi/" + videoId + "/maxresdefault.jpg"
  }

  /** The `metadata` field of a success. */
  function Metadata(sendMetadata: bool, data: Data, videoId: string): Option<Meta>
  {
    if sendMetadata && data.metadata.Some? then
      var m := data.metadata.value;
      Some(Meta(Or(m.title, data.title), Or(m.authorName, Or(data.author, data.channel)),
                Or(m.authorUrl, data.channelUrl), Or(m.thumbnailUrl, Or(data.thumbnail, Thumbnail(videoId)))))
    else None
  }

  function SegTexts(segs: seq<Seg>): (r: seq<string>)
    ensures |r| == |segs|
    ensures forall k :: 0 <= k < |r| ==> r[k] == segs[k].text
  {
    seq(|segs|, k requires 0 <= k < |segs| => segs[k].text)
  }

  /** The final `if`/`else if`/`else` choosing the transcript's shape. */
  function Shape(format: string, includeTimestamp: bool, t: Norm): Out
  {
    if format == "json" && includeTimestamp && t.Segs? then SegmentsOut(t.segs)
    else if format == "json" && !includeTimestamp && t.Segs? then TextOut(Join(SegTexts(t.segs), " "))
    else match t
      case Plain(s) => TextOut(s)
      case Segs(segs) => StringifiedSegments(segs)
      case Null => StringifiedNull
  }

  /** The error message of a non-OK provider reply. */
  function UpstreamMessage(errorText: string, parsed: Option<ErrorJson>): (r: string)
    ensures r != ""
  {
    match parsed
    case None => Or(errorText, "Failed to fetch transcript")
    case Some(e) => Or(e.error, Or(e.message, "Failed to fetch transcript"))
  }

  /**
   * `POST /api/transcribe`.  `body` is `None` when the request is not JSON,
   * `parsed` is what `new URL(url)` gives, `apiKey` the configured key.
   */
  function Transcribe(body: Option<Body>, parsed: Option<Url>, apiKey: string, upstream: Upstream): Response
  {
    if body.None? then ServerError
    else
      var b := body.value;
      if b.url == "" then UrlRequired
      else
        var videoId := ExtractVideoId(parsed);
        if videoId.None? then InvalidUrl
        else if apiKey == "" then KeyMissing
        else match upstream
          case Threw => ServerError
          case NotOk(status, errorText, p) =>
            UpstreamError(status, UpstreamMessage(errorText, p), if p.Some? then p.value.code else None)
          case Ok(data) =>
            if data.None? then ServerError
            else
              var d := data.value;
              var send := b.sendMetadata.GetOr(false);
              Success(Shape(b.format.GetOr("json"), b.includeTimestamp.GetOr(true), Normalize(d.transcript)),
                      videoId.value, Or(d.language, Or(d.lang, "")),
                      if send then Metadata(send, d, videoId.value) else None)
  }

  // ------------------------------------------------------------ properties

  /** Validation order: the url, then the video id, then the key. */
  lemma ValidationOrder(body: Body, parsed: Option<Url>, apiKey: string, upstream: Upstream)
    ensures var r := Transcribe(Some(body), parsed, apiKey, upstream);
      (r == UrlRequired <==> body.url == "")
      && (r == InvalidUrl <==> body.url != "" && ExtractVideoId(parsed).None?)
      && (r == KeyMissing <==> body.url != "" && ExtractVideoId(parsed).Some? && apiKey == "")
  {
  }

  /** A success carries the same id the result page extracts, and needed a url and a key. */
  lemma SuccessUsesSharedExtraction(body: Option<Body>, parsed: Option<Url>, apiKey: string, upstream: Upstream)
    requires Transcribe(body, parsed, apiKey, upstream).Success?
    ensures body.Some? && body.value.url != "" && apiKey != "" && upstream.Ok?
    ensures Some(Transcribe(body, parsed, apiKey, upstream).videoId) == ExtractVideoId(parsed)
  {
  }

  /** With every option left out, an array reply comes back as the segment array, without metadata. */
  lemma DefaultsGiveSegments(url: string, parsed: Option<Url>, apiKey: string, d: Data)
    requires url != "" && ExtractVideoId(parsed).Some? && apiKey != "" && d.transcript.Items?
    ensures var r := Transcribe(Some(Body(url, None, None, None)), parsed, apiKey, Ok(Some(d)));
      r.Success? && r.transcript == SegmentsOut(NormalizeItems(d.transcript.items)) && r.metadata.None?
  {
  }

  /**
   * Normalisation keeps the array's length and order; a numeric `start` or
   * `duration` is kept as it is.
   */
  lemma NormalizeKeepsItems(items: seq<Item>)
    ensures Normalize(Items(items)).Segs?
    ensures var segs := Normalize(Items(items)).segs;
      |segs| == |items|
      && (forall k :: 0 <= k < |items| && items[k].start.Some? ==> segs[k].start == items[k].start)
      && (forall k :: 0 <= k < |items| ==> segs[k].text == Or(items[k].text, items[k].transcript))
  {
  }

  /** The three response shapes. */
  lemma ShapeCases(format: string, includeTimestamp: bool, t: Norm)
    ensures format == "json" && includeTimestamp && t.Segs? ==> Shape(format, includeTimestamp, t) == SegmentsOut(t.segs)
    ensures format == "json" && !includeTimestamp && t.Segs? ==> Shape(format, includeTimestamp, t).TextOut?
    ensures format == "json" && !includeTimestamp && t.Segs? && |t.segs| > 0
            && (forall k :: 0 <= k < |t.segs| ==> ' ' !in t.segs[k].text) ==>
      Split(Shape(format, includeTimestamp, t).s, ' ') == SegTexts(t.segs)
    ensures t.Plain? ==> Shape(format, includeTimestamp, t) == TextOut(t.s)
    ensures !(format == "json" && t.Segs?) ==> !Shape(format, includeTimestamp, t).SegmentsOut?
  {
    if format == "json" && !includeTimestamp && t.Segs? && |t.segs| > 0
       && forall k :: 0 <= k < |t.segs| ==> ' ' !in t.segs[k].text {
      SplitJoin(SegTexts(t.segs), ' ');
    }
  }

  /**
   * Metadata appears exactly when requested and sent by the provider, and
   * its thumbnail is never empty: it falls back to the video's image URL.
   */
  lemma MetadataOnlyWhenAsked(body: Body, parsed: Option<Url>, apiKey: string, d: Data)
    requires Transcribe(Some(body), parsed, apiKey, Ok(Some(d))).Success?
    ensures var r := Transcribe(Some(body), parsed, apiKey, Ok(Some(d)));
      (r.metadata.Some? <==> body.sendMetadata == Some(true) && d.metadata.Some?)
      && (r.metadata.Some? ==> r.metadata.value.thumbnailUrl != "")
      && (r.metadata.Some? && d.metadata.value.thumbnailUrl == "" && d.thumbnail == "" ==>
            r.metadata.value.thumbnailUrl == Thumbnail(r.videoId))
  {
  }

  /** A failed provider call is passed through with its own status code. */
  lemma UpstreamStatusPassedThrough(body: Body, parsed: Option<Url>, apiKey: string, status: int, text: string, p: Option<ErrorJson>)
    requires body.url != "" && ExtractVideoId(parsed).Some? && apiKey != ""
    ensures var r := Transcribe(Some(body), parsed, apiKey, NotOk(status, text, p));
      r.UpstreamError? && StatusCode(r) == status && r.error != ""
  {
  }
}
