/**
 * The translate route: target-language and segment validation, and the
 * realignment of the model's reply onto the input segments.  The language
 * model call is not modelled; its parsed reply is an input.  The route has
 * no database state, so it cannot read or change credits.
 */
module Translate {
  import opened Wrappers
  import opened Strings

  /** The language codes the route accepts. */
  const Supported: set<string> := {"EN", "ES", "FR", "DE", "IT", "PT", "TR", "AR", "HI", "UR", "RU", "JA", "KO", "ZH"}

  /** An input segment; `text` is `None` when null or missing. */
  datatype Segment = Segment(text: Option<string>, start: Option<real>, duration: Option<real>)

  /** An output segment. */
  datatype OutSegment = OutSegment(text: string, start: Option<real>, duration: Option<real>)

  /** The request body; `targetLang` is `String(body.targetLang || "")`, `segments` is `None` when not an array. */
  datatype Body = Body(targetLang: string, segments: Option<seq<Segment>>)

  /**
   * The model call: `fetch` or reading the reply threw, the reply was not
   * OK, its reply had no string content, or the content parsed to
   * something; `Array` items are `None` for null/undefined and otherwise
   * the item's `String` form.
   */
  datatype Reply = Threw | HttpError | NoContent | NotArray | Array(items: seq<Option<string>>)

  /** `ServerError` is the framework's answer to the rejection the route does not catch. */
  datatype Response =
    | NotConfigured
    | InvalidInput(message: string)
    | UpstreamError(message: string)
    | ServerError
    | Translated(segments: seq<OutSegment>)

  function StatusCode(r: Response): int
  {
    match r
    case NotConfigured => 501
    case InvalidInput(_) => 400
    case UpstreamError(_) => 502
    case ServerError => 500
    case Translated(_) => 200
  }

  /** `String(targetLang).toUpperCase().trim()`. */
  function TargetLang(raw: string): string
  {
    Trim(Upper(raw))
  }

  /** The per-index rebuild: timing copied, text from the reply. */
  function Realign(segments: seq<Segment>, translated: seq<Option<string>>): (r: seq<OutSegment>)
    requires |translated| == |segments|
  {
    seq(|segments|, k requires 0 <= k < |segments| =>
      OutSegment(translated[k].GetOr(""), segments[k].start, segments[k].duration))
  }

  /** `POST /api/translate`; `body` is `None` when the request is not JSON. */
  function Translate(apiKey: string, body: Option<Body>, reply: Reply): Response
  {
    if apiKey == "" then NotConfigured
    else if body.None? then InvalidInput("Expected JSON body.")
    else TranslateBody(body.value, reply)
  }

  /** The route once the key is configured and the body parsed: language, then segments, then the reply. */
  function TranslateBody(b: Body, reply: Reply): (r: Response)
    ensures !r.NotConfigured?
  {
    var target := TargetLang(b.targetLang);
    if target == "" || target !in Supported then InvalidInput("Unsupported target language.")
    else if b.segments.None? || |b.segments.value| == 0 then InvalidInput("Missing segments.")
    else
      var segments := b.segments.value;
      match reply
      case Threw => ServerError
      case HttpError => UpstreamError("Translation request failed.")
      case NoContent => UpstreamError("Invalid translation response.")
      case NotArray => UpstreamError("Translation output shape mismatch.")
      case Array(items) =>
        if |items| != |segments| then UpstreamError("Translation output shape mismatch.")
        else Translated(Realign(segments, items))
  }

  // ------------------------------------------------------------ properties

  /**
   * A translation has the input's length and order: every output segment
   * keeps its input's start and duration and carries the reply's text at
   * the same index ("" for null).
   */
  lemma RealignKeepsTiming(segments: seq<Segment>, translated: seq<Option<string>>)
    requires |translated| == |segments|
    ensures var r := Realign(segments, translated);
      |r| == |segments|
      && forall k :: 0 <= k < |r| ==>
           r[k].start == segments[k].start && r[k].duration == segments[k].duration
           && (translated[k].Some? ==> r[k].text == translated[k].value)
           && (translated[k].None? ==> r[k].text == "")
  {
  }

  /** A reply whose length differs from the input is refused with 502 and never realigned. */
  lemma ShapeMismatchRefused(apiKey: string, body: Body, items: seq<Option<string>>)
    requires apiKey != "" && TargetLang(body.targetLang) in Supported
    requires body.segments.Some? && |body.segments.value| > 0 && |items| != |body.segments.value|
    ensures var r := Translate(apiKey, Some(body), Array(items));
      r.UpstreamError? && StatusCode(r) == 502
  {
    SupportedNonEmpty(TargetLang(body.targetLang));
  }

  /** Every supported language code is a non-empty string. */
  lemma SupportedNonEmpty(t: string)
    requires t in Supported
    ensures |t| == 2
  {
  }

  /** A translated response only comes from a configured key, a supported language and a non-empty segment array of the reply's length. */
  lemma TranslatedRequires(apiKey: string, body: Option<Body>, reply: Reply)
    requires Translate(apiKey, body, reply).Translated?
    ensures apiKey != "" && body.Some? && TargetLang(body.value.targetLang) in Supported
    ensures body.value.segments.Some? && |body.value.segments.value| > 0
    ensures reply.Array? && |reply.items| == |body.value.segments.value|
    ensures |Translate(apiKey, body, reply).segments| == |body.value.segments.value|
  {
  }

  /** The checks run in order: key, JSON body, language, segments. */
  lemma ValidationOrder(apiKey: string, body: Option<Body>, reply: Reply)
    ensures Translate(apiKey, body, reply) == NotConfigured <==> apiKey == ""
    ensures apiKey != "" && body.None? ==> Translate(apiKey, body, reply) == InvalidInput("Expected JSON body.")
  {
  }

  /**
   * A call that throws is not caught by the route: the answer is 500, and
   * it is the only way to a 500.
   */
  lemma ThrownCallIsServerError(apiKey: string, body: Option<Body>, reply: Reply)
    ensures Translate(apiKey, body, reply) == ServerError <==>
      apiKey != "" && body.Some? && TargetLang(body.value.targetLang) in Supported
      && body.value.segments.Some? && |body.value.segments.value| > 0 && reply == Threw
    ensures StatusCode(ServerError) == 500
  {
    if apiKey != "" && body.Some? {
      var b := body.value;
      var target := TargetLang(b.targetLang);
      assert Translate(apiKey, body, reply) == TranslateBody(b, reply);
      if target in Supported {
        SupportedNonEmpty(target);
        if b.segments.Some? && |b.segments.value| > 0 {
          assert reply.Threw? ==> TranslateBody(b, reply) == ServerError;
          assert !reply.Threw? ==> !TranslateBody(b, reply).ServerError?;
        }
      }
    }
  }

  lemma UnsupportedLanguageRefused(apiKey: string, body: Body, reply: Reply)
    requires apiKey != "" && TargetLang(body.targetLang) !in Supported
    ensures Translate(apiKey, Some(body), reply) == InvalidInput("Unsupported target language.")
  {
  }

  lemma MissingSegmentsRefused(apiKey: string, body: Body, reply: Reply)
    requires apiKey != "" && TargetLang(body.targetLang) in Supported
    requires body.segments.None? || body.segments == Some([])
    ensures Translate(apiKey, Some(body), reply) == InvalidInput("Missing segments.")
  {
  }

  /** The language code is matched without regard to ASCII letter case. */
  lemma TargetLangIgnoresCase(raw: string)
    ensures TargetLang(Lower(raw)) == TargetLang(raw)
  {
    assert Upper(Lower(raw)) == Upper(raw);
  }

  /** Surrounding white space and letter case are ignored: " es " is Spanish. */
  lemma PaddedLowerCaseAccepted()
    ensures TargetLang(" es ") == "ES"
  {
    var u := Upper(" es ");
    assert u == " ES " by {
      assert |u| == 4 && u[0] == ' ' && u[1] == 'E' && u[2] == 'S' && u[3] == ' ';
    }
    assert TrimStart("ES ") == "ES ";
    assert TrimStart(" ES ") == "ES " by {
      assert IsSpace(' ');
      assert " ES "[1..] == "ES ";
    }
    assert TrimEnd("ES") == "ES";
    assert TrimEnd("ES ") == "ES" by {
      assert "ES "[..2] == "ES";
    }
  }
}
