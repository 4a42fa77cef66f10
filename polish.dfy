/**
 * The AI polish route: it sends the trimmed, non-blank segment texts (or
 * the plain transcript) to a language model and merges the reply back,
 * falling back to the input on every failure.  The model call is not
 * modelled; its parsed reply is an input.
 *
 * The route as written merges reply item `idx` into segment `idx`, but the
 * reply lists only the non-blank segments, so after a blank segment every
 * polished text lands one segment early (`MergeAsWritten`,
 * `MergeMisaligned`).  `Polish` is the route as written; `PolishIntended`
 * is the same route with `MergeAligned`, which gives each non-blank
 * segment the reply item at its own position among the texts sent.
 */
module Polish {
  import opened Wrappers
  import opened Strings

  /** A transcript segment; `text` is `None` when null or missing. */
  datatype Segment = Segment(text: Option<string>, start: Option<real>, duration: Option<real>)

  /** `String(s?.text ?? "").trim()`: the text sent for a segment. */
  function SentText(seg: Segment): string
  {
    Trim(seg.text.GetOr(""))
  }

  /** The texts sent to the model: the non-blank sent texts, in order. */
  function Texts(segs: seq<Segment>): (r: seq<string>)
    ensures |r| <= |segs|
    ensures forall k :: 0 <= k < |r| ==> r[k] != ""
    decreases |segs|
  {
    if segs == [] then []
    else
      var t := SentText(segs[|segs| - 1]);
      if t != "" then Texts(segs[..|segs| - 1]) + [t] else Texts(segs[..|segs| - 1])
  }

  /** How many texts are sent for the segments before `i`. */
  function Rank(segs: seq<Segment>, i: nat): nat
    requires i <= |segs|
  {
    |Texts(segs[..i])|
  }

  lemma {:induction false} TextsPrefix(segs: seq<Segment>, j: nat)
    requires j <= |segs|
    ensures Texts(segs[..j]) <= Texts(segs)
    decreases |segs|
  {
    if j == |segs| {
      assert segs[..j] == segs;
    } else {
      var init := segs[..|segs| - 1];
      TextsPrefix(init, j);
      assert init[..j] == segs[..j];
    }
  }

  /** A non-blank segment's text is sent at position `Rank(segs, i)`. */
  lemma RankLocatesOwnText(segs: seq<Segment>, i: nat)
    requires i < |segs| && SentText(segs[i]) != ""
    ensures Rank(segs, i) < |Texts(segs)| && Texts(segs)[Rank(segs, i)] == SentText(segs[i])
  {
    var p := segs[..i + 1];
    TextsPrefix(segs, i + 1);
    assert p[..|p| - 1] == segs[..i];
    assert p[|p| - 1] == segs[i];
    assert Texts(p) == Texts(segs[..i]) + [SentText(segs[i])];
  }

  /** `{...seg, text: polished || seg.text}`. */
  function WithText(seg: Segment, polished: string): (r: Segment)
    ensures r.start == seg.start && r.duration == seg.duration
  {
    if polished != "" then seg.(text := Some(polished)) else seg
  }

  /** The merge as the route writes it: reply item `i` goes to segment `i`. */
  function MergeAsWritten(segs: seq<Segment>, polished: seq<string>): (r: seq<Segment>)
    ensures |r| == |segs|
  {
    seq(|segs|, i requires 0 <= i < |segs| => if i < |polished| then WithText(segs[i], polished[i]) else segs[i])
  }

  function AlignedOne(segs: seq<Segment>, polished: seq<string>, i: nat): Segment
    requires i < |segs| && |polished| == |Texts(segs)|
  {
    if SentText(segs[i]) == "" then segs[i]
    else
      RankLocatesOwnText(segs, i);
      WithText(segs[i], polished[Rank(segs, i)])
  }

  /** The merge with reply items matched to the segments whose texts were sent. */
  function MergeAligned(segs: seq<Segment>, polished: seq<string>): (r: seq<Segment>)
    requires |polished| == |Texts(segs)|
    ensures |r| == |segs|
  {
    seq(|segs|, i requires 0 <= i < |segs| => AlignedOne(segs, polished, i))
  }

  // ------------------------------------------------------------ the merge

  /**
   * The aligned merge keeps every segment's timing, leaves blank segments
   * alone, and gives each other segment the reply item sent for its own
   * text (keeping the original text when that item is empty).
   */
  lemma MergeAlignedFaithful(segs: seq<Segment>, polished: seq<string>, i: nat)
    requires |polished| == |Texts(segs)| && i < |segs|
    ensures var r := MergeAligned(segs, polished);
      r[i].start == segs[i].start && r[i].duration == segs[i].duration
      && (SentText(segs[i]) == "" ==> r[i] == segs[i])
      && (SentText(segs[i]) != "" ==>
            Rank(segs, i) < |polished| && Texts(segs)[Rank(segs, i)] == SentText(segs[i])
            && r[i].text == (if polished[Rank(segs, i)] != "" then Some(polished[Rank(segs, i)]) else segs[i].text))
  {
    if SentText(segs[i]) != "" {
      RankLocatesOwnText(segs, i);
    }
  }

  /** Without blank segments every segment's text is sent, at its own index. */
  lemma {:induction false} RankWithoutBlanks(segs: seq<Segment>, i: nat)
    requires i <= |segs|
    requires forall k :: 0 <= k < |segs| ==> SentText(segs[k]) != ""
    ensures Rank(segs, i) == i
    decreases i
  {
    if i > 0 {
      RankWithoutBlanks(segs, i - 1);
      assert segs[..i][..i - 1] == segs[..i - 1];
    }
  }

  /** Without blank segments the route's merge is already the aligned one. */
  lemma AsWrittenAgreesWithoutBlanks(segs: seq<Segment>, polished: seq<string>)
    requires forall k :: 0 <= k < |segs| ==> SentText(segs[k]) != ""
    requires |polished| == |Texts(segs)|
    ensures MergeAsWritten(segs, polished) == MergeAligned(segs, polished)
  {
    RankWithoutBlanks(segs, |segs|);
    assert segs[..|segs|] == segs;
    forall i | 0 <= i < |segs|
      ensures MergeAsWritten(segs, polished)[i] == MergeAligned(segs, polished)[i]
    {
      RankWithoutBlanks(segs, i);
    }
  }

  lemma TrimBlank()
    ensures Trim(" ") == ""
  {
    assert TrimStart(" ") == "" by { assert " "[1..] == ""; }
  }

  lemma TrimWords()
    ensures Trim("hello") == "hello" && Trim("world") == "world"
  {
    assert !IsSpace('h') && !IsSpace('o') && !IsSpace('w') && !IsSpace('d');
    assert TrimStart("hello") == "hello";
    assert TrimStart("world") == "world";
  }

  /** Three segments, the first of them blank. */
  function BlankFirst(): seq<Segment>
  {
    [Segment(Some(" "), Some(0.0), None), Segment(Some("hello"), Some(1.0), None), Segment(Some("world"), Some(2.0), None)]
  }

  lemma BlankFirstSentTexts()
    ensures SentText(BlankFirst()[0]) == "" && SentText(BlankFirst()[1]) == "hello" && SentText(BlankFirst()[2]) == "world"
  {
    var segs := BlankFirst();
    assert segs[0].text.GetOr("") == " " by { TrimBlank(); }
    assert SentText(segs[0]) == "" by { TrimBlank(); }
    assert segs[1].text.GetOr("") == "hello";
    assert SentText(segs[1]) == "hello" by { TrimWords(); }
    assert segs[2].text.GetOr("") == "world";
    assert SentText(segs[2]) == "world" by { TrimWords(); }
  }

  lemma BlankFirstTexts()
    ensures Texts(BlankFirst()) == ["hello", "world"] && Rank(BlankFirst(), 1) == 0 && Rank(BlankFirst(), 2) == 1
  {
    var segs := BlankFirst();
    BlankFirstSentTexts();
    assert segs[..1][..0] == [];
    assert Texts(segs[..1]) == [];
    assert segs[..2][..1] == segs[..1];
    assert Texts(segs[..2]) == ["hello"];
    assert segs[..|segs| - 1] == segs[..2];
  }

  /**
   * A blank first segment: the texts sent are "hello" and "world", yet the
   * route gives the blank segment the polished "hello", gives the "hello"
   * segment the polished "world", and leaves "world" unpolished.
   */
  lemma MergeMisaligned()
    ensures var segs := BlankFirst();
      var m := MergeAsWritten(segs, ["Hello.", "World."]);
      Texts(segs) == ["hello", "world"]
      && m[0].text == Some("Hello.") && m[1].text == Some("World.") && m[2].text == Some("world")
  {
    BlankFirstTexts();
    var segs := BlankFirst();
    var polished := ["Hello.", "World."];
    var m := MergeAsWritten(segs, polished);
    assert |polished| == 2 && polished[0] == "Hello." && polished[1] == "World.";
    assert m[0] == WithText(segs[0], "Hello.");
    assert m[1] == WithText(segs[1], "World.");
    assert m[2] == segs[2];
  }

  /** On the same input the aligned merge leaves the blank segment alone and polishes the other two. */
  lemma MergeAlignedExample()
    ensures var segs := BlankFirst();
      Texts(segs) == ["hello", "world"]
      && var m := MergeAligned(segs, ["Hello.", "World."]);
      m[0].text == Some(" ") && m[1].text == Some("Hello.") && m[2].text == Some("World.")
  {
    BlankFirstTexts();
    BlankFirstSentTexts();
    var segs := BlankFirst();
    var polished := ["Hello.", "World."];
    var m := MergeAligned(segs, polished);
    assert m[0] == AlignedOne(segs, polished, 0) == segs[0];
    assert m[1] == AlignedOne(segs, polished, 1);
    assert m[2] == AlignedOne(segs, polished, 2);
  }

  // ------------------------------------------------------------ the route

  /** The request body; `transcript` is `None` when not a string, `segments` when not an array. */
  datatype Body = Body(transcript: Option<string>, segments: Option<seq<Segment>>)

  /**
   * The model's reply in segment mode: the call threw, answered non-OK,
   * had no content, did not parse to an array, or gave these items
   * (`None` for null/undefined, otherwise the item's `String` form).
   */
  datatype SegmentReply = SegmentThrew | SegmentNotOk | NoContent | NotArray | Items(items: seq<Option<string>>)

  /** The model's reply in plain-transcript mode. */
  datatype TextReply = TextThrew | TextNotOk | TextOk(content: Option<string>)

  datatype Response =
    | NotConfigured(echoed: Option<seq<Segment>>)
    | SegmentsResult(polished: bool, segments: seq<Segment>)
    | TranscriptResult(polished: bool, transcript: string)
    | Untouched(echoedTranscript: Option<string>, echoed: Option<seq<Segment>>)
    | Failed

  /** The `polished` flag of the response. */
  predicate Polished(r: Response)
  {
    (r.SegmentsResult? || r.TranscriptResult?) && r.polished
  }

  /** `parsed.map((t) => String(t ?? "").trim())`. */
  function PolishedTexts(items: seq<Option<string>>): (r: seq<string>)
    ensures |r| == |items|
    ensures forall k :: 0 <= k < |r| ==> r[k] == Trim(items[k].GetOr(""))
  {
    seq(|items|, k requires 0 <= k < |items| => Trim(items[k].GetOr("")))
  }

  /** How a segment-mode reply is merged back: as the route writes it, or aligned to the texts sent. */
  datatype MergeRule = ByIndex | ByRank

  /** `POST /api/ai/polish` as written; `body` is `None` when the request is not a JSON object. */
  function Polish(apiKey: string, body: Option<Body>, segmentReply: SegmentReply, textReply: TextReply): Response
  {
    Route(ByIndex, apiKey, body, segmentReply, textReply)
  }

  /** The same route with the reply merged onto the segments whose texts were sent. */
  function PolishIntended(apiKey: string, body: Option<Body>, segmentReply: SegmentReply, textReply: TextReply): Response
  {
    Route(ByRank, apiKey, body, segmentReply, textReply)
  }

  function Route(rule: MergeRule, apiKey: string, body: Option<Body>, segmentReply: SegmentReply, textReply: TextReply): Response
  {
    if body.None? then Failed
    else
      var b := body.value;
      if apiKey == "" then NotConfigured(b.segments)
      else if b.segments.Some? && |b.segments.value| > 0 then
        var segs := b.segments.value;
        var texts := Texts(segs);
        if |texts| == 0 then SegmentsResult(false, segs)
        else match segmentReply
          case SegmentThrew => Failed
          case SegmentNotOk => SegmentsResult(false, segs)
          case NoContent => SegmentsResult(false, segs)
          case NotArray => SegmentsResult(false, segs)
          case Items(items) =>
            if |items| != |texts| then SegmentsResult(false, segs)
            else
              var polished := PolishedTexts(items);
              SegmentsResult(true, if rule == ByIndex then MergeAsWritten(segs, polished) else MergeAligned(segs, polished))
      else if b.transcript.Some? && Trim(b.transcript.value) != "" then
        var t := b.transcript.value;
        match textReply
        case TextThrew => Failed
        case TextNotOk => TranscriptResult(false, t)
        case TextOk(content) =>
          var p := Trim(content.GetOr(""));
          TranscriptResult(true, if p != "" then p else t)
      else Untouched(b.transcript, b.segments)
  }

  // ------------------------------------------------------------ properties

  /**
   * Without a key nothing is polished: the later `polished: false` key
   * replaces the transcript the response meant to echo, so only the
   * segments come back.
   */
  lemma NoKeyNeverPolished(body: Option<Body>, segmentReply: SegmentReply, textReply: TextReply)
    ensures var r := Polish("", body, segmentReply, textReply);
      !Polished(r) && (body.Some? ==> r == NotConfigured(body.value.segments))
  {
  }

  /** Segments whose texts are all blank come back unchanged and unpolished. */
  lemma BlankSegmentsReturned(apiKey: string, segs: seq<Segment>, transcript: Option<string>,
                              segmentReply: SegmentReply, textReply: TextReply)
    requires apiKey != "" && |segs| > 0
    requires forall k :: 0 <= k < |segs| ==> SentText(segs[k]) == ""
    ensures Polish(apiKey, Some(Body(transcript, Some(segs))), segmentReply, textReply) == SegmentsResult(false, segs)
  {
    AllBlankSendsNothing(segs);
  }

  lemma {:induction false} AllBlankSendsNothing(segs: seq<Segment>)
    requires forall k :: 0 <= k < |segs| ==> SentText(segs[k]) == ""
    ensures Texts(segs) == []
    decreases |segs|
  {
    if segs != [] {
      AllBlankSendsNothing(segs[..|segs| - 1]);
    }
  }

  /**
   * A reply that is not an array of exactly one item per text sent falls
   * back to the original segments, unpolished.
   */
  lemma ShapeMismatchFallsBack(apiKey: string, b: Body, segmentReply: SegmentReply, textReply: TextReply)
    requires apiKey != "" && b.segments.Some? && |Texts(b.segments.value)| > 0
    requires segmentReply.SegmentNotOk? || segmentReply.NoContent? || segmentReply.NotArray?
             || (segmentReply.Items? && |segmentReply.items| != |Texts(b.segments.value)|)
    ensures Polish(apiKey, Some(b), segmentReply, textReply) == SegmentsResult(false, b.segments.value)
  {
  }

  /** A polished segment list comes only from a reply with one item per text sent, merged by the route's rule. */
  lemma PolishedShape(rule: MergeRule, apiKey: string, b: Body, items: seq<Option<string>>, textReply: TextReply)
    requires Route(rule, apiKey, Some(b), Items(items), textReply).SegmentsResult?
    requires Route(rule, apiKey, Some(b), Items(items), textReply).polished
    ensures b.segments.Some? && |items| == |Texts(b.segments.value)|
    ensures Route(rule, apiKey, Some(b), Items(items), textReply).segments
      == if rule == ByIndex then MergeAsWritten(b.segments.value, PolishedTexts(items))
         else MergeAligned(b.segments.value, PolishedTexts(items))
  {
  }

  /** Conversely, as written, a configured request whose reply has one item per text sent is polished. */
  lemma PolishesWhenItemsMatch(apiKey: string, b: Body, items: seq<Option<string>>, textReply: TextReply)
    requires apiKey != "" && b.segments.Some? && |b.segments.value| > 0
    requires |Texts(b.segments.value)| > 0 && |items| == |Texts(b.segments.value)|
    ensures Polish(apiKey, Some(b), Items(items), textReply) == SegmentsResult(true, MergeAsWritten(b.segments.value, PolishedTexts(items)))
  {
  }

  /** The same for the intended route, with the aligned merge. */
  lemma IntendedPolishesWhenItemsMatch(apiKey: string, b: Body, items: seq<Option<string>>, textReply: TextReply)
    requires apiKey != "" && b.segments.Some? && |b.segments.value| > 0
    requires |Texts(b.segments.value)| > 0 && |items| == |Texts(b.segments.value)|
    ensures PolishIntended(apiKey, Some(b), Items(items), textReply) == SegmentsResult(true, MergeAligned(b.segments.value, PolishedTexts(items)))
  {
  }

  /**
   * As written, a polished segment list is reply item `i` merged into
   * segment `i`: the input's length and timing are kept, and a segment
   * keeps its text only where its item is missing or blank.
   */
  lemma PolishedSegmentsAsWritten(apiKey: string, b: Body, items: seq<Option<string>>, textReply: TextReply)
    requires Polish(apiKey, Some(b), Items(items), textReply).SegmentsResult?
    requires Polish(apiKey, Some(b), Items(items), textReply).polished
    ensures b.segments.Some?
    ensures var segs := b.segments.value;
      var r := Polish(apiKey, Some(b), Items(items), textReply).segments;
      |r| == |segs| && |items| == |Texts(segs)|
      && forall i :: 0 <= i < |segs| ==>
           r[i].start == segs[i].start && r[i].duration == segs[i].duration
           && r[i].text == (if i < |items| && Trim(items[i].GetOr("")) != "" then Some(Trim(items[i].GetOr(""))) else segs[i].text)
  {
    PolishedShape(ByIndex, apiKey, b, items, textReply);
    var segs := b.segments.value;
    var polished := PolishedTexts(items);
    var r := MergeAsWritten(segs, polished);
    assert Polish(apiKey, Some(b), Items(items), textReply).segments == r;
    forall i | 0 <= i < |segs|
      ensures r[i].start == segs[i].start && r[i].duration == segs[i].duration
      ensures r[i].text == (if i < |items| && Trim(items[i].GetOr("")) != "" then Some(Trim(items[i].GetOr(""))) else segs[i].text)
    {
      if i < |items| {
        assert r[i] == WithText(segs[i], polished[i]);
      }
    }
  }

  /**
   * With the intended merge, a polished segment list has the input's
   * length and every segment's timing, blank segments are untouched, and
   * each other segment gets the item sent for its own text.
   */
  lemma PolishedSegmentsFaithful(apiKey: string, b: Body, items: seq<Option<string>>, textReply: TextReply)
    requires PolishIntended(apiKey, Some(b), Items(items), textReply).SegmentsResult?
    requires PolishIntended(apiKey, Some(b), Items(items), textReply).polished
    ensures b.segments.Some? && |items| == |Texts(b.segments.value)|
    ensures var segs := b.segments.value;
      var r := PolishIntended(apiKey, Some(b), Items(items), textReply).segments;
      |r| == |segs|
      && forall i :: 0 <= i < |segs| ==>
           r[i].start == segs[i].start && r[i].duration == segs[i].duration
           && (SentText(segs[i]) == "" ==> r[i] == segs[i])
           && (SentText(segs[i]) != "" ==>
                 Rank(segs, i) < |items| && Texts(segs)[Rank(segs, i)] == SentText(segs[i])
                 && r[i] == WithText(segs[i], Trim(items[Rank(segs, i)].GetOr(""))))
  {
    PolishedShape(ByRank, apiKey, b, items, textReply);
    var segs := b.segments.value;
    var polished := PolishedTexts(items);
    var r := MergeAligned(segs, polished);
    forall i | 0 <= i < |segs|
      ensures r[i].start == segs[i].start && r[i].duration == segs[i].duration
      ensures SentText(segs[i]) == "" ==> r[i] == segs[i]
      ensures SentText(segs[i]) != "" ==>
                 Rank(segs, i) < |items| && Texts(segs)[Rank(segs, i)] == SentText(segs[i])
                 && r[i] == WithText(segs[i], Trim(items[Rank(segs, i)].GetOr("")))
    {
      MergeAlignedFaithful(segs, polished, i);
    }
  }

  /** The two routes give the same response whenever the route as written does not return a polished segment list. */
  lemma IntendedAgreesUnlessPolished(apiKey: string, body: Option<Body>, segmentReply: SegmentReply, textReply: TextReply)
    requires !(Polish(apiKey, body, segmentReply, textReply).SegmentsResult? && Polish(apiKey, body, segmentReply, textReply).polished)
    ensures PolishIntended(apiKey, body, segmentReply, textReply) == Polish(apiKey, body, segmentReply, textReply)
  {
  }

  /**
   * Where the route as written polishes a segment list, so does the
   * intended route, with as many segments; with no blank segment the two
   * lists are the same.
   */
  lemma IntendedDiffersOnlyInMerge(apiKey: string, b: Body, items: seq<Option<string>>, textReply: TextReply)
    requires Polish(apiKey, Some(b), Items(items), textReply).SegmentsResult?
    requires Polish(apiKey, Some(b), Items(items), textReply).polished
    ensures b.segments.Some?
    ensures var r := Polish(apiKey, Some(b), Items(items), textReply);
      var q := PolishIntended(apiKey, Some(b), Items(items), textReply);
      q.SegmentsResult? && q.polished && |q.segments| == |r.segments|
      && ((forall k :: 0 <= k < |b.segments.value| ==> SentText(b.segments.value[k]) != "") ==> q == r)
  {
    PolishedShape(ByIndex, apiKey, b, items, textReply);
    var segs := b.segments.value;
    var q := PolishIntended(apiKey, Some(b), Items(items), textReply);
    assert q.SegmentsResult? && q.polished;
    PolishedShape(ByRank, apiKey, b, items, textReply);
    if forall k :: 0 <= k < |segs| ==> SentText(segs[k]) != "" {
      AsWrittenAgreesWithoutBlanks(segs, PolishedTexts(items));
    }
  }

  /** Plain-transcript mode returns the trimmed reply, or the original when the reply is empty. */
  lemma PlainModeFallback(apiKey: string, t: string, content: Option<string>, segmentReply: SegmentReply)
    requires apiKey != "" && Trim(t) != ""
    ensures var r := Polish(apiKey, Some(Body(Some(t), None)), segmentReply, TextOk(content));
      r.TranscriptResult? && r.polished
      && (Trim(content.GetOr("")) == "" ==> r.transcript == t)
      && (Trim(content.GetOr("")) != "" ==> r.transcript == Trim(content.GetOr("")))
  {
  }

  /** A thrown error is answered without polishing. */
  lemma FailureNeverPolished(apiKey: string, body: Option<Body>)
    ensures !Polished(Polish(apiKey, body, SegmentThrew, TextThrew))
  {
  }
}
