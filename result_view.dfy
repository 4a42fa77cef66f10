/**
 * The transcript text shown (and copied or downloaded) on the result page:
 * `formatTimestamp` and the `displayText` memo of ResultClient.
 */
module ResultView {
  import opened Wrappers
  import opened Strings

  /** A transcript segment; `start` is `None` when it is not a number. */
  datatype Segment = Segment(text: string, start: Option<real>)

  /** `Math.max(0, Math.floor(seconds))`. */
  function Clamp(seconds: real): (r: nat)
    ensures seconds >= 0.0 ==> r as real <= seconds < r as real + 1.0
    ensures seconds < 0.0 ==> r == 0
  {
    if seconds.Floor < 0 then 0 else seconds.Floor
  }

  /** `formatTimestamp`: "mm:ss", minutes padded to two digits and growing past 99. */
  function FormatTimestamp(seconds: real): (r: string)
  {
    var s := Clamp(seconds);
    PadStart2(NatToString(s / 60)) + ":" + PadStart2(NatToString(s % 60))
  }

  /** Reads a "mm:ss" stamp back into a number of seconds. */
  function TimestampValue(r: string): (v: Option<nat>)
    ensures v.Some? ==> |r| >= 5 && r[|r| - 3] == ':'
  {
    if |r| >= 5 && r[|r| - 3] == ':' && AllDigits(r[..|r| - 3]) && AllDigits(r[|r| - 2..])
       && DigitsValue(r[|r| - 2..]) < 60
    then Some(DigitsValue(r[..|r| - 3]) * 60 + DigitsValue(r[|r| - 2..]))
    else None
  }

  lemma {:induction false} NatToStringLength(n: nat)
    ensures n < 10 ==> |NatToString(n)| == 1
    ensures 10 <= n < 100 ==> |NatToString(n)| == 2
    ensures n >= 10 ==> |NatToString(n)| >= 2
    decreases n
  {
    if n >= 10 {
      NatToStringLength(n / 10);
    }
  }

  /** `String(n).padStart(2, "0")` has the value `n` and at least two digits, exactly two below 100. */
  lemma PaddedField(n: nat)
    ensures var f := PadStart2(NatToString(n));
      AllDigits(f) && DigitsValue(f) == n && |f| >= 2 && (n < 100 <==> |f| == 2)
  {
    NatToStringValue(n);
    NatToStringLength(n);
    if n < 10 {
      LeadingZeroValue(NatToString(n));
    } else if n >= 100 {
      NatToStringLength(n / 10);
    }
  }

  /**
   * The stamp reads back as the clamped whole seconds, its seconds field is
   * two digits, and it is exactly "mm:ss" below 100 minutes.
   */
  lemma TimestampRoundTrip(seconds: real)
    ensures TimestampValue(FormatTimestamp(seconds)) == Some(Clamp(seconds))
    ensures Clamp(seconds) < 6000 <==> |FormatTimestamp(seconds)| == 5
  {
    var s := Clamp(seconds);
    var mm := PadStart2(NatToString(s / 60));
    var ss := PadStart2(NatToString(s % 60));
    PaddedField(s / 60);
    PaddedField(s % 60);
    var r := FormatTimestamp(seconds);
    assert r == mm + ":" + ss;
    assert r[..|r| - 3] == mm;
    assert r[|r| - 2..] == ss;
  }

  /** One line of the timestamped view. */
  function Line(seg: Segment): (r: string)
    ensures seg.start.None? ==> r == seg.text
    ensures seg.start.Some? ==> EndsWith(r, seg.text) && "[" <= r
  {
    match seg.start
    case None => seg.text
    case Some(t) =>
      var r := "[" + FormatTimestamp(t) + "] " + seg.text;
      assert r[|r| - |seg.text|..] == seg.text;
      r
  }

  function Lines(segments: seq<Segment>): (r: seq<string>)
    ensures |r| == |segments|
    ensures forall k :: 0 <= k < |r| ==> r[k] == Line(segments[k])
  {
    seq(|segments|, k requires 0 <= k < |segments| => Line(segments[k]))
  }

  function Texts(segments: seq<Segment>): (r: seq<string>)
    ensures |r| == |segments|
    ensures forall k :: 0 <= k < |r| ==> r[k] == segments[k].text
  {
    seq(|segments|, k requires 0 <= k < |segments| => segments[k].text)
  }

  /** `displayText`. */
  function DisplayText(segments: seq<Segment>, includeTimestamps: bool, raw: string): (r: string)
    ensures segments == [] ==> r == raw
  {
    if |segments| > 0 then
      if includeTimestamps then Join(Lines(segments), "\n")
      else Join(Texts(segments), " ")
    else raw
  }

  /** A stamp is digits and colons only. */
  lemma StampHasNoNewline(t: real)
    ensures '\n' !in FormatTimestamp(t)
  {
    PaddedField(Clamp(t) / 60);
    PaddedField(Clamp(t) % 60);
    assert forall c :: c in FormatTimestamp(t) ==> c == ':' || IsDigit(c);
  }

  /** A segment's line has a newline only if its text has one. */
  lemma LineHasNoNewline(seg: Segment)
    requires '\n' !in seg.text
    ensures '\n' !in Line(seg)
  {
    if seg.start.Some? {
      StampHasNoNewline(seg.start.value);
    }
  }

  /**
   * With timestamps on, the view has one line per segment: a segment with
   * a numeric start reads "[mm:ss] text", the others their bare text.
   */
  lemma DisplayLinesPerSegment(segments: seq<Segment>)
    requires |segments| > 0
    requires forall k :: 0 <= k < |segments| ==> '\n' !in segments[k].text
    ensures var lines := Split(DisplayText(segments, true, ""), '\n');
      |lines| == |segments|
      && forall k :: 0 <= k < |segments| ==>
           lines[k] == (if segments[k].start.Some? then "[" + FormatTimestamp(segments[k].start.value) + "] " + segments[k].text
                        else segments[k].text)
  {
    var ls := Lines(segments);
    forall k | 0 <= k < |ls|
      ensures '\n' !in ls[k]
    {
      LineHasNoNewline(segments[k]);
    }
    SplitJoin(ls, '\n');
  }

  /** When no segment has a start, the timestamped view is just the texts, one per line. */
  lemma {:induction false} NoStartsNoDifference(segments: seq<Segment>)
    requires forall k :: 0 <= k < |segments| ==> segments[k].start.None?
    ensures DisplayText(segments, true, "") == Join(Texts(segments), "\n")
  {
    assert Lines(segments) == Texts(segments);
  }

  /**
   * With timestamps off the texts are joined by single spaces, so texts
   * without spaces can be read back one by one.
   */
  lemma PlainViewSplitsBack(segments: seq<Segment>, raw: string)
    requires |segments| > 0
    requires forall k :: 0 <= k < |segments| ==> ' ' !in segments[k].text
    ensures Split(DisplayText(segments, false, raw), ' ') == Texts(segments)
  {
    SplitJoin(Texts(segments), ' ');
  }
}
