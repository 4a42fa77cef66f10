/**
 * The AI transcription placeholder for YouTube links: it validates the
 * form field, finds the video id with the regular expression
 * `(?:v=|\/shorts\/|youtu\.be\/)([a-zA-Z0-9_-]{11})` and answers 501.
 */
module YouTubeAi {
  import opened Wrappers
  import opened Strings

  /** The character class `[a-zA-Z0-9_-]`. */
  predicate IdChar(c: char)
  {
    'a' <= c <= 'z' || 'A' <= c <= 'Z' || '0' <= c <= '9' || c == '_' || c == '-'
  }

  /** Eleven id characters start at `j`. */
  predicate IdAt(s: string, j: nat)
  {
    j + 11 <= |s| && forall k :: j <= k < j + 11 ==> IdChar(s[k])
  }

  /**
   * The regular expression tried at position `i`: the alternatives in
   * order, each followed by the eleven-character group.
   */
  function MatchAt(s: string, i: nat): (r: Option<string>)
    requires i <= |s|
    ensures r.Some? ==> |r.value| == 11 && forall k :: 0 <= k < 11 ==> IdChar(r.value[k])
  {
    if "v=" <= s[i..] && IdAt(s, i + 2) then Some(s[i + 2..i + 13])
    else if "/shorts/" <= s[i..] && IdAt(s, i + 8) then Some(s[i + 8..i + 19])
    else if "youtu.be/" <= s[i..] && IdAt(s, i + 9) then Some(s[i + 9..i + 20])
    else None
  }

  /** `s.match(re)` from position `i` on: the leftmost position where the expression matches. */
  function Search(s: string, i: nat): (r: Option<string>)
    requires i <= |s|
    ensures r.Some? <==> exists j :: i <= j <= |s| && MatchAt(s, j).Some?
    ensures r.Some? ==> exists j :: i <= j <= |s| && MatchAt(s, j) == r
                                    && forall k :: i <= k < j ==> MatchAt(s, k).None?
    decreases |s| - i
  {
    if MatchAt(s, i).Some? then MatchAt(s, i)
    else if i == |s| then None
    else Search(s, i + 1)
  }

  datatype Response = KeyMissing | MissingUrl | InvalidUrl | NotImplemented(videoId: string) | ServerError

  function StatusCode(r: Response): int
  {
    match r
    case KeyMissing => 500
    case MissingUrl => 400
    case InvalidUrl => 400
    case NotImplemented(_) => 501
    case ServerError => 500
  }

  /**
   * `POST`.  `form` is `None` when the form data cannot be read; its value
   * is the `youtubeUrl` field, `None` when absent.
   */
  function YouTubeAi(apiKey: string, form: Option<Option<string>>): Response
  {
    if apiKey == "" then KeyMissing
    else if form.None? then ServerError
    else
      var url := Trim(form.value.GetOr(""));
      if url == "" then MissingUrl
      else
        var m := Search(url, 0);
        if m.None? then InvalidUrl else NotImplemented(m.value)
  }

  // ------------------------------------------------------------ properties

  /** The key is checked first, then the trimmed url, then the match; every id found is answered with 501. */
  lemma Outcomes(apiKey: string, form: Option<Option<string>>)
    ensures var r := YouTubeAi(apiKey, form);
      (r == KeyMissing <==> apiKey == "")
      && (r == MissingUrl <==> apiKey != "" && form.Some? && Trim(form.value.GetOr("")) == "")
      && (r.NotImplemented? ==> StatusCode(r) == 501 && Some(r.videoId) == Search(Trim(form.value.GetOr("")), 0))
  {
  }

  /**
   * The answered id is eleven id characters that follow one of the three
   * markers at the leftmost position where the expression matches.
   */
  lemma AnsweredIdIsLeftmostMatch(apiKey: string, form: Option<Option<string>>)
    requires YouTubeAi(apiKey, form).NotImplemented?
    ensures var url := Trim(form.value.GetOr(""));
      var id := YouTubeAi(apiKey, form).videoId;
      |id| == 11 && (forall k :: 0 <= k < 11 ==> IdChar(id[k]))
      && exists j :: 0 <= j <= |url| && MatchAt(url, j) == Some(id) && forall k :: 0 <= k < j ==> MatchAt(url, k).None?
  {
  }

  /** A url in which no marker is followed by eleven id characters is refused with 400. */
  lemma NoMatchIsInvalid(apiKey: string, url: string)
    requires apiKey != "" && Trim(url) != ""
    requires forall j :: 0 <= j <= |Trim(url)| ==> MatchAt(Trim(url), j).None?
    ensures YouTubeAi(apiKey, Some(Some(url))) == InvalidUrl
  {
  }

  lemma ShortLinkMarkerMatches(s: string, id: string)
    requires |id| == 11 && forall k :: 0 <= k < 11 ==> IdChar(id[k])
    requires s == "https://youtu.be/" + id
    ensures MatchAt(s, 8) == Some(id)
  {
    var p := "https://youtu.be/";
    assert s[..17] == p;
    assert s[8..17] == s[..17][8..] == "youtu.be/";
    assert "youtu.be/" <= s[8..] && s[8] == 'y';
    assert s[17..] == id;
    assert forall k :: 17 <= k < 28 ==> s[k] == id[k - 17];
    assert IdAt(s, 17);
    assert s[17..28] == id;
    assert s[8..][0] == 'y';
    assert !("v=" <= s[8..]) && !("/shorts/" <= s[8..]);
  }

  /** The search moves past a position where nothing matches. */
  lemma SearchSkips(s: string, i: nat)
    requires i < |s| && MatchAt(s, i).None?
    ensures Search(s, i) == Search(s, i + 1)
  {
  }

  /** The search stops at a position where the expression matches. */
  lemma SearchStops(s: string, i: nat)
    requires i <= |s| && MatchAt(s, i).Some?
    ensures Search(s, i) == MatchAt(s, i)
  {
  }

  lemma SchemeDoesNotMatch(s: string, id: string, i: nat)
    requires s == "https://youtu.be/" + id && i < 8
    ensures MatchAt(s, i).None?
  {
    assert s[i] == "https://youtu.be/"[i];
    assert s[i + 1] == "https://youtu.be/"[i + 1];
  }

  /** A short link "https://youtu.be/<id>" yields its id. */
  lemma ShortLinkMatches(id: string)
    requires |id| == 11 && forall k :: 0 <= k < 11 ==> IdChar(id[k])
    ensures Search("https://youtu.be/" + id, 0) == Some(id)
  {
    var s := "https://youtu.be/" + id;
    ShortLinkMarkerMatches(s, id);
    SearchStops(s, 8);
    var i := 8;
    while i > 0
      invariant 0 <= i <= 8 && Search(s, i) == Some(id)
    {
      i := i - 1;
      SchemeDoesNotMatch(s, id, i);
      SearchSkips(s, i);
    }
  }
}
