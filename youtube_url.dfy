/**
 * YouTube URL recognition, shared by the result page and the transcribe
 * route (which carry identical copies of `extractYouTubeVideoId`).  The
 * WHATWG `URL` parser is not modelled: its result is an input, `None`
 * when `new URL(input)` throws.
 */
module YouTubeUrl {
  import opened Wrappers
  import opened Strings

  /** A parsed URL: host name, path and the query's key/value pairs in order. */
  datatype Url = Url(hostname: string, pathname: string, query: seq<(string, string)>)

  /** `hostname.replace(/^www\./, "")`: one leading "www." is removed. */
  function StripWww(host: string): (r: string)
    ensures "www." <= host ==> host == "www." + r
    ensures !("www." <= host) ==> r == host
  {
    if "www." <= host then host[4..] else host
  }

  /** `searchParams.get(key)`: the first value stored under `key`. */
  function QueryGet(query: seq<(string, string)>, key: string): (r: Option<string>)
    ensures r.Some? <==> exists k :: 0 <= k < |query| && query[k].0 == key
    ensures r.Some? ==> exists k :: 0 <= k < |query| && query[k] == (key, r.value)
                                    && forall j :: 0 <= j < k ==> query[j].0 != key
    decreases |query|
  {
    if query == [] then None
    else if query[0].0 == key then Some(query[0].1)
    else
      var r := QueryGet(query[1..], key);
      assert r.Some? ==> exists k :: 1 <= k < |query| && query[k] == (key, r.value)
                                     && forall j :: 0 <= j < k ==> query[j].0 != key by {
        if r.Some? {
          var k :| 0 <= k < |query[1..]| && query[1..][k] == (key, r.value) && forall j :: 0 <= j < k ==> query[1..][j].0 != key;
          assert query[k + 1] == (key, r.value);
        }
      }
      r
  }

  /** `pathname.split("/").filter(Boolean)`. */
  function PathParts(path: string): (r: seq<string>)
    ensures forall k :: 0 <= k < |r| ==> r[k] != "" && '/' !in r[k]
  {
    NonEmpty(Split(path, '/'))
  }

  /** `parts.indexOf(x)`, `None` for -1. */
  function IndexOf(parts: seq<string>, x: string): (r: Option<nat>)
    ensures r.Some? ==> r.value < |parts| && parts[r.value] == x && x !in parts[..r.value]
    ensures r.None? <==> x !in parts
  {
    if x !in parts then None
    else if parts[0] == x then Some(0)
    else
      var r := IndexOf(parts[1..], x);
      assert parts[..r.value + 1] == [parts[0]] + parts[1..][..r.value];
      Some(r.value + 1)
  }

  /** `parts[parts.indexOf(name) + 1]` when `name` occurs and something follows it. */
  function After(parts: seq<string>, name: string): (r: Option<string>)
    ensures r.Some? <==> name in parts && IndexOf(parts, name).value + 1 < |parts|
    ensures r.Some? ==> r.value == parts[IndexOf(parts, name).value + 1]
  {
    match IndexOf(parts, name)
    case None => None
    case Some(i) => if i + 1 < |parts| then Some(parts[i + 1]) else None
  }

  /** `extractYouTubeVideoId`. */
  function ExtractVideoId(u: Option<Url>): (r: Option<string>)
    ensures r.Some? ==> r.value != ""
  {
    if u.None? then None
    else
      var host := StripWww(u.value.hostname);
      var parts := PathParts(u.value.pathname);
      if host == "youtu.be" then
        if |parts| > 0 then Some(parts[0]) else None
      else if EndsWith(host, "youtube.com") then
        var v := QueryGet(u.value.query, "v");
        if v.Some? && v.value != "" then v
        else if After(parts, "shorts").Some? then After(parts, "shorts")
        else After(parts, "embed")
      else None
  }

  /** The path test of `isYouTubeChannelUrl`. */
  predicate ChannelPath(p: string)
  {
    "/@" <= p || "/channel/" <= p || "/c/" <= p || "/user/" <= p || p == "/channel" || p == "/c" || p == "/user"
  }

  /** `isYouTubeChannelUrl`. */
  predicate IsChannelUrl(u: Option<Url>)
  {
    u.Some? && StripWww(u.value.hostname) in {"youtube.com", "m.youtube.com"} && ChannelPath(u.value.pathname)
  }

  // ------------------------------------------------------------ properties

  /** A youtu.be link yields its first non-empty path segment, which holds no "/". */
  lemma ShortLinkGivesFirstSegment(u: Url)
    requires StripWww(u.hostname) == "youtu.be"
    ensures var r := ExtractVideoId(Some(u));
      (r.Some? <==> PathParts(u.pathname) != [])
      && (r.Some? ==> r.value == PathParts(u.pathname)[0] && '/' !in r.value)
  {
  }

  /**
   * On a youtube.com host (any host name ending so) a non-empty `v`
   * parameter wins; otherwise the segment after "shorts", then the segment
   * after "embed".
   */
  lemma WatchLinkPrecedence(u: Url)
    requires StripWww(u.hostname) != "youtu.be" && EndsWith(StripWww(u.hostname), "youtube.com")
    ensures var r := ExtractVideoId(Some(u));
      var v := QueryGet(u.query, "v");
      var parts := PathParts(u.pathname);
      (v.Some? && v.value != "" ==> r == v)
      && (!(v.Some? && v.value != "") && After(parts, "shorts").Some? ==> r == After(parts, "shorts"))
      && (!(v.Some? && v.value != "") && After(parts, "shorts").None? ==> r == After(parts, "embed"))
  {
  }

  /** Every other host, and every unparsable input, yields no id. */
  lemma OtherHostsGiveNothing(u: Option<Url>)
    requires u.None? || (StripWww(u.value.hostname) != "youtu.be" && !EndsWith(StripWww(u.value.hostname), "youtube.com"))
    ensures ExtractVideoId(u).None?
  {
  }

  /** The suffix test also accepts host names that merely end in "youtube.com". */
  lemma LookalikeHostAccepted()
    ensures ExtractVideoId(Some(Url("notyoutube.com", "/watch", [("v", "abc")]))) == Some("abc")
  {
    var host := "notyoutube.com";
    assert !("www." <= host) by { assert host[0] != 'w'; }
    assert StripWww(host) == host;
    assert host[|host| - |"youtube.com"|..] == "youtube.com";
    assert QueryGet([("v", "abc")], "v") == Some("abc");
  }

  /**
   * A channel link without a `v` parameter and without a "shorts" or
   * "embed" segment carries no video id, which is why the result page
   * checks for channel links first.
   */
  lemma ChannelLinkHasNoVideoId(u: Url)
    requires IsChannelUrl(Some(u))
    requires QueryGet(u.query, "v").None? || QueryGet(u.query, "v") == Some("")
    requires "shorts" !in PathParts(u.pathname) && "embed" !in PathParts(u.pathname)
    ensures ExtractVideoId(Some(u)).None?
  {
    var host := StripWww(u.hostname);
    assert host == "youtube.com" || host == "m.youtube.com";
    assert EndsWith(host, "youtube.com") by {
      if host == "m.youtube.com" {
        assert host[|host| - |"youtube.com"|..] == "youtube.com";
      }
    }
  }

  /** One leading "www." makes no difference to either test. */
  lemma WwwIgnored(host: string, path: string, query: seq<(string, string)>)
    requires !("www." <= host)
    ensures var plain := Some(Url(host, path, query));
      var www := Some(Url("www." + host, path, query));
      ExtractVideoId(www) == ExtractVideoId(plain) && IsChannelUrl(www) == IsChannelUrl(plain)
  {
    assert ("www." + host)[4..] == host;
  }
}
