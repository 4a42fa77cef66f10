/**
 * Server-side fixed-window rate limiting (lib/rate-limit.ts): a module-level
 * map from session id to `{count, resetAt}`, at most 5 requests per session
 * per hour.  The clock `Date.now()` is the parameter `now` (milliseconds).
 */
module RateLimit {
  import opened Wrappers
  import opened Strings

  const RateLimitWindow: int := 60 * 60 * 1000
  const MaxRequests: int := 5
  /** The store is swept only when it holds more than this many keys. */
  const CleanupThreshold: int := 10000

  datatype Entry = Entry(count: int, resetAt: int)

  /** What `checkRateLimit` returns. */
  datatype Decision = Decision(allowed: bool, remaining: int, resetAt: int)

  /** Every stored count lies in 1..MaxRequests. */
  predicate ValidStore(store: map<string, Entry>)
  {
    forall k :: k in store ==> 1 <= store[k].count <= MaxRequests
  }

  /** The sweep: above the threshold, drop exactly the entries with `resetAt < now`. */
  function Cleanup(store: map<string, Entry>, now: int): map<string, Entry>
  {
    if |store| > CleanupThreshold then map k | k in store && store[k].resetAt >= now :: store[k]
    else store
  }

  /**
   * One call of `checkRateLimit`: the decision and the store afterwards.
   * The session's entry is read before the sweep, as in the source.
   */
  function Check(store: map<string, Entry>, sessionId: string, now: int): (Decision, map<string, Entry>)
  {
    var cleaned := Cleanup(store, now);
    if sessionId !in store || store[sessionId].resetAt < now then
      var newEntry := Entry(1, now + RateLimitWindow);
      (Decision(true, MaxRequests - 1, newEntry.resetAt), cleaned[sessionId := newEntry])
    else if store[sessionId].count >= MaxRequests then
      (Decision(false, 0, store[sessionId].resetAt), cleaned)
    else
      var bumped := store[sessionId].(count := store[sessionId].count + 1);
      (Decision(true, MaxRequests - bumped.count, bumped.resetAt), cleaned[sessionId := bumped])
  }

  /** The in-memory store, `rateLimitStore`. */
  class RateLimiter {
    var store: map<string, Entry>

    ghost predicate Valid()
      reads this
    {
      ValidStore(store)
    }

    constructor ()
      ensures Valid() && store == map[]
    {
      store := map[];
    }

    /** `checkRateLimit(sessionId)` at time `now`. */
    method CheckRateLimit(sessionId: string, now: int) returns (d: Decision)
      requires Valid()
      modifies this
      ensures Valid()
      ensures (d, store) == Check(old(store), sessionId, now)
    {
      var entry := if sessionId in store then Some(store[sessionId]) else None;
      if |store| > CleanupThreshold {
        ghost var before := store;
        var keys := store.Keys;
        while keys != {}
          invariant keys <= before.Keys
          invariant forall k :: k in store <==> k in before && (k in keys || before[k].resetAt >= now)
          invariant forall k :: k in store ==> store[k] == before[k]
          decreases keys
        {
          var k :| k in keys;
          if store[k].resetAt < now {
            store := store - {k};
          }
          keys := keys - {k};
        }
        assert store == Cleanup(before, now);
      }
      if entry.None? || entry.value.resetAt < now {
        var newEntry := Entry(1, now + RateLimitWindow);
        store := store[sessionId := newEntry];
        return Decision(true, MaxRequests - 1, newEntry.resetAt);
      }
      if entry.value.count >= MaxRequests {
        return Decision(false, 0, entry.value.resetAt);
      }
      var bumped := entry.value.(count := entry.value.count + 1);
      store := store[sessionId := bumped];
      d := Decision(true, MaxRequests - bumped.count, bumped.resetAt);
    }
  }

  /**
   * Stored counts stay in 1..5 and the reported remaining in 0..4; an allowed
   * call leaves `remaining == 5 - count` for the session's stored count.
   */
  lemma CheckKeepsCountsInRange(store: map<string, Entry>, sessionId: string, now: int)
    requires ValidStore(store)
    ensures var (d, s) := Check(store, sessionId, now);
      ValidStore(s) && 0 <= d.remaining <= MaxRequests - 1
      && (d.allowed ==> sessionId in s && d.remaining == MaxRequests - s[sessionId].count)
  {
  }

  /** No live entry: allowed, count 1, a new window of one hour, remaining 4. */
  lemma FreshWindowOpens(store: map<string, Entry>, sessionId: string, now: int)
    requires sessionId !in store || store[sessionId].resetAt < now
    ensures var (d, s) := Check(store, sessionId, now);
      d == Decision(true, 4, now + 3600000) && s[sessionId] == Entry(1, now + 3600000)
  {
  }

  /**
   * A live entry (`resetAt >= now`, so `resetAt == now` included) that is
   * full is denied with remaining 0 and its own `resetAt`, and the store
   * only loses what the sweep removes.
   */
  lemma FullWindowDenied(store: map<string, Entry>, sessionId: string, now: int)
    requires sessionId in store && store[sessionId].resetAt >= now && store[sessionId].count >= MaxRequests
    ensures var (d, s) := Check(store, sessionId, now);
      d == Decision(false, 0, store[sessionId].resetAt) && s == Cleanup(store, now)
      && sessionId in s && s[sessionId] == store[sessionId]
  {
  }

  /** A live, non-full entry gains exactly one request and keeps its window. */
  lemma LiveWindowCounts(store: map<string, Entry>, sessionId: string, now: int)
    requires sessionId in store && store[sessionId].resetAt >= now && store[sessionId].count < MaxRequests
    ensures var (d, s) := Check(store, sessionId, now);
      d.allowed && s[sessionId] == Entry(store[sessionId].count + 1, store[sessionId].resetAt)
      && d.remaining == MaxRequests - store[sessionId].count - 1
  {
  }

  /**
   * Apart from the session's own key, a call changes the store only through
   * the sweep, and the sweep removes exactly the expired entries.
   */
  lemma OnlySessionAndSweepChange(store: map<string, Entry>, sessionId: string, now: int, k: string)
    requires k != sessionId
    ensures var s := Check(store, sessionId, now).1;
      (k in s <==> k in store && (|store| <= CleanupThreshold || store[k].resetAt >= now))
      && (k in s ==> s[k] == store[k])
  {
  }

  /** Run a sequence of calls for one session; the number allowed and the final store. */
  function Run(store: map<string, Entry>, sessionId: string, times: seq<int>): (nat, map<string, Entry>)
    decreases |times|
  {
    if times == [] then (0, store)
    else
      var (d, s1) := Check(store, sessionId, times[0]);
      var (n, s2) := Run(s1, sessionId, times[1..]);
      ((if d.allowed then 1 else 0) + n, s2)
  }

  /**
   * Within the window of a live entry, further calls are allowed at most
   * `5 - count` times.
   */
  lemma {:induction false} LiveWindowBound(store: map<string, Entry>, sessionId: string, times: seq<int>)
    requires ValidStore(store) && sessionId in store
    requires forall i :: 0 <= i < |times| ==> times[i] <= store[sessionId].resetAt
    ensures Run(store, sessionId, times).0 <= MaxRequests - store[sessionId].count
    ensures var s := Run(store, sessionId, times).1;
      sessionId in s && s[sessionId].resetAt == store[sessionId].resetAt && s[sessionId].count >= store[sessionId].count
    decreases |times|
  {
    if times != [] {
      var (d, s1) := Check(store, sessionId, times[0]);
      CheckKeepsCountsInRange(store, sessionId, times[0]);
      assert sessionId in s1 && s1[sessionId].resetAt == store[sessionId].resetAt;
      LiveWindowBound(s1, sessionId, times[1..]);
      if d.allowed {
        assert s1[sessionId].count == store[sessionId].count + 1;
      } else {
        assert s1[sessionId] == store[sessionId];
      }
    }
  }

  /**
   * At most 5 calls of one session are allowed in one window: the call that
   * opens the window at `t0` plus every later call up to its `resetAt`.
   */
  lemma AtMostFivePerWindow(store: map<string, Entry>, sessionId: string, t0: int, times: seq<int>)
    requires ValidStore(store)
    requires sessionId !in store || store[sessionId].resetAt < t0
    requires forall i :: 0 <= i < |times| ==> times[i] <= t0 + RateLimitWindow
    ensures Run(store, sessionId, [t0] + times).0 <= MaxRequests
  {
    var (d, s1) := Check(store, sessionId, t0);
    CheckKeepsCountsInRange(store, sessionId, t0);
    assert ([t0] + times)[1..] == times;
    LiveWindowBound(s1, sessionId, times);
  }

  /** The client address: first field of x-forwarded-for, else x-real-ip, else "unknown". */
  function ClientIp(forwardedFor: string, realIp: string): (ip: string)
    ensures forwardedFor != "" ==>
              ip <= forwardedFor && ',' !in ip && (|ip| < |forwardedFor| ==> forwardedFor[|ip|] == ',')
    ensures forwardedFor == "" && realIp != "" ==> ip == realIp
    ensures forwardedFor == "" && realIp == "" ==> ip == "unknown"
  {
    if forwardedFor != "" then FirstField(forwardedFor, ',')
    else if realIp != "" then realIp
    else "unknown"
  }

  /**
   * `getSessionId`: the client address, "-", and at most the first 50
   * characters of the user agent ("unknown" when absent).  Absent headers
   * are "".
   */
  function GetSessionId(forwardedFor: string, realIp: string, userAgent: string): (r: string)
    ensures var ua := if userAgent != "" then userAgent else "unknown";
      exists agent :: r == ClientIp(forwardedFor, realIp) + "-" + agent
        && agent <= ua && |agent| == if |ua| < 50 then |ua| else 50
  {
    var ua := if userAgent != "" then userAgent else "unknown";
    var agent := ua[..if |ua| < 50 then |ua| else 50];
    ClientIp(forwardedFor, realIp) + "-" + agent
  }
}
