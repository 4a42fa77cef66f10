/**
 * Browser-side rate limiting (lib/rate-limit-client.ts): one sessionStorage
 * item under the key "transcript_rate_limit" holding `{count, resetAt}`.
 * `typeof window === "undefined"` is the parameter `hasWindow == false`;
 * the clock is `now`.  `JSON.parse` of the stored text is modelled by the
 * slot's shape: text that does not parse is `Unparsable`.
 */
module ClientRateLimit {
  import RateLimit

  const RateLimitKey: string := "transcript_rate_limit"

  /** The storage item: missing (or the falsy ""), unparsable text, or a record. */
  datatype Slot = Empty | Unparsable | Stored(count: int, resetAt: int)

  /** One call of `checkClientRateLimit`: the decision and the item afterwards. */
  function ClientCheck(slot: Slot, hasWindow: bool, now: int): (RateLimit.Decision, Slot)
  {
    var window := RateLimit.RateLimitWindow;
    var max := RateLimit.MaxRequests;
    if !hasWindow then (RateLimit.Decision(true, max, now + window), slot)
    else match slot
      case Stored(count, resetAt) =>
        if resetAt < now then (RateLimit.Decision(true, max - 1, now + window), Stored(1, now + window))
        else if count >= max then (RateLimit.Decision(false, 0, resetAt), slot)
        else (RateLimit.Decision(true, max - (count + 1), resetAt), Stored(count + 1, resetAt))
      case _ => (RateLimit.Decision(true, max - 1, now + window), Stored(1, now + window))
  }

  /** The sessionStorage of one browser tab, as far as this module uses it. */
  class ClientLimiter {
    var slot: Slot

    constructor ()
      ensures slot == Empty
    {
      slot := Empty;
    }

    /** `checkClientRateLimit()` at time `now`. */
    method CheckClientRateLimit(hasWindow: bool, now: int) returns (d: RateLimit.Decision)
      modifies this
      ensures (d, slot) == ClientCheck(old(slot), hasWindow, now)
    {
      if !hasWindow {
        return RateLimit.Decision(true, RateLimit.MaxRequests, now + RateLimit.RateLimitWindow);
      }
      var count: int, resetAt: int;
      match slot {
        case Stored(c, r) =>
          if r < now {
            count, resetAt := 1, now + RateLimit.RateLimitWindow;
          } else if c >= RateLimit.MaxRequests {
            return RateLimit.Decision(false, 0, r);
          } else {
            count, resetAt := c + 1, r;
          }
        case _ =>
          count, resetAt := 1, now + RateLimit.RateLimitWindow;
      }
      slot := Stored(count, resetAt);
      d := RateLimit.Decision(true, RateLimit.MaxRequests - count, resetAt);
    }

    /** `resetClientRateLimit()`: removes the item when running in a browser. */
    method ResetClientRateLimit(hasWindow: bool)
      modifies this
      ensures slot == if hasWindow then Empty else old(slot)
    {
      if hasWindow {
        slot := Empty;
      }
    }
  }

  /** Without a window every call is allowed with remaining 5 and nothing is written. */
  lemma ServerSideAlwaysAllows(slot: Slot, now: int)
    ensures ClientCheck(slot, false, now) == (RateLimit.Decision(true, 5, now + 3600000), slot)
  {
  }

  /**
   * After `resetClientRateLimit` the next check opens a fresh window: allowed,
   * remaining 4, count 1 stored until one hour from now.
   */
  lemma ResetThenCheckIsFresh(now: int)
    ensures ClientCheck(Empty, true, now) == (RateLimit.Decision(true, 4, now + 3600000), Stored(1, now + 3600000))
  {
  }

  /** The stored record a server-side entry corresponds to. */
  function SlotOf(e: RateLimit.Entry): Slot
  {
    Stored(e.count, e.resetAt)
  }

  /**
   * The browser limiter decides exactly as the server limiter does for a
   * single session, and stores the entry the server would store.  Only an
   * unparsable item has no server counterpart; it behaves like a missing one.
   */
  lemma ClientAgreesWithServer(store: map<string, RateLimit.Entry>, sessionId: string, now: int)
    requires |store| <= RateLimit.CleanupThreshold
    ensures var slot := if sessionId in store then SlotOf(store[sessionId]) else Empty;
      var (d, slot') := ClientCheck(slot, true, now);
      var (d2, store') := RateLimit.Check(store, sessionId, now);
      d == d2 && sessionId in store' && slot' == SlotOf(store'[sessionId])
    ensures ClientCheck(Unparsable, true, now) == ClientCheck(Empty, true, now)
  {
  }
}
