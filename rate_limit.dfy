/**
 * The delay logic of the request throttle that every catalog GET passes
 * through. Clock readings (milliseconds) are parameters; the wait is
 * returned instead of slept.
 */
module RateLimit {

  /** Minimum spacing, in milliseconds, between the starts of two requests. */
  const REQUEST_DELAY: int := 100

  /**
   * How long a request issued at `now` waits when the previous one started
   * at `lastRequestTime`: nothing once the spacing has elapsed, otherwise
   * exactly the deficit.
   */
  function DelayBefore(lastRequestTime: int, now: int): (wait: nat)
    ensures wait == 0 <==> now - lastRequestTime >= REQUEST_DELAY
    ensures wait > 0 ==> now + wait == lastRequestTime + REQUEST_DELAY
    ensures now + wait >= lastRequestTime + REQUEST_DELAY
    ensures now >= lastRequestTime ==> wait <= REQUEST_DELAY
  {
    var sinceLast := now - lastRequestTime;
    if sinceLast < REQUEST_DELAY then REQUEST_DELAY - sinceLast else 0
  }

  /** The throttle's one piece of state: when the last request started. */
  class RateLimiter {
    var lastRequestTime: int

    constructor ()
      ensures lastRequestTime == 0
    {
      lastRequestTime := 0;
    }

    /**
     * The throttle part of rateLimitedFetch. `now` is the clock before the
     * wait, `resumedAt` the clock read again after it; that second reading
     * becomes the new start time. If the wait really elapsed, two
     * successive request starts are at least REQUEST_DELAY apart.
     */
    method Acquire(now: int, resumedAt: int) returns (wait: nat)
      modifies this
      ensures wait == DelayBefore(old(lastRequestTime), now)
      ensures lastRequestTime == resumedAt
      ensures resumedAt >= now + wait ==> lastRequestTime - old(lastRequestTime) >= REQUEST_DELAY
    {
      var timeSinceLastRequest := now - lastRequestTime;
      wait := 0;
      if timeSinceLastRequest < REQUEST_DELAY {
        wait := REQUEST_DELAY - timeSinceLastRequest;
      }
      lastRequestTime := resumedAt;
    }
  }

  /**
   * Over a run of requests whose start times each respect the throttle, the
   * span from the first start to the last is at least REQUEST_DELAY per gap.
   */
  lemma {:induction false} RequestsSpreadOut(starts: seq<int>)
    requires |starts| > 0
    requires forall k :: 0 < k < |starts| ==> starts[k] - starts[k - 1] >= REQUEST_DELAY
    ensures starts[|starts| - 1] - starts[0] >= REQUEST_DELAY * (|starts| - 1)
  {
    if |starts| > 1 {
      var init := starts[..|starts| - 1];
      assert forall k :: 0 < k < |init| ==> init[k] - init[k - 1] >= REQUEST_DELAY;
      RequestsSpreadOut(init);
    }
  }

  /**
   * The throttle over a run of requests: request k is issued at `nows[k]`
   * and starts at `starts[k]`, the clock reading after waiting
   * `DelayBefore(starts[k - 1], nows[k])`, which is what successive
   * `Acquire` calls record. Then n starts span at least REQUEST_DELAY per gap.
   */
  lemma {:induction false} ThrottledStartsSpreadOut(nows: seq<int>, starts: seq<int>)
    requires |starts| > 0 && |nows| == |starts|
    requires forall k :: 0 < k < |starts| ==> starts[k] >= nows[k] + DelayBefore(starts[k - 1], nows[k])
    ensures starts[|starts| - 1] - starts[0] >= REQUEST_DELAY * (|starts| - 1)
  {
    forall k | 0 < k < |starts|
      ensures starts[k] - starts[k - 1] >= REQUEST_DELAY
    {
      var wait := DelayBefore(starts[k - 1], nows[k]);
      assert nows[k] + wait >= starts[k - 1] + REQUEST_DELAY;
    }
    RequestsSpreadOut(starts);
  }
}
