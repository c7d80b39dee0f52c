/** The per-connector request scheduler (src/core/rateLimiter.ts). */
module RateLimiter {

  function Larger(a: real, b: real): real { if a >= b then a else b }

  /** When the k-th request is let through: at its arrival, or an interval after the one before
      it, whichever is later. A fresh limiter is available from time zero. */
  function Grant(arrivals: seq<real>, interval: real, k: nat): real
    requires k < |arrivals|
  {
    if k == 0 then Larger(arrivals[0], 0.0) else Larger(arrivals[k], Grant(arrivals, interval, k - 1) + interval)
  }

  class RateLimiter {
    const requestsPerSecond: real
    var nextAvailableAt: real

    constructor (requestsPerSecond: real)
      requires requestsPerSecond > 0.0
      ensures this.requestsPerSecond == requestsPerSecond && nextAvailableAt == 0.0
    {
      this.requestsPerSecond, nextAvailableAt := requestsPerSecond, 0.0;
    }

    function Interval(): real
      requires requestsPerSecond > 0.0
    {
      1000.0 / requestsPerSecond
    }

    /** `acquire`: how long the caller waits, after which the next slot is an interval away. */
    method Acquire(now: real) returns (wait: real)
      requires requestsPerSecond > 0.0
      modifies this
      ensures wait >= 0.0 && now + wait == Larger(now, old(nextAvailableAt))
      ensures nextAvailableAt == now + wait + Interval()
    {
      var at := if now >= nextAvailableAt then now else nextAvailableAt;
      nextAvailableAt := at + 1000.0 / requestsPerSecond;
      wait := at - now;
    }

    /** A fresh limiter asked at the given times grants at the scheduled times. */
    method Serve(arrivals: seq<real>) returns (granted: seq<real>)
      requires requestsPerSecond > 0.0 && nextAvailableAt == 0.0
      modifies this
      ensures |granted| == |arrivals|
      ensures forall k :: 0 <= k < |arrivals| ==> granted[k] == Grant(arrivals, 1000.0 / requestsPerSecond, k)
    {
      granted := [];
      for k := 0 to |arrivals|
        invariant |granted| == k
        invariant forall j :: 0 <= j < k ==> granted[j] == Grant(arrivals, Interval(), j)
        invariant nextAvailableAt == if k == 0 then 0.0 else Grant(arrivals, Interval(), k - 1) + Interval()
      {
        var wait := Acquire(arrivals[k]);
        granted := granted + [arrivals[k] + wait];
      }
    }
  }

  /** What request j alone forces on the k-th grant. */
  function Forced(arrivals: seq<real>, interval: real, j: nat, k: nat): real
    requires j <= k < |arrivals|
  {
    arrivals[j] + (k - j) as real * interval
  }

  /** The k-th grant is the latest time that any request up to it forces: the maximum over j of
      arrival j plus k - j intervals. */
  lemma {:induction false} GrantClosedForm(arrivals: seq<real>, interval: real, k: nat)
    requires k < |arrivals| && interval > 0.0 && arrivals[0] >= 0.0
    ensures forall j :: 0 <= j <= k ==> Grant(arrivals, interval, k) >= Forced(arrivals, interval, j, k)
    ensures exists j :: 0 <= j <= k && Grant(arrivals, interval, k) == Forced(arrivals, interval, j, k)
  {
    if k == 0 {
      assert Grant(arrivals, interval, 0) == Forced(arrivals, interval, 0, 0);
    } else {
      GrantClosedForm(arrivals, interval, k - 1);
      forall j | 0 <= j < k ensures Forced(arrivals, interval, j, k) == Forced(arrivals, interval, j, k - 1) + interval {
        OneMoreInterval(k - 1 - j, interval);
      }
      if Grant(arrivals, interval, k) == arrivals[k] {
        assert Grant(arrivals, interval, k) == Forced(arrivals, interval, k, k);
      } else {
        var j :| 0 <= j <= k - 1 && Grant(arrivals, interval, k - 1) == Forced(arrivals, interval, j, k - 1);
        assert Grant(arrivals, interval, k) == Forced(arrivals, interval, j, k);
      }
    }
  }

  lemma OneMoreInterval(n: nat, interval: real)
    ensures (n + 1) as real * interval == n as real * interval + interval
  {
    assert (n + 1) as real == n as real + 1.0;
  }

  /** Grants are at least an interval apart for every request between them. */
  lemma {:induction false} Spacing(arrivals: seq<real>, interval: real, i: nat, j: nat)
    requires i <= j < |arrivals| && interval > 0.0
    ensures Grant(arrivals, interval, j) >= Grant(arrivals, interval, i) + (j - i) as real * interval
    decreases j - i
  {
    if i < j {
      Spacing(arrivals, interval, i, j - 1);
      OneMoreInterval(j - 1 - i, interval);
    }
  }

  /** Any window of length `w` contains at most floor(w / interval) + 1 grants. */
  lemma WindowBound(arrivals: seq<real>, interval: real, i: nat, j: nat, w: real)
    requires i <= j < |arrivals| && interval > 0.0 && w >= 0.0
    requires Grant(arrivals, interval, j) - Grant(arrivals, interval, i) <= w
    ensures j - i + 1 <= (w / interval).Floor + 1
  {
    Spacing(arrivals, interval, i, j);
    FitsFloor(j - i, Grant(arrivals, interval, j) - Grant(arrivals, interval, i), w, interval);
  }

  lemma FitsFloor(n: int, gap: real, w: real, interval: real)
    requires interval > 0.0 && n as real * interval <= gap <= w
    ensures n <= (w / interval).Floor
  {
    AtMost(n as real, w, interval);
    UnderFloor(n, w / interval);
  }

  lemma UnderFloor(n: int, q: real)
    requires n as real <= q
    ensures n <= q.Floor
  {
  }

  lemma AtMost(n: real, w: real, interval: real)
    requires interval > 0.0 && n * interval <= w
    ensures n <= w / interval
  {
    var q := w / interval;
    assert q * interval == w;
    assert (n - q) * interval <= 0.0;
    NotPositive(n - q, interval);
  }

  lemma NotPositive(d: real, interval: real)
    requires interval > 0.0 && d * interval <= 0.0
    ensures d <= 0.0
  {
  }

  /** Any schedule that serves nobody early and keeps the spacing. */
  ghost predicate Admissible(arrivals: seq<real>, interval: real, schedule: seq<real>) {
    && |schedule| == |arrivals|
    && (forall k :: 0 <= k < |arrivals| ==> schedule[k] >= arrivals[k] && schedule[k] >= 0.0)
    && (forall k :: 0 < k < |arrivals| ==> schedule[k] >= schedule[k - 1] + interval)
  }

  /** No grant is later than it has to be: every admissible schedule is at least as late. */
  lemma {:induction false} NoLaterThanNeeded(arrivals: seq<real>, interval: real, schedule: seq<real>, k: nat)
    requires Admissible(arrivals, interval, schedule) && k < |arrivals|
    ensures Grant(arrivals, interval, k) <= schedule[k]
  {
    if k > 0 { NoLaterThanNeeded(arrivals, interval, schedule, k - 1); }
  }
}
