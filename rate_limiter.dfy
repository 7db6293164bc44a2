/**
 * backend/app/middleware/rate_limiter.py: the in-memory sliding-window limiter.
 * Times are whole seconds passed in by the caller (the source reads `time()`).
 */
module RateLimiter {
  import opened Strings
  import opened Config

  /** A client is identified by its IP address. */
  type Client = string

  /** Sorted ascending (non-decreasing). */
  predicate Sorted(s: seq<int>) {
    forall i, j :: 0 <= i <= j < |s| ==> s[i] <= s[j]
  }

  // ---------------------------------------------------------------- purging

  /**
   * The comprehension at lines 25-28: the timestamps younger than the window,
   * in their original order. Written from the end so that a loop over the
   * list extends it one element at a time.
   */
  function Purge(ts: seq<int>, now: int, window: int): (kept: seq<int>)
    ensures |kept| <= |ts|
    ensures forall i :: 0 <= i < |kept| ==> now - kept[i] < window && kept[i] in ts
    decreases |ts|
  {
    if ts == [] then []
    else
      var last := ts[|ts| - 1];
      Purge(ts[..|ts| - 1], now, window) + (if now - last < window then [last] else [])
  }

  /** A timestamp survives the purge exactly when it was stored and is younger than the window. */
  lemma {:induction false} PurgeMembers(ts: seq<int>, now: int, window: int, t: int)
    ensures t in Purge(ts, now, window) <==> t in ts && now - t < window
    decreases |ts|
  {
    if ts != [] {
      var init := ts[..|ts| - 1];
      PurgeMembers(init, now, window, t);
      assert ts == init + [ts[|ts| - 1]];
    }
  }

  /** A timestamp exactly `window` seconds old is dropped. */
  lemma PurgeDropsExpired(ts: seq<int>, now: int, window: int)
    ensures now - window !in Purge(ts, now, window)
  {
    PurgeMembers(ts, now, window, now - window);
  }

  /** When every stored timestamp is still inside the window, nothing is dropped. */
  lemma {:induction false} PurgeAllFresh(ts: seq<int>, now: int, window: int)
    requires forall i :: 0 <= i < |ts| ==> now - ts[i] < window
    ensures Purge(ts, now, window) == ts
    decreases |ts|
  {
    if ts != [] {
      PurgeAllFresh(ts[..|ts| - 1], now, window);
      assert ts == ts[..|ts| - 1] + [ts[|ts| - 1]];
    }
  }

  /** When every stored timestamp is at least `window` old, everything is dropped. */
  lemma PurgeAllStale(ts: seq<int>, now: int, window: int)
    requires forall i :: 0 <= i < |ts| ==> now - ts[i] >= window
    ensures Purge(ts, now, window) == []
  {
  }

  lemma SortedPrefix(s: seq<int>, n: nat)
    requires Sorted(s) && n <= |s|
    ensures Sorted(s[..n])
  {
    forall i, j | 0 <= i <= j < n ensures s[..n][i] <= s[..n][j] {
      assert s[..n][i] == s[i] && s[..n][j] == s[j];
    }
  }

  lemma SortedTail(s: seq<int>)
    requires Sorted(s) && s != []
    ensures Sorted(s[1..])
  {
    forall i, j | 0 <= i <= j < |s| - 1 ensures s[1..][i] <= s[1..][j] {
      assert s[1..][i] == s[i + 1] && s[1..][j] == s[j + 1];
    }
  }

  /** On a sorted list the purge drops a prefix: the oldest timestamps go first. */
  lemma {:induction false} PurgeSortedSuffix(ts: seq<int>, now: int, window: int) returns (k: nat)
    requires Sorted(ts)
    ensures k <= |ts| && Purge(ts, now, window) == ts[k..]
    decreases |ts|
  {
    if ts == [] {
      k := 0;
    } else {
      var init := ts[..|ts| - 1];
      var last := ts[|ts| - 1];
      if now - last < window {
        SortedPrefix(ts, |ts| - 1);
        k := PurgeSortedSuffix(init, now, window);
        assert ts[k..] == init[k..] + [last];
      } else {
        forall i | 0 <= i < |init| ensures now - init[i] >= window {
          assert init[i] == ts[i] <= last;
        }
        PurgeAllStale(init, now, window);
        k := |ts|;
      }
    }
  }

  /** A sorted history stays sorted after the purge. */
  lemma PurgeSorted(ts: seq<int>, now: int, window: int)
    requires Sorted(ts)
    ensures Sorted(Purge(ts, now, window))
  {
    var k := PurgeSortedSuffix(ts, now, window);
    var kept := ts[k..];
    forall i, j | 0 <= i <= j < |kept| ensures kept[i] <= kept[j] {
      assert kept[i] == ts[k + i] && kept[j] == ts[k + j];
    }
  }

  // ---------------------------------------------------------------- one request

  /** What `dispatch` does with a request: let it through, or raise an HTTP error. */
  datatype Decision = Admitted | Rejected(status: int, detail: string)

  /** Lines 33-36: the 429 error. */
  function RejectDetail(limit: int, window: int): string {
    "Rate limit exceeded. Maximum " + IntToString(limit) + " requests per "
      + IntToString(window) + " seconds."
  }

  /**
   * One request of one client: purge, then reject when the purged list already
   * holds `limit` timestamps, else record `now`. Yields the client's new list.
   */
  function Step(ts: seq<int>, now: int, limit: int, window: int): (seq<int>, Decision) {
    var kept := Purge(ts, now, window);
    if |kept| >= limit then (kept, Rejected(429, RejectDetail(limit, window)))
    else (kept + [now], Admitted)
  }

  /**
   * A request is rejected, with status 429, exactly when the purged list is full;
   * a rejected request leaves the purged list stored without `now`, and an
   * admitted one appends `now` as the last element, one more than the purged list.
   */
  lemma StepOutcome(ts: seq<int>, now: int, limit: int, window: int)
    ensures var (next, d) := Step(ts, now, limit, window); var kept := Purge(ts, now, window);
      && (d.Rejected? <==> |kept| >= limit)
      && (d.Rejected? ==> d.status == 429 && next == kept)
      && (d.Admitted? ==> next == kept + [now] && |next| == |kept| + 1 && next[|next| - 1] == now)
  {
  }

  function Max0(n: int): nat {
    if n < 0 then 0 else n
  }

  /** A history within the limit stays within it; a limit of 0 or less admits no request. */
  lemma StepBounded(ts: seq<int>, now: int, limit: int, window: int)
    requires |ts| <= Max0(limit)
    ensures |Step(ts, now, limit, window).0| <= Max0(limit)
    ensures limit <= 0 ==> Step(ts, now, limit, window).1.Rejected?
  {
  }

  /** With `now` no earlier than any stored timestamp, a sorted history stays sorted. */
  lemma StepSorted(ts: seq<int>, now: int, limit: int, window: int)
    requires Sorted(ts)
    requires forall i :: 0 <= i < |ts| ==> ts[i] <= now
    ensures Sorted(Step(ts, now, limit, window).0)
  {
    PurgeSorted(ts, now, window);
    var kept := Purge(ts, now, window);
    var next := kept + [now];
    forall i, j | 0 <= i <= j < |next| ensures next[i] <= next[j] {
      if j == |kept| && i < |kept| {
        assert kept[i] in ts;
      }
    }
  }

  /** A client that has been silent for at least a whole window is admitted again, if the limit is positive. */
  lemma StepAfterQuietWindow(ts: seq<int>, now: int, limit: int, window: int)
    requires forall i :: 0 <= i < |ts| ==> now - ts[i] >= window
    ensures Step(ts, now, limit, window).1.Admitted? <==> limit > 0
    ensures limit > 0 ==> Step(ts, now, limit, window).0 == [now]
  {
    PurgeAllStale(ts, now, window);
  }

  // ---------------------------------------------------------------- a run of requests

  /** The decisions for a run of requests of one client at the given times, starting from history `ts`. */
  function Replay(ts: seq<int>, times: seq<int>, limit: int, window: int): (ds: seq<Decision>)
    ensures |ds| == |times|
    decreases |times|
  {
    if times == [] then []
    else
      var (next, d) := Step(ts, times[0], limit, window);
      [d] + Replay(next, times[1..], limit, window)
  }

  /** Every timestamp of `ts` is no later than `first` and less than `window` before `last`. */
  predicate InWindow(ts: seq<int>, first: int, last: int, window: int) {
    forall i :: 0 <= i < |ts| ==> ts[i] <= first && last - ts[i] < window
  }

  /**
   * One request at `now` after a history inside the window that ends at `last`:
   * nothing is purged, the request is admitted exactly when the history holds
   * fewer than `limit` timestamps, and the new history is inside the window for
   * any later request at `next` up to `last`.
   */
  lemma StepInsideWindow(ts: seq<int>, now: int, next: int, last: int, limit: int, window: int)
    requires InWindow(ts, now, last, window) && now <= next <= last && last - now < window
    ensures var (h, d) := Step(ts, now, limit, window);
      && (d.Admitted? <==> |ts| < limit)
      && |h| == (if |ts| < limit then |ts| + 1 else |ts|)
      && InWindow(h, next, last, window)
  {
    PurgeAllFresh(ts, now, window);
  }

  /**
   * Requests that all fall inside one window, arriving in order after a history
   * that is also inside that window: request `i` is admitted exactly when fewer
   * than `limit` timestamps (held before plus admitted since) precede it.
   */
  lemma {:induction false} ReplayInsideWindow(ts: seq<int>, times: seq<int>, limit: int, window: int)
    requires times != [] && Sorted(times)
    requires InWindow(ts, times[0], times[|times| - 1], window)
    requires times[|times| - 1] - times[0] < window
    ensures forall i :: 0 <= i < |times| ==> (Replay(ts, times, limit, window)[i].Admitted? <==> |ts| + i < limit)
    decreases |times|
  {
    var last := times[|times| - 1];
    var (h, d) := Step(ts, times[0], limit, window);
    var ds := Replay(ts, times, limit, window);
    if |times| == 1 {
      StepInsideWindow(ts, times[0], times[0], last, limit, window);
    } else {
      var rest := times[1..];
      StepInsideWindow(ts, times[0], rest[0], last, limit, window);
      SortedTail(times);
      assert rest[|rest| - 1] == last;
      ReplayInsideWindow(h, rest, limit, window);
      var dsRest := Replay(h, rest, limit, window);
      assert ds == [d] + dsRest;
      assert |h| == (if |ts| < limit then |ts| + 1 else |ts|);
      forall i | 1 <= i < |ds| ensures ds[i].Admitted? <==> |ts| + i < limit {
        assert ds[i] == dsRest[i - 1];
        assert dsRest[i - 1].Admitted? <==> |h| + (i - 1) < limit;
      }
    }
  }

  /** Starting with no history, `limit` requests inside one window are admitted and the next one is rejected. */
  lemma LimitThenReject(times: seq<int>, limit: nat, window: int)
    requires |times| == limit + 1 && Sorted(times)
    requires times[limit] - times[0] < window
    ensures var ds := Replay([], times, limit, window);
      (forall i :: 0 <= i < limit ==> ds[i].Admitted?) && ds[limit].Rejected?
  {
    ReplayInsideWindow([], times, limit, window);
  }

  // ---------------------------------------------------------------- the middleware object

  class RateLimiter {
    const requestsLimit: int
    const windowSeconds: int
    /** `self.requests`, a `defaultdict(list)`: a missing client reads as `[]`. */
    var requests: map<Client, seq<int>>

    /** Every stored history is within the limit. */
    ghost predicate Valid()
      reads this
    {
      forall c :: c in requests ==> |requests[c]| <= Max0(requestsLimit)
    }

    /** The client's history as the `defaultdict` returns it. */
    function History(client: Client): seq<int>
      reads this
    {
      if client in requests then requests[client] else []
    }

    /** Lines 13-17: the limit, the window, and an empty map. */
    constructor(requestsLimit: int, windowSeconds: int)
      ensures this.requestsLimit == requestsLimit && this.windowSeconds == windowSeconds
      ensures requests == map[]
      ensures Valid()
    {
      this.requestsLimit := requestsLimit;
      this.windowSeconds := windowSeconds;
      requests := map[];
    }

    /**
     * Lines 19-39 without forwarding the request: the client's entry is replaced
     * by its purged list, then `now` is appended unless the request is rejected.
     * No other client's entry changes, and the bound on every history is kept.
     */
    method Dispatch(client: Client, now: int) returns (d: Decision)
      modifies this
      ensures var (next, decision) := Step(old(History(client)), now, requestsLimit, windowSeconds);
        d == decision && requests == old(requests)[client := next]
      ensures old(Valid()) ==> Valid()
    {
      var ts := History(client);
      var kept: seq<int> := [];
      var i := 0;
      while i < |ts|
        invariant 0 <= i <= |ts|
        invariant kept == Purge(ts[..i], now, windowSeconds)
      {
        assert ts[..i + 1][..i] == ts[..i];
        if now - ts[i] < windowSeconds {
          kept := kept + [ts[i]];
        }
        i := i + 1;
      }
      assert ts[..i] == ts;
      requests := requests[client := kept];
      if |kept| >= requestsLimit {
        d := Rejected(429, RejectDetail(requestsLimit, windowSeconds));
        return;
      }
      requests := requests[client := kept + [now]];
      d := Admitted;
      if old(Valid()) {
        StepBounded(ts, now, requestsLimit, windowSeconds);
      }
    }
  }

  /**
   * backend/app/__init__.py:64-69: the limiter is installed only when
   * `RATE_LIMIT_ENABLED` is set, with the limit and window from the settings.
   */
  method Install(s: Settings) returns (l: RateLimiter?)
    ensures l == null <==> !s.rateLimitEnabled
    ensures l != null ==>
      && fresh(l) && l.requestsLimit == s.rateLimitRequests
      && l.windowSeconds == s.rateLimitWindow && l.requests == map[] && l.Valid()
  {
    if s.rateLimitEnabled {
      l := new RateLimiter(s.rateLimitRequests, s.rateLimitWindow);
    } else {
      l := null;
    }
  }
}
