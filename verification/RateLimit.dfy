/** The per-identity sliding-window limiter. */
module RateLimit {
  datatype Call = Call(identity: string, at: int)

  /** Drop timestamps from the front while they are older than the window. */
  function Prune(bucket: seq<int>, start: int): seq<int> {
    if bucket != [] && bucket[0] < start then Prune(bucket[1..], start) else bucket
  }

  function Bucket(log: map<string, seq<int>>, identity: string): seq<int> {
    if identity in log then log[identity] else []
  }

  class RateLimiter {
    const maxRequests: int
    const window: int
    var requestLog: map<string, seq<int>>

    constructor (maxRequests: int, window: int)
      ensures this.maxRequests == maxRequests && this.window == window && requestLog == map[]
    {
      this.maxRequests, this.window := maxRequests, window;
      requestLog := map[];
    }

    /** Pops stale timestamps even when it then refuses; every other identity's bucket stays as it was. */
    method Check(call: Call) returns (accepted: bool)
      modifies this
      ensures accepted == Admits(Bucket(old(requestLog), call.identity), call.at, maxRequests, window)
      ensures requestLog == After(old(requestLog), call, maxRequests, window)
    {
      var windowStart := call.at - window;
      var bucket := Bucket(requestLog, call.identity);
      while bucket != [] && bucket[0] < windowStart
        invariant Prune(bucket, windowStart) == Prune(Bucket(requestLog, call.identity), windowStart)
        decreases |bucket|
      {
        bucket := bucket[1..];
      }
      accepted := |bucket| < maxRequests;
      if accepted {
        bucket := bucket + [call.at];
      }
      requestLog := requestLog[call.identity := bucket];
    }
  }

  predicate Admits(bucket: seq<int>, now: int, maxRequests: int, window: int) {
    |Prune(bucket, now - window)| < maxRequests
  }

  function After(log: map<string, seq<int>>, call: Call, maxRequests: int, window: int): map<string, seq<int>> {
    var bucket := Bucket(log, call.identity);
    var kept := Prune(bucket, call.at - window);
    log[call.identity := if Admits(bucket, call.at, maxRequests, window) then kept + [call.at] else kept]
  }

  /** The limiter's buckets beside the full history of what it accepted. */
  datatype History = History(log: map<string, seq<int>>, accepted: map<string, seq<int>>)

  function Replay(calls: seq<Call>, maxRequests: int, window: int): History {
    if calls == [] then History(map[], map[]) else
    var before := Replay(calls[..|calls| - 1], maxRequests, window);
    var call := calls[|calls| - 1];
    var all := Bucket(before.accepted, call.identity);
    History(After(before.log, call, maxRequests, window),
            if Admits(Bucket(before.log, call.identity), call.at, maxRequests, window)
            then before.accepted[call.identity := all + [call.at]] else before.accepted)
  }

  /** How many of `times` lie in the closed interval [lo, hi]. */
  function Within(times: seq<int>, lo: int, hi: int): nat {
    if times == [] then 0
    else Within(times[..|times| - 1], lo, hi) + if lo <= times[|times| - 1] <= hi then 1 else 0
  }

  ghost predicate Sorted(times: seq<int>) { forall i, j :: 0 <= i < j < |times| ==> times[i] <= times[j] }

  ghost predicate Upto(times: seq<int>, now: int) { forall i :: 0 <= i < |times| ==> times[i] <= now }

  ghost predicate Since(times: seq<int>, start: int) { forall i :: 0 <= i < |times| ==> start <= times[i] }

  ghost predicate Monotone(calls: seq<Call>) { forall i, j :: 0 <= i < j < |calls| ==> calls[i].at <= calls[j].at }

  /** The bucket is the recent end of the history: what was dropped is older than any window from `now` on. */
  ghost predicate Refines(bucket: seq<int>, all: seq<int>, now: int, window: int) {
    && Sorted(all) && Upto(all, now)
    && |bucket| <= |all| && bucket == all[|all| - |bucket|..]
    && forall i :: 0 <= i < |all| - |bucket| ==> all[i] < now - window
  }

  /** No closed interval of the window's length holds more than the limit. */
  ghost predicate Bounded(all: seq<int>, maxRequests: int, window: int) {
    forall lo, hi :: hi - lo <= window ==> Within(all, lo, hi) <= Limit(maxRequests)
  }

  function Limit(maxRequests: int): nat { if maxRequests < 0 then 0 else maxRequests }

  lemma {:induction false} PruneRefines(bucket: seq<int>, all: seq<int>, last: int, now: int, window: int)
    requires Refines(bucket, all, last, window) && last <= now
    ensures Refines(Prune(bucket, now - window), all, now, window)
    ensures Since(Prune(bucket, now - window), now - window)
    decreases |bucket|
  {
    var k := |all| - |bucket|;
    if bucket != [] && bucket[0] < now - window {
      var tail := bucket[1..];
      assert tail == all[k + 1..] && all[k] == bucket[0];
      PruneRefines(tail, all, now, now, window);
    } else {
      forall i | 0 <= i < |bucket| ensures now - window <= bucket[i] {
        assert all[k] == bucket[0] && all[k + i] == bucket[i];
      }
    }
  }

  lemma WithinLast(times: seq<int>, x: int, lo: int, hi: int)
    ensures Within(times + [x], lo, hi) == Within(times, lo, hi) + if lo <= x <= hi then 1 else 0
  {
    assert (times + [x])[..|times|] == times;
  }

  /** The pruned bucket's length is the number of accepted requests in the window ending now. */
  lemma {:induction false} RecentCount(kept: seq<int>, all: seq<int>, now: int, window: int)
    requires Refines(kept, all, now, window) && Since(kept, now - window)
    ensures Within(all, now - window, now) == |kept|
    decreases |all|
  {
    if all != [] {
      var n := |all| - 1;
      if kept == [] {
        RecentCount([], all[..n], now, window);
      } else {
        var kept' := kept[..|kept| - 1];
        assert kept[|kept| - 1] == all[n];
        assert kept' == all[..n][n - |kept'|..];
        RecentCount(kept', all[..n], now, window);
      }
    }
  }

  lemma {:induction false} NarrowerCount(times: seq<int>, lo: int, hi: int, now: int, from: int)
    requires from <= lo && Upto(times, now)
    ensures Within(times, lo, hi) <= Within(times, from, now)
    decreases |times|
  {
    if times != [] {
      NarrowerCount(times[..|times| - 1], lo, hi, now, from);
    }
  }

  lemma AcceptBounded(all: seq<int>, now: int, maxRequests: int, window: int)
    requires Bounded(all, maxRequests, window) && Upto(all, now)
    requires Within(all, now - window, now) < maxRequests
    ensures Bounded(all + [now], maxRequests, window)
  {
    forall lo, hi | hi - lo <= window ensures Within(all + [now], lo, hi) <= Limit(maxRequests) {
      WithinLast(all, now, lo, hi);
      if lo <= now <= hi {
        NarrowerCount(all, lo, hi, now, now - window);
      }
    }
  }

  ghost predicate Sound(bucket: seq<int>, all: seq<int>, now: int, maxRequests: int, window: int) {
    Refines(bucket, all, now, window) && Bounded(all, maxRequests, window)
  }

  ghost predicate HistorySound(h: History, identity: string, now: int, maxRequests: int, window: int) {
    Sound(Bucket(h.log, identity), Bucket(h.accepted, identity), now, maxRequests, window)
  }

  /** What one call by this identity does to its bucket and history. */
  lemma OwnCallSound(bucket: seq<int>, all: seq<int>, now: int, maxRequests: int, window: int)
    requires Sound(bucket, all, now, maxRequests, window)
    ensures var kept := Prune(bucket, now - window);
      && Sound(kept, all, now, maxRequests, window)
      && Within(all, now - window, now) == |kept|
      && (|kept| < maxRequests ==> Sound(kept + [now], all + [now], now, maxRequests, window))
  {
    var kept := Prune(bucket, now - window);
    PruneRefines(bucket, all, now, now, window);
    RecentCount(kept, all, now, window);
    if |kept| < maxRequests {
      AcceptBounded(all, now, maxRequests, window);
      assert kept + [now] == (all + [now])[|all| - |kept|..];
    }
  }

  lemma ReplayStep(calls: seq<Call>, call: Call, identity: string, maxRequests: int, window: int)
    ensures var h, h' := Replay(calls, maxRequests, window), Replay(calls + [call], maxRequests, window);
      var bucket, all := Bucket(h.log, identity), Bucket(h.accepted, identity);
      var bucket', all' := Bucket(h'.log, identity), Bucket(h'.accepted, identity);
      var kept := Prune(bucket, call.at - window);
      if call.identity != identity then bucket' == bucket && all' == all
      else if |kept| < maxRequests then bucket' == kept + [call.at] && all' == all + [call.at]
      else bucket' == kept && all' == all
  {
    assert (calls + [call])[..|calls|] == calls;
  }

  /** One more call, whoever made it, keeps an identity's bucket and history sound. */
  lemma CallSound(bucket: seq<int>, all: seq<int>, calls: seq<Call>, call: Call, identity: string, maxRequests: int,
                  window: int)
    requires bucket == Bucket(Replay(calls, maxRequests, window).log, identity)
    requires all == Bucket(Replay(calls, maxRequests, window).accepted, identity)
    requires Sound(bucket, all, call.at, maxRequests, window)
    ensures HistorySound(Replay(calls + [call], maxRequests, window), identity, call.at, maxRequests, window)
  {
    ReplayStep(calls, call, identity, maxRequests, window);
    OwnCallSound(bucket, all, call.at, maxRequests, window);
  }

  lemma CallSoundAt(calls: seq<Call>, call: Call, identity: string, maxRequests: int, window: int)
    requires HistorySound(Replay(calls, maxRequests, window), identity, call.at, maxRequests, window)
    ensures HistorySound(Replay(calls + [call], maxRequests, window), identity, call.at, maxRequests, window)
  {
    var h := Replay(calls, maxRequests, window);
    CallSound(Bucket(h.log, identity), Bucket(h.accepted, identity), calls, call, identity, maxRequests, window);
  }

  lemma SoundLater(bucket: seq<int>, all: seq<int>, last: int, now: int, maxRequests: int, window: int)
    requires Sound(bucket, all, last, maxRequests, window) && last <= now
    ensures Sound(bucket, all, now, maxRequests, window)
  {
  }

  lemma {:induction false} ReplaySound(calls: seq<Call>, identity: string, now: int, maxRequests: int, window: int)
    requires Monotone(calls) && (calls != [] ==> calls[|calls| - 1].at <= now)
    ensures HistorySound(Replay(calls, maxRequests, window), identity, now, maxRequests, window)
    decreases |calls|
  {
    if calls != [] {
      var before, call := calls[..|calls| - 1], calls[|calls| - 1];
      assert before + [call] == calls;
      ReplaySound(before, identity, call.at, maxRequests, window);
      CallSoundAt(before, call, identity, maxRequests, window);
      var h := Replay(calls, maxRequests, window);
      SoundLater(Bucket(h.log, identity), Bucket(h.accepted, identity), call.at, now, maxRequests, window);
    }
  }

  lemma AdmitsExactly(bucket: seq<int>, all: seq<int>, now: int, maxRequests: int, window: int)
    requires Sound(bucket, all, now, maxRequests, window)
    ensures Admits(bucket, now, maxRequests, window) <==> Within(all, now - window, now) < maxRequests
    ensures Bounded(all, maxRequests, window)
  {
    OwnCallSound(bucket, all, now, maxRequests, window);
  }

  /**
  With a clock that never runs back: a request is refused exactly when `maxRequests` accepted ones lie in the
  closed window ending at it, and no closed interval of that length ever holds more than `maxRequests`.
  */
  lemma SlidingWindow(calls: seq<Call>, next: Call, maxRequests: int, window: int)
    requires Monotone(calls) && (calls != [] ==> calls[|calls| - 1].at <= next.at)
    ensures var h := Replay(calls, maxRequests, window);
      Admits(Bucket(h.log, next.identity), next.at, maxRequests, window) <==>
      Within(Bucket(h.accepted, next.identity), next.at - window, next.at) < maxRequests
    ensures Bounded(Bucket(Replay(calls, maxRequests, window).accepted, next.identity), maxRequests, window)
  {
    ReplaySound(calls, next.identity, next.at, maxRequests, window);
    var h := Replay(calls, maxRequests, window);
    AdmitsExactly(Bucket(h.log, next.identity), Bucket(h.accepted, next.identity), next.at, maxRequests, window);
  }
}
