/** The sliding-window limiter: a pruned deque per key, and why it answers like the full history of accepted hits. */
module RateLimit {
  import opened Prelude

  /** `Broken` is the index error of an empty window refused by a non-positive limit. */
  datatype Answer = Allowed | Denied(retryAfter: int) | Broken

  function Ceil(x: real): int {
    -((-x).Floor)
  }

  // ---- one key ----------------------------------------------------------------------------

  function Prune(window: seq<real>, cutoff: real): seq<real> {
    if window != [] && window[0] <= cutoff then Prune(window[1..], cutoff) else window
  }

  function RetryAfter(oldest: real, span: real, now: real): int {
    var wait := Ceil(oldest + span - now);
    if wait >= 1 then wait else 1
  }

  /** The deque after a hit, and the answer. */
  function Hit(window: seq<real>, limit: int, span: real, now: real): (seq<real>, Answer) {
    var live := Prune(window, now - span);
    if |live| >= limit then (live, if live == [] then Broken else Denied(RetryAfter(live[0], span, now)))
    else (live + [now], Allowed)
  }

  // ---- the object -------------------------------------------------------------------------

  lemma PruneFirst(window: seq<real>, cutoff: real, i: nat)
    requires i <= |window| && forall k :: 0 <= k < i ==> window[k] <= cutoff
    ensures Prune(window, cutoff) == Prune(window[i..], cutoff)
  {
    if i > 0 {
      PruneFirst(window[1..], cutoff, i - 1);
      assert window[1..][i - 1..] == window[i..];
    }
  }

  class SlidingWindowLimiter {
    var hits: map<string, seq<real>>

    constructor ()
      ensures hits == map[]
    {
      hits := map[];
    }

    function Window(key: string): seq<real>
      reads this
    {
      if key in hits then hits[key] else []
    }

    /** Drop the expired hits of the key, then refuse or record; no other key is touched. */
    method Check(key: string, limit: int, span: real, now: real) returns (answer: Answer)
      modifies this
      ensures (Window(key), answer) == Hit(old(Window(key)), limit, span, now)
      ensures forall other :: other != key ==> Window(other) == old(Window(other))
    {
      var window := Window(key);
      var cutoff := now - span;
      while window != [] && window[0] <= cutoff
        invariant Prune(window, cutoff) == Prune(old(Window(key)), cutoff)
        decreases |window|
      {
        window := window[1..];
      }
      hits := hits[key := window];
      if |window| >= limit {
        if window == [] {
          return Broken;
        }
        var wait := Ceil(window[0] + span - now);
        return Denied(if 1 >= wait then 1 else wait);
      }
      hits := hits[key := window + [now]];
      answer := Allowed;
    }
  }

  // ---- runs against the full history -----------------------------------------------------------

  /** The limiter's deque after a series of hits. */
  function Deque(limit: int, span: real, times: seq<real>): seq<real> {
    if times == [] then []
    else Hit(Deque(limit, span, times[..|times| - 1]), limit, span, times[|times| - 1]).0
  }

  /** Accepted hits within (now - span, now]. */
  function Recent(accepted: seq<real>, cutoff: real): nat {
    if accepted == [] then 0
    else Recent(accepted[..|accepted| - 1], cutoff) + if accepted[|accepted| - 1] > cutoff then 1 else 0
  }

  /** The reference: every accepted hit is kept for ever, and a hit is accepted when fewer than `limit` are recent. */
  function Accepted(limit: int, span: real, times: seq<real>): seq<real> {
    if times == [] then []
    else
      var before, now := Accepted(limit, span, times[..|times| - 1]), times[|times| - 1];
      if Recent(before, now - span) >= limit then before else before + [now]
  }

  ghost predicate Monotone(times: seq<real>) {
    forall i, j :: 0 <= i <= j < |times| ==> times[i] <= times[j]
  }

  /** What the deque keeps of the accepted hits: all but a prefix that has expired. */
  ghost predicate Keeps(window: seq<real>, accepted: seq<real>, cutoff: real) {
    && |window| <= |accepted| && window == accepted[|accepted| - |window|..]
    && forall i :: 0 <= i < |accepted| - |window| ==> accepted[i] <= cutoff
  }

  lemma {:induction false} PruneKeeps(window: seq<real>, accepted: seq<real>, old_: real, cutoff: real)
    requires Monotone(accepted) && Keeps(window, accepted, old_) && old_ <= cutoff
    ensures Keeps(Prune(window, cutoff), accepted, cutoff)
    ensures Prune(window, cutoff) != [] ==> Prune(window, cutoff)[0] > cutoff
    decreases |window|
  {
    if window != [] && window[0] <= cutoff {
      var n := |accepted| - |window|;
      assert window[0] == accepted[n];
      assert window[1..] == accepted[n + 1..];
      assert forall i :: 0 <= i < n + 1 ==> accepted[i] <= cutoff;
      PruneKeeps(window[1..], accepted, cutoff, cutoff);
    }
  }

  lemma {:induction false} RecentSplit(accepted: seq<real>, k: nat, cutoff: real)
    requires k <= |accepted|
    requires forall i :: 0 <= i < k ==> accepted[i] <= cutoff
    requires forall i :: k <= i < |accepted| ==> accepted[i] > cutoff
    ensures Recent(accepted, cutoff) == |accepted| - k
  {
    if accepted != [] {
      var n := |accepted| - 1;
      RecentSplit(accepted[..n], if k <= n then k else n, cutoff);
    }
  }

  /** After pruning, the deque is exactly the recent accepted hits. */
  lemma PrunedCountsRecent(window: seq<real>, accepted: seq<real>, old_: real, cutoff: real)
    requires Monotone(accepted) && Keeps(window, accepted, old_) && old_ <= cutoff
    ensures |Prune(window, cutoff)| == Recent(accepted, cutoff)
  {
    PruneKeeps(window, accepted, old_, cutoff);
    var live := Prune(window, cutoff);
    var k := |accepted| - |live|;
    forall i | k <= i < |accepted|
      ensures accepted[i] > cutoff
    {
      assert live[0] == accepted[k];
    }
    RecentSplit(accepted, k, cutoff);
  }

  ghost predicate Bounded(accepted: seq<real>, latest: real) {
    forall i :: 0 <= i < |accepted| ==> accepted[i] <= latest
  }

  /** Deque and history after a hit at `latest`. */
  ghost predicate Mirrors(window: seq<real>, accepted: seq<real>, span: real, latest: real) {
    Monotone(accepted) && Keeps(window, accepted, latest - span) && Bounded(accepted, latest)
  }

  lemma KeepsSnoc(window: seq<real>, accepted: seq<real>, cutoff: real, now: real)
    requires Keeps(window, accepted, cutoff) && Monotone(accepted) && Bounded(accepted, now)
    ensures Keeps(window + [now], accepted + [now], cutoff) && Monotone(accepted + [now]) && Bounded(accepted + [now], now)
  {
    var a := accepted + [now];
    assert a[|a| - |window + [now]|..] == window + [now];
  }

  lemma BoundedLater(accepted: seq<real>, a: real, b: real)
    requires Bounded(accepted, a) && a <= b
    ensures Bounded(accepted, b)
  {
  }

  lemma HitMirrors(window: seq<real>, accepted: seq<real>, limit: int, span: real, latest: real, now: real)
    requires Mirrors(window, accepted, span, latest) && latest <= now
    ensures |Prune(window, now - span)| == Recent(accepted, now - span)
    ensures
      Mirrors(Hit(window, limit, span, now).0,
              if Recent(accepted, now - span) >= limit then accepted else accepted + [now], span, now)
  {
    hide Monotone, Keeps, Bounded, Prune, Recent;
    BoundedLater(accepted, latest, now);
    PrunedCountsRecent(window, accepted, latest - span, now - span);
    PruneKeeps(window, accepted, latest - span, now - span);
    KeepsSnoc(Prune(window, now - span), accepted, now - span, now);
  }

  lemma MonotonePrefix(times: seq<real>, now: real)
    requires Monotone(times + [now])
    ensures Monotone(times) && (times != [] ==> times[|times| - 1] <= now)
  {
    var all := times + [now];
    assert forall i :: 0 <= i < |times| ==> all[i] == times[i];
    assert times != [] ==> all[|times| - 1] <= all[|times|];
  }

  lemma {:induction false} RunMirrors(limit: int, span: real, times: seq<real>)
    requires Monotone(times)
    ensures times == [] ==> Deque(limit, span, times) == [] && Accepted(limit, span, times) == []
    ensures times != [] ==> Mirrors(Deque(limit, span, times), Accepted(limit, span, times), span, times[|times| - 1])
  {
    hide Hit, Mirrors, Monotone, Recent;
    if times != [] {
      var before, now := times[..|times| - 1], times[|times| - 1];
      assert times == before + [now];
      MonotonePrefix(before, now);
      RunMirrors(limit, span, before);
      StartMirrors(span, now);
      HitMirrors(Deque(limit, span, before), Accepted(limit, span, before), limit, span,
                 if before == [] then now else before[|before| - 1], now);
    }
  }

  lemma StartMirrors(span: real, now: real)
    ensures Mirrors([], [], span, now)
  {
  }

  /** With a clock that never goes back, the pruned deque accepts a hit exactly when the full history would. */
  lemma DequeAnswersLikeHistory(limit: int, span: real, times: seq<real>, now: real)
    requires Monotone(times + [now])
    ensures
      Hit(Deque(limit, span, times), limit, span, now).1 == Allowed <==>
      Recent(Accepted(limit, span, times), now - span) < limit
  {
    hide Mirrors, Deque, Accepted;
    MonotonePrefix(times, now);
    RunMirrors(limit, span, times);
    StartMirrors(span, now);
    HitMirrors(Deque(limit, span, times), Accepted(limit, span, times), limit, span,
               if times == [] then now else times[|times| - 1], now);
  }

  lemma {:induction false} RecentFalls(accepted: seq<real>, a: real, b: real)
    requires a <= b
    ensures Recent(accepted, b) <= Recent(accepted, a)
  {
    if accepted != [] {
      RecentFalls(accepted[..|accepted| - 1], a, b);
    }
  }

  /** Accepted hits in a window (from - span, from]. */
  function InWindow(accepted: seq<real>, span: real, end: real): nat {
    if accepted == [] then 0
    else
      InWindow(accepted[..|accepted| - 1], span, end) +
      if end - span < accepted[|accepted| - 1] <= end then 1 else 0
  }

  lemma {:induction false} WindowIsRecent(accepted: seq<real>, span: real, end: real)
    ensures InWindow(accepted, span, end) <= Recent(accepted, end - span)
    ensures Bounded(accepted, end) ==> InWindow(accepted, span, end) == Recent(accepted, end - span)
  {
    if accepted != [] {
      WindowIsRecent(accepted[..|accepted| - 1], span, end);
    }
  }

  /** No window of the span, wherever it ends, ever holds more than `limit` accepted hits. */
  lemma {:induction false} NoWindowOverLimit(limit: int, span: real, times: seq<real>, end: real)
    requires Monotone(times) && limit >= 0
    ensures InWindow(Accepted(limit, span, times), span, end) <= limit
  {
    if times != [] {
      var before, now := times[..|times| - 1], times[|times| - 1];
      NoWindowOverLimit(limit, span, before, end);
      var accepted := Accepted(limit, span, before);
      if Recent(accepted, now - span) < limit {
        assert (accepted + [now])[..|accepted|] == accepted;
        if end - span < now <= end {
          WindowIsRecent(accepted, span, end);
          RecentFalls(accepted, now - span, end - span);
        }
      }
    }
  }

  // ---- retry-after ------------------------------------------------------------------------

  lemma CeilBounds(x: real)
    ensures x <= Ceil(x) as real < x + 1.0
  {
  }

  lemma {:induction false} DequeWithinLimit(limit: int, span: real, times: seq<real>)
    requires limit >= 0
    ensures |Deque(limit, span, times)| <= limit
  {
    if times != [] {
      DequeWithinLimit(limit, span, times[..|times| - 1]);
      PruneShortens(Deque(limit, span, times[..|times| - 1]), times[|times| - 1] - span);
    }
  }

  lemma {:induction false} PruneShortens(window: seq<real>, cutoff: real)
    ensures |Prune(window, cutoff)| <= |window|
    ensures window != [] && window[0] <= cutoff ==> |Prune(window, cutoff)| < |window|
    ensures window != [] && window[0] > cutoff ==> Prune(window, cutoff) == window
    decreases |window|
  {
    if window != [] && window[0] <= cutoff {
      PruneShortens(window[1..], cutoff);
    }
  }

  /**
   * Retry-after is exact: with no hit in between, it is the least whole number of seconds after which a hit is accepted.
   */
  lemma RetryAfterIsLeast(limit: int, span: real, times: seq<real>, now: real, delay: int)
    requires limit >= 0 && delay >= 1
    requires Hit(Deque(limit, span, times), limit, span, now).1.Denied?
    ensures
      var (window, answer) := Hit(Deque(limit, span, times), limit, span, now);
      Hit(window, limit, span, now + delay as real).1 == Allowed <==> delay >= answer.retryAfter
  {
    DequeWithinLimit(limit, span, times);
    PruneShortens(Deque(limit, span, times), now - span);
    var live := Prune(Deque(limit, span, times), now - span);
    assert |live| == limit;
    PruneShortens(live, now + delay as real - span);
    CeilBounds(live[0] + span - now);
  }

  lemma {:induction false} NothingAccepted(limit: int, span: real, times: seq<real>)
    requires limit <= 0
    ensures Deque(limit, span, times) == []
  {
    if times != [] {
      NothingAccepted(limit, span, times[..|times| - 1]);
    }
  }

  /** The lookup breaks exactly for a limit that is not positive, whatever has been asked before. */
  lemma BrokenIffNoLimit(limit: int, span: real, times: seq<real>, now: real)
    ensures Hit(Deque(limit, span, times), limit, span, now).1.Broken? <==> limit <= 0
  {
    if limit <= 0 {
      NothingAccepted(limit, span, times);
    }
  }
}
