/**
 The signalling server's limits on one connection: a fixed one-second window, a total cap, and the
 routing tag the connection is branded with by its first message.  Instants are nanoseconds.
 */
module RateLimiter {
  import opened Wrappers

  type Tag = string

  const SECOND: int := 1_000_000_000

  datatype Limiter = Limiter(
    tag: Option<Tag>,
    windowStart: int,
    windowCount: nat,
    total: nat,
    perSecond: nat,
    perConnection: nat)

  function NewLimiter(now: int, perSecond: nat, perConnection: nat): Limiter {
    Limiter(None, now, 0, 0, perSecond, perConnection)
  }

  /** The window a frame at `now` is counted in: the current one, or a new one a second or more later. */
  function Rolled(l: Limiter, now: int): Limiter {
    if now - l.windowStart >= SECOND then l.(windowStart := now, windowCount := 0) else l
  }

  predicate PassesTime(l: Limiter, now: int) {
    Rolled(l, now).windowCount < l.perSecond
  }

  function AfterTime(l: Limiter, now: int): Limiter {
    var r := Rolled(l, now);
    if PassesTime(l, now) then r.(windowCount := r.windowCount + 1) else r
  }

  predicate PassesTotal(l: Limiter) { l.total < l.perConnection }

  function AfterTotal(l: Limiter): Limiter {
    if PassesTotal(l) then l.(total := l.total + 1) else l
  }

  predicate Brandable(l: Limiter, tag: Tag) { l.tag in {None, Some(tag)} }

  function Branded(l: Limiter, tag: Tag): Limiter {
    if l.tag.None? then l.(tag := Some(tag)) else l
  }

  class MsgRateLimiter {
    var tag: Option<Tag>
    var windowStartedAt: int
    var windowMessageCount: nat
    var totalMessageCount: nat
    const maxMessagesPerSecond: nat
    const maxMessagesPerConnection: nat

    function Value(): Limiter
      reads this
    {
      Limiter(tag, windowStartedAt, windowMessageCount, totalMessageCount,
              maxMessagesPerSecond, maxMessagesPerConnection)
    }

    constructor (now: int, perSecond: nat, perConnection: nat)
      ensures Value() == NewLimiter(now, perSecond, perConnection)
    {
      tag, windowStartedAt, windowMessageCount, totalMessageCount := None, now, 0, 0;
      maxMessagesPerSecond, maxMessagesPerConnection := perSecond, perConnection;
    }

    method RateLimitByTime(now: int) returns (ok: bool)
      modifies this
      ensures ok == PassesTime(old(Value()), now) && Value() == AfterTime(old(Value()), now)
    {
      if now - windowStartedAt >= SECOND {
        windowStartedAt := now;
        windowMessageCount := 0;
      }
      if windowMessageCount >= maxMessagesPerSecond {
        return false;
      }
      windowMessageCount := windowMessageCount + 1;
      return true;
    }

    method LimitMessages() returns (ok: bool)
      modifies this
      ensures ok == PassesTotal(old(Value())) && Value() == AfterTotal(old(Value()))
    {
      if totalMessageCount >= maxMessagesPerConnection {
        return false;
      }
      totalMessageCount := totalMessageCount + 1;
      return true;
    }

    method TryBrandRttTag(t: Tag) returns (ok: bool)
      modifies this
      ensures ok == Brandable(old(Value()), t)
      ensures Value() == if ok then Branded(old(Value()), t) else old(Value())
    {
      match tag {
        case Some(existing) => return existing == t;
        case None =>
          tag := Some(t);
          return true;
      }
    }
  }

  // ---------------------------------------------------------------------------
  // How much a window limiter lets through
  // ---------------------------------------------------------------------------

  ghost predicate Monotone(from: int, times: seq<int>) {
    && (forall i :: 0 <= i < |times| ==> from <= times[i])
    && (forall i, j :: 0 <= i < j < |times| ==> times[i] <= times[j])
  }

  /** How many of the frames arriving at `times` pass the time limit at an instant in [lo, hi). */
  function PassedIn(l: Limiter, times: seq<int>, lo: int, hi: int): nat
    decreases |times|
  {
    if times == [] then 0
    else
      (if PassesTime(l, times[0]) && lo <= times[0] < hi then 1 else 0)
      + PassedIn(AfterTime(l, times[0]), times[1..], lo, hi)
  }

  /** Seconds, rounded up. */
  function Ceil(d: int): nat
    requires d >= 0
  {
    (d + 999_999_999) / 1_000_000_000
  }

  lemma NothingAfter(l: Limiter, times: seq<int>, lo: int, hi: int)
    requires forall i :: 0 <= i < |times| ==> hi <= times[i]
    ensures PassedIn(l, times, lo, hi) == 0
    decreases |times|
  {
    if times != [] {
      NothingAfter(AfterTime(l, times[0]), times[1..], lo, hi);
    }
  }

  lemma CeilOfLater(a: int, b: int)
    requires 0 <= a && a + SECOND <= b
    ensures Ceil(a) + 1 <= Ceil(b)
  {
  }

  lemma Scale(p: nat, a: nat, b: nat)
    requires a <= b
    ensures p * a <= p * b
  {
  }

  /** From a window that began at `lo` or later: what is left of it, plus one window per further second begun. */
  lemma {:induction false} FromWindow(l: Limiter, times: seq<int>, lo: int, hi: int)
    requires lo <= l.windowStart < hi && Monotone(l.windowStart, times) && l.windowCount <= l.perSecond
    ensures PassedIn(l, times, lo, hi) <= l.perSecond * Ceil(hi - l.windowStart) - l.windowCount
    decreases |times|
  {
    var c := Ceil(hi - l.windowStart);
    Scale(l.perSecond, 1, c);
    if times != [] {
      var t := times[0];
      var next := AfterTime(l, t);
      if t >= hi {
        NothingAfter(l, times, lo, hi);
      } else {
        FromWindow(next, times[1..], lo, hi);
        if t - l.windowStart >= SECOND {
          CeilOfLater(hi - t, hi - l.windowStart);
          Scale(l.perSecond, Ceil(hi - t) + 1, c);
          assert l.perSecond * (Ceil(hi - t) + 1) == l.perSecond * Ceil(hi - t) + l.perSecond;
        }
      }
    }
  }

  /** From any window, with only frames at `lo` or later to come. */
  lemma {:induction false} FromAnyWindow(l: Limiter, times: seq<int>, lo: int, hi: int)
    requires lo <= hi && Monotone(lo, times) && l.windowStart <= lo && l.windowCount <= l.perSecond
    ensures PassedIn(l, times, lo, hi) <= l.perSecond - l.windowCount + l.perSecond * Ceil(hi - lo)
    decreases |times|
  {
    Scale(l.perSecond, 0, Ceil(hi - lo));
    if times != [] {
      var t := times[0];
      if t >= hi {
        NothingAfter(l, times, lo, hi);
      } else if t - l.windowStart >= SECOND {
        var next := AfterTime(l, t);
        FromWindow(next, times[1..], lo, hi);
        Scale(l.perSecond, Ceil(hi - t), Ceil(hi - lo));
      } else {
        FromAnyWindow(AfterTime(l, t), times[1..], lo, hi);
      }
    }
  }

  lemma OneMore(p: nat, c: nat)
    ensures (1 + c) * p == p + p * c
  {
  }

  /** From the first frame at `lo` or later. */
  lemma FromHere(l: Limiter, times: seq<int>, lo: int, hi: int)
    requires lo <= hi && Monotone(l.windowStart, times) && l.windowCount <= l.perSecond
    requires times != [] && lo <= times[0]
    ensures PassedIn(l, times, lo, hi) <= l.perSecond + l.perSecond * Ceil(hi - lo)
  {
    Scale(l.perSecond, 0, Ceil(hi - lo));
    if l.windowStart <= lo {
      FromAnyWindow(l, times, lo, hi);
    } else if l.windowStart >= hi {
      NothingAfter(l, times, lo, hi);
    } else {
      FromWindow(l, times, lo, hi);
      Scale(l.perSecond, Ceil(hi - l.windowStart), Ceil(hi - lo));
    }
  }

  /**
   For a monotone clock, any interval [lo, hi) passes at most (1 + its length in seconds, rounded up)
   windows' worth of frames.
   */
  lemma {:induction false} IntervalBound(l: Limiter, times: seq<int>, lo: int, hi: int)
    requires lo <= hi && Monotone(l.windowStart, times) && l.windowCount <= l.perSecond
    ensures PassedIn(l, times, lo, hi) <= (1 + Ceil(hi - lo)) * l.perSecond
    decreases |times|
  {
    OneMore(l.perSecond, Ceil(hi - lo));
    if times == [] {
      Scale(l.perSecond, 0, Ceil(hi - lo));
    } else if times[0] < lo {
      IntervalBound(AfterTime(l, times[0]), times[1..], lo, hi);
    } else {
      FromHere(l, times, lo, hi);
    }
  }

  /** In particular any half-open second passes at most twice the configured rate. */
  lemma SecondBound(created: int, perSecond: nat, perConnection: nat, times: seq<int>, lo: int)
    requires Monotone(created, times)
    ensures PassedIn(NewLimiter(created, perSecond, perConnection), times, lo, lo + SECOND) <= 2 * perSecond
  {
    IntervalBound(NewLimiter(created, perSecond, perConnection), times, lo, lo + SECOND);
  }

  function Frames(n: nat, t: int): (r: seq<int>)
    ensures |r| == n && forall i :: 0 <= i < n ==> r[i] == t
  {
    seq(n, _ => t)
  }

  /** The limiter after `n` frames at once that all pass. */
  function AfterBurst(l: Limiter, n: nat, t: int): Limiter {
    if n == 0 then l else Rolled(l, t).(windowCount := Rolled(l, t).windowCount + n)
  }

  /** As many frames as the window has room for pass at once. */
  lemma {:induction false} Burst(l: Limiter, n: nat, t: int, rest: seq<int>, lo: int, hi: int)
    requires lo <= t < hi && Rolled(l, t).windowCount + n <= l.perSecond
    ensures PassedIn(l, Frames(n, t) + rest, lo, hi) == n + PassedIn(AfterBurst(l, n, t), rest, lo, hi)
    decreases n
  {
    var times := Frames(n, t) + rest;
    if n == 0 {
      assert times == rest;
    } else {
      assert times[0] == t && times[1..] == Frames(n - 1, t) + rest;
      Burst(AfterTime(l, t), n - 1, t, rest, lo, hi);
      assert AfterBurst(AfterTime(l, t), n - 1, t) == AfterBurst(l, n, t);
    }
  }

  /** For every rate and from every start, one second does pass twice the rate: the bound is tight. */
  lemma SecondBoundIsReached(created: int, perSecond: nat, perConnection: nat)
    ensures var l := NewLimiter(created, perSecond, perConnection);
            var lo := created + SECOND - 1;
            var times := Frames(perSecond, lo) + Frames(perSecond, lo + 1);
            Monotone(created, times) && PassedIn(l, times, lo, lo + SECOND) == 2 * perSecond
  {
    var l := NewLimiter(created, perSecond, perConnection);
    var lo := created + SECOND - 1;
    Burst(l, perSecond, lo, Frames(perSecond, lo + 1), lo, lo + SECOND);
    var next := AfterBurst(l, perSecond, lo);
    Burst(next, perSecond, lo + 1, [], lo, lo + SECOND);
    assert Frames(perSecond, lo + 1) + [] == Frames(perSecond, lo + 1);
  }
}
