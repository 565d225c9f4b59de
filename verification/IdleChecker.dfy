/**
 What closes a connection which is silent at first or stops forwarding later.

 `incoming` and `forwarded` are the shared counters as functions of time; they only grow, and
 the message cap of the connection bounds `forwarded`.  Timers are taken to fire on time.
 */
module IdleChecker {
  import opened Wrappers
  import S = SignallingServer

  ghost predicate Counter(f: nat -> nat, cap: nat) {
    && (forall t: nat :: f(t) <= cap)
    && (forall t: nat, u: nat :: t <= u ==> f(t) <= f(u))
  }

  /** The close token was cancelled by someone else before or at `t`. */
  predicate CancelledBy(cancelled: Option<nat>, t: nat) {
    cancelled.Some? && cancelled.value <= t
  }

  /** When the n-th idle check ends. */
  function DueAt(first: nat, step: nat, n: nat): nat {
    if n == 0 then first else DueAt(first, step, n - 1) + step
  }

  /** The first-message delay, then one idle timeout more than the messages the connection may send. */
  function Deadline(first: nat, step: nat, cap: nat): nat { first + (cap + 1) * step }

  lemma {:induction false} DueIsProduct(first: nat, step: nat, n: nat)
    ensures DueAt(first, step, n) == first + n * step
    decreases n
  {
    if n > 0 {
      DueIsProduct(first, step, n - 1);
      assert n * step == (n - 1) * step + step;
    }
  }

  lemma {:induction false} DueGrows(first: nat, step: nat, n: nat, m: nat)
    requires n <= m
    ensures first <= DueAt(first, step, n) <= DueAt(first, step, m)
    decreases m
  {
    if n < m {
      DueGrows(first, step, n, m - 1);
    } else if n > 0 {
      DueGrows(first, step, n - 1, n - 1);
    }
  }

  lemma DueAfter(first: nat, step: nat, c: nat)
    ensures forall n: nat :: c <= n ==> first <= DueAt(first, step, c) <= DueAt(first, step, n)
  {
    forall n: nat | c <= n
      ensures first <= DueAt(first, step, c) <= DueAt(first, step, n)
    {
      DueGrows(first, step, c, n);
    }
  }

  /** Every check but the last uses up a message, so all of them end before the deadline. */
  lemma DueWithin(first: nat, step: nat, n: nat, cap: nat)
    requires n <= cap + 1
    ensures first <= DueAt(first, step, n) <= Deadline(first, step, cap)
  {
    DueGrows(first, step, n, cap + 1);
    DueIsProduct(first, step, cap + 1);
  }

  /** The n-th test of the checker fails: nothing was forwarded since the one before. */
  predicate Fails(forwarded: nat -> nat, first: nat, idle: nat, n: nat) {
    forwarded(DueAt(first, idle, n) + idle) == forwarded(DueAt(first, idle, n))
  }

  /**
   Returns when the close token is cancelled, by this task or by another.  Every idle check that lets the
   connection live uses up at least one forwarded message, so the checks end.
   */
  method StartIdleChecker(incoming: nat -> nat, forwarded: nat -> nat, ghost cap: nat,
                          firstMessageMaxDelay: nat, idleCheckTimeout: nat, cancelled: Option<nat>)
    returns (closedAt: nat)
    requires Counter(forwarded, cap)
    ensures closedAt <= Deadline(firstMessageMaxDelay, idleCheckTimeout, cap)
    ensures cancelled.Some? ==> closedAt <= cancelled.value
    ensures incoming(firstMessageMaxDelay) == 0 ==> closedAt <= firstMessageMaxDelay
    ensures closedAt < firstMessageMaxDelay ==> cancelled == Some(closedAt)
    ensures forall n: nat :: Fails(forwarded, firstMessageMaxDelay, idleCheckTimeout, n) ==>
              closedAt <= DueAt(firstMessageMaxDelay, idleCheckTimeout, n) + idleCheckTimeout
    ensures cancelled == Some(closedAt)
            || (closedAt == firstMessageMaxDelay && incoming(closedAt) == 0)
            || exists n: nat :: closedAt == DueAt(firstMessageMaxDelay, idleCheckTimeout, n) + idleCheckTimeout
                                && Fails(forwarded, firstMessageMaxDelay, idleCheckTimeout, n)
  {
    DueWithin(firstMessageMaxDelay, idleCheckTimeout, 0, cap);
    DueAfter(firstMessageMaxDelay, idleCheckTimeout, 0);
    if CancelledBy(cancelled, firstMessageMaxDelay) {
      return cancelled.value;
    }
    var now := firstMessageMaxDelay;
    if incoming(now) == 0 {
      return now;
    }
    var checkedForwarded := forwarded(now);
    ghost var checks := 0;
    while true
      invariant firstMessageMaxDelay <= now == DueAt(firstMessageMaxDelay, idleCheckTimeout, checks)
      invariant checkedForwarded == forwarded(now) && checks <= checkedForwarded <= cap
      invariant !CancelledBy(cancelled, now)
      invariant forall n: nat :: n < checks ==> !Fails(forwarded, firstMessageMaxDelay, idleCheckTimeout, n)
      decreases cap - checkedForwarded
    {
      var due := now + idleCheckTimeout;
      assert due == DueAt(firstMessageMaxDelay, idleCheckTimeout, checks + 1);
      DueWithin(firstMessageMaxDelay, idleCheckTimeout, checks + 1, cap);
      DueAfter(firstMessageMaxDelay, idleCheckTimeout, checks);
      if CancelledBy(cancelled, due) {
        return cancelled.value;
      }
      var latest := forwarded(due);
      if latest == checkedForwarded {
        return due;
      }
      checkedForwarded := latest;
      now := due;
      checks := checks + 1;
    }
  }

  ghost predicate Reaches(s: S.Server, t: S.Server) {
    S.Inv(s) && exists steps :: S.Leads(s, steps, t)
  }

  /** The server's states over time: each one reaches every later one. */
  ghost predicate History(at: nat -> S.Server) {
    forall t: nat, u: nat :: t <= u ==> Reaches(at(t), at(u))
  }

  /** `forwarded` is that counter of connection `cid` in this history. */
  ghost predicate CountsForwarded(at: nat -> S.Server, cid: S.Cid, forwarded: nat -> nat) {
    forall t: nat :: cid in at(t).conns && forwarded(t) == at(t).conns[cid].forwarded
  }

  /** In every history of the server the forwarded counter is what the idle checker needs it to be. */
  lemma HistoryCounts(at: nat -> S.Server, cid: S.Cid, forwarded: nat -> nat)
    requires History(at) && CountsForwarded(at, cid, forwarded)
    ensures Counter(forwarded, at(0).conns[cid].limiter.perConnection)
  {
    var cap := at(0).conns[cid].limiter.perConnection;
    forall t: nat, u: nat | t <= u
      ensures forwarded(t) <= forwarded(u) <= cap
    {
      assert Reaches(at(t), at(u)) && Reaches(at(0), at(u));
      var steps :| S.Leads(at(t), steps, at(u));
      S.ForwardedIsCapped(at(t), steps, at(u), cid);
      var first :| S.Leads(at(0), first, at(u));
      S.ForwardedIsCapped(at(0), first, at(u), cid);
    }
  }

  /** The connection's close token is cancelled. */
  ghost predicate Closed(at: nat -> S.Server, cid: S.Cid, t: nat) {
    cid in at(t).conns && at(t).conns[cid].cancelled
  }

  /** By then the checker's own cancellation, the step IdleClose, was taken. */
  ghost predicate IdleCloses(at: nat -> S.Server, cid: S.Cid, t: nat) {
    exists u: S.Server :: S.Inv(u) && S.Enabled(u, S.IdleClose(cid)) && Reaches(S.Next(u, S.IdleClose(cid)), at(t))
  }

  lemma IdleCloseSetsFlag(at: nat -> S.Server, cid: S.Cid, t: nat)
    requires IdleCloses(at, cid, t)
    ensures Closed(at, cid, t)
  {
    var u :| S.Inv(u) && S.Enabled(u, S.IdleClose(cid)) && Reaches(S.Next(u, S.IdleClose(cid)), at(t));
    var next := S.Next(u, S.IdleClose(cid));
    var steps :| S.Leads(next, steps, at(t));
    S.ForwardedIsCapped(next, steps, at(t), cid);
  }

  /** Wherever a test of the checker fails, the close token is cancelled. */
  ghost predicate Checked(at: nat -> S.Server, cid: S.Cid, incoming: nat -> nat, forwarded: nat -> nat,
                          first: nat, idle: nat) {
    && (incoming(first) == 0 ==> Closed(at, cid, first))
    && forall n: nat :: Fails(forwarded, first, idle, n) ==> Closed(at, cid, DueAt(first, idle, n) + idle)
  }

  /** Which the checker sees to by taking the step IdleClose there. */
  lemma CheckedByIdleClose(at: nat -> S.Server, cid: S.Cid, incoming: nat -> nat, forwarded: nat -> nat,
                           first: nat, idle: nat)
    requires incoming(first) == 0 ==> IdleCloses(at, cid, first)
    requires forall n: nat :: Fails(forwarded, first, idle, n) ==> IdleCloses(at, cid, DueAt(first, idle, n) + idle)
    ensures Checked(at, cid, incoming, forwarded, first, idle)
  {
    if incoming(first) == 0 {
      IdleCloseSetsFlag(at, cid, first);
    }
    forall n: nat | Fails(forwarded, first, idle, n)
      ensures Closed(at, cid, DueAt(first, idle, n) + idle)
    {
      IdleCloseSetsFlag(at, cid, DueAt(first, idle, n) + idle);
    }
  }

  lemma FlagStays(at: nat -> S.Server, cid: S.Cid, t: nat, u: nat)
    requires History(at) && t <= u && Closed(at, cid, t)
    ensures Closed(at, cid, u)
  {
    assert Reaches(at(t), at(u));
    var steps :| S.Leads(at(t), steps, at(u));
    S.ForwardedIsCapped(at(t), steps, at(u), cid);
  }

  /** Each reason for which the checker returns means that the token is cancelled. */
  lemma ReturnMeansClosed(at: nat -> S.Server, cid: S.Cid, incoming: nat -> nat, forwarded: nat -> nat,
                          first: nat, idle: nat, cancelled: Option<nat>, closedAt: nat)
    requires Checked(at, cid, incoming, forwarded, first, idle)
    requires cancelled.Some? ==> Closed(at, cid, cancelled.value)
    requires cancelled == Some(closedAt) || (closedAt == first && incoming(closedAt) == 0)
             || exists n: nat :: closedAt == DueAt(first, idle, n) + idle && Fails(forwarded, first, idle, n)
    ensures Closed(at, cid, closedAt)
  {
  }

  /**
   Whatever its peers do, a connection's close token is cancelled when the checker returns, and so at the deadline:
   the first-message delay plus one idle timeout more than the number of messages the connection may ever send.
   `cancelled` is when someone else cancelled it, `cap` the connection's message cap.
   */
  method CloseDeadline(at: nat -> S.Server, cid: S.Cid, incoming: nat -> nat, forwarded: nat -> nat, ghost cap: nat,
                       firstMessageMaxDelay: nat, idleCheckTimeout: nat, cancelled: Option<nat>)
    returns (closedAt: nat)
    requires History(at) && CountsForwarded(at, cid, forwarded)
    requires cid in at(0).conns && cap == at(0).conns[cid].limiter.perConnection
    requires Checked(at, cid, incoming, forwarded, firstMessageMaxDelay, idleCheckTimeout)
    requires cancelled.Some? ==> Closed(at, cid, cancelled.value)
    ensures Closed(at, cid, closedAt) && closedAt <= Deadline(firstMessageMaxDelay, idleCheckTimeout, cap)
    ensures Closed(at, cid, Deadline(firstMessageMaxDelay, idleCheckTimeout, cap))
  {
    HistoryCounts(at, cid, forwarded);
    closedAt := StartIdleChecker(incoming, forwarded, cap, firstMessageMaxDelay, idleCheckTimeout, cancelled);
    ReturnMeansClosed(at, cid, incoming, forwarded, firstMessageMaxDelay, idleCheckTimeout, cancelled, closedAt);
    FlagStays(at, cid, closedAt, Deadline(firstMessageMaxDelay, idleCheckTimeout, cap));
  }
}
