/**
 The object that handles one connection's messages, method by method the steps of SignallingServer.dfy:
 up to the table lock, under the lock, and after it.
 */
module MessageProcessor {
  import opened Wrappers
  import L = RateLimiter
  import R = RoutingTable
  import S = SignallingServer

  /** A connection's end of its message queue: the sink of other connections' messages. */
  class MessageQueue {
    var out: seq<S.Entry>
    var taken: nat
    var egressOpen: bool
    const limit: nat

    constructor (limit: nat)
      ensures out == [] && taken == 0 && egressOpen && this.limit == limit
    {
      out, taken, egressOpen := [], 0, true;
      this.limit := limit;
    }

    method TrySend(e: S.Entry) returns (ok: bool)
      modifies this`out
      ensures ok == (egressOpen && |old(out)| - taken < limit)
      ensures out == if ok then old(out) + [e] else old(out)
    {
      if !egressOpen || |out| - taken >= limit {
        return false;
      }
      out := out + [e];
      return true;
    }
  }

  class MsgProcessor {
    const limiter: L.MsgRateLimiter
    const serverState: R.ServerState
    const srcConnectionId: S.Cid
    const queue: MessageQueue
    var stage: S.Stage
    var listening: bool
    var registered: bool
    var removed: bool
    var cancelled: bool
    var received: seq<S.Frame>
    var incoming: nat
    var forwarded: nat

    ghost function Value(): S.Connection
      reads this, limiter, queue
    {
      S.Connection(limiter.Value(), stage, registered, listening, queue.egressOpen, removed, cancelled, received,
                   queue.out, queue.taken, incoming, forwarded)
    }

    constructor (limiter: L.MsgRateLimiter, serverState: R.ServerState, srcConnectionId: S.Cid, queue: MessageQueue)
      requires queue.out == [] && queue.taken == 0 && queue.egressOpen
      ensures this.limiter == limiter && this.queue == queue && this.serverState == serverState
      ensures Value() == S.NewConnection(0, 0, 0).(limiter := limiter.Value())
    {
      this.limiter, this.serverState, this.srcConnectionId, this.queue := limiter, serverState, srcConnectionId, queue;
      stage, listening, registered, removed, cancelled := S.Idle, true, false, false, false;
      received, incoming, forwarded := [], 0, 0;
    }

    /** An error ends the listening task, which cancels the close token. */
    method StopListening()
      modifies this`stage, this`listening, this`cancelled
      ensures Value() == S.EndListening(old(Value()))
    {
      stage, listening, cancelled := S.Idle, false, true;
    }

    method Receive(frame: S.Frame, now: int)
      requires stage.Idle?
      modifies this, limiter
      ensures Value() == S.ReceiveOn(old(Value()), frame, now)
    {
      received := received + [frame];
      var inTime := limiter.RateLimitByTime(now);
      if !inTime {
        return;
      }
      var inTotal := limiter.LimitMessages();
      if !inTotal {
        StopListening();
        return;
      }
      if frame.Bad? {
        StopListening();
        return;
      }
      var branded := limiter.TryBrandRttTag(frame.tag);
      if !branded {
        StopListening();
        return;
      }
      incoming := incoming + 1;
      stage := S.Branded(frame);
    }

    /** `s` is the server this connection is part of. */
    method LookUp(ghost s: S.Server)
      requires stage.Branded? && stage.frame.Good?
      requires srcConnectionId in s.conns && s.conns[srcConnectionId] == Value() && s.tables == serverState.Value()
      modifies this`stage, serverState
      ensures var t := S.LookUpStep(s, srcConnectionId);
              Value() == t.conns[srcConnectionId] && serverState.Value() == t.tables
    {
      var f := stage.frame;
      var handler := serverState.RecordRtrAndGetForwardingQueue(f.tag, srcConnectionId, f.hasPayload);
      match handler {
        case Ok(h) => stage := S.Found(f, h.queueOf);
        case Err(_) => stage := S.Idle;
      }
    }

    /** `peerQueue` belongs to the connection that was found: a closed or full one ends this connection. */
    method Enqueue(peerQueue: MessageQueue)
      requires stage.Found? && peerQueue != queue
      modifies this`stage, this`listening, this`cancelled, this`forwarded, peerQueue`out
      ensures var c := old(Value());
              var sent := old(peerQueue.egressOpen && |peerQueue.out| - peerQueue.taken < peerQueue.limit);
              && Value() == (if sent then S.DoneOn(c) else S.EndListening(c))
              && peerQueue.out == old(peerQueue.out)
                                  + if sent then [S.Entry(srcConnectionId, S.Current(c), c.stage.frame)] else []
    {
      var entry := S.Entry(srcConnectionId, if received == [] then 0 else |received| - 1, stage.frame);
      var ok := peerQueue.TrySend(entry);
      if ok {
        stage, forwarded := S.Idle, forwarded + 1;
      } else {
        StopListening();
      }
    }
  }

  // ---------------------------------------------------------------------------
  // What becomes of a message
  // ---------------------------------------------------------------------------

  /** `process` when no other connection's step comes in between. */
  ghost function Process(s: S.Server, cid: S.Cid, frame: S.Frame, now: int): S.Server
    requires S.Inv(s) && S.Enabled(s, S.Receive(cid, frame, now))
  {
    S.StepKeepsInv(s, S.Receive(cid, frame, now));
    var branded := S.Next(s, S.Receive(cid, frame, now));
    if !branded.conns[cid].stage.Branded? then branded
    else
      S.StepKeepsInv(branded, S.LookUp(cid));
      var found := S.Next(branded, S.LookUp(cid));
      if !found.conns[cid].stage.Found? || found.conns[cid].stage.peer !in found.conns then found
      else S.Next(found, S.Enqueue(cid))
  }

  /** The message is within the rate. */
  predicate InTime(c: S.Connection, now: int) { L.PassesTime(c.limiter, now) }

  /** It is within the connection's cap, well formed and under the connection's tag. */
  predicate Proper(c: S.Connection, frame: S.Frame) {
    c.limiter.total < c.limiter.perConnection && frame.Good? && c.limiter.tag in {None, Some(frame.tag)}
  }

  /** Once the sender is let in, the room of the message's tag holds the sender and `dst`. */
  ghost predicate PartnerOf(s: S.Server, cid: S.Cid, frame: S.Frame, dst: S.Cid) {
    && frame.Good? && frame.hasPayload && cid in s.tables.ct
    && R.RoomOf(R.AfterLookup(s.tables, frame.tag, cid, frame.hasPayload), frame.tag, cid, dst)
  }

  ghost predicate Forwards(s: S.Server, cid: S.Cid, frame: S.Frame, now: int, dst: S.Cid)
    requires cid in s.conns && dst in s.conns
  {
    && InTime(s.conns[cid], now) && Proper(s.conns[cid], frame)
    && PartnerOf(s, cid, frame, dst) && S.Accepting(s.conns[dst], s.bufferLimit)
  }

  /** The lookup finds exactly the partner. */
  lemma PartnerIsFound(t: R.Tables, tag: S.Tag, cid: S.Cid, hasPayload: bool, dst: S.Cid)
    requires R.WellFormed(t)
    ensures R.Lookup(t, tag, cid, hasPayload) == Ok(R.ConnectionHandler(dst)) <==>
            hasPayload && cid in t.ct && R.RoomOf(R.AfterLookup(t, tag, cid, hasPayload), tag, cid, dst)
  {
    R.LookupIsIsolated(t, tag, cid, hasPayload);
    var r := R.Record(t, tag);
    if cid in t.ct && (r.Contains(cid) || !r.IsFull()) {
      R.JoinedRoom(r, cid);
      var pair := r.Add(cid).pair;
      if pair == [cid, dst] || pair == [dst, cid] {
        assert dst in pair;
        assert cid != dst ==> r.Add(cid).Other(cid) == Some(dst);
      }
    }
  }

  /** What `Receive` leaves: the message branded, or the connection as it was but for its counters, or ended. */
  lemma ReceivedIs(c: S.Connection, frame: S.Frame, now: int)
    requires c.stage.Idle? && c.listening
    ensures var d := S.ReceiveOn(c, frame, now);
            && d.out == c.out && d.received == c.received + [frame] && d.egressOpen == c.egressOpen
            && d.taken == c.taken && !d.stage.Found?
            && (d.stage.Branded? <==> InTime(c, now) && Proper(c, frame))
            && (d.stage.Branded? ==> d.stage.frame == frame)
            && (d.listening <==> !InTime(c, now) || Proper(c, frame))
  {
  }

  /** Two connections after the lookup and the step that queues. */
  lemma EnqueuedOuts(s: S.Server, cid: S.Cid, dst: S.Cid)
    requires S.Inv(s) && S.Enabled(s, S.Enqueue(cid)) && dst in s.conns
    ensures var c := s.conns[cid]; var t := S.EnqueueStep(s, cid);
            && dst in t.conns && cid in t.conns && c.stage.peer != cid
            && t.conns[dst].out == s.conns[dst].out
                 + (if dst == c.stage.peer && S.Accepting(s.conns[dst], s.bufferLimit)
                    then [S.Entry(cid, S.Current(c), c.stage.frame)] else [])
            && (t.conns[cid].listening <==> S.Accepting(s.conns[c.stage.peer], s.bufferLimit))
  {
    assert S.ConnOk(s, cid);
    S.EnqueueParts(s, cid);
  }

  /**
   A message is put into `dst`'s queue, once and unchanged, if and only if it is in time, within the cap, well formed
   and under the connection's tag, `dst` is the sender's partner in the room of that tag, and the queue takes it.
   No other queue changes.
   */
  lemma ForwardedExactlyWhen(s: S.Server, cid: S.Cid, frame: S.Frame, now: int, dst: S.Cid)
    requires S.Inv(s) && S.Enabled(s, S.Receive(cid, frame, now)) && dst in s.conns
    ensures dst in Process(s, cid, frame, now).conns
    ensures Process(s, cid, frame, now).conns[dst].out == s.conns[dst].out
              + if Forwards(s, cid, frame, now, dst) then [S.Entry(cid, |s.conns[cid].received|, frame)] else []
  {
    var c := s.conns[cid];
    S.StepKeepsInv(s, S.Receive(cid, frame, now));
    var branded := S.Next(s, S.Receive(cid, frame, now));
    ReceivedIs(c, frame, now);
    if branded.conns[cid].stage.Branded? {
      PartnerIsFound(s.tables, frame.tag, cid, frame.hasPayload, dst);
      FromBranded(branded, cid, frame, dst);
    }
  }

  /** The lookup and the queueing of a branded message. */
  lemma FromBranded(s: S.Server, cid: S.Cid, frame: S.Frame, dst: S.Cid)
    requires S.Inv(s) && S.Enabled(s, S.LookUp(cid)) && s.conns[cid].stage.frame == frame && dst in s.conns
    ensures var found := S.LookUpStep(s, cid);
            && frame.Good? && S.Inv(found) && cid in found.conns
            && (!found.conns[cid].stage.Found? ==>
                  found.conns[dst].out == s.conns[dst].out
                  && R.Lookup(s.tables, frame.tag, cid, frame.hasPayload) != Ok(R.ConnectionHandler(dst)))
            && (found.conns[cid].stage.Found? ==>
                  && S.Enabled(found, S.Enqueue(cid))
                  && var u := S.EnqueueStep(found, cid);
                     && dst in u.conns
                     && u.conns[dst].out == s.conns[dst].out
                          + if R.Lookup(s.tables, frame.tag, cid, frame.hasPayload) == Ok(R.ConnectionHandler(dst))
                               && S.Accepting(s.conns[dst], s.bufferLimit)
                            then [S.Entry(cid, S.Current(s.conns[cid]), frame)] else [])
  {
    assert S.ConnOk(s, cid);
    S.StepKeepsInv(s, S.LookUp(cid));
    var found := S.LookUpStep(s, cid);
    if found.conns[cid].stage.Found? {
      var h := R.Lookup(s.tables, frame.tag, cid, frame.hasPayload).value;
      S.FoundPeerIsTagged(s, cid, frame, h);
      assert h == R.ConnectionHandler(found.conns[cid].stage.peer);
      EnqueuedOuts(found, cid, dst);
    }
  }
}
