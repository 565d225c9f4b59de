/**
 The reliable transport of the backend: message numbering, the duplicate filter,
 the receive callback and the retry loop of `send`.

 The classes keep the fields the Rust objects keep.  `Endpoint` is the value of those
 fields; every method is proved equal to a function on `Endpoint`, and the protocol
 in StopAndWait.dfy is built from the same functions.
 */
module TransportHandler {
  import opened Wrappers

  type NodeId = string
  type Payload = string

  /** `seq_num_out` is an AtomicU32: `fetch_add` wraps. */
  const SN_MODULUS: nat := 0x1_0000_0000

  /** What a u32 keeps of a number. */
  function Wrap(n: nat): (w: nat)
    ensures w < SN_MODULUS && (n < SN_MODULUS ==> w == n)
  {
    n % 0x1_0000_0000
  }

  /** Counting on from the wrapped number wraps to the same. */
  lemma WrapNext(n: nat)
    ensures Wrap(Wrap(n) + 1) == Wrap(n + 1)
  {
  }

  /** Bound of the ack queue and of the incoming-ack queue. */
  const QUEUE_CAPACITY: nat := 16

  datatype TransportMsg =
    | Ack(sn: nat, nodeId: NodeId)
    | Normal(sn: nat, nodeId: NodeId, payload: Payload)

  // ---------------------------------------------------------------------------
  // The sequence-number filter
  // ---------------------------------------------------------------------------

  datatype Filter = Filter(nodeId: Option<NodeId>, lastSn: Option<nat>)

  const EMPTY_FILTER := Filter(None, None)

  /** Whether the filter hands a message with this sender and number to the application. */
  predicate Accepts(f: Filter, nodeId: NodeId, sn: nat) {
    f.lastSn.None? || (f.nodeId == Some(nodeId) && f.lastSn.value < sn)
  }

  /** The filter after seeing that message. */
  function Advance(f: Filter, nodeId: NodeId, sn: nat): Filter {
    if !Accepts(f, nodeId, sn) then f else Filter(Some(nodeId), Some(sn))
  }

  class SnFilter {
    var nodeId: Option<NodeId>
    var lastSn: Option<nat>

    function State(): Filter
      reads this
    {
      Filter(nodeId, lastSn)
    }

    constructor ()
      ensures State() == EMPTY_FILTER
    {
      nodeId, lastSn := None, None;
    }

    method Next(from: NodeId, sn: nat) returns (accepted: bool)
      modifies this
      ensures accepted == Accepts(old(State()), from, sn)
      ensures State() == Advance(old(State()), from, sn)
    {
      match lastSn {
        case None =>
          // First message ever seen: accept it and remember the sender.
          nodeId := Some(from);
          lastSn := Some(sn);
          return true;
        case Some(last) =>
          if nodeId != Some(from) {
            return false;
          }
          if sn <= last {
            return false;
          }
          lastSn := Some(sn);
          return true;
      }
    }
  }

  /** The numbers (and sender) of the messages that pass the filter, in order. */
  function Passed(f: Filter, msgs: seq<(NodeId, nat)>): (r: seq<(NodeId, nat)>)
    decreases |msgs|
  {
    if msgs == [] then []
    else
      var m := msgs[0];
      (if Accepts(f, m.0, m.1) then [m] else []) + Passed(Advance(f, m.0, m.1), msgs[1..])
  }

  /** Whatever arrives, what passes comes from one sender with strictly growing numbers. */
  lemma {:induction false} PassedIsOrdered(f: Filter, msgs: seq<(NodeId, nat)>)
    ensures forall i, j :: 0 <= i < j < |Passed(f, msgs)| ==>
                Passed(f, msgs)[i].0 == Passed(f, msgs)[j].0 && Passed(f, msgs)[i].1 < Passed(f, msgs)[j].1
    ensures f.lastSn.Some? ==> forall i :: 0 <= i < |Passed(f, msgs)| ==>
                f.nodeId == Some(Passed(f, msgs)[i].0) && f.lastSn.value < Passed(f, msgs)[i].1
    decreases |msgs|
  {
    if msgs != [] {
      PassedIsOrdered(Advance(f, msgs[0].0, msgs[0].1), msgs[1..]);
    }
  }

  // ---------------------------------------------------------------------------
  // The handler
  // ---------------------------------------------------------------------------

  /** `delivered` records the calls of the message handler, `wire` the frames given to the carrier. */
  datatype Endpoint = Endpoint(
    nodeId: NodeId,
    seqNumOut: nat,
    filter: Filter,
    ackQueue: seq<TransportMsg>,
    incomingAcks: seq<TransportMsg>,
    delivered: seq<Payload>,
    wire: seq<TransportMsg>)

  /** `try_send`: a full queue drops the message. */
  function TrySend(q: seq<TransportMsg>, m: TransportMsg): seq<TransportMsg> {
    if |q| < QUEUE_CAPACITY then q + [m] else q
  }

  /** The receive callback: acknowledge first, filter second. */
  function Receive(e: Endpoint, m: TransportMsg): Endpoint {
    match m
    case Normal(sn, from, payload) =>
      e.(ackQueue := TrySend(e.ackQueue, Ack(sn, from)),
         filter := Advance(e.filter, from, sn),
         delivered := if Accepts(e.filter, from, sn) then e.delivered + [payload] else e.delivered)
    case Ack(_, _) =>
      e.(incomingAcks := TrySend(e.incomingAcks, m))
  }

  /** The ack task moves acks from its queue to the carrier. */
  function FlushAck(e: Endpoint): Endpoint {
    if e.ackQueue == [] then e else e.(ackQueue := e.ackQueue[1..], wire := e.wire + [e.ackQueue[0]])
  }

  /**
   What can happen to a pending `send`, in the order the runtime lets it happen:
   the carrier takes the frame or refuses it, the retry timer fires, a frame comes in,
   the next queued ack is read, the ack queue turns out closed, the caller drops the future.
   */
  datatype Event = Queued | Refused | Timeout | Incoming(msg: TransportMsg) | ReadAck | AcksClosed | Dropped

  datatype SendOutcome = Done | Cancelled | StillWaiting | EncodeError

  datatype Loop = Loop(e: Endpoint, waiting: bool, outcome: SendOutcome)

  /** One event of the retry loop for frame `msg`, numbered `sn`. */
  function LoopStep(l: Loop, msg: TransportMsg, sn: nat, ev: Event): Loop {
    if l.outcome != StillWaiting then l
    else match ev
      case Queued => if l.waiting then l else l.(e := l.e.(wire := l.e.wire + [msg]), waiting := true)
      case Refused => l
      case Timeout => l.(waiting := false)
      case Incoming(m) => l.(e := Receive(l.e, m))
      case ReadAck =>
        if !l.waiting || l.e.incomingAcks == [] then l
        else l.(e := l.e.(incomingAcks := l.e.incomingAcks[1..]),
                outcome := if l.e.incomingAcks[0].sn == sn then Done else StillWaiting)
      case AcksClosed => l.(waiting := false)
      case Dropped => l.(outcome := Cancelled)
  }

  function LoopRun(l: Loop, msg: TransportMsg, sn: nat, events: seq<Event>): Loop {
    if events == [] then l
    else LoopStep(LoopRun(l, msg, sn, events[..|events| - 1]), msg, sn, events[|events| - 1])
  }

  /** The frame of the next send. */
  function NextFrame(e: Endpoint, payload: Payload): TransportMsg {
    Normal(e.seqNumOut, e.nodeId, payload)
  }

  /** `send`: take a number, encode, then retry until acked. */
  function Send(e: Endpoint, payload: Payload, encodes: bool, events: seq<Event>): Loop {
    var numbered := e.(seqNumOut := Wrap(e.seqNumOut + 1));
    if !encodes then Loop(numbered, false, EncodeError)
    else LoopRun(Loop(numbered, false, StillWaiting), NextFrame(e, payload), e.seqNumOut, events)
  }

  /** After these events the frame of the present attempt is with the carrier; a timeout or a closed queue ends it. */
  predicate Handed(before: bool, events: seq<Event>)
    decreases |events|
  {
    if events == [] then before
    else match events[|events| - 1]
      case Queued => true
      case Timeout => false
      case AcksClosed => false
      case _ => Handed(before, events[..|events| - 1])
  }

  /** The attempts among these events whose frame the carrier took; a further `Queued` in an attempt does not count. */
  function Attempts(before: bool, events: seq<Event>): nat
    decreases |events|
  {
    if events == [] then 0
    else
      var init := events[..|events| - 1];
      Attempts(before, init) + if events[|events| - 1].Queued? && !Handed(before, init) then 1 else 0
  }

  /** Whatever happens, one `send` puts copies of one frame on the wire and nothing else. */
  lemma {:induction false} SendRepeatsOneFrame(l: Loop, msg: TransportMsg, sn: nat, events: seq<Event>)
    ensures var r := LoopRun(l, msg, sn, events);
            && |l.e.wire| <= |r.e.wire| && r.e.wire[..|l.e.wire|] == l.e.wire
            && (forall i :: |l.e.wire| <= i < |r.e.wire| ==> r.e.wire[i] == msg)
            && r.e.seqNumOut == l.e.seqNumOut && r.e.nodeId == l.e.nodeId
    decreases |events|
  {
    if events != [] {
      SendRepeatsOneFrame(l, msg, sn, events[..|events| - 1]);
    }
  }

  /** As long as no ack ends the send and nobody drops it, there is exactly one copy for each attempt. */
  lemma {:induction false} OneCopyPerAttempt(l: Loop, msg: TransportMsg, sn: nat, events: seq<Event>)
    requires LoopRun(l, msg, sn, events).outcome == StillWaiting
    ensures var r := LoopRun(l, msg, sn, events);
            |r.e.wire| == |l.e.wire| + Attempts(l.waiting, events) && r.waiting == Handed(l.waiting, events)
    decreases |events|
  {
    if events != [] {
      OneCopyPerAttempt(l, msg, sn, events[..|events| - 1]);
    }
  }

  function Copy(msg: TransportMsg, n: nat): (r: seq<TransportMsg>)
    ensures |r| == n && forall i :: 0 <= i < n ==> r[i] == msg
  {
    seq(n, _ => msg)
  }

  /** `n` times in a row the timer fires and the carrier takes the frame. */
  function Rounds(n: nat): seq<Event> {
    if n == 0 then [] else Rounds(n - 1) + [Timeout, Queued]
  }

  /** A pending send is repeated for ever: each round without an ack puts one more copy of its frame on the wire. */
  lemma {:induction false} EveryTimeoutResends(l: Loop, msg: TransportMsg, sn: nat, n: nat)
    requires l.outcome == StillWaiting
    ensures LoopRun(l, msg, sn, Rounds(n))
            == Loop(l.e.(wire := l.e.wire + Copy(msg, n)), n > 0 || l.waiting, StillWaiting)
    decreases n
  {
    if n == 0 {
      assert l.e.wire + Copy(msg, 0) == l.e.wire;
    } else {
      EveryTimeoutResends(l, msg, sn, n - 1);
      var before, all := Rounds(n - 1), Rounds(n);
      assert all[..|all| - 1] == before + [Timeout] && (before + [Timeout])[..|before|] == before;
      assert LoopRun(l, msg, sn, before + [Timeout]) == LoopRun(l, msg, sn, before).(waiting := false);
      assert Copy(msg, n) == Copy(msg, n - 1) + [msg];
      assert l.e.wire + Copy(msg, n - 1) + [msg] == l.e.wire + Copy(msg, n);
    }
  }

  /** The two queues never hold more than their capacity. */
  predicate Bounded(e: Endpoint) {
    |e.ackQueue| <= QUEUE_CAPACITY && |e.incomingAcks| <= QUEUE_CAPACITY
  }

  lemma {:induction false} QueuesStayBounded(l: Loop, msg: TransportMsg, sn: nat, events: seq<Event>)
    requires Bounded(l.e)
    ensures Bounded(LoopRun(l, msg, sn, events).e)
    decreases |events|
  {
    if events != [] {
      QueuesStayBounded(l, msg, sn, events[..|events| - 1]);
    }
  }

  function Flushed(e: Endpoint, n: nat): Endpoint
    decreases n
  {
    if n == 0 then e else Flushed(FlushAck(e), n - 1)
  }

  /** Left to run, the ack task gives every queued ack to the carrier, in order. */
  lemma {:induction false} AcksGoOut(e: Endpoint, n: nat)
    requires n == |e.ackQueue|
    ensures Flushed(e, n) == e.(ackQueue := [], wire := e.wire + e.ackQueue)
    decreases n
  {
    if n == 0 {
      assert e.wire + e.ackQueue == e.wire;
    } else {
      AcksGoOut(FlushAck(e), n - 1);
      assert e.wire + [e.ackQueue[0]] + e.ackQueue[1..] == e.wire + e.ackQueue;
    }
  }

  /** Every ack a pending send reads was queued before it started or came in while it waited. */
  lemma {:induction false} QueuedAcksCameIn(l: Loop, msg: TransportMsg, sn: nat, events: seq<Event>)
    requires forall a <- l.e.incomingAcks :: a.Ack?
    ensures forall a <- LoopRun(l, msg, sn, events).e.incomingAcks ::
                a.Ack? && (a in l.e.incomingAcks || Incoming(a) in events)
    decreases |events|
  {
    if events != [] {
      var init := events[..|events| - 1];
      QueuedAcksCameIn(l, msg, sn, init);
      assert forall ev <- init :: ev in events;
    }
  }

  /**
   `send` returns Ok exactly when an ack carrying its number was read.  The ack's node id plays no part:
   any queued ack with that number ends the wait.
   */
  lemma {:induction false} DoneMeansAckRead(l: Loop, msg: TransportMsg, sn: nat, events: seq<Event>)
    requires l.outcome == StillWaiting
    requires forall a <- l.e.incomingAcks :: a.Ack?
    ensures LoopRun(l, msg, sn, events).outcome == Done <==>
            exists i :: 0 <= i < |events| && events[i] == ReadAck && ReadsMatch(LoopRun(l, msg, sn, events[..i]), sn)
    decreases |events|
  {
    if events != [] {
      var n := |events| - 1;
      DoneMeansAckRead(l, msg, sn, events[..n]);
      assert forall i :: 0 <= i <= n ==> events[..n][..i] == events[..i];
    }
  }

  /** The next `ReadAck` completes a send numbered `sn`. */
  ghost predicate ReadsMatch(l: Loop, sn: nat) {
    l.outcome == StillWaiting && l.waiting && l.e.incomingAcks != [] && l.e.incomingAcks[0].sn == sn
  }

  class Handler {
    const nodeIdOut: NodeId
    const sequenceFilter: SnFilter
    var seqNumOut: nat
    var ackQueue: seq<TransportMsg>
    var incomingAcks: seq<TransportMsg>
    var delivered: seq<Payload>
    var wire: seq<TransportMsg>

    function State(): Endpoint
      reads this, sequenceFilter
    {
      Endpoint(nodeIdOut, seqNumOut, sequenceFilter.State(), ackQueue, incomingAcks, delivered, wire)
    }

    constructor (id: NodeId)
      ensures State() == Endpoint(id, 0, EMPTY_FILTER, [], [], [], [])
      ensures fresh(sequenceFilter)
    {
      nodeIdOut := id;
      sequenceFilter := new SnFilter();
      seqNumOut := 0;
      ackQueue, incomingAcks, delivered, wire := [], [], [], [];
    }

    method OnFrame(m: TransportMsg)
      modifies this, sequenceFilter
      ensures State() == Receive(old(State()), m)
    {
      match m {
        case Normal(sn, from, payload) =>
          if |ackQueue| < QUEUE_CAPACITY {
            ackQueue := ackQueue + [Ack(sn, from)];
          }
          var accepted := sequenceFilter.Next(from, sn);
          if accepted {
            delivered := delivered + [payload];
          }
        case Ack(_, _) =>
          if |incomingAcks| < QUEUE_CAPACITY {
            incomingAcks := incomingAcks + [m];
          }
      }
    }

    method SendNextAck()
      modifies this
      ensures State() == FlushAck(old(State()))
    {
      if ackQueue != [] {
        wire := wire + [ackQueue[0]];
        ackQueue := ackQueue[1..];
      }
    }

    method SendAndWaitAckRepeated(msg: TransportMsg, sn: nat, events: seq<Event>) returns (outcome: SendOutcome)
      modifies this, sequenceFilter
      ensures var l := LoopRun(Loop(old(State()), false, StillWaiting), msg, sn, events);
              State() == l.e && outcome == l.outcome
    {
      var waiting := false;
      outcome := StillWaiting;
      ghost var start := Loop(State(), false, StillWaiting);
      for i := 0 to |events|
        invariant Loop(State(), waiting, outcome) == LoopRun(start, msg, sn, events[..i])
      {
        assert events[..i + 1][..i] == events[..i];
        if outcome == StillWaiting {
          match events[i] {
            case Queued =>
              if !waiting {
                wire := wire + [msg];
                waiting := true;
              }
            case Refused =>
            case Timeout => waiting := false;
            case Incoming(m) => OnFrame(m);
            case ReadAck =>
              if waiting && incomingAcks != [] {
                var ack := incomingAcks[0];
                incomingAcks := incomingAcks[1..];
                if ack.sn == sn {
                  outcome := Done;
                }
              }
            case AcksClosed => waiting := false;
            case Dropped => outcome := Cancelled;
          }
        }
      }
      assert events[..|events|] == events;
    }

    method SendPayload(payload: Payload, encodes: bool, events: seq<Event>) returns (outcome: SendOutcome)
      modifies this, sequenceFilter
      ensures var l := Send(old(State()), payload, encodes, events);
              State() == l.e && outcome == l.outcome
    {
      var sn := seqNumOut;
      seqNumOut := Wrap(seqNumOut + 1);
      if !encodes {
        return EncodeError;
      }
      outcome := SendAndWaitAckRepeated(Normal(sn, nodeIdOut, payload), sn, events);
    }
  }
}
