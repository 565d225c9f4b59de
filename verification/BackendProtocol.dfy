/**
 The backend's transport object as a sender on the network of StopAndWait.dfy, over whole runs: any number of
 `send` calls, with the events of each retry loop, the network's moves and other nodes' frames in any order.
 */
module BackendProtocol {
  import opened Wrappers
  import T = TransportHandler
  import P = StopAndWait
  import C = DeliveryConditions

  /** The object, the progress of its last send, what it was asked to send and what came of it; and the network. */
  datatype World = World(
    e: T.Endpoint,
    waiting: bool,
    sent: seq<T.Payload>,
    outcomes: seq<T.SendOutcome>,
    net: P.Net)

  datatype Move =
    | Begin(payload: T.Payload, encodes: bool)
    | During(ev: T.Event)
    | Receives(msg: T.TransportMsg)
    | AckGoesOut
    | Arrives(frame: T.TransportMsg, ackId: T.NodeId)
    | OtherSends(foreign: T.TransportMsg)

  predicate Pending(w: World) {
    w.outcomes != [] && w.outcomes[|w.outcomes| - 1].StillWaiting?
  }

  /** The retry loop of the last send. */
  function LoopOf(w: World): T.Loop
    requires w.outcomes != []
  {
    T.Loop(w.e, w.waiting, w.outcomes[|w.outcomes| - 1])
  }

  /** The frame of the last send. */
  function FrameOf(w: World): T.TransportMsg
    requires w.sent != []
  {
    T.Normal(T.Wrap(|w.sent| - 1), w.e.nodeId, w.sent[|w.sent| - 1])
  }

  ghost predicate OnNetwork(a: T.TransportMsg, n: P.Net) {
    a.Ack? ==> exists r <- n.acks :: r.ack == a
  }

  ghost predicate CanMove(w: World, m: Move) {
    |w.sent| == |w.outcomes| &&
    match m
    case Begin(_, _) => !Pending(w)
    case During(ev) => w.sent != [] && (ev.Incoming? ==> OnNetwork(ev.msg, w.net))
    case Receives(msg) => !Pending(w) && OnNetwork(msg, w.net)
    case AckGoesOut => true
    case Arrives(f, _) => f in w.net.frames && f.Normal?
    case OtherSends(f) => f.Normal? && f.nodeId != w.e.nodeId
  }

  /** The frames the object ever gave to its carrier. */
  function Frames(e: T.Endpoint): set<T.TransportMsg> {
    set f | f in e.wire && f.Normal?
  }

  ghost function Moved(w: World, m: Move): World
    requires CanMove(w, m)
  {
    match m
    case Begin(payload, encodes) =>
      var l := T.Send(w.e, payload, encodes, []);
      World(l.e, l.waiting, w.sent + [payload], w.outcomes + [l.outcome], w.net)
    case During(ev) =>
      var l := T.LoopStep(LoopOf(w), FrameOf(w), FrameOf(w).sn, ev);
      World(l.e, l.waiting, w.sent, w.outcomes[|w.outcomes| - 1 := l.outcome],
            w.net.(frames := w.net.frames + Frames(l.e)))
    case Receives(msg) => w.(e := T.Receive(w.e, msg))
    case AckGoesOut => w.(e := T.FlushAck(w.e))
    case Arrives(f, ackId) => w.(net := P.ArriveAt(w.net, f, ackId))
    case OtherSends(f) => w.(net := w.net.(frames := w.net.frames + {f}))
  }

  ghost predicate Leads(w: World, moves: seq<Move>, v: World)
    decreases |moves|
  {
    if moves == [] then w == v
    else CanMove(w, moves[0]) && Leads(Moved(w, moves[0]), moves[1..], v)
  }

  // ---------------------------------------------------------------------------
  // One `send` of the object
  // ---------------------------------------------------------------------------

  lemma {:induction false} LoopRunFromFront(l: T.Loop, msg: T.TransportMsg, sn: nat, ev: T.Event, events: seq<T.Event>)
    ensures T.LoopRun(l, msg, sn, [ev] + events) == T.LoopRun(T.LoopStep(l, msg, sn, ev), msg, sn, events)
    decreases |events|
  {
    var all := [ev] + events;
    if events == [] {
      assert all[..0] == [] && all == [ev];
      assert T.LoopRun(l, msg, sn, []) == l;
    } else {
      var n := |events| - 1;
      assert all[..|all| - 1] == [ev] + events[..n] && all[|all| - 1] == events[n];
      LoopRunFromFront(l, msg, sn, ev, events[..n]);
    }
  }

  /** The events of the loop among the moves. */
  function EventsOf(moves: seq<Move>): seq<T.Event> {
    if moves == [] then []
    else if moves[0].During? then [moves[0].ev] + EventsOf(moves[1..])
    else EventsOf(moves[1..])
  }

  predicate WithinSend(m: Move) { m.During? || m.Arrives? || m.OtherSends? }

  /** One move while the send is under way: one step of its loop, or none. */
  lemma LoopMoves(w: World, m: Move)
    requires w.sent != [] && CanMove(w, m) && WithinSend(m)
    ensures var v := Moved(w, m); var l, f := LoopOf(w), FrameOf(w);
            && |v.sent| == |v.outcomes| == |w.sent| && FrameOf(v) == f
            && LoopOf(v) == if m.During? then T.LoopStep(l, f, f.sn, m.ev) else l
  {
    if m.During? {
      StepKeepsNode(LoopOf(w), FrameOf(w), FrameOf(w).sn, m.ev);
    }
  }

  lemma {:induction false} LoopGoesOn(w: World, moves: seq<Move>, v: World)
    requires w.sent != [] && Leads(w, moves, v) && |w.sent| == |w.outcomes|
    requires forall m <- moves :: WithinSend(m)
    ensures |v.sent| == |v.outcomes| == |w.sent|
    ensures LoopOf(v) == T.LoopRun(LoopOf(w), FrameOf(w), FrameOf(w).sn, EventsOf(moves))
    decreases |moves|
  {
    if moves != [] {
      var m, f := moves[0], FrameOf(w);
      assert m in moves && forall x <- moves[1..] :: x in moves;
      LoopMoves(w, m);
      LoopGoesOn(Moved(w, m), moves[1..], v);
      if m.During? {
        LoopRunFromFront(LoopOf(w), f, f.sn, m.ev, EventsOf(moves[1..]));
      }
    }
  }

  lemma StepKeepsNode(l: T.Loop, msg: T.TransportMsg, sn: nat, ev: T.Event)
    ensures var r := T.LoopStep(l, msg, sn, ev);
            && r.e.nodeId == l.e.nodeId && r.e.seqNumOut == l.e.seqNumOut
            && ((forall a <- l.e.ackQueue :: a.Ack?) ==> forall a <- r.e.ackQueue :: a.Ack?)
  {
  }

  /** A `send` with the network moving on meanwhile leaves what the method of the object leaves for those events. */
  lemma MovesAreOneSend(w: World, payload: T.Payload, encodes: bool, moves: seq<Move>, v: World)
    requires |w.sent| == |w.outcomes| && Leads(w, [Begin(payload, encodes)] + moves, v)
    requires w.e.seqNumOut == T.Wrap(|w.sent|) && forall m <- moves :: WithinSend(m)
    ensures v.outcomes != [] && LoopOf(v) == T.Send(w.e, payload, encodes, EventsOf(moves))
  {
    var all := [Begin(payload, encodes)] + moves;
    assert all[0] == Begin(payload, encodes) && all[1..] == moves;
    var begun := Moved(w, all[0]);
    LoopGoesOn(begun, moves, v);
    if !encodes {
      EndedStays(LoopOf(begun), FrameOf(begun), FrameOf(begun).sn, EventsOf(moves));
    } else {
      assert FrameOf(begun) == T.NextFrame(w.e, payload);
    }
  }

  lemma {:induction false} EndedStays(l: T.Loop, msg: T.TransportMsg, sn: nat, events: seq<T.Event>)
    requires l.outcome != T.StillWaiting
    ensures T.LoopRun(l, msg, sn, events) == l
    decreases |events|
  {
    if events != [] {
      EndedStays(l, msg, sn, events[..|events| - 1]);
    }
  }

  // ---------------------------------------------------------------------------
  // Every run is a run of the protocol
  // ---------------------------------------------------------------------------

  predicate Matches(o: T.SendOutcome, p: P.Outcome) {
    match o
    case StillWaiting => p.Pending?
    case Done => p.Completed?
    case Cancelled => p.Abandoned?
    case EncodeError => p.Abandoned?
  }

  /** The system of StopAndWait.dfy that contains this sender. */
  ghost predicate Represents(w: World, s: P.System) {
    && w.e.nodeId == s.me && s.first == 0 && s.net == w.net && Frames(w.e) <= w.net.frames
    && s.sent == w.sent && |w.sent| == |w.outcomes| == |s.outcome| && w.e.seqNumOut == T.Wrap(|w.sent|)
    && (forall a <- w.e.incomingAcks :: P.OnNetwork(a, s)) && (forall a <- w.e.ackQueue :: a.Ack?)
    && (forall i :: 0 <= i < |w.outcomes| ==> Matches(w.outcomes[i], s.outcome[i]))
    && (Pending(w) && w.waiting ==> FrameOf(w) in w.net.frames)
  }

  lemma BeginRefines(w: World, s: P.System, payload: T.Payload, encodes: bool)
    requires Represents(w, s) && CanMove(w, Begin(payload, encodes))
    ensures var step := if encodes then P.Start(payload) else P.FailToEncode(payload);
            P.Enabled(s, step) && Represents(Moved(w, Begin(payload, encodes)), P.Next(s, step))
  {
    var step := if encodes then P.Start(payload) else P.FailToEncode(payload);
    var t := P.Next(s, step);
    T.WrapNext(|w.sent|);
    P.AcksStay(w.e.incomingAcks, s, t);
  }

  /** The loop, taken as one of the handler's, and the protocol's view of it. */
  lemma LoopIsRepresented(w: World, s: P.System)
    requires Represents(w, s) && w.sent != [] && Pending(w)
    ensures P.Represents(LoopOf(w), FrameOf(w), s)
  {
    assert Matches(w.outcomes[|w.outcomes| - 1], s.outcome[|w.outcomes| - 1]);
  }

  /** What one event does to the frames on the carrier. */
  lemma WireAfter(l: T.Loop, msg: T.TransportMsg, sn: nat, ev: T.Event)
    requires msg.Normal?
    ensures var r := T.LoopStep(l, msg, sn, ev);
            Frames(r.e) == if l.outcome == T.StillWaiting && ev.Queued? && !l.waiting
                           then Frames(l.e) + {msg} else Frames(l.e)
  {
  }

  /** The protocol's state after the event, put back together from its parts. */
  lemma Reassemble(w: World, s: P.System, v: World, t: P.System)
    requires Represents(w, s) && w.sent != [] && v.sent == w.sent && v.outcomes != []
    requires t.me == s.me && t.first == s.first && t.sent == s.sent && t.net == v.net
    requires v.e.nodeId == w.e.nodeId && v.e.seqNumOut == w.e.seqNumOut && Frames(v.e) <= v.net.frames
    requires |v.outcomes| == |w.outcomes| == |t.outcome|
    requires v.outcomes == w.outcomes[|w.outcomes| - 1 := v.outcomes[|w.outcomes| - 1]]
    requires forall i :: 0 <= i < |w.outcomes| - 1 ==> t.outcome[i] == s.outcome[i]
    requires P.Represents(LoopOf(v), FrameOf(v), t) && forall a <- v.e.ackQueue :: a.Ack?
    ensures Represents(v, t)
  {
    forall i | 0 <= i < |v.outcomes|
      ensures Matches(v.outcomes[i], t.outcome[i])
    {
      assert i < |v.outcomes| - 1 ==> v.outcomes[i] == w.outcomes[i];
    }
  }

  /** The receipt of the ack the loop is about to read. */
  lemma ReadsReceipt(w: World, s: P.System, ev: T.Event) returns (r: P.Receipt)
    requires Represents(w, s) && w.sent != [] && Pending(w)
    ensures P.Reads(LoopOf(w), ev) ==> r in s.net.acks && r.ack == w.e.incomingAcks[0]
  {
    r := P.Receipt(T.Ack(0, ""), "");
    if P.Reads(LoopOf(w), ev) {
      var a := w.e.incomingAcks[0];
      assert a in w.e.incomingAcks && P.OnNetwork(a, s);
      r :| r in s.net.acks && r.ack == a;
    }
  }

  lemma PendingEventRefines(w: World, s: P.System, ev: T.Event) returns (steps: seq<P.Step>, t: P.System)
    requires Represents(w, s) && CanMove(w, During(ev)) && Pending(w)
    ensures P.Leads(s, steps, t) && P.NoForeign(steps) && Represents(Moved(w, During(ev)), t)
    ensures !ev.Dropped? ==> P.Undisturbed(steps)
  {
    var l, msg := LoopOf(w), FrameOf(w);
    var v := Moved(w, During(ev));
    var r := ReadsReceipt(w, s, ev);
    LoopIsRepresented(w, s);
    P.LoopRefinesSystem(l, msg, s, ev, r);
    WireAfter(l, msg, msg.sn, ev);
    StepKeepsNode(l, msg, msg.sn, ev);
    assert LoopOf(v) == T.LoopStep(l, msg, msg.sn, ev) && FrameOf(v) == msg;
    match P.StepOf(l, ev, r) {
      case None =>
        steps, t := [], s;
        assert v.net.frames == w.net.frames;
      case Some(step) =>
        steps, t := [step], P.Next(s, step);
        assert steps[1..] == [];
        assert v.net.frames == t.net.frames;
    }
    assert v.net == t.net;
    Reassemble(w, s, v, t);
  }

  lemma EndedEventRefines(w: World, s: P.System, ev: T.Event)
    requires Represents(w, s) && CanMove(w, During(ev)) && !Pending(w)
    ensures Represents(Moved(w, During(ev)), s)
  {
    var v := Moved(w, During(ev));
    assert v.outcomes == w.outcomes;
    assert v.net.frames == w.net.frames;
    assert v == w;
  }

  lemma AckGoesOutRefines(w: World, s: P.System)
    requires Represents(w, s) && CanMove(w, AckGoesOut)
    ensures Represents(Moved(w, AckGoesOut), s)
  {
    var v := Moved(w, AckGoesOut);
    if w.e.ackQueue != [] {
      assert w.e.ackQueue[0] in w.e.ackQueue;
      assert forall a <- v.e.ackQueue :: a in w.e.ackQueue;
    }
    assert Frames(v.e) == Frames(w.e);
  }

  lemma ReceiveRefines(w: World, s: P.System, msg: T.TransportMsg)
    requires Represents(w, s) && CanMove(w, Receives(msg))
    ensures Represents(Moved(w, Receives(msg)), s)
  {
    var v := Moved(w, Receives(msg));
    assert Frames(v.e) == Frames(w.e);
  }

  ghost predicate Alone(moves: seq<Move>) {
    forall m <- moves :: !m.OtherSends?
  }

  /** Nobody else sends, no send is dropped and every frame encodes. */
  ghost predicate Undisturbed(moves: seq<Move>) {
    forall m <- moves :: !m.OtherSends? && (m.Begin? ==> m.encodes) && (m.During? ==> !m.ev.Dropped?)
  }

  lemma NetworkMoveRefines(w: World, s: P.System, m: Move) returns (steps: seq<P.Step>, t: P.System)
    requires Represents(w, s) && CanMove(w, m) && (m.Arrives? || m.OtherSends?)
    ensures P.Leads(s, steps, t) && Represents(Moved(w, m), t)
    ensures m.Arrives? ==> P.Undisturbed(steps)
  {
    var step := if m.Arrives? then P.Arrive(m.frame, m.ackId) else P.Inject(m.foreign);
    t := P.Next(s, step);
    steps := [step];
    assert steps[1..] == [];
    forall a <- w.e.incomingAcks
      ensures P.OnNetwork(a, t)
    {
      assert P.OnNetwork(a, s);
      var r :| r in s.net.acks && r.ack == a;
      assert r in t.net.acks;
    }
  }

  /** Every move is a run of the protocol. */
  lemma MoveRefines(w: World, s: P.System, m: Move) returns (steps: seq<P.Step>, t: P.System)
    requires Represents(w, s) && CanMove(w, m)
    ensures P.Leads(s, steps, t) && Represents(Moved(w, m), t)
    ensures !m.OtherSends? ==> P.NoForeign(steps)
    ensures Undisturbed([m]) ==> P.Undisturbed(steps)
  {
    assert m in [m];
    match m {
      case Begin(payload, encodes) =>
        BeginRefines(w, s, payload, encodes);
        var step := if encodes then P.Start(payload) else P.FailToEncode(payload);
        steps, t := [step], P.Next(s, step);
        assert steps[1..] == [];
      case During(ev) =>
        if Pending(w) {
          steps, t := PendingEventRefines(w, s, ev);
        } else {
          EndedEventRefines(w, s, ev);
          steps, t := [], s;
        }
      case Receives(msg) =>
        ReceiveRefines(w, s, msg);
        steps, t := [], s;
      case AckGoesOut =>
        AckGoesOutRefines(w, s);
        steps, t := [], s;
      case _ => steps, t := NetworkMoveRefines(w, s, m);
    }
  }

  lemma QuietParts(moves: seq<Move>)
    requires moves != []
    ensures Alone(moves) ==> !moves[0].OtherSends? && Alone(moves[1..])
    ensures Undisturbed(moves) ==> Undisturbed([moves[0]]) && Undisturbed(moves[1..])
  {
    assert moves[0] in moves && forall x <- moves[1..] :: x in moves;
  }

  /** Every run of the object on the network, however long, is a run of the protocol. */
  lemma {:induction false} RunRefines(w: World, moves: seq<Move>, v: World, s: P.System)
    returns (steps: seq<P.Step>, t: P.System)
    requires Represents(w, s) && Leads(w, moves, v)
    ensures P.Leads(s, steps, t) && Represents(v, t)
    ensures Alone(moves) ==> P.NoForeign(steps)
    ensures Undisturbed(moves) ==> P.Undisturbed(steps)
    decreases |moves|
  {
    if moves == [] {
      steps, t := [], s;
    } else {
      QuietParts(moves);
      var now, u := MoveRefines(w, s, moves[0]);
      var later, end := RunRefines(Moved(w, moves[0]), moves[1..], v, u);
      P.LeadsConcat(s, now, u, later, end);
      steps, t := now + later, end;
    }
  }

  // ---------------------------------------------------------------------------
  // Main results
  // ---------------------------------------------------------------------------

  /** A new object; the receiver's filter may be unset or pinned to some other node. */
  ghost predicate Initial(w: World) {
    && w == World(T.Endpoint(w.e.nodeId, 0, T.EMPTY_FILTER, [], [], [], []), false, [], [],
                  P.Net({}, {}, w.net.filter, []))
    && w.net.filter.nodeId != Some(w.e.nodeId)
    && (w.net.filter.nodeId.None? <==> w.net.filter.lastSn.None?)
  }

  lemma Start(w: World) returns (s: P.System)
    requires Initial(w)
    ensures P.Initial(s) && Represents(w, s) && s.first == 0
  {
    s := P.System(w.e.nodeId, 0, [], [], w.net);
    assert Frames(w.e) == {};
  }

  /** The i-th send was handed to the receiver's handler exactly once, with its payload. */
  ghost predicate HandedOnce(w: World, i: nat)
    requires i < |w.sent|
  {
    P.DeliveredOnce(P.System(w.e.nodeId, 0, w.sent, [], w.net), i)
  }

  lemma HandedIsDelivered(w: World, s: P.System, i: nat)
    requires Represents(w, s) && i < |w.sent|
    ensures HandedOnce(w, i) <==> P.DeliveredOnce(s, i)
  {
    var t := P.System(w.e.nodeId, 0, w.sent, [], w.net);
    assert t.net == s.net && t.me == s.me && t.sent == s.sent && P.Number(t, i) == P.Number(s, i);
    if P.DeliveredOnce(t, i) {
      var k :| 0 <= k < |t.net.delivered| && t.net.delivered[k] == P.Delivery(t.me, P.Number(t, i), t.sent[i])
        && forall j :: 0 <= j < |t.net.delivered| && j != k ==> t.net.delivered[j].sn != P.Number(t, i);
      assert s.net.delivered[k] == P.Delivery(s.me, P.Number(s, i), s.sent[i]);
    }
    if P.DeliveredOnce(s, i) {
      var k :| 0 <= k < |s.net.delivered| && s.net.delivered[k] == P.Delivery(s.me, P.Number(s, i), s.sent[i])
        && forall j :: 0 <= j < |s.net.delivered| && j != k ==> s.net.delivered[j].sn != P.Number(s, i);
      assert t.net.delivered[k] == P.Delivery(t.me, P.Number(t, i), t.sent[i]);
    }
  }

  /**
   In every run of the object with no other node sending and fewer than 2^32 sends: a `send` that returned Ok was
   handed over exactly once, if and only if the receiver's filter was unset at the start.
   */
  lemma DoneIsDeliveredOnce(w: World, moves: seq<Move>, v: World, i: nat)
    requires Initial(w) && Leads(w, moves, v) && Alone(moves) && |v.sent| <= T.SN_MODULUS
    requires i < |v.outcomes| && v.outcomes[i].Done?
    ensures |v.sent| == |v.outcomes|
    ensures HandedOnce(v, i) <==> w.net.filter.nodeId.None?
  {
    var s := Start(w);
    var steps, t := RunRefines(w, moves, v, s);
    assert Matches(v.outcomes[i], t.outcome[i]);
    P.OkMeansDeliveredOnce(s, steps, t, i);
    HandedIsDelivered(v, t, i);
  }

  /**
   Undisturbed runs of any length: what was handed over is a beginning of the sends, and a `send` that returned Ok is in
   it, exactly once, if and only if its number fits 32 bits.
   */
  lemma DoneIsDeliveredIffNumberFits(w: World, moves: seq<Move>, v: World)
    requires Initial(w) && Leads(w, moves, v) && Undisturbed(moves) && w.net.filter.nodeId.None?
    ensures |v.sent| == |v.outcomes| && P.Payloads(v.net.delivered) <= v.sent
    ensures forall i :: 0 <= i < |v.outcomes| && v.outcomes[i].Done? ==> (HandedOnce(v, i) <==> i < T.SN_MODULUS)
  {
    var s := Start(w);
    var steps, t := RunRefines(w, moves, v, s);
    C.CompletedIsDeliveredIffNumberFits(s, steps, t);
    forall i | 0 <= i < |v.outcomes| && v.outcomes[i].Done?
      ensures HandedOnce(v, i) <==> i < T.SN_MODULUS
    {
      assert Matches(v.outcomes[i], t.outcome[i]);
      HandedIsDelivered(v, t, i);
      assert P.Number(t, i) == i;
    }
  }

  /** With fewer than 2^32 sends: what was handed over is exactly what returned Ok, plus at most the one in flight. */
  lemma HandedIsWhatIsDone(w: World, moves: seq<Move>, v: World)
    requires Initial(w) && Leads(w, moves, v) && Undisturbed(moves) && w.net.filter.nodeId.None?
    requires |v.sent| <= T.SN_MODULUS
    ensures var n := |v.sent| - if Pending(v) then 1 else 0;
            && |v.sent| == |v.outcomes| && P.Payloads(v.net.delivered) <= v.sent && |v.net.delivered| in {n, |v.sent|}
            && forall i :: 0 <= i < |v.sent| ==> if i < n then v.outcomes[i].Done? else v.outcomes[i].StillWaiting?
  {
    var s := Start(w);
    var steps, t := RunRefines(w, moves, v, s);
    P.DeliveredIsWhatCompleted(s, steps, t);
    if v.outcomes != [] {
      assert Matches(v.outcomes[|v.outcomes| - 1], t.outcome[|v.outcomes| - 1]);
    }
    forall i | 0 <= i < |v.sent|
      ensures v.outcomes[i].Done? <==> t.outcome[i].Completed?
      ensures v.outcomes[i].StillWaiting? <==> t.outcome[i].Pending?
    {
      assert Matches(v.outcomes[i], t.outcome[i]);
    }
  }
}
