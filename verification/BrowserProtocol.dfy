/**
 The browser's transport object on the network of StopAndWait.dfy, in both directions.

 As a sender it shares the network with a receiver and with other nodes; as a receiver it answers the frames of a
 backend sender, acking under its own id.  The browser numbers from 1.
 */
module BrowserProtocol {
  import opened Wrappers
  import T = TransportHandler
  import B = BrowserTransport
  import P = StopAndWait

  // ---------------------------------------------------------------------------
  // The browser as sender
  // ---------------------------------------------------------------------------

  datatype World = World(browser: B.State, net: P.Net)

  /** The browser does something, a frame reaches the receiver, or another node sends. */
  datatype Move =
    | Do(op: B.Op)
    | Arrives(frame: T.TransportMsg, ackId: T.NodeId)
    | OtherSends(foreign: T.TransportMsg)

  ghost predicate CanMove(w: World, m: Move) {
    match m
    case Do(op) =>
      && B.Valid(w.browser) && B.Enabled(w.browser, op)
      && (op.Incoming? && op.msg.Ack? ==> exists r <- w.net.acks :: r.ack == op.msg)
    case Arrives(f, _) => f in w.net.frames && f.Normal?
    case OtherSends(f) => f.Normal? && f.nodeId != w.browser.nodeId
  }

  /** The frames the browser ever gave to its carrier. */
  function Frames(b: B.State): set<T.TransportMsg> {
    set f | f in b.wire && f.Normal?
  }

  ghost function Moved(w: World, m: Move): World
    requires CanMove(w, m)
  {
    match m
    case Do(op) =>
      var c := B.Next(w.browser, op);
      World(c, w.net.(frames := w.net.frames + Frames(c)))
    case Arrives(f, ackId) => w.(net := P.ArriveAt(w.net, f, ackId))
    case OtherSends(f) => w.(net := w.net.(frames := w.net.frames + {f}))
  }

  ghost predicate Leads(w: World, moves: seq<Move>, v: World)
    decreases |moves|
  {
    if moves == [] then w == v
    else CanMove(w, moves[0]) && Leads(Moved(w, moves[0]), moves[1..], v)
  }

  /** The system of StopAndWait.dfy that contains this sender. */
  ghost predicate Represents(w: World, s: P.System) {
    var b := w.browser;
    && B.Valid(b) && b.nodeId == s.me && s.first == 1 && s.net == w.net && Frames(b) <= w.net.frames
    && |s.sent| == |s.outcome| == |b.sends|
    && (forall i :: 0 <= i < |b.sends| ==>
          && s.sent[i] == b.sends[i].payload
          && (match b.sends[i].phase
              case Pending => s.outcome[i].Pending?
              case Resolved => s.outcome[i].Completed?
              case Rejected => s.outcome[i].Abandoned?))
  }

  predicate Fits(b: B.State) { |b.sends| < T.SN_MODULUS }

  lemma BusyMeansAwaited(w: World, s: P.System)
    requires Represents(w, s)
    ensures P.Busy(s) <==> w.browser.awaited.Some?
    ensures P.Busy(s) && Fits(w.browser) ==>
              P.Current(s) == |w.browser.sends| - 1 && P.FrameOf(s, P.Current(s)) == B.Frame(w.browser, P.Current(s))
  {
    var b := w.browser;
    if b.awaited.Some? {
      assert B.Owning(b.sends[b.awaited.value]);
    } else if b.sends != [] {
      assert B.Released(b.sends[|b.sends| - 1]);
    }
  }

  /** An accepted send is the step Start, and Transmit if the carrier takes the frame. */
  lemma SendRefines(w: World, s: P.System, payload: T.Payload, up: bool) returns (steps: seq<P.Step>, t: P.System)
    requires Represents(w, s) && !B.Refuses(w.browser)
    requires Fits(B.Next(w.browser, B.DoSend(payload, up)))
    ensures P.Leads(s, steps, t) && P.Undisturbed(steps) && Represents(Moved(w, Do(B.DoSend(payload, up))), t)
  {
    BusyMeansAwaited(w, s);
    var op := B.DoSend(payload, up);
    B.SendKeepsValid(w.browser, payload, up);
    var c := B.Next(w.browser, op);
    var mid := P.Next(s, P.Start(payload));
    var f := T.Normal(|c.sends|, c.nodeId, payload);
    assert P.FrameOf(mid, P.Current(mid)) == f;
    assert c.wire == B.Put(w.browser.wire, f, up);
    if up {
      t := P.Next(mid, P.Transmit);
      steps := [P.Start(payload), P.Transmit];
      assert steps[1..] == [P.Transmit] && steps[1..][1..] == [];
      assert P.Leads(mid, [P.Transmit], t);
      assert Frames(c) == Frames(w.browser) + {f};
    } else {
      t := mid;
      steps := [P.Start(payload)];
      assert steps[1..] == [];
      assert Frames(c) == Frames(w.browser);
    }
    assert w.net.frames + Frames(c) == t.net.frames;
  }

  /** One step that leaves frames and sends as they are but settles the awaited one. */
  lemma SettleRefines(w: World, s: P.System, step: P.Step, v: World)
    requires Represents(w, s) && w.browser.awaited.Some? && P.Enabled(s, step) && B.Valid(v.browser)
    requires v.net == w.net && v.browser.nodeId == w.browser.nodeId && v.browser.wire == w.browser.wire
    requires |v.browser.sends| == |w.browser.sends|
    requires P.Next(s, step) == s.(outcome := P.Next(s, step).outcome)
    requires forall i :: 0 <= i < |w.browser.sends| - 1 ==>
               v.browser.sends[i] == w.browser.sends[i] && P.Next(s, step).outcome[i] == s.outcome[i]
    requires |P.Next(s, step).outcome| == |s.outcome|
    requires var n := |w.browser.sends| - 1; var d := v.browser.sends[n]; var o := P.Next(s, step).outcome[n];
             && d.payload == w.browser.sends[n].payload && !d.phase.Pending?
             && (d.phase.Resolved? ==> o.Completed?) && (d.phase.Rejected? ==> o.Abandoned?)
    ensures Represents(v, P.Next(s, step))
  {
    assert Frames(v.browser) == Frames(w.browser);
  }

  lemma AbortRefines(w: World, s: P.System, op: B.Op) returns (steps: seq<P.Step>, t: P.System)
    requires Represents(w, s) && CanMove(w, Do(op)) && (op.Abort? || op.Stop?)
    ensures P.Leads(s, steps, t) && P.NoForeign(steps) && Represents(Moved(w, Do(op)), t)
  {
    BusyMeansAwaited(w, s);
    B.StepKeepsValid(w.browser, op);
    var v := Moved(w, Do(op));
    assert Frames(v.browser) == Frames(w.browser);
    assert v.net == w.net;
    if w.browser.awaited.Some? && (op.Stop? || op.i == w.browser.awaited.value) {
      steps, t := [P.Cancel], P.Next(s, P.Cancel);
      assert steps[1..] == [];
      SettleRefines(w, s, P.Cancel, v);
    } else {
      steps, t := [], s;
    }
  }

  lemma AckRefines(w: World, s: P.System, a: T.TransportMsg, up: bool) returns (steps: seq<P.Step>, t: P.System)
    requires Represents(w, s) && CanMove(w, Do(B.Incoming(a, up))) && a.Ack? && Fits(w.browser)
    ensures P.Leads(s, steps, t) && P.Undisturbed(steps) && Represents(Moved(w, Do(B.Incoming(a, up))), t)
  {
    BusyMeansAwaited(w, s);
    B.StepKeepsValid(w.browser, B.Incoming(a, up));
    var v := Moved(w, Do(B.Incoming(a, up)));
    assert Frames(v.browser) == Frames(w.browser);
    assert v.net == w.net;
    if w.browser.awaited.Some? && w.browser.sends[w.browser.awaited.value].sn == a.sn {
      var r :| r in w.net.acks && r.ack == a;
      steps, t := [P.TakeAck(r)], P.Next(s, P.TakeAck(r));
      assert steps[1..] == [];
      SettleRefines(w, s, P.TakeAck(r), v);
    } else {
      steps, t := [], s;
    }
  }

  lemma TimerRefines(w: World, s: P.System, i: nat, up: bool) returns (steps: seq<P.Step>, t: P.System)
    requires Represents(w, s) && CanMove(w, Do(B.TimerFires(i, up))) && Fits(w.browser)
    ensures P.Leads(s, steps, t) && P.Undisturbed(steps) && Represents(Moved(w, Do(B.TimerFires(i, up))), t)
  {
    BusyMeansAwaited(w, s);
    B.StepKeepsValid(w.browser, B.TimerFires(i, up));
    var v := Moved(w, Do(B.TimerFires(i, up)));
    assert w.browser.awaited == Some(i) by {
      assert w.browser.awaited != Some(i) ==> B.Released(w.browser.sends[i]);
    }
    var f := B.Frame(w.browser, i);
    if up {
      steps, t := [P.Transmit], P.Next(s, P.Transmit);
      assert steps[1..] == [];
      assert Frames(v.browser) == Frames(w.browser) + {f};
    } else {
      steps, t := [], s;
      assert Frames(v.browser) == Frames(w.browser);
    }
    assert v.net.frames == t.net.frames;
  }

  /** A frame of the other direction, or a refused send, is no step of this sender. */
  lemma OtherOpRefines(w: World, s: P.System, op: B.Op)
    requires Represents(w, s) && CanMove(w, Do(op))
    requires (op.Incoming? && op.msg.Normal?) || (op.DoSend? && B.Refuses(w.browser))
    ensures Represents(Moved(w, Do(op)), s)
  {
    B.StepKeepsValid(w.browser, op);
    var v := Moved(w, Do(op));
    assert Frames(v.browser) == Frames(w.browser);
    assert v.net == w.net;
  }

  ghost predicate Alone(moves: seq<Move>) {
    forall m <- moves :: !m.OtherSends?
  }

  /** Nobody else sends, and nothing aborts or stops a send. */
  ghost predicate Undisturbed(moves: seq<Move>) {
    forall m <- moves :: !m.OtherSends? && (m.Do? ==> !m.op.Abort? && !m.op.Stop?)
  }

  lemma NetworkMoveRefines(w: World, s: P.System, m: Move) returns (steps: seq<P.Step>, t: P.System)
    requires Represents(w, s) && CanMove(w, m) && !m.Do?
    ensures P.Leads(s, steps, t) && Represents(Moved(w, m), t)
    ensures m.Arrives? ==> P.Undisturbed(steps)
  {
    var step := match m case Arrives(f, ackId) => P.Arrive(f, ackId) case OtherSends(f) => P.Inject(f);
    steps, t := [step], P.Next(s, step);
    assert steps[1..] == [];
  }

  /** Every move is a run of the protocol. */
  lemma MoveRefines(w: World, s: P.System, m: Move) returns (steps: seq<P.Step>, t: P.System)
    requires Represents(w, s) && CanMove(w, m) && Fits(Moved(w, m).browser) && Fits(w.browser)
    ensures P.Leads(s, steps, t) && Represents(Moved(w, m), t)
    ensures Alone([m]) ==> P.NoForeign(steps)
    ensures Undisturbed([m]) ==> P.Undisturbed(steps)
  {
    assert m in [m];
    if !m.Do? {
      steps, t := NetworkMoveRefines(w, s, m);
    } else if m.op.DoSend? && !B.Refuses(w.browser) {
      steps, t := SendRefines(w, s, m.op.payload, m.op.carrierUp);
    } else if m.op.Incoming? && m.op.msg.Ack? {
      steps, t := AckRefines(w, s, m.op.msg, m.op.carrierUp);
    } else if m.op.TimerFires? {
      steps, t := TimerRefines(w, s, m.op.i, m.op.carrierUp);
    } else if m.op.Abort? || m.op.Stop? {
      steps, t := AbortRefines(w, s, m.op);
    } else {
      OtherOpRefines(w, s, m.op);
      steps, t := [], s;
    }
  }

  lemma {:induction false} SendsGrow(w: World, moves: seq<Move>, v: World)
    requires B.Valid(w.browser) && Leads(w, moves, v)
    ensures B.Valid(v.browser) && B.Extends(w.browser, v.browser) && w.browser.nodeId == v.browser.nodeId
    decreases |moves|
  {
    if moves != [] {
      if moves[0].Do? {
        B.StepKeepsValid(w.browser, moves[0].op);
      }
      SendsGrow(Moved(w, moves[0]), moves[1..], v);
    }
  }

  lemma FirstMove(w: World, moves: seq<Move>, v: World)
    requires moves != [] && B.Valid(w.browser) && Leads(w, moves, v) && Fits(v.browser)
    ensures Fits(w.browser) && Fits(Moved(w, moves[0]).browser)
  {
    SendsGrow(w, moves, v);
    if moves[0].Do? {
      B.StepKeepsValid(w.browser, moves[0].op);
    }
    SendsGrow(Moved(w, moves[0]), moves[1..], v);
  }

  lemma QuietParts(moves: seq<Move>)
    requires moves != []
    ensures Alone(moves) ==> Alone([moves[0]]) && Alone(moves[1..])
    ensures Undisturbed(moves) ==> Undisturbed([moves[0]]) && Undisturbed(moves[1..])
  {
    assert moves[0] in moves && forall x <- moves[1..] :: x in moves;
  }

  /** Every run of the browser on the network is a run of the protocol. */
  lemma {:induction false} RunRefines(w: World, moves: seq<Move>, v: World, s: P.System)
    returns (steps: seq<P.Step>, t: P.System)
    requires Represents(w, s) && Leads(w, moves, v) && Fits(v.browser)
    ensures P.Leads(s, steps, t) && Represents(v, t)
    ensures Alone(moves) ==> P.NoForeign(steps)
    ensures Undisturbed(moves) ==> P.Undisturbed(steps)
    decreases |moves|
  {
    if moves == [] {
      steps, t := [], s;
    } else {
      FirstMove(w, moves, v);
      QuietParts(moves);
      var now, u := MoveRefines(w, s, moves[0]);
      var later, end := RunRefines(Moved(w, moves[0]), moves[1..], v, u);
      P.LeadsConcat(s, now, u, later, end);
      steps, t := now + later, end;
    }
  }

  const FRESH_NET := P.Net({}, {}, T.EMPTY_FILTER, [])

  /** A new browser object; the receiver's filter may be unset or pinned to some other node. */
  ghost predicate Initial(w: World) {
    && w.browser == B.State(w.browser.nodeId, None, [], 0, false, w.browser.filter, [], [])
    && (w.browser.filter.nodeId.None? <==> w.browser.filter.lastSn.None?)
    && w.net == FRESH_NET.(filter := w.net.filter)
    && w.net.filter.nodeId != Some(w.browser.nodeId)
    && (w.net.filter.nodeId.None? <==> w.net.filter.lastSn.None?)
  }

  lemma Begin(w: World) returns (s: P.System)
    requires Initial(w)
    ensures P.Initial(s) && Represents(w, s)
  {
    s := P.System(w.browser.nodeId, 1, [], [], w.net);
    assert Frames(w.browser) == {};
  }

  /** The i-th accepted send was handed to the receiver's handler exactly once, with its payload. */
  ghost predicate HandedOnce(w: World, i: nat)
    requires i < |w.browser.sends|
  {
    exists k ::
      && 0 <= k < |w.net.delivered|
      && w.net.delivered[k] == P.Delivery(w.browser.nodeId, i + 1, w.browser.sends[i].payload)
      && forall j :: 0 <= j < |w.net.delivered| && j != k ==> w.net.delivered[j].sn != i + 1
  }

  lemma HandedIsDelivered(w: World, s: P.System, i: nat)
    requires Represents(w, s) && i < |w.browser.sends|
    ensures HandedOnce(w, i) <==> P.DeliveredOnce(s, i)
  {
    if HandedOnce(w, i) {
      var k :| 0 <= k < |w.net.delivered|
        && w.net.delivered[k] == P.Delivery(w.browser.nodeId, i + 1, w.browser.sends[i].payload)
        && forall j :: 0 <= j < |w.net.delivered| && j != k ==> w.net.delivered[j].sn != i + 1;
      assert s.net.delivered[k] == P.Delivery(s.me, P.Number(s, i), s.sent[i]);
    }
    if P.DeliveredOnce(s, i) {
      var k :| 0 <= k < |s.net.delivered| && s.net.delivered[k] == P.Delivery(s.me, P.Number(s, i), s.sent[i])
        && forall j :: 0 <= j < |s.net.delivered| && j != k ==> s.net.delivered[j].sn != P.Number(s, i);
      assert w.net.delivered[k] == P.Delivery(w.browser.nodeId, i + 1, w.browser.sends[i].payload);
    }
  }

  /**
   In every run of the browser with no other node sending: a send whose promise resolved was handed over exactly
   once, if and only if the receiver's filter was unset when the browser started.
   */
  lemma ResolvedIsDeliveredOnce(w: World, moves: seq<Move>, v: World, i: nat)
    requires Initial(w) && Leads(w, moves, v) && Fits(v.browser) && Alone(moves)
    requires i < |v.browser.sends| && v.browser.sends[i].phase.Resolved?
    ensures HandedOnce(v, i) <==> w.net.filter.nodeId.None?
  {
    var s := Begin(w);
    var steps, t := RunRefines(w, moves, v, s);
    P.OkMeansDeliveredOnce(s, steps, t, i);
    HandedIsDelivered(v, t, i);
  }

  function PayloadsOf(sends: seq<B.Send>): (r: seq<T.Payload>)
    ensures |r| == |sends| && forall i :: 0 <= i < |r| ==> r[i] == sends[i].payload
  {
    seq(|sends|, i requires 0 <= i < |sends| => sends[i].payload)
  }

  /** Without aborts, what was handed over is exactly the resolved sends, in order, plus at most the one in flight. */
  lemma HandedIsWhatResolved(w: World, moves: seq<Move>, v: World)
    requires Initial(w) && Leads(w, moves, v) && Fits(v.browser) && Undisturbed(moves)
    requires w.net.filter.nodeId.None?
    ensures var sends, n := v.browser.sends, |v.browser.sends| - if v.browser.awaited.Some? then 1 else 0;
            && P.Payloads(v.net.delivered) <= PayloadsOf(sends) && |v.net.delivered| in {n, |sends|}
            && forall i :: 0 <= i < |sends| ==> if i < n then sends[i].phase.Resolved? else sends[i].phase.Pending?
  {
    var s := Begin(w);
    var steps, t := RunRefines(w, moves, v, s);
    P.DeliveredIsWhatCompleted(s, steps, t);
    BusyMeansAwaited(v, t);
    assert t.sent == PayloadsOf(v.browser.sends);
    forall i | 0 <= i < |v.browser.sends|
      ensures v.browser.sends[i].phase.Resolved? <==> t.outcome[i].Completed?
      ensures v.browser.sends[i].phase.Pending? <==> t.outcome[i].Pending?
    {
    }
  }

  /**
   Whatever is aborted, lost or sent by others: a receiver whose filter is pinned to the browser gets a subsequence
   of its sends.
   */
  lemma HandedInOrder(w: World, moves: seq<Move>, v: World)
    requires Initial(w) && Leads(w, moves, v) && Fits(v.browser) && v.net.filter.nodeId == Some(v.browser.nodeId)
    ensures exists at :: P.SubsequenceAt(P.Payloads(v.net.delivered), PayloadsOf(v.browser.sends), at)
  {
    var s := Begin(w);
    var steps, t := RunRefines(w, moves, v, s);
    P.DeliveredInOrder(s, steps, t);
    assert t.sent == PayloadsOf(v.browser.sends);
  }

  lemma {:induction false} LeadsConcat(w: World, xs: seq<Move>, v: World, ys: seq<Move>, u: World)
    requires Leads(w, xs, v) && Leads(v, ys, u)
    ensures Leads(w, xs + ys, u)
    decreases |xs|
  {
    if xs == [] {
      assert xs + ys == ys;
    } else {
      LeadsConcat(Moved(w, xs[0]), xs[1..], v, ys, u);
      assert (xs + ys)[1..] == xs[1..] + ys;
    }
  }

  function Firings(i: nat, n: nat): seq<Move> {
    if n == 0 then [] else [Do(B.TimerFires(i, true))] + Firings(i, n - 1)
  }

  lemma {:induction false} FiringsGoOut(w: World, n: nat) returns (v: World)
    requires B.Valid(w.browser) && w.browser.awaited.Some? && n > 0
    ensures var i := w.browser.awaited.value; var f := B.Frame(w.browser, i);
            && Leads(w, Firings(i, n), v) && Undisturbed(Firings(i, n))
            && v.browser == w.browser.(wire := w.browser.wire + T.Copy(f, n)) && f in v.net.frames
    decreases n
  {
    var i := w.browser.awaited.value;
    var f := B.Frame(w.browser, i);
    var moves := Firings(i, n);
    assert moves[1..] == Firings(i, n - 1);
    var mid := Moved(w, moves[0]);
    B.StepKeepsValid(w.browser, B.TimerFires(i, true));
    assert mid.browser.wire == w.browser.wire + [f] && f in Frames(mid.browser);
    if n == 1 {
      v := mid;
      assert Firings(i, 0) == [];
      assert w.browser.wire + [f] == w.browser.wire + T.Copy(f, 1);
    } else {
      v := FiringsGoOut(mid, n - 1);
      assert w.browser.wire + [f] + T.Copy(f, n - 1) == w.browser.wire + T.Copy(f, n);
    }
  }

  /**
   From every state with a send awaited, whatever the network has lost, and for every `n > 0`: there is a run in which
   exactly `n` more copies of its frame go out and its promise resolves.  Nobody else sends in it.
   */
  lemma SendResolvesAfter(w: World, n: nat, ackId: T.NodeId) returns (moves: seq<Move>, v: World)
    requires B.Valid(w.browser) && w.browser.awaited.Some? && n > 0
    ensures Leads(w, moves, v) && Undisturbed(moves)
    ensures var i := w.browser.awaited.value;
            && v.browser.wire == w.browser.wire + T.Copy(B.Frame(w.browser, i), n)
            && i < |v.browser.sends| && v.browser.sends[i].phase.Resolved? && v.browser.awaited.None?
  {
    var i := w.browser.awaited.value;
    var f := B.Frame(w.browser, i);
    var ack := T.Ack(f.sn, ackId);
    var sent := FiringsGoOut(w, n);
    var arrived := Moved(sent, Arrives(f, ackId));
    assert P.Receipt(ack, f.nodeId) in arrived.net.acks;
    v := Moved(arrived, Do(B.Incoming(ack, true)));
    var back := [Arrives(f, ackId), Do(B.Incoming(ack, true))];
    assert back[1..] == [Do(B.Incoming(ack, true))] && back[1..][1..] == [];
    assert Leads(arrived, back[1..], v);
    LeadsConcat(w, Firings(i, n), sent, back, v);
    moves := Firings(i, n) + back;
  }

  // ---------------------------------------------------------------------------
  // The browser as receiver
  // ---------------------------------------------------------------------------

  /** A sender of the protocol and the browser that receives its frames. */
  datatype Pair = Pair(sender: P.System, browser: B.State)

  datatype PairMove = Sends(step: P.Step) | Browses(op: B.Op)

  /** The sender takes acks the browser gave to its carrier; the browser takes in frames of the network. */
  ghost predicate CanPair(p: Pair, m: PairMove) {
    match m
    case Sends(step) =>
      P.Enabled(p.sender, step) && !step.Arrive? && (step.TakeAck? ==> step.receipt.ack in p.browser.wire)
    case Browses(op) =>
      && B.Valid(p.browser) && B.Enabled(p.browser, op)
      && (op.Incoming? && op.msg.Normal? ==> P.Enabled(p.sender, P.Arrive(op.msg, p.browser.nodeId)))
  }

  ghost function Paired(p: Pair, m: PairMove): Pair
    requires CanPair(p, m)
  {
    match m
    case Sends(step) => p.(sender := P.Next(p.sender, step))
    case Browses(op) =>
      Pair(if op.Incoming? && op.msg.Normal? then P.Next(p.sender, P.Arrive(op.msg, p.browser.nodeId)) else p.sender,
           B.Next(p.browser, op))
  }

  ghost predicate PairLeads(p: Pair, moves: seq<PairMove>, q: Pair)
    decreases |moves|
  {
    if moves == [] then p == q
    else CanPair(p, moves[0]) && PairLeads(Paired(p, moves[0]), moves[1..], q)
  }

  /** The browser's filter and handler calls are those of the protocol's receiver, and its acks are on the network. */
  ghost predicate Receives(p: Pair) {
    && B.Valid(p.browser) && p.browser.filter == p.sender.net.filter
    && p.browser.delivered == P.Payloads(p.sender.net.delivered)
    && (forall a <- p.browser.wire :: a.Ack? ==> P.OnNetwork(a, p.sender))
  }

  /** The browser's receive half is the step Arrive, acking under the browser's own id. */
  lemma BrowserRefinesArrive(p: Pair, f: T.TransportMsg, up: bool)
    requires Receives(p) && CanPair(p, Browses(B.Incoming(f, up))) && f.Normal?
    ensures Receives(Paired(p, Browses(B.Incoming(f, up))))
    ensures up ==> T.Ack(f.sn, p.browser.nodeId) in B.Next(p.browser, B.Incoming(f, up)).wire
  {
    var q := Paired(p, Browses(B.Incoming(f, up)));
    B.StepKeepsValid(p.browser, B.Incoming(f, up));
    assert P.Receipt(T.Ack(f.sn, p.browser.nodeId), f.nodeId) in q.sender.net.acks;
    forall a <- q.browser.wire | a.Ack?
      ensures P.OnNetwork(a, q.sender)
    {
      if a in p.browser.wire {
        assert P.OnNetwork(a, p.sender);
        var r :| r in p.sender.net.acks && r.ack == a;
        assert r in q.sender.net.acks;
      }
    }
  }

  lemma OtherPairMove(p: Pair, m: PairMove)
    requires Receives(p) && CanPair(p, m) && !(m.Browses? && m.op.Incoming? && m.op.msg.Normal?)
    ensures Receives(Paired(p, m))
  {
    var q := Paired(p, m);
    if m.Browses? {
      B.StepKeepsValid(p.browser, m.op);
      assert forall a <- q.browser.wire :: a.Ack? ==> a in p.browser.wire;
    }
    assert q.sender.net.acks == p.sender.net.acks;
    assert forall a <- p.browser.wire :: a.Ack? ==> P.OnNetwork(a, q.sender);
  }

  ghost predicate OnlySender(moves: seq<PairMove>) {
    forall m <- moves :: m.Sends? ==> !m.step.Inject?
  }

  /** Every run of the pair is a run of the protocol, and the browser's receiver is the protocol's. */
  lemma {:induction false} PairRefines(p: Pair, moves: seq<PairMove>, q: Pair) returns (steps: seq<P.Step>)
    requires Receives(p) && PairLeads(p, moves, q)
    ensures P.Leads(p.sender, steps, q.sender) && Receives(q)
    ensures OnlySender(moves) ==> P.NoForeign(steps)
    decreases |moves|
  {
    if moves == [] {
      steps := [];
    } else {
      var m, mid := moves[0], Paired(p, moves[0]);
      assert m in moves && forall x <- moves[1..] :: x in moves;
      var arrives := m.Browses? && m.op.Incoming? && m.op.msg.Normal?;
      if arrives {
        BrowserRefinesArrive(p, m.op.msg, m.op.carrierUp);
      } else {
        OtherPairMove(p, m);
      }
      var rest := PairRefines(mid, moves[1..], q);
      if arrives || m.Sends? {
        var step := if arrives then P.Arrive(m.op.msg, p.browser.nodeId) else m.step;
        steps := [step] + rest;
        assert steps[1..] == rest;
      } else {
        steps := rest;
      }
    }
  }

  /**
   The direction answers travel: a send of the backend that returned Ok was handed to the browser's handler exactly
   once, if and only if the browser's filter was unset at the start.
   */
  lemma OkIsHandledOnce(p: Pair, moves: seq<PairMove>, q: Pair, i: nat)
    requires P.Initial(p.sender) && Receives(p) && PairLeads(p, moves, q) && OnlySender(moves) && P.Fits(q.sender)
    requires i < |q.sender.outcome| && q.sender.outcome[i].Completed?
    ensures |q.sender.sent| == |q.sender.outcome| && q.browser.delivered == P.Payloads(q.sender.net.delivered)
    ensures P.DeliveredOnce(q.sender, i) <==> p.browser.filter.nodeId.None?
  {
    var steps := PairRefines(p, moves, q);
    P.OkMeansDeliveredOnce(p.sender, steps, q.sender, i);
  }
}
