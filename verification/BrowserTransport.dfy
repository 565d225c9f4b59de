/**
 The browser's half of the reliable transport: one send at a time, a resend timer, abort listeners
 and a filter of its own.

 `Send` objects stand for the closures of one accepted send: its promise, its timer, its two abort
 listeners and its abort controller.  The carrier is assumed not to call back into the handler from
 inside `sender`, which a WebSocket does not do.
 */
module BrowserTransport {
  import opened Wrappers
  import T = TransportHandler

  datatype Phase = Pending | Resolved | Rejected

  /** `settlements` counts the calls of `settle`, whether or not they still had an effect. */
  datatype Send = Send(
    sn: nat,
    payload: T.Payload,
    phase: Phase,
    settlements: nat,
    timerArmed: bool,
    stopListener: bool,
    abortListener: bool,
    controllerAborted: bool)

  datatype State = State(
    nodeId: T.NodeId,
    awaited: Option<nat>,
    sends: seq<Send>,
    seqNumOut: nat,
    stopped: bool,
    filter: T.Filter,
    delivered: seq<T.Payload>,
    wire: seq<T.TransportMsg>)

  /** What can reach the handler.  `carrierUp` says whether `sender` takes the frame or throws. */
  datatype Op =
    | DoSend(payload: T.Payload, carrierUp: bool)
    | Incoming(msg: T.TransportMsg, carrierUp: bool)
    | TimerFires(i: nat, carrierUp: bool)
    | Abort(i: nat)
    | Stop

  function Put(wire: seq<T.TransportMsg>, m: T.TransportMsg, carrierUp: bool): seq<T.TransportMsg> {
    if carrierUp then wire + [m] else wire
  }

  function Frame(s: State, i: nat): T.TransportMsg
    requires i < |s.sends|
  {
    T.Normal(s.sends[i].sn, s.nodeId, s.sends[i].payload)
  }

  /** `settle`: drop the timer, the slot and both listeners, then resolve or reject once. */
  function Settle(s: State, i: nat, phase: Phase): State
    requires i < |s.sends|
  {
    var d := s.sends[i];
    s.(awaited := None,
       sends := s.sends[i := d.(
         phase := if d.phase.Pending? then phase else d.phase,
         settlements := d.settlements + 1,
         timerArmed := false, stopListener := false, abortListener := false)])
  }

  /** `abort_controller.abort()`: only the first call dispatches, and only to a registered listener. */
  function AbortSend(s: State, i: nat): State
    requires i < |s.sends|
  {
    if s.sends[i].controllerAborted then s
    else
      var t := s.(sends := s.sends[i := s.sends[i].(controllerAborted := true)]);
      if s.sends[i].abortListener then Settle(t, i, Rejected) else t
  }

  predicate Refuses(s: State) { s.awaited.Some? || s.stopped }

  ghost predicate Enabled(s: State, op: Op) {
    match op
    case TimerFires(i, _) => i < |s.sends| && s.sends[i].timerArmed
    case Abort(i) => i < |s.sends|
    case _ => true
  }

  ghost function Next(s: State, op: Op): State
    requires Enabled(s, op) && Valid(s)
  {
    match op
    case DoSend(payload, up) =>
      if Refuses(s) then s
      else
        var d := Send(s.seqNumOut + 1, payload, Pending, 0, true, true, true, false);
        s.(seqNumOut := s.seqNumOut + 1, sends := s.sends + [d], awaited := Some(|s.sends|),
           wire := Put(s.wire, T.Normal(d.sn, s.nodeId, payload), up))
    case Incoming(Ack(sn, _), _) =>
      if s.awaited.Some? && s.sends[s.awaited.value].sn == sn then Settle(s, s.awaited.value, Resolved) else s
    case Incoming(Normal(sn, from, payload), up) =>
      s.(wire := Put(s.wire, T.Ack(sn, s.nodeId), up),
         filter := T.Advance(s.filter, from, sn),
         delivered := if T.Accepts(s.filter, from, sn) then s.delivered + [payload] else s.delivered)
    case TimerFires(i, up) => s.(wire := Put(s.wire, Frame(s, i), up))
    case Abort(i) => AbortSend(s, i)
    case Stop =>
      (if s.awaited.Some? then AbortSend(s, s.awaited.value) else s).(stopped := true)
  }

  predicate Owning(d: Send) {
    d.phase.Pending? && d.settlements == 0 && d.timerArmed && d.stopListener && d.abortListener && !d.controllerAborted
  }

  predicate Released(d: Send) {
    !d.phase.Pending? && d.settlements == 1 && !d.timerArmed && !d.stopListener && !d.abortListener
  }

  /** The awaited send owns its timer and listeners; every other one has settled once and owns nothing. */
  ghost predicate Valid(s: State) {
    && (s.awaited.Some? ==> s.awaited.value == |s.sends| - 1 >= 0 && !s.stopped)
    && (forall i :: 0 <= i < |s.sends| ==>
          s.sends[i].sn == i + 1
          && (if s.awaited == Some(i) then Owning(s.sends[i]) else Released(s.sends[i])))
    && s.seqNumOut == |s.sends|
    && (s.filter.nodeId.None? <==> s.filter.lastSn.None?)
  }

  /** Accepted sends keep their payload, settled ones their outcome. */
  ghost predicate Extends(s: State, t: State) {
    && |s.sends| <= |t.sends|
    && forall i :: 0 <= i < |s.sends| ==>
         && t.sends[i].payload == s.sends[i].payload
         && (!s.sends[i].phase.Pending? ==> t.sends[i].phase == s.sends[i].phase)
  }

  lemma SettleKeepsValid(s: State, phase: Phase)
    requires Valid(s) && s.awaited.Some? && !phase.Pending?
    ensures Valid(Settle(s, s.awaited.value, phase)) && Extends(s, Settle(s, s.awaited.value, phase))
  {
  }

  lemma AbortKeepsValid(s: State, i: nat)
    requires Valid(s) && i < |s.sends|
    ensures Valid(AbortSend(s, i)) && Extends(s, AbortSend(s, i))
    ensures s.awaited == Some(i) ==> AbortSend(s, i).awaited.None?
  {
  }

  lemma SendKeepsValid(s: State, payload: T.Payload, up: bool)
    requires Valid(s)
    ensures Valid(Next(s, DoSend(payload, up))) && Extends(s, Next(s, DoSend(payload, up)))
  {
  }

  /** Every operation keeps that, and the sends already accepted keep their number and payload. */
  lemma StepKeepsValid(s: State, op: Op)
    requires Valid(s) && Enabled(s, op)
    ensures Valid(Next(s, op)) && Extends(s, Next(s, op))
  {
    match op
    case DoSend(payload, up) => SendKeepsValid(s, payload, up);
    case Incoming(m, up) =>
      if s.awaited.Some? {
        SettleKeepsValid(s, Resolved);
      }
    case TimerFires(i, up) =>
    case Abort(i) => AbortKeepsValid(s, i);
    case Stop =>
      if s.awaited.Some? {
        AbortKeepsValid(s, s.awaited.value);
      }
  }

  ghost predicate Leads(s: State, ops: seq<Op>, t: State)
    requires Valid(s)
    decreases |ops|
  {
    if ops == [] then s == t
    else Enabled(s, ops[0]) && (StepKeepsValid(s, ops[0]); Leads(Next(s, ops[0]), ops[1..], t))
  }

  /**
   Over any run: what settled stays settled the same way, `settle` runs at most once per send, a settled
   send owns no timer, listener or slot, and accepted sends are numbered 1, 2, 3, ... without a gap.
   */
  lemma {:induction false} SettlesOnce(s: State, ops: seq<Op>, t: State)
    requires Valid(s) && Leads(s, ops, t)
    ensures Valid(t) && |s.sends| <= |t.sends|
    ensures forall i :: 0 <= i < |t.sends| ==> t.sends[i].settlements <= 1 && t.sends[i].sn == i + 1
    ensures forall i :: 0 <= i < |t.sends| && !t.sends[i].phase.Pending? ==>
              Released(t.sends[i]) && t.awaited != Some(i)
    ensures forall i :: 0 <= i < |s.sends| && !s.sends[i].phase.Pending? ==> t.sends[i].phase == s.sends[i].phase
    decreases |ops|
  {
    if ops != [] {
      StepKeepsValid(s, ops[0]);
      SettlesOnce(Next(s, ops[0]), ops[1..], t);
    }
  }

  /** The operation concerns send `i` and no other. */
  predicate Concerns(op: Op, s: State, i: nat)
    requires i < |s.sends|
  {
    op == Abort(i) || (op.TimerFires? && op.i == i) || (op.Incoming? && op.msg.Ack? && op.msg.sn == s.sends[i].sn)
  }

  /** A late abort or ack for a settled send changes nothing but that controller's own flag; its timer cannot fire. */
  lemma LateEventsAreInert(s: State, op: Op, i: nat)
    requires Valid(s) && Enabled(s, op) && i < |s.sends| && !s.sends[i].phase.Pending?
    requires Concerns(op, s, i)
    ensures !op.TimerFires?
    ensures Next(s, op) == s.(sends := s.sends[i := s.sends[i].(controllerAborted :=
                                s.sends[i].controllerAborted || op == Abort(i))])
  {
  }

  /** A refused send changes nothing: no number is consumed and no frame goes out. */
  lemma RefusedSendConsumesNothing(s: State, payload: T.Payload, up: bool)
    requires Valid(s)
    ensures Next(s, DoSend(payload, up)) == s <==> Refuses(s)
    ensures !Refuses(s) ==> Next(s, DoSend(payload, up)).seqNumOut == s.seqNumOut + 1
  {
    if !Refuses(s) {
      assert |Next(s, DoSend(payload, up)).sends| == |s.sends| + 1;
    }
  }

  /** After a send settled, no frame of it goes out any more. */
  lemma {:induction false} SettledSendIsSilent(s: State, ops: seq<Op>, t: State, i: nat)
    requires Valid(s) && Leads(s, ops, t) && i < |s.sends| && !s.sends[i].phase.Pending?
    ensures s.wire <= t.wire && t.nodeId == s.nodeId
    ensures forall k :: |s.wire| <= k < |t.wire| ==> !(t.wire[k].Normal? && t.wire[k].sn == i + 1)
    decreases |ops|
  {
    if ops != [] {
      StepKeepsValid(s, ops[0]);
      var mid := Next(s, ops[0]);
      assert s.wire <= mid.wire;
      SettledSendIsSilent(mid, ops[1..], t, i);
    }
  }

  /** The timer of the `i`-th send fires `n` times, with the carrier up. */
  function Firings(i: nat, n: nat): seq<Op> {
    if n == 0 then [] else [TimerFires(i, true)] + Firings(i, n - 1)
  }

  /** Each firing of the awaited send's timer puts one more copy of its frame on the wire, and it stays awaited. */
  lemma {:induction false} EveryFiringResends(s: State, n: nat)
    requires Valid(s) && s.awaited.Some?
    ensures Leads(s, Firings(s.awaited.value, n), s.(wire := s.wire + T.Copy(Frame(s, s.awaited.value), n)))
    decreases n
  {
    var i := s.awaited.value;
    var f := Frame(s, i);
    if n == 0 {
      assert s.wire + T.Copy(f, 0) == s.wire;
    } else {
      var ops := Firings(i, n);
      StepKeepsValid(s, ops[0]);
      EveryFiringResends(s.(wire := s.wire + [f]), n - 1);
      assert ops[1..] == Firings(i, n - 1);
      assert s.wire + [f] + T.Copy(f, n - 1) == s.wire + T.Copy(f, n);
    }
  }

  /**
   A send that is not refused puts one frame of its own on the wire, under the next number, and one more copy each time
   its timer fires; the first ack with that number, whatever node id it carries, resolves it.
   */
  lemma AcceptedSendGoesOut(s: State, payload: T.Payload, n: nat, ackId: T.NodeId, up: bool) returns (t: State)
    requires Valid(s) && !Refuses(s)
    ensures Leads(s, [DoSend(payload, true)] + Firings(|s.sends|, n), t)
    ensures Valid(t) && t.wire == s.wire + T.Copy(T.Normal(|s.sends| + 1, s.nodeId, payload), n + 1)
    ensures t.awaited == Some(|s.sends|) && t.sends[|s.sends|].phase.Pending?
    ensures var u := Next(t, Incoming(T.Ack(|s.sends| + 1, ackId), up));
            u.sends[|s.sends|].phase.Resolved? && u.awaited.None?
  {
    var ops := [DoSend(payload, true)] + Firings(|s.sends|, n);
    StepKeepsValid(s, ops[0]);
    var mid := Next(s, ops[0]);
    EveryFiringResends(mid, n);
    assert ops[1..] == Firings(|s.sends|, n);
    var f := T.Normal(|s.sends| + 1, s.nodeId, payload);
    t := mid.(wire := mid.wire + T.Copy(f, n));
    assert s.wire + [f] + T.Copy(f, n) == s.wire + T.Copy(f, n + 1);
  }

  /** `stop` settles the pending send and makes every later one be refused. */
  lemma StopEndsEverything(s: State)
    requires Valid(s)
    ensures var t := Next(s, Stop);
            t.awaited == None && Refuses(t) && forall i :: 0 <= i < |t.sends| ==> Released(t.sends[i])
  {
    StepKeepsValid(s, Stop);
  }

  // ---------------------------------------------------------------------------
  // The objects themselves
  // ---------------------------------------------------------------------------

  class SnFilter {
    var nodeId: Option<T.NodeId>
    var lastSn: Option<nat>

    function Value(): T.Filter
      reads this
    {
      T.Filter(nodeId, lastSn)
    }

    constructor ()
      ensures Value() == T.EMPTY_FILTER
    {
      nodeId, lastSn := None, None;
    }

    method Accept(from: T.NodeId, sn: nat) returns (accepted: bool)
      requires nodeId.None? <==> lastSn.None?
      modifies this
      ensures accepted == T.Accepts(old(Value()), from, sn)
      ensures Value() == T.Advance(old(Value()), from, sn)
    {
      if nodeId == None || lastSn == None {
        nodeId := Some(from);
        lastSn := Some(sn);
        return true;
      }
      if nodeId != Some(from) {
        return false;
      }
      if sn <= lastSn.value {
        return false;
      }
      lastSn := Some(sn);
      return true;
    }
  }

  class Handler {
    const nodeIdOut: T.NodeId
    const snFilter: SnFilter
    var awaited: Option<nat>
    var sends: seq<Send>
    var seqNumOut: nat
    var stopped: bool
    var delivered: seq<T.Payload>
    var wire: seq<T.TransportMsg>

    function Value(): State
      reads this, snFilter
    {
      State(nodeIdOut, awaited, sends, seqNumOut, stopped, snFilter.Value(), delivered, wire)
    }

    constructor (id: T.NodeId)
      ensures Valid(Value()) && fresh(snFilter)
      ensures Value() == State(id, None, [], 0, false, T.EMPTY_FILTER, [], [])
    {
      nodeIdOut := id;
      snFilter := new SnFilter();
      awaited, sends, seqNumOut, stopped, delivered, wire := None, [], 0, false, [], [];
    }

    method Sender(m: T.TransportMsg, carrierUp: bool)
      modifies this`wire
      ensures wire == Put(old(wire), m, carrierUp)
    {
      if carrierUp {
        wire := wire + [m];
      }
    }

    method SettleSend(i: nat, phase: Phase)
      requires i < |sends|
      modifies this`awaited, this`sends
      ensures Value() == Settle(old(Value()), i, phase)
    {
      var d := sends[i];
      awaited := None;
      d := d.(timerArmed := false, stopListener := false, abortListener := false,
              settlements := d.settlements + 1);
      if d.phase.Pending? {
        d := d.(phase := phase);
      }
      sends := sends[i := d];
    }

    method AbortController(i: nat)
      requires i < |sends|
      modifies this`awaited, this`sends
      ensures Value() == AbortSend(old(Value()), i)
    {
      if !sends[i].controllerAborted {
        sends := sends[i := sends[i].(controllerAborted := true)];
        if sends[i].abortListener {
          SettleSend(i, Rejected);
        }
      }
    }

    method AbortCurrentDelivery()
      requires Valid(Value())
      modifies this`awaited, this`sends
      ensures var s := old(Value());
              Value() == if s.awaited.Some? then AbortSend(s, s.awaited.value) else s
    {
      if awaited.Some? {
        AbortController(awaited.value);
      }
    }

    method StopAll()
      requires Valid(Value())
      modifies this
      ensures Valid(Value()) && Value() == Next(old(Value()), Stop)
    {
      AbortCurrentDelivery();
      stopped := true;
      // The stop signal has no listener left to call.
      assert forall i :: 0 <= i < |sends| ==> !sends[i].stopListener;
    }

    method HandleIncoming(m: T.TransportMsg, carrierUp: bool)
      requires Valid(Value())
      modifies this, snFilter
      ensures Valid(Value()) && Value() == Next(old(Value()), Incoming(m, carrierUp))
    {
      match m {
        case Ack(sn, _) =>
          if awaited.Some? && sends[awaited.value].sn == sn {
            SettleSend(awaited.value, Resolved);
            awaited := None;
          }
        case Normal(sn, from, payload) =>
          Sender(T.Ack(sn, nodeIdOut), carrierUp);
          var accepted := snFilter.Accept(from, sn);
          if !accepted {
            return;
          }
          delivered := delivered + [payload];
      }
    }

    /** The timer callback: clear, send again, arm again. */
    method Resend(i: nat, carrierUp: bool)
      requires Valid(Value()) && i < |sends| && sends[i].timerArmed
      modifies this
      ensures Valid(Value()) && Value() == Next(old(Value()), TimerFires(i, carrierUp))
    {
      sends := sends[i := sends[i].(timerArmed := false)];
      Sender(T.Normal(sends[i].sn, nodeIdOut, sends[i].payload), carrierUp);
      sends := sends[i := sends[i].(timerArmed := true)];
    }

    method SendPayload(payload: T.Payload, carrierUp: bool) returns (accepted: bool)
      requires Valid(Value())
      modifies this
      ensures accepted == !Refuses(old(Value()))
      ensures Valid(Value()) && Value() == Next(old(Value()), DoSend(payload, carrierUp))
    {
      if awaited.Some? {
        return false;
      }
      if stopped {
        return false;
      }
      seqNumOut := seqNumOut + 1;
      var d := Send(seqNumOut, payload, Pending, 0, false, true, true, false);
      Sender(T.Normal(d.sn, nodeIdOut, payload), carrierUp);
      sends := sends + [d.(timerArmed := true)];
      awaited := Some(|sends| - 1);
      return true;
    }
  }
}
