/**
 One sender, one receiver and a network that loses, duplicates and reorders.

 The network is the set of frames ever put on it: a frame may be delivered never, once or
 many times, in any order.  Other nodes may inject frames of their own.  The receiver runs
 the filter of TransportHandler.dfy; the sender is the caller of `send`, which holds the handler
 mutably and so has at most one send pending, may be dropped at any await, and may fail to encode.
 The backend numbers its sends from 0 and the browser from 1.
 */
module StopAndWait {
  import opened Wrappers
  import opened TransportHandler

  /**
   An ack on the network and the node whose frame it acknowledges.  The id in the ack itself is what the receiver
   writes there: the backend repeats the frame's, the browser writes its own.
   */
  datatype Receipt = Receipt(ack: TransportMsg, of: NodeId)

  /** `Completed` keeps whose frame the ack acknowledged that ended the send; the code does not know it. */
  datatype Outcome = Pending | Completed(of: NodeId) | Abandoned

  datatype Delivery = Delivery(nodeId: NodeId, sn: nat, payload: Payload)

  /** Everything beyond the sender: what is in flight, and the receiver. */
  datatype Net = Net(
    frames: set<TransportMsg>,
    acks: set<Receipt>,
    filter: Filter,
    delivered: seq<Delivery>)

  datatype System = System(
    me: NodeId,
    first: nat,
    sent: seq<Payload>,
    outcome: seq<Outcome>,
    net: Net)

  datatype Step =
    | Start(payload: Payload)
    | FailToEncode(lost: Payload)
    | Transmit
    | Arrive(frame: TransportMsg, ackId: NodeId)
    | TakeAck(receipt: Receipt)
    | Cancel
    | Inject(foreign: TransportMsg)

  /** The number of the i-th send, and what of it goes on the wire. */
  function Number(s: System, i: nat): nat { s.first + i }

  function WireSn(s: System, i: nat): nat { Wrap(Number(s, i)) }

  /** A sender is pending exactly when its last send is. */
  predicate Busy(s: System) {
    s.outcome != [] && s.outcome[|s.outcome| - 1].Pending?
  }

  function Current(s: System): nat
    requires Busy(s)
  {
    |s.outcome| - 1
  }

  /** The frame of the i-th send. */
  function FrameOf(s: System, i: nat): TransportMsg
    requires i < |s.sent|
  {
    Normal(WireSn(s, i), s.me, s.sent[i])
  }

  /** A fresh sender: its random node id is not the one the receiver's filter may be pinned to. */
  ghost predicate Initial(s: System) {
    && s.sent == [] && s.outcome == [] && s.net.frames == {} && s.net.acks == {} && s.net.delivered == []
    && s.net.filter.nodeId != Some(s.me)
    && (s.net.filter.nodeId.None? <==> s.net.filter.lastSn.None?)
  }

  ghost predicate Enabled(s: System, step: Step) {
    |s.sent| == |s.outcome| &&
    match step
    case Start(_) => !Busy(s)
    case FailToEncode(_) => !Busy(s)
    case Transmit => Busy(s)
    case Arrive(f, _) => f in s.net.frames && f.Normal?
    case TakeAck(r) => Busy(s) && r in s.net.acks && r.ack.Ack?
    case Cancel => Busy(s)
    case Inject(f) => f.Normal? && f.nodeId != s.me
  }

  /** The receive callback, seen from the network: acknowledge, filter, hand over. */
  function ArriveAt(n: Net, f: TransportMsg, ackId: NodeId): Net
    requires f.Normal?
  {
    n.(acks := n.acks + {Receipt(Ack(f.sn, ackId), f.nodeId)},
       filter := Advance(n.filter, f.nodeId, f.sn),
       delivered := if Accepts(n.filter, f.nodeId, f.sn)
                    then n.delivered + [Delivery(f.nodeId, f.sn, f.payload)]
                    else n.delivered)
  }

  function AddFrame(s: System, f: TransportMsg): System {
    s.(net := s.net.(frames := s.net.frames + {f}))
  }

  ghost function Next(s: System, step: Step): System
    requires Enabled(s, step)
  {
    match step
    case Start(p) => s.(sent := s.sent + [p], outcome := s.outcome + [Pending])
    case FailToEncode(p) => s.(sent := s.sent + [p], outcome := s.outcome + [Abandoned])
    case Transmit => AddFrame(s, FrameOf(s, Current(s)))
    case Arrive(f, ackId) => s.(net := ArriveAt(s.net, f, ackId))
    case TakeAck(r) =>
      if r.ack.sn == WireSn(s, Current(s)) then s.(outcome := s.outcome[Current(s) := Completed(r.of)]) else s
    case Cancel => s.(outcome := s.outcome[Current(s) := Abandoned])
    case Inject(f) => AddFrame(s, f)
  }

  /** `steps` can be taken from `s`, and `t` is where they end. */
  ghost predicate Leads(s: System, steps: seq<Step>, t: System)
    decreases |steps|
  {
    if steps == [] then s == t
    else Enabled(s, steps[0]) && Leads(Next(s, steps[0]), steps[1..], t)
  }

  // ---------------------------------------------------------------------------
  // What every step keeps
  // ---------------------------------------------------------------------------

  ghost predicate HasSn(ds: seq<Delivery>, sn: nat) {
    exists d <- ds :: d.sn == sn
  }

  ghost predicate Growing(ds: seq<Delivery>) {
    forall i, j :: 0 <= i < j < |ds| ==> ds[i].sn < ds[j].sn
  }

  ghost predicate DeliveredSn(s: System, sn: nat) { HasSn(s.net.delivered, sn) }

  /** The numbers have not wrapped. */
  predicate Fits(s: System) { s.first + |s.sent| <= SN_MODULUS }

  /** The number of one of the sender's sends. */
  predicate Own(s: System, sn: nat) { s.first <= sn < s.first + |s.sent| }

  ghost predicate FramesInv(s: System) {
    forall f <- s.net.frames ::
      f.Normal? && (f.nodeId == s.me ==> Own(s, f.sn) && f.payload == s.sent[f.sn - s.first])
  }

  /** Deliveries come from the one pinned sender, in growing order, up to the filter's last number. */
  ghost predicate DeliveryInv(s: System) {
    var n := s.net;
    && (n.filter.nodeId.None? <==> n.filter.lastSn.None?)
    && (n.filter.nodeId.None? ==> n.delivered == [])
    && (n.filter.nodeId == Some(s.me) ==> n.delivered != [])
    && (n.delivered != [] ==> n.filter.lastSn == Some(n.delivered[|n.delivered| - 1].sn))
    && (forall d <- n.delivered :: Some(d.nodeId) == n.filter.nodeId && Normal(d.sn, d.nodeId, d.payload) in n.frames)
    && Growing(n.delivered)
  }

  /** No send before the last is still pending. */
  ghost predicate OrderInv(s: System) {
    |s.sent| == |s.outcome| && forall i :: 0 <= i < |s.outcome| - 1 ==> !s.outcome[i].Pending?
  }

  /** The send was not ended by anything but an ack of its own frames. */
  predicate Genuine(s: System, i: nat)
    requires i < |s.outcome|
  {
    s.outcome[i].Pending? || s.outcome[i] == Completed(s.me)
  }

  /** An own frame numbered like this was acknowledged. */
  ghost predicate Acked(s: System, sn: nat) {
    exists r <- s.net.acks :: r.of == s.me && r.ack.sn == sn
  }

  /** Acks of the sender's frames, and what a genuine one stands for while the filter is the sender's. */
  ghost predicate ReceiptInv(s: System, r: Receipt) {
    && r.ack.Ack? && s.net.filter.nodeId.Some?
    && (r.of == s.me ==> Own(s, r.ack.sn))
    && (r.of == s.me && Pinned(s) && |s.sent| == |s.outcome| && Genuine(s, r.ack.sn - s.first)
        ==> DeliveredSn(s, r.ack.sn))
  }

  ghost predicate AckInv(s: System) {
    && (forall r <- s.net.acks :: ReceiptInv(s, r))
    && (forall i :: 0 <= i < |s.outcome| && s.outcome[i] == Completed(s.me) ==> Acked(s, Number(s, i)))
  }

  predicate Pinned(s: System) { s.net.filter.nodeId == Some(s.me) }

  ghost predicate Inv(s: System) {
    OrderInv(s) && FramesInv(s) && DeliveryInv(s) && AckInv(s)
  }

  lemma ArriveKeepsDeliveries(s: System, f: TransportMsg, ackId: NodeId)
    requires DeliveryInv(s) && Enabled(s, Arrive(f, ackId))
    ensures var t := Next(s, Arrive(f, ackId));
            && DeliveryInv(t) && s.net.delivered <= t.net.delivered
            && (Accepts(s.net.filter, f.nodeId, f.sn) ==> DeliveredSn(t, f.sn))
  {
    var n, m := s.net, ArriveAt(s.net, f, ackId);
    if Accepts(n.filter, f.nodeId, f.sn) {
      var k := |n.delivered|;
      assert m.delivered[k].sn == f.sn;
      forall i, j | 0 <= i < j < |m.delivered|
        ensures m.delivered[i].sn < m.delivered[j].sn
      {
        if j == k {
          assert i == k - 1 || n.delivered[i].sn < n.delivered[k - 1].sn;
        }
      }
    }
  }

  /** A frame of the sender that is acked while its send is pending or was acked before has been delivered. */
  lemma AckedIsDelivered(s: System, f: TransportMsg, ackId: NodeId)
    requires Inv(s) && Enabled(s, Arrive(f, ackId))
    requires f.nodeId == s.me && Pinned(s) && Genuine(s, f.sn - s.first)
    ensures DeliveredSn(Next(s, Arrive(f, ackId)), f.sn)
  {
    ArriveKeepsDeliveries(s, f, ackId);
    if !Accepts(s.net.filter, f.nodeId, f.sn) {
      var last := s.net.delivered[|s.net.delivered| - 1];
      assert last in s.net.delivered;
      if s.outcome[f.sn - s.first].Pending? {
        assert f.sn == Number(s, |s.outcome| - 1);
        assert last.sn == f.sn;
      } else {
        assert Acked(s, f.sn);
      }
      DeliveredStays(s, f, ackId, f.sn);
    }
  }

  lemma DeliveredStays(s: System, f: TransportMsg, ackId: NodeId, sn: nat)
    requires DeliveryInv(s) && Enabled(s, Arrive(f, ackId)) && DeliveredSn(s, sn)
    ensures DeliveredSn(Next(s, Arrive(f, ackId)), sn)
  {
    var d :| d in s.net.delivered && d.sn == sn;
    assert d in Next(s, Arrive(f, ackId)).net.delivered;
  }

  lemma ArriveKeepsAcks(s: System, f: TransportMsg, ackId: NodeId)
    requires Inv(s) && Enabled(s, Arrive(f, ackId))
    ensures AckInv(Next(s, Arrive(f, ackId)))
  {
    var t := Next(s, Arrive(f, ackId));
    forall r <- t.net.acks
      ensures ReceiptInv(t, r)
    {
      if r in s.net.acks {
        assert ReceiptInv(s, r);
        if DeliveredSn(s, r.ack.sn) {
          DeliveredStays(s, f, ackId, r.ack.sn);
        }
      } else if r.of == s.me {
        if Pinned(s) && Genuine(s, f.sn - s.first) {
          AckedIsDelivered(s, f, ackId);
        } else {
          ArriveKeepsDeliveries(s, f, ackId);
        }
      }
    }
    forall i | 0 <= i < |t.outcome| && t.outcome[i] == Completed(t.me)
      ensures Acked(t, Number(t, i))
    {
      assert Acked(s, Number(s, i));
      var r :| r in s.net.acks && r.of == s.me && r.ack.sn == Number(s, i);
      assert r in t.net.acks;
    }
  }

  /** Steps of the sender alone leave what was delivered as it is. */
  lemma SenderStepKeepsAcks(s: System, t: System)
    requires Inv(s) && t == s.(sent := t.sent, outcome := t.outcome)
    requires |s.outcome| <= |t.outcome| == |t.sent|
    requires forall i :: 0 <= i < |s.outcome| && Genuine(t, i) ==> Genuine(s, i)
    requires forall i :: 0 <= i < |t.outcome| && t.outcome[i] == Completed(t.me) ==> Acked(s, Number(s, i))
    ensures AckInv(t)
  {
    forall r <- t.net.acks
      ensures ReceiptInv(t, r)
    {
      assert ReceiptInv(s, r);
    }
    forall i | 0 <= i < |t.outcome| && t.outcome[i] == Completed(t.me)
      ensures Acked(t, Number(t, i))
    {
      assert Acked(s, Number(s, i));
    }
  }

  lemma StepKeepsInv(s: System, step: Step)
    requires Inv(s) && Enabled(s, step) && Fits(Next(s, step))
    ensures Inv(Next(s, step))
  {
    var t := Next(s, step);
    match step
    case Arrive(f, ackId) =>
      ArriveKeepsDeliveries(s, f, ackId);
      ArriveKeepsAcks(s, f, ackId);
    case Transmit => AddFrameKeepsInv(s, FrameOf(s, Current(s)));
    case Inject(f) => AddFrameKeepsInv(s, f);
    case TakeAck(r) =>
      assert r.ack.sn == WireSn(s, Current(s)) && r.of == s.me ==> Acked(s, Number(s, Current(s)));
      SenderStepKeepsAcks(s, t);
    case _ => SenderStepKeepsAcks(s, t);
  }

  lemma AddFrameKeepsInv(s: System, f: TransportMsg)
    requires Inv(s) && f.Normal?
    requires f.nodeId == s.me ==> Own(s, f.sn) && f.payload == s.sent[f.sn - s.first]
    ensures Inv(AddFrame(s, f))
  {
    var t := AddFrame(s, f);
    assert forall r <- t.net.acks :: ReceiptInv(s, r);
    assert forall sn :: DeliveredSn(s, sn) <==> DeliveredSn(t, sn);
    assert forall sn :: Acked(s, sn) <==> Acked(t, sn);
  }

  lemma {:induction false} SentGrows(s: System, steps: seq<Step>, t: System)
    requires Leads(s, steps, t)
    ensures s.sent <= t.sent && s.me == t.me && s.first == t.first
    ensures s.net.frames <= t.net.frames && s.net.delivered <= t.net.delivered
    decreases |steps|
  {
    if steps != [] {
      SentGrows(Next(s, steps[0]), steps[1..], t);
    }
  }

  lemma {:induction false} RunKeepsInv(s: System, steps: seq<Step>, t: System)
    requires Inv(s) && Leads(s, steps, t) && Fits(t)
    ensures Inv(t)
    decreases |steps|
  {
    if steps != [] {
      SentGrows(Next(s, steps[0]), steps[1..], t);
      StepKeepsInv(s, steps[0]);
      RunKeepsInv(Next(s, steps[0]), steps[1..], t);
    }
  }

  // ---------------------------------------------------------------------------
  // Main results
  // ---------------------------------------------------------------------------

  /** Send `i` was handed to the receiver's handler exactly once, with the payload that was sent. */
  ghost predicate DeliveredOnce(s: System, i: nat)
    requires i < |s.sent|
  {
    exists k ::
      && 0 <= k < |s.net.delivered|
      && s.net.delivered[k] == Delivery(s.me, Number(s, i), s.sent[i])
      && forall j :: 0 <= j < |s.net.delivered| && j != k ==> s.net.delivered[j].sn != Number(s, i)
  }

  /** Under the invariant a delivered number is delivered once, and is ours exactly if the filter is pinned to us. */
  lemma DeliveredOnceIff(t: System, i: nat)
    requires Inv(t) && i < |t.sent|
    ensures DeliveredOnce(t, i) <==> Pinned(t) && DeliveredSn(t, Number(t, i))
  {
    if Pinned(t) && DeliveredSn(t, Number(t, i)) {
      var d :| d in t.net.delivered && d.sn == Number(t, i);
      var k :| 0 <= k < |t.net.delivered| && t.net.delivered[k] == d;
      assert Normal(d.sn, d.nodeId, d.payload) in t.net.frames;
      assert forall j :: 0 <= j < |t.net.delivered| && j != k ==> t.net.delivered[j].sn != Number(t, i);
    }
    if DeliveredOnce(t, i) {
      var k :| 0 <= k < |t.net.delivered| && t.net.delivered[k] == Delivery(t.me, Number(t, i), t.sent[i]);
      assert t.net.delivered[k] in t.net.delivered;
    }
  }

  /**
   In every run with fewer than 2^32 sends: a send that returned Ok on an ack of one of its own frames was
   delivered exactly once if and only if the receiver's filter is pinned to this sender.
   */
  lemma OwnAckMeansDelivered(s: System, steps: seq<Step>, t: System, i: nat)
    requires Initial(s) && Leads(s, steps, t) && Fits(t)
    requires i < |t.outcome| && t.outcome[i] == Completed(t.me)
    ensures |t.sent| == |t.outcome|
    ensures DeliveredOnce(t, i) <==> Pinned(t)
  {
    RunKeepsInv(s, steps, t);
    DeliveredOnceIff(t, i);
    assert Acked(t, Number(t, i));
    var r :| r in t.net.acks && r.of == t.me && r.ack.sn == Number(t, i);
    assert ReceiptInv(t, r);
  }

  ghost predicate NoForeign(steps: seq<Step>) {
    forall step <- steps :: !step.Inject?
  }

  /** Without frames of other nodes, the filter stays where it was or becomes pinned to the sender. */
  ghost predicate AloneInv(s: System, before: Filter) {
    && (forall f <- s.net.frames :: f.nodeId == s.me)
    && (forall r <- s.net.acks :: r.of == s.me)
    && (forall o <- s.outcome :: o.Completed? ==> o.of == s.me)
    && (before.nodeId.Some? ==> s.net.filter == before)
    && (before.nodeId.None? ==> s.net.filter.nodeId.None? || Pinned(s))
  }

  lemma {:induction false} AloneRun(s: System, steps: seq<Step>, t: System, before: Filter)
    requires Leads(s, steps, t) && NoForeign(steps)
    requires before.nodeId.Some? ==> before.nodeId != Some(s.me) && before.lastSn.Some?
    requires AloneInv(s, before)
    ensures AloneInv(t, before)
    decreases |steps|
  {
    if steps != [] {
      assert steps[0] in steps;
      assert forall step <- steps[1..] :: step in steps;
      AloneRun(Next(s, steps[0]), steps[1..], t, before);
    }
  }

  /**
   With no other node sending, `send` returning Ok means delivered exactly once, if and only if the
   receiver's filter was unset when the sender started.
   */
  lemma OkMeansDeliveredOnce(s: System, steps: seq<Step>, t: System, i: nat)
    requires Initial(s) && Leads(s, steps, t) && Fits(t) && NoForeign(steps)
    requires i < |t.outcome| && t.outcome[i].Completed?
    ensures |t.sent| == |t.outcome|
    ensures DeliveredOnce(t, i) <==> s.net.filter.nodeId.None?
  {
    RunKeepsInv(s, steps, t);
    SentGrows(s, steps, t);
    AloneRun(s, steps, t, s.net.filter);
    assert t.outcome[i] in t.outcome && t.outcome[i] == Completed(t.me);
    assert Acked(t, Number(t, i));
    OwnAckMeansDelivered(s, steps, t, i);
  }

  function Payloads(ds: seq<Delivery>): (r: seq<Payload>)
    ensures |r| == |ds| && forall i :: 0 <= i < |ds| ==> r[i] == ds[i].payload
  {
    seq(|ds|, i requires 0 <= i < |ds| => ds[i].payload)
  }

  lemma {:induction false} GrowingLeavesIndexBehind(ds: seq<Delivery>, from: nat, k: nat)
    requires Growing(ds) && k < |ds| && ds[0].sn >= from
    ensures ds[k].sn >= from + k
    decreases k
  {
    if k > 0 {
      GrowingLeavesIndexBehind(ds, from, k - 1);
    }
  }

  /**
   Growing numbers from `from` on, below `from + n`, that include all of the first `c`, where at most one more
   fits, have no gaps.
   */
  lemma GrowingIsDense(ds: seq<Delivery>, from: nat, c: nat, n: nat)
    requires Growing(ds) && c <= n <= c + 1
    requires forall sn: nat :: from <= sn < from + c ==> HasSn(ds, sn)
    requires forall d <- ds :: from <= d.sn < from + n
    ensures c <= |ds| <= n && forall k :: 0 <= k < |ds| ==> ds[k].sn == from + k
  {
    assert forall k :: 0 <= k < |ds| ==> ds[k] in ds;
    forall k | 0 <= k < |ds|
      ensures from + k <= ds[k].sn < from + n
    {
      GrowingLeavesIndexBehind(ds, from, k);
    }
    DenseStart(ds, from, c);
    if |ds| > 0 {
      assert ds[|ds| - 1].sn < from + n;
    }
  }

  lemma {:induction false} DenseStart(ds: seq<Delivery>, from: nat, c: nat)
    requires Growing(ds) && forall k :: 0 <= k < |ds| ==> ds[k].sn >= from
    requires forall sn: nat :: from <= sn < from + c ==> HasSn(ds, sn)
    ensures |ds| >= c && forall i :: 0 <= i < c ==> ds[i].sn == from + i
    decreases c
  {
    if c > 0 {
      DenseStart(ds, from, c - 1);
      assert HasSn(ds, from + (c - 1));
      var d :| d in ds && d.sn == from + (c - 1);
      var k :| 0 <= k < |ds| && ds[k] == d;
      GrowingLeavesIndexBehind(ds, from, k);
    }
  }

  ghost predicate Undisturbed(steps: seq<Step>) {
    forall step <- steps :: !step.Inject? && !step.Cancel? && !step.FailToEncode?
  }

  lemma {:induction false} NothingAbandoned(s: System, steps: seq<Step>, t: System)
    requires Leads(s, steps, t) && Undisturbed(steps)
    requires forall o <- s.outcome :: !o.Abandoned?
    ensures forall o <- t.outcome :: !o.Abandoned?
    decreases |steps|
  {
    if steps != [] {
      assert steps[0] in steps;
      assert forall step <- steps[1..] :: step in steps;
      NothingAbandoned(Next(s, steps[0]), steps[1..], t);
    }
  }

  /** The sends that ended: all but the last while that is pending. */
  function Ended(s: System): nat {
    if Busy(s) then |s.outcome| - 1 else |s.outcome|
  }

  lemma CompletedIsDelivered(t: System, i: nat)
    requires Inv(t) && i < |t.outcome| && t.outcome[i] == Completed(t.me) && t.net.filter.nodeId in {None, Some(t.me)}
    ensures DeliveredSn(t, Number(t, i))
  {
    assert Acked(t, Number(t, i));
    var r :| r in t.net.acks && r.of == t.me && r.ack.sn == Number(t, i);
    assert ReceiptInv(t, r);
  }

  lemma DeliveredIsOwn(t: System, d: Delivery)
    requires Inv(t) && d in t.net.delivered && t.net.filter.nodeId in {None, Some(t.me)}
    ensures Own(t, d.sn) && d == Delivery(t.me, d.sn, t.sent[d.sn - t.first])
  {
    assert Normal(d.sn, d.nodeId, d.payload) in t.net.frames;
  }

  lemma DeliveriesAreDense(t: System)
    requires Inv(t) && t.net.filter.nodeId in {None, Some(t.me)}
    requires forall i :: 0 <= i < |t.outcome| ==> Genuine(t, i)
    ensures Ended(t) <= |t.net.delivered| <= |t.sent|
    ensures forall k :: 0 <= k < |t.net.delivered| ==> t.net.delivered[k].sn == t.first + k
  {
    forall sn: nat | t.first <= sn < t.first + Ended(t)
      ensures HasSn(t.net.delivered, sn)
    {
      assert Genuine(t, sn - t.first);
      CompletedIsDelivered(t, sn - t.first);
    }
    forall d <- t.net.delivered
      ensures t.first <= d.sn < t.first + |t.sent|
    {
      DeliveredIsOwn(t, d);
    }
    GrowingIsDense(t.net.delivered, t.first, Ended(t), |t.sent|);
  }

  /** The first `n` deliveries are the first `n` sends. */
  ghost predicate FirstDelivered(t: System, n: nat) {
    && n <= |t.sent| && n <= |t.net.delivered|
    && forall k {:trigger t.net.delivered[k]} :: 0 <= k < n ==>
         t.net.delivered[k] == Delivery(t.me, Number(t, k), t.sent[k])
  }

  /** In a state where every ended send was completed by its own ack, the deliveries are the sends, in full. */
  lemma GenuineHistory(t: System)
    requires Inv(t) && t.net.filter.nodeId in {None, Some(t.me)}
    requires forall i :: 0 <= i < |t.outcome| ==> Genuine(t, i)
    ensures Payloads(t.net.delivered) <= t.sent && Ended(t) <= |t.net.delivered|
    ensures FirstDelivered(t, |t.net.delivered|)
  {
    DeliveriesAreDense(t);
    forall k | 0 <= k < |t.net.delivered|
      ensures t.net.delivered[k] == Delivery(t.me, Number(t, k), t.sent[k])
    {
      var d := t.net.delivered[k];
      assert d in t.net.delivered && d.sn == t.first + k;
      DeliveredIsOwn(t, d);
    }
  }

  lemma AllGenuine(t: System)
    requires forall o <- t.outcome :: !o.Abandoned? && (o.Completed? ==> o.of == t.me)
    ensures forall i :: 0 <= i < |t.outcome| ==> Genuine(t, i)
  {
    forall i | 0 <= i < |t.outcome|
      ensures Genuine(t, i)
    {
      assert t.outcome[i] in t.outcome;
    }
  }

  lemma EndedAreCompleted(t: System)
    requires OrderInv(t) && forall i :: 0 <= i < |t.outcome| ==> Genuine(t, i)
    ensures forall i :: 0 <= i < |t.sent| ==> if i < Ended(t) then t.outcome[i].Completed? else t.outcome[i].Pending?
  {
    forall i | 0 <= i < |t.sent|
      ensures if i < Ended(t) then t.outcome[i].Completed? else t.outcome[i].Pending?
    {
      assert Genuine(t, i);
    }
  }

  /**
   When no send was dropped or failed to encode, the delivered history is exactly the completed sends,
   plus at most the one in flight.
   */
  lemma DeliveredIsWhatCompleted(s: System, steps: seq<Step>, t: System)
    requires Initial(s) && Leads(s, steps, t) && Fits(t) && Undisturbed(steps)
    requires s.net.filter.nodeId.None?
    ensures Payloads(t.net.delivered) <= t.sent
    ensures |t.sent| == |t.outcome| && |t.net.delivered| in {Ended(t), |t.sent|}
    ensures forall i :: 0 <= i < |t.sent| ==> if i < Ended(t) then t.outcome[i].Completed? else t.outcome[i].Pending?
  {
    RunKeepsInv(s, steps, t);
    SentGrows(s, steps, t);
    AloneRun(s, steps, t, s.net.filter);
    NothingAbandoned(s, steps, t);
    AllGenuine(t);
    GenuineHistory(t);
    EndedAreCompleted(t);
  }

  /** `xs` is what remains of `ys` at the growing positions `at`. */
  ghost predicate SubsequenceAt(xs: seq<Payload>, ys: seq<Payload>, at: seq<nat>) {
    && |at| == |xs|
    && (forall i :: 0 <= i < |at| ==> at[i] < |ys| && xs[i] == ys[at[i]])
    && (forall i, j :: 0 <= i < j < |at| ==> at[i] < at[j])
  }

  /**
   Whatever is lost, repeated, reordered, cancelled or injected: the deliveries are one sender's frames,
   without repetition and in sending order; if that sender is ours, they are a subsequence of what it sent.
   */
  lemma DeliveredInOrder(s: System, steps: seq<Step>, t: System)
    requires Initial(s) && Leads(s, steps, t) && Fits(t)
    ensures var ds := t.net.delivered;
            && (forall i, j :: 0 <= i < j < |ds| ==> ds[i].nodeId == ds[j].nodeId && ds[i].sn < ds[j].sn)
            && (forall d <- ds :: Normal(d.sn, d.nodeId, d.payload) in t.net.frames)
            && (Pinned(t) ==> exists at :: SubsequenceAt(Payloads(ds), t.sent, at))
  {
    RunKeepsInv(s, steps, t);
    var ds := t.net.delivered;
    assert forall i :: 0 <= i < |ds| ==> ds[i] in ds;
    if Pinned(t) {
      OwnDeliveriesAreSubsequence(t);
    }
  }

  lemma OwnDeliveriesAreSubsequence(t: System)
    requires Inv(t) && Pinned(t)
    ensures exists at :: SubsequenceAt(Payloads(t.net.delivered), t.sent, at)
  {
    var ds := t.net.delivered;
    forall i | 0 <= i < |ds|
      ensures Own(t, ds[i].sn) && ds[i].payload == t.sent[ds[i].sn - t.first]
    {
      assert ds[i] in ds;
      DeliveredIsOwn(t, ds[i]);
    }
    var at := seq(|ds|, i requires 0 <= i < |ds| => ds[i].sn - t.first);
    assert SubsequenceAt(Payloads(ds), t.sent, at);
  }

  /** Acks of the sender's own frames for an abandoned send end no later one. */
  lemma AbandonedAckIsIgnored(s: System, steps: seq<Step>, t: System, r: Receipt)
    requires Initial(s) && Leads(s, steps, t) && Fits(t)
    requires Enabled(t, TakeAck(r)) && r.of == t.me
    ensures Own(t, r.ack.sn)
    ensures t.outcome[r.ack.sn - t.first].Abandoned? ==> Next(t, TakeAck(r)) == t
    ensures Next(t, TakeAck(r)) != t ==> r.ack.sn == Number(t, Current(t))
  {
    RunKeepsInv(s, steps, t);
    assert ReceiptInv(t, r);
  }

  /** The three steps of a send that goes well. */
  function Completing(t: System): seq<Step>
    requires |t.sent| == |t.outcome| && Busy(t)
  {
    var f := FrameOf(t, Current(t));
    [Transmit, Arrive(f, t.me), TakeAck(Receipt(Ack(f.sn, t.me), t.me))]
  }

  /** A pending send is never stuck: one resend, one arrival and one ack complete it. */
  lemma SendCanComplete(t: System) returns (u: System)
    requires |t.sent| == |t.outcome| && Busy(t)
    ensures Leads(t, Completing(t), u) && NoForeign(Completing(t))
    ensures var f := FrameOf(t, Current(t));
            u == t.(outcome := t.outcome[Current(t) := Completed(t.me)], net := ArriveAt(AddFrame(t, f).net, f, t.me))
  {
    var f := FrameOf(t, Current(t));
    var r := Receipt(Ack(f.sn, t.me), t.me);
    var t1 := Next(t, Transmit);
    var t2 := Next(t1, Arrive(f, t.me));
    u := Next(t2, TakeAck(r));
    var more := Completing(t);
    assert more[1..] == [Arrive(f, t.me), TakeAck(r)] && more[1..][1..] == [TakeAck(r)] && more[1..][1..][1..] == [];
    assert Leads(t2, [TakeAck(r)], u);
    assert Leads(t1, [Arrive(f, t.me), TakeAck(r)], u);
  }

  lemma {:induction false} LeadsConcat(s: System, xs: seq<Step>, t: System, ys: seq<Step>, u: System)
    requires Leads(s, xs, t) && Leads(t, ys, u)
    ensures Leads(s, xs + ys, u)
    decreases |xs|
  {
    if xs == [] {
      assert xs + ys == ys;
    } else {
      LeadsConcat(Next(s, xs[0]), xs[1..], t, ys, u);
      assert (xs + ys)[1..] == xs[1..] + ys;
    }
  }

  // ---------------------------------------------------------------------------
  // The backend's code takes exactly these steps
  // ---------------------------------------------------------------------------

  /** An ack with this number is on the network, whatever id it carries. */
  ghost predicate OnNetwork(a: TransportMsg, s: System) {
    a.Ack? && exists r <- s.net.acks :: r.ack == a
  }

  /** The pending `send` of a handler and the system that contains it. */
  ghost predicate Represents(l: Loop, msg: TransportMsg, s: System) {
    && |s.sent| == |s.outcome| > 0
    && var i := |s.sent| - 1;
    && l.e.nodeId == s.me && msg == FrameOf(s, i)
    && (forall a <- l.e.incomingAcks :: OnNetwork(a, s))
    && match l.outcome
       case StillWaiting => s.outcome[i].Pending? && (l.waiting ==> msg in s.net.frames)
       case Done => s.outcome[i].Completed?
       case Cancelled => s.outcome[i].Abandoned?
       case EncodeError => false
  }

  /** The event takes the next queued ack. */
  predicate Reads(l: Loop, ev: Event) {
    l.outcome == StillWaiting && ev.ReadAck? && l.waiting && l.e.incomingAcks != []
  }

  /** The step of the system a loop event amounts to, if it amounts to one; `r` is the receipt of the ack it reads. */
  function StepOf(l: Loop, ev: Event, r: Receipt): Option<Step> {
    if l.outcome != StillWaiting then None
    else if ev.Queued? && !l.waiting then Some(Transmit)
    else if Reads(l, ev) then Some(TakeAck(r))
    else if ev.Dropped? then Some(Cancel)
    else None
  }

  /** The network only brings in acks that are on it. */
  ghost predicate Admissible(ev: Event, s: System) {
    ev.Incoming? && ev.msg.Ack? ==> OnNetwork(ev.msg, s)
  }

  /** Every event of the retry loop is one step of the system or none. */
  lemma LoopRefinesSystem(l: Loop, msg: TransportMsg, s: System, ev: Event, r: Receipt)
    requires Represents(l, msg, s) && Admissible(ev, s)
    requires Reads(l, ev) ==> r in s.net.acks && r.ack == l.e.incomingAcks[0]
    ensures match StepOf(l, ev, r)
            case None => Represents(LoopStep(l, msg, msg.sn, ev), msg, s)
            case Some(step) => Enabled(s, step) && Represents(LoopStep(l, msg, msg.sn, ev), msg, Next(s, step))
  {
    var q := l.e.incomingAcks;
    if Reads(l, ev) {
      assert q[0] in q;
    }
    if StepOf(l, ev, r).Some? {
      var t := Next(s, StepOf(l, ev, r).value);
      assert t.net.acks == s.net.acks;
      AcksStay(q, s, t);
      assert Reads(l, ev) ==> forall a <- q[1..] :: a in q;
    }
  }

  lemma AcksStay(q: seq<TransportMsg>, s: System, t: System)
    requires t.net.acks == s.net.acks && forall a <- q :: OnNetwork(a, s)
    ensures forall a <- q :: OnNetwork(a, t)
  {
    forall a <- q
      ensures OnNetwork(a, t)
    {
      assert OnNetwork(a, s);
    }
  }

  /** Starting a send is the step Start, or FailToEncode when the frame does not encode. */
  lemma SendRefinesStart(e: Endpoint, payload: Payload, encodes: bool, s: System)
    requires |s.sent| == |s.outcome| && !Busy(s) && e.nodeId == s.me && e.seqNumOut == WireSn(s, |s.sent|)
    requires forall a <- e.incomingAcks :: OnNetwork(a, s)
    ensures var l := Send(e, payload, encodes, []);
            var t := Next(s, if encodes then Start(payload) else FailToEncode(payload));
            && l.e.seqNumOut == WireSn(t, |t.sent|)
            && (if encodes then Represents(l, NextFrame(e, payload), t) else l.outcome == EncodeError)
  {
    var t := Next(s, if encodes then Start(payload) else FailToEncode(payload));
    WrapNext(Number(s, |s.sent|));
    assert Number(t, |t.sent|) == Number(s, |s.sent|) + 1;
    AcksStay(e.incomingAcks, s, t);
  }

  /** The receive callback is the step Arrive, acking under the frame's own id. */
  lemma ReceiveRefinesArrive(r: Endpoint, s: System, f: TransportMsg)
    requires Enabled(s, Arrive(f, f.nodeId))
    requires r.filter == s.net.filter && r.delivered == Payloads(s.net.delivered)
    requires forall a <- r.ackQueue :: OnNetwork(a, s)
    ensures var t := Next(s, Arrive(f, f.nodeId)); var q := Receive(r, f);
            && q.filter == t.net.filter && q.delivered == Payloads(t.net.delivered)
            && (forall a <- q.ackQueue :: OnNetwork(a, t))
            && (|r.ackQueue| < QUEUE_CAPACITY ==> Ack(f.sn, f.nodeId) in q.ackQueue)
  {
    var t := Next(s, Arrive(f, f.nodeId));
    assert Receipt(Ack(f.sn, f.nodeId), f.nodeId) in t.net.acks;
    forall a <- r.ackQueue
      ensures OnNetwork(a, t)
    {
      var x :| x in s.net.acks && x.ack == a;
      assert x in t.net.acks;
    }
  }
}
