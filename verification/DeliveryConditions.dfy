/**
 Exactly when a completed send was delivered.

 An ack is matched by its number alone, so frames of other nodes can complete a send that was never delivered;
 and the number is a wrapping u32, so numbers run out.  Both are shown by runs, and for each the condition is
 given under which a send that returns Ok was delivered.
 */
module DeliveryConditions {
  import opened Wrappers
  import opened TransportHandler
  import opened StopAndWait

  // ---------------------------------------------------------------------------
  // Other nodes' frames
  // ---------------------------------------------------------------------------

  /** Nothing of another node carries this number. */
  ghost predicate Unmistakable(t: System, sn: nat) {
    && (forall f <- t.net.frames :: f.Normal? && f.sn == sn ==> f.nodeId == t.me)
    && (forall r <- t.net.acks :: r.ack.sn == sn ==> r.of == t.me)
  }

  /** The receiver's filter is the sender's, or will be: nobody else has a frame on the network. */
  ghost predicate Claimed(t: System) {
    Pinned(t) || (t.net.filter.nodeId.None? && forall f <- t.net.frames :: f.nodeId == t.me)
  }

  /** The condition on the network while a send is pending. */
  ghost predicate Guaranteed(t: System)
    requires Busy(t) && |t.sent| == |t.outcome|
  {
    DeliveredOnce(t, Current(t)) || (Unmistakable(t, Number(t, Current(t))) && Claimed(t))
  }

  /** If this continuation of the run completes send `i`, it was delivered exactly once. */
  ghost predicate Delivers(t: System, i: nat, alone: bool, more: seq<Step>, u: System) {
    (Leads(t, more, u) && Fits(u) && (alone ==> NoForeign(more)) && i < |u.outcome| && u.outcome[i].Completed?) ==>
      (i < |u.sent| && DeliveredOnce(u, i))
  }

  ghost predicate Kept(v: System, i: nat) {
    Pinned(v) && DeliveredSn(v, Number(v, i))
  }

  /** What every step of a run without other nodes keeps, from a pending send on. */
  ghost predicate Promise(v: System, i: nat) {
    && Inv(v) && i < |v.outcome|
    && (Kept(v, i) || (!v.outcome[i].Completed? && Unmistakable(v, Number(v, i)) && Claimed(v)))
  }

  lemma StepKeepsKept(v: System, step: Step, i: nat)
    requires Inv(v) && Enabled(v, step) && Kept(v, i)
    ensures Kept(Next(v, step), i)
  {
    if step.Arrive? {
      DeliveredStays(v, step.frame, step.ackId, Number(v, i));
    }
  }

  /** An arrival acks under no other node's number and leaves the filter to the sender. */
  lemma ArrivalKeepsPromise(v: System, f: TransportMsg, ackId: NodeId, sn: nat)
    requires Inv(v) && Enabled(v, Arrive(f, ackId)) && Unmistakable(v, sn) && Claimed(v)
    ensures Unmistakable(Next(v, Arrive(f, ackId)), sn) && Claimed(Next(v, Arrive(f, ackId)))
  {
  }

  /** The ack that completes the send is one of its own frame. */
  lemma CompletingKeepsPromise(v: System, r: Receipt)
    requires Inv(v) && Fits(v) && Enabled(v, TakeAck(r)) && r.ack.sn == WireSn(v, Current(v))
    requires Unmistakable(v, Number(v, Current(v))) && Claimed(v)
    ensures Kept(v, Current(v))
  {
    assert ReceiptInv(v, r);
    assert r.of == v.me;
  }

  lemma StepKeepsPromise(v: System, step: Step, i: nat)
    requires Promise(v, i) && Enabled(v, step) && !step.Inject? && Fits(v) && Fits(Next(v, step))
    ensures Promise(Next(v, step), i)
  {
    StepKeepsInv(v, step);
    if Kept(v, i) {
      StepKeepsKept(v, step, i);
    } else if step.Arrive? {
      ArrivalKeepsPromise(v, step.frame, step.ackId, Number(v, i));
    } else if step.TakeAck? && i == Current(v) && step.receipt.ack.sn == WireSn(v, i) {
      CompletingKeepsPromise(v, step.receipt);
    }
  }

  lemma {:induction false} RunKeepsPromise(v: System, more: seq<Step>, u: System, i: nat)
    requires Promise(v, i) && Leads(v, more, u) && NoForeign(more) && Fits(u)
    ensures Promise(u, i)
    decreases |more|
  {
    SentGrows(v, more, u);
    if more != [] {
      assert more[0] in more && forall step <- more[1..] :: step in more;
      SentGrows(Next(v, more[0]), more[1..], u);
      StepKeepsPromise(v, more[0], i);
      RunKeepsPromise(Next(v, more[0]), more[1..], u, i);
    }
  }

  lemma {:induction false} RunKeepsKept(v: System, more: seq<Step>, u: System, i: nat)
    requires Inv(v) && Kept(v, i) && Leads(v, more, u) && Fits(u)
    ensures Inv(u) && Kept(u, i)
    decreases |more|
  {
    if more != [] {
      SentGrows(Next(v, more[0]), more[1..], u);
      StepKeepsInv(v, more[0]);
      StepKeepsKept(v, more[0], i);
      RunKeepsKept(Next(v, more[0]), more[1..], u, i);
    }
  }

  /** One arriving frame and the ack it causes. */
  lemma ArriveAndTake(t: System, f: TransportMsg) returns (more: seq<Step>, u: System)
    requires |t.sent| == |t.outcome| && Busy(t) && f in t.net.frames && f.Normal? && f.sn == WireSn(t, Current(t))
    ensures Leads(t, more, u) && NoForeign(more)
    ensures u == t.(outcome := t.outcome[Current(t) := Completed(f.nodeId)], net := ArriveAt(t.net, f, f.nodeId))
  {
    var r := Receipt(Ack(f.sn, f.nodeId), f.nodeId);
    var mid := Next(t, Arrive(f, f.nodeId));
    u := Next(mid, TakeAck(r));
    more := [Arrive(f, f.nodeId), TakeAck(r)];
    assert more[1..] == [TakeAck(r)] && more[1..][1..] == [];
    assert Leads(mid, [TakeAck(r)], u);
  }

  /** The deliveries of `u` are those of `t` and perhaps one of another node. */
  lemma StillUndelivered(t: System, u: System, i: nat)
    requires i < |t.sent| && t.sent == u.sent && t.me == u.me && t.first == u.first && Inv(t)
    requires !DeliveredOnce(t, i)
    requires u.net.delivered == t.net.delivered
             || exists d: Delivery :: d.nodeId != t.me && u.net.delivered == t.net.delivered + [d]
    ensures !DeliveredOnce(u, i)
  {
    if DeliveredOnce(u, i) {
      var k :| 0 <= k < |u.net.delivered| && u.net.delivered[k] == Delivery(u.me, Number(u, i), u.sent[i]);
      assert k < |t.net.delivered|;
      assert t.net.delivered[k] in t.net.delivered;
      DeliveredOnceIff(t, i);
    }
  }

  /** A filter that is another node's stays so, and the send completes undelivered. */
  lemma CompletesUndelivered(t: System) returns (u: System)
    requires Inv(t) && Busy(t) && t.net.filter.nodeId.Some? && !Pinned(t) && Fits(t)
    ensures Leads(t, Completing(t), u) && NoForeign(Completing(t)) && u.sent == t.sent
    ensures |u.outcome| == |t.outcome| && u.outcome[Current(t)].Completed? && !DeliveredOnce(u, Current(t))
  {
    u := SendCanComplete(t);
    DeliveredOnceIff(t, Current(t));
    StillUndelivered(t, u, Current(t));
  }

  /** Where the condition fails, some continuation without other nodes completes the send undelivered. */
  lemma FailsWithout(t: System) returns (more: seq<Step>, u: System)
    requires Inv(t) && Fits(t) && Busy(t) && !Guaranteed(t)
    ensures Leads(t, more, u) && NoForeign(more) && u.sent == t.sent
    ensures |u.outcome| == |t.outcome| && u.outcome[Current(t)].Completed? && !DeliveredOnce(u, Current(t))
  {
    var i := Current(t);
    if r :| r in t.net.acks && r.ack.sn == Number(t, i) && r.of != t.me {
      assert ReceiptInv(t, r);
      more, u := [TakeAck(r)], Next(t, TakeAck(r));
      assert more[1..] == [];
      StillUndelivered(t, u, i);
    } else if f :| f in t.net.frames && f.Normal? && f.sn == Number(t, i) && f.nodeId != t.me {
      more, u := ArriveAndTake(t, f);
      assert u.net.delivered == t.net.delivered + [Delivery(f.nodeId, f.sn, f.payload)]
             || u.net.delivered == t.net.delivered;
      StillUndelivered(t, u, i);
    } else if t.net.filter.nodeId.Some? {
      u := CompletesUndelivered(t);
      more := Completing(t);
    } else {
      var g :| g in t.net.frames && g.nodeId != t.me;
      more, u := ForeignFirst(t, g);
    }
  }

  /** Another node's frame comes first and takes the filter. */
  lemma ForeignFirst(t: System, g: TransportMsg) returns (more: seq<Step>, u: System)
    requires Inv(t) && Fits(t) && Busy(t) && t.net.filter.nodeId.None? && g in t.net.frames && g.nodeId != t.me
    ensures Leads(t, more, u) && NoForeign(more) && u.sent == t.sent
    ensures |u.outcome| == |t.outcome| && u.outcome[Current(t)].Completed? && !DeliveredOnce(u, Current(t))
  {
    var mid := Next(t, Arrive(g, g.nodeId));
    StepKeepsInv(t, Arrive(g, g.nodeId));
    u := CompletesUndelivered(mid);
    more := [Arrive(g, g.nodeId)] + Completing(mid);
    assert more[1..] == Completing(mid);
  }

  /**
   In every reachable state with fewer than 2^32 sends and one pending: however the network goes on, with no new
   frames of other nodes, completing the send means it was delivered exactly once, if and only if it already
   was, or nothing of another node carries its number and the filter is, or can only become, the sender's.
   */
  lemma OkIsDeliveredIff(s: System, steps: seq<Step>, t: System)
    requires Initial(s) && Leads(s, steps, t) && Fits(t) && Busy(t)
    ensures |t.sent| == |t.outcome|
    ensures Guaranteed(t) <==> forall more, u :: Delivers(t, Current(t), true, more, u)
  {
    RunKeepsInv(s, steps, t);
    var i := Current(t);
    DeliveredOnceIff(t, i);
    if Guaranteed(t) {
      forall more, u
        ensures Delivers(t, i, true, more, u)
      {
        if Leads(t, more, u) && Fits(u) && NoForeign(more) && i < |u.outcome| && u.outcome[i].Completed? {
          RunKeepsPromise(t, more, u, i);
          DeliveredOnceIff(u, i);
        }
      }
    } else {
      var more, u := FailsWithout(t);
      SentGrows(t, more, u);
      assert !Delivers(t, i, true, more, u);
    }
  }

  /** With other nodes free to send, nothing but having been delivered already is a guarantee. */
  lemma OkIsDeliveredAmongOthersIff(s: System, steps: seq<Step>, t: System)
    requires Initial(s) && Leads(s, steps, t) && Fits(t) && Busy(t)
    ensures |t.sent| == |t.outcome|
    ensures DeliveredOnce(t, Current(t)) <==> forall more, u :: Delivers(t, Current(t), false, more, u)
  {
    RunKeepsInv(s, steps, t);
    var i := Current(t);
    DeliveredOnceIff(t, i);
    if DeliveredOnce(t, i) {
      forall more, u
        ensures Delivers(t, i, false, more, u)
      {
        if Leads(t, more, u) && Fits(u) && i < |u.outcome| && u.outcome[i].Completed? {
          RunKeepsKept(t, more, u, i);
          DeliveredOnceIff(u, i);
        }
      }
    } else {
      var more, u := InjectAndTake(t);
      SentGrows(t, more, u);
      assert !Delivers(t, i, false, more, u);
    }
  }

  /** Another node sends a frame with the pending number. */
  lemma InjectAndTake(t: System) returns (more: seq<Step>, u: System)
    requires Inv(t) && Fits(t) && Busy(t) && !DeliveredOnce(t, Current(t))
    ensures Leads(t, more, u) && u.sent == t.sent
    ensures |u.outcome| == |t.outcome| && u.outcome[Current(t)].Completed? && !DeliveredOnce(u, Current(t))
  {
    var f := Normal(Number(t, Current(t)), t.me + "'", "");
    assert |f.nodeId| == |t.me| + 1;
    var mid := Next(t, Inject(f));
    var rest, end := ArriveAndTake(mid, f);
    u := end;
    more := [Inject(f)] + rest;
    assert more[1..] == rest;
    assert u.net.delivered == t.net.delivered + [Delivery(f.nodeId, f.sn, f.payload)]
           || u.net.delivered == t.net.delivered;
    StillUndelivered(t, u, Current(t));
  }

  /** So it can happen from the start: the ack of another node's frame ends a first send that was never delivered. */
  lemma ForeignAckEndsSend(s: System, p: Payload) returns (steps: seq<Step>, t: System)
    requires Initial(s) && s.net.filter == EMPTY_FILTER && s.first < SN_MODULUS
    ensures Leads(s, steps, t) && t.sent == [p] && |t.outcome| == 1 && t.outcome[0].Completed? && !DeliveredOnce(t, 0)
  {
    var mid := Next(s, Start(p));
    StepKeepsInv(s, Start(p));
    var rest, end := InjectAndTake(mid);
    t := end;
    steps := [Start(p)] + rest;
    assert steps[1..] == rest;
  }

  // ---------------------------------------------------------------------------
  // Running out of numbers
  // ---------------------------------------------------------------------------

  /** How many sends have numbers that fit. */
  function Numbers(s: System): nat
    requires s.first < SN_MODULUS
  {
    SN_MODULUS - s.first
  }

  /** Before the numbers wrap. */
  ghost predicate Early(t: System) {
    Inv(t) && Fits(t) && AloneInv(t, EMPTY_FILTER) && forall o <- t.outcome :: !o.Abandoned?
  }

  /** All numbers are used and delivered: the filter holds the last number there is, and nothing passes it any more. */
  ghost predicate Exhausted(t: System) {
    && t.first < SN_MODULUS && Numbers(t) <= |t.sent| == |t.outcome|
    && t.net.filter == Filter(Some(t.me), Some(SN_MODULUS - 1))
    && |t.net.delivered| == Numbers(t) && FirstDelivered(t, Numbers(t))
    && (forall f <- t.net.frames :: f.Normal? && f.nodeId == t.me && f.sn < SN_MODULUS)
  }

  lemma ExhaustedStays(t: System, step: Step)
    requires Exhausted(t) && Enabled(t, step) && !step.Inject?
    ensures Exhausted(Next(t, step))
  {
  }

  lemma EarlyStays(t: System, step: Step)
    requires Early(t) && Enabled(t, step) && Undisturbed([step]) && Fits(Next(t, step))
    ensures Early(Next(t, step))
  {
    assert step in [step] && [step][1..] == [];
    StepKeepsInv(t, step);
    AloneRun(t, [step], Next(t, step), EMPTY_FILTER);
    NothingAbandoned(t, [step], Next(t, step));
  }

  lemma AllIsDelivered(t: System)
    requires Early(t) && !Busy(t)
    ensures |t.net.delivered| == |t.sent| && FirstDelivered(t, |t.sent|)
  {
    AllGenuine(t);
    GenuineHistory(t);
    assert |Payloads(t.net.delivered)| <= |t.sent|;
  }

  lemma FilterHoldsLast(t: System)
    requires DeliveryInv(t) && t.net.delivered != []
    ensures var last := t.net.delivered[|t.net.delivered| - 1];
            t.net.filter == Filter(Some(last.nodeId), Some(last.sn))
  {
    assert t.net.delivered[|t.net.delivered| - 1] in t.net.delivered;
  }

  lemma LastOfAll(t: System)
    requires t.sent != [] && |t.net.delivered| == |t.sent| && FirstDelivered(t, |t.sent|)
    ensures var last := t.net.delivered[|t.net.delivered| - 1];
            last.nodeId == t.me && last.sn == t.first + |t.sent| - 1
  {
  }

  lemma LastIsOurs(t: System)
    requires Early(t) && !Busy(t) && t.sent != []
    ensures t.net.filter == Filter(Some(t.me), Some(t.first + |t.sent| - 1))
  {
    AllIsDelivered(t);
    LastOfAll(t);
    FilterHoldsLast(t);
  }

  lemma OwnFramesFit(t: System)
    requires Early(t)
    ensures forall f <- t.net.frames :: f.Normal? && f.nodeId == t.me && f.sn < SN_MODULUS
  {
  }

  /** When the last number that fits is taken and its send ended, all of them were delivered. */
  lemma LastNumberIsUsed(t: System)
    requires Early(t) && !Busy(t) && t.first < SN_MODULUS && t.first + |t.sent| == SN_MODULUS
    ensures Exhausted(t)
  {
    AllIsDelivered(t);
    LastIsOurs(t);
    OwnFramesFit(t);
  }

  lemma {:induction false} RunWraps(s: System, steps: seq<Step>, t: System)
    requires s.first < SN_MODULUS && (Early(s) || Exhausted(s)) && Leads(s, steps, t) && Undisturbed(steps)
    ensures Early(t) || Exhausted(t)
    decreases |steps|
  {
    if steps != [] {
      assert steps[0] in steps && forall step <- steps[1..] :: step in steps;
      if Early(s) && !Fits(Next(s, steps[0])) {
        LastNumberIsUsed(s);
      }
      if Exhausted(s) {
        ExhaustedStays(s, steps[0]);
      } else {
        EarlyStays(s, steps[0]);
      }
      RunWraps(Next(s, steps[0]), steps[1..], t);
    }
  }

  /**
   Runs of any length in which nothing is cancelled and nobody else sends: a completed send was delivered exactly
   once if and only if its number fits 32 bits.  The deliveries are the first sends, one each, and every send after
   2^32 numbers returns Ok undelivered.
   */
  lemma CompletedIsDeliveredIffNumberFits(s: System, steps: seq<Step>, t: System)
    requires Initial(s) && s.first < SN_MODULUS && s.net.filter.nodeId.None?
    requires Leads(s, steps, t) && Undisturbed(steps)
    ensures |t.sent| == |t.outcome| && t.first == s.first
    ensures Payloads(t.net.delivered) <= t.sent && |t.net.delivered| <= Numbers(s)
    ensures forall i :: 0 <= i < |t.outcome| && t.outcome[i].Completed? ==>
              (DeliveredOnce(t, i) <==> Number(t, i) < SN_MODULUS)
  {
    SentGrows(s, steps, t);
    RunWraps(s, steps, t);
    if Early(t) {
      AllGenuine(t);
      GenuineHistory(t);
    }
    forall i | 0 <= i < |t.outcome| && t.outcome[i].Completed?
      ensures DeliveredOnce(t, i) <==> Number(t, i) < SN_MODULUS
    {
      if Early(t) {
        assert Genuine(t, i);
        CompletedIsDelivered(t, i);
        DeliveredOnceIff(t, i);
      } else {
        DeliveredOnceWhenExhausted(t, i);
      }
    }
  }

  lemma DeliveredOnceWhenExhausted(t: System, i: nat)
    requires Exhausted(t) && i < |t.sent|
    ensures DeliveredOnce(t, i) <==> Number(t, i) < SN_MODULUS
  {
    if Number(t, i) < SN_MODULUS {
      assert t.net.delivered[i] == Delivery(t.me, Number(t, i), t.sent[i]);
    }
  }

  /** `n` sends of `p` in a row that are all acked. */
  lemma {:induction false} ManySends(s: System, n: nat, p: Payload) returns (steps: seq<Step>, t: System)
    requires Initial(s)
    ensures Leads(s, steps, t) && Undisturbed(steps) && !Busy(t) && |t.sent| == |t.outcome| == n
    ensures forall o <- t.outcome :: o.Completed?
    decreases n
  {
    if n == 0 {
      steps, t := [], s;
    } else {
      var before, mid := ManySends(s, n - 1, p);
      var begun := Next(mid, Start(p));
      t := SendCanComplete(begun);
      var more := [Start(p)] + Completing(begun);
      assert more[1..] == Completing(begun);
      assert Leads(mid, more, t);
      LeadsConcat(s, before, mid, more, t);
      steps := before + more;
    }
  }

  /** Such runs exist for every number of sends: from the first that does not fit on, each returns Ok and is lost. */
  lemma WrappedSendIsLost(s: System, i: nat, p: Payload) returns (steps: seq<Step>, t: System)
    requires Initial(s) && s.net.filter == EMPTY_FILTER && s.first < SN_MODULUS <= s.first + i
    ensures Leads(s, steps, t) && Undisturbed(steps) && |t.sent| == |t.outcome| == i + 1
    ensures t.outcome[i].Completed? && !DeliveredOnce(t, i) && |t.net.delivered| <= SN_MODULUS
  {
    steps, t := ManySends(s, i + 1, p);
    CompletedIsDeliveredIffNumberFits(s, steps, t);
    assert t.outcome[i] in t.outcome;
  }
}
