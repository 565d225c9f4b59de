/**
 Where a queued message comes from: from the room partner, at the time of the lookup.

 A connection is branded with its tag before the room is checked, so a third connection may carry the tag of a
 full room.  What is proved here of whole runs excludes it as a source.
 */
module Forwarding {
  import opened Wrappers
  import opened SignallingServer
  import R = RoutingTable

  /**
   In this state the lookup of message `e` is due, finds `dst`, and leaves a room whose two members are the
   sender and `dst`.
   */
  ghost predicate Answers(s: Server, e: Entry, dst: Cid) {
    && Enabled(s, LookUp(e.src)) && s.conns[e.src].stage == Branded(e.frame) && e.frame.Good?
    && |s.conns[e.src].received| == e.index + 1
    && R.Lookup(s.tables, e.frame.tag, e.src, e.frame.hasPayload) == Ok(R.ConnectionHandler(dst))
    && R.RoomOf(LookUpStep(s, e.src).tables, e.frame.tag, e.src, dst)
  }

  /** Somewhere in the run, `dst` was looked up for this message and was the sender's room partner. */
  ghost predicate LookedUp(s: Server, steps: seq<Step>, e: Entry, dst: Cid)
    requires Inv(s)
    decreases |steps|
  {
    steps != [] && Enabled(s, steps[0])
    && ((steps[0] == LookUp(e.src) && Answers(s, e, dst))
        || (StepKeepsInv(s, steps[0]); LookedUp(Next(s, steps[0]), steps[1..], e, dst)))
  }

  /** The sender holds the message and the peer found for it. */
  predicate Underway(s: Server, e: Entry, dst: Cid) {
    && e.src in s.conns && s.conns[e.src].stage == Found(e.frame, dst)
    && |s.conns[e.src].received| == e.index + 1
  }

  /** A peer is found by that lookup and in no other way. */
  lemma FoundByLookup(s: Server, step: Step, e: Entry, dst: Cid)
    requires Inv(s) && Enabled(s, step) && Underway(Next(s, step), e, dst)
    ensures Underway(s, e, dst) || (step == LookUp(e.src) && Answers(s, e, dst))
  {
    if step.Open? {
      assert e.src != s.nextId;
    } else if step == LookUp(e.src) {
      assert ConnOk(s, e.src);
      var f := s.conns[e.src].stage.frame;
      R.LookupIsIsolated(s.tables, f.tag, e.src, f.hasPayload);
    } else if step == Enqueue(e.src) {
      EnqueueEnds(s, e.src);
    } else if step.Enqueue? {
      OthersKeepStage(s, step.cid, e.src);
    }
  }

  lemma EnqueueEnds(s: Server, cid: Cid)
    requires Inv(s) && Enabled(s, Enqueue(cid))
    ensures EnqueueStep(s, cid).conns[cid].stage.Idle?
  {
  }

  lemma OthersKeepStage(s: Server, sender: Cid, cid: Cid)
    requires Inv(s) && Enabled(s, Enqueue(sender)) && cid != sender
    ensures cid in EnqueueStep(s, sender).conns ==>
              cid in s.conns && EnqueueStep(s, sender).conns[cid].stage == s.conns[cid].stage
              && EnqueueStep(s, sender).conns[cid].received == s.conns[cid].received
  {
  }

  lemma EnqueueQueuesOne(s: Server, sender: Cid, e: Entry, dst: Cid)
    requires Inv(s) && Enabled(s, Enqueue(sender)) && dst in s.conns
    requires dst in EnqueueStep(s, sender).conns && e in EnqueueStep(s, sender).conns[dst].out
    ensures e in s.conns[dst].out || (sender == e.src && Underway(s, e, dst))
  {
    assert ConnOk(s, sender);
    EnqueueParts(s, sender);
  }

  /** A message enters a queue from its sender, which holds that queue's owner as the peer found. */
  lemma QueuedWasUnderway(s: Server, step: Step, e: Entry, dst: Cid)
    requires Inv(s) && Enabled(s, step) && dst in Next(s, step).conns && e in Next(s, step).conns[dst].out
    ensures (dst in s.conns && e in s.conns[dst].out) || (step == Enqueue(e.src) && Underway(s, e, dst))
  {
    if step.Enqueue? {
      EnqueueKeepsKeys(s, step.cid);
      EnqueueQueuesOne(s, step.cid, e, dst);
    }
  }

  lemma EnqueueKeepsKeys(s: Server, sender: Cid)
    requires Inv(s) && Enabled(s, Enqueue(sender))
    ensures EnqueueStep(s, sender).conns.Keys == s.conns.Keys
  {
    assert ConnOk(s, sender);
    EnqueueParts(s, sender);
  }

  lemma {:induction false} CameFrom(s: Server, steps: seq<Step>, t: Server, dst: Cid, e: Entry)
    requires Inv(s) && Leads(s, steps, t) && dst in t.conns && e in t.conns[dst].out
    ensures (dst in s.conns && e in s.conns[dst].out) || Underway(s, e, dst) || LookedUp(s, steps, e, dst)
    decreases |steps|
  {
    if steps != [] {
      StepKeepsInv(s, steps[0]);
      var mid := Next(s, steps[0]);
      CameFrom(mid, steps[1..], t, dst, e);
      if dst in mid.conns && e in mid.conns[dst].out {
        QueuedWasUnderway(s, steps[0], e, dst);
      } else if Underway(mid, e, dst) {
        FoundByLookup(s, steps[0], e, dst);
      }
    }
  }

  /**
   In every run, everything ever queued to a connection came from its room partner: the run has a step that looked
   up this very message of the sender, found `dst`, and left the two of them as the two members of the room.
   */
  lemma ForwardedFromPartner(s: Server, steps: seq<Step>, t: Server, dst: Cid)
    requires Initial(s) && (InitialInv(s); Leads(s, steps, t)) && dst in t.conns
    ensures forall e <- t.conns[dst].out :: (InitialInv(s); LookedUp(s, steps, e, dst))
  {
    InitialInv(s);
    forall e <- t.conns[dst].out
      ensures LookedUp(s, steps, e, dst)
    {
      CameFrom(s, steps, t, dst, e);
    }
  }

  /** After some step of the run a room has exactly these two members. */
  ghost predicate Met(s: Server, steps: seq<Step>, src: Cid, dst: Cid)
    requires Inv(s)
    decreases |steps|
  {
    steps != [] && Enabled(s, steps[0])
    && (StepKeepsInv(s, steps[0]);
        ((exists tag :: R.RoomOf(Next(s, steps[0]).tables, tag, src, dst))
         || Met(Next(s, steps[0]), steps[1..], src, dst)))
  }

  /** In particular the sender was in a room with `dst`: one that a full room refused has nothing in its queue. */
  lemma {:induction false} SenderWasMember(s: Server, steps: seq<Step>, e: Entry, dst: Cid)
    requires Inv(s) && LookedUp(s, steps, e, dst)
    ensures Met(s, steps, e.src, dst)
    decreases |steps|
  {
    if !(steps[0] == LookUp(e.src) && Answers(s, e, dst)) {
      StepKeepsInv(s, steps[0]);
      SenderWasMember(Next(s, steps[0]), steps[1..], e, dst);
    }
  }
}
