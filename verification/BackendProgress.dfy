/**
 A pending `send` of the backend's object is never stuck, and how many copies of its frame it takes: from every state,
 and for every number of copies, there is a run in which the network loses all of them but the last.
 */
module BackendProgress {
  import opened Wrappers
  import T = TransportHandler
  import P = StopAndWait
  import opened BackendProtocol

  lemma {:induction false} LeadsConcat(w: World, xs: seq<Move>, v: World, ys: seq<Move>, u: World)
    requires Leads(w, xs, v) && Leads(v, ys, u)
    ensures Leads(w, xs + ys, u)
    decreases |xs|
  {
    if xs == [] {
      assert xs + ys == ys;
    } else {
      LeadsConcat(Moved(w, xs[0]), xs[1..], v, ys, u);
      assert (xs + ys)[1..] == xs[1..] + ys;
    }
  }

  lemma One(w: World, m: Move)
    requires CanMove(w, m)
    ensures Leads(w, [m], Moved(w, m))
  {
    assert [m][1..] == [];
  }

  ghost predicate Sending(w: World) {
    |w.sent| == |w.outcomes| && Pending(w)
  }

  /** The send that was pending in `w`, in a later state: its frame, and what it put on the wire since. */
  ghost predicate SameSend(w: World, v: World, copies: nat) {
    && Sending(w) && |v.sent| == |v.outcomes| && v.sent == w.sent
    && v.outcomes == w.outcomes[|w.outcomes| - 1 := v.outcomes[|v.outcomes| - 1]]
    && v.e.nodeId == w.e.nodeId && v.e.wire == w.e.wire + T.Copy(FrameOf(w), copies)
  }

  lemma SameSendTrans(w: World, v: World, u: World, m: nat, n: nat)
    requires SameSend(w, v, m) && Sending(v) && SameSend(v, u, n)
    ensures SameSend(w, u, m + n)
  {
    assert T.Copy(FrameOf(w), m) + T.Copy(FrameOf(w), n) == T.Copy(FrameOf(w), m + n);
    assert w.e.wire + T.Copy(FrameOf(w), m) + T.Copy(FrameOf(w), n) == w.e.wire + T.Copy(FrameOf(w), m + n);
  }

  /** The timer fires and the carrier takes the frame: one more copy, and it is on the network. */
  lemma OneRound(w: World) returns (v: World)
    requires Sending(w)
    ensures Leads(w, [During(T.Timeout), During(T.Queued)], v)
    ensures SameSend(w, v, 1) && Sending(v) && v.waiting && FrameOf(v) in v.net.frames
  {
    var mid := Moved(w, During(T.Timeout));
    v := Moved(mid, During(T.Queued));
    var all := [During(T.Timeout), During(T.Queued)];
    assert all[1..] == [During(T.Queued)] && all[1..][1..] == [];
    One(mid, During(T.Queued));
    assert FrameOf(v) == FrameOf(w);
    assert FrameOf(w) in v.e.wire && FrameOf(w) in Frames(v.e);
    assert T.Copy(FrameOf(w), 1) == [FrameOf(w)];
  }

  function Rounds(n: nat): seq<Move> {
    if n == 0 then [] else [During(T.Timeout), During(T.Queued)] + Rounds(n - 1)
  }

  lemma {:induction false} ManyRounds(w: World, n: nat) returns (v: World)
    requires Sending(w) && n > 0
    ensures Leads(w, Rounds(n), v)
    ensures SameSend(w, v, n) && Sending(v) && v.waiting && FrameOf(v) in v.net.frames
    decreases n
  {
    var mid := OneRound(w);
    if n == 1 {
      v := mid;
      assert Rounds(1) == [During(T.Timeout), During(T.Queued)] + Rounds(0);
    } else {
      v := ManyRounds(mid, n - 1);
      LeadsConcat(w, [During(T.Timeout), During(T.Queued)], mid, Rounds(n - 1), v);
      SameSendTrans(w, mid, v, 1, n - 1);
    }
  }

  /** The acks still queued are read one by one; one with this number may end the send early. */
  lemma {:induction false} ReadQueued(w: World) returns (moves: seq<Move>, v: World)
    requires Sending(w) && w.waiting
    ensures Leads(w, moves, v) && Undisturbed(moves) && SameSend(w, v, 0) && v.net.frames >= w.net.frames
    ensures v.outcomes[|v.outcomes| - 1].Done? || (Sending(v) && v.waiting && v.e.incomingAcks == [])
    decreases |w.e.incomingAcks|
  {
    assert w.e.wire + T.Copy(FrameOf(w), 0) == w.e.wire;
    assert w.outcomes == w.outcomes[|w.outcomes| - 1 := w.outcomes[|w.outcomes| - 1]];
    if w.e.incomingAcks == [] {
      moves, v := [], w;
    } else {
      var mid := Moved(w, During(T.ReadAck));
      One(w, During(T.ReadAck));
      assert SameSend(w, mid, 0);
      if mid.outcomes[|mid.outcomes| - 1].Done? {
        moves, v := [During(T.ReadAck)], mid;
      } else {
        var rest;
        rest, v := ReadQueued(mid);
        moves := [During(T.ReadAck)] + rest;
        assert moves[1..] == rest;
        SameSendTrans(w, mid, v, 0, 0);
      }
    }
  }

  /** The receiver gets the frame, and its ack comes back and is read. */
  function Exchange(w: World, ackId: T.NodeId): seq<Move>
    requires w.sent != []
  {
    var f := FrameOf(w);
    [Arrives(f, ackId), During(T.Incoming(T.Ack(f.sn, ackId))), During(T.ReadAck)]
  }

  lemma ExchangeCompletes(w: World, ackId: T.NodeId) returns (v: World)
    requires Sending(w) && w.waiting && w.e.incomingAcks == [] && FrameOf(w) in w.net.frames
    ensures Leads(w, Exchange(w, ackId), v) && SameSend(w, v, 0) && v.outcomes[|v.outcomes| - 1].Done?
  {
    var f := FrameOf(w);
    var ack := T.Ack(f.sn, ackId);
    var w1 := Moved(w, Arrives(f, ackId));
    assert P.Receipt(ack, f.nodeId) in w1.net.acks;
    var w2 := Moved(w1, During(T.Incoming(ack)));
    assert w2.e.incomingAcks == [ack];
    v := Moved(w2, During(T.ReadAck));
    var all := Exchange(w, ackId);
    assert all[1..][1..] == [During(T.ReadAck)] && all[1..][0] == During(T.Incoming(ack));
    One(w2, During(T.ReadAck));
    assert w.e.wire + T.Copy(f, 0) == w.e.wire;
  }

  /** With a copy on the network, the send can end without another one. */
  lemma LastCopyCompletes(w: World, ackId: T.NodeId) returns (moves: seq<Move>, v: World)
    requires Sending(w) && w.waiting && FrameOf(w) in w.net.frames
    ensures Leads(w, moves, v) && Undisturbed(moves) && SameSend(w, v, 0) && v.outcomes[|v.outcomes| - 1].Done?
  {
    moves, v := ReadQueued(w);
    if !v.outcomes[|v.outcomes| - 1].Done? {
      var read := v;
      v := ExchangeCompletes(read, ackId);
      LeadsConcat(w, moves, read, Exchange(read, ackId), v);
      SameSendTrans(w, read, v, 0, 0);
      moves := moves + Exchange(read, ackId);
    }
  }

  /**
   From every state with a send pending, whatever the network has lost, and for every `n > 0`: there is a run in which
   the send puts exactly `n` more copies of its frame on the wire and returns Ok.  Nobody else sends in it.
   */
  lemma SendCompletesAfter(w: World, n: nat, ackId: T.NodeId) returns (moves: seq<Move>, v: World)
    requires |w.sent| == |w.outcomes| && Pending(w) && n > 0
    ensures Leads(w, moves, v) && Undisturbed(moves)
    ensures v.sent == w.sent && v.outcomes == w.outcomes[|w.outcomes| - 1 := T.Done]
    ensures v.e.wire == w.e.wire + T.Copy(FrameOf(w), n)
  {
    var sent := ManyRounds(w, n);
    RoundsAreQuiet(n);
    var rest;
    rest, v := LastCopyCompletes(sent, ackId);
    LeadsConcat(w, Rounds(n), sent, rest, v);
    SameSendTrans(w, sent, v, n, 0);
    moves := Rounds(n) + rest;
  }

  lemma {:induction false} RoundsAreQuiet(n: nat)
    ensures Undisturbed(Rounds(n))
    decreases n
  {
    if n > 0 {
      RoundsAreQuiet(n - 1);
    }
  }
}
