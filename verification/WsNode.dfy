/**
 The reconnecting carrier under the transport: one send queue and one message handler that are
 moved into the tasks of each connection and back out when it breaks.

 The two tasks of a connection notice its end separately: after the receiver ended, the sender may
 still take frames until it sees the cancelled token, and the other way round.
 */
module WsNode {
  type Frame = string

  datatype Phase =
    | Connecting
    | Up            // both tasks run
    | SenderLeft    // the receiver ended; waiting for the sender to hand the queue back
    | ReceiverLeft  // the sender ended; waiting for the receiver to hand the handler back
    | Ended

  /** One call of the connection's `send`. */
  datatype Attempt = Attempt(frame: Frame, connection: nat, ok: bool)

  /** `connections` counts the connections opened so far; the latest is number `connections`. */
  datatype State = State(
    phase: Phase,
    connections: nat,
    queue: seq<Frame>,
    attempts: seq<Attempt>,
    handled: seq<Frame>,
    connectedFlag: bool)

  datatype Event =
    | Enqueue(frame: Frame)
    | Connected
    | ConnectFailed
    | SendTurn(ok: bool)
    | Received(frame: Frame)
    | SenderSawEnd
    | ReceiverEnded
    | Stopped

  predicate SenderRuns(s: State) { s.phase.Up? || s.phase.SenderLeft? }

  predicate ReceiverRuns(s: State) { s.phase.Up? || s.phase.ReceiverLeft? }

  /** The sender task is over: reconnect once the receiver is over too. */
  function SenderOver(s: State): State {
    s.(phase := if s.phase.SenderLeft? then Connecting else ReceiverLeft)
  }

  function Next(s: State, ev: Event): State {
    match ev
    case Enqueue(f) => if s.phase.Ended? then s else s.(queue := s.queue + [f])
    case Connected =>
      if s.phase.Connecting? then s.(phase := Up, connections := s.connections + 1, connectedFlag := true) else s
    case ConnectFailed => s
    case SendTurn(ok) =>
      if !SenderRuns(s) || s.queue == [] then s
      else
        var taken := s.(queue := s.queue[1..],
                        attempts := s.attempts + [Attempt(s.queue[0], s.connections, ok)]);
        if ok then taken else SenderOver(taken)
    case Received(f) => if ReceiverRuns(s) then s.(handled := s.handled + [f]) else s
    case SenderSawEnd => if s.phase.SenderLeft? then SenderOver(s) else s
    case ReceiverEnded =>
      if s.phase.Up? then s.(phase := SenderLeft)
      else if s.phase.ReceiverLeft? then s.(phase := Connecting)
      else s
    case Stopped => s.(phase := Ended, connectedFlag := false)
  }

  function Run(s: State, events: seq<Event>): State
    decreases |events|
  {
    if events == [] then s else Next(Run(s, events[..|events| - 1]), events[|events| - 1])
  }

  const FRESH := State(Connecting, 0, [], [], [], false)

  function Frames(attempts: seq<Attempt>): (r: seq<Frame>)
    ensures |r| == |attempts| && forall i :: 0 <= i < |r| ==> r[i] == attempts[i].frame
  {
    seq(|attempts|, i requires 0 <= i < |attempts| => attempts[i].frame)
  }

  /** What was put in the queue before the node ended. */
  function Accepted(s: State, events: seq<Event>): seq<Frame>
    decreases |events|
  {
    if events == [] then []
    else
      var init := events[..|events| - 1];
      var last := events[|events| - 1];
      Accepted(s, init) + if last.Enqueue? && !Run(s, init).phase.Ended? then [last.frame] else []
  }

  /** A failed attempt is the last one of its connection, and that connection's sender is over. */
  ghost predicate LossInv(s: State) {
    && (forall i :: 0 <= i < |s.attempts| ==> 1 <= s.attempts[i].connection <= s.connections)
    && (forall i, j :: 0 <= i < j < |s.attempts| ==>
          s.attempts[i].connection <= s.attempts[j].connection
          && (!s.attempts[i].ok ==> s.attempts[i].connection < s.attempts[j].connection))
    && (SenderRuns(s) || ReceiverRuns(s) ==> s.connections >= 1)
    && (SenderRuns(s) ==> forall i :: 0 <= i < |s.attempts| && !s.attempts[i].ok ==>
          s.attempts[i].connection < s.connections)
  }

  predicate FlagInv(s: State) {
    s.connectedFlag <==> s.connections >= 1 && !s.phase.Ended?
  }

  lemma TurnKeepsLossInv(s: State, ok: bool)
    requires LossInv(s)
    ensures LossInv(Next(s, SendTurn(ok)))
  {
    if SenderRuns(s) && s.queue != [] {
      var t := Next(s, SendTurn(ok));
      assert t.attempts == s.attempts + [Attempt(s.queue[0], s.connections, ok)];
    }
  }

  lemma StepKeepsLossInv(s: State, ev: Event)
    requires LossInv(s) && FlagInv(s)
    ensures LossInv(Next(s, ev)) && FlagInv(Next(s, ev))
  {
    if ev.SendTurn? {
      TurnKeepsLossInv(s, ev.ok);
    } else {
      assert Next(s, ev).attempts == s.attempts;
    }
  }

  /** A step takes frames from the front of the queue only to attempt them. */
  lemma StepKeepsOrder(s: State, ev: Event)
    ensures var t := Next(s, ev);
            Frames(t.attempts) + t.queue
            == Frames(s.attempts) + s.queue + if ev.Enqueue? && !s.phase.Ended? then [ev.frame] else []
  {
    if ev.SendTurn? && SenderRuns(s) && s.queue != [] {
      assert Frames(Next(s, ev).attempts) == Frames(s.attempts) + [s.queue[0]];
      assert s.queue == [s.queue[0]] + s.queue[1..];
    }
  }

  lemma {:induction false} RunKeepsLossInv(events: seq<Event>)
    ensures LossInv(Run(FRESH, events)) && FlagInv(Run(FRESH, events))
    decreases |events|
  {
    if events != [] {
      RunKeepsLossInv(events[..|events| - 1]);
      StepKeepsLossInv(Run(FRESH, events[..|events| - 1]), events[|events| - 1]);
    }
  }

  /** Across any sequence of reconnects, every frame is attempted once, in queue order, or still queued. */
  lemma {:induction false} QueueSurvivesReconnects(events: seq<Event>)
    ensures var s := Run(FRESH, events);
            Frames(s.attempts) + s.queue == Accepted(FRESH, events)
    decreases |events|
  {
    if events != [] {
      QueueSurvivesReconnects(events[..|events| - 1]);
      StepKeepsOrder(Run(FRESH, events[..|events| - 1]), events[|events| - 1]);
    }
  }

  /** A connection loses at most one frame: a failed attempt is the last its connection makes. */
  lemma FailureEndsConnection(events: seq<Event>, i: nat, j: nat)
    requires i < j < |Run(FRESH, events).attempts| && !Run(FRESH, events).attempts[i].ok
    ensures Run(FRESH, events).attempts[i].connection < Run(FRESH, events).attempts[j].connection
  {
    RunKeepsLossInv(events);
  }

  /** Callers see the node as connected from its first connection to its end, reconnects included. */
  lemma FlagSpansReconnects(events: seq<Event>)
    ensures var s := Run(FRESH, events);
            s.connectedFlag <==> s.connections >= 1 && !s.phase.Ended?
  {
    RunKeepsLossInv(events);
  }

  /** The number of failed attempts, which is the number of frames lost on the way out. */
  function Losses(attempts: seq<Attempt>): nat {
    if attempts == [] then 0
    else Losses(attempts[..|attempts| - 1]) + if attempts[|attempts| - 1].ok then 0 else 1
  }

  /** No more frames are lost than connections were broken. */
  lemma LossesBounded(events: seq<Event>)
    ensures var s := Run(FRESH, events);
            Losses(s.attempts) <= s.connections - if SenderRuns(s) then 1 else 0
  {
    RunKeepsLossInv(events);
    var s := Run(FRESH, events);
    LossesUpTo(s, s.attempts, if SenderRuns(s) then s.connections - 1 else s.connections);
  }

  lemma {:induction false} LossesUpTo(s: State, attempts: seq<Attempt>, c: nat)
    requires LossInv(s.(attempts := attempts, phase := Ended))
    requires forall i :: 0 <= i < |attempts| && !attempts[i].ok ==> attempts[i].connection <= c
    ensures Losses(attempts) <= c
    decreases |attempts|
  {
    if attempts != [] {
      var n := |attempts| - 1;
      var last := attempts[n];
      if last.ok {
        LossesUpTo(s, attempts[..n], c);
      } else {
        LossesUpTo(s, attempts[..n], last.connection - 1);
      }
    }
  }

  // ---------------------------------------------------------------------------
  // What gets through
  // ---------------------------------------------------------------------------

  /** The frames that came in while a connection's receiver was running. */
  function Heard(events: seq<Event>): seq<Frame>
    decreases |events|
  {
    if events == [] then []
    else
      var init := events[..|events| - 1];
      var last := events[|events| - 1];
      Heard(init) + if last.Received? && ReceiverRuns(Run(FRESH, init)) then [last.frame] else []
  }

  /** Over any reconnects the handler gets exactly these, each once and in the order they came in. */
  lemma {:induction false} HandledIsHeard(events: seq<Event>)
    ensures Run(FRESH, events).handled == Heard(events)
    decreases |events|
  {
    if events != [] {
      HandledIsHeard(events[..|events| - 1]);
    }
  }

  lemma {:induction false} RunFromFront(s: State, ev: Event, rest: seq<Event>)
    ensures Run(s, [ev] + rest) == Run(Next(s, ev), rest)
    decreases |rest|
  {
    var all := [ev] + rest;
    if rest == [] {
      assert all[..0] == [] && Run(s, []) == s;
    } else {
      var n := |rest| - 1;
      assert all[..|all| - 1] == [ev] + rest[..n] && all[|all| - 1] == rest[n];
      RunFromFront(s, ev, rest[..n]);
    }
  }

  function Turns(n: nat): seq<Event> {
    if n == 0 then [] else [SendTurn(true)] + Turns(n - 1)
  }

  /** The attempts made since all succeeded, and were for these frames. */
  ghost predicate SentOn(before: seq<Attempt>, after: seq<Attempt>, frames: seq<Frame>) {
    && before <= after && |after| == |before| + |frames|
    && forall i :: |before| <= i < |after| ==> after[i].ok && after[i].frame == frames[i - |before|]
  }

  lemma SentOnCons(before: seq<Attempt>, first: Attempt, after: seq<Attempt>, frames: seq<Frame>)
    requires first.ok && SentOn(before + [first], after, frames)
    ensures SentOn(before, after, [first.frame] + frames)
  {
    assert after[|before|] == (before + [first])[|before|];
    assert before <= before + [first];
  }

  lemma {:induction false} TurnsEmptyQueue(s: State)
    requires SenderRuns(s)
    ensures var t := Run(s, Turns(|s.queue|));
            t.queue == [] && t.phase == s.phase && SentOn(s.attempts, t.attempts, s.queue)
    decreases |s.queue|
  {
    if s.queue != [] {
      var next := Next(s, SendTurn(true));
      TurnsEmptyQueue(next);
      RunFromFront(s, SendTurn(true), Turns(|s.queue| - 1));
      var done := Run(next, Turns(|next.queue|)).attempts;
      SentOnCons(s.attempts, Attempt(s.queue[0], s.connections, true), done, next.queue);
      assert s.queue == [s.queue[0]] + next.queue;
    }
  }

  /** What brings a sender back: the task that is left over ends, and a connection is made. */
  function Reconnecting(phase: Phase): seq<Event> {
    match phase
    case Connecting => [Connected]
    case SenderLeft => [SenderSawEnd, Connected]
    case ReceiverLeft => [ReceiverEnded, Connected]
    case _ => []
  }

  /**
   Whatever connections broke before: until the node is stopped there is always a continuation, of one connection that
   holds, in which everything that is queued is sent, in order.
   */
  lemma QueueCanEmpty(s: State)
    requires !s.phase.Ended?
    ensures var events := Reconnecting(s.phase) + Turns(|s.queue|); var t := Run(s, events);
            t.queue == [] && t.phase.Up? && SentOn(s.attempts, t.attempts, s.queue)
  {
    var turns := Turns(|s.queue|);
    if s.phase.Connecting? {
      RunFromFront(s, Connected, turns);
      TurnsEmptyQueue(Next(s, Connected));
    } else if s.phase.ReceiverLeft? || s.phase.SenderLeft? {
      var ends := if s.phase.SenderLeft? then SenderSawEnd else ReceiverEnded;
      assert Reconnecting(s.phase) + turns == [ends] + ([Connected] + turns);
      RunFromFront(s, ends, [Connected] + turns);
      RunFromFront(Next(s, ends), Connected, turns);
      TurnsEmptyQueue(Next(Next(s, ends), Connected));
    } else {
      assert Reconnecting(s.phase) + turns == turns;
      TurnsEmptyQueue(s);
    }
  }

  /** After the node was stopped nothing is taken, sent or handled any more, and callers see it as not connected. */
  lemma {:induction false} StoppedIsSilent(s: State, events: seq<Event>)
    ensures var t := Run(Next(s, Stopped), events);
            && t.queue == s.queue && t.attempts == s.attempts && t.handled == s.handled
            && t.connections == s.connections && t.phase.Ended? && !t.connectedFlag
    decreases |events|
  {
    if events != [] {
      StoppedIsSilent(s, events[..|events| - 1]);
    }
  }

  class Node {
    var phase: Phase
    var connections: nat
    var sendRx: seq<Frame>
    var attempts: seq<Attempt>
    var handled: seq<Frame>
    var isConnected: bool

    function Value(): State
      reads this
    {
      State(phase, connections, sendRx, attempts, handled, isConnected)
    }

    constructor ()
      ensures Value() == FRESH
    {
      phase, connections, sendRx, attempts, handled, isConnected := Connecting, 0, [], [], [], false;
    }

    /** One turn of the sender task: a failed send ends it. */
    method SenderTurn(ok: bool)
      modifies this
      ensures Value() == Next(old(Value()), SendTurn(ok))
    {
      if (phase == Up || phase == SenderLeft) && sendRx != [] {
        var m := sendRx[0];
        sendRx := sendRx[1..];
        attempts := attempts + [Attempt(m, connections, ok)];
        if !ok {
          SenderDone();
        }
      }
    }

    method SenderDone()
      requires phase == Up || phase == SenderLeft
      modifies this`phase
      ensures Value() == SenderOver(old(Value()))
    {
      if phase == SenderLeft {
        phase := Connecting;
      } else {
        phase := ReceiverLeft;
      }
    }

    method RunLoop(events: seq<Event>)
      modifies this
      ensures Value() == Run(old(Value()), events)
    {
      for i := 0 to |events|
        invariant Value() == Run(old(Value()), events[..i])
      {
        assert events[..i + 1][..i] == events[..i];
        match events[i] {
          case Enqueue(f) =>
            if phase != Ended {
              sendRx := sendRx + [f];
            }
          case Connected =>
            if phase == Connecting {
              phase := Up;
              connections := connections + 1;
              isConnected := true;
            }
          case ConnectFailed =>
          case SendTurn(ok) => SenderTurn(ok);
          case Received(f) =>
            if phase == Up || phase == ReceiverLeft {
              handled := handled + [f];
            }
          case SenderSawEnd =>
            if phase == SenderLeft {
              SenderDone();
            }
          case ReceiverEnded =>
            if phase == Up {
              phase := SenderLeft;
            } else if phase == ReceiverLeft {
              phase := Connecting;
            }
          case Stopped =>
            phase := Ended;
            isConnected := false;
        }
      }
      assert events[..|events|] == events;
    }
  }
}
