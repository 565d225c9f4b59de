/**
 The answering peer: the backend's loop that takes offers, answers them, and stamps and filters candidates.

 The loop handles one thing at a time, and while it answers an offer nobody else touches the peer
 connection; only the two queues fill up meanwhile.  So an offer is answered in one step.
 */
module Answerer {
  import opened Wrappers
  import opened Signals

  /** Bound of the offer queue and of the signal queue. */
  const QUEUE_CAPACITY: nat := 8

  /** A signal of the other peer, or a candidate of our own whose id is filled in when it is taken out. */
  datatype Queued = Remote(msg: Signal) | Local(body: string)

  datatype PeerConnection = PeerConnection(remote: Option<Description>, local: Option<Description>)

  const NEW_PEER := PeerConnection(None, None)

  /** `candidates` were given to the peer connection; `sent` were given to the transport. */
  datatype Backend = Backend(
    offerQueue: seq<Signal>,
    signalQueue: seq<Queued>,
    currentOffer: Option<Signal>,
    currentNegotiationId: Option<NegId>,
    peer: PeerConnection,
    candidates: seq<Signal>,
    sent: seq<Signal>)

  /** How far answering gets before the peer connection refuses. */
  datatype Progress = RemoteRefused | AnswerRefused | LocalRefused | LocalMissing | Answered

  datatype Event =
    | Heard(msg: Signal)
    | OwnCandidate(body: string)
    | TakeOffer
    | AnswerOffer(progress: Progress)
    | TakeSignal
    | Restart

  function TryOffer(q: seq<Signal>, m: Signal): seq<Signal> {
    if |q| < QUEUE_CAPACITY then q + [m] else q
  }

  function TrySignal(q: seq<Queued>, m: Queued): seq<Queued> {
    if |q| < QUEUE_CAPACITY then q + [m] else q
  }

  ghost predicate Enabled(a: Backend, ev: Event) {
    match ev
    case OwnCandidate(_) => |a.signalQueue| < QUEUE_CAPACITY
    case TakeOffer => a.offerQueue != []
    case AnswerOffer(_) => a.currentNegotiationId.Some? && a.currentOffer.Some?
    case TakeSignal => a.signalQueue != [] && a.currentNegotiationId.Some?
    case _ => true
  }

  /** `handle_offer`: the answer carries the id of the offer it was created from. */
  function HandleOffer(a: Backend, offer: Signal, progress: Progress): Backend
    requires offer.Offer?
  {
    if progress.RemoteRefused? then a
    else
      var described := a.(peer := a.peer.(remote := Some(offer.sdp)));
      if progress.AnswerRefused? then described
      else
        var answer := AnswerDesc(described.peer.remote.value);
        if progress.LocalRefused? then described
        else
          var complete := described.(peer := described.peer.(local := Some(answer)));
          if progress.LocalMissing? then complete
          else complete.(sent := complete.sent + [Answer(offer.neg, complete.peer.local.value)])
  }

  function HandleQueued(a: Backend, q: Queued, current: NegId): Backend {
    match q
    case Local(body) => a.(sent := a.sent + [IceCandidate(current, body)])
    case Remote(m) =>
      if m.neg != current then a
      else if m.IceCandidate? then a.(candidates := a.candidates + [m])
      else a
  }

  ghost function Next(a: Backend, ev: Event): Backend
    requires Enabled(a, ev)
  {
    match ev
    case Heard(m) =>
      a.(offerQueue := if m.Offer? then TryOffer(a.offerQueue, m) else a.offerQueue,
         signalQueue := TrySignal(a.signalQueue, Remote(m)))
    case OwnCandidate(body) => a.(signalQueue := a.signalQueue + [Local(body)])
    case TakeOffer =>
      a.(offerQueue := a.offerQueue[1..],
         currentOffer := Some(a.offerQueue[0]),
         currentNegotiationId := Some(a.offerQueue[0].neg))
    case AnswerOffer(progress) =>
      if a.currentOffer.value.Offer? then HandleOffer(a.(currentOffer := None), a.currentOffer.value, progress)
      else a.(currentOffer := None)
    case TakeSignal =>
      HandleQueued(a.(signalQueue := a.signalQueue[1..]), a.signalQueue[0], a.currentNegotiationId.value)
    case Restart => a.(currentOffer := None, currentNegotiationId := None, peer := NEW_PEER)
  }

  const FRESH := Backend([], [], None, None, NEW_PEER, [], [])

  /** The answer was made from an offer sent under its id. */
  predicate AnswersOne(m: Signal, offers: seq<Signal>) {
    m.Answer? ==> m.sdp.AnswerDesc? && Offer(m.neg, m.sdp.to) in offers
  }

  /** Every offer held came from `offers`, every answer sent was made from one of them, under its id. */
  ghost predicate Inv(a: Backend, offers: seq<Signal>) {
    && (forall o <- a.offerQueue :: o.Offer? && o in offers)
    && (a.currentOffer.Some? ==> a.currentOffer.value.Offer? && a.currentOffer.value in offers
                                 && a.currentNegotiationId == Some(a.currentOffer.value.neg))
    && (forall m <- a.sent :: AnswersOne(m, offers))
  }

  lemma StepKeepsInv(a: Backend, ev: Event, offers: seq<Signal>)
    requires Inv(a, offers) && Enabled(a, ev)
    requires ev.Heard? && ev.msg.Offer? ==> ev.msg in offers
    ensures Inv(Next(a, ev), offers)
  {
    match ev
    case TakeOffer =>
      assert a.offerQueue == [a.offerQueue[0]] + a.offerQueue[1..];
    case AnswerOffer(progress) =>
      var o := a.currentOffer.value;
      assert Offer(o.neg, o.sdp) == o;
    case _ =>
  }

  /**
   Candidates: a queued one is given to the peer connection if and only if it carries the current negotiation id when
   it is taken out, and nothing else ever is; our own go out under the id that is current then.
   */
  lemma CandidatesCarryCurrentId(a: Backend, ev: Event)
    requires Enabled(a, ev)
    ensures Next(a, ev).candidates == a.candidates
              + if ev.TakeSignal? && a.signalQueue[0].Remote? && a.signalQueue[0].msg.IceCandidate?
                   && Some(a.signalQueue[0].msg.neg) == a.currentNegotiationId
                then [a.signalQueue[0].msg] else []
    ensures ev.TakeSignal? && a.signalQueue[0].Local? ==>
              Next(a, ev).sent == a.sent + [IceCandidate(a.currentNegotiationId.value, a.signalQueue[0].body)]
  {
    assert a.candidates + [] == a.candidates;
  }

  /** An answer is sent exactly when the peer connection accepted every step of answering. */
  lemma AnswersOnlyThere(a: Backend, ev: Event, offers: seq<Signal>)
    requires Inv(a, offers) && Enabled(a, ev)
    ensures a.sent <= Next(a, ev).sent && |Next(a, ev).sent| <= |a.sent| + 1
    ensures (Next(a, ev).sent != a.sent && Next(a, ev).sent[|a.sent|].Answer?) <==> ev == AnswerOffer(Answered)
  {
  }

  /** The next offer is taken and answered: under its own id, from its own description, and only if all went well. */
  lemma OfferIsAnswered(a: Backend, progress: Progress)
    requires a.offerQueue != [] && a.offerQueue[0].Offer?
    ensures var o := a.offerQueue[0]; var t := Next(Next(a, TakeOffer), AnswerOffer(progress));
            && t.sent == a.sent + (if progress.Answered? then [Answer(o.neg, AnswerDesc(o.sdp))] else [])
            && (progress.Answered? ==> t.peer == PeerConnection(Some(o.sdp), Some(AnswerDesc(o.sdp))))
            && t.offerQueue == a.offerQueue[1..] && t.currentNegotiationId == Some(o.neg) && t.currentOffer.None?
            && t.signalQueue == a.signalQueue && t.candidates == a.candidates
  {
    assert a.sent + [] == a.sent;
  }

  /** Neither queue ever holds more than eight. */
  lemma QueuesStayBounded(a: Backend, ev: Event)
    requires Enabled(a, ev) && |a.offerQueue| <= 8 && |a.signalQueue| <= 8
    ensures |Next(a, ev).offerQueue| <= 8 && |Next(a, ev).signalQueue| <= 8
  {
  }

  // ---------------------------------------------------------------------------
  // Runs of the backend
  // ---------------------------------------------------------------------------

  ghost predicate Leads(a: Backend, events: seq<Event>, c: Backend)
    decreases |events|
  {
    if events == [] then a == c
    else Enabled(a, events[0]) && Leads(Next(a, events[0]), events[1..], c)
  }

  lemma {:induction false} LeadsConcat(a: Backend, xs: seq<Event>, c: Backend, ys: seq<Event>, d: Backend)
    requires Leads(a, xs, c) && Leads(c, ys, d)
    ensures Leads(a, xs + ys, d)
    decreases |xs|
  {
    if xs == [] {
      assert xs + ys == ys;
    } else {
      LeadsConcat(Next(a, xs[0]), xs[1..], c, ys, d);
      assert (xs + ys)[1..] == xs[1..] + ys;
    }
  }

  /** A new peer connection starts silent: nothing goes out and no candidate is used before an offer is taken. */
  lemma RestartSilences(a: Backend, events: seq<Event>, c: Backend)
    requires Leads(Next(a, Restart), events, c) && forall ev <- events :: !ev.TakeOffer?
    ensures c.sent == a.sent && c.candidates == a.candidates
  {
    SilentUntilOffer(Next(a, Restart), events, c);
  }

  lemma {:induction false} SilentUntilOffer(a: Backend, events: seq<Event>, c: Backend)
    requires a.currentOffer.None? && a.currentNegotiationId.None?
    requires Leads(a, events, c) && forall ev <- events :: !ev.TakeOffer?
    ensures c.sent == a.sent && c.candidates == a.candidates
    decreases |events|
  {
    if events != [] {
      assert events[0] in events && forall ev <- events[1..] :: ev in events;
      SilentUntilOffer(Next(a, events[0]), events[1..], c);
    }
  }

  function Times(ev: Event, n: nat): (r: seq<Event>)
    ensures |r| == n && forall i :: 0 <= i < n ==> r[i] == ev
  {
    seq(n, _ => ev)
  }

  /** Offers overtaken by newer ones are taken and dropped. */
  lemma {:induction false} OffersTaken(a: Backend) returns (c: Backend)
    ensures Leads(a, Times(TakeOffer, |a.offerQueue|), c)
    ensures c.offerQueue == [] && c.sent == a.sent && c.candidates == a.candidates
    decreases |a.offerQueue|
  {
    if a.offerQueue == [] {
      c := a;
    } else {
      c := OffersTaken(Next(a, TakeOffer));
      assert Times(TakeOffer, |a.offerQueue|)[1..] == Times(TakeOffer, |a.offerQueue| - 1);
    }
  }

  /** From any state: once everything older is taken, an offer that comes in is answered. */
  lemma OfferCanBeAnswered(a: Backend, o: Signal) returns (c: Backend)
    requires o.Offer?
    ensures Leads(a, Times(TakeOffer, |a.offerQueue|) + [Heard(o), TakeOffer, AnswerOffer(Answered)], c)
    ensures c.sent == a.sent + [Answer(o.neg, AnswerDesc(o.sdp))] && c.currentNegotiationId == Some(o.neg)
    ensures c.peer == PeerConnection(Some(o.sdp), Some(AnswerDesc(o.sdp)))
  {
    var idle := OffersTaken(a);
    var heard := Next(idle, Heard(o));
    assert heard.offerQueue == [o];
    OfferIsAnswered(heard, Answered);
    c := Next(Next(heard, TakeOffer), AnswerOffer(Answered));
    var more := [Heard(o), TakeOffer, AnswerOffer(Answered)];
    assert more[1..] == [TakeOffer, AnswerOffer(Answered)] && more[1..][1..] == [AnswerOffer(Answered)];
    assert Leads(Next(heard, TakeOffer), [AnswerOffer(Answered)], c);
    LeadsConcat(a, Times(TakeOffer, |a.offerQueue|), idle, more, c);
  }

  /** While a negotiation is on, the queued signals are worked off. */
  lemma {:induction false} SignalsTaken(a: Backend) returns (c: Backend)
    requires a.currentNegotiationId.Some?
    ensures Leads(a, Times(TakeSignal, |a.signalQueue|), c)
    ensures c.signalQueue == [] && c.currentNegotiationId == a.currentNegotiationId
    ensures a.sent <= c.sent && a.candidates <= c.candidates
    decreases |a.signalQueue|
  {
    if a.signalQueue == [] {
      c := a;
    } else {
      c := SignalsTaken(Next(a, TakeSignal));
      assert Times(TakeSignal, |a.signalQueue|)[1..] == Times(TakeSignal, |a.signalQueue| - 1);
    }
  }

  /** From any state with a negotiation on: once the queue is worked off, a candidate of it that comes in is used. */
  lemma CandidateCanBeUsed(a: Backend, m: Signal) returns (c: Backend)
    requires m.IceCandidate? && a.currentNegotiationId == Some(m.neg)
    ensures Leads(a, Times(TakeSignal, |a.signalQueue|) + [Heard(m), TakeSignal], c)
    ensures a.candidates < c.candidates && c.candidates[|c.candidates| - 1] == m
  {
    var idle := SignalsTaken(a);
    var heard := Next(idle, Heard(m));
    assert heard.signalQueue == [Remote(m)];
    c := Next(heard, TakeSignal);
    assert [Heard(m), TakeSignal][1..] == [TakeSignal] && [TakeSignal][1..] == [];
    assert Leads(heard, [TakeSignal], c);
    LeadsConcat(a, Times(TakeSignal, |a.signalQueue|), idle, [Heard(m), TakeSignal], c);
  }

  /** And a candidate of our own is sent, under the id of that negotiation. */
  lemma OwnCandidateCanGoOut(a: Backend, body: string) returns (c: Backend)
    requires a.currentNegotiationId.Some?
    ensures Leads(a, Times(TakeSignal, |a.signalQueue|) + [OwnCandidate(body), TakeSignal], c)
    ensures a.sent < c.sent && c.sent[|c.sent| - 1] == IceCandidate(a.currentNegotiationId.value, body)
  {
    var idle := SignalsTaken(a);
    var queued := Next(idle, OwnCandidate(body));
    assert queued.signalQueue == [Local(body)];
    c := Next(queued, TakeSignal);
    assert [OwnCandidate(body), TakeSignal][1..] == [TakeSignal] && [TakeSignal][1..] == [];
    assert Leads(queued, [TakeSignal], c);
    LeadsConcat(a, Times(TakeSignal, |a.signalQueue|), idle, [OwnCandidate(body), TakeSignal], c);
  }

  class RtcConnector {
    var offerQueue: seq<Signal>
    var signalQueue: seq<Queued>
    var currentOffer: Option<Signal>
    var currentNegotiationId: Option<NegId>
    var peer: PeerConnection
    var candidates: seq<Signal>
    var sent: seq<Signal>

    ghost function Value(): Backend
      reads this
    {
      Backend(offerQueue, signalQueue, currentOffer, currentNegotiationId, peer, candidates, sent)
    }

    constructor ()
      ensures Value() == FRESH
    {
      offerQueue, signalQueue, currentOffer, currentNegotiationId := [], [], None, None;
      peer, candidates, sent := NEW_PEER, [], [];
    }

    method MessageHandler(m: Signal)
      modifies this
      ensures Value() == Next(old(Value()), Heard(m))
    {
      if m.Offer? && |offerQueue| < QUEUE_CAPACITY {
        offerQueue := offerQueue + [m];
      }
      if |signalQueue| < QUEUE_CAPACITY {
        signalQueue := signalQueue + [Remote(m)];
      }
    }

    method AnswerWith(offer: Signal, progress: Progress)
      requires offer.Offer?
      modifies this`peer, this`sent
      ensures Value() == HandleOffer(old(Value()), offer, progress)
    {
      var negotiationId := offer.neg;
      if progress == RemoteRefused {
        return;
      }
      peer := peer.(remote := Some(offer.sdp));
      if progress == AnswerRefused {
        return;
      }
      var answer := AnswerDesc(peer.remote.value);
      if progress == LocalRefused {
        return;
      }
      peer := peer.(local := Some(answer));
      if progress == LocalMissing {
        return;
      }
      sent := sent + [Answer(negotiationId, peer.local.value)];
    }

    /** One turn of the loop, for whichever branch of its `select` is ready. */
    method RunOnce(ev: Event)
      requires Enabled(Value(), ev) && (ev.AnswerOffer? ==> currentOffer.value.Offer?)
      modifies this
      ensures Value() == Next(old(Value()), ev)
    {
      match ev {
        case Heard(m) => MessageHandler(m);
        case OwnCandidate(body) => signalQueue := signalQueue + [Local(body)];
        case TakeOffer =>
          currentOffer := Some(offerQueue[0]);
          offerQueue := offerQueue[1..];
          currentNegotiationId := Some(currentOffer.value.neg);
        case AnswerOffer(progress) =>
          var offer := currentOffer.value;
          currentOffer := None;
          AnswerWith(offer, progress);
        case TakeSignal =>
          var msg := signalQueue[0];
          signalQueue := signalQueue[1..];
          var current := currentNegotiationId.value;
          match msg {
            case Local(body) => sent := sent + [IceCandidate(current, body)];
            case Remote(m) =>
              if m.neg == current && m.IceCandidate? {
                candidates := candidates + [m];
              }
          }
        case Restart =>
          currentOffer := None;
          currentNegotiationId := None;
          peer := NEW_PEER;
      }
    }
  }
}
