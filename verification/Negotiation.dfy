/**
 Browser and backend negotiating over a network that delays, repeats and reorders signals: any signal
 either side ever gave to its transport may reach the other at any time, any number of times.
 */
module Negotiation {
  import opened Wrappers
  import opened Signals
  import B = BrowserConnector
  import A = Answerer

  datatype System = System(browser: B.Browser, backend: A.Backend)

  datatype Step = BrowserStep(be: B.Event) | BackendStep(ae: A.Event)

  const FRESH := System(B.FRESH, A.FRESH)

  ghost predicate Enabled(s: System, step: Step) {
    match step
    case BrowserStep(ev) => B.Enabled(s.browser, ev) && (ev.Signalled? ==> ev.msg in s.backend.sent)
    case BackendStep(ev) => A.Enabled(s.backend, ev) && (ev.Heard? ==> ev.msg in s.browser.wire)
  }

  ghost function Next(s: System, step: Step): System
    requires Enabled(s, step)
  {
    match step
    case BrowserStep(ev) => s.(browser := B.Next(s.browser, ev))
    case BackendStep(ev) => s.(backend := A.Next(s.backend, ev))
  }

  ghost predicate Leads(s: System, steps: seq<Step>, t: System)
    decreases |steps|
  {
    if steps == [] then s == t
    else Enabled(s, steps[0]) && Leads(Next(s, steps[0]), steps[1..], t)
  }

  ghost predicate Inv(s: System) {
    B.NegotiationInv(s.browser) && B.DeliveryInv(s.browser) && A.Inv(s.backend, s.browser.offers)
  }

  lemma MoreOffersKeepAnswers(a: A.Backend, offers: seq<Signal>, more: seq<Signal>)
    requires A.Inv(a, offers) && offers <= more
    ensures A.Inv(a, more)
  {
    assert forall o <- offers :: o in more;
    forall m <- a.sent
      ensures A.AnswersOne(m, more)
    {
      assert A.AnswersOne(m, offers);
    }
  }

  lemma StepKeepsInv(s: System, step: Step)
    requires Inv(s) && Enabled(s, step)
    ensures Inv(Next(s, step))
  {
    match step
    case BrowserStep(ev) =>
      B.StepKeepsNegotiationInv(s.browser, ev);
      B.StepKeepsDeliveryInv(s.browser, ev);
      B.OffersGrow(s.browser, ev);
      MoreOffersKeepAnswers(s.backend, s.browser.offers, B.Next(s.browser, ev).offers);
    case BackendStep(ev) =>
      A.StepKeepsInv(s.backend, ev, s.browser.offers);
  }

  lemma {:induction false} RunKeepsInv(s: System, steps: seq<Step>, t: System)
    requires Inv(s) && Leads(s, steps, t)
    ensures Inv(t)
    decreases |steps|
  {
    if steps != [] {
      StepKeepsInv(s, steps[0]);
      RunKeepsInv(Next(s, steps[0]), steps[1..], t);
    }
  }

  /**
   In every run: an answer the browser gives to its peer connection was made by the backend from the very
   offer the browser sent last, and that offer is the browser's local description.
   */
  lemma AppliedAnswerMatches(steps: seq<Step>, t: System, m: Signal)
    requires Leads(FRESH, steps, t) && Enabled(t, BrowserStep(B.Signalled(m)))
    requires B.Next(t.browser, B.Signalled(m)).applied != t.browser.applied
    ensures m.Answer? && m.sdp.AnswerDesc? && t.browser.offers != []
    ensures B.Last(t.browser.offers) == Offer(m.neg, m.sdp.to)
    ensures t.browser.local == Some(m.sdp.to)
  {
    RunKeepsInv(FRESH, steps, t);
    assert A.AnswersOne(m, t.browser.offers);
    B.AppliedAnswerIsForLast(t.browser, m, Offer(m.neg, m.sdp.to));
  }

  /** An answer made from any other offer, or overtaken by a new attempt, changes nothing. */
  lemma StaleAnswerIsIgnored(steps: seq<Step>, t: System, m: Signal)
    requires Leads(FRESH, steps, t) && Enabled(t, BrowserStep(B.Signalled(m))) && m.Answer?
    requires t.browser.running != [] || t.browser.offers == []
             || B.Last(t.browser.offers) != Offer(m.neg, if m.sdp.AnswerDesc? then m.sdp.to else m.sdp)
    ensures B.Next(t.browser, B.Signalled(m)) == t.browser
  {
    RunKeepsInv(FRESH, steps, t);
    assert A.AnswersOne(m, t.browser.offers);
    if B.Next(t.browser, B.Signalled(m)) != t.browser {
      B.AppliedAnswerIsForLast(t.browser, m, Offer(m.neg, m.sdp.to));
    }
  }

  /**
   Exactly: an answer is applied if and only if it was made from the offer sent last, and no newer attempt has begun.
   */
  lemma AppliedIff(steps: seq<Step>, t: System, m: Signal)
    requires Leads(FRESH, steps, t) && Enabled(t, BrowserStep(B.Signalled(m))) && m.Answer?
    ensures m.sdp.AnswerDesc?
    ensures B.Next(t.browser, B.Signalled(m)).applied == t.browser.applied + [m] <==>
            B.Current(t.browser) && B.Last(t.browser.offers) == Offer(m.neg, m.sdp.to)
  {
    RunKeepsInv(FRESH, steps, t);
    assert A.AnswersOne(m, t.browser.offers);
    if B.Next(t.browser, B.Signalled(m)) != t.browser {
      B.AppliedAnswerIsForLast(t.browser, m, Offer(m.neg, m.sdp.to));
    }
  }

  // ---------------------------------------------------------------------------
  // A negotiation can always be completed
  // ---------------------------------------------------------------------------

  lemma {:induction false} LeadsConcat(s: System, xs: seq<Step>, t: System, ys: seq<Step>, u: System)
    requires Leads(s, xs, t) && Leads(t, ys, u)
    ensures Leads(s, xs + ys, u)
    decreases |xs|
  {
    if xs == [] {
      assert xs + ys == ys;
    } else {
      LeadsConcat(Next(s, xs[0]), xs[1..], t, ys, u);
      assert (xs + ys)[1..] == xs[1..] + ys;
    }
  }

  function OfBrowser(events: seq<B.Event>): (r: seq<Step>)
    ensures |r| == |events| && forall i :: 0 <= i < |r| ==> r[i] == BrowserStep(events[i])
  {
    seq(|events|, i requires 0 <= i < |events| => BrowserStep(events[i]))
  }

  function OfBackend(events: seq<A.Event>): (r: seq<Step>)
    ensures |r| == |events| && forall i :: 0 <= i < |r| ==> r[i] == BackendStep(events[i])
  {
    seq(|events|, i requires 0 <= i < |events| => BackendStep(events[i]))
  }

  /** What the browser can do by itself it can do beside the backend. */
  lemma {:induction false} BrowserRuns(s: System, events: seq<B.Event>, c: B.Browser)
    requires B.Leads(s.browser, events, c) && forall ev <- events :: !ev.Signalled?
    ensures Leads(s, OfBrowser(events), s.(browser := c))
    decreases |events|
  {
    if events != [] {
      assert events[0] in events && forall ev <- events[1..] :: ev in events;
      BrowserRuns(s.(browser := B.Next(s.browser, events[0])), events[1..], c);
      assert OfBrowser(events)[1..] == OfBrowser(events[1..]);
    }
  }

  /** And the backend, as far as what it hears is on the wire. */
  lemma {:induction false} BackendRuns(s: System, events: seq<A.Event>, c: A.Backend)
    requires A.Leads(s.backend, events, c) && forall ev <- events :: ev.Heard? ==> ev.msg in s.browser.wire
    ensures Leads(s, OfBackend(events), s.(backend := c))
    decreases |events|
  {
    if events != [] {
      assert events[0] in events && forall ev <- events[1..] :: ev in events;
      BackendRuns(s.(backend := A.Next(s.backend, events[0])), events[1..], c);
      assert OfBackend(events)[1..] == OfBackend(events[1..]);
    }
  }

  lemma {:induction false} AcksAreQuiet(n: nat)
    ensures forall ev <- B.Acks(n) :: ev.DeliveryAcked?
    decreases n
  {
    if n > 0 {
      AcksAreQuiet(n - 1);
    }
  }

  /** The browser's queue goes out. */
  lemma BrowserDelivers(s: System) returns (steps: seq<Step>, t: System)
    requires B.DeliveryInv(s.browser)
    ensures Leads(s, steps, t)
    ensures t == s.(browser := s.browser.(pending := [], delivering := false,
                                          wire := s.browser.wire + B.Among(s.browser.pending)))
  {
    var c := B.QueueGoesOut(s.browser);
    AcksAreQuiet(|s.browser.pending|);
    steps, t := OfBrowser(B.Acks(|s.browser.pending|)), s.(browser := c);
    BrowserRuns(s, B.Acks(|s.browser.pending|), c);
  }

  /** The backend takes an offer from the wire and answers it. */
  lemma BackendAnswers(s: System, o: Signal) returns (steps: seq<Step>, t: System)
    requires o.Offer? && o in s.browser.wire
    ensures Leads(s, steps, t) && t == s.(backend := t.backend)
    ensures t.backend.sent == s.backend.sent + [Answer(o.neg, AnswerDesc(o.sdp))]
    ensures t.backend.peer == A.PeerConnection(Some(o.sdp), Some(AnswerDesc(o.sdp)))
    ensures t.backend.currentNegotiationId == Some(o.neg)
  {
    var c := A.OfferCanBeAnswered(s.backend, o);
    var events := A.Times(A.TakeOffer, |s.backend.offerQueue|) + [A.Heard(o), A.TakeOffer, A.AnswerOffer(A.Answered)];
    steps, t := OfBackend(events), s.(backend := c);
    BackendRuns(s, events, c);
  }

  /** The browser's last offer was answered, the answer applied, and both peers hold the same two descriptions. */
  ghost predicate Completed(s: System, t: System, o: Signal) {
    && o.Offer? && t.browser.applied == s.browser.applied + [Answer(o.neg, AnswerDesc(o.sdp))]
    && t.backend.sent == s.backend.sent + [Answer(o.neg, AnswerDesc(o.sdp))]
    && t.browser.local == Some(o.sdp) && t.browser.negId == t.backend.currentNegotiationId == Some(o.neg)
    && t.backend.peer == A.PeerConnection(Some(o.sdp), Some(AnswerDesc(o.sdp)))
  }

  /**
   From every reachable state in which the browser's last offer is current, whatever was lost or came late: there is a
   continuation in which that offer is answered and its answer applied.
   */
  lemma CurrentOfferCanBeAnswered(steps: seq<Step>, t: System) returns (more: seq<Step>, u: System)
    requires Leads(FRESH, steps, t) && B.Current(t.browser)
    ensures Leads(t, more, u) && u.browser.offers == t.browser.offers
    ensures Completed(t, u, B.Last(t.browser.offers))
  {
    RunKeepsInv(FRESH, steps, t);
    more, u := FromInv(t);
  }

  lemma FromInv(t: System) returns (more: seq<Step>, u: System)
    requires Inv(t) && B.Current(t.browser)
    ensures Leads(t, more, u) && u.browser.offers == t.browser.offers
    ensures Completed(t, u, B.Last(t.browser.offers))
  {
    var o := B.Last(t.browser.offers);
    assert o in t.browser.offers;
    var first, sent := BrowserDelivers(t);
    var second, answered := BackendAnswers(sent, o);
    var last := BrowserStep(B.Signalled(Answer(o.neg, AnswerDesc(o.sdp))));
    u := Next(answered, last);
    assert [last][1..] == [];
    LeadsConcat(t, first, sent, second, answered);
    LeadsConcat(t, first + second, answered, [last], u);
    more := first + second + [last];
  }

  /**
   From every reachable state in which there is something to negotiate, and so from every one before a check found all
   up: there is a continuation with a new offer, its answer, and that answer applied.
   */
  lemma NegotiationCanComplete(steps: seq<Step>, t: System, now: int) returns (more: seq<Step>, u: System)
    requires Leads(FRESH, steps, t) && B.Trying(t.browser)
    ensures Leads(t, more, u)
    ensures var o := Offer(t.browser.nextNeg, OfferDesc(t.browser.nextDesc));
            u.browser.offers == t.browser.offers + [o] && Completed(t, u, o)
  {
    RunKeepsInv(FRESH, steps, t);
    var events, c := B.OfferCanBeSent(t.browser, now);
    BrowserRuns(t, events, c);
    var offered := t.(browser := c);
    RunKeepsInv(t, OfBrowser(events), offered);
    var rest;
    rest, u := FromInv(offered);
    LeadsConcat(t, OfBrowser(events), offered, rest, u);
    more := OfBrowser(events) + rest;
  }

  /** The peers negotiate under one id. */
  predicate InStep(s: System) {
    s.browser.negId.Some? && s.browser.negId == s.backend.currentNegotiationId
  }

  lemma LastMessage(s: System, step: Step) returns (t: System)
    requires Enabled(s, step)
    ensures Leads(s, [step], t) && t == Next(s, step)
  {
    t := Next(s, step);
    assert [step][1..] == [];
  }

  lemma CandidateLeaves(s: System, body: string) returns (steps: seq<Step>, t: System)
    requires B.DeliveryInv(s.browser) && s.browser.negId.Some?
    ensures Leads(s, steps, t) && t == s.(browser := t.browser)
    ensures IceCandidate(s.browser.negId.value, body) in t.browser.wire
  {
    var c := B.CandidateGoesOut(s.browser, body);
    var events := [B.CandidateFound(body)] + B.Acks(|s.browser.pending| + 1);
    AcksAreQuiet(|s.browser.pending| + 1);
    BrowserRuns(s, events, c);
    steps, t := OfBrowser(events), s.(browser := c);
  }

  lemma CandidateEnters(s: System, m: Signal) returns (steps: seq<Step>, t: System)
    requires m.IceCandidate? && s.backend.currentNegotiationId == Some(m.neg) && m in s.browser.wire
    ensures Leads(s, steps, t) && s.backend.candidates < t.backend.candidates
    ensures t.backend.candidates[|t.backend.candidates| - 1] == m
  {
    var c := A.CandidateCanBeUsed(s.backend, m);
    var events := A.Times(A.TakeSignal, |s.backend.signalQueue|) + [A.Heard(m), A.TakeSignal];
    BackendRuns(s, events, c);
    steps, t := OfBackend(events), s.(backend := c);
  }

  /**
   From every reachable state in which both peers negotiate under one id: a candidate the browser finds can reach the
   backend's peer connection, stamped with that id.
   */
  lemma BrowserCandidateCanArrive(steps: seq<Step>, t: System, body: string) returns (more: seq<Step>, u: System)
    requires Leads(FRESH, steps, t) && InStep(t)
    ensures Leads(t, more, u) && t.backend.candidates < u.backend.candidates
    ensures u.backend.candidates[|u.backend.candidates| - 1] == IceCandidate(t.browser.negId.value, body)
  {
    RunKeepsInv(FRESH, steps, t);
    var first, sent := CandidateLeaves(t, body);
    var second;
    second, u := CandidateEnters(sent, IceCandidate(t.browser.negId.value, body));
    LeadsConcat(t, first, sent, second, u);
    more := first + second;
  }

  lemma OwnCandidateLeaves(s: System, body: string) returns (steps: seq<Step>, t: System)
    requires s.backend.currentNegotiationId.Some?
    ensures Leads(s, steps, t) && t == s.(backend := t.backend)
    ensures IceCandidate(s.backend.currentNegotiationId.value, body) in t.backend.sent
  {
    var c := A.OwnCandidateCanGoOut(s.backend, body);
    var events := A.Times(A.TakeSignal, |s.backend.signalQueue|) + [A.OwnCandidate(body), A.TakeSignal];
    BackendRuns(s, events, c);
    steps, t := OfBackend(events), s.(backend := c);
  }

  /** And one the backend finds can reach the browser's. */
  lemma BackendCandidateCanArrive(steps: seq<Step>, t: System, body: string) returns (more: seq<Step>, u: System)
    requires Leads(FRESH, steps, t) && InStep(t)
    ensures Leads(t, more, u)
    ensures u.browser.candidates == t.browser.candidates + [IceCandidate(t.browser.negId.value, body)]
  {
    RunKeepsInv(FRESH, steps, t);
    var m := IceCandidate(t.browser.negId.value, body);
    var first, sent := OwnCandidateLeaves(t, body);
    u := LastMessage(sent, BrowserStep(B.Signalled(m)));
    LeadsConcat(t, first, sent, [BrowserStep(B.Signalled(m))], u);
    more := first + [BrowserStep(B.Signalled(m))];
  }
}
