/**
 The initiating peer: the browser decides when to negotiate, with a debounce timer and a handler that
 runs across several awaits.

 Each method is the code between two awaits.  `running` lists the handler bodies that are suspended at an
 await: nothing in the model keeps two of them from being there at once.  Likewise `timers` may
 hold any number of armed timers.  Aborting a delivery and resuming after it happen in one
 microtask checkpoint and so in one step.  Creating a data channel does not throw.
 */
module BrowserConnector {
  import opened Wrappers
  import opened Signals

  const DISCONNECTED_RESTART_INTERVAL := 5000
  const FAILED_RESTART_INTERVAL := 1000
  const CLOSED_CHANNEL_INTERVAL := 1000

  datatype DebounceEvent = DisconnectedIce | FailedIce | ClosedChannel | NegotiatingIce | Failover

  /** Where a handler body waits, with what it saw when it began. */
  datatype Wait =
    | ForOffer(hadConnection: bool, hadChannel: bool)
    | ForLocal(offer: Description, hadConnection: bool, hadChannel: bool)
    | ForRollback

  /**
   `settled`: a check found everything up, or the peer closed.  `applied` and `candidates`: the answers and the
   candidates given to the peer connection.
   */
  datatype Browser = Browser(
    started: bool,
    settled: bool,
    closed: bool,
    iceUp: bool,
    channelOpen: bool,
    handlingDebounce: bool,
    running: seq<Wait>,
    timers: set<nat>,
    debounceTimer: Option<nat>,
    nextTimer: nat,
    debounceStart: int,
    negId: Option<NegId>,
    nextNeg: NegId,
    nextDesc: nat,
    local: Option<Description>,
    pending: seq<Signal>,
    delivering: bool,
    offers: seq<Signal>,
    wire: set<Signal>,
    applied: seq<Signal>,
    candidates: seq<Signal>)

  // ---------------------------------------------------------------------------
  // The debouncer
  // ---------------------------------------------------------------------------

  function StartDebounce(b: Browser, now: int): Browser {
    b.(timers := (if b.debounceTimer.Some? then b.timers - {b.debounceTimer.value} else b.timers) + {b.nextTimer},
       debounceTimer := Some(b.nextTimer),
       nextTimer := b.nextTimer + 1,
       debounceStart := now)
  }

  predicate Faster(b: Browser, delay: int, now: int) {
    b.debounceTimer.None? || (b.debounceStart != 0 && now - b.debounceStart > delay)
  }

  function AddDebounceEvent(b: Browser, ev: DebounceEvent, now: int): Browser {
    if b.handlingDebounce then b
    else match ev
      case DisconnectedIce => if Faster(b, DISCONNECTED_RESTART_INTERVAL, now) then StartDebounce(b, now) else b
      case FailedIce => if Faster(b, FAILED_RESTART_INTERVAL, now) then StartDebounce(b, now) else b
      case ClosedChannel => if Faster(b, CLOSED_CHANNEL_INTERVAL, now) then StartDebounce(b, now) else b
      case NegotiatingIce => StartDebounce(b, now)
      case Failover => StartDebounce(b, now)
  }

  function DebounceFailed(b: Browser, now: int): Browser {
    AddDebounceEvent(b.(handlingDebounce := false), Failover, now)
  }

  // ---------------------------------------------------------------------------
  // Delivery of signals
  // ---------------------------------------------------------------------------

  /** `sendSignallingMessage`: queue, and start delivering if nobody does. */
  function SendSignal(b: Browser, m: Signal): Browser {
    var queued := b.(pending := b.pending + [m]);
    if b.delivering then queued
    else queued.(delivering := true, wire := b.wire + {queued.pending[0]})
  }

  /** The head of the queue was acked: drop it and go on with the next. */
  function Delivered(b: Browser): Browser
    requires b.pending != []
  {
    var rest := b.pending[1..];
    if rest == [] then b.(pending := rest, delivering := false)
    else b.(pending := rest, wire := b.wire + {rest[0]})
  }

  // ---------------------------------------------------------------------------
  // The handler, from one await to the next
  // ---------------------------------------------------------------------------

  function Finish(b: Browser, i: nat): Browser
    requires i < |b.running|
  {
    b.(running := b.running[..i] + b.running[i + 1..])
  }

  /** From the timer, or from `startPeerConnection`, to the request for an offer. */
  function Enter(b: Browser): Browser {
    if b.closed || (b.iceUp && b.channelOpen) then b.(settled := true)
    else
      b.(handlingDebounce := true,
         pending := if b.delivering then [] else b.pending,
         delivering := false,
         negId := Some(b.nextNeg),
         nextNeg := b.nextNeg + 1,
         running := b.running + [ForOffer(b.iceUp, b.channelOpen)])
  }

  function OfferCreated(b: Browser, i: nat, ok: bool, now: int): Browser
    requires i < |b.running| && b.running[i].ForOffer?
  {
    var w := b.running[i];
    if !ok then DebounceFailed(Finish(b, i), now)
    else if b.iceUp && b.channelOpen then Finish(b, i).(handlingDebounce := false, settled := true)
    else if b.iceUp != w.hadConnection || b.channelOpen != w.hadChannel then DebounceFailed(Finish(b, i), now)
    else b.(nextDesc := b.nextDesc + 1,
            running := b.running[i := ForLocal(OfferDesc(b.nextDesc), w.hadConnection, w.hadChannel)])
  }

  function LocalSet(b: Browser, i: nat, ok: bool, now: int): Browser
    requires i < |b.running| && b.running[i].ForLocal?
  {
    var w := b.running[i];
    if !ok then DebounceFailed(Finish(b, i), now)
    else
      var applied := b.(local := Some(w.offer));
      if b.iceUp != w.hadConnection || b.channelOpen != w.hadChannel then
        applied.(running := b.running[i := ForRollback])
      else
        OfferSent(AddDebounceEvent(Finish(applied, i).(handlingDebounce := false), NegotiatingIce, now), w.offer)
  }

  /** The local description goes out as an offer under the current id. */
  function OfferSent(b: Browser, sdp: Description): Browser {
    if b.negId.None? then b
    else SendSignal(b.(offers := b.offers + [Offer(b.negId.value, sdp)]), Offer(b.negId.value, sdp))
  }

  /** `restored` is whatever description the rollback, or its failure, leaves behind. */
  function RolledBack(b: Browser, i: nat, restored: Option<Description>, now: int): Browser
    requires i < |b.running| && b.running[i].ForRollback?
  {
    DebounceFailed(Finish(b, i).(local := restored), now)
  }

  // ---------------------------------------------------------------------------
  // Everything that can happen to the browser
  // ---------------------------------------------------------------------------

  datatype Event =
    | Start
    | TimerFires(timer: nat)
    | ResumeOffer(i: nat, created: bool, now: int)
    | ResumeLocal(i: nat, applies: bool, now: int)
    | ResumeRollback(i: nat, restored: Option<Description>, now: int)
    | IceChanges(up: bool, event: Option<DebounceEvent>, now: int)
    | ChannelOpens
    | ChannelCloses(now: int)
    | CandidateFound(body: string)
    | DeliveryAcked
    | Signalled(msg: Signal)
    | Close

  ghost predicate Enabled(b: Browser, ev: Event) {
    match ev
    case TimerFires(t) => t in b.timers
    case ResumeOffer(i, _, _) => i < |b.running| && b.running[i].ForOffer?
    case ResumeLocal(i, _, _) => i < |b.running| && b.running[i].ForLocal?
    case ResumeRollback(i, _, _) => i < |b.running| && b.running[i].ForRollback?
    case DeliveryAcked => b.delivering && b.pending != []
    case IceChanges(_, e, _) => b.started && e in {None, Some(DisconnectedIce), Some(FailedIce)}
    case ChannelOpens => b.started
    case ChannelCloses(_) => b.started
    case CandidateFound(_) => b.negId.Some?
    case _ => true
  }

  function HandleSignal(b: Browser, m: Signal): Browser {
    if !b.started || b.negId != Some(m.neg) then b
    else if m.Answer? then b.(applied := b.applied + [m])
    else if m.IceCandidate? then b.(candidates := b.candidates + [m])
    else b
  }

  ghost function Next(b: Browser, ev: Event): Browser
    requires Enabled(b, ev)
  {
    match ev
    case Start => if b.started then b else Enter(b.(started := true, channelOpen := false))
    case TimerFires(t) => Enter(b.(timers := b.timers - {t}))
    case ResumeOffer(i, ok, now) => OfferCreated(b, i, ok, now)
    case ResumeLocal(i, ok, now) => LocalSet(b, i, ok, now)
    case ResumeRollback(i, r, now) => RolledBack(b, i, r, now)
    case IceChanges(up, e, now) =>
      var c := b.(iceUp := up && !b.closed);
      if e.Some? then AddDebounceEvent(c, e.value, now) else c
    case ChannelOpens => b.(channelOpen := true)
    case ChannelCloses(now) => AddDebounceEvent(b.(channelOpen := false), ClosedChannel, now)
    case CandidateFound(body) => SendSignal(b, IceCandidate(b.negId.value, body))
    case DeliveryAcked => Delivered(b)
    case Signalled(m) => HandleSignal(b, m)
    case Close => b.(closed := true, iceUp := false, channelOpen := false)
  }

  const FRESH := Browser(false, false, false, false, false, false, [], {}, None, 0, 0, None, 0, 0, None,
                         [], false, [], {}, [], [])

  ghost predicate Leads(b: Browser, events: seq<Event>, c: Browser)
    decreases |events|
  {
    if events == [] then b == c
    else Enabled(b, events[0]) && Leads(Next(b, events[0]), events[1..], c)
  }

  // ---------------------------------------------------------------------------
  // One handler, one timer
  // ---------------------------------------------------------------------------

  /**
   At most one handler body runs, and the flag says so; only the timer the object remembers can be armed, and
   not while a handler runs; until everything was found up, there is always one or the other.
   */
  ghost predicate DebounceInv(b: Browser) {
    && |b.running| <= 1
    && (b.handlingDebounce <==> b.running != [])
    && (forall t <- b.timers :: b.debounceTimer == Some(t))
    && (b.running != [] ==> b.timers == {})
    && (b.started && !b.settled ==> b.running != [] || b.timers != {})
    && (!b.started ==> b.running == [] && b.timers == {} && b.debounceTimer.None?)
  }

  /** With no handler running and everything else in order, any debounce event keeps things in order. */
  lemma EventKeepsDebounce(b: Browser, ev: DebounceEvent, now: int)
    requires DebounceInv(b) && b.started
    ensures DebounceInv(AddDebounceEvent(b, ev, now))
  {
  }

  /** The handler's last act: it clears its flag and arms the timer. */
  lemma EndingHandlerArms(b: Browser, i: nat, ev: DebounceEvent, now: int)
    requires DebounceInv(b) && i < |b.running| && (ev.Failover? || ev.NegotiatingIce?)
    ensures DebounceInv(AddDebounceEvent(Finish(b, i).(handlingDebounce := false), ev, now))
  {
    assert Finish(b, i).running == [];
  }

  lemma EnterKeepsDebounce(b: Browser)
    requires b.running == [] && !b.handlingDebounce && b.timers == {} && b.started
    ensures DebounceInv(Enter(b))
  {
  }

  predicate IsResume(ev: Event) {
    ev.ResumeOffer? || ev.ResumeLocal? || ev.ResumeRollback?
  }

  lemma OfferKeepsDebounce(b: Browser, i: nat, ok: bool, now: int)
    requires DebounceInv(b) && Enabled(b, ResumeOffer(i, ok, now))
    ensures DebounceInv(OfferCreated(b, i, ok, now))
  {
    assert Finish(b, i).running == [];
    EndingHandlerArms(b, i, Failover, now);
  }

  lemma SendKeepsDebounce(b: Browser, sdp: Description)
    requires DebounceInv(b)
    ensures DebounceInv(OfferSent(b, sdp))
  {
  }

  lemma LocalKeepsDebounce(b: Browser, i: nat, ok: bool, now: int)
    requires DebounceInv(b) && Enabled(b, ResumeLocal(i, ok, now))
    ensures DebounceInv(LocalSet(b, i, ok, now))
  {
    var w := b.running[i];
    var applied := b.(local := Some(w.offer));
    if !ok {
      EndingHandlerArms(b, i, Failover, now);
    } else if b.iceUp == w.hadConnection && b.channelOpen == w.hadChannel {
      EndingHandlerArms(applied, i, NegotiatingIce, now);
      var c := AddDebounceEvent(Finish(applied, i).(handlingDebounce := false), NegotiatingIce, now);
      SendKeepsDebounce(c, w.offer);
      assert LocalSet(b, i, ok, now) == OfferSent(c, w.offer);
    }
  }

  lemma ResumeKeepsDebounce(b: Browser, ev: Event)
    requires DebounceInv(b) && Enabled(b, ev) && IsResume(ev)
    ensures DebounceInv(Next(b, ev))
  {
    match ev
    case ResumeOffer(i, ok, now) => OfferKeepsDebounce(b, i, ok, now);
    case ResumeLocal(i, ok, now) => LocalKeepsDebounce(b, i, ok, now);
    case ResumeRollback(i, r, now) => EndingHandlerArms(b.(local := r), i, Failover, now);
  }

  lemma EnteringKeepsDebounce(b: Browser, ev: Event)
    requires DebounceInv(b) && Enabled(b, ev) && (ev.Start? || ev.TimerFires?)
    ensures DebounceInv(Next(b, ev))
  {
    match ev
    case Start =>
      if !b.started {
        EnterKeepsDebounce(b.(started := true, channelOpen := false));
      }
    case TimerFires(t) =>
      assert b.timers == {t};
      EnterKeepsDebounce(b.(timers := b.timers - {t}));
  }

  lemma ReportKeepsDebounce(b: Browser, ev: Event)
    requires DebounceInv(b) && Enabled(b, ev) && (ev.IceChanges? || ev.ChannelCloses?)
    ensures DebounceInv(Next(b, ev))
  {
    match ev
    case IceChanges(up, e, now) =>
      if e.Some? {
        EventKeepsDebounce(b.(iceUp := up && !b.closed), e.value, now);
      }
    case ChannelCloses(now) => EventKeepsDebounce(b.(channelOpen := false), ClosedChannel, now);
  }

  lemma SignalKeepsDebounce(b: Browser, m: Signal)
    requires DebounceInv(b)
    ensures DebounceInv(HandleSignal(b, m)) && DebounceInv(SendSignal(b, m))
  {
  }

  lemma AckKeepsDebounce(b: Browser)
    requires DebounceInv(b) && b.pending != []
    ensures DebounceInv(Delivered(b))
  {
    DeliveryTouchesOnlyQueues(b);
    SameDebounce(b, Delivered(b));
  }

  lemma SameDebounce(b: Browser, c: Browser)
    requires DebounceInv(b) && c.running == b.running && c.timers == b.timers && c.debounceTimer == b.debounceTimer
    requires c.handlingDebounce == b.handlingDebounce && c.started == b.started && c.settled == b.settled
    ensures DebounceInv(c)
  {
  }

  lemma UpOrDownKeepsDebounce(b: Browser, ev: Event)
    requires DebounceInv(b) && Enabled(b, ev) && (ev.ChannelOpens? || ev.Close?)
    ensures DebounceInv(Next(b, ev))
  {
  }

  lemma StepKeepsDebounceInv(b: Browser, ev: Event)
    requires DebounceInv(b) && Enabled(b, ev)
    ensures DebounceInv(Next(b, ev))
  {
    if IsResume(ev) {
      ResumeKeepsDebounce(b, ev);
    } else if ev.Start? || ev.TimerFires? {
      EnteringKeepsDebounce(b, ev);
    } else if ev.IceChanges? || ev.ChannelCloses? {
      ReportKeepsDebounce(b, ev);
    } else if ev.CandidateFound? {
      SignalKeepsDebounce(b, IceCandidate(b.negId.value, ev.body));
    } else if ev.Signalled? {
      SignalKeepsDebounce(b, ev.msg);
    } else if ev.DeliveryAcked? {
      AckKeepsDebounce(b);
    } else {
      UpOrDownKeepsDebounce(b, ev);
    }
  }

  /**
   In every reachable state: never two handler bodies, never two armed timers, never a timer armed while a
   handler runs; and from `startPeerConnection` until a check finds ICE and channel up, exactly one of the two.
   */
  lemma {:induction false} OneHandlerOrOneTimer(b: Browser, events: seq<Event>, c: Browser)
    requires DebounceInv(b) && Leads(b, events, c)
    ensures |c.running| + |c.timers| <= 1
    ensures c.started && !c.settled ==> |c.running| + |c.timers| == 1
    ensures DebounceInv(c)
    decreases |events|
  {
    if events != [] {
      StepKeepsDebounceInv(b, events[0]);
      OneHandlerOrOneTimer(Next(b, events[0]), events[1..], c);
    } else if c.timers != {} {
      var t :| t in c.timers;
      assert c.timers == {t};
    }
  }

  /** How long ago, in milliseconds, the last timer must have been armed for this report of trouble to rearm it. */
  function IntervalOf(ev: Event): int {
    if ev.IceChanges? && ev.event == Some(DisconnectedIce) then 5000 else 1000
  }

  /** The event reports trouble: ICE disconnected or failed, or the channel closed. */
  predicate Reports(ev: Event) { ev.ChannelCloses? || (ev.IceChanges? && ev.event.Some?) }

  lemma DebounceRearmsIff(b: Browser, ev: DebounceEvent, now: int)
    requires DebounceInv(b) && b.running == [] && (ev.DisconnectedIce? || ev.FailedIce? || ev.ClosedChannel?)
    ensures var c := AddDebounceEvent(b, ev, now); var interval := if ev.DisconnectedIce? then 5000 else 1000;
            c.timers == if b.debounceTimer.None? || (b.debounceStart != 0 && now - b.debounceStart > interval)
                        then {b.nextTimer} else b.timers
  {
  }

  /**
   With no handler running, a report of trouble arms one fresh timer in place of whatever was armed, if and only if none
   was ever armed or the last one was armed longer ago than the report's interval; else the timers stay.
   */
  lemma ReportRearmsIff(b: Browser, ev: Event)
    requires DebounceInv(b) && b.running == [] && Enabled(b, ev) && Reports(ev)
    ensures Next(b, ev).timers
            == if b.debounceTimer.None? || (b.debounceStart != 0 && ev.now - b.debounceStart > IntervalOf(ev))
               then {b.nextTimer} else b.timers
  {
    match ev
    case IceChanges(up, e, now) => DebounceRearmsIff(b.(iceUp := up && !b.closed), e.value, now);
    case ChannelCloses(now) => DebounceRearmsIff(b.(channelOpen := false), ClosedChannel, now);
  }

  // ---------------------------------------------------------------------------
  // The current id names the offer last sent
  // ---------------------------------------------------------------------------

  function Last(offers: seq<Signal>): Signal
    requires offers != []
  {
    offers[|offers| - 1]
  }

  /** Offers were sent under ever newer ids, none newer than the current one. */
  ghost predicate OffersInv(b: Browser) {
    && (b.negId.Some? ==> b.negId.value < b.nextNeg)
    && (forall o <- b.offers :: o.Offer? && b.negId.Some? && o.neg <= b.negId.value)
    && (forall i, j :: 0 <= i < j < |b.offers| ==> b.offers[i].neg < b.offers[j].neg)
  }

  /** Only offers that count as sent are queued or on the wire. */
  ghost predicate QueuesInv(b: Browser) {
    && (forall m <- b.wire :: m.Offer? ==> m in b.offers)
    && (forall m <- b.pending :: m.Offer? ==> m in b.offers)
  }

  /** While a handler runs its id was sent with no offer yet; otherwise the last offer is the local description. */
  ghost predicate CurrentInv(b: Browser) {
    && (b.running != [] ==> b.negId.Some? && forall o <- b.offers :: o.Offer? && o.neg < b.negId.value)
    && (b.offers != [] && Last(b.offers).Offer? && b.negId == Some(Last(b.offers).neg) ==>
          b.local == Some(Last(b.offers).sdp))
  }

  ghost predicate SentInv(b: Browser) {
    OffersInv(b) && QueuesInv(b) && CurrentInv(b)
  }

  ghost predicate NegotiationInv(b: Browser) {
    DebounceInv(b) && SentInv(b)
  }

  lemma DebounceTouchesOnlyTimers(b: Browser, ev: DebounceEvent, now: int)
    ensures var c := AddDebounceEvent(b, ev, now);
            c == b.(timers := c.timers, debounceTimer := c.debounceTimer, nextTimer := c.nextTimer,
                    debounceStart := c.debounceStart)
  {
  }

  lemma SendTouchesOnlyQueues(b: Browser, m: Signal)
    ensures var c := SendSignal(b, m);
            c == b.(pending := c.pending, delivering := c.delivering, wire := c.wire)
  {
  }

  lemma SendKeepsQueues(b: Browser, m: Signal)
    requires QueuesInv(b) && (m.Offer? ==> m in b.offers)
    ensures QueuesInv(SendSignal(b, m))
  {
    var c := SendSignal(b, m);
    assert c.pending == b.pending + [m] && c.offers == b.offers;
    assert c.wire == b.wire || c.wire == b.wire + {c.pending[0]};
    assert c.pending[0] in c.pending;
  }

  /** The browser as `LocalSet` leaves it before it sends the offer. */
  function Rearmed(b: Browser, i: nat, now: int): Browser
    requires i < |b.running| && b.running[i].ForLocal?
  {
    AddDebounceEvent(Finish(b.(local := Some(b.running[i].offer)), i).(handlingDebounce := false), NegotiatingIce, now)
  }

  lemma RearmedKeepsOffers(b: Browser, i: nat, now: int)
    requires NegotiationInv(b) && Enabled(b, ResumeLocal(i, true, now))
    ensures var c := Rearmed(b, i, now);
            && c.running == [] && c.negId == b.negId && c.nextNeg == b.nextNeg && c.offers == b.offers
            && c.local == Some(b.running[i].offer) && OffersInv(c) && QueuesInv(c)
  {
    DebounceTouchesOnlyTimers(Finish(b.(local := Some(b.running[i].offer)), i).(handlingDebounce := false),
                              NegotiatingIce, now);
    assert Finish(b, i).running == [];
  }

  /** This step sends an offer: the current id's first, for the description just set. */
  lemma OfferIsCurrent(b: Browser, i: nat, now: int)
    requires NegotiationInv(b) && Enabled(b, ResumeLocal(i, true, now))
    requires b.iceUp == b.running[i].hadConnection && b.channelOpen == b.running[i].hadChannel
    ensures var c := LocalSet(b, i, true, now);
            && c.offers == b.offers + [Offer(b.negId.value, b.running[i].offer)]
            && c.local == Some(b.running[i].offer)
            && SentInv(c)
  {
    var mid := Rearmed(b, i, now);
    RearmedKeepsOffers(b, i, now);
    var offer := Offer(b.negId.value, b.running[i].offer);
    var counted := mid.(offers := mid.offers + [offer]);
    assert offer in counted.offers && Last(counted.offers) == offer;
    SendTouchesOnlyQueues(counted, offer);
    SendKeepsQueues(counted, offer);
    AppendedOffersAreOrdered(b, offer);
  }

  lemma AppendedOffersAreOrdered(b: Browser, offer: Signal)
    requires OffersInv(b) && forall o <- b.offers :: o.neg < offer.neg
    ensures var offers := b.offers + [offer];
            forall k, j :: 0 <= k < j < |offers| ==> offers[k].neg < offers[j].neg
  {
    assert forall k :: 0 <= k < |b.offers| ==> b.offers[k] in b.offers;
  }

  /** A handler that gives up leaves offers and queues as they are. */
  lemma GivingUpKeepsOffers(b: Browser, i: nat, restored: Option<Description>, now: int)
    requires NegotiationInv(b) && i < |b.running|
    ensures SentInv(DebounceFailed(Finish(b, i).(local := restored), now))
  {
    assert Finish(b, i).running == [];
    DebounceTouchesOnlyTimers(Finish(b, i).(local := restored, handlingDebounce := false), Failover, now);
    assert b.offers != [] ==> Last(b.offers) in b.offers;
  }

  lemma ResumeOfferKeepsOffers(b: Browser, i: nat, ok: bool, now: int)
    requires NegotiationInv(b) && Enabled(b, ResumeOffer(i, ok, now))
    ensures SentInv(OfferCreated(b, i, ok, now))
  {
    GivingUpKeepsOffers(b, i, b.local, now);
    assert Finish(b, i).(local := b.local) == Finish(b, i) && Finish(b, i).running == [];
    assert b.offers != [] ==> Last(b.offers) in b.offers;
  }

  lemma ResumeLocalKeepsOffers(b: Browser, i: nat, ok: bool, now: int)
    requires NegotiationInv(b) && Enabled(b, ResumeLocal(i, ok, now))
    ensures SentInv(LocalSet(b, i, ok, now))
  {
    assert b.offers != [] ==> Last(b.offers) in b.offers;
    if !ok {
      GivingUpKeepsOffers(b, i, b.local, now);
      assert Finish(b, i).(local := b.local) == Finish(b, i);
    } else if b.iceUp == b.running[i].hadConnection && b.channelOpen == b.running[i].hadChannel {
      OfferIsCurrent(b, i, now);
    }
  }

  lemma EnterKeepsOffers(b: Browser)
    requires SentInv(b) && b.running == []
    ensures SentInv(Enter(b))
  {
    assert b.offers != [] ==> Last(b.offers) in b.offers;
  }

  lemma EventKeepsOffers(b: Browser, ev: DebounceEvent, now: int)
    requires SentInv(b)
    ensures SentInv(AddDebounceEvent(b, ev, now))
  {
    DebounceTouchesOnlyTimers(b, ev, now);
  }

  lemma DeliveryKeepsQueues(pending: seq<Signal>, wire: set<Signal>, offers: seq<Signal>)
    requires pending != []
    requires forall m <- wire :: m.Offer? ==> m in offers
    requires forall m <- pending :: m.Offer? ==> m in offers
    ensures forall m <- pending[1..] :: m.Offer? ==> m in offers
    ensures |pending| > 1 ==> forall m <- wire + {pending[1]} :: m.Offer? ==> m in offers
  {
    assert pending == [pending[0]] + pending[1..];
    assert |pending| > 1 ==> pending[1] in pending;
  }

  lemma DeliveryTouchesOnlyQueues(b: Browser)
    requires b.pending != []
    ensures var c := Delivered(b);
            c == b.(pending := b.pending[1..], delivering := c.delivering,
                    wire := if |b.pending| > 1 then b.wire + {b.pending[1]} else b.wire)
  {
  }

  lemma DeliveryKeepsOffers(b: Browser)
    requires SentInv(b) && b.pending != []
    ensures SentInv(Delivered(b))
  {
    DeliveryTouchesOnlyQueues(b);
    DeliveryKeepsQueues(b.pending, b.wire, b.offers);
    SameHistory(b, Delivered(b));
  }

  lemma SameHistory(b: Browser, c: Browser)
    requires OffersInv(b) && CurrentInv(b)
    requires c.offers == b.offers && c.negId == b.negId && c.nextNeg == b.nextNeg
    requires c.local == b.local && c.running == b.running
    ensures OffersInv(c) && CurrentInv(c)
  {
  }

  lemma ResumeKeepsOffers(b: Browser, ev: Event)
    requires NegotiationInv(b) && Enabled(b, ev) && IsResume(ev)
    ensures SentInv(Next(b, ev))
  {
    match ev
    case ResumeOffer(i, ok, now) => ResumeOfferKeepsOffers(b, i, ok, now);
    case ResumeLocal(i, ok, now) => ResumeLocalKeepsOffers(b, i, ok, now);
    case ResumeRollback(i, r, now) => GivingUpKeepsOffers(b, i, r, now);
  }

  lemma EnteringKeepsOffers(b: Browser, ev: Event)
    requires NegotiationInv(b) && Enabled(b, ev) && (ev.Start? || ev.TimerFires?)
    ensures SentInv(Next(b, ev))
  {
    match ev
    case Start =>
      if !b.started {
        EnterKeepsOffers(b.(started := true, channelOpen := false));
      }
    case TimerFires(t) => EnterKeepsOffers(b.(timers := b.timers - {t}));
  }

  lemma ReportKeepsOffers(b: Browser, ev: Event)
    requires NegotiationInv(b) && Enabled(b, ev) && (ev.IceChanges? || ev.ChannelCloses?)
    ensures SentInv(Next(b, ev))
  {
    match ev
    case IceChanges(up, e, now) =>
      if e.Some? {
        EventKeepsOffers(b.(iceUp := up && !b.closed), e.value, now);
      }
    case ChannelCloses(now) => EventKeepsOffers(b.(channelOpen := false), ClosedChannel, now);
  }

  lemma QueueStepKeepsOffers(b: Browser, ev: Event)
    requires NegotiationInv(b) && Enabled(b, ev) && (ev.CandidateFound? || ev.DeliveryAcked?)
    ensures SentInv(Next(b, ev))
  {
    match ev
    case CandidateFound(body) =>
      SendTouchesOnlyQueues(b, IceCandidate(b.negId.value, body));
      SendKeepsQueues(b, IceCandidate(b.negId.value, body));
    case DeliveryAcked => DeliveryKeepsOffers(b);
  }

  lemma SignalKeepsOffers(b: Browser, m: Signal)
    requires SentInv(b)
    ensures SentInv(HandleSignal(b, m))
  {
    SameHistory(b, HandleSignal(b, m));
  }

  lemma UpOrDownKeepsOffers(b: Browser, ev: Event)
    requires SentInv(b) && Enabled(b, ev) && (ev.ChannelOpens? || ev.Close?)
    ensures SentInv(Next(b, ev))
  {
    SameHistory(b, Next(b, ev));
  }

  lemma StepKeepsSentInv(b: Browser, ev: Event)
    requires NegotiationInv(b) && Enabled(b, ev)
    ensures SentInv(Next(b, ev))
  {
    if IsResume(ev) {
      ResumeKeepsOffers(b, ev);
    } else if ev.Start? || ev.TimerFires? {
      EnteringKeepsOffers(b, ev);
    } else if ev.IceChanges? || ev.ChannelCloses? {
      ReportKeepsOffers(b, ev);
    } else if ev.CandidateFound? || ev.DeliveryAcked? {
      QueueStepKeepsOffers(b, ev);
    } else if ev.Signalled? {
      SignalKeepsOffers(b, ev.msg);
    } else {
      UpOrDownKeepsOffers(b, ev);
    }
  }

  lemma StepKeepsNegotiationInv(b: Browser, ev: Event)
    requires NegotiationInv(b) && Enabled(b, ev)
    ensures NegotiationInv(Next(b, ev))
  {
    StepKeepsDebounceInv(b, ev);
    StepKeepsSentInv(b, ev);
  }

  lemma ResumeGrowsOffers(b: Browser, ev: Event)
    requires NegotiationInv(b) && Enabled(b, ev) && IsResume(ev)
    ensures b.offers <= Next(b, ev).offers
  {
    DebounceTouchesOnlyTimers(Finish(b, ev.i).(handlingDebounce := false), Failover, ev.now);
    match ev
    case ResumeOffer(i, ok, now) =>
    case ResumeLocal(i, ok, now) =>
      if ok && b.iceUp == b.running[i].hadConnection && b.channelOpen == b.running[i].hadChannel {
        OfferIsCurrent(b, i, now);
      }
    case ResumeRollback(i, r, now) =>
      DebounceTouchesOnlyTimers(Finish(b, i).(local := r, handlingDebounce := false), Failover, now);
  }

  /** Reports of the connection and the channel only start the debouncer. */
  lemma ReportSendsNothing(b: Browser, ev: Event)
    requires Enabled(b, ev) && (ev.IceChanges? || ev.ChannelCloses?)
    ensures Next(b, ev).offers == b.offers
  {
    match ev
    case IceChanges(up, e, now) =>
      if e.Some? {
        DebounceTouchesOnlyTimers(b.(iceUp := up && !b.closed), e.value, now);
      }
    case ChannelCloses(now) => DebounceTouchesOnlyTimers(b.(channelOpen := false), ClosedChannel, now);
  }

  lemma NotResumedSendsNothing(b: Browser, ev: Event)
    requires Enabled(b, ev) && !IsResume(ev)
    ensures Next(b, ev).offers == b.offers
  {
    if ev.IceChanges? || ev.ChannelCloses? {
      ReportSendsNothing(b, ev);
    } else if ev.CandidateFound? {
      SendTouchesOnlyQueues(b, IceCandidate(b.negId.value, ev.body));
    } else if ev.DeliveryAcked? {
      DeliveryTouchesOnlyQueues(b);
    } else if ev.Start? || ev.TimerFires? {
      EnteringSendsNothing(b, ev);
    } else if ev.ChannelOpens? || ev.Close? {
      UpOrDownSendsNothing(b, ev);
    }
  }

  lemma EnteringSendsNothing(b: Browser, ev: Event)
    requires Enabled(b, ev) && (ev.Start? || ev.TimerFires?)
    ensures Next(b, ev).offers == b.offers
  {
  }

  lemma UpOrDownSendsNothing(b: Browser, ev: Event)
    requires Enabled(b, ev) && (ev.ChannelOpens? || ev.Close?)
    ensures Next(b, ev).offers == b.offers
  {
  }

  lemma OffersGrow(b: Browser, ev: Event)
    requires NegotiationInv(b) && Enabled(b, ev)
    ensures b.offers <= Next(b, ev).offers
  {
    if IsResume(ev) {
      ResumeGrowsOffers(b, ev);
    } else {
      NotResumedSendsNothing(b, ev);
    }
  }

  /** The local description was set and nothing changed meanwhile. */
  predicate Announces(b: Browser, ev: Event) {
    && ev.ResumeLocal? && ev.applies && ev.i < |b.running| && b.running[ev.i].ForLocal?
    && b.iceUp == b.running[ev.i].hadConnection && b.channelOpen == b.running[ev.i].hadChannel
  }

  lemma ResumeSendsOnlyThere(b: Browser, ev: Event)
    requires NegotiationInv(b) && Enabled(b, ev) && IsResume(ev) && !Announces(b, ev)
    ensures Next(b, ev).offers == b.offers
  {
    DebounceTouchesOnlyTimers(Finish(b, ev.i).(handlingDebounce := false), Failover, ev.now);
    if ev.ResumeRollback? {
      DebounceTouchesOnlyTimers(Finish(b, ev.i).(local := ev.restored, handlingDebounce := false), Failover, ev.now);
    }
  }

  /** And no other step does: offers change exactly when a handler sets its description undisturbed. */
  lemma OffersChangeOnlyThere(b: Browser, ev: Event)
    requires NegotiationInv(b) && Enabled(b, ev)
    ensures Next(b, ev).offers != b.offers <==> Announces(b, ev)
  {
    if Announces(b, ev) {
      OfferIsCurrent(b, ev.i, ev.now);
    } else if IsResume(ev) {
      ResumeSendsOnlyThere(b, ev);
    } else {
      NotResumedSendsNothing(b, ev);
    }
  }

  /** An answer that is applied carries the id of the offer last sent, if any offer was sent under that id. */
  lemma AppliedAnswerIsForLast(b: Browser, m: Signal, offer: Signal)
    requires NegotiationInv(b) && m.Answer? && Next(b, Signalled(m)) != b
    requires offer in b.offers && offer.neg == m.neg
    ensures b.offers != [] && Last(b.offers) == offer && b.local == Some(offer.sdp) && b.running == []
  {
    var k :| 0 <= k < |b.offers| && b.offers[k] == offer;
    assert Last(b.offers) in b.offers;
  }

  // ---------------------------------------------------------------------------
  // Signals reach the wire
  // ---------------------------------------------------------------------------

  /** The last offer is the one of the current id: no newer attempt has begun. */
  predicate IsCurrent(offers: seq<Signal>, negId: Option<NegId>) {
    offers != [] && negId == Some(Last(offers).neg)
  }

  predicate Current(b: Browser) { IsCurrent(b.offers, b.negId) }

  /** The head of the queue is on the wire; the current offer is there or behind it. */
  ghost predicate Delivering(offers: seq<Signal>, negId: Option<NegId>, pending: seq<Signal>, wire: set<Signal>) {
    && (pending != [] ==> pending[0] in wire)
    && (IsCurrent(offers, negId) ==> Last(offers) in pending || Last(offers) in wire)
  }

  ghost predicate DeliveryInv(b: Browser) {
    && (b.offers != [] || b.negId.Some? ==> b.started) && (b.delivering <==> b.pending != [])
    && Delivering(b.offers, b.negId, b.pending, b.wire)
  }

  lemma SendKeepsDelivery(b: Browser, m: Signal)
    requires (b.offers != [] || b.negId.Some? ==> b.started) && (b.delivering <==> b.pending != [])
    requires b.pending != [] ==> b.pending[0] in b.wire
    requires Current(b) ==> Last(b.offers) in b.pending || Last(b.offers) in b.wire || Last(b.offers) == m
    ensures DeliveryInv(SendSignal(b, m))
  {
    SendTouchesOnlyQueues(b, m);
    var c := SendSignal(b, m);
    assert c.pending == b.pending + [m];
    assert m in c.pending && forall x <- b.pending :: x in c.pending;
  }

  /** What changes neither offers, id nor queues. */
  lemma SameDelivery(b: Browser, c: Browser)
    requires DeliveryInv(b) && c.offers == b.offers && c.negId == b.negId && (b.started ==> c.started)
    requires c.pending == b.pending && c.delivering == b.delivering && c.wire == b.wire
    ensures DeliveryInv(c)
  {
  }

  lemma EnterKeepsDelivery(b: Browser)
    requires DeliveryInv(b) && OffersInv(b) && b.started
    ensures DeliveryInv(Enter(b))
  {
    assert b.offers != [] ==> Last(b.offers) in b.offers;
  }

  lemma AckKeepsDelivery(b: Browser)
    requires DeliveryInv(b) && b.pending != []
    ensures DeliveryInv(Delivered(b))
  {
    DeliveryTouchesOnlyQueues(b);
    assert b.pending == [b.pending[0]] + b.pending[1..];
  }

  lemma LocalKeepsDelivery(b: Browser, i: nat, ok: bool, now: int)
    requires NegotiationInv(b) && DeliveryInv(b) && Enabled(b, ResumeLocal(i, ok, now))
    ensures DeliveryInv(LocalSet(b, i, ok, now))
  {
    if Announces(b, ResumeLocal(i, ok, now)) {
      var mid := Rearmed(b, i, now);
      RearmedKeepsOffers(b, i, now);
      DebounceTouchesOnlyTimers(Finish(b.(local := Some(b.running[i].offer)), i).(handlingDebounce := false),
                                NegotiatingIce, now);
      var offer := Offer(b.negId.value, b.running[i].offer);
      SendKeepsDelivery(mid.(offers := mid.offers + [offer]), offer);
    } else {
      GivesUpKeepsDelivery(b, i, ok, now);
    }
  }

  lemma DebounceKeepsDelivery(b: Browser, ev: DebounceEvent, now: int)
    requires DeliveryInv(b)
    ensures DeliveryInv(AddDebounceEvent(b, ev, now))
  {
    DebounceTouchesOnlyTimers(b, ev, now);
    SameDelivery(b, AddDebounceEvent(b, ev, now));
  }

  lemma FailingKeepsDelivery(b: Browser, i: nat, restored: Option<Description>, now: int)
    requires DeliveryInv(b) && i < |b.running|
    ensures DeliveryInv(DebounceFailed(Finish(b, i).(local := restored), now))
  {
    var c := Finish(b, i).(local := restored, handlingDebounce := false);
    SameDelivery(b, c);
    DebounceKeepsDelivery(c, Failover, now);
  }

  lemma OfferKeepsDelivery(b: Browser, i: nat, ok: bool, now: int)
    requires DeliveryInv(b) && Enabled(b, ResumeOffer(i, ok, now))
    ensures DeliveryInv(OfferCreated(b, i, ok, now))
  {
    FailingKeepsDelivery(b, i, b.local, now);
    assert Finish(b, i).(local := b.local) == Finish(b, i);
  }

  lemma GivesUpKeepsDelivery(b: Browser, i: nat, ok: bool, now: int)
    requires DeliveryInv(b) && Enabled(b, ResumeLocal(i, ok, now)) && !Announces(b, ResumeLocal(i, ok, now))
    ensures DeliveryInv(LocalSet(b, i, ok, now))
  {
    FailingKeepsDelivery(b, i, b.local, now);
    assert Finish(b, i).(local := b.local) == Finish(b, i);
  }

  lemma ReportKeepsDelivery(b: Browser, ev: Event)
    requires DeliveryInv(b) && Enabled(b, ev) && (ev.IceChanges? || ev.ChannelCloses?)
    ensures DeliveryInv(Next(b, ev))
  {
    match ev
    case IceChanges(up, e, now) =>
      SameDelivery(b, b.(iceUp := up && !b.closed));
      if e.Some? {
        DebounceKeepsDelivery(b.(iceUp := up && !b.closed), e.value, now);
      }
    case ChannelCloses(now) =>
      SameDelivery(b, b.(channelOpen := false));
      DebounceKeepsDelivery(b.(channelOpen := false), ClosedChannel, now);
  }

  lemma EnteringKeepsDelivery(b: Browser, ev: Event)
    requires NegotiationInv(b) && DeliveryInv(b) && Enabled(b, ev) && (ev.Start? || ev.TimerFires?)
    ensures DeliveryInv(Next(b, ev))
  {
    match ev
    case Start =>
      if !b.started {
        EnterKeepsDelivery(b.(started := true, channelOpen := false));
      }
    case TimerFires(t) => EnterKeepsDelivery(b.(timers := b.timers - {t}));
  }

  lemma QueueStepKeepsDelivery(b: Browser, ev: Event)
    requires DeliveryInv(b) && Enabled(b, ev) && (ev.CandidateFound? || ev.DeliveryAcked?)
    ensures DeliveryInv(Next(b, ev))
  {
    match ev
    case CandidateFound(body) => SendKeepsDelivery(b, IceCandidate(b.negId.value, body));
    case DeliveryAcked => AckKeepsDelivery(b);
  }

  lemma SignalKeepsDelivery(b: Browser, m: Signal)
    requires DeliveryInv(b)
    ensures DeliveryInv(HandleSignal(b, m))
  {
  }

  lemma UpOrDownKeepsDelivery(b: Browser, ev: Event)
    requires DeliveryInv(b) && Enabled(b, ev) && (ev.ChannelOpens? || ev.Close?)
    ensures DeliveryInv(Next(b, ev))
  {
    SameDelivery(b, Next(b, ev));
  }

  lemma StepKeepsDeliveryInv(b: Browser, ev: Event)
    requires NegotiationInv(b) && DeliveryInv(b) && Enabled(b, ev)
    ensures DeliveryInv(Next(b, ev))
  {
    if ev.Start? || ev.TimerFires? {
      EnteringKeepsDelivery(b, ev);
    } else if ev.ResumeLocal? {
      LocalKeepsDelivery(b, ev.i, ev.applies, ev.now);
    } else if ev.ResumeOffer? {
      OfferKeepsDelivery(b, ev.i, ev.created, ev.now);
    } else if ev.ResumeRollback? {
      FailingKeepsDelivery(b, ev.i, ev.restored, ev.now);
    } else if ev.IceChanges? || ev.ChannelCloses? {
      ReportKeepsDelivery(b, ev);
    } else if ev.CandidateFound? || ev.DeliveryAcked? {
      QueueStepKeepsDelivery(b, ev);
    } else if ev.Signalled? {
      SignalKeepsDelivery(b, ev.msg);
    } else {
      UpOrDownKeepsDelivery(b, ev);
    }
  }

  function Acks(n: nat): seq<Event> {
    if n == 0 then [] else [DeliveryAcked] + Acks(n - 1)
  }

  function Among(pending: seq<Signal>): set<Signal> { set m | m in pending }

  lemma AmongFirst(pending: seq<Signal>, wire: set<Signal>)
    requires pending != [] && pending[0] in wire
    ensures var next := if |pending| > 1 then wire + {pending[1]} else wire;
            next + Among(pending[1..]) == wire + Among(pending)
  {
    assert pending == [pending[0]] + pending[1..];
    assert |pending| > 1 ==> pending[1] in pending;
  }

  /** Acks alone bring everything that is queued onto the wire. */
  lemma {:induction false} QueueGoesOut(b: Browser) returns (c: Browser)
    requires DeliveryInv(b)
    ensures Leads(b, Acks(|b.pending|), c)
    ensures c == b.(pending := [], delivering := false, wire := b.wire + Among(b.pending))
    decreases |b.pending|
  {
    if b.pending == [] {
      c := b;
      assert b.wire + Among(b.pending) == b.wire;
    } else {
      AckKeepsDelivery(b);
      DeliveryTouchesOnlyQueues(b);
      AmongFirst(b.pending, b.wire);
      c := QueueGoesOut(Delivered(b));
      FirstAck(b, c);
    }
  }

  lemma FirstAck(b: Browser, c: Browser)
    requires b.delivering && b.pending != [] && Leads(Delivered(b), Acks(|b.pending| - 1), c)
    ensures Leads(b, Acks(|b.pending|), c)
  {
    assert Acks(|b.pending|)[1..] == Acks(|b.pending| - 1);
  }

  /** A candidate goes out after what was queued before it, under the id that is current when it is found. */
  lemma CandidateGoesOut(b: Browser, body: string) returns (c: Browser)
    requires DeliveryInv(b) && b.negId.Some?
    ensures Leads(b, [CandidateFound(body)] + Acks(|b.pending| + 1), c)
    ensures c == b.(pending := [], delivering := false,
                    wire := b.wire + Among(b.pending) + {IceCandidate(b.negId.value, body)})
  {
    var m := IceCandidate(b.negId.value, body);
    var mid := SendSignal(b, m);
    SendKeepsDelivery(b, m);
    SendTouchesOnlyQueues(b, m);
    assert mid.pending == b.pending + [m] && (b.pending == [] ==> mid.pending[0] == m);
    c := QueueGoesOut(mid);
    var all := [CandidateFound(body)] + Acks(|b.pending| + 1);
    assert all[1..] == Acks(|b.pending| + 1) && Next(b, all[0]) == mid;
    assert mid.wire + Among(mid.pending) == b.wire + Among(b.pending) + {m};
  }

  // ---------------------------------------------------------------------------
  // An attempt can always be made
  // ---------------------------------------------------------------------------

  /** There is something to negotiate, and a handler or a timer sees to it. */
  ghost predicate Trying(b: Browser) {
    !b.closed && !(b.iceUp && b.channelOpen) && (b.running != [] || b.timers != {})
  }

  lemma {:induction false} LeadsConcat(b: Browser, xs: seq<Event>, c: Browser, ys: seq<Event>, d: Browser)
    requires Leads(b, xs, c) && Leads(c, ys, d)
    ensures Leads(b, xs + ys, d)
    decreases |xs|
  {
    if xs == [] {
      assert xs + ys == ys;
    } else {
      LeadsConcat(Next(b, xs[0]), xs[1..], c, ys, d);
      assert (xs + ys)[1..] == xs[1..] + ys;
    }
  }

  lemma One(b: Browser, ev: Event) returns (c: Browser)
    requires Enabled(b, ev)
    ensures Leads(b, [ev], c) && c == Next(b, ev)
  {
    c := Next(b, ev);
    assert [ev][1..] == [];
  }

  lemma EnterBegins(b: Browser, timer: nat) returns (c: Browser)
    requires NegotiationInv(b) && Trying(b) && timer in b.timers
    ensures Leads(b, [TimerFires(timer)], c) && NegotiationInv(c)
    ensures c.running == [ForOffer(c.iceUp, c.channelOpen)] && !(c.iceUp && c.channelOpen)
    ensures c.offers == b.offers && c.negId == Some(b.nextNeg) && c.applied == b.applied
  {
    c := One(b, TimerFires(timer));
    StepKeepsNegotiationInv(b, TimerFires(timer));
  }

  lemma OfferIsMade(b: Browser, now: int) returns (c: Browser)
    requires NegotiationInv(b) && b.running == [ForOffer(b.iceUp, b.channelOpen)] && !(b.iceUp && b.channelOpen)
    ensures Leads(b, [ResumeOffer(0, true, now)], c) && NegotiationInv(c)
    ensures c.running == [ForLocal(OfferDesc(b.nextDesc), c.iceUp, c.channelOpen)]
    ensures c.offers == b.offers && c.negId == b.negId && c.applied == b.applied
  {
    c := One(b, ResumeOffer(0, true, now));
    StepKeepsNegotiationInv(b, ResumeOffer(0, true, now));
  }

  lemma OfferIsSent(b: Browser, sdp: Description, now: int) returns (c: Browser)
    requires NegotiationInv(b) && b.running == [ForLocal(sdp, b.iceUp, b.channelOpen)]
    ensures Leads(b, [ResumeLocal(0, true, now)], c)
    ensures b.negId.Some? && c.offers == b.offers + [Offer(b.negId.value, sdp)] && c.negId == b.negId
    ensures c.applied == b.applied
  {
    c := One(b, ResumeLocal(0, true, now));
    OfferIsCurrent(b, 0, now);
    var mid := Rearmed(b, 0, now);
    RearmedKeepsOffers(b, 0, now);
    SendTouchesOnlyQueues(mid.(offers := c.offers), Last(c.offers));
  }

  /** From an armed timer to the offer. */
  lemma TimerLeadsToOffer(b: Browser, timer: nat, now: int) returns (events: seq<Event>, c: Browser)
    requires NegotiationInv(b) && Trying(b) && timer in b.timers
    ensures Leads(b, events, c) && forall ev <- events :: !ev.Signalled?
    ensures c.offers == b.offers + [Offer(b.nextNeg, OfferDesc(b.nextDesc))] && Current(c) && c.applied == b.applied
  {
    var c1 := EnterBegins(b, timer);
    assert c1.nextDesc == b.nextDesc;
    var c2 := OfferIsMade(c1, now);
    c := OfferIsSent(c2, OfferDesc(b.nextDesc), now);
    events := [TimerFires(timer)] + [ResumeOffer(0, true, now)] + [ResumeLocal(0, true, now)];
    LeadsConcat(b, [TimerFires(timer)], c1, [ResumeOffer(0, true, now)], c2);
    LeadsConcat(b, [TimerFires(timer)] + [ResumeOffer(0, true, now)], c2, [ResumeLocal(0, true, now)], c);
  }

  /** Any handler can give up, which leaves an armed timer. */
  lemma HandlerLeadsToTimer(b: Browser, now: int) returns (ev: Event, c: Browser)
    requires NegotiationInv(b) && Trying(b) && b.running != []
    ensures Leads(b, [ev], c) && NegotiationInv(c) && Trying(c) && c.timers != {}
    ensures c.offers == b.offers && c.nextNeg == b.nextNeg && c.nextDesc == b.nextDesc && IsResume(ev)
    ensures c.applied == b.applied
  {
    ev := match b.running[0]
          case ForOffer(_, _) => ResumeOffer(0, false, now)
          case ForLocal(_, _, _) => ResumeLocal(0, false, now)
          case ForRollback => ResumeRollback(0, b.local, now);
    c := One(b, ev);
    StepKeepsNegotiationInv(b, ev);
    GivingUpArms(b, now);
    assert Finish(b, 0).(local := b.local) == Finish(b, 0);
    assert c == DebounceFailed(Finish(b, 0), now);
  }

  lemma GivingUpArms(b: Browser, now: int)
    requires b.running != []
    ensures var c := DebounceFailed(Finish(b, 0), now);
            && c.timers != {} && c.offers == b.offers && c.nextNeg == b.nextNeg && c.nextDesc == b.nextDesc
            && c.closed == b.closed && c.iceUp == b.iceUp && c.channelOpen == b.channelOpen && c.applied == b.applied
  {
    var c := DebounceFailed(Finish(b, 0), now);
    assert b.nextTimer in c.timers;
  }

  /**
   In every reachable state in which there is something to negotiate and a handler or a timer is there, which is so
   until a check found all up: some continuation sends a new offer, under an id of its own.
   */
  lemma OfferCanBeSent(b: Browser, now: int) returns (events: seq<Event>, c: Browser)
    requires NegotiationInv(b) && Trying(b)
    ensures Leads(b, events, c) && Current(c) && forall ev <- events :: !ev.Signalled?
    ensures c.offers == b.offers + [Offer(b.nextNeg, OfferDesc(b.nextDesc))] && c.applied == b.applied
  {
    if b.running == [] {
      var timer :| timer in b.timers;
      events, c := TimerLeadsToOffer(b, timer, now);
    } else {
      var ev, mid := HandlerLeadsToTimer(b, now);
      var timer :| timer in mid.timers;
      events, c := TimerLeadsToOffer(mid, timer, now);
      LeadsConcat(b, [ev], mid, events, c);
      events := [ev] + events;
    }
  }

  /** Once ICE and the channel are up, the next check ends it: no handler, no timer, no new attempt. */
  lemma UpSettles(b: Browser, timer: nat, now: int) returns (c: Browser)
    requires NegotiationInv(b) && !b.closed && timer in b.timers
    ensures Leads(b, [IceChanges(true, None, now), ChannelOpens, TimerFires(timer)], c)
    ensures c.settled && c.running == [] && c.timers == {} && c.negId == b.negId && c.offers == b.offers
  {
    var up := Next(b, IceChanges(true, None, now));
    var open := Next(up, ChannelOpens);
    c := One(open, TimerFires(timer));
    var events := [IceChanges(true, None, now), ChannelOpens, TimerFires(timer)];
    assert events[1..] == [ChannelOpens, TimerFires(timer)] && events[1..][1..] == [TimerFires(timer)];
    assert Leads(up, [ChannelOpens, TimerFires(timer)], c);
  }

  /** The same id, and still closed. */
  predicate Quiet(b: Browser, c: Browser) { b.closed && c.closed && c.negId == b.negId }

  lemma ClosedFails(b: Browser, now: int)
    requires b.closed
    ensures Quiet(b, DebounceFailed(b, now))
  {
    DebounceTouchesOnlyTimers(b.(handlingDebounce := false), Failover, now);
  }

  lemma ClosedOffer(b: Browser, i: nat, ok: bool, now: int)
    requires b.closed && Enabled(b, ResumeOffer(i, ok, now))
    ensures Quiet(b, OfferCreated(b, i, ok, now))
  {
    ClosedFails(Finish(b, i), now);
  }

  lemma ClosedLocal(b: Browser, i: nat, ok: bool, now: int)
    requires b.closed && Enabled(b, ResumeLocal(i, ok, now))
    ensures Quiet(b, LocalSet(b, i, ok, now))
  {
    ClosedFails(Finish(b, i), now);
    var mid := Rearmed(b, i, now);
    DebounceTouchesOnlyTimers(Finish(b.(local := Some(b.running[i].offer)), i).(handlingDebounce := false),
                              NegotiatingIce, now);
    ClosedSends(mid, b.running[i].offer);
  }

  lemma ClosedSends(b: Browser, sdp: Description)
    requires b.closed
    ensures Quiet(b, OfferSent(b, sdp))
  {
    if b.negId.Some? {
      var o := Offer(b.negId.value, sdp);
      SendTouchesOnlyQueues(b.(offers := b.offers + [o]), o);
    }
  }

  lemma ClosedReport(b: Browser, ev: Event)
    requires b.closed && Enabled(b, ev) && (ev.IceChanges? || ev.ChannelCloses?)
    ensures Quiet(b, Next(b, ev))
  {
    match ev
    case IceChanges(up, e, now) =>
      if e.Some? {
        DebounceTouchesOnlyTimers(b.(iceUp := up && !b.closed), e.value, now);
      }
    case ChannelCloses(now) => DebounceTouchesOnlyTimers(b.(channelOpen := false), ClosedChannel, now);
  }

  lemma ClosedStepBeginsNothing(b: Browser, ev: Event)
    requires b.closed && Enabled(b, ev)
    ensures Quiet(b, Next(b, ev))
  {
    if ev.ResumeOffer? {
      ClosedOffer(b, ev.i, ev.created, ev.now);
    } else if ev.ResumeLocal? {
      ClosedLocal(b, ev.i, ev.applies, ev.now);
    } else if ev.ResumeRollback? {
      ClosedFails(Finish(b, ev.i).(local := ev.restored), ev.now);
    } else if ev.IceChanges? || ev.ChannelCloses? {
      ClosedReport(b, ev);
    }
  }

  /** After the peer was closed no new attempt begins in any run. */
  lemma ClosedBeginsNothing(b: Browser, events: seq<Event>, c: Browser)
    requires Leads(Next(b, Close), events, c)
    ensures c.negId == b.negId
  {
    StaysClosed(Next(b, Close), events, c);
  }

  lemma {:induction false} StaysClosed(b: Browser, events: seq<Event>, c: Browser)
    requires b.closed && Leads(b, events, c)
    ensures c.closed && c.negId == b.negId
    decreases |events|
  {
    if events != [] {
      ClosedStepBeginsNothing(b, events[0]);
      StaysClosed(Next(b, events[0]), events[1..], c);
    }
  }

  // ---------------------------------------------------------------------------
  // The object itself
  // ---------------------------------------------------------------------------

  /** `iceUp`, `channelOpen`, `closed` and `local` are what the peer connection and channel objects report. */
  class RtcConnector {
    var started: bool
    var settled: bool
    var closed: bool
    var iceUp: bool
    var channelOpen: bool
    var handlingDebounce: bool
    var running: seq<Wait>
    var timers: set<nat>
    var debounceTimer: Option<nat>
    var nextTimer: nat
    var debounceStartTime: int
    var currentNegotiationId: Option<NegId>
    var nextNeg: NegId
    var nextDesc: nat
    var localDescription: Option<Description>
    var pendingRequests: seq<Signal>
    var delivering: bool
    var offers: seq<Signal>
    var wire: set<Signal>
    var applied: seq<Signal>
    var candidates: seq<Signal>

    ghost function Value(): Browser
      reads this
    {
      Browser(started, settled, closed, iceUp, channelOpen, handlingDebounce, running, timers, debounceTimer,
              nextTimer, debounceStartTime, currentNegotiationId, nextNeg, nextDesc, localDescription,
              pendingRequests, delivering, offers, wire, applied, candidates)
    }

    constructor ()
      ensures Value() == FRESH && NegotiationInv(Value())
    {
      started, settled, closed, iceUp, channelOpen, handlingDebounce := false, false, false, false, false, false;
      running, timers, debounceTimer, nextTimer, debounceStartTime := [], {}, None, 0, 0;
      currentNegotiationId, nextNeg, nextDesc, localDescription := None, 0, 0, None;
      pendingRequests, delivering, offers, wire, applied, candidates := [], false, [], {}, [], [];
    }

    method StartTimer(now: int)
      modifies this`timers, this`debounceTimer, this`nextTimer, this`debounceStartTime
      ensures Value() == StartDebounce(old(Value()), now)
    {
      if debounceTimer.Some? {
        timers := timers - {debounceTimer.value};
      }
      debounceStartTime, debounceTimer, timers, nextTimer := now, Some(nextTimer), timers + {nextTimer}, nextTimer + 1;
    }

    method StartDebounceIfFaster(delay: int, now: int)
      modifies this`timers, this`debounceTimer, this`nextTimer, this`debounceStartTime
      ensures Value() == if Faster(old(Value()), delay, now) then StartDebounce(old(Value()), now) else old(Value())
    {
      if debounceTimer.None? || (debounceStartTime != 0 && now - debounceStartTime > delay) {
        StartTimer(now);
      }
    }

    method AddEvent(ev: DebounceEvent, now: int)
      modifies this`timers, this`debounceTimer, this`nextTimer, this`debounceStartTime
      ensures Value() == AddDebounceEvent(old(Value()), ev, now)
    {
      if handlingDebounce {
        return;
      }
      match ev {
        case DisconnectedIce => StartDebounceIfFaster(DISCONNECTED_RESTART_INTERVAL, now);
        case FailedIce => StartDebounceIfFaster(FAILED_RESTART_INTERVAL, now);
        case ClosedChannel => StartDebounceIfFaster(CLOSED_CHANNEL_INTERVAL, now);
        case NegotiatingIce => StartTimer(now);
        case Failover => StartTimer(now);
      }
    }

    method Fail(now: int)
      modifies this
      ensures Value() == DebounceFailed(old(Value()), now)
    {
      handlingDebounce := false;
      AddEvent(Failover, now);
    }

    method SendSignallingMessage(m: Signal)
      modifies this
      ensures Value() == SendSignal(old(Value()), m)
    {
      pendingRequests := pendingRequests + [m];
      if delivering {
        return;
      }
      wire := wire + {pendingRequests[0]};
      delivering := true;
    }

    method DeliveryResolved()
      requires pendingRequests != []
      modifies this
      ensures Value() == Delivered(old(Value()))
    {
      pendingRequests := pendingRequests[1..];
      if pendingRequests != [] {
        wire := wire + {pendingRequests[0]};
      } else {
        delivering := false;
      }
    }

    method OnDebounceTimeout()
      modifies this`settled, this`handlingDebounce, this`pendingRequests, this`delivering
      modifies this`currentNegotiationId, this`nextNeg, this`running
      ensures Value() == Enter(old(Value()))
    {
      if closed || (iceUp && channelOpen) {
        settled := true;
        return;
      }
      StartAttempt(iceUp, channelOpen);
    }

    method StartAttempt(hasConnection: bool, hasChannel: bool)
      requires !closed && hasConnection == iceUp && hasChannel == channelOpen && !(hasConnection && hasChannel)
      modifies this`handlingDebounce, this`pendingRequests, this`delivering
      modifies this`currentNegotiationId, this`nextNeg, this`running
      ensures Value() == Enter(old(Value()))
    {
      AbortDelivery();
      Negotiate(hasConnection, hasChannel);
    }

    /** Draw a fresh id and ask for an offer. */
    method Negotiate(hasConnection: bool, hasChannel: bool)
      modifies this`handlingDebounce, this`currentNegotiationId, this`nextNeg, this`running
      ensures handlingDebounce && currentNegotiationId == Some(old(nextNeg)) && nextNeg == old(nextNeg) + 1
      ensures running == old(running) + [ForOffer(hasConnection, hasChannel)]
    {
      handlingDebounce := true;
      currentNegotiationId := Some(nextNeg);
      nextNeg := nextNeg + 1;
      running := running + [ForOffer(hasConnection, hasChannel)];
    }

    method AbortDelivery()
      modifies this`pendingRequests, this`delivering
      ensures !delivering && pendingRequests == if old(delivering) then [] else old(pendingRequests)
    {
      if delivering {
        pendingRequests, delivering := [], false;
      }
    }

    method Return(i: nat)
      requires i < |running|
      modifies this`running
      ensures Value() == Finish(old(Value()), i)
    {
      running := running[..i] + running[i + 1..];
    }

    method AfterCreateOffer(i: nat, created: bool, now: int)
      requires i < |running| && running[i].ForOffer?
      modifies this
      ensures Value() == OfferCreated(old(Value()), i, created, now)
    {
      var w := running[i];
      if !created {
        Return(i);
        Fail(now);
        return;
      }
      if iceUp && channelOpen {
        handlingDebounce, settled := false, true;
        Return(i);
        return;
      }
      if iceUp != w.hadConnection || channelOpen != w.hadChannel {
        Return(i);
        Fail(now);
        return;
      }
      running, nextDesc := running[i := ForLocal(OfferDesc(nextDesc), w.hadConnection, w.hadChannel)], nextDesc + 1;
    }

    method AfterSetLocalDescription(i: nat, applies: bool, now: int)
      requires i < |running| && running[i].ForLocal?
      modifies this
      ensures Value() == LocalSet(old(Value()), i, applies, now)
    {
      var w := running[i];
      if !applies {
        Return(i);
        Fail(now);
        return;
      }
      localDescription := Some(w.offer);
      if iceUp != w.hadConnection || channelOpen != w.hadChannel {
        running := running[i := ForRollback];
        return;
      }
      Announce(i, w.offer, now);
    }

    /** The handler's end when all went well: arm the timer and send the offer. */
    method Announce(i: nat, sdp: Description, now: int)
      requires i < |running|
      modifies this
      ensures var done := Finish(old(Value()), i).(handlingDebounce := false);
              Value() == OfferSent(AddDebounceEvent(done, NegotiatingIce, now), sdp)
    {
      Return(i);
      handlingDebounce := false;
      AddEvent(NegotiatingIce, now);
      SendOffer(sdp);
    }

    method SendOffer(sdp: Description)
      modifies this
      ensures Value() == OfferSent(old(Value()), sdp)
    {
      if currentNegotiationId.Some? {
        var offer := Offer(currentNegotiationId.value, sdp);
        offers := offers + [offer];
        SendSignallingMessage(offer);
      }
    }

    method AfterRollback(i: nat, restored: Option<Description>, now: int)
      requires i < |running| && running[i].ForRollback?
      modifies this
      ensures Value() == RolledBack(old(Value()), i, restored, now)
    {
      localDescription := restored;
      Return(i);
      Fail(now);
    }

    method StartPeerConnection()
      modifies this
      ensures Value() == Next(old(Value()), Start)
    {
      if started {
        return;
      }
      started := true;
      channelOpen := false;
      OnDebounceTimeout();
    }

    method HandleSignalMsg(m: Signal)
      modifies this
      ensures Value() == HandleSignal(old(Value()), m)
    {
      if !started {
        return;
      }
      if currentNegotiationId != Some(m.neg) {
        return;
      }
      if m.Answer? {
        applied := applied + [m];
      } else if m.IceCandidate? {
        candidates := candidates + [m];
      }
    }
  }
}
