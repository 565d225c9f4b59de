/**
 The guard in front of `add_listened_seconds`, and how much listening time it lets the repository grow by.

 Instants are nanoseconds.  A call reads the clock before it takes the lock, so calls meet the guard in lock
 order, with clock readings that may lie the other way round.
 */
module ListenGuard {
  import opened Wrappers
  import opened Database
  import opened ListeningLedger
  import opened RepositoryRuns

  const SECOND: int := 1_000_000_000

  datatype State = State(last: Option<int>, poisoned: bool)

  datatype Outcome = Recorded | Dropped | Panicked

  /** Subtracting a later instant gives zero. */
  function Since(now: int, t: int): nat { if now < t then 0 else now - t }

  /** 0.9 times as long, in tenths of a nanosecond. */
  function Price(seconds: int): int { 9_000_000_000 * seconds }

  /** `elapsed < 0.9 * interval`. */
  predicate TooSoon(elapsed: nat, interval: int) {
    10 * elapsed < Price(interval)
  }

  /** A negative interval has no duration: the call panics with the lock held, and so does every later one. */
  function Decide(s: State, now: int, interval: int): (State, Outcome) {
    if s.poisoned then (s, Panicked)
    else if s.last.None? then (s.(last := Some(now)), Recorded)
    else if interval < 0 then (s.(poisoned := true), Panicked)
    else if TooSoon(Since(now, s.last.value), interval) then (s, Dropped)
    else (s.(last := Some(now)), Recorded)
  }

  class ListenGuard {
    var last: Option<int>
    var poisoned: bool

    function Value(): State
      reads this
    {
      State(last, poisoned)
    }

    constructor ()
      ensures Value() == State(None, false)
    {
      last, poisoned := None, false;
    }

    method ShouldRecord(now: int, interval: int) returns (r: Outcome)
      modifies this
      ensures (Value(), r) == Decide(old(Value()), now, interval)
      ensures r == Recorded <==> !old(poisoned) && last == Some(now) && !poisoned
                                 && (old(last).Some? ==>
                                       interval >= 0 && !TooSoon(Since(now, old(last).value), interval))
      ensures r != Recorded ==> last == old(last)
    {
      if poisoned {
        return Panicked;
      }
      match last {
        case Some(t) =>
          if interval < 0 {
            poisoned := true;
            return Panicked;
          }
          var shouldDrop := TooSoon(Since(now, t), interval);
          if !shouldDrop {
            last := Some(now);
          }
          return if shouldDrop then Dropped else Recorded;
        case None =>
          last := Some(now);
          return Recorded;
      }
    }
  }

  // ---------------------------------------------------------------------------
  // The dispatcher: ask the guard, then write; other calls and other writes in between
  // ---------------------------------------------------------------------------

  datatype ListenCredit = ListenCredit(trackId: int, seconds: int, date: Date)

  datatype Desk = Desk(guard: State, pending: seq<ListenCredit>, db: Db)

  /** `Write(k, refused)` carries out the k-th admitted credit that is still to be written. */
  datatype Event =
    | Listen(now: int, credit: ListenCredit)
    | Write(k: nat, refused: bool)
    | Other(attempt: Attempt)

  function CallOf(c: ListenCredit): Call {
    AddListenedSecondsCall(c.trackId, c.seconds, c.date)
  }

  function Handle(d: Desk, e: Event, env: Env): Desk {
    match e
    case Listen(now, c) =>
      var (guard, outcome) := Decide(d.guard, now, c.seconds);
      d.(guard := guard, pending := if outcome == Recorded then d.pending + [c] else d.pending)
    case Write(k, refused) =>
      if k >= |d.pending| then d
      else
        d.(pending := d.pending[..k] + d.pending[k + 1..],
           db := Step(d.db, Attempt(CallOf(d.pending[k]), refused), env))
    case Other(a) =>
      if a.call.AddListenedSecondsCall? then d else d.(db := Step(d.db, a, env))
  }

  function HandleAll(d: Desk, events: seq<Event>, env: Env): Desk
    decreases |events|
  {
    if events == [] then d else HandleAll(Handle(d, events[0], env), events[1..], env)
  }

  predicate Admits(d: Desk, e: Event) {
    e.Listen? && Decide(d.guard, e.now, e.credit.seconds).1 == Recorded
  }

  function Positive(n: int): nat { if n > 0 then n else 0 }

  /** The first credit admitted in a run of events, 0 if there is none. */
  function FirstAdmitted(d: Desk, events: seq<Event>, env: Env): int
    decreases |events|
  {
    if events == [] then 0
    else if Admits(d, events[0]) then events[0].credit.seconds
    else FirstAdmitted(Handle(d, events[0], env), events[1..], env)
  }

  /** What is still to be written to the chosen tracks, at most. */
  function Owed(pending: seq<ListenCredit>, who: int -> bool): nat {
    if pending == [] then 0
    else (if who(pending[0].trackId) then Positive(pending[0].seconds) else 0) + Owed(pending[1..], who)
  }

  /** Seconds recorded for the chosen tracks, and those that still may be. */
  function Worth(d: Desk, who: int -> bool): int {
    Seconds(d.db, who) + Owed(d.pending, who)
  }

  // ---------------------------------------------------------------------------
  // The bound
  // ---------------------------------------------------------------------------

  /** The call moves the guard's instant back. */
  predicate SetsBack(g: State, e: Event) {
    e.Listen? && !g.poisoned && g.last.Some? && e.now < g.last.value && e.credit.seconds == 0
  }

  /** That is the only way: a late reading and a credit of zero seconds. */
  lemma SetBackIff(d: Desk, e: Event, env: Env)
    requires d.guard.last.Some?
    ensures Handle(d, e, env).guard.last.Some?
    ensures Handle(d, e, env).guard.last.value < d.guard.last.value <==> SetsBack(d.guard, e)
  {
  }

  predicate NeverSetsBack(d: Desk, events: seq<Event>, env: Env)
    decreases |events|
  {
    events == [] || (!SetsBack(d.guard, events[0]) && NeverSetsBack(Handle(d, events[0], env), events[1..], env))
  }

  /** From the first credit admitted on, no call moves the guard's instant back. */
  predicate Forward(d: Desk, events: seq<Event>, env: Env)
    decreases |events|
  {
    events == [] ||
    var mid := Handle(d, events[0], env);
    if Admits(d, events[0]) then NeverSetsBack(mid, events[1..], env) else Forward(mid, events[1..], env)
  }

  /** A clock whose readings come in the order of the calls, or late only for credits other than zero. */
  ghost predicate ReadsInOrder(events: seq<Event>) {
    forall i, j :: 0 <= i < j < |events| && events[i].Listen? && events[j].Listen? ==>
      events[i].now <= events[j].now || events[j].credit.seconds != 0
  }

  ghost predicate NotBefore(t: int, events: seq<Event>) {
    forall e <- events :: e.Listen? ==> t <= e.now || e.credit.seconds != 0
  }

  ghost predicate Within(from: int, until: int, events: seq<Event>) {
    forall e <- events :: e.Listen? ==> from <= e.now <= until
  }

  ghost predicate UpTo(until: int, events: seq<Event>) {
    forall e <- events :: e.Listen? ==> e.now <= until
  }

  lemma {:induction false} OwedConcat(xs: seq<ListenCredit>, ys: seq<ListenCredit>, who: int -> bool)
    ensures Owed(xs + ys, who) == Owed(xs, who) + Owed(ys, who)
    decreases |xs|
  {
    if xs == [] {
      assert xs + ys == ys;
    } else {
      assert (xs + ys)[1..] == xs[1..] + ys;
      OwedConcat(xs[1..], ys, who);
    }
  }

  lemma OwedOfOne(c: ListenCredit, who: int -> bool)
    ensures Owed([c], who) == if who(c.trackId) then Positive(c.seconds) else 0
  {
    assert Owed([c][1..], who) == 0;
  }

  lemma WorthOfWrite(d: Desk, e: Event, env: Env, who: int -> bool)
    requires LedgerInv(d.db) && e.Write? && e.k < |d.pending|
    ensures LedgerInv(Handle(d, e, env).db)
    ensures Worth(Handle(d, e, env), who) <= Worth(d, who)
  {
    var c := d.pending[e.k];
    StepKeepsLedger(d.db, Attempt(CallOf(c), e.refused), env, who, EveryDay);
    var front, back := d.pending[..e.k], d.pending[e.k + 1..];
    assert d.pending == front + ([c] + back);
    OwedConcat(front, [c] + back, who);
    OwedConcat([c], back, who);
    OwedConcat(front, back, who);
    OwedOfOne(c, who);
  }

  /** No event but an admitted credit adds anything, and that adds its own seconds at most. */
  lemma WorthOfEvent(d: Desk, e: Event, env: Env, who: int -> bool)
    requires LedgerInv(d.db)
    ensures var t := Handle(d, e, env);
            && LedgerInv(t.db)
            && Worth(t, who) <= Worth(d, who) + (if Admits(d, e) then Positive(e.credit.seconds) else 0)
  {
    match e {
      case Listen(now, c) =>
        OwedConcat(d.pending, [c], who);
        OwedOfOne(c, who);
      case Write(k, refused) =>
        if k < |d.pending| {
          WorthOfWrite(d, e, env, who);
        }
      case Other(a) => StepKeepsLedger(d.db, a, env, who, EveryDay);
    }
  }

  lemma EventsTail(events: seq<Event>)
    requires events != [] && ReadsInOrder(events)
    ensures ReadsInOrder(events[1..])
    ensures events[0].Listen? ==> NotBefore(events[0].now, events[1..])
  {
  }

  lemma {:induction false} InOrderNeverSetsBack(d: Desk, events: seq<Event>, env: Env, t: int)
    requires d.guard.last == Some(t) && ReadsInOrder(events) && NotBefore(t, events)
    ensures NeverSetsBack(d, events, env)
    decreases |events|
  {
    if events != [] {
      var e, rest := events[0], events[1..];
      assert e in events && forall x <- rest :: x in events;
      EventsTail(events);
      AdmissionIsPaid(d, e, env, t);
      InOrderNeverSetsBack(Handle(d, e, env), rest, env, Mark(d, e, t));
    }
  }

  /** In particular readings in order never set the guard back. */
  lemma {:induction false} InOrderIsForward(d: Desk, events: seq<Event>, env: Env)
    requires ReadsInOrder(events)
    ensures Forward(d, events, env)
    decreases |events|
  {
    if events != [] {
      EventsTail(events);
      if Admits(d, events[0]) {
        FirstAdmission(d, events[0], env);
        InOrderNeverSetsBack(Handle(d, events[0], env), events[1..], env, events[0].now);
      } else {
        InOrderIsForward(Handle(d, events[0], env), events[1..], env);
      }
    }
  }

  /** Once the guard holds an instant, an admitted credit is paid for by the time since that instant. */
  lemma AdmissionIsPaid(d: Desk, e: Event, env: Env, t: int)
    requires d.guard.last == Some(t) && !SetsBack(d.guard, e)
    ensures Admits(d, e) ==> Price(Positive(e.credit.seconds)) <= 10 * (e.now - t)
    ensures Handle(d, e, env).guard.last == if Admits(d, e) then Some(e.now) else Some(t)
  {
  }

  lemma FirstAdmission(d: Desk, e: Event, env: Env)
    requires Admits(d, e)
    ensures Handle(d, e, env).guard.last == Some(e.now)
  {
  }

  function Gain(d: Desk, t: Desk, who: int -> bool): int {
    Worth(t, who) - Worth(d, who)
  }

  /** The instant the guard holds after the event. */
  function Mark(d: Desk, e: Event, t: int): int {
    if Admits(d, e) then e.now else t
  }

  lemma GainIsPaid(d: Desk, e: Event, env: Env, who: int -> bool, t: int)
    requires LedgerInv(d.db) && d.guard.last == Some(t) && !SetsBack(d.guard, e)
    ensures LedgerInv(Handle(d, e, env).db) && Handle(d, e, env).guard.last == Some(Mark(d, e, t))
    ensures Price(Gain(d, Handle(d, e, env), who)) <= 10 * (Mark(d, e, t) - t)
  {
    var gain := Gain(d, Handle(d, e, env), who);
    WorthOfEvent(d, e, env, who);
    assert gain <= if Admits(d, e) then Positive(e.credit.seconds) else 0;
    AdmissionIsPaid(d, e, env, t);
    Cost(gain, if Admits(d, e) then Positive(e.credit.seconds) else 0);
  }

  lemma Cost(x: int, y: int)
    requires x <= y
    ensures Price(x) <= Price(y)
  {
  }

  lemma GainsAdd(d: Desk, e: Event, rest: seq<Event>, env: Env, who: int -> bool)
    ensures var mid := Handle(d, e, env);
            Gain(d, HandleAll(d, [e] + rest, env), who) == Gain(d, mid, who) + Gain(mid, HandleAll(mid, rest, env), who)
  {
    assert ([e] + rest)[1..] == rest;
  }

  lemma CostsAdd(x: int, y: int, a: int, b: int)
    requires Price(x) <= 10 * a && Price(y) <= 10 * b
    ensures Price(x + y) <= 10 * (a + b)
  {
  }

  /** From one admitted credit on, every further second has cost nine tenths of a second. */
  lemma {:induction false} GrowthSinceLast(
    d: Desk, events: seq<Event>, env: Env, who: int -> bool, t: int, until: int)
    requires LedgerInv(d.db) && d.guard.last == Some(t) && t <= until
    requires NeverSetsBack(d, events, env) && UpTo(until, events)
    ensures Price(Gain(d, HandleAll(d, events, env), who)) <= 10 * (until - t)
    decreases |events|
  {
    if events != [] {
      var e, rest := events[0], events[1..];
      assert events == [e] + rest;
      assert e in events && forall x <- rest :: x in events;
      GainIsPaid(d, e, env, who, t);
      GainsAdd(d, e, rest, env, who);
      var mid := Handle(d, e, env);
      GrowthSinceLast(mid, rest, env, who, Mark(d, e, t), until);
      CostsAdd(Gain(d, mid, who), Gain(mid, HandleAll(mid, rest, env), who), Mark(d, e, t) - t, until - Mark(d, e, t));
    }
  }

  /**
   Between any two instants, whatever other calls and late writes come between, listening time grows by at most
   the first credit admitted plus elapsed time / 0.9, for every choice of tracks, credits already admitted but
   not yet written counted as written, as long as no call sets the guard back after that first credit.
   */
  lemma {:induction false} GuardBoundsGrowth(
    d: Desk, events: seq<Event>, env: Env, who: int -> bool, from: int, until: int)
    requires LedgerInv(d.db) && from <= until
    requires Forward(d, events, env) && Within(from, until, events)
    ensures Price(Gain(d, HandleAll(d, events, env), who))
            <= Price(Positive(FirstAdmitted(d, events, env))) + 10 * (until - from)
    decreases |events|
  {
    if events != [] {
      var e, rest := events[0], events[1..];
      var mid := Handle(d, e, env);
      assert events == [e] + rest;
      assert e in events && forall x <- rest :: x in events;
      WorthOfEvent(d, e, env, who);
      GainsAdd(d, e, rest, env, who);
      var out := HandleAll(mid, rest, env);
      if Admits(d, e) {
        FirstAdmission(d, e, env);
        GrowthSinceLast(mid, rest, env, who, e.now, until);
        CostsAddTo(Gain(d, mid, who), Positive(e.credit.seconds), Gain(mid, out, who), until - e.now, until - from);
      } else {
        GuardBoundsGrowth(mid, rest, env, who, from, until);
        Cost(Gain(d, mid, who) + Gain(mid, out, who), Gain(mid, out, who));
      }
    }
  }

  lemma CostsAddTo(x: int, first: int, y: int, a: int, b: int)
    requires x <= first && Price(y) <= 10 * a && a <= b
    ensures Price(x + y) <= Price(first) + 10 * b
  {
  }

  /** A fresh process on any database a run of calls leaves: what is recorded for the chosen tracks after it. */
  lemma RecordedIsBounded(
    before: seq<Attempt>, d: Desk, events: seq<Event>, env: Env, who: int -> bool, from: int, until: int)
    requires d == Desk(State(None, false), [], Run(EMPTY, before, env))
    requires from <= until && Forward(d, events, env) && Within(from, until, events)
    ensures Price(Seconds(HandleAll(d, events, env).db, who) - Seconds(d.db, who))
            <= Price(Positive(FirstAdmitted(d, events, env))) + 10 * (until - from)
  {
    RunKeepsLedger(EMPTY, before, env, who, EveryDay);
    GuardBoundsGrowth(d, events, env, who, from, until);
    var t := HandleAll(d, events, env);
    Cost(Seconds(t.db, who) - Seconds(d.db, who), Gain(d, t, who));
  }

  lemma HandlesTwo(d: Desk, x: Event, y: Event, env: Env)
    ensures HandleAll(d, [x, y], env) == Handle(Handle(d, x, env), y, env)
  {
    assert [x, y][1..] == [y] && [y][1..] == [];
    assert HandleAll(Handle(d, x, env), [y], env) == HandleAll(Handle(Handle(d, x, env), y, env), [], env);
  }

  lemma {:induction false} HandlesConcat(d: Desk, xs: seq<Event>, ys: seq<Event>, env: Env)
    ensures HandleAll(d, xs + ys, env) == HandleAll(HandleAll(d, xs, env), ys, env)
    decreases |xs|
  {
    if xs == [] {
      assert xs + ys == ys;
    } else {
      assert (xs + ys)[1..] == xs[1..] + ys;
      HandlesConcat(Handle(d, xs[0], env), xs[1..], ys, env);
    }
  }

  /** Any credit may be followed by another after nine tenths of its seconds, which reaches the bound. */
  lemma BoundIsReached(d: Desk, env: Env, first: nat, seconds: nat, from: int)
    requires d.guard == State(None, false) && d.pending == []
    ensures var until := from + 900_000_000 * seconds;
            var events := [Listen(from, ListenCredit(1, first, "")), Listen(until, ListenCredit(1, seconds, ""))];
            && ReadsInOrder(events) && FirstAdmitted(d, events, env) == first
            && Price(Gain(d, HandleAll(d, events, env), Everyone)) == Price(first) + 10 * (until - from)
  {
    var x, y := ListenCredit(1, first, ""), ListenCredit(1, seconds, "");
    var until := from + 900_000_000 * seconds;
    HandlesTwo(d, Listen(from, x), Listen(until, y), env);
    OwedConcat([x], [y], Everyone);
    OwedOfOne(x, Everyone);
    OwedOfOne(y, Everyone);
    assert HandleAll(d, [Listen(from, x), Listen(until, y)], env).pending == [x] + [y];
  }

  /** How many seconds can be credited after a set-back from `t` to `back` for a time just after `t`. */
  function Gained(t: int, back: int): nat
    requires back < t
  {
    (t - back) / 900_000_000 + 1
  }

  /** When that credit comes: as long after `back` as it has to be. */
  function GainedAt(t: int, back: int): int
    requires back < t
  {
    back + 900_000_000 * Gained(t, back)
  }

  lemma GainedIsLater(t: int, back: int)
    requires back < t
    ensures t < GainedAt(t, back) && Price(Gained(t, back)) > 10 * (GainedAt(t, back) - t)
  {
  }

  /** A set-back and a credit after it, from any state of the guard. */
  lemma AfterSetBack(d: Desk, env: Env, t: int, e: Event)
    requires d.guard.last == Some(t) && SetsBack(d.guard, e)
    ensures var next := Listen(GainedAt(t, e.now), ListenCredit(1, Gained(t, e.now), ""));
            && HandleAll(d, [e, next], env) == Handle(Handle(d, e, env), next, env)
            && Handle(d, e, env).guard == State(Some(e.now), false) && Admits(Handle(d, e, env), next)
            && Gain(d, HandleAll(d, [e, next], env), Everyone) == Gained(t, e.now)
  {
    var next := Listen(GainedAt(t, e.now), ListenCredit(1, Gained(t, e.now), ""));
    HandlesTwo(d, e, next, env);
    var mid := Handle(d, e, env);
    assert mid == d.(guard := State(Some(e.now), false), pending := d.pending + [e.credit]);
    assert Handle(mid, next, env).pending == mid.pending + [next.credit];
    OwedConcat(d.pending, [e.credit], Everyone);
    OwedConcat(mid.pending, [next.credit], Everyone);
    OwedOfOne(e.credit, Everyone);
    OwedOfOne(next.credit, Everyone);
  }

  /**
   After `e` and then `rest`, with no set-back in `rest`, growth since the instant `t` the guard held before `e` is
   paid for.
   */
  ghost predicate PaidSince(d: Desk, t: int, e: Event, rest: seq<Event>, until: int, env: Env) {
    (t <= until && UpTo(until, [e] + rest) && NeverSetsBack(Handle(d, e, env), rest, env)) ==>
      Price(Gain(d, HandleAll(d, [e] + rest, env), Everyone)) <= 10 * (until - t)
  }

  /**
   Per call, from any state in which the guard holds an instant: whatever follows, every second since that instant is
   paid for, if and only if the call does not set the guard back.
   */
  lemma PaidIffNotSetBack(d: Desk, env: Env, t: int, e: Event)
    requires LedgerInv(d.db) && d.guard.last == Some(t)
    ensures !SetsBack(d.guard, e) <==> forall rest, until :: PaidSince(d, t, e, rest, until, env)
  {
    if SetsBack(d.guard, e) {
      SetBackIsUnpaid(d, env, t, e);
    } else {
      forall rest, until
        ensures PaidSince(d, t, e, rest, until, env)
      {
        NotSetBackIsPaid(d, env, t, e, rest, until);
      }
    }
  }

  lemma NotSetBackIsPaid(d: Desk, env: Env, t: int, e: Event, rest: seq<Event>, until: int)
    requires LedgerInv(d.db) && d.guard.last == Some(t) && !SetsBack(d.guard, e)
    ensures PaidSince(d, t, e, rest, until, env)
  {
    assert ([e] + rest)[0] == e && ([e] + rest)[1..] == rest;
    if t <= until && UpTo(until, [e] + rest) && NeverSetsBack(Handle(d, e, env), rest, env) {
      GrowthSinceLast(d, [e] + rest, env, Everyone, t, until);
    }
  }

  lemma SetBackIsUnpaid(d: Desk, env: Env, t: int, e: Event)
    requires d.guard.last == Some(t) && SetsBack(d.guard, e)
    ensures exists rest, until :: !PaidSince(d, t, e, rest, until, env)
  {
    var until := GainedAt(t, e.now);
    var next := Listen(until, ListenCredit(1, Gained(t, e.now), ""));
    AfterSetBack(d, env, t, e);
    GainedIsLater(t, e.now);
    assert [e] + [next] == [e, next];
    assert [next][1..] == [];
    assert !SetsBack(Handle(d, e, env).guard, next);
    assert NeverSetsBack(Handle(d, e, env), [next], env);
    assert !PaidSince(d, t, e, [next], until, env);
  }

  /**
   So the bound on windows breaks with every set-back too: for every two instants there is a run of a fresh process in
   which a zero-second credit moves the guard from `t` to `back` and more is credited than the bound allows.
   */
  lemma SetBackExceedsBound(d: Desk, env: Env, t: int, back: int)
    requires d.guard == State(None, false) && d.pending == [] && back < t
    ensures var m := Gained(t, back);
            var zero, credit := ListenCredit(1, 0, ""), ListenCredit(1, m, "");
            var from, until := t - 900_000_000 * m, GainedAt(t, back);
            var before, after := [Listen(from, zero), Listen(t, credit)], [Listen(back, zero), Listen(until, credit)];
            var mid := HandleAll(d, before, env);
            && mid.guard == State(Some(t), false) && SetsBack(mid.guard, after[0])
            && from <= until && Within(from, until, before + after) && FirstAdmitted(d, before + after, env) == 0
            && Price(Gain(d, HandleAll(d, before + after, env), Everyone)) > 10 * (until - from)
  {
    var m := Gained(t, back);
    var zero, credit := ListenCredit(1, 0, ""), ListenCredit(1, m, "");
    var from, until := t - 900_000_000 * m, GainedAt(t, back);
    var before, after := [Listen(from, zero), Listen(t, credit)], [Listen(back, zero), Listen(until, credit)];
    var mid := HandleAll(d, before, env);
    BeforeSetBack(d, env, t, m);
    AfterSetBack(mid, env, t, after[0]);
    HandlesConcat(d, before, after, env);
    assert (before + after)[0] == before[0];
  }

  /** A fresh guard brought to hold `t`, with `m` seconds credited that cost their full price. */
  lemma BeforeSetBack(d: Desk, env: Env, t: int, m: nat)
    requires d.guard == State(None, false) && d.pending == [] && m > 0
    ensures var zero, credit := ListenCredit(1, 0, ""), ListenCredit(1, m, "");
            var mid := HandleAll(d, [Listen(t - 900_000_000 * m, zero), Listen(t, credit)], env);
            mid.guard == State(Some(t), false) && Gain(d, mid, Everyone) == m
  {
    var zero, credit := ListenCredit(1, 0, ""), ListenCredit(1, m, "");
    var x, y := Listen(t - 900_000_000 * m, zero), Listen(t, credit);
    HandlesTwo(d, x, y, env);
    assert HandleAll(d, [x, y], env).pending == [zero] + [credit];
    OwedConcat([zero], [credit], Everyone);
    OwedOfOne(zero, Everyone);
    OwedOfOne(credit, Everyone);
  }

  /** After a negative credit nothing is recorded any more. */
  lemma {:induction false} PoisonedRecordsNothing(d: Desk, events: seq<Event>, env: Env, who: int -> bool)
    requires LedgerInv(d.db) && d.guard.poisoned
    ensures Worth(HandleAll(d, events, env), who) <= Worth(d, who)
    decreases |events|
  {
    if events != [] {
      WorthOfEvent(d, events[0], env, who);
      PoisonedRecordsNothing(Handle(d, events[0], env), events[1..], env, who);
    }
  }
}
