/**
 What the signalling server is for: two peers that name the same tag meet, and what one sends reaches the other's
 socket.  And what ends: every connection can be taken down.
 */
module Meeting {
  import opened Wrappers
  import opened SignallingServer
  import L = RateLimiter
  import M = MessageProcessor
  import R = RoutingTable

  // ---------------------------------------------------------------------------
  // A room of two lasts as long as both are there
  // ---------------------------------------------------------------------------

  lemma RemovalKeepsRoom(s: Server, cid: Cid, tag: Tag, a: Cid, b: Cid)
    requires Inv(s) && Enabled(s, Remove(cid)) && R.Room(s.tables, tag, a, b) && cid != a && cid != b
    ensures R.Room(Next(s, Remove(cid)).tables, tag, a, b)
  {
    forall other <- s.tables.rtt | cid in s.tables.rtt[other].pair
      ensures s.conns[cid].limiter.tag == Some(other)
    {
      assert Tagged(s, cid, other);
    }
    R.RemovalIsComplete(s.tables, cid, s.conns[cid].limiter.tag);
    assert a in s.tables.rtt[tag].pair;
  }

  lemma StepKeepsRoom(s: Server, step: Step, tag: Tag, a: Cid, b: Cid)
    requires Inv(s) && Enabled(s, step) && R.Room(s.tables, tag, a, b) && step != Remove(a) && step != Remove(b)
    ensures R.Room(Next(s, step).tables, tag, a, b)
  {
    match step
    case LookUp(cid) =>
      assert ConnOk(s, cid);
      var f := s.conns[cid].stage.frame;
      R.LookupKeepsRoom(s.tables, tag, a, b, f.tag, cid, f.hasPayload);
    case Remove(cid) => RemovalKeepsRoom(s, cid, tag, a, b);
    case Enqueue(cid) => EnqueueKeepsTables(s, cid);
    case _ =>
  }

  lemma EnqueueKeepsTables(s: Server, cid: Cid)
    requires Inv(s) && Enabled(s, Enqueue(cid))
    ensures EnqueueStep(s, cid).tables == s.tables && EnqueueStep(s, cid).bufferLimit == s.bufferLimit
  {
  }

  /**
   Once two connections are in a room, in every run in which neither is removed: they stay its only two members, each
   one's lookup with a payload finds the other's queue, and every other registered connection is refused.
   */
  lemma {:induction false} RoomLasts(s: Server, steps: seq<Step>, t: Server, tag: Tag, a: Cid, b: Cid)
    requires Inv(s) && Leads(s, steps, t) && R.Room(s.tables, tag, a, b)
    requires Remove(a) !in steps && Remove(b) !in steps
    ensures R.Room(t.tables, tag, a, b)
    ensures R.Lookup(t.tables, tag, a, true) == Ok(R.ConnectionHandler(b))
    ensures R.Lookup(t.tables, tag, b, true) == Ok(R.ConnectionHandler(a))
    ensures forall c, hasPayload :: c in t.tables.ct && c != a && c != b ==>
              R.Lookup(t.tables, tag, c, hasPayload) == Err(R.Full)
    decreases |steps|
  {
    if steps == [] {
      R.MembersFindEachOther(t.tables, tag, a, b);
    } else {
      assert steps[0] in steps && forall x <- steps[1..] :: x in steps;
      StepKeepsRoom(s, steps[0], tag, a, b);
      StepKeepsInv(s, steps[0]);
      RoomLasts(Next(s, steps[0]), steps[1..], t, tag, a, b);
    }
  }

  // ---------------------------------------------------------------------------
  // Runs
  // ---------------------------------------------------------------------------

  lemma {:induction false} LeadsConcat(s: Server, xs: seq<Step>, t: Server, ys: seq<Step>, u: Server)
    requires Inv(s) && Leads(s, xs, t) && Inv(t) && Leads(t, ys, u)
    ensures Leads(s, xs + ys, u)
    decreases |xs|
  {
    if xs == [] {
      assert xs + ys == ys;
    } else {
      StepKeepsInv(s, xs[0]);
      LeadsConcat(Next(s, xs[0]), xs[1..], t, ys, u);
      assert (xs + ys)[1..] == xs[1..] + ys;
    }
  }

  lemma One(s: Server, step: Step) returns (t: Server)
    requires Inv(s) && Enabled(s, step)
    ensures Leads(s, [step], t) && Inv(t) && t == Next(s, step)
  {
    StepKeepsInv(s, step);
    t := Next(s, step);
    assert [step][1..] == [];
  }

  lemma Then(s: Server, xs: seq<Step>, t: Server, step: Step) returns (u: Server)
    requires Inv(s) && Leads(s, xs, t) && Inv(t) && Enabled(t, step)
    ensures Leads(s, xs + [step], u) && Inv(u) && u == Next(t, step)
  {
    u := One(t, step);
    LeadsConcat(s, xs, t, [step], u);
  }

  lemma Two(s: Server, x: Step, t: Server, y: Step, u: Server)
    requires Inv(s) && Leads(s, [x], t) && Inv(t) && Leads(t, [y], u)
    ensures Leads(s, [x, y], u)
  {
    LeadsConcat(s, [x], t, [y], u);
    assert [x] + [y] == [x, y];
  }

  lemma Three(s: Server, x: Step, t: Server, y: Step, u: Server, z: Step, v: Server)
    requires Inv(s) && Leads(s, [x], t) && Inv(t) && Leads(t, [y], u) && Inv(u) && Leads(u, [z], v)
    ensures Leads(s, [x, y, z], v)
  {
    Two(s, x, t, y, u);
    LeadsConcat(s, [x, y], u, [z], v);
    assert [x, y] + [z] == [x, y, z];
  }

  // ---------------------------------------------------------------------------
  // Two peers
  // ---------------------------------------------------------------------------

  lemma Opens(s: Server, now: int, ps: nat, pc: nat) returns (t: Server)
    requires Inv(s)
    ensures Leads(s, [Open(now, ps, pc)], t) && Inv(t)
    ensures t == Put(s, s.nextId, NewConnection(now, ps, pc)).(nextId := s.nextId + 1)
  {
    t := One(s, Open(now, ps, pc));
  }

  lemma Registers(s: Server, cid: Cid) returns (t: Server)
    requires Inv(s) && cid in s.conns && !s.conns[cid].registered
    ensures Leads(s, [Register(cid)], t) && Inv(t)
    ensures t == Put(s, cid, s.conns[cid].(registered := true)).(
                   tables := R.RecordConnection(s.tables, cid, R.ConnectionHandler(cid)))
  {
    t := One(s, Register(cid));
  }

  /** One peer connects and is registered. */
  lemma OneConnects(s: Server, now: int, ps: nat, pc: nat) returns (t: Server)
    requires Inv(s)
    ensures Leads(s, [Open(now, ps, pc), Register(s.nextId)], t) && Inv(t)
    ensures t == Put(s, s.nextId, NewConnection(now, ps, pc).(registered := true)).(
                   tables := R.RecordConnection(s.tables, s.nextId, R.ConnectionHandler(s.nextId)),
                   nextId := s.nextId + 1)
  {
    var a, c := s.nextId, NewConnection(now, ps, pc);
    var begun := Opens(s, now, ps, pc);
    t := Registers(begun, a);
    PutTwice(s, a, c, c.(registered := true));
    Two(s, Open(now, ps, pc), begun, Register(a), t);
  }

  function Connecting(a: Cid, b: Cid, now: int, ps: nat, pc: nat): seq<Step> {
    [Open(now, ps, pc), Register(a)] + [Open(now, ps, pc), Register(b)]
  }

  /** Two new connections, both registered and nothing received yet. */
  lemma TwoConnect(s: Server, now: int, ps: nat, pc: nat) returns (t: Server)
    requires Inv(s)
    ensures var a := s.nextId; var b := s.nextId + 1; var c := NewConnection(now, ps, pc).(registered := true);
            && Leads(s, Connecting(a, b, now, ps, pc), t) && Inv(t)
            && a in t.conns && b in t.conns && t.conns[a] == c && t.conns[b] == c
            && t.tables.rtt == s.tables.rtt && a in t.tables.ct && b in t.tables.ct && t.bufferLimit == s.bufferLimit
  {
    var first := OneConnects(s, now, ps, pc);
    t := OneConnects(first, now, ps, pc);
    LeadsConcat(s, [Open(now, ps, pc), Register(s.nextId)], first, [Open(now, ps, pc), Register(s.nextId + 1)], t);
  }

  lemma PutTwice(s: Server, cid: Cid, c: Connection, d: Connection)
    ensures Put(Put(s, cid, c), cid, d) == Put(s, cid, d)
  {
    assert s.conns[cid := c][cid := d] == s.conns[cid := d];
  }

  /** A message that is in time and proper brands its connection. */
  lemma Brands(s: Server, cid: Cid, m: Frame, now: int) returns (t: Server)
    requires Inv(s) && Enabled(s, Receive(cid, m, now)) && M.InTime(s.conns[cid], now) && M.Proper(s.conns[cid], m)
    ensures Leads(s, [Receive(cid, m, now)], t) && Inv(t) && t == Put(s, cid, ReceiveOn(s.conns[cid], m, now))
    ensures t.conns[cid].stage == Branded(m) && t.conns[cid].listening && m.Good?
    ensures |t.conns[cid].received| == |s.conns[cid].received| + 1
  {
    M.ReceivedIs(s.conns[cid], m, now);
    t := One(s, Receive(cid, m, now));
  }

  /** The lookup when nobody waits under the tag. */
  lemma FindsNobody(s: Server, cid: Cid, m: Frame) returns (t: Server)
    requires Inv(s) && Enabled(s, LookUp(cid)) && s.conns[cid].stage == Branded(m) && m.Good?
    requires cid in s.tables.ct && m.tag !in s.tables.rtt
    ensures Leads(s, [LookUp(cid)], t) && Inv(t)
    ensures t == Put(s, cid, s.conns[cid].(stage := Idle)).(
                   tables := R.AfterLookup(s.tables, m.tag, cid, m.hasPayload))
  {
    t := One(s, LookUp(cid));
    assert R.Record(s.tables, m.tag).pair == [];
  }

  /** The lookup when the partner is there. */
  lemma FindsPartner(s: Server, cid: Cid, m: Frame, dst: Cid) returns (t: Server)
    requires Inv(s) && Enabled(s, LookUp(cid)) && s.conns[cid].stage == Branded(m) && m.Good?
    requires R.Lookup(s.tables, m.tag, cid, m.hasPayload) == Ok(R.ConnectionHandler(dst))
    ensures Leads(s, [LookUp(cid)], t) && Inv(t) && dst != cid && dst in t.conns
    ensures t == Put(s, cid, s.conns[cid].(stage := Found(m, dst))).(
                   tables := R.AfterLookup(s.tables, m.tag, cid, m.hasPayload))
  {
    t := One(s, LookUp(cid));
    assert ConnOk(t, cid);
  }

  /** The first peer names a tag nobody waits under. */
  lemma FirstWaits(s: Server, a: Cid, m: Frame, now: int) returns (t: Server)
    requires Inv(s) && Enabled(s, Receive(a, m, now)) && M.InTime(s.conns[a], now) && M.Proper(s.conns[a], m)
    requires a in s.tables.ct && m.tag !in s.tables.rtt
    ensures Leads(s, [Receive(a, m, now), LookUp(a)], t) && Inv(t)
    ensures t == Put(s, a, ReceiveOn(s.conns[a], m, now).(stage := Idle)).(
                   tables := R.AfterLookup(s.tables, m.tag, a, m.hasPayload))
  {
    var branded := Brands(s, a, m, now);
    t := FindsNobody(branded, a, m);
    PutTwice(s, a, branded.conns[a], branded.conns[a].(stage := Idle));
    Two(s, Receive(a, m, now), branded, LookUp(a), t);
  }

  /** The message goes into the partner's queue. */
  lemma Delivers(s: Server, src: Cid, m: Frame, dst: Cid) returns (t: Server)
    requires Inv(s) && src in s.conns && s.conns[src].listening && s.conns[src].stage == Found(m, dst)
    requires dst in s.conns && Accepting(s.conns[dst], s.bufferLimit)
    ensures Leads(s, [Enqueue(src)], t) && Inv(t) && src != dst && src in t.conns && dst in t.conns
    ensures t.tables == s.tables && t.bufferLimit == s.bufferLimit && t.conns[src] == DoneOn(s.conns[src])
    ensures t.conns[dst] == s.conns[dst].(out := s.conns[dst].out + [Entry(src, Current(s.conns[src]), m)])
  {
    assert ConnOk(s, src);
    t := One(s, Enqueue(src));
    EnqueueParts(s, src);
    EnqueueKeepsTables(s, src);
  }

  lemma DoneForgetsStage(c: Connection, stage: Stage)
    ensures DoneOn(c.(stage := stage)) == DoneOn(c) && Current(c.(stage := stage)) == Current(c)
  {
  }

  /** A message that is to be forwarded is in its partner's queue three steps later, and the sender is ready again. */
  lemma MessageArrives(s: Server, src: Cid, dst: Cid, m: Frame, now: int) returns (t: Server)
    requires Inv(s) && Enabled(s, Receive(src, m, now)) && dst in s.conns && M.Forwards(s, src, m, now, dst)
    ensures Leads(s, [Receive(src, m, now), LookUp(src), Enqueue(src)], t) && Inv(t)
    ensures t.tables == R.AfterLookup(s.tables, m.tag, src, m.hasPayload) && t.bufferLimit == s.bufferLimit
    ensures src != dst && src in t.conns && dst in t.conns
    ensures t.conns[src] == DoneOn(ReceiveOn(s.conns[src], m, now))
    ensures t.conns[dst] == s.conns[dst].(out := s.conns[dst].out + [Entry(src, |s.conns[src].received|, m)])
  {
    M.PartnerIsFound(s.tables, m.tag, src, m.hasPayload, dst);
    var branded := Brands(s, src, m, now);
    var found := FindsPartner(branded, src, m, dst);
    DoneForgetsStage(branded.conns[src], Found(m, dst));
    t := Delivers(found, src, m, dst);
    Three(s, Receive(src, m, now), branded, LookUp(src), found, Enqueue(src), t);
  }

  /** A new connection takes in two messages of one tag, if its limits are at least two. */
  lemma TwoAreInTime(now: int, ps: nat, pc: nat, m: Frame, n: Frame)
    requires ps >= 2 && pc >= 2 && m.Good? && n.Good? && m.tag == n.tag
    ensures var c := NewConnection(now, ps, pc).(registered := true); var d := ReceiveOn(c, m, now).(stage := Idle);
            && M.InTime(c, now) && M.Proper(c, m) && M.InTime(d, now) && M.Proper(d, n)
            && c.listening && d.listening && d.received == [m] && d.out == [] && Accepting(d, 1) && d.egressOpen
  {
  }

  function Greeting(a: Cid, b: Cid, first: Frame, second: Frame, now: int): seq<Step> {
    [Receive(a, first, now), LookUp(a)] + [Receive(b, second, now), LookUp(b), Enqueue(b)]
  }

  /** A registered connection that waits for a message which it will take and pass on. */
  ghost predicate Ready(s: Server, cid: Cid, m: Frame, now: int) {
    && cid in s.conns && cid in s.tables.ct && s.conns[cid].listening && s.conns[cid].stage.Idle?
    && M.InTime(s.conns[cid], now) && M.Proper(s.conns[cid], m)
  }

  /** The first waits, the second joins it, and the second's message goes to the first. */
  lemma TheyGreet(s: Server, a: Cid, b: Cid, first: Frame, second: Frame, now: int) returns (t: Server)
    requires Inv(s) && a != b && Ready(s, a, first, now) && Ready(s, b, second, now)
    requires Accepting(s.conns[a], s.bufferLimit)
    requires first.tag == second.tag && first.tag !in s.tables.rtt && second.hasPayload
    ensures Leads(s, Greeting(a, b, first, second, now), t) && Inv(t) && t.bufferLimit == s.bufferLimit
    ensures a in t.conns && b in t.conns && a in t.tables.ct && R.Room(t.tables, first.tag, a, b)
    ensures t.conns[a] == ReceiveOn(s.conns[a], first, now).(
              stage := Idle, out := s.conns[a].out + [Entry(b, |s.conns[b].received|, second)])
    ensures t.conns[b] == DoneOn(ReceiveOn(s.conns[b], second, now))
  {
    M.ReceivedIs(s.conns[a], first, now);
    var mid := FirstWaits(s, a, first, now);
    R.TwoEnter(s.tables, first.tag, a, b, first.hasPayload, true);
    PartnerInRoom(mid, b, a, second);
    t := MessageArrives(mid, b, a, second, now);
    LeadsConcat(s, [Receive(a, first, now), LookUp(a)], mid, [Receive(b, second, now), LookUp(b), Enqueue(b)], t);
  }

  /** In a room of two, each is the other's partner. */
  lemma PartnerInRoom(s: Server, b: Cid, a: Cid, m: Frame)
    requires Inv(s) && m.Good? && m.hasPayload && b in s.tables.ct
    requires R.Room(R.AfterLookup(s.tables, m.tag, b, true), m.tag, a, b)
    ensures M.PartnerOf(s, b, m, a)
  {
    var u := R.AfterLookup(s.tables, m.tag, b, true);
    R.LookupIsIsolated(s.tables, m.tag, b, true);
    var pair := u.rtt[m.tag].pair;
    assert a in pair && b in pair;
    assert pair[0] in pair && (|pair| == 2 ==> pair[1] in pair);
  }

  /** What the two peers do: connect, name the tag, answer, and go on talking; the sockets take what is queued. */
  function Talk(a: Cid, b: Cid, m1: Frame, m2: Frame, m3: Frame, now: int, ps: nat, pc: nat): seq<Step> {
    Connecting(a, b, now, ps, pc) + Greeting(a, b, m1, m2, now)
    + [Receive(a, m3, now), LookUp(a), Enqueue(a)] + [Egress(a, true), Egress(b, true)]
  }

  /** The two queues after that. */
  ghost predicate Heard(s: Server, a: Cid, b: Cid, m2: Frame, m3: Frame) {
    && a in s.conns && s.conns[a].out == [Entry(b, 0, m2)] && s.conns[a].taken == 1
    && b in s.conns && s.conns[b].out == [Entry(a, 1, m3)] && s.conns[b].taken == 1
  }

  /** They have met; the second's message is in the first's queue, and the first is ready to go on with `m3`. */
  ghost predicate Greeted(s: Server, a: Cid, b: Cid, m2: Frame, m3: Frame, now: int) {
    && m3.Good? && m3.hasPayload && R.Room(s.tables, m3.tag, a, b) && Ready(s, a, m3, now) && s.bufferLimit > 0
    && s.conns[a].out == [Entry(b, 0, m2)] && s.conns[a].taken == 0 && s.conns[a].egressOpen
    && |s.conns[a].received| == 1
    && b in s.conns && s.conns[b].out == [] && s.conns[b].taken == 0 && s.conns[b].egressOpen
  }

  /** Both queues hold one message, which their sockets have not taken yet. */
  ghost predicate Queued(s: Server, a: Cid, b: Cid, m2: Frame, m3: Frame) {
    && a in s.conns && s.conns[a].out == [Entry(b, 0, m2)] && s.conns[a].taken == 0 && s.conns[a].egressOpen
    && b in s.conns && s.conns[b].out == [Entry(a, 1, m3)] && s.conns[b].taken == 0 && s.conns[b].egressOpen
  }

  /** The first one speaks on: its message is queued for the second. */
  lemma FirstSpeaks(s: Server, a: Cid, b: Cid, m2: Frame, m3: Frame, now: int) returns (t: Server)
    requires Inv(s) && Greeted(s, a, b, m2, m3, now)
    ensures Leads(s, [Receive(a, m3, now), LookUp(a), Enqueue(a)], t) && Inv(t)
    ensures Queued(t, a, b, m2, m3) && R.Room(t.tables, m3.tag, a, b)
  {
    R.LookupKeepsRoom(s.tables, m3.tag, a, b, m3.tag, a, true);
    PartnerInRoom(s, a, b, m3);
    M.ReceivedIs(s.conns[a], m3, now);
    t := MessageArrives(s, a, b, m3, now);
  }

  lemma SocketTakes(s: Server, cid: Cid) returns (t: Server)
    requires Inv(s) && Enabled(s, Egress(cid, true))
    ensures Leads(s, [Egress(cid, true)], t) && Inv(t)
    ensures t == Put(s, cid, s.conns[cid].(taken := s.conns[cid].taken + 1))
  {
    t := One(s, Egress(cid, true));
  }

  lemma SocketsTake(s: Server, a: Cid, b: Cid, m2: Frame, m3: Frame) returns (t: Server)
    requires Inv(s) && a != b && Queued(s, a, b, m2, m3)
    ensures Leads(s, [Egress(a, true), Egress(b, true)], t) && Heard(t, a, b, m2, m3) && t.tables == s.tables
  {
    var one := SocketTakes(s, a);
    t := SocketTakes(one, b);
    Two(s, Egress(a, true), one, Egress(b, true), t);
  }

  lemma StrangersGreet(s: Server, m1: Frame, m2: Frame, m3: Frame, now: int, ps: nat, pc: nat) returns (t: Server)
    requires Inv(s) && s.bufferLimit > 0 && ps >= 2 && pc >= 2
    requires m1.Good? && m2.Good? && m3.Good? && m1.tag == m2.tag == m3.tag && m2.hasPayload && m3.hasPayload
    requires m1.tag !in s.tables.rtt
    ensures var a, b := s.nextId, s.nextId + 1;
            && Leads(s, Connecting(a, b, now, ps, pc) + Greeting(a, b, m1, m2, now), t) && Inv(t)
            && Greeted(t, a, b, m2, m3, now)
  {
    var a, b := s.nextId, s.nextId + 1;
    var u := TwoConnect(s, now, ps, pc);
    TwoAreInTime(now, ps, pc, m1, m3);
    TwoAreInTime(now, ps, pc, m2, m2);
    t := TheyGreet(u, a, b, m1, m2, now);
    LeadsConcat(s, Connecting(a, b, now, ps, pc), u, Greeting(a, b, m1, m2, now), t);
    M.ReceivedIs(u.conns[b], m2, now);
  }

  /**
   From every state of the server, and for every tag nobody uses: two peers that connect, register and name that tag,
   the second and then the first with a payload, get each other's message on their sockets, unchanged.  It takes
   limits of two messages and room for one in the queues.
   */
  lemma PeersMeet(s: Server, m1: Frame, m2: Frame, m3: Frame, now: int, ps: nat, pc: nat) returns (t: Server)
    requires Inv(s) && s.bufferLimit > 0 && ps >= 2 && pc >= 2
    requires m1.Good? && m2.Good? && m3.Good? && m1.tag == m2.tag == m3.tag && m2.hasPayload && m3.hasPayload
    requires m1.tag !in s.tables.rtt
    ensures var a, b := s.nextId, s.nextId + 1;
            && Leads(s, Talk(a, b, m1, m2, m3, now, ps, pc), t)
            && Heard(t, a, b, m2, m3) && R.Room(t.tables, m1.tag, a, b)
  {
    var a, b := s.nextId, s.nextId + 1;
    var met := StrangersGreet(s, m1, m2, m3, now, ps, pc);
    var queued := FirstSpeaks(met, a, b, m2, m3, now);
    t := SocketsTake(queued, a, b, m2, m3);
    var before := Connecting(a, b, now, ps, pc) + Greeting(a, b, m1, m2, now);
    var speaks := [Receive(a, m3, now), LookUp(a), Enqueue(a)];
    LeadsConcat(s, before, met, speaks, queued);
    LeadsConcat(s, before + speaks, queued, [Egress(a, true), Egress(b, true)], t);
  }

  // ---------------------------------------------------------------------------
  // Taking a connection down
  // ---------------------------------------------------------------------------

  /** Either task's end cancels the close token, so that the other one ends too. */
  predicate TokenOk(c: Connection) {
    !c.listening || !c.egressOpen ==> c.cancelled
  }

  ghost predicate TokensInv(s: Server) {
    forall cid <- s.conns :: TokenOk(s.conns[cid])
  }

  lemma ReceiveKeepsToken(c: Connection, frame: Frame, now: int)
    requires TokenOk(c)
    ensures TokenOk(ReceiveOn(c, frame, now))
  {
  }

  lemma EnqueueKeepsTokens(s: Server, cid: Cid)
    requires Inv(s) && TokensInv(s) && Enabled(s, Enqueue(cid))
    ensures TokensInv(EnqueueStep(s, cid))
  {
    assert ConnOk(s, cid);
    EnqueueParts(s, cid);
  }

  lemma StepKeepsTokens(s: Server, step: Step)
    requires Inv(s) && TokensInv(s) && Enabled(s, step)
    ensures TokensInv(Next(s, step))
  {
    match step
    case Receive(cid, frame, now) => ReceiveKeepsToken(s.conns[cid], frame, now);
    case Enqueue(cid) => EnqueueKeepsTokens(s, cid);
    case _ =>
  }

  /** In every reachable state: where one of the two tasks has ended, the token is cancelled. */
  lemma {:induction false} TokensAreSound(s: Server, steps: seq<Step>, t: Server)
    requires Inv(s) && TokensInv(s) && Leads(s, steps, t)
    ensures TokensInv(t)
    decreases |steps|
  {
    if steps != [] {
      StepKeepsTokens(s, steps[0]);
      StepKeepsInv(s, steps[0]);
      TokensAreSound(Next(s, steps[0]), steps[1..], t);
    }
  }

  /** The listening task finishes the message it is at, if any. */
  lemma FinishMessage(s: Server, cid: Cid) returns (steps: seq<Step>, t: Server)
    requires Inv(s) && cid in s.conns && TokenOk(s.conns[cid])
    ensures Leads(s, steps, t) && Inv(t) && cid in t.conns && t.conns[cid].stage.Idle? && TokenOk(t.conns[cid])
    ensures t.conns[cid].registered == s.conns[cid].registered && t.conns[cid].removed == s.conns[cid].removed
  {
    assert ConnOk(s, cid);
    steps, t := [], s;
    if t.conns[cid].stage.Branded? {
      t := One(s, LookUp(cid));
      steps := [LookUp(cid)];
    }
    if t.conns[cid].stage.Found? {
      assert ConnOk(t, cid);
      EnqueueParts(t, cid);
      t := Then(s, steps, t, Enqueue(cid));
      steps := steps + [Enqueue(cid)];
    }
  }

  /** Both tasks end: the listener when its peer closes, the writer because the token is cancelled then. */
  lemma TasksEnd(s: Server, cid: Cid) returns (steps: seq<Step>, t: Server)
    requires Inv(s) && cid in s.conns && s.conns[cid].stage.Idle? && TokenOk(s.conns[cid])
    ensures Leads(s, steps, t) && Inv(t) && cid in t.conns && !t.conns[cid].listening && !t.conns[cid].egressOpen
    ensures t.conns[cid].registered == s.conns[cid].registered && t.conns[cid].removed == s.conns[cid].removed
  {
    steps, t := [], s;
    if t.conns[cid].listening {
      t := Then(s, steps, t, ListenEnds(cid));
      steps := steps + [ListenEnds(cid)];
    }
    if t.conns[cid].egressOpen {
      t := Then(s, steps, t, EgressEnds(cid));
      steps := steps + [EgressEnds(cid)];
    }
  }

  /**
   In every reachable state every registered connection can be taken down once its peer closes, whatever other peers
   do and without the idle checker; then its id is nowhere in the tables.
   */
  lemma EveryConnectionCanEnd(s0: Server, before: seq<Step>, s: Server, cid: Cid) returns (steps: seq<Step>, t: Server)
    requires Initial(s0) && (InitialInv(s0); Leads(s0, before, s)) && cid in s.conns && s.conns[cid].registered
    ensures (InitialInv(s0); RunKeepsInv(s0, before, s); Leads(s, steps, t))
    ensures cid in t.conns && t.conns[cid].removed
    ensures cid !in t.tables.ct && forall tag <- t.tables.rtt :: cid !in t.tables.rtt[tag].pair
  {
    InitialInv(s0);
    RunKeepsInv(s0, before, s);
    TokensAreSound(s0, before, s);
    steps, t := TakeDown(s, cid);
  }

  lemma TakeDown(s: Server, cid: Cid) returns (steps: seq<Step>, t: Server)
    requires Inv(s) && cid in s.conns && s.conns[cid].registered && TokenOk(s.conns[cid])
    ensures Leads(s, steps, t) && cid in t.conns && t.conns[cid].removed
    ensures cid !in t.tables.ct && forall tag <- t.tables.rtt :: cid !in t.tables.rtt[tag].pair
  {
    var first, mid := FinishMessage(s, cid);
    var second, ended := TasksEnd(mid, cid);
    LeadsConcat(s, first, mid, second, ended);
    steps, t := first + second, ended;
    if !t.conns[cid].removed {
      t := Then(s, steps, t, Remove(cid));
      steps := steps + [Remove(cid)];
    }
    forall tag <- t.tables.rtt
      ensures cid !in t.tables.rtt[tag].pair
    {
      assert cid in t.tables.rtt[tag].pair ==> cid in t.tables.ct;
    }
  }

  /** A connection whose socket is closed. */
  predicate Shut(s: Server, cid: Cid) { cid in s.conns && !s.conns[cid].egressOpen }

  lemma StepKeepsShut(s: Server, step: Step, cid: Cid)
    requires Inv(s) && Enabled(s, step) && Shut(s, cid)
    ensures Shut(Next(s, step), cid)
    ensures var t := Next(s, step);
            t.conns[cid].out == s.conns[cid].out && t.conns[cid].taken == s.conns[cid].taken
  {
    if step.Enqueue? {
      assert ConnOk(s, step.cid);
      EnqueueParts(s, step.cid);
    } else if step.Open? {
      assert ConnOk(s, cid);
    }
  }

  /** After a write failed, in every run: nothing more is queued for that connection and nothing more goes out to it. */
  lemma BrokenSocketIsSilent(s: Server, cid: Cid, steps: seq<Step>, t: Server)
    requires Inv(s) && Enabled(s, Egress(cid, false))
    requires (StepKeepsInv(s, Egress(cid, false)); Leads(Next(s, Egress(cid, false)), steps, t))
    ensures Shut(t, cid) && t.conns[cid].cancelled
    ensures t.conns[cid].out == s.conns[cid].out && t.conns[cid].taken == s.conns[cid].taken
  {
    StepKeepsInv(s, Egress(cid, false));
    var broken := Next(s, Egress(cid, false));
    ForwardedIsCapped(broken, steps, t, cid);
    StaysShut(broken, cid, steps, t);
  }

  lemma {:induction false} StaysShut(s: Server, cid: Cid, steps: seq<Step>, t: Server)
    requires Inv(s) && Leads(s, steps, t) && Shut(s, cid)
    ensures Shut(t, cid) && t.conns[cid].out == s.conns[cid].out && t.conns[cid].taken == s.conns[cid].taken
    decreases |steps|
  {
    if steps != [] {
      StepKeepsShut(s, steps[0], cid);
      StepKeepsInv(s, steps[0]);
      StaysShut(Next(s, steps[0]), cid, steps[1..], t);
    }
  }

  /** No queue holds more than the limit. */
  ghost predicate WithinLimit(s: Server) {
    forall cid <- s.conns :: |s.conns[cid].out| - s.conns[cid].taken <= s.bufferLimit
  }

  lemma ReceiveKeepsQueue(c: Connection, frame: Frame, now: int)
    ensures ReceiveOn(c, frame, now).out == c.out && ReceiveOn(c, frame, now).taken == c.taken
  {
  }

  lemma EnqueueStaysWithin(s: Server, cid: Cid)
    requires Inv(s) && Enabled(s, Enqueue(cid)) && WithinLimit(s)
    ensures WithinLimit(EnqueueStep(s, cid)) && EnqueueStep(s, cid).bufferLimit == s.bufferLimit
  {
    assert ConnOk(s, cid);
    EnqueueParts(s, cid);
    EnqueueKeepsTables(s, cid);
  }

  /** Whatever the peers send, what a queue holds for its socket stays within the limit. */
  lemma {:induction false} QueuesStayBounded(s: Server, steps: seq<Step>, t: Server)
    requires Inv(s) && Leads(s, steps, t) && WithinLimit(s)
    ensures WithinLimit(t) && t.bufferLimit == s.bufferLimit
    decreases |steps|
  {
    if steps != [] {
      StepStaysWithin(s, steps[0]);
      StepKeepsInv(s, steps[0]);
      QueuesStayBounded(Next(s, steps[0]), steps[1..], t);
    }
  }

  lemma StepStaysWithin(s: Server, step: Step)
    requires Inv(s) && Enabled(s, step) && WithinLimit(s)
    ensures WithinLimit(Next(s, step)) && Next(s, step).bufferLimit == s.bufferLimit
  {
    match step
    case Receive(cid, frame, now) => ReceiveKeepsQueue(s.conns[cid], frame, now);
    case Enqueue(cid) => EnqueueStaysWithin(s, cid);
    case _ =>
  }

  // ---------------------------------------------------------------------------
  // The counters the idle checker reads
  // ---------------------------------------------------------------------------

  /** How many messages a step puts into the queue of the peer its connection found. */
  function Queues(s: Server, step: Step, cid: Cid): nat
    requires cid in s.conns
  {
    var c := s.conns[cid];
    if step == Enqueue(cid) && c.stage.Found? && c.stage.peer in s.conns
       && Accepting(s.conns[c.stage.peer], s.bufferLimit)
    then 1 else 0
  }

  lemma ReceiveCounts(c: Connection, frame: Frame, now: int)
    requires c.stage.Idle? && c.listening
    ensures var d := ReceiveOn(c, frame, now);
            && d.incoming == c.incoming + (if M.InTime(c, now) && M.Proper(c, frame) then 1 else 0)
            && d.forwarded == c.forwarded
  {
  }

  lemma EnqueueCounts(s: Server, sender: Cid, cid: Cid)
    requires Inv(s) && Enabled(s, Enqueue(sender)) && cid in s.conns
    ensures var t := EnqueueStep(s, sender); var peer := s.conns[sender].stage.peer;
            && cid in t.conns && t.conns[cid].incoming == s.conns[cid].incoming
            && t.conns[cid].forwarded == s.conns[cid].forwarded + Queues(s, Enqueue(sender), cid)
            && peer in t.conns && |t.conns[peer].out| == |s.conns[peer].out| + Queues(s, Enqueue(sender), sender)
  {
    assert ConnOk(s, sender);
    EnqueueParts(s, sender);
  }

  /**
   `incoming` counts the messages that are in time and proper, `forwarded` those that went into a peer's queue, and
   no step of another connection changes either.
   */
  lemma CountersCount(s: Server, step: Step, cid: Cid)
    requires Inv(s) && Enabled(s, step) && cid in s.conns
    ensures cid in Next(s, step).conns
    ensures var c, d := s.conns[cid], Next(s, step).conns[cid];
            && d.incoming == c.incoming + (if step.Receive? && step.cid == cid && M.InTime(c, step.now)
                                              && M.Proper(c, step.frame) then 1 else 0)
            && d.forwarded == c.forwarded + Queues(s, step, cid)
    ensures step == Enqueue(cid) ==>
              var peer := s.conns[cid].stage.peer;
              && peer in Next(s, step).conns
              && |Next(s, step).conns[peer].out| == |s.conns[peer].out| + Queues(s, step, cid)
  {
    if step.Enqueue? {
      EnqueueCounts(s, step.cid, cid);
    } else if step.Receive? {
      ReceiveCounts(s.conns[step.cid], step.frame, step.now);
    } else if step.Open? || step.LookUp? {
      assert ConnOk(s, if step.Open? then cid else step.cid);
    }
  }
}
