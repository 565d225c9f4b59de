/**
 The signalling server as a state machine over all its connections.

 A message is processed in three steps, because `process` awaits the table lock between branding the
 connection and looking up its peer, and puts the message into the peer's queue after the lock is
 released; steps of every other connection may come in between.  A connection is registered only after its
 tasks were started, and removed only after they ended.  Tasks do not panic.
 */
module SignallingServer {
  import opened Wrappers
  import L = RateLimiter
  import R = RoutingTable

  type Tag = L.Tag
  type Cid = R.Cid

  /** A websocket message: `Bad` does not parse or has an empty tag. */
  datatype Frame = Bad(raw: string) | Good(tag: Tag, hasPayload: bool, body: string)

  /** Where the listening task is between its awaits. */
  datatype Stage = Idle | Branded(frame: Frame) | Found(frame: Frame, peer: Cid)

  /** A message put into a queue: who sent it, as which of its messages, and the message. */
  datatype Entry = Entry(src: Cid, index: nat, frame: Frame)

  /** `out` is everything ever put into the connection's queue; the first `taken` of it left for the socket. */
  datatype Connection = Connection(
    limiter: L.Limiter,
    stage: Stage,
    registered: bool,
    listening: bool,
    egressOpen: bool,
    removed: bool,
    cancelled: bool,
    received: seq<Frame>,
    out: seq<Entry>,
    taken: nat,
    incoming: nat,
    forwarded: nat)

  datatype Server = Server(tables: R.Tables, conns: map<Cid, Connection>, nextId: Cid, bufferLimit: nat)

  datatype Step =
    | Open(now: int, perSecond: nat, perConnection: nat)
    | Register(cid: Cid)
    | Receive(cid: Cid, frame: Frame, now: int)
    | LookUp(cid: Cid)
    | Enqueue(cid: Cid)
    | ListenEnds(cid: Cid)
    | Egress(cid: Cid, ok: bool)
    | EgressEnds(cid: Cid)
    | IdleClose(cid: Cid)
    | Remove(cid: Cid)

  ghost predicate Enabled(s: Server, step: Step) {
    step.Open? ||
    (step.cid in s.conns &&
     var c := s.conns[step.cid];
     match step
     case Register(_) => !c.registered
     case Receive(_, _, _) => c.listening && c.stage.Idle?
     case LookUp(_) => c.listening && c.stage.Branded?
     case Enqueue(_) => c.listening && c.stage.Found? && c.stage.peer in s.conns
     case ListenEnds(_) => c.listening && c.stage.Idle?
     case Egress(_, _) => c.egressOpen && c.taken < |c.out|
     case EgressEnds(_) => c.egressOpen && c.cancelled
     case IdleClose(_) => true
     case Remove(_) => c.registered && !c.listening && !c.egressOpen && !c.removed
     case _ => true)
  }

  function NewConnection(now: int, perSecond: nat, perConnection: nat): Connection {
    Connection(L.NewLimiter(now, perSecond, perConnection), Idle, false, true, true, false, false, [], [], 0, 0, 0)
  }

  /** The listening task ends and cancels the close token. */
  function EndListening(c: Connection): Connection {
    c.(stage := Idle, listening := false, cancelled := true)
  }

  /** `process` up to the lock: both limits, parsing, branding. */
  function ReceiveOn(c: Connection, frame: Frame, now: int): Connection {
    var timed := c.(received := c.received + [frame], limiter := L.AfterTime(c.limiter, now));
    if !L.PassesTime(c.limiter, now) then timed
    else if !L.PassesTotal(timed.limiter) then EndListening(timed)
    else
      var counted := timed.(limiter := L.AfterTotal(timed.limiter));
      if frame.Bad? || !L.Brandable(counted.limiter, frame.tag) then EndListening(counted)
      else counted.(limiter := L.Branded(counted.limiter, frame.tag),
                    incoming := counted.incoming + 1,
                    stage := Branded(frame))
  }

  function Current(c: Connection): nat {
    if c.received == [] then 0 else |c.received| - 1
  }

  /** The queue takes one more message: it is open and not full. */
  predicate Accepting(c: Connection, limit: nat) {
    c.egressOpen && |c.out| - c.taken < limit
  }

  function Put(s: Server, cid: Cid, c: Connection): Server { s.(conns := s.conns[cid := c]) }

  function LookUpStep(s: Server, cid: Cid): Server
    requires cid in s.conns && s.conns[cid].stage.Branded? && s.conns[cid].stage.frame.Good?
  {
    var c := s.conns[cid];
    var f := c.stage.frame;
    var stage := match R.Lookup(s.tables, f.tag, cid, f.hasPayload)
                 case Ok(h) => Found(f, h.queueOf)
                 case Err(_) => Idle;
    Put(s, cid, c.(stage := stage)).(tables := R.AfterLookup(s.tables, f.tag, cid, f.hasPayload))
  }

  function DoneOn(c: Connection): Connection {
    c.(stage := Idle, forwarded := c.forwarded + 1)
  }

  /** The sender is done with its message. */
  function Done(s: Server, cid: Cid): Server
    requires cid in s.conns
  {
    Put(s, cid, DoneOn(s.conns[cid]))
  }

  function EnqueueStep(s: Server, cid: Cid): Server
    requires cid in s.conns && s.conns[cid].stage.Found? && s.conns[cid].stage.peer in s.conns
  {
    var c := s.conns[cid];
    var peer := c.stage.peer;
    if !Accepting(s.conns[peer], s.bufferLimit) then Put(s, cid, EndListening(c))
    else
      var mid := Done(s, cid);
      var d := mid.conns[peer];
      Put(mid, peer, d.(out := d.out + [Entry(cid, Current(c), c.stage.frame)]))
  }

  ghost function Next(s: Server, step: Step): Server
    requires Inv(s) && Enabled(s, step)
  {
    match step
    case Open(now, ps, pc) =>
      Put(s, s.nextId, NewConnection(now, ps, pc)).(nextId := s.nextId + 1)
    case Register(cid) =>
      Put(s, cid, s.conns[cid].(registered := true))
        .(tables := R.RecordConnection(s.tables, cid, R.ConnectionHandler(cid)))
    case Receive(cid, f, now) => Put(s, cid, ReceiveOn(s.conns[cid], f, now))
    case LookUp(cid) => LookUpStep(s, cid)
    case Enqueue(cid) => EnqueueStep(s, cid)
    case ListenEnds(cid) => Put(s, cid, EndListening(s.conns[cid]))
    case Egress(cid, ok) =>
      var c := s.conns[cid];
      Put(s, cid, if ok then c.(taken := c.taken + 1) else c.(cancelled := true, egressOpen := false))
    case EgressEnds(cid) => Put(s, cid, s.conns[cid].(egressOpen := false))
    case IdleClose(cid) => Put(s, cid, s.conns[cid].(cancelled := true))
    case Remove(cid) =>
      Put(s, cid, s.conns[cid].(removed := true))
        .(tables := R.RemoveRecordsFor(s.tables, cid, s.conns[cid].limiter.tag))
  }

  ghost predicate Initial(s: Server) {
    s.tables == R.EMPTY && s.conns == map[] && s.nextId == 0
  }

  // ---------------------------------------------------------------------------
  // What every step keeps
  // ---------------------------------------------------------------------------

  /** A connection is tagged `tag`. */
  predicate Tagged(s: Server, cid: Cid, tag: Tag) {
    cid in s.conns && s.conns[cid].limiter.tag == Some(tag)
  }

  /** Rooms are well formed, list connections under the tag these are branded with, and only live ones. */
  ghost predicate TablesInv(s: Server) {
    && R.WellFormed(s.tables)
    && (forall tag <- s.tables.rtt, cid <- s.tables.rtt[tag].pair :: Tagged(s, cid, tag))
    && (forall cid :: cid in s.tables.ct <==> cid in s.conns && s.conns[cid].registered && !s.conns[cid].removed)
  }

  /** Bookkeeping of one connection. */
  ghost predicate ConnectionInv(c: Connection) {
    && (!c.stage.Idle? ==> c.listening && c.received != [] && c.stage.frame.Good?
                           && c.stage.frame == c.received[|c.received| - 1]
                           && c.limiter.tag == Some(c.stage.frame.tag))
    && (c.removed ==> c.registered && !c.listening && !c.egressOpen)
    && c.taken <= |c.out|
    && c.limiter.total <= c.limiter.perConnection
    && c.forwarded + (if c.stage.Idle? then 0 else 1) <= c.incoming <= c.limiter.total
  }

  /** A looked-up peer is another connection branded with the same tag. */
  predicate GoodStage(s: Server, cid: Cid, g: Stage) {
    g.Found? ==> g.peer != cid && g.frame.Good? && g.frame.hasPayload && Tagged(s, g.peer, g.frame.tag)
  }

  /** The entry is a message of another connection of the same tag, as that connection sent it. */
  ghost predicate Authentic(s: Server, dst: Cid, e: Entry) {
    && e.frame.Good? && e.frame.hasPayload && e.src != dst
    && Tagged(s, e.src, e.frame.tag) && Tagged(s, dst, e.frame.tag)
    && e.index < |s.conns[e.src].received| && s.conns[e.src].received[e.index] == e.frame
  }

  /** The message its sender is processing now is not queued yet. */
  ghost predicate EntryOk(s: Server, dst: Cid, e: Entry) {
    Authentic(s, dst, e) && (s.conns[e.src].stage.Idle? || e.index < Current(s.conns[e.src]))
  }

  /** Messages of one sender keep their order. */
  ghost predicate InOrder(out: seq<Entry>) {
    forall i, j :: 0 <= i < j < |out| && out[i].src == out[j].src ==> out[i].index < out[j].index
  }

  ghost predicate ConnOk(s: Server, cid: Cid)
    requires cid in s.conns
  {
    var c := s.conns[cid];
    && ConnectionInv(c) && cid < s.nextId && GoodStage(s, cid, c.stage) && InOrder(c.out)
    && forall e <- c.out :: EntryOk(s, cid, e)
  }

  ghost predicate Inv(s: Server) {
    TablesInv(s) && forall cid <- s.conns :: ConnOk(s, cid)
  }

  /** How one connection may change: its history grows, its brand stays, a new message takes a new index. */
  ghost predicate Evolves(c: Connection, d: Connection) {
    && c.received <= d.received
    && (c.limiter.tag.Some? ==> d.limiter.tag == c.limiter.tag)
    && (!d.stage.Idle? ==> (!c.stage.Idle? && d.received == c.received) || |d.received| == |c.received| + 1)
  }

  ghost predicate Grows(s: Server, t: Server) {
    s.nextId <= t.nextId && forall cid <- s.conns :: cid in t.conns && Evolves(s.conns[cid], t.conns[cid])
  }

  lemma EntryStays(s: Server, t: Server, dst: Cid, e: Entry)
    requires Grows(s, t) && EntryOk(s, dst, e)
    ensures EntryOk(t, dst, e)
  {
    assert Evolves(s.conns[e.src], t.conns[e.src]) && Evolves(s.conns[dst], t.conns[dst]);
  }

  /** A connection with the same queue, in order, and sound bookkeeping stays fine in a grown server. */
  lemma ConnStays(s: Server, t: Server, cid: Cid)
    requires Grows(s, t) && cid in s.conns && ConnOk(s, cid)
    requires t.conns[cid].out == s.conns[cid].out && ConnectionInv(t.conns[cid])
    requires t.conns[cid].stage == s.conns[cid].stage || GoodStage(t, cid, t.conns[cid].stage)
    ensures ConnOk(t, cid)
  {
    forall e <- t.conns[cid].out
      ensures EntryOk(t, cid, e)
    {
      EntryStays(s, t, cid, e);
    }
    if t.conns[cid].stage == s.conns[cid].stage && s.conns[cid].stage.Found? {
      var peer := s.conns[cid].stage.peer;
      assert Evolves(s.conns[peer], t.conns[peer]);
    }
  }

  lemma OthersStay(s: Server, t: Server, changed: set<Cid>)
    requires Inv(s) && Grows(s, t)
    requires forall cid <- s.conns :: cid !in changed ==> t.conns[cid] == s.conns[cid]
    ensures forall cid <- s.conns :: cid !in changed ==> ConnOk(t, cid)
  {
    forall cid <- s.conns | cid !in changed
      ensures ConnOk(t, cid)
    {
      ConnStays(s, t, cid);
    }
  }

  /** Rooms whose members kept their tags. */
  lemma TablesStay(s: Server, t: Server)
    requires TablesInv(s) && Grows(s, t) && t.tables == s.tables
    requires forall cid <- t.conns :: (t.conns[cid].registered && !t.conns[cid].removed)
                                      == (cid in s.conns && s.conns[cid].registered && !s.conns[cid].removed)
    ensures TablesInv(t)
  {
    forall tag <- t.tables.rtt, cid <- t.tables.rtt[tag].pair
      ensures Tagged(t, cid, tag)
    {
      assert Tagged(s, cid, tag);
      assert Evolves(s.conns[cid], t.conns[cid]);
    }
  }

  /** A change to one connection that touches neither its queue contents nor its registration. */
  ghost predicate Local(c: Connection, d: Connection) {
    ConnectionInv(d) && Evolves(c, d) && d.out == c.out && d.registered == c.registered && d.removed == c.removed
  }

  lemma LocalKeepsInv(s: Server, cid: Cid, d: Connection)
    requires Inv(s) && cid in s.conns && Local(s.conns[cid], d)
    requires d.stage == s.conns[cid].stage || GoodStage(s, cid, d.stage)
    ensures Inv(Put(s, cid, d))
  {
    var t := Put(s, cid, d);
    assert Grows(s, t);
    OthersStay(s, t, {cid});
    if GoodStage(s, cid, d.stage) && d.stage.Found? {
      assert Evolves(s.conns[d.stage.peer], t.conns[d.stage.peer]);
    }
    ConnStays(s, t, cid);
    TablesStay(s, t);
  }

  lemma ReceiveIsLocal(c: Connection, frame: Frame, now: int)
    requires ConnectionInv(c) && c.listening && c.stage.Idle?
    ensures Local(c, ReceiveOn(c, frame, now)) && !ReceiveOn(c, frame, now).stage.Found?
  {
  }

  /** Rooms and registrations may change as long as the tables stay right. */
  lemma TablesKeepInv(s: Server, t: Server)
    requires Inv(s) && t == s.(tables := t.tables, conns := t.conns) && t.conns.Keys == s.conns.Keys
    requires forall cid <- s.conns :: ConnectionInv(t.conns[cid])
               && t.conns[cid] == s.conns[cid].(registered := t.conns[cid].registered, removed := t.conns[cid].removed)
    requires TablesInv(t)
    ensures Inv(t)
  {
    assert Grows(s, t);
    forall cid <- t.conns
      ensures ConnOk(t, cid)
    {
      ConnStays(s, t, cid);
    }
  }

  /** The lookup's effect on the tables alone. */
  lemma JoinKeepsInv(s: Server, cid: Cid, f: Frame)
    requires Inv(s) && f.Good? && Tagged(s, cid, f.tag)
    ensures Inv(s.(tables := R.AfterLookup(s.tables, f.tag, cid, f.hasPayload)))
  {
    R.LookupIsIsolated(s.tables, f.tag, cid, f.hasPayload);
    var t := s.(tables := R.AfterLookup(s.tables, f.tag, cid, f.hasPayload));
    forall tag <- t.tables.rtt, member <- t.tables.rtt[tag].pair
      ensures Tagged(t, member, tag)
    {
      assert member in R.Record(t.tables, tag).pair;
      if tag in s.tables.rtt && member in s.tables.rtt[tag].pair {
        assert Tagged(s, member, tag);
      }
    }
    forall c <- s.conns
      ensures ConnectionInv(t.conns[c])
    {
      assert ConnOk(s, c);
    }
    TablesKeepInv(s, t);
  }

  /** The peer that was found is another connection, tagged like the message. */
  lemma FoundPeerIsTagged(s: Server, cid: Cid, f: Frame, h: R.ConnectionHandler)
    requires Inv(s) && f.Good? && Tagged(s, cid, f.tag)
    requires R.Lookup(s.tables, f.tag, cid, f.hasPayload) == Ok(h)
    ensures GoodStage(s, cid, Found(f, h.queueOf))
  {
    R.LookupIsIsolated(s.tables, f.tag, cid, f.hasPayload);
    var u := R.AfterLookup(s.tables, f.tag, cid, f.hasPayload);
    assert R.RoomOf(u, f.tag, cid, h.queueOf);
    assert h.queueOf in R.Record(u, f.tag).pair;
    assert h.queueOf in s.tables.rtt[f.tag].pair;
    assert Tagged(s, h.queueOf, f.tag);
  }

  lemma LookUpKeepsInv(s: Server, cid: Cid)
    requires Inv(s) && Enabled(s, LookUp(cid))
    ensures Inv(LookUpStep(s, cid))
  {
    assert ConnOk(s, cid);
    var f := s.conns[cid].stage.frame;
    var mid := s.(tables := R.AfterLookup(s.tables, f.tag, cid, f.hasPayload));
    JoinKeepsInv(s, cid, f);
    var d := LookUpStep(s, cid).conns[cid];
    if d.stage.Found? {
      FoundPeerIsTagged(s, cid, f, R.Lookup(s.tables, f.tag, cid, f.hasPayload).value);
    }
    LocalKeepsInv(mid, cid, d);
    assert LookUpStep(s, cid) == Put(mid, cid, d);
  }

  lemma AppendKeepsOrder(out: seq<Entry>, entry: Entry)
    requires InOrder(out) && forall e <- out :: e.src == entry.src ==> e.index < entry.index
    ensures InOrder(out + [entry])
  {
    forall i | 0 <= i < |out| && out[i].src == entry.src
      ensures out[i].index < entry.index
    {
      assert out[i] in out;
    }
  }

  /** Queueing a message of an idle sender, later than all of its messages queued there before. */
  lemma AppendKeepsInv(s: Server, dst: Cid, entry: Entry)
    requires Inv(s) && dst in s.conns && EntryOk(s, dst, entry)
    requires forall e <- s.conns[dst].out :: e.src == entry.src ==> e.index < entry.index
    ensures Inv(Put(s, dst, s.conns[dst].(out := s.conns[dst].out + [entry])))
  {
    var d := s.conns[dst];
    var t := Put(s, dst, d.(out := d.out + [entry]));
    assert Grows(s, t);
    OthersStay(s, t, {dst});
    TablesStay(s, t);
    assert ConnOk(s, dst);
    forall e <- t.conns[dst].out
      ensures EntryOk(t, dst, e)
    {
      EntryStays(s, t, dst, e);
    }
    AppendKeepsOrder(d.out, entry);
    if d.stage.Found? {
      assert Evolves(s.conns[d.stage.peer], t.conns[d.stage.peer]);
    }
  }

  /** The message a connection has looked a peer up for is fit to be queued there, after all its earlier ones. */
  lemma FoundEntryIsNew(s: Server, cid: Cid)
    requires Inv(s) && Enabled(s, Enqueue(cid))
    ensures var c := s.conns[cid];
            && Authentic(s, c.stage.peer, Entry(cid, Current(c), c.stage.frame)) && cid != c.stage.peer
            && forall e <- s.conns[c.stage.peer].out :: e.src == cid ==> e.index < Current(c)
  {
    var c := s.conns[cid];
    assert ConnOk(s, cid) && ConnOk(s, c.stage.peer);
    forall e <- s.conns[c.stage.peer].out | e.src == cid
      ensures e.index < Current(c)
    {
      assert EntryOk(s, c.stage.peer, e);
    }
  }

  lemma DoneIsLocal(c: Connection)
    requires ConnectionInv(c) && c.stage.Found?
    ensures Local(c, DoneOn(c)) && DoneOn(c).stage.Idle?
  {
  }

  lemma DoneKeepsInv(s: Server, cid: Cid)
    requires Inv(s) && cid in s.conns && s.conns[cid].stage.Found?
    ensures Inv(Done(s, cid))
  {
    var c := s.conns[cid];
    assert ConnOk(s, cid);
    DoneIsLocal(c);
    LocalKeepsInv(s, cid, DoneOn(c));
  }

  /** Once its sender is done with it, the message may be queued. */
  lemma SentEntryIsOk(s: Server, cid: Cid)
    requires Inv(s) && Enabled(s, Enqueue(cid))
    ensures var c := s.conns[cid]; var mid := Done(s, cid);
            && cid != c.stage.peer
            && EntryOk(mid, c.stage.peer, Entry(cid, Current(c), c.stage.frame))
            && forall e <- mid.conns[c.stage.peer].out :: e.src == cid ==> e.index < Current(c)
  {
    FoundEntryIsNew(s, cid);
  }

  lemma ForwardKeepsInv(s: Server, cid: Cid)
    requires Inv(s) && Enabled(s, Enqueue(cid)) && Accepting(s.conns[s.conns[cid].stage.peer], s.bufferLimit)
    ensures Inv(EnqueueStep(s, cid))
  {
    var c := s.conns[cid];
    SentEntryIsOk(s, cid);
    DoneKeepsInv(s, cid);
    AppendKeepsInv(Done(s, cid), c.stage.peer, Entry(cid, Current(c), c.stage.frame));
  }

  lemma EnqueueKeepsInv(s: Server, cid: Cid)
    requires Inv(s) && Enabled(s, Enqueue(cid))
    ensures Inv(EnqueueStep(s, cid))
  {
    assert ConnOk(s, cid);
    if Accepting(s.conns[s.conns[cid].stage.peer], s.bufferLimit) {
      ForwardKeepsInv(s, cid);
    } else {
      LocalKeepsInv(s, cid, EndListening(s.conns[cid]));
    }
  }

  lemma OpenKeepsInv(s: Server, d: Connection)
    requires Inv(s) && ConnectionInv(d) && d.stage.Idle? && d.out == [] && !d.registered && !d.removed
    ensures Inv(Put(s, s.nextId, d).(nextId := s.nextId + 1))
  {
    var t := Put(s, s.nextId, d).(nextId := s.nextId + 1);
    forall cid <- s.conns
      ensures cid != s.nextId
    {
      assert ConnOk(s, cid);
    }
    assert Grows(s, t);
    OthersStay(s, t, {});
    TablesStay(s, t);
  }

  lemma RegisterKeepsInv(s: Server, cid: Cid)
    requires Inv(s) && Enabled(s, Register(cid))
    ensures Inv(Next(s, Register(cid)))
  {
    var t := Next(s, Register(cid));
    assert ConnOk(s, cid);
    forall c <- s.conns
      ensures ConnectionInv(t.conns[c])
    {
      assert ConnOk(s, c);
    }
    forall tag <- t.tables.rtt, member <- t.tables.rtt[tag].pair
      ensures Tagged(t, member, tag)
    {
      assert Tagged(s, member, tag);
    }
    TablesKeepInv(s, t);
  }

  lemma RemoveKeepsInv(s: Server, cid: Cid)
    requires Inv(s) && Enabled(s, Remove(cid))
    ensures Inv(Next(s, Remove(cid)))
  {
    var t := Next(s, Remove(cid));
    forall other <- s.tables.rtt | cid in s.tables.rtt[other].pair
      ensures s.conns[cid].limiter.tag == Some(other)
    {
      assert Tagged(s, cid, other);
    }
    R.RemovalIsComplete(s.tables, cid, s.conns[cid].limiter.tag);
    forall c <- s.conns
      ensures ConnectionInv(t.conns[c])
    {
      assert ConnOk(s, c);
    }
    forall tag <- t.tables.rtt, member <- t.tables.rtt[tag].pair
      ensures Tagged(t, member, tag)
    {
      assert Tagged(s, member, tag);
    }
    TablesKeepInv(s, t);
  }

  lemma LocalStepKeepsInv(s: Server, step: Step)
    requires Inv(s) && Enabled(s, step)
    requires step.Receive? || step.ListenEnds? || step.Egress? || step.EgressEnds? || step.IdleClose?
    ensures Inv(Next(s, step))
  {
    assert ConnOk(s, step.cid);
    var c := s.conns[step.cid];
    if step.Receive? {
      ReceiveIsLocal(c, step.frame, step.now);
    }
    var d := Next(s, step).conns[step.cid];
    assert Local(c, d);
    LocalKeepsInv(s, step.cid, d);
    assert Next(s, step) == Put(s, step.cid, d);
  }

  lemma StepKeepsInv(s: Server, step: Step)
    requires Inv(s) && Enabled(s, step)
    ensures Inv(Next(s, step))
  {
    match step
    case Open(now, ps, pc) => OpenKeepsInv(s, NewConnection(now, ps, pc));
    case Register(cid) => RegisterKeepsInv(s, cid);
    case LookUp(cid) => LookUpKeepsInv(s, cid);
    case Enqueue(cid) => EnqueueKeepsInv(s, cid);
    case Remove(cid) => RemoveKeepsInv(s, cid);
    case _ => LocalStepKeepsInv(s, step);
  }

  ghost predicate Leads(s: Server, steps: seq<Step>, t: Server)
    requires Inv(s)
    decreases |steps|
  {
    if steps == [] then s == t
    else Enabled(s, steps[0]) && (StepKeepsInv(s, steps[0]); Leads(Next(s, steps[0]), steps[1..], t))
  }

  lemma {:induction false} RunKeepsInv(s: Server, steps: seq<Step>, t: Server)
    requires Inv(s) && Leads(s, steps, t)
    ensures Inv(t)
    decreases |steps|
  {
    if steps != [] {
      StepKeepsInv(s, steps[0]);
      RunKeepsInv(Next(s, steps[0]), steps[1..], t);
    }
  }

  lemma InitialInv(s: Server)
    requires Initial(s)
    ensures Inv(s)
  {
  }

  // ---------------------------------------------------------------------------
  // Main results
  // ---------------------------------------------------------------------------

  /**
   In every reachable state each room holds one or two distinct connections, all in the table, and a
   connection is listed in no room but that of its own tag; a removed connection is listed nowhere.
   */
  lemma RoomsAreSound(s: Server, steps: seq<Step>, t: Server)
    requires Initial(s) && (InitialInv(s); Leads(s, steps, t))
    ensures forall tag <- t.tables.rtt ::
              var pair := t.tables.rtt[tag].pair;
              1 <= |pair| <= 2 && R.Distinct(pair)
              && forall cid <- pair :: cid in t.tables.ct && cid in t.conns
                                       && t.conns[cid].limiter.tag == Some(tag) && !t.conns[cid].removed
    ensures forall cid <- t.conns :: t.conns[cid].removed ==>
              cid !in t.tables.ct && forall tag <- t.tables.rtt :: cid !in t.tables.rtt[tag].pair
  {
    InitialInv(s);
    RunKeepsInv(s, steps, t);
    forall tag <- t.tables.rtt, cid <- t.tables.rtt[tag].pair
      ensures Tagged(t, cid, tag) && cid in t.tables.ct && !t.conns[cid].removed
    {
    }
  }

  /** The branch that repairs a room with a dangling member is never taken. */
  lemma NoDanglingPeer(s: Server, steps: seq<Step>, t: Server, cid: Cid)
    requires Initial(s) && (InitialInv(s); Leads(s, steps, t)) && Enabled(t, LookUp(cid))
    ensures t.conns[cid].stage.frame.Good?
    ensures var f := t.conns[cid].stage.frame;
            && R.Lookup(t.tables, f.tag, cid, f.hasPayload) != Err(R.DanglingPeer)
            && match R.Lookup(t.tables, f.tag, cid, f.hasPayload)
               case Ok(h) => R.RoomOf(LookUpStep(t, cid).tables, f.tag, cid, h.queueOf)
                             && LookUpStep(t, cid).conns[cid].stage == Found(f, h.queueOf)
               case Err(_) => LookUpStep(t, cid).conns[cid].stage == Idle
  {
    InitialInv(s);
    RunKeepsInv(s, steps, t);
    assert ConnOk(t, cid);
    var f := t.conns[cid].stage.frame;
    R.LookupIsIsolated(t.tables, f.tag, cid, f.hasPayload);
  }

  /**
   Everything ever queued to a connection was sent, as it is, by another connection branded with the same
   tag, whose messages appear there in the order it sent them and none twice.
   */
  lemma ForwardingIsIsolated(s: Server, steps: seq<Step>, t: Server, dst: Cid)
    requires Initial(s) && (InitialInv(s); Leads(s, steps, t)) && dst in t.conns
    ensures forall e <- t.conns[dst].out ::
              && e.src != dst && e.src in t.conns && e.frame.Good? && e.frame.hasPayload
              && t.conns[e.src].limiter.tag == t.conns[dst].limiter.tag == Some(e.frame.tag)
              && e.index < |t.conns[e.src].received| && t.conns[e.src].received[e.index] == e.frame
    ensures InOrder(t.conns[dst].out) && t.conns[dst].taken <= |t.conns[dst].out|
  {
    InitialInv(s);
    RunKeepsInv(s, steps, t);
    assert ConnOk(t, dst);
    forall e <- t.conns[dst].out
      ensures Authentic(t, dst, e)
    {
      assert EntryOk(t, dst, e);
    }
  }

  /**
   The counter the idle checker reads never falls, and never passes the connection's message cap, which
   together with IdleChecker.dfy bounds how long any connection stays open.
   */
  lemma {:induction false} ForwardedIsCapped(s: Server, steps: seq<Step>, t: Server, cid: Cid)
    requires Inv(s) && Leads(s, steps, t) && cid in s.conns
    ensures cid in t.conns && t.conns[cid].limiter.perConnection == s.conns[cid].limiter.perConnection
    ensures s.conns[cid].forwarded <= t.conns[cid].forwarded <= t.conns[cid].limiter.total
            <= t.conns[cid].limiter.perConnection
    ensures s.conns[cid].out <= t.conns[cid].out && s.conns[cid].received <= t.conns[cid].received
    ensures s.conns[cid].cancelled ==> t.conns[cid].cancelled
    decreases |steps|
  {
    assert ConnOk(s, cid);
    if steps != [] {
      StepKeepsInv(s, steps[0]);
      StepExtends(s, steps[0], cid);
      ForwardedIsCapped(Next(s, steps[0]), steps[1..], t, cid);
    }
  }

  /** What no step takes back from a connection. */
  ghost predicate Extends(c: Connection, d: Connection) {
    && d.limiter.perConnection == c.limiter.perConnection && c.forwarded <= d.forwarded
    && c.out <= d.out && c.received <= d.received && (c.cancelled ==> d.cancelled)
  }

  /** What the step does to the two connections, and that it leaves all others. */
  lemma EnqueueParts(s: Server, cid: Cid)
    requires cid in s.conns && s.conns[cid].stage.Found? && s.conns[cid].stage.peer in s.conns
    requires s.conns[cid].stage.peer != cid
    ensures var c := s.conns[cid]; var d := s.conns[c.stage.peer]; var t := EnqueueStep(s, cid);
            && t.conns.Keys == s.conns.Keys
            && t.conns[cid] == (if Accepting(d, s.bufferLimit) then DoneOn(c) else EndListening(c))
            && t.conns[c.stage.peer] == (if Accepting(d, s.bufferLimit)
                                         then d.(out := d.out + [Entry(cid, Current(c), c.stage.frame)]) else d)
            && forall x <- s.conns :: x != cid && x != c.stage.peer ==> t.conns[x] == s.conns[x]
  {
  }

  lemma EnqueueExtends(s: Server, sender: Cid, cid: Cid)
    requires Inv(s) && Enabled(s, Enqueue(sender)) && cid in s.conns
    ensures cid in EnqueueStep(s, sender).conns && Extends(s.conns[cid], EnqueueStep(s, sender).conns[cid])
  {
    assert ConnOk(s, sender);
    EnqueueParts(s, sender);
  }

  lemma StepExtends(s: Server, step: Step, cid: Cid)
    requires Inv(s) && Enabled(s, step) && cid in s.conns
    ensures cid in Next(s, step).conns && Extends(s.conns[cid], Next(s, step).conns[cid])
  {
    if step.Enqueue? {
      EnqueueExtends(s, step.cid, cid);
    } else if step.Open? {
      assert ConnOk(s, cid);
    } else if step.cid == cid {
      OwnStepExtends(s, step);
    }
  }

  lemma ReceiveExtends(c: Connection, frame: Frame, now: int)
    ensures Extends(c, ReceiveOn(c, frame, now))
  {
  }

  lemma OwnStepExtends(s: Server, step: Step)
    requires Inv(s) && Enabled(s, step) && !step.Enqueue? && !step.Open?
    ensures Extends(s.conns[step.cid], Next(s, step).conns[step.cid])
  {
    if step.Receive? {
      ReceiveExtends(s.conns[step.cid], step.frame, step.now);
    } else if step.LookUp? {
      assert ConnOk(s, step.cid);
    }
  }
}
