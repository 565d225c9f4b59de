/**
 The signalling server's shared tables: which connections exist, and which one or two of them
 share a routing tag.  Every method runs under the one lock, so each is one atomic step.
 */
module RoutingTable {
  import opened Wrappers

  type Tag = string
  type Cid = nat

  /** The sending end of a connection's queue. */
  datatype ConnectionHandler = ConnectionHandler(queueOf: Cid)

  datatype RoutingRecord = RoutingRecord(pair: seq<Cid>) {
    predicate Contains(cid: Cid) { cid in pair }

    predicate IsFull() { |pair| >= 2 }

    function Add(cid: Cid): RoutingRecord {
      if !Contains(cid) && !IsFull() then RoutingRecord(pair + [cid]) else this
    }

    /** The first listed connection that is not `cid`. */
    function Other(cid: Cid): Option<Cid> {
      OtherIn(pair, cid)
    }

    function Remove(cid: Cid): RoutingRecord {
      RoutingRecord(Without(pair, cid))
    }
  }

  function OtherIn(pair: seq<Cid>, cid: Cid): (r: Option<Cid>)
    ensures r.None? ==> forall c <- pair :: c == cid
    ensures r.Some? ==> r.value in pair && r.value != cid
  {
    if pair == [] then None
    else if pair[0] != cid then Some(pair[0])
    else
      assert pair == [pair[0]] + pair[1..];
      OtherIn(pair[1..], cid)
  }

  function Without(pair: seq<Cid>, cid: Cid): (r: seq<Cid>)
    ensures |r| <= |pair|
    ensures forall c :: c in r <==> c in pair && c != cid
  {
    if pair == [] then []
    else
      assert pair == [pair[0]] + pair[1..];
      if pair[0] == cid then Without(pair[1..], cid) else [pair[0]] + Without(pair[1..], cid)
  }

  lemma {:induction false} WithoutKeepsDistinct(pair: seq<Cid>, cid: Cid)
    requires Distinct(pair)
    ensures Distinct(Without(pair, cid))
  {
    if pair != [] {
      WithoutKeepsDistinct(pair[1..], cid);
      assert pair[0] !in pair[1..];
    }
  }

  predicate Distinct(pair: seq<Cid>) {
    forall i, j :: 0 <= i < j < |pair| ==> pair[i] != pair[j]
  }

  datatype Tables = Tables(rtt: map<Tag, RoutingRecord>, ct: map<Cid, ConnectionHandler>)

  datatype Refusal = NotFound | Full | RecordOnly | NoPeer | DanglingPeer

  type Routed = Result<ConnectionHandler, Refusal>

  const EMPTY := Tables(map[], map[])

  function Record(t: Tables, tag: Tag): RoutingRecord {
    if tag in t.rtt then t.rtt[tag] else RoutingRecord([])
  }

  function RecordConnection(t: Tables, cid: Cid, h: ConnectionHandler): Tables {
    t.(ct := t.ct[cid := h])
  }

  /** The answer of `record_rtr_and_get_forwarding_queue`. */
  function Lookup(t: Tables, tag: Tag, cid: Cid, hasPayload: bool): Routed {
    var r := Record(t, tag);
    if cid !in t.ct then Err(NotFound)
    else if r.IsFull() && !r.Contains(cid) then Err(Full)
    else if !hasPayload then Err(RecordOnly)
    else match r.Add(cid).Other(cid)
      case None => Err(NoPeer)
      case Some(peer) => if peer in t.ct then Ok(t.ct[peer]) else Err(DanglingPeer)
  }

  /** The tables it leaves behind. */
  function AfterLookup(t: Tables, tag: Tag, cid: Cid, hasPayload: bool): Tables {
    var r := Record(t, tag);
    if cid !in t.ct then t
    else if r.IsFull() && !r.Contains(cid) then t
    else
      var joined := r.Add(cid);
      var peer := joined.Other(cid);
      if hasPayload && peer.Some? && peer.value !in t.ct then
        t.(rtt := t.rtt[tag := joined.Remove(peer.value)])
      else
        t.(rtt := t.rtt[tag := joined])
  }

  function RemoveRecordsFor(t: Tables, cid: Cid, tag: Option<Tag>): Tables {
    var u := t.(ct := t.ct - {cid});
    if tag.None? || tag.value !in u.rtt then u
    else
      var r := u.rtt[tag.value].Remove(cid);
      u.(rtt := if r.pair == [] then u.rtt - {tag.value} else u.rtt[tag.value := r])
  }

  /** Rooms hold one or two distinct connections, all of them known. */
  ghost predicate WellFormed(t: Tables) {
    && (forall tag <- t.rtt :: 1 <= |t.rtt[tag].pair| <= 2 && Distinct(t.rtt[tag].pair))
    && (forall tag <- t.rtt, cid <- t.rtt[tag].pair :: cid in t.ct)
    && (forall cid <- t.ct :: t.ct[cid].queueOf == cid)
  }

  /** In a room of one or two, the other one. */
  lemma OtherOfTwo(pair: seq<Cid>, cid: Cid)
    requires 1 <= |pair| <= 2 && Distinct(pair) && cid in pair
    ensures match OtherIn(pair, cid)
            case None => pair == [cid]
            case Some(peer) => pair == [cid, peer] || pair == [peer, cid]
  {
    assert pair[0] in pair && (|pair| == 2 ==> pair[1] in pair);
  }

  /** Joining a room leaves one or two distinct members, the caller among them, and nobody leaves. */
  lemma JoinedRoom(r: RoutingRecord, cid: Cid)
    requires |r.pair| <= 2 && Distinct(r.pair) && (r.Contains(cid) || !r.IsFull())
    ensures var j := r.Add(cid);
            && 1 <= |j.pair| <= 2 && Distinct(j.pair)
            && (forall c :: c in j.pair <==> c in r.pair || c == cid)
            && match j.Other(cid)
               case None => j.pair == [cid]
               case Some(peer) => j.pair == [cid, peer] || j.pair == [peer, cid]
  {
    var j := r.Add(cid);
    if r.Contains(cid) {
      assert j == r && cid in r.pair;
    } else {
      assert j.pair == r.pair + [cid] && cid in j.pair;
    }
    OtherOfTwo(j.pair, cid);
  }

  /** A room's caller and the peer it would be forwarded to. */
  ghost predicate RoomOf(u: Tables, tag: Tag, cid: Cid, peer: Cid) {
    tag in u.rtt && cid != peer && (u.rtt[tag].pair == [cid, peer] || u.rtt[tag].pair == [peer, cid])
  }

  lemma JoinKeepsWellFormed(t: Tables, tag: Tag, cid: Cid)
    requires WellFormed(t) && cid in t.ct && (Record(t, tag).Contains(cid) || !Record(t, tag).IsFull())
    ensures WellFormed(t.(rtt := t.rtt[tag := Record(t, tag).Add(cid)]))
  {
    var r := Record(t, tag);
    JoinedRoom(r, cid);
    forall c <- r.Add(cid).pair
      ensures c in t.ct
    {
      assert c == cid || c in t.rtt[tag].pair;
    }
  }

  /** The tables after a lookup: as they were, or with the caller let in. */
  lemma LookupJoins(t: Tables, tag: Tag, cid: Cid, hasPayload: bool)
    requires WellFormed(t)
    ensures var r := Record(t, tag);
            AfterLookup(t, tag, cid, hasPayload)
            == if cid in t.ct && (r.Contains(cid) || !r.IsFull()) then t.(rtt := t.rtt[tag := r.Add(cid)]) else t
  {
    var r := Record(t, tag);
    if cid in t.ct && (r.Contains(cid) || !r.IsFull()) {
      JoinedRoom(r, cid);
      var peer := r.Add(cid).Other(cid);
      assert peer.Some? ==> peer.value in r.pair;
    }
  }

  /**
   On well-formed tables a lookup changes at most the room of that tag, and there only lets the caller in;
   it never finds a dangling peer; and it hands out exactly the queue of the other member of that room.
   */
  lemma LookupIsIsolated(t: Tables, tag: Tag, cid: Cid, hasPayload: bool)
    requires WellFormed(t)
    ensures var u := AfterLookup(t, tag, cid, hasPayload);
            && WellFormed(u) && u.ct == t.ct
            && (u == t || (cid in t.ct && u.rtt == t.rtt[tag := Record(t, tag).Add(cid)]))
            && (forall c :: c in Record(u, tag).pair ==> c in Record(t, tag).pair || (c == cid && cid in t.ct))
            && match Lookup(t, tag, cid, hasPayload)
               case Ok(h) => hasPayload && RoomOf(u, tag, cid, h.queueOf)
               case Err(why) => why != DanglingPeer
  {
    var r := Record(t, tag);
    LookupJoins(t, tag, cid, hasPayload);
    if cid in t.ct && (r.Contains(cid) || !r.IsFull()) {
      JoinKeepsWellFormed(t, tag, cid);
      JoinedRoom(r, cid);
      var peer := r.Add(cid).Other(cid);
      assert peer.Some? ==> peer.value in r.pair;
    }
  }

  /** The room already lists two connections other than the caller. */
  ghost predicate HoldsTwoOthers(t: Tables, tag: Tag, cid: Cid) {
    tag in t.rtt && exists a <- t.rtt[tag].pair, b <- t.rtt[tag].pair :: a != b && a != cid && b != cid
  }

  /** Who is refused: a caller that is not registered, and one whose room lists two others.  Nothing changes then. */
  lemma RefusedIff(t: Tables, tag: Tag, cid: Cid, hasPayload: bool)
    requires WellFormed(t)
    ensures Lookup(t, tag, cid, hasPayload) == Err(NotFound) <==> cid !in t.ct
    ensures Lookup(t, tag, cid, hasPayload) == Err(Full) <==> cid in t.ct && HoldsTwoOthers(t, tag, cid)
    ensures cid !in t.ct || HoldsTwoOthers(t, tag, cid) ==> AfterLookup(t, tag, cid, hasPayload) == t
  {
    if tag in t.rtt {
      var pair := t.rtt[tag].pair;
      if |pair| == 2 && cid !in pair {
        assert pair[0] in pair && pair[1] in pair;
      }
    }
  }

  /** The room has exactly these two members. */
  ghost predicate Room(t: Tables, tag: Tag, a: Cid, b: Cid) {
    a != b && tag in t.rtt && forall c :: c in t.rtt[tag].pair <==> c == a || c == b
  }

  /** In a room of two each one's lookup with a payload finds the other's queue, and no third one is let in. */
  lemma MembersFindEachOther(t: Tables, tag: Tag, a: Cid, b: Cid)
    requires WellFormed(t) && Room(t, tag, a, b)
    ensures Lookup(t, tag, a, true) == Ok(ConnectionHandler(b)) && Lookup(t, tag, b, true) == Ok(ConnectionHandler(a))
    ensures forall c, hasPayload :: c in t.ct && c != a && c != b ==> Lookup(t, tag, c, hasPayload) == Err(Full)
  {
    assert a in t.rtt[tag].pair && b in t.rtt[tag].pair;
    forall c, hasPayload | c in t.ct && c != a && c != b
      ensures Lookup(t, tag, c, hasPayload) == Err(Full)
    {
      RefusedIff(t, tag, c, hasPayload);
    }
  }

  /** No lookup, whoever makes it and under whatever tag, changes a room of two. */
  lemma LookupKeepsRoom(t: Tables, tag: Tag, a: Cid, b: Cid, other: Tag, cid: Cid, hasPayload: bool)
    requires WellFormed(t) && Room(t, tag, a, b)
    ensures Room(AfterLookup(t, other, cid, hasPayload), tag, a, b)
  {
    LookupIsIsolated(t, other, cid, hasPayload);
    if other == tag {
      assert a in t.rtt[tag].pair && b in t.rtt[tag].pair;
    }
  }

  /** One lookup: its tag, its caller, and whether the message has a payload. */
  datatype Query = Query(tag: Tag, cid: Cid, hasPayload: bool)

  function AfterQueries(t: Tables, qs: seq<Query>): Tables
    decreases |qs|
  {
    if qs == [] then t else AfterQueries(AfterLookup(t, qs[0].tag, qs[0].cid, qs[0].hasPayload), qs[1..])
  }

  lemma {:induction false} QueriesKeepRoom(t: Tables, tag: Tag, a: Cid, b: Cid, qs: seq<Query>)
    requires WellFormed(t) && Room(t, tag, a, b)
    ensures var u := AfterQueries(t, qs); WellFormed(u) && Room(u, tag, a, b)
    decreases |qs|
  {
    if qs != [] {
      var q := qs[0];
      LookupIsIsolated(t, q.tag, q.cid, q.hasPayload);
      LookupKeepsRoom(t, tag, a, b, q.tag, q.cid, q.hasPayload);
      QueriesKeepRoom(AfterLookup(t, q.tag, q.cid, q.hasPayload), tag, a, b, qs[1..]);
    }
  }

  /** The first caller under a tag finds nobody and waits in the room alone; the second joins it there. */
  lemma TwoEnter(t: Tables, tag: Tag, a: Cid, b: Cid, first: bool, second: bool)
    requires WellFormed(t) && tag !in t.rtt && a in t.ct && b in t.ct && a != b
    ensures Lookup(t, tag, a, true) == Err(NoPeer)
    ensures var u := AfterLookup(AfterLookup(t, tag, a, first), tag, b, second);
            && u == t.(rtt := u.rtt) && u.rtt.Keys == t.rtt.Keys + {tag} && Room(u, tag, a, b)
            && forall other <- t.rtt :: u.rtt[other] == t.rtt[other]
  {
    LookupIsIsolated(t, tag, a, first);
    var mid := AfterLookup(t, tag, a, first);
    assert mid.rtt[tag].pair == [a];
    LookupIsIsolated(mid, tag, b, second);
    assert AfterLookup(mid, tag, b, second).rtt[tag].pair == [a, b];
  }

  /**
   Two registered connections that each look up a tag with no room meet there; and from then on, whatever lookups are
   made by anyone, each one's lookup with a payload finds the other's queue, and every third caller is refused.
   */
  lemma TwoMeet(t: Tables, tag: Tag, a: Cid, b: Cid, first: bool, second: bool, qs: seq<Query>)
    requires WellFormed(t) && tag !in t.rtt && a in t.ct && b in t.ct && a != b
    ensures var u := AfterQueries(AfterLookup(AfterLookup(t, tag, a, first), tag, b, second), qs);
            && Room(u, tag, a, b)
            && Lookup(u, tag, a, true) == Ok(ConnectionHandler(b))
            && Lookup(u, tag, b, true) == Ok(ConnectionHandler(a))
            && forall c, hasPayload :: c in u.ct && c != a && c != b ==> Lookup(u, tag, c, hasPayload) == Err(Full)
  {
    TwoEnter(t, tag, a, b, first, second);
    LookupIsIsolated(t, tag, a, first);
    LookupIsIsolated(AfterLookup(t, tag, a, first), tag, b, second);
    var met := AfterLookup(AfterLookup(t, tag, a, first), tag, b, second);
    QueriesKeepRoom(met, tag, a, b, qs);
    MembersFindEachOther(AfterQueries(met, qs), tag, a, b);
  }

  /** Removal takes the connection out of its room and the table, and closes the room when it was the last. */
  lemma RemovalIsComplete(t: Tables, cid: Cid, tag: Option<Tag>)
    requires WellFormed(t)
    requires forall other <- t.rtt :: cid in t.rtt[other].pair ==> tag == Some(other)
    ensures var u := RemoveRecordsFor(t, cid, tag);
            && WellFormed(u) && cid !in u.ct && u.ct.Keys == t.ct.Keys - {cid}
            && (forall other <- u.rtt :: other in t.rtt
                  && forall c :: c in u.rtt[other].pair <==> c in t.rtt[other].pair && c != cid)
            && (forall other <- t.rtt :: other !in u.rtt ==> forall c <- t.rtt[other].pair :: c == cid)
  {
    if tag.Some? && tag.value in t.rtt {
      var pair := t.rtt[tag.value].pair;
      WithoutKeepsDistinct(pair, cid);
      assert Without(pair, cid) != [] ==> Without(pair, cid)[0] in Without(pair, cid);
      assert forall c <- pair :: c != cid ==> c in Without(pair, cid);
    }
  }

  class ServerState {
    var rtt: map<Tag, RoutingRecord>
    var ct: map<Cid, ConnectionHandler>

    function Value(): Tables
      reads this
    {
      Tables(rtt, ct)
    }

    constructor ()
      ensures Value() == EMPTY && WellFormed(Value())
    {
      rtt, ct := map[], map[];
    }

    method Register(cid: Cid, bundle: ConnectionHandler)
      modifies this
      ensures Value() == RecordConnection(old(Value()), cid, bundle)
    {
      ct := ct[cid := bundle];
    }

    method RecordRtrAndGetForwardingQueue(tag: Tag, cid: Cid, hasPayload: bool) returns (r: Routed)
      modifies this
      ensures r == Lookup(old(Value()), tag, cid, hasPayload)
      ensures Value() == AfterLookup(old(Value()), tag, cid, hasPayload)
    {
      if cid !in ct {
        return Err(NotFound);
      }
      ghost var before := Value();
      ghost var had := tag in rtt;
      if tag !in rtt {
        rtt := rtt[tag := RoutingRecord([])];
      }
      if rtt[tag].IsFull() && !rtt[tag].Contains(cid) {
        assert had;
        return Err(Full);
      }
      if !rtt[tag].Contains(cid) {
        rtt := rtt[tag := rtt[tag].Add(cid)];
      }
      assert rtt == before.rtt[tag := Record(before, tag).Add(cid)];
      if !hasPayload {
        return Err(RecordOnly);
      }
      match rtt[tag].Other(cid) {
        case None => return Err(NoPeer);
        case Some(peer) =>
          if peer !in ct {
            rtt := rtt[tag := rtt[tag].Remove(peer)];
            return Err(DanglingPeer);
          }
          return Ok(ct[peer]);
      }
    }

    method Unregister(cid: Cid, tag: Option<Tag>)
      modifies this
      ensures Value() == RemoveRecordsFor(old(Value()), cid, tag)
    {
      ct := ct - {cid};
      if tag == None {
        return;
      }
      if tag.value in rtt {
        var record := rtt[tag.value].Remove(cid);
        rtt := rtt[tag.value := record];
        if record.pair == [] {
          rtt := rtt - {tag.value};
        }
      }
    }
  }
}
