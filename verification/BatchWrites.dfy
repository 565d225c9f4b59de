/**
 The repository's batched writes: `add_tracks` and `assign_tags` send multi-row statements of bounded size inside
 one transaction and reach what row-by-row writes would have reached.
 */
module BatchWrites {
  import opened Wrappers
  import opened Database

  const SQLITE_LIMIT_VARIABLE_NUMBER: nat := 1000
  const BATCH_SIZE: nat := SQLITE_LIMIT_VARIABLE_NUMBER / 6
  const SOURCE_BATCH_SIZE: nat := SQLITE_LIMIT_VARIABLE_NUMBER / 2
  const TAG_BATCH_SIZE: nat := SQLITE_LIMIT_VARIABLE_NUMBER / 2

  datatype TagAssignment = TagAssignment(trackId: int, tagIds: seq<int>)

  // ---------------------------------------------------------------------------
  // One at a time
  // ---------------------------------------------------------------------------

  /** One (track, x) pair for each of `xs`. */
  function PairsWith<T>(trackId: int, xs: seq<T>): (r: seq<(int, T)>)
    ensures |r| == |xs|
    ensures forall i :: 0 <= i < |r| ==> r[i] == (trackId, xs[i])
  {
    seq(|xs|, i requires 0 <= i < |xs| => (trackId, xs[i]))
  }

  /** `add_track_unlogged`: the row, then its sources, in one transaction. */
  function AddTrack(db: Db, t: NewTrack): Result<(Db, int), SqlError> {
    match InsertTrack(db, t)
    case Err(e) => Err(e)
    case Ok(mid) =>
      match InsertSources(mid, PairsWith(mid.trackSeq, t.sources))
      case Err(e) => Err(e)
      case Ok(done) => Ok((done, mid.trackSeq))
  }

  /** `add_track` for each track in turn, stopping at the first that fails. */
  function AddEach(db: Db, ts: seq<NewTrack>): Result<(Db, seq<int>), SqlError>
    decreases |ts|
  {
    if ts == [] then Ok((db, []))
    else match AddTrack(db, ts[0])
      case Err(e) => Err(e)
      case Ok((next, id)) =>
        match AddEach(next, ts[1..])
        case Err(e) => Err(e)
        case Ok((done, ids)) => Ok((done, [id] + ids))
  }

  // ---------------------------------------------------------------------------
  // All tracks, then all sources
  // ---------------------------------------------------------------------------

  /** Ids `from + 1`, ..., `from + n`. */
  function Consecutive(from: int, n: nat): (r: seq<int>)
    ensures |r| == n && forall i :: 0 <= i < n ==> r[i] == from + 1 + i
  {
    seq(n, i => from + 1 + i)
  }

  function AllSources(ts: seq<NewTrack>, ids: seq<int>): seq<(int, Url)>
    requires |ts| == |ids|
  {
    if ts == [] then [] else PairsWith(ids[0], ts[0].sources) + AllSources(ts[1..], ids[1..])
  }

  function AddBatch(db: Db, ts: seq<NewTrack>): Result<(Db, seq<int>), SqlError> {
    var ids := Consecutive(db.trackSeq, |ts|);
    match InsertTracks(db, ts)
    case Err(e) => Err(e)
    case Ok(mid) =>
      match InsertSources(mid, AllSources(ts, ids))
      case Err(e) => Err(e)
      case Ok(done) => Ok((done, ids))
  }

  /** Inserting tracks neither reads nor writes sources. */
  lemma {:induction false} TracksIgnoreSources(db: Db, ts: seq<NewTrack>, sources: seq<SourceRow>, n: nat)
    ensures InsertTracks(db.(sources := sources, sourceSeq := n), ts) ==
            match InsertTracks(db, ts)
            case Err(e) => Err(e)
            case Ok(t) => Ok(t.(sources := sources, sourceSeq := n))
    decreases |ts|
  {
    if ts != [] && InsertTrack(db, ts[0]).Ok? {
      TracksIgnoreSources(InsertTrack(db, ts[0]).value, ts[1..], sources, n);
    }
  }

  /** Inserting sources of tracks that are there does not depend on what other tracks are there. */
  lemma {:induction false} SourcesIgnoreOtherTracks(db: Db, pairs: seq<(int, Url)>, tracks: seq<TrackRow>, n: nat)
    requires forall p <- pairs :: HasTrack(db.tracks, p.0) && HasTrack(tracks, p.0)
    ensures InsertSources(db.(tracks := tracks, trackSeq := n), pairs) ==
            match InsertSources(db, pairs)
            case Err(e) => Err(e)
            case Ok(t) => Ok(t.(tracks := tracks, trackSeq := n))
    ensures InsertSources(db, pairs).Ok? ==>
              var t := InsertSources(db, pairs).value;
              t == db.(sources := t.sources, sourceSeq := t.sourceSeq)
    decreases |pairs|
  {
    if pairs != [] {
      assert pairs[0] in pairs;
      assert forall p <- pairs[1..] :: p in pairs;
      if InsertSource(db, pairs[0].0, pairs[0].1).Ok? {
        SourcesIgnoreOtherTracks(InsertSource(db, pairs[0].0, pairs[0].1).value, pairs[1..], tracks, n);
      }
    }
  }

  /** The two orders agree on success, tables and ids; when one fails, so does the other. */
  predicate SameOutcome(x: Result<(Db, seq<int>), SqlError>, y: Result<(Db, seq<int>), SqlError>) {
    x.Ok? == y.Ok? && (x.Ok? ==> x.value == y.value)
  }

  /**
   Inserting all tracks and then all their sources does the same as inserting each track with its sources:
   the same rows under the same ids, each source at its own track, and success on exactly the same inputs.
   */
  lemma {:induction false} BatchEqualsOneByOne(db: Db, ts: seq<NewTrack>)
    ensures SameOutcome(AddBatch(db, ts), AddEach(db, ts))
    decreases |ts|
  {
    if ts == [] {
      assert InsertSources(db, []) == Ok(db);
      assert Consecutive(db.trackSeq, 0) == [];
    } else if InsertTrack(db, ts[0]).Ok? {
      var d := InsertTrack(db, ts[0]).value;
      var ids := Consecutive(db.trackSeq, |ts|);
      assert ids[1..] == Consecutive(d.trackSeq, |ts| - 1);
      var mine := PairsWith(d.trackSeq, ts[0].sources);
      assert AllSources(ts, ids) == mine + AllSources(ts[1..], ids[1..]);
      assert d.tracks[|d.tracks| - 1] in d.tracks;
      SourcesIgnoreOtherTracks(d, mine, d.tracks, d.trackSeq);
      if InsertTracks(d, ts[1..]).Ok? {
        var all := InsertTracks(d, ts[1..]).value;
        InsertedIds(d, ts[1..]);
        assert d.tracks[|d.tracks| - 1] in all.tracks by {
          assert all.tracks[|d.tracks| - 1] == d.tracks[|d.tracks| - 1];
        }
        SourcesIgnoreOtherTracks(d, mine, all.tracks, all.trackSeq);
        assert d.(tracks := all.tracks, trackSeq := all.trackSeq) == all;
        InsertSourcesConcat(all, mine, AllSources(ts[1..], ids[1..]));
      }
      if InsertSources(d, mine).Ok? {
        var e := InsertSources(d, mine).value;
        TracksIgnoreSources(d, ts[1..], e.sources, e.sourceSeq);
        assert e == d.(sources := e.sources, sourceSeq := e.sourceSeq);
        BatchEqualsOneByOne(e, ts[1..]);
        assert ids == [d.trackSeq] + ids[1..];
      }
    }
  }

  // ---------------------------------------------------------------------------
  // Tags
  // ---------------------------------------------------------------------------

  /** The (track, tag) pairs of all assignments, in order. */
  function Flatten(assignments: seq<TagAssignment>): seq<(int, int)> {
    if assignments == [] then []
    else PairsWith(assignments[0].trackId, assignments[0].tagIds) + Flatten(assignments[1..])
  }

  /** `assign_tag` for every tag of one track in turn. */
  function AssignEachTag(db: Db, trackId: int, tagIds: seq<int>, burn: bool): Result<Db, SqlError>
    decreases |tagIds|
  {
    if tagIds == [] then Ok(db)
    else match InsertOrIgnoreAssignment(db, trackId, tagIds[0], burn)
      case Err(e) => Err(e)
      case Ok(next) => AssignEachTag(next, trackId, tagIds[1..], burn)
  }

  function AssignEach(db: Db, assignments: seq<TagAssignment>, burn: bool): Result<Db, SqlError>
    decreases |assignments|
  {
    if assignments == [] then Ok(db)
    else match AssignEachTag(db, assignments[0].trackId, assignments[0].tagIds, burn)
      case Err(e) => Err(e)
      case Ok(next) => AssignEach(next, assignments[1..], burn)
  }

  lemma {:induction false} TagBatchOfOne(db: Db, trackId: int, tagIds: seq<int>, burn: bool)
    ensures InsertOrIgnoreAssignments(db, PairsWith(trackId, tagIds), burn) == AssignEachTag(db, trackId, tagIds, burn)
    decreases |tagIds|
  {
    if tagIds != [] {
      assert PairsWith(trackId, tagIds)[1..] == PairsWith(trackId, tagIds[1..]);
      var first := InsertOrIgnoreAssignment(db, trackId, tagIds[0], burn);
      if first.Ok? {
        TagBatchOfOne(first.value, trackId, tagIds[1..], burn);
      }
    }
  }

  /** Assigning all pairs in one go does the same as `assign_tag` pair by pair, in order. */
  lemma {:induction false} TagBatchEqualsOneByOne(db: Db, assignments: seq<TagAssignment>, burn: bool)
    ensures InsertOrIgnoreAssignments(db, Flatten(assignments), burn) == AssignEach(db, assignments, burn)
    decreases |assignments|
  {
    if assignments != [] {
      var a := assignments[0];
      InsertAssignmentsConcat(db, PairsWith(a.trackId, a.tagIds), Flatten(assignments[1..]), burn);
      TagBatchOfOne(db, a.trackId, a.tagIds, burn);
      var first := AssignEachTag(db, a.trackId, a.tagIds, burn);
      if first.Ok? {
        TagBatchEqualsOneByOne(first.value, assignments[1..], burn);
      }
    }
  }
}
