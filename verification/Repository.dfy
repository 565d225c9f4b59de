/**
 The repository object: what its writing methods do to the database.

 A method that works in a transaction changes a copy and stores it back on commit, so leaving early rolls back.
 `fails(k)` says that the k-th statement of the call, counted from 0, is refused with an I/O error.
 `statements` logs how many values each statement bound.
 */
module Repository {
  import opened Wrappers
  import opened Database
  import opened BatchWrites
  import opened ListeningLedger
  import opened RepositoryRuns
  import opened Sorting
  import TrackSources

  function Min(a: nat, b: nat): nat { if a < b then a else b }

  ghost predicate WithinLimit(statements: seq<nat>) {
    forall n <- statements :: n <= SQLITE_LIMIT_VARIABLE_NUMBER
  }

  /** How many values these statements bound in all. */
  function Bound(statements: seq<nat>): nat {
    if statements == [] then 0 else Bound(statements[..|statements| - 1]) + statements[|statements| - 1]
  }

  lemma BoundSnoc(statements: seq<nat>, n: nat)
    ensures Bound(statements + [n]) == Bound(statements) + n
  {
    assert (statements + [n])[..|statements|] == statements;
  }

  /** What a call did to the database is one step of a run, refused if it returned an error. */
  ghost predicate IsStep(before: Db, call: Call, failed: bool, env: Env, after: Db) {
    after == Step(before, Attempt(call, failed), env)
  }

  class SqliteRepository {
    var db: Db
    var statements: seq<nat>

    constructor ()
      ensures db == EMPTY && statements == []
    {
      db, statements := EMPTY, [];
    }

    method LogStatement(n: nat)
      requires n <= SQLITE_LIMIT_VARIABLE_NUMBER
      modifies this`statements
      ensures WithinLimit(old(statements)) ==> WithinLimit(statements)
      ensures Bound(statements) == Bound(old(statements)) + n
    {
      BoundSnoc(statements, n);
      statements := statements + [n];
    }

    /** `add_track` builds its log message from the first source before anything else. */
    method AddOneTrack(t: NewTrack, fails: nat -> bool) returns (r: Result<int, SqlError>)
      modifies this
      ensures r.Err? ==> db == old(db)
      ensures t.sources == [] ==> r == Err(Panic)
      ensures r.Ok? ==> AddTrack(old(db), t) == Ok((db, r.value))
      ensures (forall k :: !fails(k)) && t.sources != [] ==> r.Ok? == AddTrack(old(db), t).Ok?
      ensures forall env: Env :: IsStep(old(db), AddTrackCall(t), r.Err?, env, db)
    {
      if t.sources == [] {
        return Err(Panic);
      }
      if fails(0) {
        return Err(IoError);
      }
      var row := InsertTrack(db, t);
      if row.Err? {
        return Err(row.error);
      }
      var tx, trackId := row.value, row.value.trackSeq;
      ghost var pairs := PairsWith(trackId, t.sources);
      for i := 0 to |t.sources|
        invariant InsertSources(row.value, pairs[..i]) == Ok(tx)
        invariant db == old(db)
      {
        if fails(i + 1) {
          return Err(IoError);
        }
        var one := InsertSource(tx, trackId, t.sources[i]);
        StepSources(row.value, pairs, i, i + 1);
        assert pairs[i..i + 1] == [(trackId, t.sources[i])];
        if one.Err? {
          return Err(one.error);
        }
        tx := one.value;
      }
      assert pairs[..|pairs|] == pairs;
      if fails(|t.sources| + 1) {
        return Err(IoError);
      }
      db := tx;
      return Ok(trackId);
    }

    method AddTracks(ts: seq<NewTrack>, fails: nat -> bool) returns (r: Result<seq<int>, SqlError>)
      modifies this
      ensures r.Err? ==> db == old(db)
      ensures r.Ok? ==> AddEach(old(db), ts) == Ok((db, r.value))
      ensures (forall k :: !fails(k)) ==> r.Ok? == AddEach(old(db), ts).Ok?
      ensures forall env: Env :: IsStep(old(db), AddTracksCall(ts), r.Err?, env, db)
      ensures WithinLimit(old(statements)) ==> WithinLimit(statements)
      ensures r.Ok? ==> |r.value| == |ts| && Bound(statements) == Bound(old(statements)) + 6 * |ts|
                                                                 + 2 * |AllSources(ts, r.value)|
    {
      BatchEqualsOneByOne(db, ts);
      var rows, ids, done := AddRows(ts, fails);
      if rows.Err? {
        return Err(rows.error);
      }
      r := AddSources(rows.value, ts, ids, done, fails);
    }

    /** The first half of `add_tracks`: the rows in batches; `done` statements were sent. */
    method AddRows(ts: seq<NewTrack>, fails: nat -> bool)
      returns (r: Result<Db, SqlError>, ids: seq<int>, done: nat)
      modifies this`statements
      ensures r.Ok? ==> r == InsertTracks(db, ts) && ids == Consecutive(db.trackSeq, |ts|)
      ensures (forall k :: !fails(k)) ==> r.Ok? == InsertTracks(db, ts).Ok?
      ensures WithinLimit(old(statements)) ==> WithinLimit(statements)
      ensures r.Ok? ==> Bound(statements) == Bound(old(statements)) + 6 * |ts|
    {
      var tx := db;
      ids, done := [], 0;
      var i := 0;
      while i < |ts|
        invariant 0 <= i <= |ts|
        invariant InsertTracks(db, ts[..i]) == Ok(tx)
        invariant ids == Consecutive(db.trackSeq, i)
        invariant WithinLimit(old(statements)) ==> WithinLimit(statements)
        invariant Bound(statements) == Bound(old(statements)) + 6 * i
      {
        var next := Min(i + BATCH_SIZE, |ts|);
        var chunk := ts[i..next];
        var inserted := InsertTracks(tx, chunk);
        StepTracks(db, ts, i, next);
        LogStatement(6 * |chunk|);
        if fails(done) {
          return Err(IoError), ids, done;
        }
        if inserted.Err? {
          return Err(inserted.error), ids, done;
        }
        tx := inserted.value;
        done := done + 1;
        ids := AppendIds(ids, tx.trackSeq, |chunk|, db.trackSeq);
        i := next;
      }
      assert ts[..|ts|] == ts;
      r := Ok(tx);
    }

    /** The ids of the `n` rows just inserted, counted back from the last one's. */
    static method AppendIds(before: seq<int>, lastId: int, n: nat, ghost from: int) returns (ids: seq<int>)
      requires before == Consecutive(from, |before|) && lastId == from + |before| + n
      ensures ids == Consecutive(from, |before| + n)
    {
      ids := before;
      var left := n;
      while left > 0
        invariant 0 <= left <= n
        invariant ids == Consecutive(from, |before| + n - left)
      {
        left := left - 1;
        ids := ids + [lastId - left];
      }
    }

    /** The second half of `add_tracks`: all sources in batches, then commit. */
    method AddSources(tracksIn: Db, ts: seq<NewTrack>, ids: seq<int>, done: nat, fails: nat -> bool)
      returns (r: Result<seq<int>, SqlError>)
      requires |ts| == |ids|
      modifies this
      ensures r.Err? ==> db == old(db)
      ensures r.Ok? ==> r.value == ids && InsertSources(tracksIn, AllSources(ts, ids)) == Ok(db)
      ensures (forall k :: !fails(k)) ==> r.Ok? == InsertSources(tracksIn, AllSources(ts, ids)).Ok?
      ensures WithinLimit(old(statements)) ==> WithinLimit(statements)
      ensures r.Ok? ==> Bound(statements) == Bound(old(statements)) + 2 * |AllSources(ts, ids)|
    {
      var tx, k := tracksIn, done;
      var all := AllSources(ts, ids);
      var i := 0;
      while i < |all|
        invariant 0 <= i <= |all|
        invariant InsertSources(tracksIn, all[..i]) == Ok(tx)
        invariant db == old(db) && (WithinLimit(old(statements)) ==> WithinLimit(statements))
        invariant Bound(statements) == Bound(old(statements)) + 2 * i
      {
        var next := Min(i + SOURCE_BATCH_SIZE, |all|);
        var inserted := InsertSources(tx, all[i..next]);
        StepSources(tracksIn, all, i, next);
        LogStatement(2 * (next - i));
        if fails(k) {
          return Err(IoError);
        }
        if inserted.Err? {
          return Err(inserted.error);
        }
        tx := inserted.value;
        k := k + 1;
        i := next;
      }
      assert all[..|all|] == all;
      if fails(k) {
        return Err(IoError);
      }
      db := tx;
      return Ok(ids);
    }

    method AssignTag(trackId: int, tagId: int, burn: bool, fails: nat -> bool) returns (r: Result<(), SqlError>)
      modifies this
      ensures r.Err? ==> db == old(db)
      ensures r.Ok? ==> InsertOrIgnoreAssignment(old(db), trackId, tagId, burn) == Ok(db)
      ensures !fails(0) ==> r.Ok? == InsertOrIgnoreAssignment(old(db), trackId, tagId, burn).Ok?
      ensures forall env: Env :: env.burn == burn ==> IsStep(old(db), AssignTagCall(trackId, tagId), r.Err?, env, db)
    {
      if fails(0) {
        return Err(IoError);
      }
      match InsertOrIgnoreAssignment(db, trackId, tagId, burn) {
        case Err(e) => return Err(e);
        case Ok(next) =>
          db := next;
          return Ok(());
      }
    }

    method AssignTags(assignments: seq<TagAssignment>, burn: bool, fails: nat -> bool) returns (r: Result<(), SqlError>)
      modifies this
      ensures r.Err? ==> db == old(db)
      ensures r.Ok? ==> AssignEach(old(db), assignments, burn) == Ok(db)
      ensures (forall k :: !fails(k)) ==> r.Ok? == AssignEach(old(db), assignments, burn).Ok?
      ensures forall env: Env :: env.burn == burn ==> IsStep(old(db), AssignTagsCall(assignments), r.Err?, env, db)
      ensures WithinLimit(old(statements)) ==> WithinLimit(statements)
      ensures r.Ok? ==> Bound(statements) == Bound(old(statements)) + 2 * |Flatten(assignments)|
    {
      TagBatchEqualsOneByOne(db, assignments, burn);
      var tx, k := db, 0;
      var pairs := Flatten(assignments);
      var i := 0;
      while i < |pairs|
        invariant 0 <= i <= |pairs|
        invariant InsertOrIgnoreAssignments(db, pairs[..i], burn) == Ok(tx)
        invariant db == old(db) && (WithinLimit(old(statements)) ==> WithinLimit(statements))
        invariant Bound(statements) == Bound(old(statements)) + 2 * i
      {
        var next := Min(i + TAG_BATCH_SIZE, |pairs|);
        var inserted := InsertOrIgnoreAssignments(tx, pairs[i..next], burn);
        StepAssignments(db, pairs, i, next, burn);
        LogStatement(2 * (next - i));
        if fails(k) {
          return Err(IoError);
        }
        if inserted.Err? {
          return Err(inserted.error);
        }
        tx := inserted.value;
        k := k + 1;
        i := next;
      }
      assert pairs[..|pairs|] == pairs;
      if fails(k) {
        return Err(IoError);
      }
      db := tx;
      return Ok(());
    }

    method AddListenedSeconds(trackId: int, seconds: int, date: Date, fails: nat -> bool)
      returns (r: Result<(), SqlError>)
      modifies this
      ensures r.Err? ==> db == old(db)
      ensures r.Ok? ==> Credit(old(db), trackId, seconds, date) == Ok(db)
      ensures (forall k :: !fails(k)) ==> r.Ok? == HasTrack(old(db).tracks, trackId)
      ensures forall env: Env :: IsStep(old(db), AddListenedSecondsCall(trackId, seconds, date), r.Err?, env, db)
    {
      CreditedIds(db.tracks, trackId, seconds);
      if fails(0) {
        return Err(IoError);
      }
      var tx := db.(tracks := AddToTrack(db.tracks, trackId, seconds));
      if fails(1) {
        return Err(IoError);
      }
      if !HasTrack(tx.tracks, trackId) {
        return Err(ForeignKey);
      }
      tx := tx.(daily := Upsert(tx.daily, date, trackId, seconds));
      if fails(2) {
        return Err(IoError);
      }
      db := tx;
      return Ok(());
    }

    /** Five reads, the archive row, the delete with its cascades, the commit. */
    method DeleteTrack(id: int, rank: Date -> int, fails: nat -> bool) returns (r: Result<(), SqlError>)
      modifies this
      ensures r.Err? ==> db == old(db)
      ensures r.Ok? ==> Delete(old(db), id, rank) == Ok(db)
      ensures (forall k :: !fails(k)) ==> r.Ok? == HasTrack(old(db).tracks, id)
      ensures forall env: Env :: env.rank == rank ==> IsStep(old(db), DeleteTrackCall(id), r.Err?, env, db)
    {
      if fails(0) {
        return Err(IoError);
      }
      if !HasTrack(db.tracks, id) {
        return Err(RowNotFound);
      }
      var track := Find(db.tracks, id);
      if fails(1) || fails(2) || fails(3) || fails(4) {
        return Err(IoError);
      }
      var urls := Urls(TrackSources.SourcesFor(db.sources, id));
      var tagIds := TagIds(SortBy(AssignmentsOf(db.assignments, id), ByTag));
      var daily := SortBy(DailyOf(db.daily, id), (d: DailyRow) => rank(d.date));
      if fails(5) {
        return Err(IoError);
      }
      var tx := db.(removed := db.removed + [Archive(track, urls, tagIds, daily)]);
      if fails(6) {
        return Err(IoError);
      }
      tx := tx.(tracks := TracksWithout(tx.tracks, id),
                sources := SourcesWithout(tx.sources, id),
                assignments := AssignmentsWithout(tx.assignments, id),
                daily := DailyWithout(tx.daily, id));
      if fails(7) {
        return Err(IoError);
      }
      db := tx;
      return Ok(());
    }
  }

  /** One more chunk of a run of rows that went in so far, and what the rest can still do. */
  lemma StepTracks(db: Db, ts: seq<NewTrack>, i: nat, j: nat)
    requires i <= j <= |ts| && InsertTracks(db, ts[..i]).Ok?
    ensures InsertTracks(InsertTracks(db, ts[..i]).value, ts[i..j]) == InsertTracks(db, ts[..j])
    ensures InsertTracks(db, ts[..j]).Err? ==> InsertTracks(db, ts).Err?
    ensures InsertTracks(db, ts[..j]).Ok? ==> InsertTracks(db, ts[..j]).value.trackSeq == db.trackSeq + j
  {
    assert ts[..j] == ts[..i] + ts[i..j] && ts == ts[..j] + ts[j..];
    InsertTracksConcat(db, ts[..i], ts[i..j]);
    InsertTracksConcat(db, ts[..j], ts[j..]);
    if InsertTracks(db, ts[..j]).Ok? {
      InsertedIds(db, ts[..j]);
    }
  }

  lemma StepSources(db: Db, pairs: seq<(int, Url)>, i: nat, j: nat)
    requires i <= j <= |pairs| && InsertSources(db, pairs[..i]).Ok?
    ensures InsertSources(InsertSources(db, pairs[..i]).value, pairs[i..j]) == InsertSources(db, pairs[..j])
    ensures InsertSources(db, pairs[..j]).Err? ==> InsertSources(db, pairs).Err?
  {
    assert pairs[..j] == pairs[..i] + pairs[i..j] && pairs == pairs[..j] + pairs[j..];
    InsertSourcesConcat(db, pairs[..i], pairs[i..j]);
    InsertSourcesConcat(db, pairs[..j], pairs[j..]);
  }

  lemma StepAssignments(db: Db, pairs: seq<(int, int)>, i: nat, j: nat, burn: bool)
    requires i <= j <= |pairs| && InsertOrIgnoreAssignments(db, pairs[..i], burn).Ok?
    ensures InsertOrIgnoreAssignments(InsertOrIgnoreAssignments(db, pairs[..i], burn).value, pairs[i..j], burn)
            == InsertOrIgnoreAssignments(db, pairs[..j], burn)
    ensures InsertOrIgnoreAssignments(db, pairs[..j], burn).Err? ==> InsertOrIgnoreAssignments(db, pairs, burn).Err?
  {
    assert pairs[..j] == pairs[..i] + pairs[i..j] && pairs == pairs[..j] + pairs[j..];
    InsertAssignmentsConcat(db, pairs[..i], pairs[i..j], burn);
    InsertAssignmentsConcat(db, pairs[..j], pairs[j..], burn);
  }
}
