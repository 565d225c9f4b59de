/**
 Whole runs of repository calls from a fresh database, committed or refused, in any order.

 Listening time is conserved for every choice of tracks and of days, and the tables keep what the queries
 rely on: distinct ids, and no row of a track that is gone.
 */
module RepositoryRuns {
  import opened Wrappers
  import opened Database
  import opened BatchWrites
  import opened ListeningLedger
  import opened Sorting
  import TrackSources

  datatype TrackUpdate = TrackUpdate(
    artist: Option<string>,
    trackName: Option<string>,
    lengthSeconds: Option<int>,
    bitrateKbps: Option<int>,
    additionTime: Option<string>)

  datatype Call =
    | AddTrackCall(track: NewTrack)
    | AddTracksCall(tracks: seq<NewTrack>)
    | UpdateTrackCall(id: int, update: TrackUpdate)
    | AddTagCall(tagId: int)
    | DeleteTagCall(tagId: int)
    | AssignTagCall(trackId: int, tagId: int)
    | AssignTagsCall(assignments: seq<TagAssignment>)
    | RemoveTagCall(trackId: int, tagId: int)
    | AddSourceCall(trackId: int, url: Url)
    | RemoveSourceCall(trackId: int, url: Url)
    | EditSourceCall(trackId: int, oldUrl: Url, newUrl: Url)
    | AddListenedSecondsCall(trackId: int, seconds: int, date: Date)
    | DeleteTrackCall(id: int)

  // ---------------------------------------------------------------------------
  // The remaining statements
  // ---------------------------------------------------------------------------

  function Updated(t: TrackRow, u: TrackUpdate): TrackRow {
    t.(artist := u.artist.UnwrapOr(t.artist),
       trackName := u.trackName.UnwrapOr(t.trackName),
       lengthSeconds := if u.lengthSeconds.Some? then u.lengthSeconds else t.lengthSeconds,
       bitrateKbps := if u.bitrateKbps.Some? then u.bitrateKbps else t.bitrateKbps,
       additionTime := u.additionTime.UnwrapOr(t.additionTime))
  }

  function UpdateRows(tracks: seq<TrackRow>, id: int, u: TrackUpdate): seq<TrackRow> {
    if tracks == [] then []
    else [if tracks[0].id == id then Updated(tracks[0], u) else tracks[0]] + UpdateRows(tracks[1..], id, u)
  }

  /** `UPDATE track_info SET ... WHERE id = ?`: an unknown id updates nothing; (artist, track_name) stays UNIQUE. */
  function UpdateTrack(db: Db, id: int, u: TrackUpdate): Result<Db, SqlError> {
    if !HasTrack(db.tracks, id) then Ok(db)
    else
      var row := Updated(Find(db.tracks, id), u);
      if exists r <- db.tracks :: r.id != id && r.artist == row.artist && r.trackName == row.trackName then Err(Unique)
      else Ok(db.(tracks := UpdateRows(db.tracks, id, u)))
  }

  function WithoutTag(rows: seq<AssignmentRow>, tagId: int): seq<AssignmentRow> {
    if rows == [] then []
    else if rows[0].tagId != tagId then [rows[0]] + WithoutTag(rows[1..], tagId)
    else WithoutTag(rows[1..], tagId)
  }

  function TagsWithout(tags: seq<int>, tagId: int): seq<int> {
    if tags == [] then []
    else if tags[0] != tagId then [tags[0]] + TagsWithout(tags[1..], tagId)
    else TagsWithout(tags[1..], tagId)
  }

  function DeleteTag(db: Db, tagId: int): Db {
    db.(tags := TagsWithout(db.tags, tagId), assignments := WithoutTag(db.assignments, tagId))
  }

  function WithoutAssignment(rows: seq<AssignmentRow>, trackId: int, tagId: int): seq<AssignmentRow> {
    if rows == [] then []
    else if rows[0].trackId == trackId && rows[0].tagId == tagId then WithoutAssignment(rows[1..], trackId, tagId)
    else [rows[0]] + WithoutAssignment(rows[1..], trackId, tagId)
  }

  function WithoutSource(rows: seq<SourceRow>, trackId: int, url: Url): seq<SourceRow> {
    if rows == [] then []
    else if rows[0].trackId == trackId && rows[0].url == url then WithoutSource(rows[1..], trackId, url)
    else [rows[0]] + WithoutSource(rows[1..], trackId, url)
  }

  function RemoveSource(db: Db, trackId: int, url: Url): Db {
    db.(sources := WithoutSource(db.sources, trackId, url))
  }

  // ---------------------------------------------------------------------------
  // Runs
  // ---------------------------------------------------------------------------

  datatype Env = Env(rank: Date -> int, burn: bool)

  function Apply(db: Db, call: Call, env: Env): Result<Db, SqlError> {
    match call
    case AddTrackCall(t) =>
      if t.sources == [] then Err(Panic)
      else (match AddTrack(db, t) case Err(e) => Err(e) case Ok((next, _)) => Ok(next))
    case AddTracksCall(ts) =>
      (match AddEach(db, ts) case Err(e) => Err(e) case Ok((next, _)) => Ok(next))
    case UpdateTrackCall(id, u) => UpdateTrack(db, id, u)
    case AddTagCall(tagId) => if tagId in db.tags then Err(Unique) else Ok(db.(tags := db.tags + [tagId]))
    case DeleteTagCall(tagId) => Ok(DeleteTag(db, tagId))
    case AssignTagCall(trackId, tagId) => InsertOrIgnoreAssignment(db, trackId, tagId, env.burn)
    case AssignTagsCall(assignments) => AssignEach(db, assignments, env.burn)
    case RemoveTagCall(trackId, tagId) =>
      Ok(db.(assignments := WithoutAssignment(db.assignments, trackId, tagId)))
    case AddSourceCall(trackId, url) => InsertSource(db, trackId, url)
    case RemoveSourceCall(trackId, url) => Ok(RemoveSource(db, trackId, url))
    case EditSourceCall(trackId, oldUrl, newUrl) => InsertSource(RemoveSource(db, trackId, oldUrl), trackId, newUrl)
    case AddListenedSecondsCall(id, seconds, date) => Credit(db, id, seconds, date)
    case DeleteTrackCall(id) => Delete(db, id, env.rank)
  }

  /** A call and whether the disk refuses it somewhere on the way. */
  datatype Attempt = Attempt(call: Call, refused: bool)

  predicate Commits(db: Db, a: Attempt, env: Env) {
    !a.refused && Apply(db, a.call, env).Ok?
  }

  /** What does not commit leaves the database as it was. */
  function Step(db: Db, a: Attempt, env: Env): Db {
    if Commits(db, a, env) then Apply(db, a.call, env).value else db
  }

  function Run(db: Db, attempts: seq<Attempt>, env: Env): Db
    decreases |attempts|
  {
    if attempts == [] then db else Run(Step(db, attempts[0], env), attempts[1..], env)
  }

  function CreditOf(db: Db, a: Attempt, env: Env, who: int -> bool): int {
    match a.call
    case AddListenedSecondsCall(id, seconds, _) => if Commits(db, a, env) && who(id) then seconds else 0
    case _ => 0
  }

  function DayCreditOf(db: Db, a: Attempt, env: Env, on: (Date, int) -> bool): int {
    match a.call
    case AddListenedSecondsCall(id, seconds, date) => if Commits(db, a, env) && on(date, id) then seconds else 0
    case _ => 0
  }

  /** All seconds of the committed credits to the chosen tracks. */
  function CreditedSeconds(db: Db, attempts: seq<Attempt>, env: Env, who: int -> bool): int
    decreases |attempts|
  {
    if attempts == [] then 0
    else CreditOf(db, attempts[0], env, who) + CreditedSeconds(Step(db, attempts[0], env), attempts[1..], env, who)
  }

  function CreditedDays(db: Db, attempts: seq<Attempt>, env: Env, on: (Date, int) -> bool): int
    decreases |attempts|
  {
    if attempts == [] then 0
    else DayCreditOf(db, attempts[0], env, on) + CreditedDays(Step(db, attempts[0], env), attempts[1..], env, on)
  }

  // ---------------------------------------------------------------------------
  // The ledger over a run
  // ---------------------------------------------------------------------------

  lemma {:induction false} UpdatedRows(tracks: seq<TrackRow>, id: int, u: TrackUpdate, who: int -> bool)
    ensures var r := UpdateRows(tracks, id, u);
            && |r| == |tracks| && Live(r, who) == Live(tracks, who)
            && forall i :: 0 <= i < |r| ==> r[i].id == tracks[i].id && r[i].listenedSeconds == tracks[i].listenedSeconds
    decreases |tracks|
  {
    if tracks != [] {
      UpdatedRows(tracks[1..], id, u, who);
    }
  }

  /** Changing other columns than id and counter does not concern the ledger. */
  lemma SameCounters(db: Db, tracks: seq<TrackRow>)
    requires LedgerInv(db) && |tracks| == |db.tracks|
    requires forall i :: 0 <= i < |tracks| ==>
               tracks[i].id == db.tracks[i].id && tracks[i].listenedSeconds == db.tracks[i].listenedSeconds
    ensures LedgerInv(db.(tracks := tracks))
  {
    forall t <- tracks
      ensures 0 < t.id <= db.trackSeq && t.listenedSeconds == Listened(db.daily, DaysOf(t.id))
    {
      var i :| 0 <= i < |tracks| && tracks[i] == t;
      assert db.tracks[i] in db.tracks;
    }
    forall d <- db.daily
      ensures HasTrack(tracks, d.trackId)
    {
      assert HasTrack(db.tracks, d.trackId);
      var k :| 0 <= k < |tracks| && db.tracks[k].id == d.trackId;
      assert tracks[k] in tracks;
    }
  }

  lemma UpdateKeepsLedger(db: Db, id: int, u: TrackUpdate, who: int -> bool, on: (Date, int) -> bool)
    requires LedgerInv(db) && UpdateTrack(db, id, u).Ok?
    ensures Balanced(db, UpdateTrack(db, id, u).value, who, on)
  {
    UpdatedRows(db.tracks, id, u, who);
    if HasTrack(db.tracks, id) {
      SameCounters(db, UpdateRows(db.tracks, id, u));
    }
  }

  /** Tag statements touch tags and assignments only. */
  predicate OnlyTagsChanged(db: Db, t: Db) {
    t == db.(tags := t.tags, assignments := t.assignments, assignmentSeq := t.assignmentSeq)
  }

  lemma {:induction false} AssignEachTagOnly(db: Db, trackId: int, tagIds: seq<int>, burn: bool)
    requires AssignEachTag(db, trackId, tagIds, burn).Ok?
    ensures OnlyTagsChanged(db, AssignEachTag(db, trackId, tagIds, burn).value)
    decreases |tagIds|
  {
    if tagIds != [] {
      AssignEachTagOnly(InsertOrIgnoreAssignment(db, trackId, tagIds[0], burn).value, trackId, tagIds[1..], burn);
    }
  }

  lemma {:induction false} AssignEachOnly(db: Db, assignments: seq<TagAssignment>, burn: bool)
    requires AssignEach(db, assignments, burn).Ok?
    ensures OnlyTagsChanged(db, AssignEach(db, assignments, burn).value)
    decreases |assignments|
  {
    if assignments != [] {
      AssignEachTagOnly(db, assignments[0].trackId, assignments[0].tagIds, burn);
      var next := AssignEachTag(db, assignments[0].trackId, assignments[0].tagIds, burn).value;
      AssignEachOnly(next, assignments[1..], burn);
    }
  }

  lemma AddEachOfOne(db: Db, t: NewTrack)
    requires AddTrack(db, t).Ok?
    ensures AddEach(db, [t]).Ok? && AddEach(db, [t]).value.0 == AddTrack(db, t).value.0
  {
    var next := AddTrack(db, t).value.0;
    assert [t][1..] == [];
    assert AddEach(next, []) == Ok((next, []));
  }

  lemma AddingKeepsLedger(db: Db, call: Call, env: Env, who: int -> bool, on: (Date, int) -> bool)
    requires LedgerInv(db) && Apply(db, call, env).Ok? && (call.AddTrackCall? || call.AddTracksCall?)
    ensures Balanced(db, Apply(db, call, env).value, who, on)
  {
    if call.AddTrackCall? {
      AddEachOfOne(db, call.track);
      AddEachKeepsLedger(db, [call.track], who, on);
    } else {
      AddEachKeepsLedger(db, call.tracks, who, on);
    }
  }

  predicate IsTagCall(call: Call) {
    call.AddTagCall? || call.DeleteTagCall? || call.AssignTagCall? || call.AssignTagsCall? || call.RemoveTagCall?
  }

  predicate IsSourceCall(call: Call) {
    call.AddSourceCall? || call.RemoveSourceCall? || call.EditSourceCall?
  }

  lemma SourceCallKeepsLedger(db: Db, call: Call, env: Env, who: int -> bool, on: (Date, int) -> bool)
    requires LedgerInv(db) && Apply(db, call, env).Ok? && IsSourceCall(call)
    ensures Balanced(db, Apply(db, call, env).value, who, on)
  {
    var t := Apply(db, call, env).value;
    assert t == db.(sources := t.sources, sourceSeq := t.sourceSeq);
  }

  lemma TagCallKeepsLedger(db: Db, call: Call, env: Env, who: int -> bool, on: (Date, int) -> bool)
    requires LedgerInv(db) && Apply(db, call, env).Ok? && IsTagCall(call)
    ensures Balanced(db, Apply(db, call, env).value, who, on)
  {
    if call.AssignTagsCall? {
      AssignEachOnly(db, call.assignments, env.burn);
    }
    assert OnlyTagsChanged(db, Apply(db, call, env).value);
  }

  /** Any call, committed or refused, moves the sums by its committed credit and nothing else. */
  lemma StepKeepsLedger(db: Db, a: Attempt, env: Env, who: int -> bool, on: (Date, int) -> bool)
    requires LedgerInv(db)
    ensures var t := Step(db, a, env);
            && LedgerInv(t)
            && Seconds(t, who) == Seconds(db, who) + CreditOf(db, a, env, who)
            && DaySeconds(t, on) == DaySeconds(db, on) + DayCreditOf(db, a, env, on)
  {
    if Commits(db, a, env) {
      var call := a.call;
      if call.AddTrackCall? || call.AddTracksCall? {
        AddingKeepsLedger(db, call, env, who, on);
      } else if IsTagCall(call) {
        TagCallKeepsLedger(db, call, env, who, on);
      } else if IsSourceCall(call) {
        SourceCallKeepsLedger(db, call, env, who, on);
      } else if call.UpdateTrackCall? {
        UpdateKeepsLedger(db, call.id, call.update, who, on);
      } else if call.AddListenedSecondsCall? {
        CreditKeepsLedger(db, call.trackId, call.seconds, call.date, who, on);
      } else {
        DeleteKeepsLedger(db, call.id, env.rank, who, on);
      }
    }
  }

  lemma {:induction false} RunKeepsLedger(
    db: Db, attempts: seq<Attempt>, env: Env, who: int -> bool, on: (Date, int) -> bool)
    requires LedgerInv(db)
    ensures var t := Run(db, attempts, env);
            && LedgerInv(t)
            && Seconds(t, who) == Seconds(db, who) + CreditedSeconds(db, attempts, env, who)
            && DaySeconds(t, on) == DaySeconds(db, on) + CreditedDays(db, attempts, env, on)
    decreases |attempts|
  {
    if attempts != [] {
      StepKeepsLedger(db, attempts[0], env, who, on);
      RunKeepsLedger(Step(db, attempts[0], env), attempts[1..], env, who, on);
    }
  }

  /**
   From a fresh database, however calls are mixed and refused: each live track's counter is the sum of its days,
   and for every choice of tracks, or of days of tracks, what is live and what is archived together are exactly
   the committed credits.
   */
  lemma ListeningTimeIsConserved(attempts: seq<Attempt>, env: Env, who: int -> bool, on: (Date, int) -> bool)
    ensures var t := Run(EMPTY, attempts, env);
            && (forall r <- t.tracks :: r.listenedSeconds == Listened(t.daily, DaysOf(r.id)))
            && Live(t.tracks, who) + Archived(t.removed, who) == CreditedSeconds(EMPTY, attempts, env, who)
            && Listened(t.daily, on) + ArchivedDays(t.removed, on) == CreditedDays(EMPTY, attempts, env, on)
  {
    RunKeepsLedger(EMPTY, attempts, env, who, on);
  }

  // ---------------------------------------------------------------------------
  // What the queries rely on
  // ---------------------------------------------------------------------------

  ghost predicate SourcesInv(db: Db) {
    && Ascending(db.sources, TrackSources.SourceId)
    && (forall s <- db.sources :: s.id <= db.sourceSeq && HasTrack(db.tracks, s.trackId))
  }

  ghost predicate AssignmentsInv(db: Db) {
    forall a <- db.assignments :: HasTrack(db.tracks, a.trackId) && a.tagId in db.tags
  }

  /** Every id there was is still there. */
  ghost predicate KeepsTracks(db: Db, t: Db) {
    forall id :: HasTrack(db.tracks, id) ==> HasTrack(t.tracks, id)
  }

  ghost predicate TablesInv(db: Db) {
    SourcesInv(db) && AssignmentsInv(db)
  }

  lemma InsertSourceKeepsTables(db: Db, trackId: int, url: Url)
    requires TablesInv(db) && InsertSource(db, trackId, url).Ok?
    ensures TablesInv(InsertSource(db, trackId, url).value)
  {
    var t := InsertSource(db, trackId, url).value;
    forall i, j | 0 <= i < j < |t.sources|
      ensures t.sources[i].id < t.sources[j].id
    {
      assert i < |db.sources| && db.sources[i] in db.sources;
    }
  }

  lemma {:induction false} InsertSourcesKeepTables(db: Db, pairs: seq<(int, Url)>)
    requires TablesInv(db) && InsertSources(db, pairs).Ok?
    ensures TablesInv(InsertSources(db, pairs).value)
    decreases |pairs|
  {
    if pairs != [] {
      InsertSourceKeepsTables(db, pairs[0].0, pairs[0].1);
      InsertSourcesKeepTables(InsertSource(db, pairs[0].0, pairs[0].1).value, pairs[1..]);
    }
  }

  lemma {:induction false} AddEachKeepsTables(db: Db, ts: seq<NewTrack>)
    requires TablesInv(db) && AddEach(db, ts).Ok?
    ensures TablesInv(AddEach(db, ts).value.0)
    decreases |ts|
  {
    if ts != [] {
      var mid := InsertTrack(db, ts[0]).value;
      assert KeepsTracks(db, mid);
      InsertSourcesKeepTables(mid, PairsWith(mid.trackSeq, ts[0].sources));
      AddEachKeepsTables(AddTrack(db, ts[0]).value.0, ts[1..]);
    }
  }

  lemma {:induction false} AssignEachTagKeepsTables(db: Db, trackId: int, tagIds: seq<int>, burn: bool)
    requires TablesInv(db) && AssignEachTag(db, trackId, tagIds, burn).Ok?
    ensures TablesInv(AssignEachTag(db, trackId, tagIds, burn).value)
    decreases |tagIds|
  {
    if tagIds != [] {
      var next := InsertOrIgnoreAssignment(db, trackId, tagIds[0], burn).value;
      AssignEachTagKeepsTables(next, trackId, tagIds[1..], burn);
    }
  }

  lemma {:induction false} AssignEachKeepsTables(db: Db, assignments: seq<TagAssignment>, burn: bool)
    requires TablesInv(db) && AssignEach(db, assignments, burn).Ok?
    ensures TablesInv(AssignEach(db, assignments, burn).value)
    decreases |assignments|
  {
    if assignments != [] {
      AssignEachTagKeepsTables(db, assignments[0].trackId, assignments[0].tagIds, burn);
      var next := AssignEachTag(db, assignments[0].trackId, assignments[0].tagIds, burn).value;
      AssignEachKeepsTables(next, assignments[1..], burn);
    }
  }

  lemma SameIds(xs: seq<TrackRow>, ys: seq<TrackRow>)
    requires |xs| == |ys| && forall i :: 0 <= i < |xs| ==> xs[i].id == ys[i].id
    ensures forall id :: HasTrack(xs, id) ==> HasTrack(ys, id)
  {
    forall id | HasTrack(xs, id)
      ensures HasTrack(ys, id)
    {
      var i :| 0 <= i < |xs| && xs[i].id == id;
      assert ys[i] in ys;
    }
  }

  lemma {:induction false} TagRowsLeft(rows: seq<AssignmentRow>, tagId: int)
    ensures forall a :: a in WithoutTag(rows, tagId) <==> a in rows && a.tagId != tagId
    decreases |rows|
  {
    if rows != [] {
      TagRowsLeft(rows[1..], tagId);
      assert rows == [rows[0]] + rows[1..];
    }
  }

  lemma {:induction false} TagsLeft(tags: seq<int>, tagId: int)
    ensures forall t :: t in TagsWithout(tags, tagId) <==> t in tags && t != tagId
    decreases |tags|
  {
    if tags != [] {
      TagsLeft(tags[1..], tagId);
      assert tags == [tags[0]] + tags[1..];
    }
  }

  lemma {:induction false} SourcesLeftAscend(rows: seq<SourceRow>, id: int)
    requires Ascending(rows, TrackSources.SourceId)
    ensures Ascending(SourcesWithout(rows, id), TrackSources.SourceId)
    decreases |rows|
  {
    if rows != [] {
      SourcesLeftAscend(rows[1..], id);
      RemainingSources(rows[1..], id);
      var rest := SourcesWithout(rows[1..], id);
      forall i | 0 <= i < |rest|
        ensures rows[0].id < rest[i].id
      {
        assert rest[i] in rest;
        var k :| 0 <= k < |rows[1..]| && rows[1..][k] == rest[i];
        assert rows[k + 1] == rest[i];
      }
    }
  }

  lemma DeleteKeepsTables(db: Db, id: int, rank: Date -> int)
    requires LedgerInv(db) && TablesInv(db) && Delete(db, id, rank).Ok?
    ensures TablesInv(Delete(db, id, rank).value)
  {
    var t := Delete(db, id, rank).value;
    RemainingTracks(db.tracks, id);
    RemainingSources(db.sources, id);
    RemainingAssignments(db.assignments, id);
    SourcesLeftAscend(db.sources, id);
    forall other | other != id && HasTrack(db.tracks, other)
      ensures HasTrack(t.tracks, other)
    {
      var r :| r in db.tracks && r.id == other;
      assert r in t.tracks;
    }
  }

  lemma AddingKeepsTables(db: Db, call: Call, env: Env)
    requires TablesInv(db) && Apply(db, call, env).Ok? && (call.AddTrackCall? || call.AddTracksCall?)
    ensures TablesInv(Apply(db, call, env).value)
  {
    if call.AddTrackCall? {
      AddEachOfOne(db, call.track);
      AddEachKeepsTables(db, [call.track]);
    } else {
      AddEachKeepsTables(db, call.tracks);
    }
  }

  /** What changes no id in the tracks and nothing else but days keeps the links. */
  lemma SameTracksKeepTables(db: Db, t: Db)
    requires TablesInv(db) && KeepsTracks(db, t) && t == db.(tracks := t.tracks, daily := t.daily)
    ensures TablesInv(t)
  {
  }

  lemma UpdateKeepsTables(db: Db, id: int, u: TrackUpdate)
    requires TablesInv(db) && UpdateTrack(db, id, u).Ok?
    ensures TablesInv(UpdateTrack(db, id, u).value)
  {
    UpdatedRows(db.tracks, id, u, Everyone);
    SameIds(db.tracks, UpdateRows(db.tracks, id, u));
    SameTracksKeepTables(db, UpdateTrack(db, id, u).value);
  }

  lemma CreditKeepsTables(db: Db, id: int, seconds: int, date: Date)
    requires TablesInv(db) && Credit(db, id, seconds, date).Ok?
    ensures TablesInv(Credit(db, id, seconds, date).value)
  {
    CreditedIds(db.tracks, id, seconds);
    SameTracksKeepTables(db, Credit(db, id, seconds, date).value);
  }

  lemma TagsKeepTables(db: Db, call: Call, env: Env)
    requires TablesInv(db) && Apply(db, call, env).Ok?
    requires call.AddTagCall? || call.DeleteTagCall? || call.RemoveTagCall?
    ensures TablesInv(Apply(db, call, env).value)
  {
    if call.DeleteTagCall? {
      TagRowsLeft(db.assignments, call.tagId);
      TagsLeft(db.tags, call.tagId);
    } else if call.RemoveTagCall? {
      AssignmentsLeft(db.assignments, call.trackId, call.tagId);
    }
  }

  lemma {:induction false} AssignmentsLeft(rows: seq<AssignmentRow>, trackId: int, tagId: int)
    ensures forall a :: a in WithoutAssignment(rows, trackId, tagId) <==>
                        a in rows && !(a.trackId == trackId && a.tagId == tagId)
    decreases |rows|
  {
    if rows != [] {
      AssignmentsLeft(rows[1..], trackId, tagId);
      assert rows == [rows[0]] + rows[1..];
    }
  }

  lemma {:induction false} SourcesLeft(rows: seq<SourceRow>, trackId: int, url: Url)
    ensures forall r :: r in WithoutSource(rows, trackId, url) <==>
                        r in rows && !(r.trackId == trackId && r.url == url)
    ensures Ascending(rows, TrackSources.SourceId) ==>
              Ascending(WithoutSource(rows, trackId, url), TrackSources.SourceId)
    decreases |rows|
  {
    if rows != [] {
      SourcesLeft(rows[1..], trackId, url);
      assert rows == [rows[0]] + rows[1..];
      var rest := WithoutSource(rows[1..], trackId, url);
      forall i | 0 <= i < |rest|
        ensures rest[i] in rows[1..]
      {
        assert rest[i] in rest;
      }
    }
  }

  lemma RemoveSourceKeepsTables(db: Db, trackId: int, url: Url)
    requires TablesInv(db)
    ensures TablesInv(RemoveSource(db, trackId, url))
  {
    SourcesLeft(db.sources, trackId, url);
  }

  lemma SourceCallKeepsTables(db: Db, call: Call, env: Env)
    requires TablesInv(db) && Apply(db, call, env).Ok? && IsSourceCall(call)
    ensures TablesInv(Apply(db, call, env).value)
  {
    match call
    case AddSourceCall(trackId, url) => InsertSourceKeepsTables(db, trackId, url);
    case RemoveSourceCall(trackId, url) => RemoveSourceKeepsTables(db, trackId, url);
    case EditSourceCall(trackId, oldUrl, newUrl) =>
      RemoveSourceKeepsTables(db, trackId, oldUrl);
      InsertSourceKeepsTables(RemoveSource(db, trackId, oldUrl), trackId, newUrl);
  }

  lemma AssigningKeepsTables(db: Db, call: Call, env: Env)
    requires TablesInv(db) && Apply(db, call, env).Ok? && (call.AssignTagCall? || call.AssignTagsCall?)
    ensures TablesInv(Apply(db, call, env).value)
  {
    if call.AssignTagsCall? {
      AssignEachKeepsTables(db, call.assignments, env.burn);
    }
  }

  lemma StepKeepsTables(db: Db, a: Attempt, env: Env)
    requires LedgerInv(db) && TablesInv(db)
    ensures TablesInv(Step(db, a, env))
  {
    if Commits(db, a, env) {
      var call := a.call;
      if call.AddTrackCall? || call.AddTracksCall? {
        AddingKeepsTables(db, call, env);
      } else if call.UpdateTrackCall? {
        UpdateKeepsTables(db, call.id, call.update);
      } else if call.AddTagCall? || call.DeleteTagCall? || call.RemoveTagCall? {
        TagsKeepTables(db, call, env);
      } else if IsSourceCall(call) {
        SourceCallKeepsTables(db, call, env);
      } else if call.AssignTagCall? || call.AssignTagsCall? {
        AssigningKeepsTables(db, call, env);
      } else if call.AddListenedSecondsCall? {
        CreditKeepsTables(db, call.trackId, call.seconds, call.date);
      } else {
        DeleteKeepsTables(db, call.id, env.rank);
      }
    }
  }

  lemma {:induction false} RunKeepsTables(db: Db, attempts: seq<Attempt>, env: Env)
    requires LedgerInv(db) && TablesInv(db)
    ensures LedgerInv(Run(db, attempts, env)) && TablesInv(Run(db, attempts, env))
    decreases |attempts|
  {
    if attempts != [] {
      StepKeepsLedger(db, attempts[0], env, Everyone, EveryDay);
      StepKeepsTables(db, attempts[0], env);
      RunKeepsTables(Step(db, attempts[0], env), attempts[1..], env);
    }
  }

  /** After every run ids are distinct, and sources, assignments and days belong to tracks that are there. */
  lemma TablesStayLinked(attempts: seq<Attempt>, env: Env)
    ensures var t := Run(EMPTY, attempts, env);
            && DistinctKeys(t.tracks, TrackId)
            && DistinctKeys(t.sources, TrackSources.SourceId)
            && (forall s <- t.sources :: HasTrack(t.tracks, s.trackId))
            && (forall a <- t.assignments :: HasTrack(t.tracks, a.trackId) && a.tagId in t.tags)
            && (forall d <- t.daily :: HasTrack(t.tracks, d.trackId))
  {
    RunKeepsTables(EMPTY, attempts, env);
  }
}
