/**
 The tables of the SQLite repository and the statements it sends, with the constraints of its schema.

 A table is the sequence of its rows in rowid order.  AUTOINCREMENT never reuses an id, so a new row goes to
 the end.  A statement either succeeds or leaves the database as it was.
 */
module Database {
  import opened Wrappers

  type Url = string
  type Date = string

  datatype NewTrack = NewTrack(
    artist: string,
    trackName: string,
    lengthSeconds: Option<int>,
    bitrateKbps: Option<int>,
    additionTime: string,
    sources: seq<Url>)

  datatype TrackRow = TrackRow(
    id: int,
    artist: string,
    trackName: string,
    lengthSeconds: Option<int>,
    bitrateKbps: Option<int>,
    additionTime: string,
    listenedSeconds: int)

  datatype SourceRow = SourceRow(id: int, trackId: int, url: Url)

  datatype AssignmentRow = AssignmentRow(id: int, trackId: int, tagId: int)

  datatype DailyRow = DailyRow(date: Date, trackId: int, listened: int)

  /** What `delete_track` writes to `removed_tracks`. */
  datatype Archive = Archive(track: TrackRow, sources: seq<Url>, tagIds: seq<int>, daily: seq<DailyRow>)

  datatype Db = Db(
    tracks: seq<TrackRow>,
    trackSeq: nat,
    sources: seq<SourceRow>,
    sourceSeq: nat,
    tags: seq<int>,
    assignments: seq<AssignmentRow>,
    assignmentSeq: nat,
    daily: seq<DailyRow>,
    removed: seq<Archive>)

  const EMPTY := Db([], 0, [], 0, [], [], 0, [], [])

  datatype SqlError = NotNull | Unique | ForeignKey | RowNotFound | IoError | Panic

  function TrackId(row: TrackRow): int { row.id }

  predicate HasTrack(tracks: seq<TrackRow>, id: int) {
    exists t <- tracks :: t.id == id
  }

  // ---------------------------------------------------------------------------
  // Statements
  // ---------------------------------------------------------------------------

  function RowOf(t: NewTrack, id: int): TrackRow {
    TrackRow(id, t.artist, t.trackName, t.lengthSeconds, t.bitrateKbps, t.additionTime, 0)
  }

  /** One row of `INSERT INTO track_info`: length is NOT NULL, (artist, track_name) is UNIQUE. */
  function InsertTrack(db: Db, t: NewTrack): Result<Db, SqlError> {
    if t.lengthSeconds.None? then Err(NotNull)
    else if exists r <- db.tracks :: r.artist == t.artist && r.trackName == t.trackName then Err(Unique)
    else Ok(db.(tracks := db.tracks + [RowOf(t, db.trackSeq + 1)], trackSeq := db.trackSeq + 1))
  }

  /** `INSERT INTO track_info ... VALUES` with one tuple per track. */
  function InsertTracks(db: Db, ts: seq<NewTrack>): Result<Db, SqlError>
    decreases |ts|
  {
    if ts == [] then Ok(db)
    else match InsertTrack(db, ts[0])
      case Err(e) => Err(e)
      case Ok(next) => InsertTracks(next, ts[1..])
  }

  /** One row of `INSERT INTO track_sources`: the track must exist, (track_id, url) is UNIQUE. */
  function InsertSource(db: Db, trackId: int, url: Url): Result<Db, SqlError> {
    if !HasTrack(db.tracks, trackId) then Err(ForeignKey)
    else if exists r <- db.sources :: r.trackId == trackId && r.url == url then Err(Unique)
    else Ok(db.(sources := db.sources + [SourceRow(db.sourceSeq + 1, trackId, url)], sourceSeq := db.sourceSeq + 1))
  }

  function InsertSources(db: Db, pairs: seq<(int, Url)>): Result<Db, SqlError>
    decreases |pairs|
  {
    if pairs == [] then Ok(db)
    else match InsertSource(db, pairs[0].0, pairs[0].1)
      case Err(e) => Err(e)
      case Ok(next) => InsertSources(next, pairs[1..])
  }

  /**
   One row of `INSERT OR IGNORE INTO tag_assignments`.  `burn` says whether an ignored row still uses up an id;
   everything proved holds for both answers.
   */
  function InsertOrIgnoreAssignment(db: Db, trackId: int, tagId: int, burn: bool): Result<Db, SqlError> {
    if exists r <- db.assignments :: r.trackId == trackId && r.tagId == tagId then
      Ok(db.(assignmentSeq := db.assignmentSeq + if burn then 1 else 0))
    else if !HasTrack(db.tracks, trackId) || tagId !in db.tags then Err(ForeignKey)
    else
      Ok(db.(assignments := db.assignments + [AssignmentRow(db.assignmentSeq + 1, trackId, tagId)],
             assignmentSeq := db.assignmentSeq + 1))
  }

  function InsertOrIgnoreAssignments(db: Db, pairs: seq<(int, int)>, burn: bool): Result<Db, SqlError>
    decreases |pairs|
  {
    if pairs == [] then Ok(db)
    else match InsertOrIgnoreAssignment(db, pairs[0].0, pairs[0].1, burn)
      case Err(e) => Err(e)
      case Ok(next) => InsertOrIgnoreAssignments(next, pairs[1..], burn)
  }

  // ---------------------------------------------------------------------------
  // A statement over several rows is the statements over its parts
  // ---------------------------------------------------------------------------

  lemma {:induction false} InsertTracksConcat(db: Db, xs: seq<NewTrack>, ys: seq<NewTrack>)
    ensures InsertTracks(db, xs + ys) ==
            match InsertTracks(db, xs) case Err(e) => Err(e) case Ok(mid) => InsertTracks(mid, ys)
    decreases |xs|
  {
    if xs == [] {
      assert xs + ys == ys;
    } else {
      assert (xs + ys)[1..] == xs[1..] + ys;
      if InsertTrack(db, xs[0]).Ok? {
        InsertTracksConcat(InsertTrack(db, xs[0]).value, xs[1..], ys);
      }
    }
  }

  lemma {:induction false} InsertSourcesConcat(db: Db, xs: seq<(int, Url)>, ys: seq<(int, Url)>)
    ensures InsertSources(db, xs + ys) ==
            match InsertSources(db, xs) case Err(e) => Err(e) case Ok(mid) => InsertSources(mid, ys)
    decreases |xs|
  {
    if xs == [] {
      assert xs + ys == ys;
    } else {
      assert (xs + ys)[1..] == xs[1..] + ys;
      if InsertSource(db, xs[0].0, xs[0].1).Ok? {
        InsertSourcesConcat(InsertSource(db, xs[0].0, xs[0].1).value, xs[1..], ys);
      }
    }
  }

  lemma {:induction false} InsertAssignmentsConcat(db: Db, xs: seq<(int, int)>, ys: seq<(int, int)>, burn: bool)
    ensures InsertOrIgnoreAssignments(db, xs + ys, burn) ==
            match InsertOrIgnoreAssignments(db, xs, burn)
            case Err(e) => Err(e)
            case Ok(mid) => InsertOrIgnoreAssignments(mid, ys, burn)
    decreases |xs|
  {
    if xs == [] {
      assert xs + ys == ys;
    } else {
      assert (xs + ys)[1..] == xs[1..] + ys;
      var first := InsertOrIgnoreAssignment(db, xs[0].0, xs[0].1, burn);
      if first.Ok? {
        InsertAssignmentsConcat(first.value, xs[1..], ys, burn);
      }
    }
  }

  /** Ids handed out by one INSERT of `n` rows: consecutive, ending at the last insert rowid. */
  lemma {:induction false} InsertedIds(db: Db, ts: seq<NewTrack>)
    requires InsertTracks(db, ts).Ok?
    ensures var t := InsertTracks(db, ts).value;
            && t.trackSeq == db.trackSeq + |ts| && |t.tracks| == |db.tracks| + |ts| && db.tracks <= t.tracks
            && t == db.(tracks := t.tracks, trackSeq := t.trackSeq)
            && forall i :: 0 <= i < |ts| ==> t.tracks[|db.tracks| + i] == RowOf(ts[i], db.trackSeq + 1 + i)
    decreases |ts|
  {
    if ts != [] {
      InsertedIds(InsertTrack(db, ts[0]).value, ts[1..]);
    }
  }
}
