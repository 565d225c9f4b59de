/**
 The UNIQUE constraints of the schema over whole runs, and what the rows hold that `add_track`, `add_tracks` and
 `add_listened_seconds` write.
 */
module TableKeys {
  import opened Wrappers
  import opened Database
  import opened BatchWrites
  import opened ListeningLedger
  import opened RepositoryRuns
  import opened Sorting
  import AddedTracks
  import TrackSources

  /** What `DistinctKeys` says of numbers, of keys of any type. */
  ghost predicate Unique<T(!new), K>(rows: seq<T>, key: T -> K) {
    forall i, j :: 0 <= i < j < |rows| ==> key(rows[i]) != key(rows[j])
  }

  function NameKey(t: TrackRow): (string, string) { (t.artist, t.trackName) }

  function UrlKey(s: SourceRow): (int, Url) { (s.trackId, s.url) }

  function PairKey(a: AssignmentRow): (int, int) { (a.trackId, a.tagId) }

  function DayKey(d: DailyRow): (Date, int) { (d.date, d.trackId) }

  /** The four UNIQUE constraints; what was archived of the days keeps to its own. */
  ghost predicate KeysInv(db: Db) {
    && Unique(db.tracks, NameKey) && Unique(db.sources, UrlKey) && Unique(db.assignments, PairKey)
    && Unique(db.daily, DayKey) && forall a <- db.removed :: Unique(a.daily, DayKey)
  }

  // ---------------------------------------------------------------------------
  // Rows that come and go
  // ---------------------------------------------------------------------------

  lemma UniqueTail<T(!new), K>(rows: seq<T>, key: T -> K)
    requires rows != [] && Unique(rows, key)
    ensures Unique(rows[1..], key) && forall x <- rows[1..] :: key(x) != key(rows[0])
  {
  }

  lemma UniqueCons<T(!new), K>(row: T, rest: seq<T>, key: T -> K)
    requires Unique(rest, key) && forall x <- rest :: key(x) != key(row)
    ensures Unique([row] + rest, key)
  {
    assert forall i :: 0 <= i < |rest| ==> rest[i] in rest;
  }

  lemma UniqueSnoc<T(!new), K>(rows: seq<T>, row: T, key: T -> K)
    requires Unique(rows, key) && forall x <- rows :: key(x) != key(row)
    ensures Unique(rows + [row], key)
  {
    assert forall i :: 0 <= i < |rows| ==> rows[i] in rows;
  }

  /** Rows whose keys stand where they stood. */
  lemma SameKeys<T(!new), K>(rows: seq<T>, more: seq<T>, key: T -> K)
    requires Unique(rows, key) && |more| == |rows| && forall i :: 0 <= i < |rows| ==> key(more[i]) == key(rows[i])
    ensures Unique(more, key)
  {
  }

  lemma {:induction false} DaysLeftUnique(daily: seq<DailyRow>, id: int)
    requires Unique(daily, DayKey)
    ensures Unique(DailyWithout(daily, id), DayKey) && Unique(DailyOf(daily, id), DayKey)
    decreases |daily|
  {
    if daily != [] {
      UniqueTail(daily, DayKey);
      DaysLeftUnique(daily[1..], id);
      RemainingDaily(daily[1..], id, id);
      if daily[0].trackId == id {
        UniqueCons(daily[0], DailyOf(daily[1..], id), DayKey);
      } else {
        UniqueCons(daily[0], DailyWithout(daily[1..], id), DayKey);
      }
    }
  }

  lemma {:induction false} InsertUnique(d: DailyRow, daily: seq<DailyRow>, key: DailyRow -> int)
    requires Unique(daily, DayKey) && forall x <- daily :: DayKey(x) != DayKey(d)
    ensures Unique(Insert(d, daily, key), DayKey)
    decreases |daily|
  {
    if daily == [] || key(d) <= key(daily[0]) {
      UniqueCons(d, daily, DayKey);
    } else {
      UniqueTail(daily, DayKey);
      assert daily[0] in daily && forall x <- daily[1..] :: x in daily;
      InsertUnique(d, daily[1..], key);
      InsertHas(d, daily[1..], key);
      UniqueCons(daily[0], Insert(d, daily[1..], key), DayKey);
    }
  }

  lemma {:induction false} SortUnique(daily: seq<DailyRow>, key: DailyRow -> int)
    requires Unique(daily, DayKey)
    ensures Unique(SortBy(daily, key), DayKey)
    decreases |daily|
  {
    if daily != [] {
      UniqueTail(daily, DayKey);
      SortUnique(daily[1..], key);
      SortHas(daily[1..], key);
      InsertUnique(daily[0], SortBy(daily[1..], key), key);
    }
  }

  lemma {:induction false} TracksLeftUnique(tracks: seq<TrackRow>, id: int)
    requires DistinctIds(tracks) && Unique(tracks, NameKey)
    ensures Unique(TracksWithout(tracks, id), NameKey)
    decreases |tracks|
  {
    if tracks != [] {
      UniqueTail(tracks, NameKey);
      TracksLeftUnique(tracks[1..], id);
      RemainingTracks(tracks[1..], id);
      if tracks[0].id != id {
        UniqueCons(tracks[0], TracksWithout(tracks[1..], id), NameKey);
      }
    }
  }

  lemma {:induction false} SourcesLeftUnique(rows: seq<SourceRow>, id: int)
    requires Unique(rows, UrlKey)
    ensures Unique(SourcesWithout(rows, id), UrlKey)
    decreases |rows|
  {
    if rows != [] {
      UniqueTail(rows, UrlKey);
      SourcesLeftUnique(rows[1..], id);
      RemainingSources(rows[1..], id);
      if rows[0].trackId != id {
        UniqueCons(rows[0], SourcesWithout(rows[1..], id), UrlKey);
      }
    }
  }

  lemma {:induction false} SourceLeftUnique(rows: seq<SourceRow>, trackId: int, url: Url)
    requires Unique(rows, UrlKey)
    ensures Unique(WithoutSource(rows, trackId, url), UrlKey)
    decreases |rows|
  {
    if rows != [] {
      UniqueTail(rows, UrlKey);
      SourceLeftUnique(rows[1..], trackId, url);
      SourcesLeft(rows[1..], trackId, url);
      if !(rows[0].trackId == trackId && rows[0].url == url) {
        UniqueCons(rows[0], WithoutSource(rows[1..], trackId, url), UrlKey);
      }
    }
  }

  lemma {:induction false} AssignmentsLeftUnique(rows: seq<AssignmentRow>, id: int)
    requires Unique(rows, PairKey)
    ensures Unique(AssignmentsWithout(rows, id), PairKey)
    decreases |rows|
  {
    if rows != [] {
      UniqueTail(rows, PairKey);
      AssignmentsLeftUnique(rows[1..], id);
      RemainingAssignments(rows[1..], id);
      if rows[0].trackId != id {
        UniqueCons(rows[0], AssignmentsWithout(rows[1..], id), PairKey);
      }
    }
  }

  lemma {:induction false} TagLeftUnique(rows: seq<AssignmentRow>, tagId: int)
    requires Unique(rows, PairKey)
    ensures Unique(WithoutTag(rows, tagId), PairKey)
    decreases |rows|
  {
    if rows != [] {
      UniqueTail(rows, PairKey);
      TagLeftUnique(rows[1..], tagId);
      TagRowsLeft(rows[1..], tagId);
      if rows[0].tagId != tagId {
        UniqueCons(rows[0], WithoutTag(rows[1..], tagId), PairKey);
      }
    }
  }

  lemma {:induction false} PairLeftUnique(rows: seq<AssignmentRow>, trackId: int, tagId: int)
    requires Unique(rows, PairKey)
    ensures Unique(WithoutAssignment(rows, trackId, tagId), PairKey)
    decreases |rows|
  {
    if rows != [] {
      UniqueTail(rows, PairKey);
      PairLeftUnique(rows[1..], trackId, tagId);
      AssignmentsLeft(rows[1..], trackId, tagId);
      if !(rows[0].trackId == trackId && rows[0].tagId == tagId) {
        UniqueCons(rows[0], WithoutAssignment(rows[1..], trackId, tagId), PairKey);
      }
    }
  }

  // ---------------------------------------------------------------------------
  // The day that is credited
  // ---------------------------------------------------------------------------

  /** The rows of this day of this track. */
  ghost predicate OnDay(d: DailyRow, date: Date, id: int) { d.date == date && d.trackId == id }

  /** What a credit makes of the days: the day's row grows or begins, and every other row stays. */
  ghost predicate DayCredited(before: seq<DailyRow>, after: seq<DailyRow>, date: Date, id: int, seconds: int) {
    && Unique(after, DayKey)
    && (forall d <- before :: OnDay(d, date, id) ==> DailyRow(date, id, d.listened + seconds) in after)
    && ((forall d <- before :: !OnDay(d, date, id)) ==> DailyRow(date, id, seconds) in after)
    && (forall d :: !OnDay(d, date, id) ==> (d in after <==> d in before))
  }

  lemma {:induction false} UpsertCreditsDay(daily: seq<DailyRow>, date: Date, id: int, seconds: int)
    requires Unique(daily, DayKey)
    ensures DayCredited(daily, Upsert(daily, date, id, seconds), date, id, seconds)
    decreases |daily|
  {
    var after := Upsert(daily, date, id, seconds);
    if daily == [] {
      assert after[0] in after;
    } else {
      UniqueTail(daily, DayKey);
      assert daily == [daily[0]] + daily[1..];
      if OnDay(daily[0], date, id) {
        assert after == [DailyRow(date, id, daily[0].listened + seconds)] + daily[1..];
        UniqueCons(after[0], daily[1..], DayKey);
        assert after[0] in after;
      } else {
        UpsertCreditsDay(daily[1..], date, id, seconds);
        var rest := Upsert(daily[1..], date, id, seconds);
        UpsertKeepsOther(daily[1..], date, id, seconds, daily[0]);
        UniqueCons(daily[0], rest, DayKey);
      }
    }
  }

  /** A day that was not there is not made up. */
  lemma {:induction false} UpsertKeepsOther(daily: seq<DailyRow>, date: Date, id: int, seconds: int, other: DailyRow)
    requires !OnDay(other, date, id) && forall d <- daily :: DayKey(d) != DayKey(other)
    ensures forall d <- Upsert(daily, date, id, seconds) :: DayKey(d) != DayKey(other)
    decreases |daily|
  {
    if daily != [] {
      assert daily[0] in daily && forall d <- daily[1..] :: d in daily;
      UpsertKeepsOther(daily[1..], date, id, seconds, other);
    }
  }

  /**
   After a credit there is exactly one row for its day and track: it holds what that row held before plus the seconds,
   or just the seconds if there was none.  No other day changes.
   */
  lemma CreditedDay(db: Db, id: int, seconds: int, date: Date)
    requires Unique(db.daily, DayKey) && Credit(db, id, seconds, date).Ok?
    ensures DayCredited(db.daily, Credit(db, id, seconds, date).value.daily, date, id, seconds)
  {
    UpsertCreditsDay(db.daily, date, id, seconds);
  }

  // ---------------------------------------------------------------------------
  // Every call keeps the keys
  // ---------------------------------------------------------------------------

  lemma InsertTrackKeepsKeys(db: Db, t: NewTrack)
    requires KeysInv(db) && InsertTrack(db, t).Ok?
    ensures KeysInv(InsertTrack(db, t).value)
  {
    var u := InsertTrack(db, t).value;
    UniqueSnoc(db.tracks, u.tracks[|db.tracks|], NameKey);
  }

  lemma InsertSourceKeepsKeys(db: Db, trackId: int, url: Url)
    requires KeysInv(db) && InsertSource(db, trackId, url).Ok?
    ensures KeysInv(InsertSource(db, trackId, url).value)
  {
    var u := InsertSource(db, trackId, url).value;
    UniqueSnoc(db.sources, u.sources[|db.sources|], UrlKey);
  }

  lemma {:induction false} InsertSourcesKeepKeys(db: Db, pairs: seq<(int, Url)>)
    requires KeysInv(db) && InsertSources(db, pairs).Ok?
    ensures KeysInv(InsertSources(db, pairs).value)
    decreases |pairs|
  {
    if pairs != [] {
      InsertSourceKeepsKeys(db, pairs[0].0, pairs[0].1);
      InsertSourcesKeepKeys(InsertSource(db, pairs[0].0, pairs[0].1).value, pairs[1..]);
    }
  }

  lemma {:induction false} AddEachKeepsKeys(db: Db, ts: seq<NewTrack>)
    requires KeysInv(db) && AddEach(db, ts).Ok?
    ensures KeysInv(AddEach(db, ts).value.0)
    decreases |ts|
  {
    if ts != [] {
      InsertTrackKeepsKeys(db, ts[0]);
      var mid := InsertTrack(db, ts[0]).value;
      InsertSourcesKeepKeys(mid, PairsWith(mid.trackSeq, ts[0].sources));
      AddEachKeepsKeys(AddTrack(db, ts[0]).value.0, ts[1..]);
    }
  }

  lemma AssignKeepsKeys(db: Db, trackId: int, tagId: int, burn: bool)
    requires KeysInv(db) && InsertOrIgnoreAssignment(db, trackId, tagId, burn).Ok?
    ensures KeysInv(InsertOrIgnoreAssignment(db, trackId, tagId, burn).value)
  {
    var u := InsertOrIgnoreAssignment(db, trackId, tagId, burn).value;
    if u.assignments != db.assignments {
      UniqueSnoc(db.assignments, u.assignments[|db.assignments|], PairKey);
    }
  }

  lemma {:induction false} AssignTagsKeepKeys(db: Db, trackId: int, tagIds: seq<int>, burn: bool)
    requires KeysInv(db) && AssignEachTag(db, trackId, tagIds, burn).Ok?
    ensures KeysInv(AssignEachTag(db, trackId, tagIds, burn).value)
    decreases |tagIds|
  {
    if tagIds != [] {
      AssignKeepsKeys(db, trackId, tagIds[0], burn);
      AssignTagsKeepKeys(InsertOrIgnoreAssignment(db, trackId, tagIds[0], burn).value, trackId, tagIds[1..], burn);
    }
  }

  lemma {:induction false} AssignEachKeepsKeys(db: Db, assignments: seq<TagAssignment>, burn: bool)
    requires KeysInv(db) && AssignEach(db, assignments, burn).Ok?
    ensures KeysInv(AssignEach(db, assignments, burn).value)
    decreases |assignments|
  {
    if assignments != [] {
      var a := assignments[0];
      AssignTagsKeepKeys(db, a.trackId, a.tagIds, burn);
      AssignEachKeepsKeys(AssignEachTag(db, a.trackId, a.tagIds, burn).value, assignments[1..], burn);
    }
  }

  /** Row by row what an update does: the columns that are given, of the one row. */
  lemma {:induction false} UpdatedColumns(tracks: seq<TrackRow>, id: int, u: TrackUpdate)
    ensures var r := UpdateRows(tracks, id, u);
            && |r| == |tracks|
            && forall i :: 0 <= i < |r| ==> ColumnsUpdated(tracks[i], r[i], id, u)
    decreases |tracks|
  {
    if tracks != [] {
      UpdatedColumns(tracks[1..], id, u);
    }
  }

  /** A column has the new value if the row is meant and one is given, and its old value otherwise. */
  ghost predicate ColumnsUpdated(t: TrackRow, r: TrackRow, id: int, u: TrackUpdate) {
    && r.id == t.id && r.listenedSeconds == t.listenedSeconds
    && r.artist == (if t.id == id && u.artist.Some? then u.artist.value else t.artist)
    && r.trackName == (if t.id == id && u.trackName.Some? then u.trackName.value else t.trackName)
    && (if t.id == id && u.lengthSeconds.Some? then r.lengthSeconds == u.lengthSeconds
        else r.lengthSeconds == t.lengthSeconds)
    && (if t.id == id && u.bitrateKbps.Some? then r.bitrateKbps == u.bitrateKbps else r.bitrateKbps == t.bitrateKbps)
    && r.additionTime == (if t.id == id && u.additionTime.Some? then u.additionTime.value else t.additionTime)
  }

  /** One row may take a name that no other row has. */
  lemma RenamedUnique(tracks: seq<TrackRow>, r: seq<TrackRow>, id: int, name: (string, string))
    requires DistinctIds(tracks) && Unique(tracks, NameKey) && |r| == |tracks|
    requires forall i :: 0 <= i < |r| ==> NameKey(r[i]) == if tracks[i].id == id then name else NameKey(tracks[i])
    requires forall t <- tracks :: t.id != id ==> NameKey(t) != name
    ensures Unique(r, NameKey)
  {
    forall i, j | 0 <= i < j < |r|
      ensures NameKey(r[i]) != NameKey(r[j])
    {
      assert tracks[i] in tracks && tracks[j] in tracks;
    }
  }

  lemma UpdatedName(tracks: seq<TrackRow>, id: int, u: TrackUpdate, i: nat)
    requires DistinctIds(tracks) && HasTrack(tracks, id) && i < |tracks|
    ensures |UpdateRows(tracks, id, u)| == |tracks|
    ensures NameKey(UpdateRows(tracks, id, u)[i])
            == if tracks[i].id == id then NameKey(Updated(Find(tracks, id), u)) else NameKey(tracks[i])
  {
    UpdatedColumns(tracks, id, u);
    var found := Find(tracks, id);
    var k :| 0 <= k < |tracks| && tracks[k] == found;
  }

  lemma UpdateKeepsKeys(db: Db, id: int, u: TrackUpdate)
    requires KeysInv(db) && DistinctIds(db.tracks) && UpdateTrack(db, id, u).Ok?
    ensures KeysInv(UpdateTrack(db, id, u).value)
  {
    if HasTrack(db.tracks, id) {
      var r := UpdateRows(db.tracks, id, u);
      var name := NameKey(Updated(Find(db.tracks, id), u));
      UpdatedColumns(db.tracks, id, u);
      forall i | 0 <= i < |r|
        ensures NameKey(r[i]) == if db.tracks[i].id == id then name else NameKey(db.tracks[i])
      {
        UpdatedName(db.tracks, id, u, i);
      }
      RenamedUnique(db.tracks, r, id, name);
    }
  }

  lemma CreditKeepsKeys(db: Db, id: int, seconds: int, date: Date)
    requires KeysInv(db) && Credit(db, id, seconds, date).Ok?
    ensures KeysInv(Credit(db, id, seconds, date).value)
  {
    CreditedTracks(db.tracks, id, seconds);
    SameKeys(db.tracks, AddToTrack(db.tracks, id, seconds), NameKey);
    CreditedDay(db, id, seconds, date);
  }

  lemma DeleteKeepsKeys(db: Db, id: int, rank: Date -> int)
    requires KeysInv(db) && DistinctIds(db.tracks) && Delete(db, id, rank).Ok?
    ensures KeysInv(Delete(db, id, rank).value)
  {
    TracksLeftUnique(db.tracks, id);
    SourcesLeftUnique(db.sources, id);
    AssignmentsLeftUnique(db.assignments, id);
    DaysLeftUnique(db.daily, id);
    SortUnique(DailyOf(db.daily, id), (d: DailyRow) => rank(d.date));
  }

  lemma AddingKeepsKeys(db: Db, call: Call, env: Env)
    requires KeysInv(db) && Apply(db, call, env).Ok? && (call.AddTrackCall? || call.AddTracksCall?)
    ensures KeysInv(Apply(db, call, env).value)
  {
    if call.AddTrackCall? {
      AddEachOfOne(db, call.track);
      AddEachKeepsKeys(db, [call.track]);
    } else {
      AddEachKeepsKeys(db, call.tracks);
    }
  }

  lemma TagCallKeepsKeys(db: Db, call: Call, env: Env)
    requires KeysInv(db) && Apply(db, call, env).Ok? && IsTagCall(call)
    ensures KeysInv(Apply(db, call, env).value)
  {
    if call.DeleteTagCall? {
      TagLeftUnique(db.assignments, call.tagId);
    } else if call.AssignTagCall? {
      AssignKeepsKeys(db, call.trackId, call.tagId, env.burn);
    } else if call.AssignTagsCall? {
      AssignEachKeepsKeys(db, call.assignments, env.burn);
    } else if call.RemoveTagCall? {
      PairLeftUnique(db.assignments, call.trackId, call.tagId);
    }
  }

  lemma SourceCallKeepsKeys(db: Db, call: Call, env: Env)
    requires KeysInv(db) && Apply(db, call, env).Ok? && IsSourceCall(call)
    ensures KeysInv(Apply(db, call, env).value)
  {
    if call.AddSourceCall? {
      InsertSourceKeepsKeys(db, call.trackId, call.url);
    } else if call.RemoveSourceCall? {
      SourceLeftUnique(db.sources, call.trackId, call.url);
    } else {
      SourceLeftUnique(db.sources, call.trackId, call.oldUrl);
      InsertSourceKeepsKeys(RemoveSource(db, call.trackId, call.oldUrl), call.trackId, call.newUrl);
    }
  }

  lemma StepKeepsKeys(db: Db, a: Attempt, env: Env)
    requires KeysInv(db) && DistinctIds(db.tracks)
    ensures KeysInv(Step(db, a, env))
  {
    if Commits(db, a, env) {
      var call := a.call;
      if call.AddTrackCall? || call.AddTracksCall? {
        AddingKeepsKeys(db, call, env);
      } else if call.UpdateTrackCall? {
        UpdateKeepsKeys(db, call.id, call.update);
      } else if IsTagCall(call) {
        TagCallKeepsKeys(db, call, env);
      } else if IsSourceCall(call) {
        SourceCallKeepsKeys(db, call, env);
      } else if call.AddListenedSecondsCall? {
        CreditKeepsKeys(db, call.trackId, call.seconds, call.date);
      } else {
        DeleteKeepsKeys(db, call.id, env.rank);
      }
    }
  }

  lemma {:induction false} RunKeepsKeys(db: Db, attempts: seq<Attempt>, env: Env)
    requires KeysInv(db) && LedgerInv(db)
    ensures KeysInv(Run(db, attempts, env))
    decreases |attempts|
  {
    if attempts != [] {
      StepKeepsKeys(db, attempts[0], env);
      StepKeepsLedger(db, attempts[0], env, Everyone, EveryDay);
      RunKeepsKeys(Step(db, attempts[0], env), attempts[1..], env);
    }
  }

  /**
   After every run no two tracks share artist and name, no two sources track and url, no two assignments track and
   tag, and no two days, live or in one archive row, date and track.
   */
  lemma KeysStayUnique(attempts: seq<Attempt>, env: Env)
    ensures var t := Run(EMPTY, attempts, env);
            && Unique(t.tracks, NameKey) && Unique(t.sources, UrlKey) && Unique(t.assignments, PairKey)
            && Unique(t.daily, DayKey) && forall a <- t.removed :: Unique(a.daily, DayKey)
  {
    RunKeepsKeys(EMPTY, attempts, env);
  }

  // ---------------------------------------------------------------------------
  // The archive
  // ---------------------------------------------------------------------------

  lemma {:induction false} OwnPairsUnique(rows: seq<AssignmentRow>, id: int)
    requires Unique(rows, PairKey)
    ensures DistinctKeys(AssignmentsOf(rows, id), ByTag)
    decreases |rows|
  {
    if rows != [] {
      UniqueTail(rows, PairKey);
      OwnPairsUnique(rows[1..], id);
      RemainingAssignments(rows[1..], id);
      var rest := AssignmentsOf(rows[1..], id);
      forall j | 0 <= j < |rest| && rows[0].trackId == id
        ensures rest[j].tagId != rows[0].tagId
      {
        assert rest[j] in rest;
      }
    }
  }

  lemma {:induction false} OwnUrlsUnique(rows: seq<SourceRow>, id: int)
    requires Unique(rows, UrlKey)
    ensures AddedTracks.NoRepeat(Urls(TrackSources.OfTrack(rows, id)))
    decreases |rows|
  {
    if rows != [] {
      UniqueTail(rows, UrlKey);
      OwnUrlsUnique(rows[1..], id);
      TrackSources.OfTrackHas(rows[1..], id);
      var rest := TrackSources.OfTrack(rows[1..], id);
      if rows[0].trackId == id {
        forall j | 0 <= j < |rest|
          ensures rest[j].url != rows[0].url
        {
          assert rest[j] in rest;
        }
        AddedTracks.NoRepeatTail([rows[0].url] + Urls(rest));
        assert ([rows[0].url] + Urls(rest))[1..] == Urls(rest);
        assert Urls([rows[0]] + rest) == [rows[0].url] + Urls(rest);
      }
    }
  }

  lemma OwnDaysDistinct(daily: seq<DailyRow>, id: int, rank: Date -> int)
    requires Unique(daily, DayKey) && forall d <- daily :: d.trackId == id
    requires forall a, b :: a != b ==> rank(a) != rank(b)
    ensures DistinctKeys(daily, (d: DailyRow) => rank(d.date))
  {
    forall i, j | 0 <= i < j < |daily|
      ensures rank(daily[i].date) != rank(daily[j].date)
    {
      assert daily[i] in daily && daily[j] in daily;
      assert DayKey(daily[i]) != DayKey(daily[j]);
    }
  }

  /**
   What a delete archives of a track, besides which rows it is: urls and tags without repetition, tags in ascending
   order, days in the order of their dates.
   */
  lemma ArchiveIsOrdered(db: Db, id: int, rank: Date -> int)
    requires KeysInv(db) && SourcesInv(db) && Delete(db, id, rank).Ok?
    requires forall a, b :: a != b ==> rank(a) != rank(b)
    ensures var a := Delete(db, id, rank).value.removed[|db.removed|];
            && AddedTracks.NoRepeat(a.sources)
            && (forall i, j :: 0 <= i < j < |a.tagIds| ==> a.tagIds[i] < a.tagIds[j])
            && (forall i, j :: 0 <= i < j < |a.daily| ==> rank(a.daily[i].date) < rank(a.daily[j].date))
  {
    var mine := AssignmentsOf(db.assignments, id);
    OwnPairsUnique(db.assignments, id);
    SortAscends(mine, ByTag);
    AddedTracks.SourcesForIsOfTrack(db.sources, id);
    OwnUrlsUnique(db.sources, id);
    DaysLeftUnique(db.daily, id);
    RemainingDaily(db.daily, id, id);
    OwnDaysDistinct(DailyOf(db.daily, id), id, rank);
    SortAscends(DailyOf(db.daily, id), (d: DailyRow) => rank(d.date));
  }
}
