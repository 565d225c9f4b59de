/**
 Listening time: credited to a track and to a day in one transaction, archived with the track when it is
 deleted, and never created or lost otherwise.
 */
module ListeningLedger {
  import opened Wrappers
  import opened Database
  import opened Sorting
  import BatchWrites
  import TrackSources

  // ---------------------------------------------------------------------------
  // Statements
  // ---------------------------------------------------------------------------

  /** `UPDATE track_info SET listened_seconds = listened_seconds + ? WHERE id = ?`. */
  function AddToTrack(tracks: seq<TrackRow>, id: int, seconds: int): seq<TrackRow> {
    if tracks == [] then []
    else
      [if tracks[0].id == id then tracks[0].(listenedSeconds := tracks[0].listenedSeconds + seconds) else tracks[0]]
      + AddToTrack(tracks[1..], id, seconds)
  }

  /** `INSERT INTO listened_daily ... ON CONFLICT(date, track_id) DO UPDATE`. */
  function Upsert(daily: seq<DailyRow>, date: Date, id: int, seconds: int): seq<DailyRow> {
    if daily == [] then [DailyRow(date, id, seconds)]
    else if daily[0].date == date && daily[0].trackId == id then
      [daily[0].(listened := daily[0].listened + seconds)] + daily[1..]
    else [daily[0]] + Upsert(daily[1..], date, id, seconds)
  }

  /** `add_listened_seconds`: an unknown track fails on the foreign key of the second statement. */
  function Credit(db: Db, id: int, seconds: int, date: Date): Result<Db, SqlError> {
    var credited := db.(tracks := AddToTrack(db.tracks, id, seconds));
    if !HasTrack(credited.tracks, id) then Err(ForeignKey)
    else Ok(credited.(daily := Upsert(credited.daily, date, id, seconds)))
  }

  function DailyOf(daily: seq<DailyRow>, id: int): seq<DailyRow> {
    if daily == [] then []
    else if daily[0].trackId == id then [daily[0]] + DailyOf(daily[1..], id)
    else DailyOf(daily[1..], id)
  }

  function DailyWithout(daily: seq<DailyRow>, id: int): seq<DailyRow> {
    if daily == [] then []
    else if daily[0].trackId != id then [daily[0]] + DailyWithout(daily[1..], id)
    else DailyWithout(daily[1..], id)
  }

  function TracksWithout(tracks: seq<TrackRow>, id: int): seq<TrackRow> {
    if tracks == [] then []
    else if tracks[0].id != id then [tracks[0]] + TracksWithout(tracks[1..], id)
    else TracksWithout(tracks[1..], id)
  }

  function SourcesWithout(rows: seq<SourceRow>, id: int): seq<SourceRow> {
    if rows == [] then []
    else if rows[0].trackId != id then [rows[0]] + SourcesWithout(rows[1..], id)
    else SourcesWithout(rows[1..], id)
  }

  function AssignmentsOf(rows: seq<AssignmentRow>, id: int): seq<AssignmentRow> {
    if rows == [] then []
    else if rows[0].trackId == id then [rows[0]] + AssignmentsOf(rows[1..], id)
    else AssignmentsOf(rows[1..], id)
  }

  function AssignmentsWithout(rows: seq<AssignmentRow>, id: int): seq<AssignmentRow> {
    if rows == [] then []
    else if rows[0].trackId != id then [rows[0]] + AssignmentsWithout(rows[1..], id)
    else AssignmentsWithout(rows[1..], id)
  }

  function Find(tracks: seq<TrackRow>, id: int): (r: TrackRow)
    requires HasTrack(tracks, id)
    ensures r in tracks && r.id == id
  {
    if tracks[0].id == id then tracks[0]
    else
      assert tracks == [tracks[0]] + tracks[1..];
      Find(tracks[1..], id)
  }

  function Urls(rows: seq<SourceRow>): seq<Url> {
    seq(|rows|, i requires 0 <= i < |rows| => rows[i].url)
  }

  function TagIds(rows: seq<AssignmentRow>): seq<int> {
    seq(|rows|, i requires 0 <= i < |rows| => rows[i].tagId)
  }

  function ByTag(a: AssignmentRow): int { a.tagId }

  /** What is kept of a track.  `rank` is the collating order of the date text. */
  function ArchiveOf(db: Db, id: int, rank: Date -> int): Archive
    requires HasTrack(db.tracks, id)
  {
    Archive(Find(db.tracks, id),
            Urls(TrackSources.SourcesFor(db.sources, id)),
            TagIds(SortBy(AssignmentsOf(db.assignments, id), ByTag)),
            SortBy(DailyOf(db.daily, id), (d: DailyRow) => rank(d.date)))
  }

  /** `delete_track`: archive, then delete the row and, by ON DELETE CASCADE, everything that refers to it. */
  function Delete(db: Db, id: int, rank: Date -> int): Result<Db, SqlError> {
    if !HasTrack(db.tracks, id) then Err(RowNotFound)
    else
      Ok(db.(removed := db.removed + [ArchiveOf(db, id, rank)],
             tracks := TracksWithout(db.tracks, id),
             sources := SourcesWithout(db.sources, id),
             assignments := AssignmentsWithout(db.assignments, id),
             daily := DailyWithout(db.daily, id)))
  }

  // ---------------------------------------------------------------------------
  // Sums, over any choice of tracks or of (date, track) pairs
  // ---------------------------------------------------------------------------

  predicate Everyone(id: int) { true }

  predicate EveryDay(date: Date, id: int) { true }

  function DaysOf(id: int): (Date, int) -> bool { (_, trackId) => trackId == id }

  function Listened(daily: seq<DailyRow>, on: (Date, int) -> bool): int {
    if daily == [] then 0
    else (if on(daily[0].date, daily[0].trackId) then daily[0].listened else 0) + Listened(daily[1..], on)
  }

  function Live(tracks: seq<TrackRow>, who: int -> bool): int {
    if tracks == [] then 0
    else (if who(tracks[0].id) then tracks[0].listenedSeconds else 0) + Live(tracks[1..], who)
  }

  function Archived(removed: seq<Archive>, who: int -> bool): int {
    if removed == [] then 0
    else
      var last := removed[|removed| - 1].track;
      Archived(removed[..|removed| - 1], who) + if who(last.id) then last.listenedSeconds else 0
  }

  function ArchivedDays(removed: seq<Archive>, on: (Date, int) -> bool): int {
    if removed == [] then 0
    else ArchivedDays(removed[..|removed| - 1], on) + Listened(removed[|removed| - 1].daily, on)
  }

  function Seconds(db: Db, who: int -> bool): int {
    Live(db.tracks, who) + Archived(db.removed, who)
  }

  function DaySeconds(db: Db, on: (Date, int) -> bool): int {
    Listened(db.daily, on) + ArchivedDays(db.removed, on)
  }

  ghost predicate DistinctIds(tracks: seq<TrackRow>) {
    forall i, j :: 0 <= i < j < |tracks| ==> tracks[i].id != tracks[j].id
  }

  /** Every track's counter is the sum of its days, here and in the archive. */
  ghost predicate LedgerInv(db: Db) {
    && DistinctIds(db.tracks)
    && (forall t <- db.tracks :: 0 < t.id <= db.trackSeq && t.listenedSeconds == Listened(db.daily, DaysOf(t.id)))
    && (forall d <- db.daily :: HasTrack(db.tracks, d.trackId))
    && (forall a <- db.removed :: a.track.listenedSeconds == Listened(a.daily, EveryDay))
  }

  lemma {:induction false} DaysSplit(daily: seq<DailyRow>, id: int, on: (Date, int) -> bool)
    ensures Listened(DailyOf(daily, id), EveryDay) == Listened(daily, DaysOf(id))
    ensures Listened(DailyOf(daily, id), on) + Listened(DailyWithout(daily, id), on) == Listened(daily, on)
    decreases |daily|
  {
    if daily != [] {
      DaysSplit(daily[1..], id, on);
    }
  }

  lemma {:induction false} InsertAddsDay(
    d: DailyRow, daily: seq<DailyRow>, key: DailyRow -> int, on: (Date, int) -> bool)
    ensures Listened(Insert(d, daily, key), on)
            == (if on(d.date, d.trackId) then d.listened else 0) + Listened(daily, on)
    decreases |daily|
  {
    if daily != [] && key(d) > key(daily[0]) {
      InsertAddsDay(d, daily[1..], key, on);
    }
  }

  lemma {:induction false} SortKeepsListened(daily: seq<DailyRow>, key: DailyRow -> int, on: (Date, int) -> bool)
    ensures Listened(SortBy(daily, key), on) == Listened(daily, on)
    decreases |daily|
  {
    if daily != [] {
      SortKeepsListened(daily[1..], key, on);
      InsertAddsDay(daily[0], SortBy(daily[1..], key), key, on);
    }
  }

  // ---------------------------------------------------------------------------
  // Crediting
  // ---------------------------------------------------------------------------

  lemma {:induction false} UpsertListened(
    daily: seq<DailyRow>, date: Date, id: int, seconds: int, on: (Date, int) -> bool)
    ensures Listened(Upsert(daily, date, id, seconds), on)
            == Listened(daily, on) + if on(date, id) then seconds else 0
    decreases |daily|
  {
    if daily != [] {
      UpsertListened(daily[1..], date, id, seconds, on);
    }
  }

  lemma {:induction false} UpsertTracks(daily: seq<DailyRow>, date: Date, id: int, seconds: int)
    ensures forall d <- Upsert(daily, date, id, seconds) ::
              d.trackId == id || exists e <- daily :: e.trackId == d.trackId
    decreases |daily|
  {
    if daily != [] {
      UpsertTracks(daily[1..], date, id, seconds);
      assert daily == [daily[0]] + daily[1..];
      assert daily[0] in daily && forall e <- daily[1..] :: e in daily;
    }
  }

  function Credited(t: TrackRow, id: int, seconds: int): TrackRow {
    if t.id == id then t.(listenedSeconds := t.listenedSeconds + seconds) else t
  }

  lemma {:induction false} CreditedTracks(tracks: seq<TrackRow>, id: int, seconds: int)
    ensures var r := AddToTrack(tracks, id, seconds);
            |r| == |tracks| && forall i :: 0 <= i < |r| ==> r[i] == Credited(tracks[i], id, seconds)
    decreases |tracks|
  {
    if tracks != [] {
      CreditedTracks(tracks[1..], id, seconds);
    }
  }

  lemma HasTrackCons(tracks: seq<TrackRow>, id: int)
    requires tracks != []
    ensures HasTrack(tracks, id) <==> tracks[0].id == id || HasTrack(tracks[1..], id)
  {
    assert tracks == [tracks[0]] + tracks[1..];
  }

  lemma HeadIsOnly(tracks: seq<TrackRow>)
    requires tracks != [] && DistinctIds(tracks)
    ensures !HasTrack(tracks[1..], tracks[0].id) && DistinctIds(tracks[1..])
  {
  }

  lemma {:induction false} CreditedLive(tracks: seq<TrackRow>, id: int, seconds: int, who: int -> bool)
    requires DistinctIds(tracks)
    ensures Live(AddToTrack(tracks, id, seconds), who)
            == Live(tracks, who) + if HasTrack(tracks, id) && who(id) then seconds else 0
    decreases |tracks|
  {
    if tracks != [] {
      HasTrackCons(tracks, id);
      HeadIsOnly(tracks);
      CreditedLive(tracks[1..], id, seconds, who);
    }
  }

  /** The update changes no id. */
  lemma CreditedIds(tracks: seq<TrackRow>, id: int, seconds: int)
    ensures forall x :: HasTrack(AddToTrack(tracks, id, seconds), x) <==> HasTrack(tracks, x)
  {
    CreditedTracks(tracks, id, seconds);
    var r := AddToTrack(tracks, id, seconds);
    forall x
      ensures HasTrack(r, x) <==> HasTrack(tracks, x)
    {
      if HasTrack(tracks, x) {
        var k :| 0 <= k < |tracks| && tracks[k].id == x;
        assert r[k] in r;
      }
      if HasTrack(r, x) {
        var k :| 0 <= k < |r| && r[k].id == x;
        assert tracks[k] in tracks;
      }
    }
  }

  lemma CreditKeepsLedger(db: Db, id: int, seconds: int, date: Date, who: int -> bool, on: (Date, int) -> bool)
    requires LedgerInv(db) && Credit(db, id, seconds, date).Ok?
    ensures var t := Credit(db, id, seconds, date).value;
            && LedgerInv(t)
            && Seconds(t, who) == Seconds(db, who) + (if who(id) then seconds else 0)
            && DaySeconds(t, on) == DaySeconds(db, on) + if on(date, id) then seconds else 0
  {
    CreditedIds(db.tracks, id, seconds);
    CreditedLive(db.tracks, id, seconds, who);
    UpsertListened(db.daily, date, id, seconds, on);
    CreditKeepsInv(db, id, seconds, date);
  }

  /** A credited row's counter is the sum of its days again. */
  lemma CreditedRow(db: Db, t: TrackRow, id: int, seconds: int, date: Date)
    requires LedgerInv(db) && t in db.tracks
    ensures var r := Credited(t, id, seconds);
            && 0 < r.id <= db.trackSeq
            && r.listenedSeconds == Listened(Upsert(db.daily, date, id, seconds), DaysOf(r.id))
  {
    UpsertListened(db.daily, date, id, seconds, DaysOf(t.id));
  }

  /** Every day belongs to a track that is there. */
  lemma CreditedDaysAreLinked(db: Db, id: int, seconds: int, date: Date)
    requires LedgerInv(db) && HasTrack(AddToTrack(db.tracks, id, seconds), id)
    ensures forall d <- Upsert(db.daily, date, id, seconds) :: HasTrack(AddToTrack(db.tracks, id, seconds), d.trackId)
  {
    CreditedIds(db.tracks, id, seconds);
    UpsertTracks(db.daily, date, id, seconds);
  }

  lemma CreditKeepsInv(db: Db, id: int, seconds: int, date: Date)
    requires LedgerInv(db) && Credit(db, id, seconds, date).Ok?
    ensures LedgerInv(Credit(db, id, seconds, date).value)
  {
    var t := Credit(db, id, seconds, date).value;
    CreditedTracks(db.tracks, id, seconds);
    CreditedDaysAreLinked(db, id, seconds, date);
    forall r <- t.tracks
      ensures 0 < r.id <= t.trackSeq && r.listenedSeconds == Listened(t.daily, DaysOf(r.id))
    {
      var i :| 0 <= i < |t.tracks| && t.tracks[i] == r;
      assert db.tracks[i] in db.tracks;
      CreditedRow(db, db.tracks[i], id, seconds, date);
    }
    assert DistinctIds(t.tracks);
  }

  // ---------------------------------------------------------------------------
  // Deleting
  // ---------------------------------------------------------------------------

  lemma {:induction false} RemainingTracks(tracks: seq<TrackRow>, id: int)
    requires DistinctIds(tracks)
    ensures DistinctIds(TracksWithout(tracks, id))
    ensures forall t :: t in TracksWithout(tracks, id) <==> t in tracks && t.id != id
    decreases |tracks|
  {
    if tracks != [] {
      RemainingTracks(tracks[1..], id);
      assert tracks == [tracks[0]] + tracks[1..];
      var r := TracksWithout(tracks[1..], id);
      forall k | 0 <= k < |r|
        ensures r[k].id != tracks[0].id
      {
        assert r[k] in r && r[k] in tracks[1..];
      }
    }
  }

  lemma {:induction false} RemainingLive(tracks: seq<TrackRow>, id: int, who: int -> bool)
    requires DistinctIds(tracks)
    ensures Live(tracks, who) == Live(TracksWithout(tracks, id), who)
                                 + if HasTrack(tracks, id) && who(id) then Find(tracks, id).listenedSeconds else 0
    decreases |tracks|
  {
    if tracks != [] {
      HasTrackCons(tracks, id);
      HeadIsOnly(tracks);
      RemainingLive(tracks[1..], id, who);
    }
  }

  lemma {:induction false} RemainingDaily(daily: seq<DailyRow>, id: int, other: int)
    ensures forall d :: d in DailyWithout(daily, id) <==> d in daily && d.trackId != id
    ensures forall d :: d in DailyOf(daily, id) <==> d in daily && d.trackId == id
    ensures other != id ==> Listened(DailyWithout(daily, id), DaysOf(other)) == Listened(daily, DaysOf(other))
    decreases |daily|
  {
    if daily != [] {
      RemainingDaily(daily[1..], id, other);
      assert daily == [daily[0]] + daily[1..];
    }
  }

  lemma DeleteKeepsLedger(db: Db, id: int, rank: Date -> int, who: int -> bool, on: (Date, int) -> bool)
    requires LedgerInv(db) && Delete(db, id, rank).Ok?
    ensures var t := Delete(db, id, rank).value;
            && LedgerInv(t)
            && Seconds(t, who) == Seconds(db, who)
            && DaySeconds(t, on) == DaySeconds(db, on)
  {
    var t := Delete(db, id, rank).value;
    RemainingTracks(db.tracks, id);
    RemainingLive(db.tracks, id, who);
    DaysSplit(db.daily, id, on);
    forall r <- t.tracks
      ensures r.listenedSeconds == Listened(t.daily, DaysOf(r.id))
    {
      RemainingDaily(db.daily, id, r.id);
    }
    RemainingDaily(db.daily, id, id);
    forall d <- t.daily
      ensures HasTrack(t.tracks, d.trackId)
    {
      assert HasTrack(db.tracks, d.trackId);
      var r :| r in db.tracks && r.id == d.trackId;
      assert r in t.tracks;
    }
    var byDate := (d: DailyRow) => rank(d.date);
    SortKeepsListened(DailyOf(db.daily, id), byDate, EveryDay);
    SortKeepsListened(DailyOf(db.daily, id), byDate, on);
    assert t.removed[..|t.removed| - 1] == db.removed;
  }

  lemma {:induction false} RemainingSources(rows: seq<SourceRow>, id: int)
    ensures forall x :: x in SourcesWithout(rows, id) <==> x in rows && x.trackId != id
    decreases |rows|
  {
    if rows != [] {
      RemainingSources(rows[1..], id);
      assert rows == [rows[0]] + rows[1..];
    }
  }

  lemma {:induction false} RemainingAssignments(rows: seq<AssignmentRow>, id: int)
    ensures forall x :: x in AssignmentsWithout(rows, id) <==> x in rows && x.trackId != id
    ensures forall x :: x in AssignmentsOf(rows, id) <==> x in rows && x.trackId == id
    decreases |rows|
  {
    if rows != [] {
      RemainingAssignments(rows[1..], id);
      assert rows == [rows[0]] + rows[1..];
    }
  }

  /**
   What a delete moves and what it leaves: no row of the track stays in any table, the archive holds its row,
   urls, tags and days, and nothing of another track is touched.
   */
  lemma DeleteMovesOneTrack(db: Db, id: int, rank: Date -> int)
    requires LedgerInv(db) && HasTrack(db.tracks, id)
    ensures var t := Delete(db, id, rank).value; var a := t.removed[|t.removed| - 1];
            && t.removed == db.removed + [a] && a.track in db.tracks && a.track.id == id
            && (forall u :: u in a.sources <==> exists x <- db.sources :: x.trackId == id && x.url == u)
            && (forall g :: g in a.tagIds <==> exists x <- db.assignments :: x.trackId == id && x.tagId == g)
            && (forall d :: d in a.daily <==> d in db.daily && d.trackId == id)
            && (forall x :: x in t.tracks <==> x in db.tracks && x.id != id)
            && (forall x :: x in t.sources <==> x in db.sources && x.trackId != id)
            && (forall x :: x in t.assignments <==> x in db.assignments && x.trackId != id)
            && (forall x :: x in t.daily <==> x in db.daily && x.trackId != id)
  {
    var t := Delete(db, id, rank).value;
    var a := t.removed[|t.removed| - 1];
    RemainingTracks(db.tracks, id);
    RemainingSources(db.sources, id);
    RemainingAssignments(db.assignments, id);
    RemainingDaily(db.daily, id, id);
    SortHas(DailyOf(db.daily, id), (d: DailyRow) => rank(d.date));
    var urls := TrackSources.SourcesFor(db.sources, id);
    TrackSources.OfTrackHas(db.sources, id);
    SortHas(TrackSources.OfTrack(db.sources, id), TrackSources.SourceId);
    forall u
      ensures u in a.sources <==> exists x <- db.sources :: x.trackId == id && x.url == u
    {
      if u in a.sources {
        var i :| 0 <= i < |urls| && a.sources[i] == u;
        assert urls[i] in urls && urls[i] in db.sources;
      }
      if x :| x in db.sources && x.trackId == id && x.url == u {
        assert x in urls;
        var i :| 0 <= i < |urls| && urls[i] == x;
        assert a.sources[i] == u;
      }
    }
    var tags := SortBy(AssignmentsOf(db.assignments, id), ByTag);
    SortHas(AssignmentsOf(db.assignments, id), ByTag);
    forall g
      ensures g in a.tagIds <==> exists x <- db.assignments :: x.trackId == id && x.tagId == g
    {
      if g in a.tagIds {
        var i :| 0 <= i < |tags| && a.tagIds[i] == g;
        assert tags[i] in tags && tags[i] in db.assignments;
      }
      if x :| x in db.assignments && x.trackId == id && x.tagId == g {
        assert x in tags;
        var i :| 0 <= i < |tags| && tags[i] == x;
        assert a.tagIds[i] == g;
      }
    }
  }

  // ---------------------------------------------------------------------------
  // Adding and editing tracks
  // ---------------------------------------------------------------------------

  /** The id was never given out: no day can carry it. */
  lemma {:induction false} FreshIdHasNoDays(daily: seq<DailyRow>, id: int)
    requires forall d <- daily :: d.trackId != id
    ensures Listened(daily, DaysOf(id)) == 0
    decreases |daily|
  {
    if daily != [] {
      assert daily[0] in daily && forall d <- daily[1..] :: d in daily;
      FreshIdHasNoDays(daily[1..], id);
    }
  }

  lemma {:induction false} LiveSnoc(tracks: seq<TrackRow>, t: TrackRow, who: int -> bool)
    ensures Live(tracks + [t], who) == Live(tracks, who) + if who(t.id) then t.listenedSeconds else 0
    decreases |tracks|
  {
    if tracks == [] {
      assert tracks + [t] == [t];
    } else {
      assert (tracks + [t])[1..] == tracks[1..] + [t];
      LiveSnoc(tracks[1..], t, who);
    }
  }

  /** The statement leaves the ledger balanced and moves no second. */
  ghost predicate Balanced(db: Db, t: Db, who: int -> bool, on: (Date, int) -> bool) {
    LedgerInv(t) && Seconds(t, who) == Seconds(db, who) && DaySeconds(t, on) == DaySeconds(db, on)
  }

  lemma InsertTrackKeepsLedger(db: Db, t: NewTrack, who: int -> bool, on: (Date, int) -> bool)
    requires LedgerInv(db) && InsertTrack(db, t).Ok?
    ensures Balanced(db, InsertTrack(db, t).value, who, on)
  {
    var u := InsertTrack(db, t).value;
    var row := RowOf(t, db.trackSeq + 1);
    LiveSnoc(db.tracks, row, who);
    forall d <- db.daily
      ensures d.trackId != row.id && HasTrack(u.tracks, d.trackId)
    {
      var r :| r in db.tracks && r.id == d.trackId;
      assert r in u.tracks;
    }
    FreshIdHasNoDays(db.daily, row.id);
    forall i, j | 0 <= i < j < |u.tracks|
      ensures u.tracks[i].id != u.tracks[j].id
    {
      assert i < |db.tracks| && db.tracks[i] in db.tracks;
    }
  }

  lemma {:induction false} AddEachKeepsLedger(db: Db, ts: seq<NewTrack>, who: int -> bool, on: (Date, int) -> bool)
    requires LedgerInv(db) && BatchWrites.AddEach(db, ts).Ok?
    ensures Balanced(db, BatchWrites.AddEach(db, ts).value.0, who, on)
    decreases |ts|
  {
    if ts != [] {
      InsertTrackKeepsLedger(db, ts[0], who, on);
      var mid := InsertTrack(db, ts[0]).value;
      var pairs := BatchWrites.PairsWith(mid.trackSeq, ts[0].sources);
      assert mid.tracks[|mid.tracks| - 1] in mid.tracks;
      BatchWrites.SourcesIgnoreOtherTracks(mid, pairs, mid.tracks, mid.trackSeq);
      AddEachKeepsLedger(BatchWrites.AddTrack(db, ts[0]).value.0, ts[1..], who, on);
    }
  }
}
