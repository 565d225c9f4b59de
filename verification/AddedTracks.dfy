/**
 Adding tracks, seen from outside: which inputs are accepted, and that everything added is read back, column by column
 and source by source, under the id that was returned.
 */
module AddedTracks {
  import opened Wrappers
  import opened Database
  import opened BatchWrites
  import opened ListeningLedger
  import opened RepositoryRuns
  import opened Sorting
  import TrackSources

  // ---------------------------------------------------------------------------
  // Sources of one new track
  // ---------------------------------------------------------------------------

  ghost predicate NoRepeat(urls: seq<Url>) {
    forall i, j :: 0 <= i < j < |urls| ==> urls[i] != urls[j]
  }

  ghost predicate HasUrl(rows: seq<SourceRow>, trackId: int, url: Url) {
    exists r <- rows :: r.trackId == trackId && r.url == url
  }

  lemma PairsTail(id: int, urls: seq<Url>)
    requires urls != []
    ensures PairsWith(id, urls)[0] == (id, urls[0]) && PairsWith(id, urls)[1..] == PairsWith(id, urls[1..])
  {
  }

  lemma NoRepeatTail(urls: seq<Url>)
    requires urls != []
    ensures NoRepeat(urls) <==> NoRepeat(urls[1..]) && urls[0] !in urls[1..]
  {
    if NoRepeat(urls[1..]) && urls[0] !in urls[1..] {
      forall i, j | 0 <= i < j < |urls|
        ensures urls[i] != urls[j]
      {
        assert urls[j] == urls[1..][j - 1];
        assert i > 0 ==> urls[i] == urls[1..][i - 1];
      }
    }
  }

  /** None of them is a source of the track already. */
  ghost predicate Free(rows: seq<SourceRow>, id: int, urls: seq<Url>) {
    forall u <- urls :: !HasUrl(rows, id, u)
  }

  lemma FreeTail(rows: seq<SourceRow>, id: int, urls: seq<Url>)
    requires urls != []
    ensures Free(rows, id, urls) <==> !HasUrl(rows, id, urls[0]) && Free(rows, id, urls[1..])
  {
    assert urls == [urls[0]] + urls[1..];
  }

  lemma FreeNext(rows: seq<SourceRow>, row: SourceRow, urls: seq<Url>)
    ensures Free(rows + [row], row.trackId, urls) <==> row.url !in urls && Free(rows, row.trackId, urls)
  {
    assert row in rows + [row] && forall r <- rows :: r in rows + [row];
    assert forall u :: HasUrl(rows + [row], row.trackId, u) <==> u == row.url || HasUrl(rows, row.trackId, u);
  }

  /** The sources of a track that is there go in if and only if none is there already and none comes twice. */
  lemma {:induction false} SourcesGoInIff(db: Db, id: int, urls: seq<Url>)
    requires HasTrack(db.tracks, id)
    ensures InsertSources(db, PairsWith(id, urls)).Ok? <==> NoRepeat(urls) && Free(db.sources, id, urls)
    decreases |urls|
  {
    if urls != [] {
      PairsTail(id, urls);
      NoRepeatTail(urls);
      FreeTail(db.sources, id, urls);
      if InsertSource(db, id, urls[0]).Ok? {
        var next := InsertSource(db, id, urls[0]).value;
        SourcesGoInIff(next, id, urls[1..]);
        FreeNext(db.sources, SourceRow(db.sourceSeq + 1, id, urls[0]), urls[1..]);
      }
    }
  }

  /** These rows are of that track, with these urls in their order. */
  ghost predicate RowsFor(rows: seq<SourceRow>, id: int, urls: seq<Url>) {
    |rows| == |urls| && forall i :: 0 <= i < |rows| ==> rows[i].trackId == id && rows[i].url == urls[i]
  }

  lemma RowsForCons(before: seq<SourceRow>, row: SourceRow, after: seq<SourceRow>, urls: seq<Url>)
    requires urls != [] && row.url == urls[0] && before + [row] <= after
    requires RowsFor(after[|before| + 1..], row.trackId, urls[1..])
    ensures before <= after && RowsFor(after[|before|..], row.trackId, urls)
  {
    assert after[|before|] == (before + [row])[|before|] == row;
    assert after[|before|..] == [row] + after[|before| + 1..];
    assert before <= before + [row];
  }

  /** They become rows of that track at the end of the table, in order. */
  lemma {:induction false} InsertedSources(db: Db, id: int, urls: seq<Url>)
    requires InsertSources(db, PairsWith(id, urls)).Ok?
    ensures var t := InsertSources(db, PairsWith(id, urls)).value;
            && t == db.(sources := t.sources, sourceSeq := db.sourceSeq + |urls|)
            && db.sources <= t.sources && RowsFor(t.sources[|db.sources|..], id, urls)
    decreases |urls|
  {
    if urls != [] {
      PairsTail(id, urls);
      var next := InsertSource(db, id, urls[0]).value;
      InsertedSources(next, id, urls[1..]);
      var t := InsertSources(next, PairsWith(id, urls[1..])).value;
      RowsForCons(db.sources, SourceRow(db.sourceSeq + 1, id, urls[0]), t.sources, urls);
    }
  }

  // ---------------------------------------------------------------------------
  // Reading sources back
  // ---------------------------------------------------------------------------

  lemma {:induction false} OfTrackConcat(xs: seq<SourceRow>, ys: seq<SourceRow>, id: int)
    ensures TrackSources.OfTrack(xs + ys, id) == TrackSources.OfTrack(xs, id) + TrackSources.OfTrack(ys, id)
    decreases |xs|
  {
    if xs == [] {
      assert xs + ys == ys;
    } else {
      assert (xs + ys)[1..] == xs[1..] + ys;
      OfTrackConcat(xs[1..], ys, id);
    }
  }

  lemma {:induction false} OfTrackAll(rows: seq<SourceRow>, id: int)
    requires forall i :: 0 <= i < |rows| ==> rows[i].trackId == id
    ensures TrackSources.OfTrack(rows, id) == rows
    decreases |rows|
  {
    if rows != [] {
      OfTrackAll(rows[1..], id);
    }
  }

  lemma {:induction false} OfTrackNone(rows: seq<SourceRow>, id: int)
    requires forall i :: 0 <= i < |rows| ==> rows[i].trackId != id
    ensures TrackSources.OfTrack(rows, id) == []
    decreases |rows|
  {
    if rows != [] {
      OfTrackNone(rows[1..], id);
    }
  }

  /** Rows are in id order already, so the query returns them as they stand. */
  lemma SourcesForIsOfTrack(rows: seq<SourceRow>, id: int)
    requires Ascending(rows, TrackSources.SourceId)
    ensures TrackSources.SourcesFor(rows, id) == TrackSources.OfTrack(rows, id)
  {
    var mine := TrackSources.OfTrack(rows, id);
    TrackSources.OfTrackHas(rows, id);
    SortAscends(mine, TrackSources.SourceId);
    SortHas(mine, TrackSources.SourceId);
    AscendingIsUnique(SortBy(mine, TrackSources.SourceId), mine, TrackSources.SourceId);
  }

  /** Sources of other tracks that are added later do not show. */
  lemma LaterSourcesDoNotShow(before: seq<SourceRow>, after: seq<SourceRow>, id: int)
    requires before <= after && Ascending(after, TrackSources.SourceId)
    requires forall j :: |before| <= j < |after| ==> after[j].trackId != id
    ensures TrackSources.SourcesFor(after, id) == TrackSources.SourcesFor(before, id)
  {
    assert after == before + after[|before|..];
    assert Ascending(before, TrackSources.SourceId);
    SourcesForIsOfTrack(before, id);
    SourcesForIsOfTrack(after, id);
    OfTrackConcat(before, after[|before|..], id);
    OfTrackNone(after[|before|..], id);
  }

  // ---------------------------------------------------------------------------
  // Reading tracks back
  // ---------------------------------------------------------------------------

  /** The input's columns, and no second listened yet. */
  predicate HoldsColumns(r: TrackRow, n: NewTrack) {
    && r.artist == n.artist && r.trackName == n.trackName && r.lengthSeconds == n.lengthSeconds
    && r.bitrateKbps == n.bitrateKbps && r.additionTime == n.additionTime && r.listenedSeconds == 0
  }

  /** The row under this id holds the input's columns, and its sources are the input's urls. */
  ghost predicate Stored(t: Db, id: int, n: NewTrack) {
    && HasTrack(t.tracks, id) && HoldsColumns(Find(t.tracks, id), n)
    && Urls(TrackSources.SourcesFor(t.sources, id)) == n.sources
  }

  lemma FindIsRow(tracks: seq<TrackRow>, k: nat)
    requires DistinctIds(tracks) && k < |tracks|
    ensures HasTrack(tracks, tracks[k].id) && Find(tracks, tracks[k].id) == tracks[k]
  {
    assert tracks[k] in tracks;
    var r := Find(tracks, tracks[k].id);
    var j :| 0 <= j < |tracks| && tracks[j] == r;
  }

  lemma FindStays(before: seq<TrackRow>, after: seq<TrackRow>, id: int)
    requires before <= after && DistinctIds(after) && HasTrack(before, id)
    ensures HasTrack(after, id) && Find(after, id) == Find(before, id)
  {
    var r := Find(before, id);
    var k :| 0 <= k < |before| && before[k] == r;
    FindIsRow(after, k);
  }

  /** What `add_track` of one track leaves of everything else. */
  ghost predicate OnlyAdds(db: Db, t: Db) {
    && db.tracks <= t.tracks && db.sources <= t.sources
    && (forall j :: |db.sources| <= j < |t.sources| ==> t.sources[j].trackId > db.trackSeq)
    && t == db.(tracks := t.tracks, trackSeq := t.trackSeq, sources := t.sources, sourceSeq := t.sourceSeq)
  }

  lemma NewIdHasNoSources(db: Db)
    requires LedgerInv(db) && SourcesInv(db)
    ensures forall i :: 0 <= i < |db.sources| ==> db.sources[i].trackId <= db.trackSeq
  {
    forall i | 0 <= i < |db.sources|
      ensures db.sources[i].trackId <= db.trackSeq
    {
      assert db.sources[i] in db.sources;
      var r :| r in db.tracks && r.id == db.sources[i].trackId;
    }
  }

  lemma AddTrackKeepsInvs(db: Db, n: NewTrack)
    requires LedgerInv(db) && TablesInv(db) && AddTrack(db, n).Ok?
    ensures var t := AddTrack(db, n).value.0; LedgerInv(t) && TablesInv(t)
  {
    AddEachOfOne(db, n);
    AddEachKeepsLedger(db, [n], Everyone, EveryDay);
    AddEachKeepsTables(db, [n]);
  }

  /** Rows appended for one new track are what its query returns. */
  lemma AppendedAreReadBack(before: seq<SourceRow>, after: seq<SourceRow>, id: int, urls: seq<Url>)
    requires before <= after && Ascending(after, TrackSources.SourceId) && RowsFor(after[|before|..], id, urls)
    requires forall i :: 0 <= i < |before| ==> before[i].trackId != id
    ensures Urls(TrackSources.SourcesFor(after, id)) == urls
  {
    var added := after[|before|..];
    assert after == before + added;
    SourcesForIsOfTrack(after, id);
    OfTrackConcat(before, added, id);
    OfTrackNone(before, id);
    OfTrackAll(added, id);
    assert [] + added == added;
    assert Urls(added) == urls;
  }

  /** The new row and the new sources, at the ends of their tables. */
  lemma AddTrackAppends(db: Db, n: NewTrack)
    requires AddTrack(db, n).Ok?
    ensures var (t, id) := AddTrack(db, n).value;
            && id == t.trackSeq == db.trackSeq + 1
            && t == db.(tracks := t.tracks, trackSeq := t.trackSeq, sources := t.sources, sourceSeq := t.sourceSeq)
            && db.tracks <= t.tracks && |t.tracks| == |db.tracks| + 1
            && t.tracks[|db.tracks|].id == id && HoldsColumns(t.tracks[|db.tracks|], n)
            && db.sources <= t.sources && RowsFor(t.sources[|db.sources|..], id, n.sources)
  {
    var mid := InsertTrack(db, n).value;
    InsertedSources(mid, mid.trackSeq, n.sources);
  }

  lemma AddTrackStores(db: Db, n: NewTrack)
    requires LedgerInv(db) && TablesInv(db) && AddTrack(db, n).Ok?
    ensures var (t, id) := AddTrack(db, n).value;
            && id == t.trackSeq == db.trackSeq + 1 && Stored(t, id, n) && OnlyAdds(db, t)
            && |t.tracks| == |db.tracks| + 1
  {
    var (t, id) := AddTrack(db, n).value;
    AddTrackKeepsInvs(db, n);
    AddTrackAppends(db, n);
    FindIsRow(t.tracks, |db.tracks|);
    NewIdHasNoSources(db);
    AppendedAreReadBack(db.sources, t.sources, id, n.sources);
    forall j | |db.sources| <= j < |t.sources|
      ensures t.sources[j].trackId > db.trackSeq
    {
      assert t.sources[j] == t.sources[|db.sources|..][j - |db.sources|];
    }
  }

  lemma StoredStays(db: Db, t: Db, id: int, n: NewTrack)
    requires Stored(db, id, n) && OnlyAdds(db, t) && id <= db.trackSeq && LedgerInv(t) && TablesInv(t)
    ensures Stored(t, id, n)
  {
    FindStays(db.tracks, t.tracks, id);
    LaterSourcesDoNotShow(db.sources, t.sources, id);
  }

  /** One after the other from `from + 1` on, each id with what was given. */
  ghost predicate AllStored(t: Db, from: int, ids: seq<int>, ts: seq<NewTrack>) {
    |ids| == |ts| && forall k :: 0 <= k < |ts| ==> ids[k] == from + 1 + k && Stored(t, ids[k], ts[k])
  }

  lemma AllStoredCons(t: Db, from: int, id: int, n: NewTrack, ids: seq<int>, ts: seq<NewTrack>)
    requires id == from + 1 && Stored(t, id, n) && AllStored(t, from + 1, ids, ts)
    ensures AllStored(t, from, [id] + ids, [n] + ts)
  {
    forall k | 0 <= k < |ts| + 1
      ensures ([id] + ids)[k] == from + 1 + k && Stored(t, ([id] + ids)[k], ([n] + ts)[k])
    {
      assert k > 0 ==> ([id] + ids)[k] == ids[k - 1] && ([n] + ts)[k] == ts[k - 1];
    }
  }

  lemma OnlyAddsTrans(db: Db, mid: Db, t: Db)
    requires OnlyAdds(db, mid) && OnlyAdds(mid, t) && db.trackSeq <= mid.trackSeq
    ensures OnlyAdds(db, t)
  {
  }

  /**
   After a successful `add_tracks` the ids are new, one after the other, and under each of them stands what was given:
   every column of the row, and exactly the input's urls, in their order, as its sources.  Nothing else changes.
   */
  lemma {:induction false} AddEachStores(db: Db, ts: seq<NewTrack>)
    requires LedgerInv(db) && TablesInv(db) && AddEach(db, ts).Ok?
    ensures var (t, ids) := AddEach(db, ts).value;
            && LedgerInv(t) && TablesInv(t) && OnlyAdds(db, t) && t.trackSeq == db.trackSeq + |ts|
            && |t.tracks| == |db.tracks| + |ts| && AllStored(t, db.trackSeq, ids, ts)
    decreases |ts|
  {
    if ts != [] {
      AddTrackStores(db, ts[0]);
      AddTrackKeepsInvs(db, ts[0]);
      var (mid, id) := AddTrack(db, ts[0]).value;
      AddEachStores(mid, ts[1..]);
      var (t, rest) := AddEach(mid, ts[1..]).value;
      StoredStays(mid, t, id, ts[0]);
      AllStoredCons(t, db.trackSeq, id, ts[0], rest, ts[1..]);
      assert ts == [ts[0]] + ts[1..];
      OnlyAddsTrans(db, mid, t);
    }
  }

  // ---------------------------------------------------------------------------
  // What is accepted
  // ---------------------------------------------------------------------------

  predicate SameName(t: NewTrack, artist: string, trackName: string) {
    t.artist == artist && t.trackName == trackName
  }

  ghost predicate NameTaken(tracks: seq<TrackRow>, t: NewTrack) {
    exists r <- tracks :: SameName(t, r.artist, r.trackName)
  }

  /** All lengths are given, no name is taken or comes twice, no track lists a url twice. */
  ghost predicate Addable(db: Db, ts: seq<NewTrack>) {
    && (forall k :: 0 <= k < |ts| ==>
          ts[k].lengthSeconds.Some? && !NameTaken(db.tracks, ts[k]) && NoRepeat(ts[k].sources))
    && (forall j, k :: 0 <= j < k < |ts| ==> !SameName(ts[k], ts[j].artist, ts[j].trackName))
  }

  lemma AddTrackSucceedsIff(db: Db, n: NewTrack)
    requires LedgerInv(db) && SourcesInv(db)
    ensures AddTrack(db, n).Ok? <==> n.lengthSeconds.Some? && !NameTaken(db.tracks, n) && NoRepeat(n.sources)
  {
    if InsertTrack(db, n).Ok? {
      var mid := InsertTrack(db, n).value;
      assert mid.tracks[|db.tracks|] in mid.tracks;
      NewIdHasNoSources(db);
      SourcesGoInIff(mid, mid.trackSeq, n.sources);
    }
  }

  lemma NameTakenNext(db: Db, mid: Db, n: NewTrack, t: NewTrack)
    requires AddTrack(db, n).Ok? && mid == AddTrack(db, n).value.0
    ensures NameTaken(mid.tracks, t) <==> NameTaken(db.tracks, t) || SameName(t, n.artist, n.trackName)
  {
    var u := InsertTrack(db, n).value;
    InsertedSources(u, u.trackSeq, n.sources);
    assert mid.tracks == u.tracks;
    assert u.tracks[|db.tracks|] in u.tracks && forall r <- db.tracks :: r in u.tracks;
  }

  /** `add_tracks`, like adding one by one, succeeds on these inputs and on no others. */
  lemma {:induction false} AddEachSucceedsIff(db: Db, ts: seq<NewTrack>)
    requires LedgerInv(db) && TablesInv(db)
    ensures AddEach(db, ts).Ok? <==> Addable(db, ts)
    decreases |ts|
  {
    if ts != [] {
      AddTrackSucceedsIff(db, ts[0]);
      if AddTrack(db, ts[0]).Ok? {
        var mid := AddTrack(db, ts[0]).value.0;
        AddTrackKeepsInvs(db, ts[0]);
        AddEachSucceedsIff(mid, ts[1..]);
        AddableNext(db, mid, ts);
      }
    }
  }

  lemma AddableNext(db: Db, mid: Db, ts: seq<NewTrack>)
    requires LedgerInv(db) && SourcesInv(db) && ts != []
    requires AddTrack(db, ts[0]).Ok? && mid == AddTrack(db, ts[0]).value.0
    ensures Addable(db, ts) <==> Addable(mid, ts[1..])
  {
    AddTrackSucceedsIff(db, ts[0]);
    forall t: NewTrack
      ensures NameTaken(mid.tracks, t) <==> NameTaken(db.tracks, t) || SameName(t, ts[0].artist, ts[0].trackName)
    {
      NameTakenNext(db, mid, ts[0], t);
    }
    assert forall k :: 0 < k < |ts| ==> ts[k] == ts[1..][k - 1];
    if Addable(mid, ts[1..]) {
      forall j, k | 0 <= j < k < |ts|
        ensures !SameName(ts[k], ts[j].artist, ts[j].trackName)
      {
        assert ts[k] == ts[1..][k - 1];
        assert j > 0 ==> ts[j] == ts[1..][j - 1];
      }
    }
    if Addable(db, ts) {
      assert forall k :: 0 <= k < |ts| - 1 ==> ts[1..][k] == ts[k + 1];
    }
  }

  /**
   In particular after every run of calls: whether tracks are accepted, and what is then read back.
   */
  lemma AddedAreReadBack(attempts: seq<Attempt>, env: Env, ts: seq<NewTrack>)
    ensures var db := Run(EMPTY, attempts, env);
            && (AddEach(db, ts).Ok? <==> Addable(db, ts))
            && (AddEach(db, ts).Ok? ==>
                  var (t, ids) := AddEach(db, ts).value;
                  AllStored(t, db.trackSeq, ids, ts))
  {
    var db := Run(EMPTY, attempts, env);
    RunKeepsTables(EMPTY, attempts, env);
    AddEachSucceedsIff(db, ts);
    if AddEach(db, ts).Ok? {
      AddEachStores(db, ts);
    }
  }
}
