/**
 A page of tracks with their sources in two queries: one IN query for all sources of the page, grouped by
 track afterwards, instead of one query per track.
 */
module TrackSources {
  import opened Database
  import opened Sorting

  datatype TrackWithSources = TrackWithSources(track: TrackRow, sources: seq<SourceRow>)

  function SourceId(s: SourceRow): int { s.id }

  /** `WHERE track_id = ?`. */
  function OfTrack(table: seq<SourceRow>, trackId: int): seq<SourceRow> {
    if table == [] then []
    else if table[0].trackId == trackId then [table[0]] + OfTrack(table[1..], trackId)
    else OfTrack(table[1..], trackId)
  }

  /** `WHERE track_id IN (...)`. */
  function OfTracks(table: seq<SourceRow>, ids: seq<int>): seq<SourceRow> {
    if table == [] then []
    else if table[0].trackId in ids then [table[0]] + OfTracks(table[1..], ids)
    else OfTracks(table[1..], ids)
  }

  /** `get_sources_for_track`. */
  function SourcesFor(table: seq<SourceRow>, trackId: int): seq<SourceRow> {
    SortBy(OfTrack(table, trackId), SourceId)
  }

  lemma {:induction false} OfTrackHas(table: seq<SourceRow>, trackId: int)
    ensures forall s :: s in OfTrack(table, trackId) <==> s in table && s.trackId == trackId
    ensures DistinctKeys(table, SourceId) ==> DistinctKeys(OfTrack(table, trackId), SourceId)
    ensures Ascending(table, SourceId) ==> Ascending(OfTrack(table, trackId), SourceId)
    decreases |table|
  {
    if table != [] {
      OfTrackHas(table[1..], trackId);
      assert table == [table[0]] + table[1..];
      var rest := OfTrack(table[1..], trackId);
      forall i | 0 <= i < |rest|
        ensures rest[i] in table[1..]
      {
        assert rest[i] in rest;
      }
    }
  }

  lemma {:induction false} OfTracksHas(table: seq<SourceRow>, ids: seq<int>)
    ensures forall s :: s in OfTracks(table, ids) <==> s in table && s.trackId in ids
    ensures DistinctKeys(table, SourceId) ==> DistinctKeys(OfTracks(table, ids), SourceId)
    decreases |table|
  {
    if table != [] {
      OfTracksHas(table[1..], ids);
      assert table == [table[0]] + table[1..];
      var rest := OfTracks(table[1..], ids);
      forall i | 0 <= i < |rest|
        ensures rest[i] in table[1..]
      {
        assert rest[i] in rest;
      }
    }
  }

  /** Picking one track's rows out of the sorted IN query gives what its own sorted query gives. */
  lemma GroupIsOwnQuery(table: seq<SourceRow>, ids: seq<int>, trackId: int)
    requires DistinctKeys(table, SourceId) && trackId in ids
    ensures OfTrack(SortBy(OfTracks(table, ids), SourceId), trackId) == SourcesFor(table, trackId)
  {
    var all := SortBy(OfTracks(table, ids), SourceId);
    OfTracksHas(table, ids);
    SortAscends(OfTracks(table, ids), SourceId);
    SortHas(OfTracks(table, ids), SourceId);
    OfTrackHas(all, trackId);
    OfTrackHas(table, trackId);
    SortAscends(OfTrack(table, trackId), SourceId);
    SortHas(OfTrack(table, trackId), SourceId);
    AscendingIsUnique(OfTrack(all, trackId), SourcesFor(table, trackId), SourceId);
  }

  lemma OfTrackSnoc(xs: seq<SourceRow>, x: SourceRow, trackId: int)
    ensures OfTrack(xs + [x], trackId)
            == if x.trackId == trackId then OfTrack(xs, trackId) + [x] else OfTrack(xs, trackId)
    decreases |xs|
  {
    if xs == [] {
      assert xs + [x] == [x];
    } else {
      assert (xs + [x])[1..] == xs[1..] + [x];
      OfTrackSnoc(xs[1..], x, trackId);
      var rest := OfTrack(xs[1..], trackId);
      assert ([xs[0]] + rest) + [x] == [xs[0]] + (rest + [x]);
    }
  }

  function Group(m: map<int, seq<SourceRow>>, trackId: int): seq<SourceRow> {
    if trackId in m then m[trackId] else []
  }

  method GroupByTrack(all: seq<SourceRow>) returns (groups: map<int, seq<SourceRow>>)
    ensures forall id :: Group(groups, id) == OfTrack(all, id)
  {
    groups := map[];
    for i := 0 to |all|
      invariant forall id :: Group(groups, id) == OfTrack(all[..i], id)
    {
      assert all[..i + 1] == all[..i] + [all[i]];
      forall id {
        OfTrackSnoc(all[..i], all[i], id);
      }
      var id := all[i].trackId;
      groups := groups[id := Group(groups, id) + [all[i]]];
    }
    assert all[..|all|] == all;
  }

  /** Row by row the same as asking for each track's sources, whatever the tables hold. */
  method GetTracksWithSources(tracks: seq<TrackRow>, table: seq<SourceRow>) returns (r: seq<TrackWithSources>)
    requires forall i, j :: 0 <= i < j < |tracks| ==> tracks[i].id != tracks[j].id
    requires DistinctKeys(table, SourceId)
    ensures |r| == |tracks|
    ensures forall i :: 0 <= i < |tracks| ==> r[i] == TrackWithSources(tracks[i], SourcesFor(table, tracks[i].id))
  {
    if tracks == [] {
      return [];
    }
    var ids := seq(|tracks|, i requires 0 <= i < |tracks| => tracks[i].id);
    var all := SortBy(OfTracks(table, ids), SourceId);
    var groups := GroupByTrack(all);
    r := [];
    for i := 0 to |tracks|
      invariant |r| == i
      invariant forall j :: 0 <= j < i ==> r[j] == TrackWithSources(tracks[j], SourcesFor(table, tracks[j].id))
      invariant forall j :: i <= j < |tracks| ==> Group(groups, tracks[j].id) == OfTrack(all, tracks[j].id)
    {
      var id := tracks[i].id;
      assert ids[i] == id;
      GroupIsOwnQuery(table, ids, id);
      r := r + [TrackWithSources(tracks[i], Group(groups, id))];
      groups := groups - {id};
    }
  }
}
