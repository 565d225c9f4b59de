/**
 The remaining calls of the repository, seen from outside: on which tables each one succeeds, and what it changes.
 Tables are looked at here as the sets of what they pair.
 */
module CallEffects {
  import opened Wrappers
  import opened Database
  import opened BatchWrites
  import opened ListeningLedger
  import opened RepositoryRuns
  import opened TableKeys

  function Tagged(db: Db): set<(int, int)> { set a | a in db.assignments :: (a.trackId, a.tagId) }

  function Listed(db: Db): set<(int, Url)> { set s | s in db.sources :: (s.trackId, s.url) }

  /** The assignment is there already, or its track and its tag are. */
  ghost predicate Assignable(db: Db, pair: (int, int)) {
    pair in Tagged(db) || (HasTrack(db.tracks, pair.0) && pair.1 in db.tags)
  }

  /** The pairs a list of assignments asks for. */
  function Asked(assignments: seq<TagAssignment>): set<(int, int)> {
    set a, g | a in assignments && g in a.tagIds :: (a.trackId, g)
  }

  function AskedOfOne(trackId: int, tagIds: seq<int>): set<(int, int)> { set g | g in tagIds :: (trackId, g) }

  lemma AssignDoes(db: Db, trackId: int, tagId: int, burn: bool)
    ensures var r := InsertOrIgnoreAssignment(db, trackId, tagId, burn);
            && (r.Ok? <==> Assignable(db, (trackId, tagId)))
            && (r.Ok? ==> Tagged(r.value) == Tagged(db) + {(trackId, tagId)} && OnlyTagsChanged(db, r.value)
                          && r.value.tags == db.tags)
  {
    var r := InsertOrIgnoreAssignment(db, trackId, tagId, burn);
    if r.Ok? {
      var rows := r.value.assignments;
      assert forall a <- db.assignments :: a in rows;
      assert rows != db.assignments ==> rows[|db.assignments|] in rows;
      assert Tagged(r.value) == Tagged(db) + {(trackId, tagId)};
    }
  }

  /** What stays assignable when one more pair is there. */
  lemma AssignableNext(db: Db, next: Db, pair: (int, int), other: (int, int))
    requires Tagged(next) == Tagged(db) + {pair} && next.tracks == db.tracks && next.tags == db.tags
    requires Assignable(db, pair)
    ensures Assignable(next, other) <==> Assignable(db, other)
  {
  }

  lemma AskedTail(trackId: int, tagIds: seq<int>)
    requires tagIds != []
    ensures AskedOfOne(trackId, tagIds) == {(trackId, tagIds[0])} + AskedOfOne(trackId, tagIds[1..])
  {
    assert tagIds == [tagIds[0]] + tagIds[1..];
    forall p
      ensures p in AskedOfOne(trackId, tagIds) <==> p in {(trackId, tagIds[0])} + AskedOfOne(trackId, tagIds[1..])
    {
      assert p.1 in tagIds <==> p.1 == tagIds[0] || p.1 in tagIds[1..];
      assert p in AskedOfOne(trackId, tagIds) <==> p == (trackId, p.1) && p.1 in tagIds;
    }
  }

  lemma {:induction false} AssignOneTrackDoes(db: Db, trackId: int, tagIds: seq<int>, burn: bool)
    ensures var r := AssignEachTag(db, trackId, tagIds, burn);
            && (r.Ok? <==> forall p <- AskedOfOne(trackId, tagIds) :: Assignable(db, p))
            && (r.Ok? ==> Tagged(r.value) == Tagged(db) + AskedOfOne(trackId, tagIds)
                          && r.value.tracks == db.tracks && r.value.tags == db.tags)
    decreases |tagIds|
  {
    if tagIds != [] {
      var pair := (trackId, tagIds[0]);
      AskedTail(trackId, tagIds);
      AssignDoes(db, trackId, tagIds[0], burn);
      var first := InsertOrIgnoreAssignment(db, trackId, tagIds[0], burn);
      if first.Ok? {
        AssignOneTrackDoes(first.value, trackId, tagIds[1..], burn);
        forall p: (int, int)
          ensures Assignable(first.value, p) <==> Assignable(db, p)
        {
          AssignableNext(db, first.value, pair, p);
        }
      }
    }
  }

  lemma AskedCons(assignments: seq<TagAssignment>)
    requires assignments != []
    ensures Asked(assignments) == AskedOfOne(assignments[0].trackId, assignments[0].tagIds) + Asked(assignments[1..])
  {
    assert assignments == [assignments[0]] + assignments[1..];
  }

  /** `assign_tags` succeeds if and only if every pair it asks for is assignable, and then exactly these are added. */
  lemma {:induction false} AssignAllDoes(db: Db, assignments: seq<TagAssignment>, burn: bool)
    ensures var r := AssignEach(db, assignments, burn);
            && (r.Ok? <==> forall p <- Asked(assignments) :: Assignable(db, p))
            && (r.Ok? ==> Tagged(r.value) == Tagged(db) + Asked(assignments)
                          && r.value.tracks == db.tracks && r.value.tags == db.tags)
    decreases |assignments|
  {
    if assignments != [] {
      var a := assignments[0];
      AskedCons(assignments);
      AssignOneTrackDoes(db, a.trackId, a.tagIds, burn);
      var first := AssignEachTag(db, a.trackId, a.tagIds, burn);
      if first.Ok? {
        AssignAllDoes(first.value, assignments[1..], burn);
        assert forall p: (int, int) {:trigger Assignable(db, p)} {:trigger Assignable(first.value, p)} ::
            Assignable(first.value, p) <==> Assignable(db, p);
      }
    }
  }

  /** When a call about tags succeeds, and what it does to the tags and to who carries them. */
  lemma TagCallsDo(db: Db, call: Call, env: Env)
    requires IsTagCall(call)
    ensures var r := Apply(db, call, env);
            match call
            case AddTagCall(tag) =>
              (r.Ok? <==> tag !in db.tags)
              && (r.Ok? ==> r.value.tags == db.tags + [tag] && Tagged(r.value) == Tagged(db))
            case DeleteTagCall(tag) =>
              r.Ok? && (forall g :: g in r.value.tags <==> g in db.tags && g != tag)
              && forall p :: p in Tagged(r.value) <==> p in Tagged(db) && p.1 != tag
            case AssignTagCall(track, tag) =>
              (r.Ok? <==> Assignable(db, (track, tag)))
              && (r.Ok? ==> Tagged(r.value) == Tagged(db) + {(track, tag)} && r.value.tags == db.tags)
            case AssignTagsCall(assignments) =>
              (r.Ok? <==> forall p <- Asked(assignments) :: Assignable(db, p))
              && (r.Ok? ==> Tagged(r.value) == Tagged(db) + Asked(assignments) && r.value.tags == db.tags)
            case RemoveTagCall(track, tag) =>
              r.Ok? && Tagged(r.value) == Tagged(db) - {(track, tag)} && r.value.tags == db.tags
            case _ => false
  {
    match call
    case DeleteTagCall(tag) =>
      TagRowsLeft(db.assignments, tag);
      TagsLeft(db.tags, tag);
    case AssignTagCall(track, tag) => AssignDoes(db, track, tag, env.burn);
    case AssignTagsCall(assignments) => AssignAllDoes(db, assignments, env.burn);
    case RemoveTagCall(track, tag) =>
      AssignmentsLeft(db.assignments, track, tag);
      assert Tagged(Apply(db, call, env).value) == Tagged(db) - {(track, tag)};
    case _ =>
  }

  lemma SourceInserted(db: Db, trackId: int, url: Url)
    ensures var r := InsertSource(db, trackId, url);
            && (r.Ok? <==> HasTrack(db.tracks, trackId) && (trackId, url) !in Listed(db))
            && (r.Ok? ==> Listed(r.value) == Listed(db) + {(trackId, url)})
  {
    var r := InsertSource(db, trackId, url);
    if r.Ok? {
      var rows := r.value.sources;
      assert rows[|db.sources|] in rows && forall s <- db.sources :: s in rows;
      assert Listed(r.value) == Listed(db) + {(trackId, url)};
    }
  }

  lemma SourceRemoved(db: Db, trackId: int, url: Url)
    ensures Listed(RemoveSource(db, trackId, url)) == Listed(db) - {(trackId, url)}
  {
    SourcesLeft(db.sources, trackId, url);
  }

  /** When a call about sources succeeds, and what it does to the lists. */
  lemma SourceCallsDo(db: Db, call: Call, env: Env)
    requires IsSourceCall(call)
    ensures var r := Apply(db, call, env);
            match call
            case AddSourceCall(track, url) =>
              (r.Ok? <==> HasTrack(db.tracks, track) && (track, url) !in Listed(db))
              && (r.Ok? ==> Listed(r.value) == Listed(db) + {(track, url)})
            case RemoveSourceCall(track, url) => r.Ok? && Listed(r.value) == Listed(db) - {(track, url)}
            case EditSourceCall(track, from, to) =>
              (r.Ok? <==> HasTrack(db.tracks, track) && (from == to || (track, to) !in Listed(db)))
              && (r.Ok? ==> Listed(r.value) == Listed(db) - {(track, from)} + {(track, to)})
            case _ => false
  {
    match call
    case AddSourceCall(track, url) => SourceInserted(db, track, url);
    case RemoveSourceCall(track, url) => SourceRemoved(db, track, url);
    case EditSourceCall(track, from, to) =>
      SourceRemoved(db, track, from);
      SourceInserted(RemoveSource(db, track, from), track, to);
  }

  /** After the update no other row would have the same artist and name. */
  ghost predicate NameStaysFree(tracks: seq<TrackRow>, id: int, u: TrackUpdate) {
    forall t <- tracks, r <- tracks :: t.id == id && r.id != id ==>
      r.artist != (if u.artist.Some? then u.artist.value else t.artist)
      || r.trackName != (if u.trackName.Some? then u.trackName.value else t.trackName)
  }

  /** An update succeeds if and only if the name it leads to is free; it writes the given columns of that row only. */
  lemma UpdateDoes(db: Db, id: int, u: TrackUpdate, env: Env)
    requires DistinctIds(db.tracks)
    ensures var r := Apply(db, UpdateTrackCall(id, u), env);
            && (r.Ok? <==> NameStaysFree(db.tracks, id, u))
            && (r.Ok? ==> |r.value.tracks| == |db.tracks| && r.value == db.(tracks := r.value.tracks)
                          && forall i :: 0 <= i < |db.tracks| ==>
                               ColumnsUpdated(db.tracks[i], r.value.tracks[i], id, u))
  {
    UpdatedColumns(db.tracks, id, u);
    if HasTrack(db.tracks, id) {
      OnlyOneToUpdate(db.tracks, id);
    } else {
      assert forall t <- db.tracks :: t.id != id;
    }
  }

  lemma OnlyOneToUpdate(tracks: seq<TrackRow>, id: int)
    requires DistinctIds(tracks) && HasTrack(tracks, id)
    ensures forall t <- tracks :: t.id == id ==> t == Find(tracks, id)
  {
  }

  /** A credit and a delete succeed if and only if the track is there. */
  lemma KnownTracksOnly(db: Db, id: int, seconds: int, date: Date, env: Env)
    ensures Apply(db, AddListenedSecondsCall(id, seconds, date), env).Ok? <==> exists t <- db.tracks :: t.id == id
    ensures Apply(db, DeleteTrackCall(id), env).Ok? <==> exists t <- db.tracks :: t.id == id
  {
    CreditedIds(db.tracks, id, seconds);
  }
}
