/**
 The filtered track query: criteria compiled to a WHERE clause, what that clause selects, and the page
 of it that is returned.

 `like` is LIKE on the pattern with a `%` on either side.  `emptyAny` is what an OR of nothing means to the
 query builder; everything proved holds for both answers.
 */
module TrackFilter {
  import opened Wrappers
  import opened Database
  import opened Sorting
  import P = Paging

  datatype CriteriaName =
    | Id | Artist | TrackName | LengthSeconds | BitrateKbps | TempoBpm | AdditionTime | Tags | ListenedSeconds

  /** Numeric comparisons, ranges and null checks are accepted and have no effect. */
  datatype Param =
    | NumericComparison
    | NumericBetween
    | NullCheck(isNull: bool)
    | TextLike(pattern: string, caseSensitive: bool)
    | TextIn(values: seq<string>)
    | TagsAny(tagIds: seq<int>)
    | TagsAll(tagIds: seq<int>)

  datatype Criteria = Criteria(filterName: CriteriaName, criteria: seq<Param>)

  // ---------------------------------------------------------------------------
  // The SQL that is built, and what it means
  // ---------------------------------------------------------------------------

  datatype Column = ArtistColumn | TrackNameColumn

  datatype Expr = IsIn(col: Column, values: seq<string>) | Like(col: Column, pattern: string)

  /** Both read `track_id` from `tag_assignments` where `tag_id IN ids`; the second groups and counts. */
  datatype Subquery =
    | SelectDistinct(ids: seq<int>)
    | GroupByTrackHavingCount(ids: seq<int>, count: int)

  datatype Condition = AnyOf(exprs: seq<Expr>) | IdIn(sub: Subquery)

  /** The WHERE clause is the AND of its conditions. */
  datatype Query = Query(where: seq<Condition>)

  datatype Meaning = Meaning(like: (string, string) -> bool, emptyAny: bool)

  function Cell(row: TrackRow, col: Column): string {
    match col case ArtistColumn => row.artist case TrackNameColumn => row.trackName
  }

  predicate HoldsExpr(row: TrackRow, e: Expr, m: Meaning) {
    match e
    case IsIn(col, values) => Cell(row, col) in values
    case Like(col, pattern) => m.like(pattern, Cell(row, col))
  }

  /** The distinct tags of one group of the grouped subquery. */
  function GroupTags(rows: seq<AssignmentRow>, ids: seq<int>, trackId: int): set<int> {
    set a | a in rows && a.tagId in ids && a.trackId == trackId :: a.tagId
  }

  function Selects(rows: seq<AssignmentRow>, sub: Subquery): set<int> {
    match sub
    case SelectDistinct(ids) => set a | a in rows && a.tagId in ids :: a.trackId
    case GroupByTrackHavingCount(ids, n) =>
      set a | a in rows && a.tagId in ids && |GroupTags(rows, ids, a.trackId)| == n :: a.trackId
  }

  predicate Holds(row: TrackRow, rows: seq<AssignmentRow>, c: Condition, m: Meaning) {
    match c
    case AnyOf(exprs) => if exprs == [] then m.emptyAny else exists e <- exprs :: HoldsExpr(row, e, m)
    case IdIn(sub) => row.id in Selects(rows, sub)
  }

  predicate Satisfies(row: TrackRow, rows: seq<AssignmentRow>, q: Query, m: Meaning) {
    forall c <- q.where :: Holds(row, rows, c, m)
  }

  // ---------------------------------------------------------------------------
  // What the criteria ask for
  // ---------------------------------------------------------------------------

  predicate Assigned(rows: seq<AssignmentRow>, trackId: int, tagId: int) {
    exists a <- rows :: a.trackId == trackId && a.tagId == tagId
  }

  predicate Duplicates(ids: seq<int>) {
    exists i, j :: 0 <= i < j < |ids| && ids[i] == ids[j]
  }

  predicate UsableText(p: Param) { p.TextLike? || (p.TextIn? && p.values != []) }

  predicate MatchesText(p: Param, text: string, m: Meaning) {
    (p.TextIn? && text in p.values) || (p.TextLike? && m.like(p.pattern, text))
  }

  /** `p` is one of the parameters given for `name`, in whichever entry. */
  predicate Given(cs: seq<Criteria>, name: CriteriaName, p: Param) {
    exists c <- cs :: c.filterName == name && p in c.criteria
  }

  predicate Named(cs: seq<Criteria>, name: CriteriaName) {
    exists c <- cs :: c.filterName == name
  }

  /** Some usable parameter for the column matches, if the column is named at all. */
  ghost predicate TextWanted(cs: seq<Criteria>, name: CriteriaName, text: string, m: Meaning) {
    Named(cs, name) ==>
      if exists p :: Given(cs, name, p) && UsableText(p)
      then exists p :: Given(cs, name, p) && UsableText(p) && MatchesText(p, text, m)
      else m.emptyAny
  }

  /** Any of the tags, or all of them.  An empty list asks for nothing; a repeated tag can never be met. */
  predicate TagWanted(p: Param, rows: seq<AssignmentRow>, trackId: int) {
    match p
    case TagsAny(ids) => ids != [] ==> exists t <- ids :: Assigned(rows, trackId, t)
    case TagsAll(ids) => ids != [] ==> (forall t <- ids :: Assigned(rows, trackId, t)) && !Duplicates(ids)
    case _ => true
  }

  ghost predicate Wanted(cs: seq<Criteria>, row: TrackRow, rows: seq<AssignmentRow>, m: Meaning) {
    && TextWanted(cs, TrackName, row.trackName, m)
    && TextWanted(cs, Artist, row.artist, m)
    && forall p :: Given(cs, Tags, p) ==> TagWanted(p, rows, row.id)
  }

  // ---------------------------------------------------------------------------
  // Counting distinct tags
  // ---------------------------------------------------------------------------

  function ToSet(ids: seq<int>): set<int> { set t | t in ids }

  lemma {:induction false} SetSize(ids: seq<int>)
    ensures |ToSet(ids)| <= |ids|
    ensures |ToSet(ids)| == |ids| <==> !Duplicates(ids)
    decreases |ids|
  {
    if ids == [] {
      assert ToSet(ids) == {};
    } else {
      var rest := ids[1..];
      SetSize(rest);
      assert ids == [ids[0]] + rest;
      if ids[0] in rest {
        assert ToSet(ids) == ToSet(rest);
        var k :| 0 <= k < |rest| && rest[k] == ids[0];
        assert ids[0] == ids[k + 1];
      } else {
        assert ToSet(ids) == ToSet(rest) + {ids[0]};
        assert Duplicates(rest) ==> Duplicates(ids) by {
          if Duplicates(rest) {
            var i, j :| 0 <= i < j < |rest| && rest[i] == rest[j];
            assert ids[i + 1] == ids[j + 1];
          }
        }
        assert Duplicates(ids) ==> Duplicates(rest) by {
          if Duplicates(ids) {
            var i, j :| 0 <= i < j < |ids| && ids[i] == ids[j];
            assert i > 0;
            assert rest[i - 1] == rest[j - 1];
          }
        }
      }
    }
  }

  lemma SubsetOfSameSize(a: set<int>, b: set<int>)
    requires a <= b && |a| == |b|
    ensures a == b
  {
    assert |b - a| == |b| - |a|;
  }

  /** GROUP BY ... HAVING COUNT(DISTINCT tag_id) = n selects the tracks with every tag, if no tag is repeated. */
  lemma CountMeansAll(rows: seq<AssignmentRow>, ids: seq<int>, trackId: int)
    requires ids != []
    ensures trackId in Selects(rows, GroupByTrackHavingCount(ids, |ids|)) <==>
            (forall t <- ids :: Assigned(rows, trackId, t)) && !Duplicates(ids)
  {
    var group, wanted := GroupTags(rows, ids, trackId), ToSet(ids);
    SetSize(ids);
    assert group <= wanted;
    SubsetSize(group, wanted);
    if |group| == |ids| {
      SubsetOfSameSize(group, wanted);
      forall t <- ids
        ensures Assigned(rows, trackId, t)
      {
        assert t in group;
      }
      assert ids[0] in group;
      var a :| a in rows && a.tagId == ids[0] && a.trackId == trackId;
      assert a.trackId in Selects(rows, GroupByTrackHavingCount(ids, |ids|));
    } else if forall t <- ids :: Assigned(rows, trackId, t) {
      forall t <- wanted
        ensures t in group
      {
        assert Assigned(rows, trackId, t);
      }
      assert group == wanted;
    }
  }

  lemma SubsetSize(a: set<int>, b: set<int>)
    requires a <= b
    ensures |a| <= |b|
  {
    assert |b - a| == |b| - |a|;
  }

  lemma DistinctMeansAny(rows: seq<AssignmentRow>, ids: seq<int>, trackId: int)
    ensures trackId in Selects(rows, SelectDistinct(ids)) <==> exists t <- ids :: Assigned(rows, trackId, t)
  {
    if t: int :| t in ids && Assigned(rows, trackId, t) {
      var a :| a in rows && a.trackId == trackId && a.tagId == t;
      assert a.trackId in Selects(rows, SelectDistinct(ids));
    }
    if trackId in Selects(rows, SelectDistinct(ids)) {
      var a :| a in rows && a.tagId in ids && a.trackId == trackId;
      assert Assigned(rows, trackId, a.tagId);
    }
  }

  /** A list naming a tag twice selects no track at all, not even one that has every tag. */
  lemma RepeatedTagMatchesNothing(rows: seq<AssignmentRow>, ids: seq<int>)
    requires Duplicates(ids)
    ensures Selects(rows, GroupByTrackHavingCount(ids, |ids|)) == {}
  {
    forall trackId
      ensures trackId !in Selects(rows, GroupByTrackHavingCount(ids, |ids|))
    {
      CountMeansAll(rows, ids, trackId);
    }
  }

  // ---------------------------------------------------------------------------
  // The compiler
  // ---------------------------------------------------------------------------

  /** All parameters given for a name, in order of appearance. */
  function Merged(cs: seq<Criteria>, name: CriteriaName): seq<Param> {
    if cs == [] then []
    else
      Merged(cs[..|cs| - 1], name)
      + if cs[|cs| - 1].filterName == name then cs[|cs| - 1].criteria else []
  }

  function TextExpr(p: Param, col: Column): seq<Expr> {
    if p.TextIn? && p.values != [] then [IsIn(col, p.values)]
    else if p.TextLike? then [Like(col, p.pattern)]
    else []
  }

  function TextExprs(params: seq<Param>, col: Column): seq<Expr> {
    if params == [] then []
    else TextExprs(params[..|params| - 1], col) + TextExpr(params[|params| - 1], col)
  }

  function TagCondition(p: Param): seq<Condition> {
    if p.TagsAny? && p.tagIds != [] then [IdIn(SelectDistinct(p.tagIds))]
    else if p.TagsAll? && p.tagIds != [] then [IdIn(GroupByTrackHavingCount(p.tagIds, |p.tagIds|))]
    else []
  }

  function TagConditions(params: seq<Param>): seq<Condition> {
    if params == [] then []
    else TagConditions(params[..|params| - 1]) + TagCondition(params[|params| - 1])
  }

  function TextConditions(cs: seq<Criteria>, name: CriteriaName, col: Column): seq<Condition> {
    if Named(cs, name) then [AnyOf(TextExprs(Merged(cs, name), col))] else []
  }

  function Compiled(cs: seq<Criteria>): Query {
    Query(TextConditions(cs, TrackName, TrackNameColumn)
          + TextConditions(cs, Artist, ArtistColumn)
          + TagConditions(Merged(cs, Tags)))
  }

  lemma {:induction false} MergedIsGiven(cs: seq<Criteria>, name: CriteriaName)
    ensures forall p :: p in Merged(cs, name) <==> Given(cs, name, p)
    decreases |cs|
  {
    if cs != [] {
      var init, last := cs[..|cs| - 1], cs[|cs| - 1];
      MergedIsGiven(init, name);
      assert cs == init + [last];
      forall p
        ensures p in Merged(cs, name) <==> Given(cs, name, p)
      {
        if Given(init, name, p) {
          var c :| c in init && c.filterName == name && p in c.criteria;
          assert c in cs;
        }
        if last.filterName == name && p in last.criteria {
          assert last in cs;
        }
      }
    }
  }

  lemma {:induction false} TextExprsEmpty(params: seq<Param>, col: Column)
    ensures TextExprs(params, col) == [] <==> forall p <- params :: !UsableText(p)
    decreases |params|
  {
    if params != [] {
      var init, last := params[..|params| - 1], params[|params| - 1];
      TextExprsEmpty(init, col);
      assert params == init + [last];
      assert TextExprs(params, col) == TextExprs(init, col) + TextExpr(last, col);
      assert TextExpr(last, col) == [] <==> !UsableText(last);
      assert last in params;
    }
  }

  lemma {:induction false} TextExprsMean(params: seq<Param>, col: Column, row: TrackRow, m: Meaning)
    ensures (exists e <- TextExprs(params, col) :: HoldsExpr(row, e, m)) <==>
            exists p <- params :: UsableText(p) && MatchesText(p, Cell(row, col), m)
    decreases |params|
  {
    if params != [] {
      var init, last := params[..|params| - 1], params[|params| - 1];
      TextExprsMean(init, col, row, m);
      assert params == init + [last];
      var before, now := TextExprs(init, col), TextExpr(last, col);
      assert forall e :: e in before + now <==> e in before || e in now;
      if UsableText(last) {
        assert now[0] in now;
        assert HoldsExpr(row, now[0], m) <==> MatchesText(last, Cell(row, col), m);
      }
    }
  }

  lemma {:induction false} TagConditionsMean(params: seq<Param>, row: TrackRow, rows: seq<AssignmentRow>, m: Meaning)
    ensures (forall c <- TagConditions(params) :: Holds(row, rows, c, m)) <==>
            forall p <- params :: TagWanted(p, rows, row.id)
    decreases |params|
  {
    if params != [] {
      var init, last := params[..|params| - 1], params[|params| - 1];
      TagConditionsMean(init, row, rows, m);
      assert params == init + [last];
      if last.TagsAny? && last.tagIds != [] {
        DistinctMeansAny(rows, last.tagIds, row.id);
      } else if last.TagsAll? && last.tagIds != [] {
        CountMeansAll(rows, last.tagIds, row.id);
      }
      var before, now := TagConditions(init), TagCondition(last);
      assert forall c :: c in before + now <==> c in before || c in now;
      assert (forall c <- now :: Holds(row, rows, c, m)) <==> TagWanted(last, rows, row.id) by {
        assert now != [] ==> now[0] in now;
      }
    }
  }

  lemma TextConditionsMean(cs: seq<Criteria>, name: CriteriaName, col: Column, row: TrackRow,
                           rows: seq<AssignmentRow>, m: Meaning)
    ensures (forall c <- TextConditions(cs, name, col) :: Holds(row, rows, c, m)) <==>
            TextWanted(cs, name, Cell(row, col), m)
  {
    MergedIsGiven(cs, name);
    TextExprsEmpty(Merged(cs, name), col);
    TextExprsMean(Merged(cs, name), col, row, m);
    if Named(cs, name) {
      var c := AnyOf(TextExprs(Merged(cs, name), col));
      assert TextConditions(cs, name, col) == [c];
      assert c in TextConditions(cs, name, col);
      assert Holds(row, rows, c, m) <==> TextWanted(cs, name, Cell(row, col), m);
    }
  }

  /** The compiled query selects exactly the tracks that the criteria ask for. */
  lemma CompiledMeansWanted(cs: seq<Criteria>, row: TrackRow, rows: seq<AssignmentRow>, m: Meaning)
    ensures Satisfies(row, rows, Compiled(cs), m) <==> Wanted(cs, row, rows, m)
  {
    TextConditionsMean(cs, TrackName, TrackNameColumn, row, rows, m);
    TextConditionsMean(cs, Artist, ArtistColumn, row, rows, m);
    TagConditionsMean(Merged(cs, Tags), row, rows, m);
    MergedIsGiven(cs, Tags);
    var a, b, c := TextConditions(cs, TrackName, TrackNameColumn), TextConditions(cs, Artist, ArtistColumn),
                   TagConditions(Merged(cs, Tags));
    assert forall x :: x in a + b + c <==> x in a || x in b || x in c;
  }

  /** The compiled clause depends only on which parameters are given for which name, not on order or entries. */
  lemma OrderAndSplitDoNotMatter(
    cs: seq<Criteria>, ds: seq<Criteria>, row: TrackRow, rows: seq<AssignmentRow>, m: Meaning)
    requires forall name, p :: Given(cs, name, p) <==> Given(ds, name, p)
    requires forall name :: Named(cs, name) <==> Named(ds, name)
    ensures Satisfies(row, rows, Compiled(cs), m) <==> Satisfies(row, rows, Compiled(ds), m)
  {
    CompiledMeansWanted(cs, row, rows, m);
    CompiledMeansWanted(ds, row, rows, m);
  }

  // ---------------------------------------------------------------------------
  // The method
  // ---------------------------------------------------------------------------

  /** One group of text conditions, OR-ed. */
  method CompileText(params: seq<Param>, col: Column) returns (group: Condition)
    ensures group == AnyOf(TextExprs(params, col))
  {
    var exprs: seq<Expr> := [];
    for i := 0 to |params|
      invariant exprs == TextExprs(params[..i], col)
    {
      assert params[..i + 1][..i] == params[..i];
      match params[i] {
        case TextIn(values) =>
          if values != [] {
            exprs := exprs + [IsIn(col, values)];
          }
        case TextLike(pattern, _) => exprs := exprs + [Like(col, pattern)];
        case _ =>
      }
    }
    assert params[..|params|] == params;
    group := AnyOf(exprs);
  }

  method CompileTags(params: seq<Param>) returns (conditions: seq<Condition>)
    ensures conditions == TagConditions(params)
  {
    conditions := [];
    for i := 0 to |params|
      invariant conditions == TagConditions(params[..i])
    {
      assert params[..i + 1][..i] == params[..i];
      match params[i] {
        case TagsAny(ids) =>
          if ids != [] {
            conditions := conditions + [IdIn(SelectDistinct(ids))];
          }
        case TagsAll(ids) =>
          if ids != [] {
            conditions := conditions + [IdIn(GroupByTrackHavingCount(ids, |ids|))];
          }
        case _ =>
      }
    }
    assert params[..|params|] == params;
  }

  function Lookup(m: map<CriteriaName, seq<Param>>, name: CriteriaName): seq<Param> {
    if name in m then m[name] else []
  }

  lemma MergeOne(cs: seq<Criteria>, c: Criteria, name: CriteriaName)
    ensures Merged(cs + [c], name) == Merged(cs, name) + if c.filterName == name then c.criteria else []
    ensures Named(cs + [c], name) <==> Named(cs, name) || c.filterName == name
  {
    assert (cs + [c])[..|cs|] == cs;
    assert c in cs + [c];
    assert forall x <- cs :: x in cs + [c];
  }

  /** Entries for the same name are put together. */
  method Merge(cs: seq<Criteria>) returns (merged: map<CriteriaName, seq<Param>>)
    ensures forall name :: name in merged <==> Named(cs, name)
    ensures forall name :: Lookup(merged, name) == Merged(cs, name)
  {
    merged := map[];
    for i := 0 to |cs|
      invariant forall name :: name in merged <==> Named(cs[..i], name)
      invariant forall name :: Lookup(merged, name) == Merged(cs[..i], name)
    {
      assert cs[..i + 1] == cs[..i] + [cs[i]];
      forall name {
        MergeOne(cs[..i], cs[i], name);
      }
      var name := cs[i].filterName;
      merged := merged[name := Lookup(merged, name) + cs[i].criteria];
    }
    assert cs[..|cs|] == cs;
  }

  method Compile(criteria: Option<seq<Criteria>>) returns (q: Query)
    ensures q == Compiled(if criteria.Some? then criteria.value else [])
  {
    var cs := criteria.UnwrapOr([]);
    var merged := Merge(cs);
    var where: seq<Condition> := [];
    if TrackName in merged {
      var group := CompileText(merged[TrackName], TrackNameColumn);
      where := where + [group];
    }
    ghost var names := TextConditions(cs, TrackName, TrackNameColumn);
    assert where == names by {
      assert Lookup(merged, TrackName) == Merged(cs, TrackName);
    }
    if Artist in merged {
      var group := CompileText(merged[Artist], ArtistColumn);
      where := where + [group];
    }
    assert where == names + TextConditions(cs, Artist, ArtistColumn) by {
      assert Lookup(merged, Artist) == Merged(cs, Artist);
    }
    assert Lookup(merged, Tags) == Merged(cs, Tags);
    if Tags in merged {
      var conditions := CompileTags(merged[Tags]);
      where := where + conditions;
    }
    q := Query(where);
  }

  /** The rows of the inner select. */
  function Selected(tracks: seq<TrackRow>, rows: seq<AssignmentRow>, q: Query, m: Meaning): seq<TrackRow> {
    if tracks == [] then []
    else if Satisfies(tracks[0], rows, q, m) then [tracks[0]] + Selected(tracks[1..], rows, q, m)
    else Selected(tracks[1..], rows, q, m)
  }

  /** The rows the criteria ask for, without any query. */
  ghost function Matching(tracks: seq<TrackRow>, rows: seq<AssignmentRow>, cs: seq<Criteria>, m: Meaning)
    : seq<TrackRow>
  {
    if tracks == [] then []
    else if Wanted(cs, tracks[0], rows, m) then [tracks[0]] + Matching(tracks[1..], rows, cs, m)
    else Matching(tracks[1..], rows, cs, m)
  }

  /** The compiled select finds the wanted rows: each of them, once, and no others. */
  lemma {:induction false} SelectedIsWanted(
    tracks: seq<TrackRow>, rows: seq<AssignmentRow>, cs: seq<Criteria>, m: Meaning)
    requires DistinctKeys(tracks, TrackId)
    ensures var s := Selected(tracks, rows, Compiled(cs), m);
            && s == Matching(tracks, rows, cs, m) && DistinctKeys(s, TrackId)
            && forall row :: row in s <==> row in tracks && Wanted(cs, row, rows, m)
    decreases |tracks|
  {
    if tracks != [] {
      SelectedIsWanted(tracks[1..], rows, cs, m);
      CompiledMeansWanted(cs, tracks[0], rows, m);
      assert tracks == [tracks[0]] + tracks[1..];
      P.DistinctCons(tracks[0], Selected(tracks[1..], rows, Compiled(cs), m), tracks, TrackId);
    }
  }

  /**
   The page returned: of all tracks the criteria ask for and no others, in id order, the ones from `limit`
   places before the cursor to `limit` places after it.
   */
  method GetTracksFiltered(tracks: seq<TrackRow>, rows: seq<AssignmentRow>, cursor: Option<int>,
                           criteria: Option<seq<Criteria>>, limit: int, m: Meaning)
    returns (page: seq<TrackRow>)
    requires DistinctKeys(tracks, TrackId)
    ensures var wanted := Matching(tracks, rows, if criteria.Some? then criteria.value else [], m);
            var k := P.Rank(wanted, if cursor.Some? then cursor.value else 0, TrackId);
            && 0 <= P.Lo(k, limit) <= k <= P.Hi(k, limit, |wanted|) <= |wanted|
            && page == SortBy(wanted, TrackId)[P.Lo(k, limit)..P.Hi(k, limit, |wanted|)]
  {
    var after := cursor.UnwrapOr(0);
    var q := Compile(criteria);
    var inner := Selected(tracks, rows, q, m);
    page := P.Page(inner, after, limit, TrackId);
    SelectedIsWanted(tracks, rows, criteria.UnwrapOr([]), m);
    P.PageIsSlice(inner, after, limit, TrackId);
  }
}
