/**
 Paging through the library: which page the Next and Prev buttons load, on a table that does not change.

 The widget shows one page; a button picks a row of it and loads the page around that row.
 */
module LibraryPages {
  import opened Wrappers
  import opened Sorting
  import P = Paging

  const HALF_PAGE_SIZE: nat := 10
  const PAGE_SIZE: nat := 20

  const NEXT_INDEX: nat := HALF_PAGE_SIZE + HALF_PAGE_SIZE / 2
  const PREV_INDEX: nat := HALF_PAGE_SIZE / 2

  function Ident(id: int): int { id }

  /** The query for a cursor: a missing one counts as 0, and the first page is a full one. */
  function Load(ids: seq<int>, cursor: Option<int>): seq<int> {
    match cursor
    case None => P.Page(ids, 0, PAGE_SIZE, Ident)
    case Some(id) => P.Page(ids, id, HALF_PAGE_SIZE, Ident)
  }

  /** Which row a button picks from a non-empty page. */
  function Picked(page: seq<int>, idx: nat): int
    requires page != []
  {
    page[if idx < |page| then idx else |page| - 1]
  }

  /** `paginate(idx)`: reload around the row at that index of the shown page, or its last row. */
  function Paginate(ids: seq<int>, shown: seq<int>, idx: nat): seq<int> {
    if shown == [] then Load(ids, None)
    else Load(ids, Some(Picked(shown, idx)))
  }

  /** The cursor the widget remembers after loading a page. */
  function CursorOf(page: seq<int>): Option<int> {
    if page == [] then None
    else Some(page[if HALF_PAGE_SIZE < |page| then HALF_PAGE_SIZE else |page| - 1])
  }

  class LibraryWidget {
    var tracks: seq<int>
    var cursor: Option<int>

    constructor (ids: seq<int>, initial: Option<int>)
      ensures tracks == Load(ids, initial) && cursor == CursorOf(tracks)
    {
      tracks := Load(ids, initial);
      cursor := CursorOf(Load(ids, initial));
    }

    method LoadPage(ids: seq<int>, fromCursor: Option<int>)
      modifies this
      ensures tracks == Load(ids, fromCursor) && cursor == CursorOf(tracks)
    {
      var limit := if fromCursor == None then PAGE_SIZE else HALF_PAGE_SIZE;
      var after := if fromCursor == None then 0 else fromCursor.value;
      tracks := P.Page(ids, after, limit, Ident);
      var last := if |tracks| - 1 < HALF_PAGE_SIZE then |tracks| - 1 else HALF_PAGE_SIZE;
      var pos := if last < 0 then 0 else last;
      cursor := if pos < |tracks| then Some(tracks[pos]) else None;
    }

    method HandlePageNext(ids: seq<int>)
      modifies this
      ensures tracks == Paginate(ids, old(tracks), NEXT_INDEX) && cursor == CursorOf(tracks)
    {
      PaginateTo(ids, HALF_PAGE_SIZE + HALF_PAGE_SIZE / 2);
    }

    method HandlePagePrev(ids: seq<int>)
      modifies this
      ensures tracks == Paginate(ids, old(tracks), PREV_INDEX) && cursor == CursorOf(tracks)
    {
      PaginateTo(ids, HALF_PAGE_SIZE / 2);
    }

    method PaginateTo(ids: seq<int>, idx: nat)
      modifies this
      ensures tracks == Paginate(ids, old(tracks), idx) && cursor == CursorOf(tracks)
    {
      if |tracks| == 0 {
        LoadPage(ids, None);
      } else {
        var b := if idx < |tracks| - 1 then idx else |tracks| - 1;
        LoadPage(ids, Some(tracks[b]));
      }
    }
  }

  // ---------------------------------------------------------------------------
  // Pages by position
  // ---------------------------------------------------------------------------

  /** Row ids are distinct and, handed out by AUTOINCREMENT, positive. */
  ghost predicate Table(ids: seq<int>) {
    DistinctKeys(ids, Ident) && forall id <- ids :: id > 0
  }

  /** The page around the row at position `c`. */
  function Around(ids: seq<int>, c: nat): seq<int>
    requires c < |ids|
  {
    SortBy(ids, Ident)[P.Lo(c, HALF_PAGE_SIZE)..P.Hi(c, HALF_PAGE_SIZE, |ids|)]
  }

  lemma LoadAround(ids: seq<int>, c: nat)
    requires Table(ids) && c < |ids|
    ensures Load(ids, Some(SortBy(ids, Ident)[c])) == Around(ids, c)
  {
    P.RankOfRow(ids, c, Ident);
    P.PageIsSlice(ids, SortBy(ids, Ident)[c], HALF_PAGE_SIZE, Ident);
  }

  lemma LoadFirst(ids: seq<int>)
    requires Table(ids)
    ensures Load(ids, None) == SortBy(ids, Ident)[..P.Hi(0, PAGE_SIZE, |ids|)]
  {
    assert P.Rank(ids, 0, Ident) == 0 by {
      assert forall i :: 0 <= i < |ids| ==> ids[i] in ids;
      P.NothingBelow(ids, 0, Ident);
    }
    P.PageIsSlice(ids, 0, PAGE_SIZE, Ident);
  }

  /** What is shown of a table with `n` rows: the first page, or the page around a position, the end included. */
  datatype View = First | At(c: nat)

  predicate Shows(v: View, n: nat) { v.At? ==> v.c <= n }

  function Start(v: View): nat {
    match v case First => 0 case At(c) => P.Lo(c, HALF_PAGE_SIZE)
  }

  function End(v: View, n: nat): nat
    requires Shows(v, n)
  {
    match v case First => P.Hi(0, PAGE_SIZE, n) case At(c) => P.Hi(c, HALF_PAGE_SIZE, n)
  }

  function PageOf(ids: seq<int>, v: View): (page: seq<int>)
    requires Shows(v, |ids|)
    ensures |page| == End(v, |ids|) - Start(v)
  {
    SortBy(ids, Ident)[Start(v)..End(v, |ids|)]
  }

  /** Where a button that picks index `idx` leads. */
  function Move(v: View, idx: nat, n: nat): (w: View)
    requires Shows(v, n)
    ensures Shows(w, n)
  {
    var m := End(v, n) - Start(v);
    if m == 0 then First else At(Start(v) + if idx < m then idx else m - 1)
  }

  lemma MoveIsAt(v: View, idx: nat, n: nat)
    requires Shows(v, n) && Start(v) < End(v, n)
    ensures var m := End(v, n) - Start(v);
            Move(v, idx, n) == At(Start(v) + if idx < m then idx else m - 1) && Move(v, idx, n).c < n
  {
  }

  lemma PickedFrom(all: seq<int>, lo: int, hi: int, idx: nat)
    requires 0 <= lo < hi <= |all|
    ensures Picked(all[lo..hi], idx) == all[lo + if idx < hi - lo then idx else hi - lo - 1]
  {
  }

  lemma PickedIsAt(all: seq<int>, v: View, idx: nat)
    requires Shows(v, |all|) && Start(v) < End(v, |all|)
    ensures var w := Move(v, idx, |all|);
            w.At? && w.c < |all| && Picked(all[Start(v)..End(v, |all|)], idx) == all[w.c]
  {
    MoveIsAt(v, idx, |all|);
    PickedFrom(all, Start(v), End(v, |all|), idx);
  }

  lemma SliceAt(all: seq<int>, lo: int, hi: int, k: int)
    requires 0 <= lo <= hi <= |all| && 0 <= k < hi - lo
    ensures all[lo..hi][k] == all[lo + k]
  {
  }

  lemma PaginateIsMove(ids: seq<int>, v: View, idx: nat)
    requires Table(ids) && Shows(v, |ids|)
    ensures Paginate(ids, PageOf(ids, v), idx) == PageOf(ids, Move(v, idx, |ids|))
  {
    if PageOf(ids, v) == [] {
      LoadFirst(ids);
    } else {
      PickedIsAt(SortBy(ids, Ident), v, idx);
      LoadAround(ids, Move(v, idx, |ids|).c);
    }
  }

  function Moves(v: View, idx: nat, n: nat, times: nat): (w: View)
    requires Shows(v, n)
    ensures Shows(w, n)
  {
    if times == 0 then v else Move(Moves(v, idx, n, times - 1), idx, n)
  }

  /** Doing the same thing several times. */
  function Repeat(f: seq<int> -> seq<int>, page: seq<int>, times: nat): seq<int> {
    if times == 0 then page else f(Repeat(f, page, times - 1))
  }

  /** The page shown after pressing a button several times. */
  function Pressed(ids: seq<int>, page: seq<int>, idx: nat, times: nat): seq<int> {
    Repeat(shown => Paginate(ids, shown, idx), page, times)
  }

  /** `page` says what is on view `w`; pressing once moves the view, so pressing often moves it often. */
  lemma {:induction false} RepeatIsMoves(
    f: seq<int> -> seq<int>, page: View -> seq<int>, v: View, idx: nat, n: nat, times: nat)
    requires Shows(v, n)
    requires forall w: View {:trigger Move(w, idx, n)} :: Shows(w, n) ==> f(page(w)) == page(Move(w, idx, n))
    ensures Repeat(f, page(v), times) == page(Moves(v, idx, n, times))
    decreases times
  {
    if times > 0 {
      RepeatIsMoves(f, page, v, idx, n, times - 1);
    }
  }

  lemma PressedIsMoves(ids: seq<int>, v: View, idx: nat, times: nat)
    requires Table(ids) && Shows(v, |ids|)
    ensures Pressed(ids, PageOf(ids, v), idx, times) == PageOf(ids, Moves(v, idx, |ids|, times))
  {
    var f := shown => Paginate(ids, shown, idx);
    var page := (w: View) => if Shows(w, |ids|) then PageOf(ids, w) else [];
    forall w: View | Shows(w, |ids|)
      ensures f(page(w)) == page(Move(w, idx, |ids|))
    {
      PaginateIsMove(ids, w, idx);
    }
    RepeatIsMoves(f, page, v, idx, |ids|, times);
  }

  /** Next never leaves a gap and, short of the end, always shows something new. */
  lemma NextAdvances(v: View, n: nat)
    requires Shows(v, n)
    ensures var w := Move(v, NEXT_INDEX, n);
            && Start(w) <= End(v, n) <= End(w, n)
            && (v != At(n) ==> Start(v) <= Start(w))
            && (End(v, n) < n ==> End(v, n) < End(w, n))
  {
  }

  lemma PrevRetreats(v: View, n: nat)
    requires Shows(v, n)
    ensures var w := Move(v, PREV_INDEX, n);
            Start(w) <= Start(v) <= End(w, n) && (Start(v) > 0 ==> Start(w) < Start(v))
  {
  }

  /** Away from both ends a page has twenty rows, as the first one has, and a button moves it by a quarter of them. */
  lemma ButtonsMoveByFive(c: nat, n: nat)
    requires 10 <= c && c + 10 <= n
    ensures Start(First) == 0 && End(First, n) == 20
    ensures End(At(c), n) - Start(At(c)) == 20 && Start(At(c)) == c - 10
    ensures Move(At(c), NEXT_INDEX, n) == At(c + 5) && Move(At(c), PREV_INDEX, n) == At(c - 5)
  {
  }

  /** Position `p` is on one of the pages shown while pressing `idx` up to `times` times. */
  ghost predicate Seen(v: View, idx: nat, n: nat, times: nat, p: nat)
    requires Shows(v, n)
  {
    exists i: nat :: i <= times && Start(Moves(v, idx, n, i)) <= p < End(Moves(v, idx, n, i), n)
  }

  lemma {:induction false} NextCovers(v: View, n: nat, times: nat)
    requires Shows(v, n)
    ensures var w := Moves(v, NEXT_INDEX, n, times);
            && End(w, n) >= (if End(v, n) + times < n then End(v, n) + times else n)
            && forall p: nat :: Start(v) <= p < End(w, n) ==> Seen(v, NEXT_INDEX, n, times, p)
    decreases times
  {
    var w := Moves(v, NEXT_INDEX, n, times);
    if times > 0 {
      NextCovers(v, n, times - 1);
      NextAdvances(Moves(v, NEXT_INDEX, n, times - 1), n);
      forall p: nat | Start(v) <= p < End(w, n)
        ensures Seen(v, NEXT_INDEX, n, times, p)
      {
        if p < End(Moves(v, NEXT_INDEX, n, times - 1), n) {
          assert Seen(v, NEXT_INDEX, n, times - 1, p);
        }
      }
    }
  }

  lemma {:induction false} PrevCovers(v: View, n: nat, times: nat)
    requires Shows(v, n)
    ensures var w := Moves(v, PREV_INDEX, n, times);
            && Start(w) <= (if Start(v) > times then Start(v) - times else 0)
            && forall p: nat :: Start(w) <= p < End(v, n) ==> Seen(v, PREV_INDEX, n, times, p)
    decreases times
  {
    var w := Moves(v, PREV_INDEX, n, times);
    if times > 0 {
      PrevCovers(v, n, times - 1);
      var before := Moves(v, PREV_INDEX, n, times - 1);
      PrevRetreats(before, n);
      forall p: nat | Start(w) <= p < End(v, n)
        ensures Seen(v, PREV_INDEX, n, times, p)
      {
        if p >= Start(before) {
          assert Seen(v, PREV_INDEX, n, times - 1, p);
        }
      }
    }
  }

  // ---------------------------------------------------------------------------
  // From whatever cursor the widget starts
  // ---------------------------------------------------------------------------

  /** The view a cursor loads; one above every id, of a row that is gone, shows the end of the table. */
  function ViewOf(ids: seq<int>, cursor: Option<int>): View {
    match cursor case None => First case Some(id) => At(P.Rank(ids, id, Ident))
  }

  lemma LoadIsView(ids: seq<int>, cursor: Option<int>)
    requires Table(ids)
    ensures Shows(ViewOf(ids, cursor), |ids|) && Load(ids, cursor) == PageOf(ids, ViewOf(ids, cursor))
  {
    match cursor
    case None => LoadFirst(ids);
    case Some(id) => P.PageIsSlice(ids, id, HALF_PAGE_SIZE, Ident);
  }

  /** The row is on one of the pages shown while pressing the button. */
  ghost predicate Shown(ids: seq<int>, page: seq<int>, idx: nat, times: nat, id: int) {
    exists i: nat :: i <= times && id in Pressed(ids, page, idx, i)
  }

  lemma PageHas(ids: seq<int>, w: View, p: nat)
    requires Shows(w, |ids|) && Start(w) <= p < End(w, |ids|)
    ensures SortBy(ids, Ident)[p] in PageOf(ids, w)
  {
    SliceHas(SortBy(ids, Ident), Start(w), End(w, |ids|), p);
  }

  lemma SliceHas(all: seq<int>, lo: nat, hi: nat, p: nat)
    requires lo <= p < hi <= |all|
    ensures all[p] in all[lo..hi]
  {
    SliceAt(all, lo, hi, p - lo);
  }

  lemma SeenIsShown(ids: seq<int>, v: View, idx: nat, times: nat, p: nat)
    requires Table(ids) && Shows(v, |ids|) && p < |ids| && Seen(v, idx, |ids|, times, p)
    ensures Shown(ids, PageOf(ids, v), idx, times, SortBy(ids, Ident)[p])
  {
    var i: nat :| i <= times && Start(Moves(v, idx, |ids|, i)) <= p < End(Moves(v, idx, |ids|, i), |ids|);
    var w := Moves(v, idx, |ids|, i);
    PressedIsMoves(ids, v, idx, i);
    PageHas(ids, w, p);
  }

  lemma NonEmptyPage(w: View, n: nat)
    requires Shows(w, n) && n > 0
    ensures Start(w) < End(w, n)
  {
  }

  /** Where a row stands in id order, compared with the first and the last row of a page. */
  lemma PlaceOf(ids: seq<int>, v: View, id: int) returns (p: nat)
    requires Table(ids) && Shows(v, |ids|) && id in ids
    ensures p < |ids| && SortBy(ids, Ident)[p] == id && PageOf(ids, v) != []
    ensures var page := PageOf(ids, v);
            && (id >= page[0] <==> p >= Start(v))
            && (id <= page[|page| - 1] <==> p < End(v, |ids|))
  {
    var all := SortBy(ids, Ident);
    SortHas(ids, Ident);
    SortAscends(ids, Ident);
    NonEmptyPage(v, |ids|);
    var k :| 0 <= k < |all| && all[k] == id;
    p := k;
    SliceAt(all, Start(v), End(v, |ids|), 0);
    SliceAt(all, Start(v), End(v, |ids|), End(v, |ids|) - Start(v) - 1);
  }

  lemma NextReachesLast(ids: seq<int>, v: View)
    requires Table(ids) && Shows(v, |ids|) && ids != []
    ensures SortBy(ids, Ident)[|ids| - 1] in Pressed(ids, PageOf(ids, v), NEXT_INDEX, |ids|)
  {
    var n := |ids|;
    var w := Moves(v, NEXT_INDEX, n, n);
    NextCovers(v, n, n);
    PressedIsMoves(ids, v, NEXT_INDEX, n);
    NonEmptyPage(w, n);
    PageHas(ids, w, n - 1);
  }

  lemma NextShowsRow(ids: seq<int>, v: View, page: seq<int>, id: int)
    requires Table(ids) && Shows(v, |ids|) && page == PageOf(ids, v)
    requires id in ids && page != [] && id >= page[0]
    ensures Shown(ids, page, NEXT_INDEX, |ids|, id)
  {
    var p := PlaceOf(ids, v, id);
    NextCovers(v, |ids|, |ids|);
    SeenIsShown(ids, v, NEXT_INDEX, |ids|, p);
  }

  lemma PrevReachesFirst(ids: seq<int>, v: View)
    requires Table(ids) && Shows(v, |ids|) && ids != []
    ensures SortBy(ids, Ident)[0] in Pressed(ids, PageOf(ids, v), PREV_INDEX, |ids|)
  {
    var n := |ids|;
    var w := Moves(v, PREV_INDEX, n, n);
    PrevCovers(v, n, n);
    PressedIsMoves(ids, v, PREV_INDEX, n);
    NonEmptyPage(w, n);
    PageHas(ids, w, 0);
  }

  lemma PrevShowsRow(ids: seq<int>, v: View, page: seq<int>, id: int)
    requires Table(ids) && Shows(v, |ids|) && page == PageOf(ids, v)
    requires id in ids && page != [] && id <= page[|page| - 1]
    ensures Shown(ids, page, PREV_INDEX, |ids|, id)
  {
    var p := PlaceOf(ids, v, id);
    PrevCovers(v, |ids|, |ids|);
    SeenIsShown(ids, v, PREV_INDEX, |ids|, p);
  }

  lemma NextShowsAll(ids: seq<int>, v: View, page: seq<int>)
    requires Table(ids) && ids != [] && Shows(v, |ids|) && page == PageOf(ids, v)
    ensures page != [] && SortBy(ids, Ident)[|ids| - 1] in Pressed(ids, page, NEXT_INDEX, |ids|)
    ensures forall id <- ids :: id >= page[0] ==> Shown(ids, page, NEXT_INDEX, |ids|, id)
  {
    NonEmptyPage(v, |ids|);
    NextReachesLast(ids, v);
    forall id | id in ids && id >= page[0]
      ensures Shown(ids, page, NEXT_INDEX, |ids|, id)
    {
      NextShowsRow(ids, v, page, id);
    }
  }

  /**
   On a fixed table, from whatever cursor: pressing Next often enough (once per row will do) ends at a page with the
   last row, and every row from the first shown on has been on a page.
   */
  lemma NextShowsEverything(ids: seq<int>, cursor: Option<int>)
    requires Table(ids) && ids != []
    ensures var page := Load(ids, cursor);
            && page != [] && SortBy(ids, Ident)[|ids| - 1] in Pressed(ids, page, NEXT_INDEX, |ids|)
            && forall id <- ids :: id >= page[0] ==> Shown(ids, page, NEXT_INDEX, |ids|, id)
  {
    LoadIsView(ids, cursor);
    NextShowsAll(ids, ViewOf(ids, cursor), Load(ids, cursor));
  }

  lemma PrevShowsAll(ids: seq<int>, v: View, page: seq<int>)
    requires Table(ids) && ids != [] && Shows(v, |ids|) && page == PageOf(ids, v)
    ensures page != [] && SortBy(ids, Ident)[0] in Pressed(ids, page, PREV_INDEX, |ids|)
    ensures forall id <- ids :: id <= page[|page| - 1] ==> Shown(ids, page, PREV_INDEX, |ids|, id)
  {
    NonEmptyPage(v, |ids|);
    PrevReachesFirst(ids, v);
    forall id | id in ids && id <= page[|page| - 1]
      ensures Shown(ids, page, PREV_INDEX, |ids|, id)
    {
      PrevShowsRow(ids, v, page, id);
    }
  }

  /** Pressing Prev often enough ends at a page with the first row, with every row before shown on the way. */
  lemma PrevShowsEverything(ids: seq<int>, cursor: Option<int>)
    requires Table(ids) && ids != []
    ensures var page := Load(ids, cursor);
            && page != [] && SortBy(ids, Ident)[0] in Pressed(ids, page, PREV_INDEX, |ids|)
            && forall id <- ids :: id <= page[|page| - 1] ==> Shown(ids, page, PREV_INDEX, |ids|, id)
  {
    LoadIsView(ids, cursor);
    PrevShowsAll(ids, ViewOf(ids, cursor), Load(ids, cursor));
  }

  // ---------------------------------------------------------------------------
  // The cursor that is remembered
  // ---------------------------------------------------------------------------

  /** The cursor remembered is a row of the page; there is none exactly when there is no row. */
  lemma CursorIsRow(page: seq<int>)
    ensures CursorOf(page).None? <==> page == []
    ensures CursorOf(page).Some? ==> CursorOf(page).value in page
  {
  }

  lemma ReloadIsPaginate(ids: seq<int>, page: seq<int>)
    ensures Load(ids, CursorOf(page)) == Paginate(ids, page, HALF_PAGE_SIZE)
  {
  }

  /** The middle row's view covers the page, and has itself in the middle; only the first row is never in the middle. */
  lemma MiddleCovers(v: View, n: nat)
    requires Shows(v, n)
    ensures var w := Move(v, HALF_PAGE_SIZE, n); var x := Move(w, HALF_PAGE_SIZE, n);
            && Start(w) <= Start(v) <= End(v, n) <= End(w, n)
            && (v != At(0) || n <= 1 ==> Start(x) == Start(w) && End(x, n) == End(w, n))
            && (w == At(0) ==> n <= 1)
  {
  }

  lemma SliceCovers(all: seq<int>, lo: nat, hi: nat, wlo: nat, whi: nat)
    requires wlo <= lo <= hi <= whi <= |all|
    ensures forall id <- all[lo..hi] :: id in all[wlo..whi]
  {
    forall id <- all[lo..hi]
      ensures id in all[wlo..whi]
    {
      var k :| 0 <= k < hi - lo && all[lo..hi][k] == id;
      assert all[wlo..whi][lo + k - wlo] == id;
    }
  }

  /**
   On a fixed table: coming back to the remembered cursor shows every row of the page it was remembered from.  From then
   on it is always the same page, or from the second time on if the page was loaded for the first row's own id.
   */
  lemma ReloadKeepsPage(ids: seq<int>, cursor: Option<int>)
    requires Table(ids)
    ensures var page := Load(ids, cursor);
            var once := Load(ids, CursorOf(page)); var twice := Load(ids, CursorOf(once));
            && (forall id <- page :: id in once) && (forall id <- once :: id in twice)
            && (cursor.None? || P.Rank(ids, cursor.value, Ident) > 0 ==> twice == once)
            && Load(ids, CursorOf(twice)) == twice
  {
    var v := ViewOf(ids, cursor);
    LoadIsView(ids, cursor);
    var w := Move(v, HALF_PAGE_SIZE, |ids|);
    var x := Move(w, HALF_PAGE_SIZE, |ids|);
    Reloads(ids, v);
    Reloads(ids, w);
    Reloads(ids, x);
    MiddleCovers(v, |ids|);
    MiddleCovers(w, |ids|);
  }

  lemma Reloads(ids: seq<int>, v: View)
    requires Table(ids) && Shows(v, |ids|)
    ensures var w := Move(v, HALF_PAGE_SIZE, |ids|);
            && Load(ids, CursorOf(PageOf(ids, v))) == PageOf(ids, w)
            && forall id <- PageOf(ids, v) :: id in PageOf(ids, w)
  {
    var w := Move(v, HALF_PAGE_SIZE, |ids|);
    ReloadIsPaginate(ids, PageOf(ids, v));
    PaginateIsMove(ids, v, HALF_PAGE_SIZE);
    MiddleCovers(v, |ids|);
    SliceCovers(SortBy(ids, Ident), Start(v), End(v, |ids|), Start(w), End(w, |ids|));
  }
}
