/**
 * A result read page by page: `OffsetResultSession` (packages/rows/src/offsetQuery.ts) over a source that
 * answers the same rows throughout, one call at a time, and what a surface may offer from its snapshot
 * (packages/rows/src/navigation.ts). Rows are opaque; their formatting is not modelled.
 */
module OffsetSession {
  import opened Options

  type Row(==, !new, 0)

  datatype Page = Page(start: nat, rows: seq<Row>, hasNext: bool)
  datatype Navigation = Navigation(all: bool, pageIndex: nat, pageSize: nat, pageStart: nat, pageEnd: int,
                                   loadedRowCount: nat, hasPrevious: bool, hasNext: bool, canLoadAll: bool)
  datatype Payload = Payload(rows: seq<Row>, rowCount: Option<nat>, navigation: Navigation)

  const LoadAllPageRows: nat := 5000
  const MinRows: nat := 20
  const MaxRows: nat := 1000

  function Clamp(value: int, minimum: int, maximum: int): int {
    var least := if value < minimum then minimum else value;
    var most := if maximum < minimum then minimum else maximum;
    if least < most then least else most
  }

  function Least(a: nat, b: nat): nat {
    if a < b then a else b
  }

  /** What the session holds in memory. */
  datatype Session = Session(pages: seq<Page>, loadedRows: seq<Row>, pageIndex: nat, rowCount: Option<nat>, all: bool)

  function Flatten(pages: seq<Page>): seq<Row> {
    if pages == [] then [] else Flatten(pages[..|pages| - 1]) + pages[|pages| - 1].rows
  }

  /** The pages follow one another from the first row on; only the page of an empty result is empty. */
  ghost predicate Contiguous(pages: seq<Page>) {
    forall i :: 0 <= i < |pages| ==>
      && (pages[i].rows != [] ==> pages[i].start == |Flatten(pages[..i])| + 1)
      && (pages[i].rows == [] ==> i == 0 && |pages| == 1 && !pages[i].hasNext)
  }

  /** The session refines the whole result. */
  ghost predicate Refines(s: Session, whole: seq<Row>) {
    && s.pages != [] && s.pageIndex < |s.pages|
    && Contiguous(s.pages) && Flatten(s.pages) == s.loadedRows
    && s.loadedRows <= whole
    && (s.rowCount.Some? ==> s.rowCount.value == |whole| && s.loadedRows == whole)
    && (s.rowCount.None? <==> s.pages[|s.pages| - 1].hasNext)
    && (s.rowCount.None? ==> |s.loadedRows| < |whole| && !s.all)
    && (forall i :: 0 <= i < |s.pages| - 1 ==> s.pages[i].hasNext)
    && (s.all ==> |s.pages| == 1)
  }

  function Snapshot(s: Session, pageSize: nat): Payload {
    var page := if s.pageIndex < |s.pages| then s.pages[s.pageIndex] else Page(0, [], false);
    Payload(page.rows, s.rowCount,
            Navigation(s.all, s.pageIndex, pageSize,
                       if page.rows == [] then 0 else page.start,
                       if page.rows == [] then 0 else page.start + |page.rows| - 1,
                       |s.loadedRows|,
                       s.pageIndex > 0,
                       page.hasNext || s.pageIndex < |s.pages| - 1,
                       !s.all && (page.hasNext || |s.pages| > 1)))
  }

  // ----- navigation.ts -------------------------------------------------------------------------------

  datatype Action = Attach | Previous | NextPage | LoadAll | Cancel

  function NavigationReadsPostgres(action: Action, payload: Option<Payload>): bool {
    match payload
    case None => false
    case Some(p) =>
      match action
      case NextPage => p.navigation.hasNext && p.navigation.pageEnd >= p.navigation.loadedRowCount
      case LoadAll => p.navigation.canLoadAll && p.rowCount.None?
      case _ => false
  }

  datatype Surface = Surface(navigation: Option<Navigation>, busy: bool, cancellable: bool, closed: bool)

  predicate CanNavigate(action: Action, surface: Surface)
    requires !action.Attach?
  {
    if action.Cancel? then surface.cancellable
    else if surface.busy || surface.closed || surface.navigation.None? then false
    else match action
      case Previous => surface.navigation.value.hasPrevious
      case NextPage => surface.navigation.value.hasNext
      case _ => surface.navigation.value.canLoadAll
  }

  // ----- Lemmas --------------------------------------------------------------------------------------

  lemma {:induction false} FlattenSplits(pages: seq<Page>, i: nat)
    requires i < |pages|
    ensures |Flatten(pages[..i])| + |pages[i].rows| == |Flatten(pages[..i + 1])| <= |Flatten(pages)|
  {
    assert pages[..i + 1][..i] == pages[..i];
    if i + 1 < |pages| {
      var n := |pages| - 1;
      FlattenSplits(pages[..n], i);
      assert pages[..n][..i] == pages[..i] && pages[..n][..i + 1] == pages[..i + 1];
    } else {
      assert pages[..i + 1] == pages;
    }
  }

  /** The rows on screen are the ones the page numbers say, of the whole result. */
  lemma SnapshotShowsItsRows(s: Session, whole: seq<Row>, pageSize: nat)
    requires Refines(s, whole)
    ensures var p := Snapshot(s, pageSize);
            var n := p.navigation;
            && (p.rows != [] ==> 1 <= n.pageStart && n.pageEnd <= |s.loadedRows| && p.rows == whole[n.pageStart - 1..n.pageEnd])
            && (p.rows == [] ==> whole == [])
            && (p.rowCount.Some? ==> p.rowCount.value == |whole|)
  {
    var page := s.pages[s.pageIndex];
    if page.rows == [] {
      EmptyPageIsAll(s, whole);
    } else {
      PageShows(s, whole);
    }
    hide Flatten, Contiguous;
  }

  lemma PageShows(s: Session, whole: seq<Row>)
    requires Refines(s, whole) && s.pages[s.pageIndex].rows != []
    ensures var page := s.pages[s.pageIndex];
            && 1 <= page.start && page.start + |page.rows| - 1 <= |s.loadedRows|
            && page.rows == whole[page.start - 1..page.start - 1 + |page.rows|]
  {
    PageRows(s.pages, s.pageIndex);
    hide Flatten;
  }

  lemma EmptyPageIsAll(s: Session, whole: seq<Row>)
    requires Refines(s, whole) && s.pages[s.pageIndex].rows == []
    ensures whole == []
  {
    var page := s.pages[s.pageIndex];
    assert s.pages == [page] && s.pages[..0] == [];
    assert Flatten(s.pages) == [];
  }

  lemma {:induction false} PageRows(pages: seq<Page>, i: nat)
    requires i < |pages|
    ensures |Flatten(pages[..i])| + |pages[i].rows| <= |Flatten(pages)|
    ensures Flatten(pages)[|Flatten(pages[..i])|..|Flatten(pages[..i])| + |pages[i].rows|] == pages[i].rows
  {
    FlattenSplits(pages, i);
    var n := |pages| - 1;
    var before := Flatten(pages[..n]);
    assert Flatten(pages) == before + pages[n].rows;
    if i < n {
      PageRows(pages[..n], i);
      assert pages[..n][..i] == pages[..i];
      WithinPrefix(before, pages[n].rows, |Flatten(pages[..i])|, |Flatten(pages[..i])| + |pages[i].rows|);
    }
  }

  lemma WithinPrefix(a: seq<Row>, b: seq<Row>, from: nat, to: nat)
    requires from <= to <= |a|
    ensures (a + b)[from..to] == a[from..to]
  {}

  /** Moving on reads PostgreSQL exactly from the last retained page when the result goes on behind it. */
  lemma NextReadsExactlyWhen(s: Session, whole: seq<Row>, pageSize: nat)
    requires Refines(s, whole)
    ensures NavigationReadsPostgres(NextPage, Some(Snapshot(s, pageSize)))
            <==> s.pageIndex == |s.pages| - 1 && s.pages[s.pageIndex].hasNext
  {
    if s.pageIndex < |s.pages| - 1 {
      MoreIsLoaded(s, whole);
    } else {
      LastIsLoaded(s, whole);
    }
    hide Flatten, Contiguous;
  }

  lemma MoreIsLoaded(s: Session, whole: seq<Row>)
    requires Refines(s, whole) && s.pageIndex < |s.pages| - 1
    ensures s.pages[s.pageIndex].rows != []
    ensures s.pages[s.pageIndex].start + |s.pages[s.pageIndex].rows| - 1 < |s.loadedRows|
  {
    FlattenSplits(s.pages, s.pageIndex);
    FlattenSplits(s.pages, s.pageIndex + 1);
    assert s.pages[s.pageIndex + 1].rows != [];
    hide Flatten;
  }

  lemma LastIsLoaded(s: Session, whole: seq<Row>)
    requires Refines(s, whole) && s.pageIndex == |s.pages| - 1
    ensures var page := s.pages[s.pageIndex];
            page.rows != [] ==> page.start + |page.rows| - 1 == |s.loadedRows|
    ensures s.pages[s.pageIndex].hasNext ==> s.pages[s.pageIndex].rows != []
  {
    FlattenSplits(s.pages, s.pageIndex);
    assert s.pages[..s.pageIndex + 1] == s.pages;
    hide Flatten;
  }

  lemma LoadAllReadsExactlyWhen(s: Session, whole: seq<Row>, pageSize: nat)
    requires Refines(s, whole)
    ensures NavigationReadsPostgres(LoadAll, Some(Snapshot(s, pageSize))) <==> s.rowCount.None?
  {}

  /** A reader is offered exactly the moves that show other rows than those on screen, while nothing runs. */
  lemma OffersExactly(s: Session, whole: seq<Row>, pageSize: nat, surface: Surface)
    requires Refines(s, whole) && surface.navigation == Some(Snapshot(s, pageSize).navigation)
    ensures var p := Snapshot(s, pageSize);
            var n := p.navigation;
            var idle := !surface.busy && !surface.closed;
            && (CanNavigate(Previous, surface) <==> idle && p.rows != [] && 1 < n.pageStart)
            && (CanNavigate(NextPage, surface) <==> idle && n.pageEnd < |whole|)
            && (CanNavigate(LoadAll, surface) <==> idle && p.rows != whole)
            && (CanNavigate(Cancel, surface) <==> surface.cancellable)
            && (!idle ==> !CanNavigate(Previous, surface) && !CanNavigate(NextPage, surface) && !CanNavigate(LoadAll, surface))
  {
    if s.pageIndex < |s.pages| - 1 {
      MoreIsLoaded(s, whole);
    } else {
      LastIsLoaded(s, whole);
    }
    PagesBefore(s, whole);
    PageIsWhole(s, whole);
    hide Flatten, Contiguous;
  }

  lemma PagesBefore(s: Session, whole: seq<Row>)
    requires Refines(s, whole)
    ensures var page := s.pages[s.pageIndex];
            s.pageIndex > 0 <==> page.rows != [] && page.start > 1
  {
    assert s.pages[..0] == [];
    if s.pageIndex > 0 {
      FlattenSplits(s.pages, 0);
      FlattenSplits(s.pages[..s.pageIndex], 0);
      assert s.pages[..s.pageIndex][..1] == s.pages[..1];
      assert s.pages[..1][..0] == [];
      assert s.pages[0].rows != [] && s.pages[s.pageIndex].rows != [];
    }
  }

  /** The page on screen is the whole result exactly if it is the only one and no row follows. */
  lemma PageIsWhole(s: Session, whole: seq<Row>)
    requires Refines(s, whole)
    ensures s.pages[s.pageIndex].rows == whole <==> |s.pages| == 1 && !s.pages[s.pageIndex].hasNext
  {
    if |s.pages| == 1 {
      assert s.pages[..0] == [] && Flatten(s.pages) == Flatten([]) + s.pages[0].rows == s.pages[0].rows;
    } else {
      var other := if s.pageIndex == 0 then 1 else 0;
      assert s.pages[other].rows != [];
      FlattenSplits(s.pages, 0);
      FlattenSplits(s.pages, 1);
      assert s.pages[..0] == [] && s.pages[..2][..1] == s.pages[..1];
      PageRows(s.pages, s.pageIndex);
      if s.pageIndex > 0 {
        PagesBefore(s, whole);
      }
    }
  }

  lemma FlattenSnoc(pages: seq<Page>, page: Page)
    ensures Flatten(pages + [page]) == Flatten(pages) + page.rows
  {
    assert (pages + [page])[..|pages|] == pages;
  }

  function PageOf(whole: seq<Row>, offset: nat, size: nat): Page
    requires offset <= |whole|
  {
    var end := if offset + size < |whole| then offset + size else |whole|;
    Page(if end == offset then 0 else offset + 1, whole[offset..end], end < |whole|)
  }

  function WithPage(s: Session, page: Page): Session {
    s.(pages := s.pages + [page], loadedRows := s.loadedRows + page.rows,
       rowCount := if page.hasNext then None else Some(|s.loadedRows| + |page.rows|))
  }

  lemma PageContinues(loaded: seq<Row>, whole: seq<Row>, size: nat)
    requires loaded <= whole && |loaded| < |whole| && size > 0
    ensures var page := PageOf(whole, |loaded|, size);
            && page.rows != [] && page.start == |loaded| + 1 && loaded + page.rows <= whole
            && (page.hasNext <==> loaded + page.rows != whole) && (page.hasNext ==> |loaded + page.rows| < |whole|)
  {
    var page := PageOf(whole, |loaded|, size);
    assert loaded + page.rows == whole[..|loaded| + |page.rows|];
  }

  /** One more page of a result that goes on keeps the refinement. */
  lemma AppendKeeps(s: Session, whole: seq<Row>, size: nat)
    requires Refines(s, whole) && s.rowCount.None? && size > 0
    ensures Refines(WithPage(s, PageOf(whole, |s.loadedRows|, size)), whole)
    ensures PageOf(whole, |s.loadedRows|, size).rows != []
  {
    PageContinues(s.loadedRows, whole, size);
    AppendsPage(s, whole, PageOf(whole, |s.loadedRows|, size));
  }

  lemma AppendsPage(s: Session, whole: seq<Row>, page: Page)
    requires Refines(s, whole) && s.rowCount.None?
    requires page.rows != [] && page.start == |s.loadedRows| + 1 && s.loadedRows + page.rows <= whole
    requires page.hasNext <==> s.loadedRows + page.rows != whole
    ensures Refines(WithPage(s, page), whole)
  {
    var more := s.pages + [page];
    FlattenSnoc(s.pages, page);
    AppendIsContiguous(s.pages, page);
    LongerPrefix(s.loadedRows + page.rows, whole);
    AllButLastGoOn(s.pages, page);
    hide Contiguous, Flatten;
    assert more[|more| - 1] == page;
  }

  lemma AllButLastGoOn(pages: seq<Page>, page: Page)
    requires forall i :: 0 <= i < |pages| ==> pages[i].hasNext
    ensures forall i :: 0 <= i < |pages + [page]| - 1 ==> (pages + [page])[i].hasNext
  {}

  lemma LongerPrefix(a: seq<Row>, whole: seq<Row>)
    requires a <= whole
    ensures a != whole ==> |a| < |whole|
  {}

  lemma AppendIsContiguous(pages: seq<Page>, page: Page)
    requires pages != [] && Contiguous(pages) && pages[|pages| - 1].hasNext
    requires page.rows != [] && page.start == |Flatten(pages)| + 1
    ensures Contiguous(pages + [page])
  {
    var more := pages + [page];
    forall i | 0 <= i < |more|
      ensures more[i].rows != [] && more[i].start == |Flatten(more[..i])| + 1
    {
      if i < |pages| {
        assert more[..i] == pages[..i];
      } else {
        assert more[..i] == pages;
      }
    }
  }

  /** The first page opens the refinement. */
  lemma OpenRefines(whole: seq<Row>, size: nat)
    requires size > 0
    ensures var page := PageOf(whole, 0, size);
            Refines(Session([page], page.rows, 0, if page.hasNext then None else Some(|page.rows|), false), whole)
  {
    var page := PageOf(whole, 0, size);
    assert [page][..0] == [] && Flatten([page]) == Flatten([]) + page.rows;
  }

  lemma LoadedAllRefines(s: Session, whole: seq<Row>)
    requires Refines(s, whole) && s.rowCount.Some?
    ensures Refines(Session([Page(1, s.loadedRows, false)], s.loadedRows, 0, s.rowCount, true), whole)
  {
    var page := Page(1, s.loadedRows, false);
    assert [page][..0] == [] && Flatten([page]) == Flatten([]) + page.rows;
  }

  lemma MovedRefines(s: Session, whole: seq<Row>, to: nat)
    requires Refines(s, whole) && to < |s.pages|
    ensures Refines(s.(pageIndex := to), whole)
  {}

  // ----- The session ---------------------------------------------------------------------------------

  datatype Batch = Rows(rows: seq<Row>) | ReadFailed
  datatype Answer = Shown(payload: Payload) | Failed

  /** An `OffsetQuerySource` over a result that does not change; any read may fail or be cancelled. */
  class Source {
    const whole: seq<Row>
    ghost var queries: nat

    constructor (whole: seq<Row>)
      ensures this.whole == whole && queries == 0
    {
      this.whole, queries := whole, 0;
    }

    method Read(offset: nat, limit: nat) returns (batch: Batch)
      requires offset <= |whole|
      modifies this
      ensures queries == old(queries) + 1
      ensures batch.Rows? ==> batch.rows == whole[offset..if offset + limit < |whole| then offset + limit else |whole|]
    {
      queries := queries + 1;
      if * {
        return ReadFailed;
      }
      return Rows(whole[offset..if offset + limit < |whole| then offset + limit else |whole|]);
    }
  }

  /** The page that the asked-for rows make, told from one row more. */
  lemma BatchIsPage(whole: seq<Row>, offset: nat, size: nat, batch: seq<Row>)
    requires offset <= |whole| && size > 0
    requires batch == whole[offset..if offset + (size + 1) < |whole| then offset + (size + 1) else |whole|]
    ensures var rows := if |batch| > size then batch[..size] else batch;
            Page(if rows == [] then 0 else offset + 1, rows, |batch| > size) == PageOf(whole, offset, size)
  {}

  class OffsetResultSession {
    const pageSize: nat
    const source: Source
    var pages: seq<Page>
    var loadedRows: seq<Row>
    var pageIndex: nat
    var rowCount: Option<nat>
    var all: bool
    var closed: bool

    ghost function View(): Session
      reads this
    {
      Session(pages, loadedRows, pageIndex, rowCount, all)
    }

    /** At every moment between calls the session refines the whole result. */
    ghost predicate Valid()
      reads this
    {
      MinRows <= pageSize <= MaxRows && Refines(View(), source.whole)
    }

    /** `open`, its first page read: here the source answered, or the session would not exist. */
    constructor (source: Source, pageSize: int)
      ensures Valid() && this.source == source && !closed && pageIndex == 0
      ensures this.pageSize == if pageSize < 20 then 20 else if 1000 < pageSize then 1000 else pageSize
      ensures loadedRows == source.whole[..if this.pageSize < |source.whole| then this.pageSize else |source.whole|]
      ensures |pages| == 1 && !all
    {
      var size := Clamp(pageSize, MinRows, MaxRows);
      var page := PageOf(source.whole, 0, size);
      this.pageSize, this.source := size, source;
      pages, loadedRows := [page], page.rows;
      rowCount := if page.hasNext then None else Some(|page.rows|);
      pageIndex, all, closed := 0, false, false;
      new;
      OpenRefines(source.whole, size);
    }

    /** `snapshot`: it shows rows of the whole result, its true size, and which moves would read PostgreSQL. */
    method CurrentSnapshot() returns (payload: Payload)
      requires Valid()
      ensures payload == Snapshot(View(), pageSize)
      ensures payload.rows == [] ==> source.whole == []
      ensures payload.rows != [] ==>
                && 1 <= payload.navigation.pageStart && payload.navigation.pageEnd <= |source.whole|
                && payload.rows == source.whole[payload.navigation.pageStart - 1..payload.navigation.pageEnd]
      ensures payload.rowCount.Some? ==> payload.rowCount.value == |source.whole|
      ensures NavigationReadsPostgres(NextPage, Some(payload)) <==> pageIndex == |pages| - 1 && pages[pageIndex].hasNext
      ensures NavigationReadsPostgres(LoadAll, Some(payload)) <==> rowCount.None?
    {
      SnapshotShowsItsRows(View(), source.whole, pageSize);
      NextReadsExactlyWhen(View(), source.whole, pageSize);
      LoadAllReadsExactlyWhen(View(), source.whole, pageSize);
      payload := PresentPage();
    }

    method PresentPage() returns (payload: Payload)
      ensures payload == Snapshot(View(), pageSize)
    {
      var page := if pageIndex < |pages| then pages[pageIndex] else Page(0, [], false);
      payload := Payload(page.rows, rowCount,
                         Navigation(all, pageIndex, pageSize,
                                    if page.rows == [] then 0 else page.start,
                                    if page.rows == [] then 0 else page.start + |page.rows| - 1,
                                    |loadedRows|,
                                    pageIndex > 0,
                                    page.hasNext || pageIndex < |pages| - 1,
                                    !all && (page.hasNext || |pages| > 1)));
    }

    /** `appendPage` behind the rows already loaded. One row more than the page is asked for, to see whether more follow. */
    method AppendPage(size: nat) returns (ok: bool)
      requires Valid() && rowCount.None? && size > 0
      modifies this, source
      ensures Valid() && source.queries == old(source.queries) + 1
      ensures pageIndex == old(pageIndex) && all == old(all) && closed == old(closed)
      ensures ok ==> View() == WithPage(old(View()), PageOf(source.whole, |old(loadedRows)|, size))
      ensures ok ==> |loadedRows| > |old(loadedRows)| && |pages| == |old(pages)| + 1
      ensures ok ==> |loadedRows| == Least(|old(loadedRows)| + size, |source.whole|)
      ensures !ok ==> View() == old(View())
    {
      hide Contiguous, Flatten;
      var offset := |loadedRows|;
      var batch := source.Read(offset, size + 1);
      if batch.ReadFailed? {
        return false;
      }
      AppendKeeps(View(), source.whole, size);
      BatchIsPage(source.whole, offset, size, batch.rows);
      hide Refines, PageOf;
      var rows := if |batch.rows| > size then batch.rows[..size] else batch.rows;
      var hasNext := |batch.rows| > size;
      loadedRows := loadedRows + rows;
      if !hasNext {
        rowCount := Some(offset + |rows|);
      }
      pages := pages + [Page(if rows == [] then 0 else offset + 1, rows, hasNext)];
      return true;
    }

    method MovePrevious() returns (answer: Answer)
      requires Valid()
      modifies this`pageIndex
      ensures Valid()
      ensures closed ==> answer == Failed && pageIndex == old(pageIndex)
      ensures !closed ==> answer == Shown(Snapshot(View(), pageSize)) && pageIndex == if old(pageIndex) > 0 then old(pageIndex) - 1 else 0
    {
      if closed {
        return Failed;
      }
      if pageIndex > 0 {
        pageIndex := pageIndex - 1;
      }
      var payload := PresentPage();
      return Shown(payload);
    }

    /** `next` reads PostgreSQL exactly when `navigationReadsPostgres` said so of the snapshot before it. */
    method MoveNext() returns (answer: Answer)
      requires Valid()
      modifies this, source
      ensures Valid() && all == old(all) && closed == old(closed)
      ensures closed ==> answer == Failed && View() == old(View()) && source.queries == old(source.queries)
      ensures !closed ==>
                source.queries == old(source.queries)
                                + if NavigationReadsPostgres(NextPage, Some(Snapshot(old(View()), pageSize))) then 1 else 0
      ensures answer.Shown? ==> answer.payload == Snapshot(View(), pageSize)
      ensures answer.Shown? && CanNavigate(NextPage, Surface(Some(Snapshot(old(View()), pageSize).navigation), false, false, false)) ==>
                pageIndex == old(pageIndex) + 1
      ensures answer.Shown? ==>
                |loadedRows| == if NavigationReadsPostgres(NextPage, Some(Snapshot(old(View()), pageSize)))
                                then Least(|old(loadedRows)| + pageSize, |source.whole|) else |old(loadedRows)|
      ensures old(loadedRows) <= loadedRows && old(pages) <= pages
    {
      if closed {
        return Failed;
      }
      NextReadsExactlyWhen(View(), source.whole, pageSize);
      hide Refines, NavigationReadsPostgres;
      var ok := TurnPage();
      if !ok {
        return Failed;
      }
      var payload := PresentPage();
      return Shown(payload);
    }

    method TurnPage() returns (ok: bool)
      requires Valid()
      modifies this, source
      ensures Valid() && all == old(all) && closed == old(closed)
      ensures old(loadedRows) <= loadedRows && old(pages) <= pages
      ensures source.queries == old(source.queries) + if old(pageIndex == |pages| - 1 && pages[pageIndex].hasNext) then 1 else 0
      ensures ok ==> pageIndex == old(pageIndex) + if old(pageIndex < |pages| - 1 || pages[pageIndex].hasNext) then 1 else 0
      ensures ok ==> |loadedRows| == if old(pageIndex == |pages| - 1 && pages[pageIndex].hasNext)
                                     then Least(|old(loadedRows)| + pageSize, |source.whole|) else |old(loadedRows)|
    {
      hide Contiguous, Flatten, PageOf;
      if pageIndex < |pages| - 1 {
        MovedRefines(View(), source.whole, pageIndex + 1);
        hide Refines;
        pageIndex := pageIndex + 1;
      } else if pages[pageIndex].hasNext {
        ok := AppendPage(pageSize);
        if !ok {
          return;
        }
        MovedRefines(View(), source.whole, |pages| - 1);
        hide Refines;
        pageIndex := |pages| - 1;
      }
      ok := true;
    }

    /** `loadAll` ends with every row of the result once, in one page; a failed read keeps what was loaded. */
    method LoadAllRows() returns (answer: Answer)
      requires Valid()
      modifies this, source
      ensures Valid() && closed == old(closed)
      ensures closed ==> answer == Failed && View() == old(View()) && source.queries == old(source.queries)
      ensures answer.Shown? ==> answer.payload == Snapshot(View(), pageSize)
                                && View() == Session([Page(1, source.whole, false)], source.whole, 0, Some(|source.whole|), true)
      ensures !closed ==>
                (source.queries > old(source.queries)
                 <==> NavigationReadsPostgres(LoadAll, Some(Snapshot(old(View()), pageSize))))
      ensures answer.Failed? ==> old(loadedRows) <= loadedRows && all == old(all) && pageIndex == old(pageIndex)
    {
      if closed {
        return Failed;
      }
      LoadAllReadsExactlyWhen(View(), source.whole, pageSize);
      while rowCount.None?
        invariant Valid() && !closed && pageIndex == old(pageIndex) && all == old(all)
        invariant old(loadedRows) <= loadedRows
        invariant old(rowCount).Some? ==> rowCount.Some? && View() == old(View()) && source.queries == old(source.queries)
        invariant old(rowCount).None? && source.queries == old(source.queries) ==> rowCount.None?
        invariant source.queries >= old(source.queries)
        decreases rowCount.None?, |source.whole| - |loadedRows|
      {
        var ok := AppendPage(LoadAllPageRows);
        if !ok {
          return Failed;
        }
      }
      LoadedAllRefines(View(), source.whole);
      pages := [Page(1, loadedRows, false)];
      pageIndex := 0;
      all := true;
      var payload := PresentPage();
      return Shown(payload);
    }

    method Close()
      modifies this`closed
      ensures closed && View() == old(View())
    {
      closed := true;
    }
  }
}
