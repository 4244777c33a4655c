/**
  Keyset paging of evidence, newest first. Both endpoints compute the same page, and
  following the cursors from the first page returns every row exactly once.
*/
module EvidencePaging {
  import opened Wrappers
  import opened JsonText
  import opened Sorting

  /** An evidence row; the owner is the tenant and the alert or finding it belongs to. */
  datatype Row = Row(owner: Text, time: int, id: Text, summary: Text)

  datatype Cursor = Cursor(time: int, id: Text)

  datatype Page = Page(items: seq<Row>, total: nat, nextCursor: Option<Cursor>, hasMore: bool)

  /** `orderBy: [{ time: "desc" }, { id: "desc" }]` */
  predicate NewestFirst(a: Row, b: Row) {
    a.time > b.time || (a.time == b.time && LexLe(b.id, a.id))
  }

  /** The cursor condition: strictly older, or as old with a smaller id. */
  predicate Behind(r: Row, c: Cursor) {
    r.time < c.time || (r.time == c.time && LexLe(r.id, c.id) && r.id != c.id)
  }

  function CursorOf(r: Row): Cursor {
    Cursor(r.time, r.id)
  }

  predicate Matches(r: Row, owner: Text, cursor: Option<Cursor>) {
    r.owner == owner && (cursor.None? || Behind(r, cursor.value))
  }

  /** `findMany` with this filter and order. */
  function Query(table: seq<Row>, owner: Text, cursor: Option<Cursor>): seq<Row> {
    SortBy(NewestFirst, Filter(r => Matches(r, owner, cursor), table))
  }

  /** The page of the finding endpoint, whose handler is one expression. */
  function SnapshotPage(table: seq<Row>, owner: Text, cursor: Option<Cursor>, limit: nat): Page {
    var rows := Take(Query(table, owner, cursor), limit + 1);
    var hasMore := |rows| > limit;
    var items := Take(rows, limit);
    var last := if items == [] then None else Some(items[|items| - 1]);
    var next := if hasMore && last.Some? then Some(CursorOf(last.value)) else None;
    Page(items, |Query(table, owner, None)|, next, hasMore)
  }

  /** A `where` condition as the alert endpoint builds it. */
  datatype Where = Where(owner: Text, older: Option<(int, int, Text)>)

  predicate Selects(w: Where, r: Row) {
    r.owner == w.owner
    && (w.older.None? || r.time < w.older.value.0
        || (r.time == w.older.value.1 && LexLe(r.id, w.older.value.2) && r.id != w.older.value.2))
  }

  /** The alert endpoint's handler, which builds its condition and its cursor in place. */
  method ListAlertEvidence(table: seq<Row>, owner: Text, cursor: Option<Cursor>, limit: nat) returns (page: Page)
    ensures page == SnapshotPage(table, owner, cursor, limit)
  {
    hide SortBy, Filter, Selects, Matches;
    var take := limit + 1;
    var where := Where(owner, None);
    if cursor.Some? {
      where := where.(older := Some((cursor.value.time, cursor.value.time, cursor.value.id)));
    }
    SelectsMatches(table, where, owner, cursor);
    var items := Take(SortBy(NewestFirst, Filter(r => Selects(where, r), table)), take);
    var hasMore := |items| > limit;
    var pageItems := if hasMore then items[..limit] else items;
    var nextCursor := None;
    if hasMore && |pageItems| > 0 {
      nextCursor := Some(CursorOf(pageItems[|pageItems| - 1]));
    }
    SelectsMatches(table, Where(owner, None), owner, None);
    SortPermutes(NewestFirst, Filter(r => Matches(r, owner, None), table));
    page := Page(pageItems, |Filter(r => Selects(Where(owner, None), r), table)|, nextCursor, hasMore);
  }

  lemma SelectsMatches(table: seq<Row>, w: Where, owner: Text, cursor: Option<Cursor>)
    requires w.owner == owner
    requires w.older == if cursor.None? then None else Some((cursor.value.time, cursor.value.time, cursor.value.id))
    ensures Filter(r => Selects(w, r), table) == Filter(r => Matches(r, owner, cursor), table)
  {
    hide LexLe;
    FilterAgrees(r => Selects(w, r), r => Matches(r, owner, cursor), table);
  }

  // ----- the order -----

  lemma Ordered()
    ensures TotalPreorder(NewestFirst)
  {
    forall x, y ensures NewestFirst(x, y) || NewestFirst(y, x) { LexTotal(x.id, y.id); }
    forall x, y, z | NewestFirst(x, y) && NewestFirst(y, z) ensures NewestFirst(x, z) {
      if x.time == y.time == z.time { LexTransitive(z.id, y.id, x.id); }
    }
  }

  function IdOf(r: Row): Text {
    r.id
  }

  /** Row ids are unique. */
  ghost predicate UniqueIds(table: seq<Row>) {
    Distinct(Mapped(IdOf, table))
  }

  lemma {:induction false} FilterAll(p: Row -> bool, s: seq<Row>)
    ensures (forall r | r in s :: p(r)) ==> Filter(p, s) == s
    ensures (forall r | r in s :: !p(r)) ==> Filter(p, s) == []
  {
    if s != [] {
      FilterAll(p, s[1..]);
      assert s == [s[0]] + s[1..];
    }
  }

  lemma {:induction false} FilterSplits(p: Row -> bool, a: seq<Row>, b: seq<Row>)
    ensures Filter(p, a + b) == Filter(p, a) + Filter(p, b)
  {
    if a == [] {
      assert a + b == b;
    } else {
      FilterSplits(p, a[1..], b);
      assert (a + b)[1..] == a[1..] + b;
    }
  }

  /** All rows of one owner, newest first. */
  function Listing(table: seq<Row>, owner: Text): seq<Row> {
    Query(table, owner, None)
  }

  /** A query is sorted, holds exactly the matching rows, and no two of them share an id. */
  lemma QueryFacts(table: seq<Row>, owner: Text, cursor: Option<Cursor>)
    requires UniqueIds(table)
    ensures var s := Query(table, owner, cursor);
            && Sorted(NewestFirst, s) && UniqueIds(s)
            && multiset(s) == multiset(Filter(r => Matches(r, owner, cursor), table))
  {
    Ordered();
    var p := (r: Row) => Matches(r, owner, cursor);
    var found := Filter(p, table);
    FilterKeepsDistinct(p, IdOf, table);
    SortKeepsDistinct(NewestFirst, IdOf, found);
    SortSorts(NewestFirst, found);
    SortPermutes(NewestFirst, found);
  }

  /** Distinct rows are never tied. */
  lemma Untied(s: seq<Row>)
    requires UniqueIds(s)
    ensures Separates(NewestFirst, s)
  {
    forall x, y | x in s && y in s && NewestFirst(x, y) && NewestFirst(y, x) ensures x == y {
      LexAntisymmetric(x.id, y.id);
      var i :| 0 <= i < |s| && s[i] == x;
      var j :| 0 <= j < |s| && s[j] == y;
      assert Mapped(IdOf, s)[i] == Mapped(IdOf, s)[j];
    }
  }

  /** In a listing, the rows behind the n-th row's cursor are exactly those after it. */
  lemma BehindIsAfter(s: seq<Row>, n: nat, r: Row)
    requires Sorted(NewestFirst, s) && UniqueIds(s) && 0 < n <= |s|
    ensures (r in s[..n] ==> !Behind(r, CursorOf(s[n - 1]))) && (r in s[n..] ==> Behind(r, CursorOf(s[n - 1])))
  {
    var c := s[n - 1];
    if r in s[..n] {
      var i :| 0 <= i < n && s[i] == r;
      if i < n - 1 {
        assert NewestFirst(s[i], c);
        if r.time == c.time && LexLe(r.id, c.id) { LexAntisymmetric(r.id, c.id); }
      }
    }
    if r in s[n..] {
      var i :| n <= i < |s| && s[i] == r;
      assert NewestFirst(c, s[i]);
      assert Mapped(IdOf, s)[n - 1] != Mapped(IdOf, s)[i];
    }
  }

  lemma RestOfListing(s: seq<Row>, n: nat)
    requires Sorted(NewestFirst, s) && UniqueIds(s) && 0 < n <= |s|
    ensures Filter(r => Behind(r, CursorOf(s[n - 1])), s) == s[n..]
  {
    hide NewestFirst, Behind, Sorted, UniqueIds;
    var behind := (r: Row) => Behind(r, CursorOf(s[n - 1]));
    forall r | r in s ensures (r in s[..n] ==> !behind(r)) && (r in s[n..] ==> behind(r)) {
      BehindIsAfter(s, n, r);
    }
    FilterAll(behind, s[..n]);
    FilterAll(behind, s[n..]);
    FilterSplits(behind, s[..n], s[n..]);
    assert s == s[..n] + s[n..];
  }

  lemma {:induction false} FilterTwice(p: Row -> bool, q: Row -> bool, both: Row -> bool, s: seq<Row>)
    requires forall r :: both(r) == (p(r) && q(r))
    ensures Filter(q, Filter(p, s)) == Filter(both, s)
  {
    if s != [] {
      FilterTwice(p, q, both, s[1..]);
      if p(s[0]) { assert ([s[0]] + Filter(p, s[1..]))[1..] == Filter(p, s[1..]); }
    }
  }

  lemma FilterPermutes(p: Row -> bool, a: seq<Row>, b: seq<Row>)
    requires multiset(a) == multiset(b)
    ensures multiset(Filter(p, a)) == multiset(Filter(p, b))
  {
    forall x: Row ensures multiset(Filter(p, a))[x] == multiset(Filter(p, b))[x] {
      FilterCounts(p, a, x);
      FilterCounts(p, b, x);
    }
  }

  lemma RestIsSorted(s: seq<Row>, n: nat)
    requires Sorted(NewestFirst, s) && n <= |s|
    ensures Sorted(NewestFirst, s[n..])
  {}

  /** What is behind a row that is itself behind a cursor is behind that cursor. */
  lemma BehindBehind(x: Row, c: Row, cursor: Cursor)
    requires Behind(c, cursor) && Behind(x, CursorOf(c))
    ensures Behind(x, cursor)
  {
    if x.time == c.time == cursor.time {
      LexTransitive(x.id, c.id, cursor.id);
      if x.id == cursor.id { LexAntisymmetric(x.id, c.id); }
    }
  }

  lemma QueryHolds(table: seq<Row>, owner: Text, cursor: Option<Cursor>, r: Row)
    requires UniqueIds(table)
    ensures r in Query(table, owner, cursor) <==> r in table && Matches(r, owner, cursor)
  {
    hide NewestFirst, Sorted, UniqueIds, Matches;
    var p := (x: Row) => Matches(x, owner, cursor);
    QueryFacts(table, owner, cursor);
    FilterHolds(p, table, r);
    assert r in Query(table, owner, cursor) <==> r in multiset(Query(table, owner, cursor));
    assert r in Filter(p, table) <==> r in multiset(Filter(p, table));
  }

  /** What the cursor of the n-th row found leaves to be found is the rest. */
  lemma QueryBehind(table: seq<Row>, owner: Text, cursor: Option<Cursor>, n: nat)
    requires UniqueIds(table) && 0 < n <= |Query(table, owner, cursor)|
    ensures var all := Query(table, owner, cursor);
            Query(table, owner, Some(CursorOf(all[n - 1]))) == all[n..]
  {
    hide Query, NewestFirst, Behind, Sorted, UniqueIds, Separates, Filter;
    var all := Query(table, owner, cursor);
    var c := CursorOf(all[n - 1]);
    var rest := Query(table, owner, Some(c));
    QueryFacts(table, owner, cursor);
    QueryFacts(table, owner, Some(c));
    var p, q := (r: Row) => Matches(r, owner, cursor), (r: Row) => Matches(r, owner, Some(c));
    var behind := (r: Row) => Behind(r, c);
    QueryHolds(table, owner, cursor, all[n - 1]);
    forall r: Row ensures q(r) == (p(r) && behind(r)) {
      if cursor.Some? && behind(r) { BehindBehind(r, all[n - 1], cursor.value); }
    }
    RestOfListing(all, n);
    FilterPermutes(behind, all, Filter(p, table));
    FilterTwice(p, behind, q, table);
    RestIsSorted(all, n);
    Untied(rest);
    SortedUnique(NewestFirst, rest, all[n..]);
  }

  /** What a cursor finds depends on the rows behind it and on no others. */
  lemma QueryIsLocal(before: seq<Row>, after: seq<Row>, owner: Text, c: Cursor)
    requires UniqueIds(before) && UniqueIds(after)
    requires forall r: Row | r.owner == owner && Behind(r, c) :: r in before <==> r in after
    ensures Query(before, owner, Some(c)) == Query(after, owner, Some(c))
  {
    hide Query, NewestFirst, Behind, Sorted, Separates;
    QueryFacts(before, owner, Some(c));
    QueryFacts(after, owner, Some(c));
    var a, b := Query(before, owner, Some(c)), Query(after, owner, Some(c));
    forall r: Row ensures r in a <==> r in b {
      QueryHolds(before, owner, Some(c), r);
      QueryHolds(after, owner, Some(c), r);
    }
    RowsDistinct(a);
    RowsDistinct(b);
    SameElementsPermute(a, b);
    Untied(a);
    SortedUnique(NewestFirst, a, b);
  }

  lemma RowsDistinct(s: seq<Row>)
    requires UniqueIds(s)
    ensures Distinct(s)
  {
    forall i, j | 0 <= i < j < |s| ensures s[i] != s[j] {
      assert Mapped(IdOf, s)[i] != Mapped(IdOf, s)[j];
    }
  }

  // ----- walking the pages -----

  /** The pages a client gets that follows the cursors; each is read from what the table is by then. */
  function Walk(tables: seq<seq<Row>>, owner: Text, cursor: Option<Cursor>, limit: nat): seq<Page>
    decreases |tables|
  {
    if tables == [] then []
    else
      var page := SnapshotPage(tables[0], owner, cursor, limit);
      [page] + if page.nextCursor.None? then [] else Walk(tables[1..], owner, page.nextCursor, limit)
  }

  /**
    Between two pages of such a walk rows come and go only where the client has been:
    those behind its cursor stay as they are.
  */
  ghost predicate StillBehind(tables: seq<seq<Row>>, owner: Text, cursor: Option<Cursor>, limit: nat)
    decreases |tables|
  {
    |tables| >= 2 ==>
      var next := SnapshotPage(tables[0], owner, cursor, limit).nextCursor;
      next.Some? ==>
        && (forall r: Row | r.owner == owner && Behind(r, next.value) :: r in tables[0] <==> r in tables[1])
        && StillBehind(tables[1..], owner, next, limit)
  }

  /** Nothing comes or goes while the table is the same. */
  lemma {:induction false} SameTableIsStill(table: seq<Row>, n: nat, owner: Text, cursor: Option<Cursor>, limit: nat)
    ensures StillBehind(seq(n, _ => table), owner, cursor, limit)
    decreases n
  {
    if n >= 2 {
      var next := SnapshotPage(table, owner, cursor, limit).nextCursor;
      SameTableIsStill(table, n - 1, owner, next, limit);
      assert seq(n, _ => table)[1..] == seq(n - 1, _ => table);
    }
  }

  function ItemsOf(pages: seq<Page>): seq<Row> {
    if pages == [] then [] else pages[0].items + ItemsOf(pages[1..])
  }

  /** The cursor of a position in the listing. */
  function Position(table: seq<Row>, owner: Text, n: nat): Option<Cursor>
    requires n <= |Listing(table, owner)|
  {
    if n == 0 then None else Some(CursorOf(Listing(table, owner)[n - 1]))
  }

  lemma PageAt(table: seq<Row>, owner: Text, limit: nat, n: nat)
    requires UniqueIds(table) && limit >= 1 && n <= |Listing(table, owner)|
    ensures var all, page := Listing(table, owner), SnapshotPage(table, owner, Position(table, owner, n), limit);
            && page.items == Take(all[n..], limit) && page.total == |all|
            && (page.hasMore <==> |all| > n + limit)
            && page.nextCursor == if page.hasMore then Position(table, owner, n + limit) else None
  {
    var all := Listing(table, owner);
    if n > 0 { QueryBehind(table, owner, None, n); }
    assert Query(table, owner, Position(table, owner, n)) == all[n..] by { if n == 0 { assert all[0..] == all; } }
  }

  /** A page is the first part of what its cursor finds, and the next cursor finds the rest. */
  lemma PageAndRest(table: seq<Row>, owner: Text, cursor: Option<Cursor>, limit: nat)
    requires UniqueIds(table) && limit >= 1
    ensures var found, page := Query(table, owner, cursor), SnapshotPage(table, owner, cursor, limit);
            && page.items == Take(found, limit) && (page.hasMore <==> |found| > limit)
            && (page.nextCursor.Some? <==> page.hasMore)
            && (page.hasMore ==> Query(table, owner, page.nextCursor) == found[limit..])
  {
    if |Query(table, owner, cursor)| > limit { QueryBehind(table, owner, cursor, limit); }
  }

  lemma {:induction false} WalkFinds(tables: seq<seq<Row>>, owner: Text, cursor: Option<Cursor>, limit: nat)
    requires limit >= 1 && tables != [] && (forall t | t in tables :: UniqueIds(t))
    requires |tables| > |Query(tables[0], owner, cursor)| && StillBehind(tables, owner, cursor, limit)
    ensures var pages := Walk(tables, owner, cursor, limit);
            && ItemsOf(pages) == Query(tables[0], owner, cursor) && pages != []
            && (forall i | 0 <= i < |pages| - 1 :: pages[i].hasMore && |pages[i].items| == limit)
            && !pages[|pages| - 1].hasMore && pages[|pages| - 1].nextCursor.None? && |pages[|pages| - 1].items| <= limit
    decreases |tables|
  {
    hide SnapshotPage, Query, Behind, UniqueIds;
    PageAndRest(tables[0], owner, cursor, limit);
    var found := Query(tables[0], owner, cursor);
    var page := SnapshotPage(tables[0], owner, cursor, limit);
    if page.hasMore {
      QueryIsLocal(tables[0], tables[1], owner, page.nextCursor.value);
      WalkFinds(tables[1..], owner, page.nextCursor, limit);
      var rest := Walk(tables[1..], owner, page.nextCursor, limit);
      assert ([page] + rest)[1..] == rest;
      assert found == found[..limit] + found[limit..];
    } else {
      assert [page][1..] == [] && page.items + [] == page.items;
      assert [page] + [] == [page];
    }
  }

  /**
    Following the cursors from the first page, with any limit of at least one and while
    rows that are not behind the cursor come and go, gives every row that the owner had
    at the first page exactly once, newest first, and no other; full pages say there is
    more, and the last page says there is not.
  */
  lemma WalkListsEverything(tables: seq<seq<Row>>, owner: Text, limit: nat)
    requires limit >= 1 && tables != [] && (forall t | t in tables :: UniqueIds(t))
    requires |tables| > |Listing(tables[0], owner)| && StillBehind(tables, owner, None, limit)
    ensures var pages := Walk(tables, owner, None, limit);
            && Sorted(NewestFirst, ItemsOf(pages)) && UniqueIds(ItemsOf(pages))
            && (forall r :: r in ItemsOf(pages) <==> r in tables[0] && r.owner == owner)
            && pages != []
            && (forall i | 0 <= i < |pages| - 1 :: pages[i].hasMore && |pages[i].items| == limit)
            && !pages[|pages| - 1].hasMore && pages[|pages| - 1].nextCursor.None?
  {
    hide Walk, ItemsOf, Query, NewestFirst, Sorted, UniqueIds, StillBehind;
    WalkFinds(tables, owner, None, limit);
    QueryFacts(tables[0], owner, None);
    forall r: Row ensures r in Listing(tables[0], owner) <==> r in tables[0] && r.owner == owner {
      QueryHolds(tables[0], owner, None, r);
    }
  }

  /**
    A page reached through a cursor does not depend on rows that are not behind it, so
    newer rows may arrive meanwhile.
  */
  lemma NewerRowsDoNotMatter(before: seq<Row>, after: seq<Row>, owner: Text, c: Cursor, limit: nat)
    requires UniqueIds(before) && UniqueIds(after)
    requires forall r: Row | r.owner == owner && Behind(r, c) :: r in before <==> r in after
    ensures SnapshotPage(before, owner, Some(c), limit).items == SnapshotPage(after, owner, Some(c), limit).items
    ensures SnapshotPage(before, owner, Some(c), limit).nextCursor
        == SnapshotPage(after, owner, Some(c), limit).nextCursor
  {
    QueryIsLocal(before, after, owner, c);
  }
}
