/** Keyset paging of the ledger, newest first, while bets are placed and graded between the pages. */
module Ledger {
  import opened Outcomes

  /** (placed_at, id): the sort key and what a cursor carries. */
  datatype Key = Key(placedAt: int, id: nat)

  datatype Row = Row(
    key: Key,
    league: string,
    market: string,
    edge: real,
    isParlay: bool,
    isLive: bool,
    status: Status,
    gradedAt: Option<int>
  )

  datatype StatusFilter = OpenOnly | GradedOnly

  datatype Filters = Filters(
    league: Option<string>,
    market: Option<string>,
    result: Option<Status>,
    status: Option<StatusFilter>,
    dateFrom: Option<int>,
    dateTo: Option<int>,
    minEdge: Option<real>,
    gradedFrom: Option<int>,
    isParlay: Option<bool>,
    isLive: Option<bool>
  )

  /** The conjunction of the conditions the filters ask for. */
  predicate Matches(f: Filters, r: Row) {
    && (f.league.Some? ==> r.league == f.league.value)
    && (f.market.Some? ==> r.market == f.market.value)
    && (f.result.Some? ==> r.status == f.result.value)
    && (f.status.Some? ==> (f.status.value.OpenOnly? <==> r.status.OPEN?))
    && (f.dateFrom.Some? ==> r.key.placedAt >= f.dateFrom.value)
    && (f.dateTo.Some? ==> r.key.placedAt <= f.dateTo.value)
    && (f.minEdge.Some? ==> r.edge >= f.minEdge.value)
    && (f.gradedFrom.Some? ==> r.gradedAt.Some? && r.gradedAt.value >= f.gradedFrom.value)
    && (f.isParlay.Some? ==> r.isParlay == f.isParlay.value)
    && (f.isLive.Some? ==> r.isLive == f.isLive.value)
  }

  predicate Below(a: Key, b: Key) {
    a.placedAt < b.placedAt || (a.placedAt == b.placedAt && a.id < b.id)
  }

  predicate PastCursor(key: Key, cursor: Option<Key>) {
    cursor.Some? ==> Below(key, cursor.value)
  }

  predicate UniqueKeys(table: seq<Row>) {
    forall i, j :: 0 <= i < j < |table| ==> table[i].key != table[j].key
  }

  /** Strictly newest first, hence no key twice. */
  predicate Descending(rows: seq<Row>) {
    forall i, j :: 0 <= i < j < |rows| ==> Below(rows[j].key, rows[i].key)
  }

  // ---------- the query ----------

  function Selected(table: seq<Row>, f: Filters, cursor: Option<Key>): seq<Row> {
    if table == [] then []
    else
      var rest := Selected(table[1..], f, cursor);
      if Matches(f, table[0]) && PastCursor(table[0].key, cursor) then [table[0]] + rest else rest
  }

  function InsertRow(r: Row, rows: seq<Row>): seq<Row> {
    if rows == [] then [r]
    else if Below(r.key, rows[0].key) then [rows[0]] + InsertRow(r, rows[1..])
    else [r] + rows
  }

  function Ordered(rows: seq<Row>): seq<Row> {
    if rows == [] then [] else InsertRow(rows[0], Ordered(rows[1..]))
  }

  lemma {:induction false} SelectedMembers(table: seq<Row>, f: Filters, cursor: Option<Key>)
    ensures forall r :: r in Selected(table, f, cursor) <==> r in table && Matches(f, r) && PastCursor(r.key, cursor)
  {
    if table != [] {
      SelectedMembers(table[1..], f, cursor);
      assert table == [table[0]] + table[1..];
    }
  }

  lemma {:induction false} SelectedUnique(table: seq<Row>, f: Filters, cursor: Option<Key>)
    requires UniqueKeys(table)
    ensures UniqueKeys(Selected(table, f, cursor))
  {
    if table != [] {
      SelectedUnique(table[1..], f, cursor);
      SelectedMembers(table[1..], f, cursor);
      var rest := Selected(table[1..], f, cursor);
      forall i | 0 <= i < |rest| ensures rest[i].key != table[0].key {
        assert rest[i] in rest;
      }
    }
  }

  lemma {:induction false} InsertRowDescends(r: Row, rows: seq<Row>)
    requires Descending(rows) && forall i :: 0 <= i < |rows| ==> rows[i].key != r.key
    ensures Descending(InsertRow(r, rows)) && |InsertRow(r, rows)| == |rows| + 1
    ensures forall x :: x in InsertRow(r, rows) <==> x == r || x in rows
  {
    if rows != [] {
      assert rows == [rows[0]] + rows[1..];
      if Below(r.key, rows[0].key) {
        var tail := InsertRow(r, rows[1..]);
        InsertRowDescends(r, rows[1..]);
        forall j | 0 <= j < |tail| ensures Below(tail[j].key, rows[0].key) {
          assert tail[j] in tail;
          assert tail[j] == r || tail[j] in rows[1..];
        }
      }
    }
  }

  lemma {:induction false} OrderedDescends(rows: seq<Row>)
    requires UniqueKeys(rows)
    ensures Descending(Ordered(rows)) && |Ordered(rows)| == |rows|
    ensures forall x :: x in Ordered(rows) <==> x in rows
  {
    if rows != [] {
      OrderedDescends(rows[1..]);
      var rest := Ordered(rows[1..]);
      assert rows == [rows[0]] + rows[1..];
      forall i | 0 <= i < |rest| ensures rest[i].key != rows[0].key {
        assert rest[i] in rows[1..];
      }
      InsertRowDescends(rows[0], rest);
    }
  }

  // ---------- one page ----------

  /** rows are the newest matching ones past the cursor, at most `limit`; hasMore says whether any was left out. */
  ghost predicate IsPage(table: seq<Row>, f: Filters, limit: nat, cursor: Option<Key>, rows: seq<Row>, hasMore: bool) {
    && Descending(rows) && |rows| <= limit && (hasMore ==> |rows| == limit)
    && (forall r :: r in rows ==> r in table && Matches(f, r) && PastCursor(r.key, cursor))
    && (forall r :: r in table && Matches(f, r) && PastCursor(r.key, cursor) && r !in rows ==>
          hasMore && forall x :: x in rows ==> Below(r.key, x.key))
    && (hasMore ==> exists r :: r in table && Matches(f, r) && PastCursor(r.key, cursor) && r !in rows)
  }

  lemma DescendingSplit(ordered: seq<Row>, limit: nat)
    requires Descending(ordered) && limit <= |ordered|
    ensures Descending(ordered[..limit])
    ensures forall x :: x in ordered[..limit] ==> x in ordered
    ensures forall r, x :: r in ordered && r !in ordered[..limit] && x in ordered[..limit] ==> Below(r.key, x.key)
  {
    forall r, x | r in ordered && r !in ordered[..limit] && x in ordered[..limit] ensures Below(r.key, x.key) {
      var i :| 0 <= i < |ordered| && ordered[i] == r;
      var j :| 0 <= j < limit && ordered[j] == x;
      assert i >= limit;
    }
  }

  lemma NextIsLeftOut(ordered: seq<Row>, limit: nat)
    requires Descending(ordered) && limit < |ordered|
    ensures ordered[limit] in ordered && ordered[limit] !in ordered[..limit]
  {
  }

  lemma FirstRowsArePage(table: seq<Row>, f: Filters, limit: nat, cursor: Option<Key>, ordered: seq<Row>)
    requires Descending(ordered)
    requires forall r :: r in ordered <==> r in table && Matches(f, r) && PastCursor(r.key, cursor)
    ensures IsPage(table, f, limit, cursor, if |ordered| > limit then ordered[..limit] else ordered, |ordered| > limit)
  {
    if |ordered| > limit {
      DescendingSplit(ordered, limit);
      NextIsLeftOut(ordered, limit);
    }
  }

  /** list_ledger: fetch one row more than asked for, to learn whether there is a next page. */
  method ListLedger(table: seq<Row>, f: Filters, limit: nat, cursor: Option<Key>)
    returns (rows: seq<Row>, hasMore: bool)
    requires UniqueKeys(table)
    ensures IsPage(table, f, limit, cursor, rows, hasMore)
  {
    var selected := Selected(table, f, cursor);
    SelectedMembers(table, f, cursor);
    SelectedUnique(table, f, cursor);
    var ordered := Ordered(selected);
    OrderedDescends(selected);
    FirstRowsArePage(table, f, limit, cursor, ordered);
    var fetched := if |ordered| <= limit + 1 then ordered else ordered[..limit + 1];
    hasMore := |fetched| > limit;
    rows := if hasMore then fetched[..limit] else fetched;
    assert |ordered| > limit ==> rows == ordered[..limit];
  }

  // ---------- following next_cursor ----------

  /** The table has a matching row with this key. */
  ghost predicate HasMatch(table: seq<Row>, f: Filters, key: Key) {
    exists r :: r in table && r.key == key && Matches(f, r)
  }

  ghost predicate Listed(rows: seq<Row>, key: Key) {
    exists r :: r in rows && r.key == key
  }

  /** The snapshot page k is read from; after the last one the table no longer changes. */
  function TableAt(tables: seq<seq<Row>>, k: nat): seq<Row>
    requires tables != []
  {
    if k < |tables| then tables[k] else tables[|tables| - 1]
  }

  ghost predicate AlwaysMatches(tables: seq<seq<Row>>, f: Filters, key: Key) {
    forall k :: 0 <= k < |tables| ==> HasMatch(tables[k], f, key)
  }

  ghost predicate EverMatched(tables: seq<seq<Row>>, f: Filters, r: Row) {
    exists k :: 0 <= k < |tables| && r in tables[k] && Matches(f, r)
  }

  /** What has been read down to the cursor. */
  ghost predicate ReadDownTo(tables: seq<seq<Row>>, f: Filters, all: seq<Row>, cursor: Option<Key>) {
    && Descending(all)
    && (cursor.None? <==> all == [])
    && (all != [] ==> all[|all| - 1].key == cursor.value)
    && (forall r :: r in all ==> EverMatched(tables, f, r))
    && (forall key :: AlwaysMatches(tables, f, key) && !PastCursor(key, cursor) ==> Listed(all, key))
  }

  lemma PageDescends(all: seq<Row>, cursor: Option<Key>, rows: seq<Row>)
    requires Descending(all) && Descending(rows) && (all != [] ==> cursor == Some(all[|all| - 1].key))
    requires forall r :: r in rows ==> PastCursor(r.key, cursor)
    ensures Descending(all + rows)
  {
    forall i, j | 0 <= i < |all| && 0 <= j < |rows| ensures Below(rows[j].key, all[i].key) {
      assert rows[j] in rows;
      assert i < |all| - 1 ==> Below(all[|all| - 1].key, all[i].key);
    }
  }

  /** A key that matches in this page's snapshot and is past the cursor is on the page, unless more pages follow and
      it lies past the page's last row. */
  lemma PageLists(table: seq<Row>, f: Filters, limit: nat, cursor: Option<Key>, rows: seq<Row>, hasMore: bool, key: Key)
    requires IsPage(table, f, limit, cursor, rows, hasMore) && HasMatch(table, f, key) && PastCursor(key, cursor)
    requires !hasMore || (rows != [] && !Below(key, rows[|rows| - 1].key))
    ensures Listed(rows, key)
  {
    var r :| r in table && r.key == key && Matches(f, r);
    if rows != [] {
      assert rows[|rows| - 1] in rows;
    }
    assert r in rows;
  }

  lemma PageExtends(tables: seq<seq<Row>>, k: nat, f: Filters, limit: nat, all: seq<Row>, cursor: Option<Key>,
                    rows: seq<Row>, hasMore: bool)
    requires tables != [] && ReadDownTo(tables, f, all, cursor)
    requires IsPage(TableAt(tables, k), f, limit, cursor, rows, hasMore)
    ensures Descending(all + rows) && forall r :: r in all + rows ==> EverMatched(tables, f, r)
    ensures !hasMore ==> forall key :: AlwaysMatches(tables, f, key) ==> Listed(all + rows, key)
    ensures rows != [] ==> ReadDownTo(tables, f, all + rows, Some(rows[|rows| - 1].key))
  {
    var at := if k < |tables| then k else |tables| - 1;
    assert TableAt(tables, k) == tables[at];
    PageDescends(all, cursor, rows);
    forall r | r in all + rows ensures EverMatched(tables, f, r) {
      if r in rows {
        assert r in tables[at];
      }
    }
    forall key | AlwaysMatches(tables, f, key) && (!hasMore || (rows != [] && !Below(key, rows[|rows| - 1].key)))
      ensures Listed(all + rows, key)
    {
      if PastCursor(key, cursor) {
        PageLists(tables[at], f, limit, cursor, rows, hasMore, key);
      }
      ListedInEither(all, rows, key);
    }
  }

  lemma ListedInEither(a: seq<Row>, b: seq<Row>, key: Key)
    requires Listed(a, key) || Listed(b, key)
    ensures Listed(a + b, key)
  {
    var r :| (r in a || r in b) && r.key == key;
    assert r in a + b;
  }

  /** How many matching rows of the last snapshot lie past the cursor. */
  function Left(tables: seq<seq<Row>>, f: Filters, cursor: Option<Key>): nat
    requires tables != []
  {
    |Selected(tables[|tables| - 1], f, cursor)|
  }

  lemma {:induction false} FewerSelected(table: seq<Row>, f: Filters, near: Option<Key>, far: Key)
    requires PastCursor(far, near)
    ensures |Selected(table, f, Some(far))| <= |Selected(table, f, near)|
    ensures (exists r :: r in table && r.key == far && Matches(f, r)) ==>
              |Selected(table, f, Some(far))| < |Selected(table, f, near)|
  {
    if table != [] {
      FewerSelected(table[1..], f, near, far);
    }
  }

  /** A client that follows next_cursor from page to page until has_more is false, over whatever each page finds. */
  method FollowPages(tables: seq<seq<Row>>, f: Filters, limit: nat) returns (all: seq<Row>)
    requires tables != [] && limit >= 1 && forall k :: 0 <= k < |tables| ==> UniqueKeys(tables[k])
    ensures Descending(all)
    ensures forall r :: r in all ==> EverMatched(tables, f, r)
    ensures forall key :: AlwaysMatches(tables, f, key) ==> Listed(all, key)
    ensures |tables| == 1 ==> all == Ordered(Selected(tables[0], f, None))
  {
    all := [];
    var cursor: Option<Key> := None;
    var k := 0;
    var more := true;
    while more
      invariant more ==> ReadDownTo(tables, f, all, cursor)
      invariant !more ==> Descending(all) && (forall r :: r in all ==> EverMatched(tables, f, r))
                          && forall key :: AlwaysMatches(tables, f, key) ==> Listed(all, key)
      decreases more, if k < |tables| then |tables| - k else 0, Left(tables, f, cursor)
    {
      var rows, hasMore := ListLedger(TableAt(tables, k), f, limit, cursor);
      PageExtends(tables, k, f, limit, all, cursor, rows, hasMore);
      all := all + rows;
      if hasMore {
        var next := rows[|rows| - 1].key;
        assert rows[|rows| - 1] in rows;
        FewerSelected(tables[|tables| - 1], f, cursor, next);
        cursor := Some(next);
      }
      more := hasMore;
      k := k + 1;
    }
    if |tables| == 1 {
      OneTable(tables[0], tables, f, all);
    }
  }

  lemma {:induction false} DescendingIsUnique(a: seq<Row>, b: seq<Row>)
    requires Descending(a) && Descending(b) && forall r :: r in a <==> r in b
    ensures a == b
  {
    assert (a == [] || a[0] in a) && (b == [] || b[0] in b);
    if a != [] && b != [] {
      assert a[0] in b && b[0] in a;
      var i :| 0 <= i < |b| && b[i] == a[0];
      var j :| 0 <= j < |a| && a[j] == b[0];
      assert a[0] == b[0];
      forall r ensures r in a[1..] <==> r in b[1..] {
        assert r in a[1..] <==> r in a && r != a[0];
        assert r in b[1..] <==> r in b && r != b[0];
      }
      DescendingIsUnique(a[1..], b[1..]);
      assert a == [a[0]] + a[1..] && b == [b[0]] + b[1..];
    }
  }

  lemma OneTable(table: seq<Row>, tables: seq<seq<Row>>, f: Filters, all: seq<Row>)
    requires tables == [table] && UniqueKeys(table) && Descending(all)
    requires forall r :: r in all ==> EverMatched(tables, f, r)
    requires forall key :: AlwaysMatches(tables, f, key) ==> Listed(all, key)
    ensures all == Ordered(Selected(table, f, None))
  {
    SelectedMembers(table, f, None);
    SelectedUnique(table, f, None);
    OrderedDescends(Selected(table, f, None));
    forall r ensures r in all <==> r in Selected(table, f, None) {
      if r in table && Matches(f, r) {
        assert HasMatch(tables[0], f, r.key);
        assert AlwaysMatches(tables, f, r.key);
        var x :| x in all && x.key == r.key;
        assert x in table;
      }
    }
    DescendingIsUnique(all, Ordered(Selected(table, f, None)));
  }

  // ---------- filters on immutable columns ----------

  predicate Immutable(f: Filters) {
    f.result.None? && f.status.None? && f.gradedFrom.None?
  }

  predicate SameBet(a: Row, b: Row) {
    && a.key == b.key && a.league == b.league && a.market == b.market && a.edge == b.edge
    && a.isParlay == b.isParlay && a.isLive == b.isLive
  }

  /** Bets may have been placed and graded; none is gone. */
  ghost predicate Grown(before: seq<Row>, after: seq<Row>) {
    forall r :: r in before ==> exists x :: x in after && SameBet(r, x)
  }

  lemma StillMatches(before: seq<Row>, after: seq<Row>, f: Filters, r: Row)
    requires Immutable(f) && Grown(before, after) && r in before && Matches(f, r)
    ensures HasMatch(after, f, r.key)
  {
    var x :| x in after && SameBet(r, x);
    assert Matches(f, x);
  }

  ghost predicate ListedOnce(rows: seq<Row>, key: Key) {
    exists i :: 0 <= i < |rows| && rows[i].key == key && forall j :: 0 <= j < |rows| && j != i ==> rows[j].key != key
  }

  lemma DescendingListsOnce(rows: seq<Row>, key: Key)
    requires Descending(rows) && Listed(rows, key)
    ensures ListedOnce(rows, key)
  {
    var r :| r in rows && r.key == key;
    var i :| 0 <= i < |rows| && rows[i] == r;
    forall j | 0 <= j < |rows| && j != i ensures rows[j].key != key {
      assert if j < i then Below(rows[i].key, rows[j].key) else Below(rows[j].key, rows[i].key);
    }
  }

  /** With a filter on immutable columns, a row present when paging starts matches in every later snapshot, so what
      the pages list together has it exactly once. */
  lemma PresentAtStartIsListedOnce(tables: seq<seq<Row>>, f: Filters, all: seq<Row>, r: Row)
    requires tables != [] && Immutable(f)
    requires forall k :: 0 <= k < |tables| ==> Grown(tables[0], tables[k])
    requires Descending(all) && forall key :: AlwaysMatches(tables, f, key) ==> Listed(all, key)
    requires r in tables[0] && Matches(f, r)
    ensures ListedOnce(all, r.key)
  {
    forall k | 0 <= k < |tables| ensures HasMatch(tables[k], f, r.key) {
      StillMatches(tables[0], tables[k], f, r);
    }
    assert AlwaysMatches(tables, f, r.key);
    DescendingListsOnce(all, r.key);
  }

  // ---------- what the filters and the order mean ----------

  /** Every filter that is set keeps exactly the rows that meet it, out of those the other filters keep. */
  lemma EachFilterNarrows(f: Filters, r: Row, text: string, status: Status, time: int, edge: real, flag: bool)
    ensures Matches(f.(league := Some(text)), r) <==> Matches(f.(league := None), r) && r.league == text
    ensures Matches(f.(market := Some(text)), r) <==> Matches(f.(market := None), r) && r.market == text
    ensures Matches(f.(result := Some(status)), r) <==> Matches(f.(result := None), r) && r.status == status
    ensures Matches(f.(dateFrom := Some(time)), r) <==> Matches(f.(dateFrom := None), r) && time <= r.key.placedAt
    ensures Matches(f.(dateTo := Some(time)), r) <==> Matches(f.(dateTo := None), r) && r.key.placedAt <= time
    ensures Matches(f.(minEdge := Some(edge)), r) <==> Matches(f.(minEdge := None), r) && edge <= r.edge
    ensures Matches(f.(gradedFrom := Some(time)), r) <==>
            Matches(f.(gradedFrom := None), r) && r.gradedAt.Some? && time <= r.gradedAt.value
    ensures Matches(f.(isParlay := Some(flag)), r) <==> Matches(f.(isParlay := None), r) && r.isParlay == flag
    ensures Matches(f.(isLive := Some(flag)), r) <==> Matches(f.(isLive := None), r) && r.isLive == flag
    ensures Matches(f.(status := Some(OpenOnly)), r) <==> Matches(f.(status := None), r) && r.status == OPEN
    ensures Matches(f.(status := Some(GradedOnly)), r) <==> Matches(f.(status := None), r) && r.status != OPEN
    ensures Matches(Filters(None, None, None, None, None, None, None, None, None, None), r)
  {
  }

  /** The open and the graded rows are together the ledger, each row in one of the two. */
  lemma {:induction false} OpenAndGradedSplitTheLedger(table: seq<Row>, f: Filters)
    requires f.status.None?
    ensures var open := Selected(table, f.(status := Some(OpenOnly)), None);
            var graded := Selected(table, f.(status := Some(GradedOnly)), None);
            multiset(open) + multiset(graded) == multiset(Selected(table, f, None))
  {
    var open, graded := f.(status := Some(OpenOnly)), f.(status := Some(GradedOnly));
    forall r ensures Matches(f, r) <==> Matches(open, r) || Matches(graded, r)
             ensures !(Matches(open, r) && Matches(graded, r))
    {
    }
    SplitSelected(table, f, open, graded);
  }

  lemma {:induction false} SplitSelected(table: seq<Row>, f: Filters, a: Filters, b: Filters)
    requires forall r :: Matches(f, r) <==> Matches(a, r) || Matches(b, r)
    requires forall r :: !(Matches(a, r) && Matches(b, r))
    ensures multiset(Selected(table, a, None)) + multiset(Selected(table, b, None)) == multiset(Selected(table, f, None))
  {
    if table != [] {
      SplitSelected(table[1..], f, a, b);
      assert Matches(f, table[0]) <==> Matches(a, table[0]) || Matches(b, table[0]);
    }
  }

  /** Later placements come first, and of two at one instant the higher id. */
  lemma DescendingIsNewestFirst(rows: seq<Row>, i: nat, j: nat)
    requires Descending(rows) && i < j < |rows|
    ensures rows[i].key.placedAt >= rows[j].key.placedAt
    ensures rows[i].key.placedAt == rows[j].key.placedAt ==> rows[i].key.id > rows[j].key.id
  {
  }
}
