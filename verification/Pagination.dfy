/** Keyset pagination of the payment list, in descending (createdAt, id) order. */
module Pagination {
  import opened JsText

  /** Ids compare as the database collates them; the rest of the row is what the filters look at. */
  datatype Row = Row(createdAt: int, id: int, content: string)

  datatype Cursor = Cursor(createdAt: int, id: int)

  datatype Page = Page(data: seq<Row>, nextCursor: Option<Cursor>)

  predicate Before(a: Row, b: Row) {
    a.createdAt > b.createdAt || (a.createdAt == b.createdAt && a.id > b.id)
  }

  predicate Below(r: Row, c: Cursor) {
    r.createdAt < c.createdAt || (r.createdAt == c.createdAt && r.id < c.id)
  }

  function Filter(rows: seq<Row>, keep: Row -> bool, cursor: Option<Cursor>): seq<Row> {
    if rows == [] then []
    else
      (if keep(rows[0]) && (cursor.Some? ==> Below(rows[0], cursor.value)) then [rows[0]] else [])
      + Filter(rows[1..], keep, cursor)
  }

  function Insert(r: Row, sorted: seq<Row>): seq<Row> {
    if sorted == [] || Before(r, sorted[0]) then [r] + sorted else [sorted[0]] + Insert(r, sorted[1..])
  }

  function SortDescending(rows: seq<Row>): seq<Row> {
    if rows == [] then [] else Insert(rows[0], SortDescending(rows[1..]))
  }

  /** The rows the database returns: filtered and ordered; the caller has them cut off after limit + 1. */
  function FindMany(rows: seq<Row>, keep: Row -> bool, cursor: Option<Cursor>): seq<Row> {
    SortDescending(Filter(rows, keep, cursor))
  }

  function CursorAt(r: Row): Cursor {
    Cursor(r.createdAt, r.id)
  }

  /** One row more than the limit is fetched, to tell whether there is a next page. */
  function CutPage(found: seq<Row>, limit: nat): Page {
    var fetched := if |found| <= limit + 1 then found else found[..limit + 1];
    var hasMore := |fetched| > limit;
    var page := if hasMore then fetched[..limit] else fetched;
    if !hasMore || page == [] then Page(page, None) else Page(page, Some(CursorAt(page[|page| - 1])))
  }

  function ListPayments(rows: seq<Row>, keep: Row -> bool, cursor: Option<Cursor>, limit: nat): Page {
    CutPage(FindMany(rows, keep, cursor), limit)
  }

  /** A positive number asked for, floored and capped. */
  function ParseListLimit(parsed: real): (limit: nat)
    requires parsed > 0.0
    ensures limit <= 100
    ensures limit == 0 <==> parsed < 1.0
  {
    if parsed.Floor > 100 then 100 else parsed.Floor
  }

  /** Between 1 and 100 a limit is the floor of what was asked for, and above it is 100. */
  lemma LimitAsAsked(parsed: real, n: nat)
    requires n as real <= parsed < (n + 1) as real && parsed > 0.0
    ensures ParseListLimit(parsed) == if n <= 100 then n else 100
  {
  }

  // ---------- Sorting ----------

  ghost predicate Descending(s: seq<Row>) {
    forall i, j :: 0 <= i < j < |s| ==> Before(s[i], s[j])
  }

  /** No two rows share their sort key, as ids are unique. */
  ghost predicate DistinctKeys(rows: seq<Row>) {
    forall i, j :: 0 <= i < j < |rows| ==> CursorAt(rows[i]) != CursorAt(rows[j])
  }


  lemma {:induction false} InsertKeepsOrder(r: Row, sorted: seq<Row>)
    requires Descending(sorted)
    requires forall i :: 0 <= i < |sorted| ==> Before(r, sorted[i]) || Before(sorted[i], r)
    ensures Descending(Insert(r, sorted))
    ensures forall x :: x in Insert(r, sorted) <==> x == r || x in sorted
  {
    if sorted != [] && !Before(r, sorted[0]) {
      InsertKeepsOrder(r, sorted[1..]);
      var rest := Insert(r, sorted[1..]);
      assert forall x :: x in sorted <==> x == sorted[0] || x in sorted[1..];
      forall j | 0 <= j < |rest|
        ensures Before(sorted[0], rest[j])
      {
        assert rest[j] in rest;
      }
    }
  }

  lemma {:induction false} SortSorts(rows: seq<Row>)
    requires DistinctKeys(rows)
    ensures Descending(SortDescending(rows))
    ensures forall x :: x in SortDescending(rows) <==> x in rows
  {
    if rows != [] {
      SortSorts(rows[1..]);
      var rest := SortDescending(rows[1..]);
      forall i | 0 <= i < |rest|
        ensures Before(rows[0], rest[i]) || Before(rest[i], rows[0])
      {
        assert rest[i] in rows[1..];
      }
      InsertKeepsOrder(rows[0], rest);
    }
  }

  lemma {:induction false} FilterSelects(rows: seq<Row>, keep: Row -> bool, cursor: Option<Cursor>)
    ensures forall x :: x in Filter(rows, keep, cursor)
                   <==> x in rows && keep(x) && (cursor.Some? ==> Below(x, cursor.value))
    ensures DistinctKeys(rows) ==> DistinctKeys(Filter(rows, keep, cursor))
  {
    if rows != [] {
      FilterSelects(rows[1..], keep, cursor);
      assert forall x :: x in rows <==> x == rows[0] || x in rows[1..];
      if DistinctKeys(rows) {
        var rest := Filter(rows[1..], keep, cursor);
        forall i | 0 <= i < |rest|
          ensures Before(rows[0], rest[i]) || Before(rest[i], rows[0])
        {
          assert rest[i] in rows[1..];
        }
      }
    }
  }

  function Keys(rows: seq<Row>): (keys: seq<Cursor>)
    ensures |keys| == |rows|
  {
    seq(|rows|, i requires 0 <= i < |rows| => CursorAt(rows[i]))
  }

  predicate Precedes(a: Cursor, b: Cursor) {
    a.createdAt > b.createdAt || (a.createdAt == b.createdAt && a.id > b.id)
  }

  ghost predicate DescendingKeys(keys: seq<Cursor>) {
    forall i, j :: 0 <= i < j < |keys| ==> Precedes(keys[i], keys[j])
  }

  /** A descending sequence of keys is determined by its members. */
  lemma {:induction false} DescendingUnique(a: seq<Cursor>, b: seq<Cursor>)
    requires DescendingKeys(a) && DescendingKeys(b)
    requires forall x :: x in a <==> x in b
    ensures a == b
  {
    assert b != [] ==> b[0] in a;
    if a != [] {
      assert a[0] in b;
      assert b[0] in a;
      assert a[0] == b[0];
      forall x
        ensures x in a[1..] <==> x in b[1..]
      {
        assert x in a <==> x == a[0] || x in a[1..];
        assert x in b <==> x == b[0] || x in b[1..];
        assert a[0] !in a[1..] && b[0] !in b[1..];
      }
      DescendingUnique(a[1..], b[1..]);
      assert a == [a[0]] + a[1..] && b == [b[0]] + b[1..];
    }
  }

  // ---------- Following the cursor ----------

  /** The table has a row with this key that the filters keep. */
  ghost predicate Keeps(rows: seq<Row>, keep: Row -> bool, key: Cursor) {
    exists r :: r in rows && keep(r) && CursorAt(r) == key
  }

  ghost predicate HasKey(rows: seq<Row>, key: Cursor) {
    exists r :: r in rows && CursorAt(r) == key
  }

  /**
   * The table later on: what the snapshot has is still there under its key and is still kept or not kept by the
   * filters, whatever else about it has changed, and a row under any other key is newer than all of it.
   */
  ghost predicate OnlyNewer(snapshot: seq<Row>, later: seq<Row>, keep: Row -> bool) {
    && DistinctKeys(later)
    && (forall key :: HasKey(snapshot, key) ==> (Keeps(snapshot, keep, key) <==> Keeps(later, keep, key)))
    && (forall r, x :: r in later && x in snapshot && !HasKey(snapshot, CursorAt(r)) ==> Before(r, x))
  }

  function Matching(snapshot: seq<Row>, keep: Row -> bool): seq<Row> {
    FindMany(snapshot, keep, None)
  }

  /** What a query returns: the rows it keeps, all of them, in order. */
  lemma FindManySelects(rows: seq<Row>, keep: Row -> bool, cursor: Option<Cursor>)
    requires DistinctKeys(rows)
    ensures Descending(FindMany(rows, keep, cursor))
    ensures forall x :: x in FindMany(rows, keep, cursor)
                   <==> x in rows && keep(x) && (cursor.Some? ==> Below(x, cursor.value))
  {
    FilterSelects(rows, keep, cursor);
    SortSorts(Filter(rows, keep, cursor));
  }

  lemma InKeys(rows: seq<Row>, key: Cursor)
    ensures key in Keys(rows) <==> exists r :: r in rows && CursorAt(r) == key
  {
    if r :| r in rows && CursorAt(r) == key {
      var i :| 0 <= i < |rows| && rows[i] == r;
      assert Keys(rows)[i] == key;
    }
  }

  /** The same in terms of keys alone. */
  lemma KeysFound(rows: seq<Row>, keep: Row -> bool, cursor: Option<Cursor>, key: Cursor)
    requires DistinctKeys(rows)
    ensures DescendingKeys(Keys(FindMany(rows, keep, cursor)))
    ensures key in Keys(FindMany(rows, keep, cursor))
      <==> Keeps(rows, keep, key) && (cursor.Some? ==> Precedes(cursor.value, key))
  {
    FindManySelects(rows, keep, cursor);
    InKeys(FindMany(rows, keep, cursor), key);
    hide FindMany, Filter, SortDescending, DistinctKeys;
    var found := FindMany(rows, keep, cursor);
    assert forall i :: 0 <= i < |found| ==> Keys(found)[i] == CursorAt(found[i]);
  }

  /** A kept row whose key comes after one of the snapshot's is the snapshot's. */
  lemma PrecededIsOld(snapshot: seq<Row>, later: seq<Row>, keep: Row -> bool, earlier: Row, key: Cursor)
    requires OnlyNewer(snapshot, later, keep) && earlier in snapshot && Precedes(CursorAt(earlier), key)
    ensures Keeps(later, keep, key) <==> Keeps(snapshot, keep, key)
  {
    if HasKey(snapshot, key) {
      assert Keeps(snapshot, keep, key) <==> Keeps(later, keep, key);
    } else {
      assert forall r :: r in later && CursorAt(r) == key ==> Before(r, earlier);
    }
  }

  /** Past the m-th row of the listing lie exactly the rows after it, whatever was inserted or changed meanwhile. */
  lemma RestOfListing(snapshot: seq<Row>, later: seq<Row>, keep: Row -> bool, m: nat)
    requires DistinctKeys(snapshot) && OnlyNewer(snapshot, later, keep)
    requires 0 < m <= |Matching(snapshot, keep)|
    ensures var all := Keys(Matching(snapshot, keep)); Keys(FindMany(later, keep, Some(all[m - 1]))) == all[m..]
  {
    var rows := Matching(snapshot, keep);
    var all := Keys(rows);
    var last := rows[m - 1];
    FindManySelects(snapshot, keep, None);
    assert last in rows;
    var rest := Keys(FindMany(later, keep, Some(all[m - 1])));
    hide FindMany, Filter, SortDescending, Before, Below, Precedes, Keeps, Keys, DistinctKeys;
    assert rows == FindMany(snapshot, keep, None) by { MatchingIsFind(snapshot, keep); }
    KeyAt(rows, m - 1);
    forall key
      ensures key in rest <==> key in all[m..]
      ensures DescendingKeys(rest) && DescendingKeys(all)
    {
      KeysFound(snapshot, keep, None, key);
      KeysFound(later, keep, Some(all[m - 1]), key);
      hide OnlyNewer;
      PrecededIff(all, m, key);
      if Precedes(all[m - 1], key) {
        PrecededIsOld(snapshot, later, keep, last, key);
      }
    }
    assert DescendingKeys(rest) && DescendingKeys(all) by {
      KeysFound(snapshot, keep, None, all[m - 1]);
      KeysFound(later, keep, Some(all[m - 1]), all[m - 1]);
    }
    DropKeepsOrder(all, m);
    DescendingUnique(rest, all[m..]);
  }

  lemma KeyAt(rows: seq<Row>, i: nat)
    requires i < |rows|
    ensures Keys(rows)[i] == CursorAt(rows[i])
  {
  }

  lemma DropKeepsOrder(keys: seq<Cursor>, m: nat)
    requires DescendingKeys(keys) && m <= |keys|
    ensures DescendingKeys(keys[m..])
  {
  }

  lemma PrecededIff(all: seq<Cursor>, m: nat, x: Cursor)
    requires DescendingKeys(all) && 0 < m <= |all|
    ensures x in all[m..] <==> x in all && Precedes(all[m - 1], x)
  {
    if x in all[m..] {
      var i :| 0 <= i < |all[m..]| && all[m..][i] == x;
      assert all[m + i] == x;
    }
    if x in all && Precedes(all[m - 1], x) {
      var i :| 0 <= i < |all| && all[i] == x;
      assert i >= m;
      assert all[m..][i - m] == x;
    }
  }

  function Min(a: nat, b: nat): nat { if a < b then a else b }

  /** A client's walk: each page is asked for with the cursor of the one before, on the table as it is by then. */
  ghost predicate IsWalk(tables: seq<seq<Row>>, keep: Row -> bool, limit: nat, pages: seq<Page>) {
    && 0 < |pages| <= |tables|
    && pages[0] == ListPayments(tables[0], keep, None, limit)
    && forall i :: 0 <= i < |pages| - 1 ==> Follows(pages[i], tables[i + 1], keep, limit, pages[i + 1])
  }

  ghost predicate Follows(p: Page, table: seq<Row>, keep: Row -> bool, limit: nat, q: Page) {
    p.nextCursor.Some? && q == ListPayments(table, keep, p.nextCursor, limit)
  }

  function Concat(pages: seq<Page>): seq<Row> {
    if pages == [] then [] else Concat(pages[..|pages| - 1]) + pages[|pages| - 1].data
  }

  /** After n rows of the listing: they have been returned, and the cursor stands at the n-th unless that is the end. */
  ghost predicate Returned(all: seq<Cursor>, n: nat, data: seq<Cursor>, next: Option<Cursor>) {
    && data == all[..Min(n, |all|)]
    && (next.Some? <==> n < |all|)
    && (0 < n < |all| ==> next == Some(all[n - 1]))
  }

  lemma KeysOfPrefix(rows: seq<Row>, n: nat)
    requires n <= |rows|
    ensures Keys(rows[..n]) == Keys(rows)[..n]
  {
  }

  lemma CutPageReturns(all: seq<Cursor>, m: nat, found: seq<Row>, limit: nat)
    requires limit >= 1 && m <= |all| && Keys(found) == all[m..]
    ensures var p := CutPage(found, limit); Returned(all, m + limit, all[..m] + Keys(p.data), p.nextCursor)
  {
    var p := CutPage(found, limit);
    var n := Min(limit, |found|);
    assert p.data == found[..n] by {
      if |found| > limit + 1 {
        assert found[..limit + 1][..limit] == found[..limit];
      }
    }
    KeysOfPrefix(found, n);
    assert all[..m] + all[m..][..n] == all[..Min(m + limit, |all|)];
    if limit < |found| {
      KeyAt(found, limit - 1);
      assert all[m..][limit - 1] == all[m + limit - 1];
    }
  }

  lemma KeysOfBoth(a: seq<Row>, b: seq<Row>)
    ensures Keys(a + b) == Keys(a) + Keys(b)
  {
  }

  lemma {:induction false} WalkSoFar(tables: seq<seq<Row>>, keep: Row -> bool, limit: nat, pages: seq<Page>)
    requires limit >= 1 && IsWalk(tables, keep, limit, pages) && DistinctKeys(tables[0])
    requires forall i :: 0 <= i < |pages| ==> OnlyNewer(tables[0], tables[i], keep)
    ensures Returned(Keys(Matching(tables[0], keep)), |pages| * limit, Keys(Concat(pages)),
                     pages[|pages| - 1].nextCursor)
  {
    hide FindMany, OnlyNewer, CutPage, Matching, DistinctKeys, Keys;
    var all, k := Keys(Matching(tables[0], keep)), |pages|;
    if k == 1 {
      MatchingIsFind(tables[0], keep);
      assert all[0..] == all && all[..0] == [];
      CutPageReturns(all, 0, FindMany(tables[0], keep, None), limit);
      assert pages[..0] == [] && Concat(pages[..0]) == [];
      assert Concat(pages) == pages[0].data;
      assert all[..0] + Keys(pages[0].data) == Keys(pages[0].data);
    } else {
      var before, m := pages[..k - 1], (k - 1) * limit;
      forall i | 0 <= i < k - 2
        ensures Follows(before[i], tables[i + 1], keep, limit, before[i + 1])
      {
        assert Follows(pages[i], tables[i + 1], keep, limit, pages[i + 1]);
      }
      WalkSoFar(tables, keep, limit, before);
      assert Follows(pages[k - 2], tables[k - 1], keep, limit, pages[k - 1]);
      Multiple(k, limit);
      RestOfListing(tables[0], tables[k - 1], keep, m);
      CutPageReturns(all, m, FindMany(tables[k - 1], keep, Some(all[m - 1])), limit);
      KeysOfBoth(Concat(before), pages[k - 1].data);
      assert Concat(pages) == Concat(before) + pages[k - 1].data;
    }
  }

  lemma MatchingIsFind(snapshot: seq<Row>, keep: Row -> bool)
    ensures Matching(snapshot, keep) == FindMany(snapshot, keep, None)
  {
  }

  lemma Multiple(k: nat, limit: nat)
    requires k >= 2 && limit >= 1
    ensures (k - 1) * limit > 0 && k * limit == (k - 1) * limit + limit
  {
  }

  /**
   * Following nextCursor to the end returns every matching row of the starting snapshot exactly once, in descending
   * order of the rows' keys, although newer rows are inserted and others changed between the pages, as long as the
   * filters' verdict on the snapshot's rows is stable; and the end is reached, after at most as many pages as there are
   * matching rows, or one when there are none.
   */
  lemma WalkReturnsSnapshot(tables: seq<seq<Row>>, keep: Row -> bool, limit: nat, pages: seq<Page>)
    requires limit >= 1 && IsWalk(tables, keep, limit, pages) && DistinctKeys(tables[0])
    requires forall i :: 0 <= i < |pages| ==> OnlyNewer(tables[0], tables[i], keep)
    ensures var all, last := Matching(tables[0], keep), pages[|pages| - 1];
      && Descending(all) && (forall x :: x in all <==> x in tables[0] && keep(x))
      && (last.nextCursor.None? ==> Keys(Concat(pages)) == Keys(all))
      && (last.nextCursor.Some? ==> |pages| * limit < |all| && Keys(Concat(pages)) < Keys(all))
  {
    WalkSoFar(tables, keep, limit, pages);
    FindManySelects(tables[0], keep, None);
    hide FindMany, Keys, OnlyNewer, IsWalk;
    MatchingIsFind(tables[0], keep);
    var all := Keys(Matching(tables[0], keep));
    assert all[..|all|] == all;
  }

  /** A limit below 1 passes the check for positive numbers and then hides everything: an empty list and no cursor. */
  lemma FractionalLimitHidesAll(rows: seq<Row>, keep: Row -> bool, parsed: real)
    requires 0.0 < parsed
    ensures parsed < 1.0 ==> ListPayments(rows, keep, None, ParseListLimit(parsed)) == Page([], None)
    ensures parsed >= 1.0 && Matching(rows, keep) != [] ==>
      ListPayments(rows, keep, None, ParseListLimit(parsed)).data != []
  {
    hide FindMany;
    MatchingIsFind(rows, keep);
  }
}
