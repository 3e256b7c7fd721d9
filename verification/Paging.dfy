/**
 Walking through a listing of work items with `nextCursor`.

 Rows are ordered by created_at descending, ties in any order.  created_at has microseconds;
 the cursor carries the last row's created_at cut to milliseconds, and the next page takes
 the rows strictly older than that.
 */
module Paging {
  import opened Options

  /** A row; `at` is created_at in microseconds. */
  datatype Item = Item(id: nat, at: int)

  /** The millisecond a JavaScript Date can hold. */
  function Ms(x: Item): int {
    x.at / 1000
  }

  datatype Page = Page(data: seq<Item>, next: Option<int>)

  /** The rows the query considers: all of them, or those older than the cursor. */
  function Matching(table: set<Item>, cursor: Option<int>): set<Item> {
    match cursor
    case None => table
    case Some(ms) => set x | x in table && x.at < ms * 1000
  }

  ghost predicate NoDup(xs: seq<Item>) {
    forall i, j :: 0 <= i < j < |xs| ==> xs[i] != xs[j]
  }

  ghost predicate Descending(xs: seq<Item>) {
    forall i, j :: 0 <= i < j < |xs| ==> xs[j].at <= xs[i].at
  }

  /** ORDER BY created_at DESC LIMIT limit + 1 */
  ghost predicate ValidRows(matching: set<Item>, limit: nat, rows: seq<Item>) {
    && |rows| <= limit + 1
    && NoDup(rows)
    && Descending(rows)
    && (forall x :: x in rows ==> x in matching)
    && (forall x :: x in matching && x !in rows ==>
          |rows| == limit + 1 && forall y :: y in rows ==> x.at <= y.at)
  }

  function BuildPageResult(rows: seq<Item>, limit: nat): Page {
    if |rows| > limit then
      var data := rows[..limit];
      Page(data, if data == [] then None else Some(Ms(data[|data| - 1])))
    else Page(rows, None)
  }

  /** Successive fetches, each with the cursor of the one before; `tables` is what each of them finds. */
  ghost predicate IsWalk(cursor: Option<int>, tables: seq<set<Item>>, fetched: seq<seq<Item>>, limit: nat)
    decreases |fetched|
  {
    && |tables| == |fetched| > 0
    && ValidRows(Matching(tables[0], cursor), limit, fetched[0])
    && (|fetched| > 1 ==>
          var next := BuildPageResult(fetched[0], limit).next;
          next.Some? && IsWalk(next, tables[1..], fetched[1..], limit))
  }

  /** Between two fetches, rows may be added, but not among those still to be shown, and none goes. */
  ghost predicate GrowsAtTheTop(before: set<Item>, after: set<Item>, cursor: Option<int>) {
    before <= after && Matching(after, cursor) <= before
  }

  ghost predicate Undisturbed(tables: seq<set<Item>>, fetched: seq<seq<Item>>, limit: nat)
    requires |tables| == |fetched|
    decreases |fetched|
  {
    |fetched| > 1 ==>
      && GrowsAtTheTop(tables[0], tables[1], BuildPageResult(fetched[0], limit).next)
      && Undisturbed(tables[1..], fetched[1..], limit)
  }

  ghost predicate Finished(fetched: seq<seq<Item>>, limit: nat)
    requires fetched != []
  {
    BuildPageResult(fetched[|fetched| - 1], limit).next.None?
  }

  /** Everything the pages show, in order. */
  function Shown(fetched: seq<seq<Item>>, limit: nat): seq<Item> {
    if fetched == [] then [] else BuildPageResult(fetched[0], limit).data + Shown(fetched[1..], limit)
  }

  // ── One page ────────────────────────────────────────────────────────────────

  /** A page that has a successor shows `limit` rows, none older than its cursor; what follows is older. */
  lemma PageFacts(matching: set<Item>, rows: seq<Item>, limit: nat)
    requires limit > 0 && ValidRows(matching, limit, rows)
    ensures var page := BuildPageResult(rows, limit);
            && page.data == rows[..|page.data|]
            && NoDup(page.data) && Descending(page.data)
            && (forall x :: x in page.data ==> x in matching)
            && (page.next.Some? ==> |page.data| == limit && |rows| == limit + 1
                                    && page.next.value == Ms(page.data[limit - 1])
                                    && forall x :: x in page.data ==> Ms(x) >= page.next.value)
            && (page.next.None? ==> page.data == rows && forall x :: x in matching ==> x in page.data)
  {
    var page := BuildPageResult(rows, limit);
    assert forall x :: x in page.data ==> x in rows;
    if page.next.Some? {
      forall x | x in page.data ensures Ms(x) >= page.next.value {
        var i :| 0 <= i < limit && page.data[i] == x;
        assert page.data[limit - 1].at <= x.at;
      }
    } else {
      assert |rows| <= limit;
    }
  }

  // ── Never twice, and an end ─────────────────────────────────────────────────

  lemma {:induction false} ShownIsMatching(cursor: Option<int>, tables: seq<set<Item>>, fetched: seq<seq<Item>>,
                                           limit: nat, x: Item)
    requires limit > 0 && IsWalk(cursor, tables, fetched, limit) && Undisturbed(tables, fetched, limit)
    requires x in Shown(fetched, limit)
    ensures x in Matching(tables[0], cursor)
    decreases |fetched|
  {
    var page := BuildPageResult(fetched[0], limit);
    PageFacts(Matching(tables[0], cursor), fetched[0], limit);
    if x !in page.data {
      var next := page.next;
      ShownIsMatching(next, tables[1..], fetched[1..], limit, x);
      assert x in Matching(tables[1], next);
      PagesGoDown(cursor, tables[0], fetched[0], limit);
    }
  }

  /** Whatever happens to the table between fetches, only rows older than the cursor are shown. */
  lemma {:induction false} ShownIsOlder(cursor: Option<int>, tables: seq<set<Item>>, fetched: seq<seq<Item>>,
                                        limit: nat, x: Item)
    requires limit > 0 && IsWalk(cursor, tables, fetched, limit) && x in Shown(fetched, limit)
    ensures cursor.Some? ==> x.at < cursor.value * 1000
    decreases |fetched|
  {
    var page := BuildPageResult(fetched[0], limit);
    PageFacts(Matching(tables[0], cursor), fetched[0], limit);
    if x !in page.data {
      ShownIsOlder(page.next, tables[1..], fetched[1..], limit, x);
      PagesGoDown(cursor, tables[0], fetched[0], limit);
    }
  }

  /** The cursor only moves towards older rows. */
  lemma PagesGoDown(cursor: Option<int>, table: set<Item>, rows: seq<Item>, limit: nat)
    requires limit > 0 && ValidRows(Matching(table, cursor), limit, rows)
    requires BuildPageResult(rows, limit).next.Some?
    ensures cursor.Some? ==> BuildPageResult(rows, limit).next.value < cursor.value
  {
    PageFacts(Matching(table, cursor), rows, limit);
    assert rows[..limit][limit - 1] in Matching(table, cursor);
  }

  /**
   No item is shown twice, whatever the ties and whatever is added or deleted between the
   fetches, and the order is newest first.
   */
  lemma {:induction false} NeverShownTwice(cursor: Option<int>, tables: seq<set<Item>>, fetched: seq<seq<Item>>,
                                           limit: nat)
    requires limit > 0 && IsWalk(cursor, tables, fetched, limit)
    ensures NoDup(Shown(fetched, limit)) && Descending(Shown(fetched, limit))
    decreases |fetched|
  {
    var page, rest := BuildPageResult(fetched[0], limit), Shown(fetched[1..], limit);
    PageFacts(Matching(tables[0], cursor), fetched[0], limit);
    if |fetched| > 1 {
      NeverShownTwice(page.next, tables[1..], fetched[1..], limit);
      forall x | x in rest ensures x.at < page.next.value * 1000 {
        ShownIsOlder(page.next, tables[1..], fetched[1..], limit, x);
      }
      PagesJoin(page.data, rest, page.next.value);
    } else {
      assert rest == [];
    }
  }

  lemma PagesJoin(data: seq<Item>, rest: seq<Item>, ms: int)
    requires NoDup(data) && Descending(data) && NoDup(rest) && Descending(rest)
    requires forall x :: x in data ==> Ms(x) >= ms
    requires forall x :: x in rest ==> x.at < ms * 1000
    ensures NoDup(data + rest) && Descending(data + rest)
  {
    forall i, j | 0 <= i < j < |data + rest|
      ensures (data + rest)[i] != (data + rest)[j] && (data + rest)[j].at <= (data + rest)[i].at
    {
      if i < |data| <= j {
        assert data[i] in data && rest[j - |data|] in rest;
      }
    }
  }

  /** Items in a set, listed without repetition, are at most as many. */
  lemma {:induction false} ListFits(xs: seq<Item>, table: set<Item>)
    requires NoDup(xs) && forall x :: x in xs ==> x in table
    ensures |xs| <= |table|
  {
    if xs != [] {
      var n := |xs| - 1;
      assert xs[n] in xs && forall x :: x in xs[..n] ==> x in xs;
      ListFits(xs[..n], table - {xs[n]});
    }
  }

  lemma {:induction false} FullPages(cursor: Option<int>, tables: seq<set<Item>>, fetched: seq<seq<Item>>, limit: nat)
    requires limit > 0 && IsWalk(cursor, tables, fetched, limit)
    ensures |Shown(fetched, limit)| >= limit * (|fetched| - 1)
    decreases |fetched|
  {
    if |fetched| > 1 {
      FullPages(BuildPageResult(fetched[0], limit).next, tables[1..], fetched[1..], limit);
      assert limit * (|fetched| - 1) == limit + limit * (|fetched| - 2);
    }
  }

  /** The walk ends: it can have no more pages than the first table fills. */
  lemma WalkIsBounded(cursor: Option<int>, tables: seq<set<Item>>, fetched: seq<seq<Item>>, limit: nat)
    requires limit > 0 && IsWalk(cursor, tables, fetched, limit) && Undisturbed(tables, fetched, limit)
    ensures limit * (|fetched| - 1) <= |tables[0]|
  {
    NeverShownTwice(cursor, tables, fetched, limit);
    FullPages(cursor, tables, fetched, limit);
    forall x | x in Shown(fetched, limit) ensures x in tables[0] {
      ShownIsMatching(cursor, tables, fetched, limit, x);
    }
    ListFits(Shown(fetched, limit), tables[0]);
  }

  // ── What is missed ──────────────────────────────────────────────────────────

  /** The items of the millisecond `ms` and of later ones. */
  function From(items: set<Item>, ms: int): set<Item> {
    set x | x in items && Ms(x) >= ms
  }

  /** The `n` newest items are exactly the items from some millisecond on. */
  ghost predicate CleanCut(items: set<Item>, n: nat) {
    exists ms :: |From(items, ms)| == n
  }

  /** No page boundary falls inside a group of items with the same millisecond. */
  ghost predicate Clean(items: set<Item>, limit: nat)
    requires limit > 0
  {
    forall k: nat :: 0 < k && k * limit < |items| ==> CleanCut(items, k * limit)
  }

  function SetOf(xs: seq<Item>): set<Item> {
    set x | x in xs
  }

  lemma {:induction false} SizeOfList(xs: seq<Item>)
    requires NoDup(xs)
    ensures |SetOf(xs)| == |xs|
  {
    if xs != [] {
      var n := |xs| - 1;
      SizeOfList(xs[..n]);
      assert SetOf(xs) == SetOf(xs[..n]) + {xs[n]};
    }
  }

  lemma SubsetSize(a: set<Item>, b: set<Item>)
    requires a <= b
    ensures |a| <= |b| && (|a| == |b| ==> a == b)
  {
    assert b == a + (b - a);
  }

  /** The first page takes whole milliseconds exactly when the cut after it is clean. */
  lemma FirstCut(items: set<Item>, rows: seq<Item>, limit: nat)
    requires limit > 0 && ValidRows(items, limit, rows) && BuildPageResult(rows, limit).next.Some?
    ensures var page := BuildPageResult(rows, limit);
            && SetOf(page.data) <= From(items, page.next.value) && |SetOf(page.data)| == limit
            && |items| > limit
            && (CleanCut(items, limit) <==> SetOf(page.data) == From(items, page.next.value))
  {
    var page := BuildPageResult(rows, limit);
    var data, c := SetOf(page.data), page.next.value;
    PageFacts(items, rows, limit);
    SizeOfList(page.data);
    SizeOfList(rows);
    SubsetSize(SetOf(rows), items);
    if ms :| |From(items, ms)| == limit {
      var last := page.data[limit - 1];
      assert rows[limit - 1] == last && last in rows;
      if ms <= c {
        SubsetSize(From(items, c), From(items, ms));
        SubsetSize(data, From(items, c));
      } else {
        forall x | x in From(items, ms) ensures x in data - {last} {
          if x in rows {
            var i :| 0 <= i < |rows| && rows[i] == x;
            assert i < limit ==> page.data[i] == x;
          }
        }
        SubsetSize(From(items, ms), data - {last});
      }
    }
  }

  /** What is left after a clean first page: the cuts move by one page. */
  lemma RestOfClean(items: set<Item>, c: int, limit: nat)
    requires limit > 0 && |From(items, c)| == limit
    ensures var rest := Matching(items, Some(c));
            && |items| == limit + |rest|
            && forall n: nat :: 0 < n ==> (CleanCut(items, limit + n) <==> CleanCut(rest, n))
  {
    var rest := Matching(items, Some(c));
    assert items == From(items, c) + rest;
    forall n: nat | 0 < n ensures CleanCut(items, limit + n) <==> CleanCut(rest, n) {
      if ms :| |From(items, ms)| == limit + n {
        if ms >= c { SubsetSize(From(items, ms), From(items, c)); }
        assert From(items, ms) == From(items, c) + From(rest, ms);
        assert |From(rest, ms)| == n;
      }
      if ms :| |From(rest, ms)| == n {
        assert From(items, ms) == From(items, c) + From(rest, ms);
        assert |From(items, ms)| == limit + n;
      }
    }
  }

  lemma CleanStep(items: set<Item>, c: int, limit: nat)
    requires limit > 0 && |From(items, c)| == limit
    ensures Clean(items, limit) <==> Clean(Matching(items, Some(c)), limit)
  {
    var rest := Matching(items, Some(c));
    RestOfClean(items, c, limit);
    if Clean(items, limit) {
      forall k: nat | 0 < k && k * limit < |rest| ensures CleanCut(rest, k * limit) {
        assert (k + 1) * limit == limit + k * limit;
        assert CleanCut(items, (k + 1) * limit);
      }
    }
    if Clean(rest, limit) {
      forall k: nat | 0 < k && k * limit < |items| ensures CleanCut(items, k * limit) {
        if k == 1 {
          assert CleanCut(items, limit);
        } else {
          assert k * limit == limit + (k - 1) * limit;
          assert CleanCut(rest, (k - 1) * limit);
        }
      }
    }
  }

  lemma PagesAddUp(items: set<Item>, first: set<Item>, others: set<Item>, c: int)
    requires first <= From(items, c) && others <= Matching(items, Some(c))
    ensures first + others == items <==> first == From(items, c) && others == Matching(items, Some(c))
  {
    assert items == From(items, c) + Matching(items, Some(c));
    assert From(items, c) !! Matching(items, Some(c));
    if first + others == items {
      assert forall x :: x in From(items, c) ==> x in first;
      assert forall x :: x in Matching(items, Some(c)) ==> x in others;
    }
  }

  /** A page with a successor: complete means a clean cut after it, and a complete rest. */
  lemma CutDecides(items: set<Item>, rows: seq<Item>, limit: nat, others: set<Item>)
    requires limit > 0 && ValidRows(items, limit, rows) && BuildPageResult(rows, limit).next.Some?
    requires others <= Matching(items, BuildPageResult(rows, limit).next)
    ensures var page := BuildPageResult(rows, limit);
            var rest := Matching(items, page.next);
            && (SetOf(page.data) + others == items <==> CleanCut(items, limit) && others == rest)
            && (Clean(items, limit) <==> CleanCut(items, limit) && Clean(rest, limit))
  {
    var page := BuildPageResult(rows, limit);
    var c := page.next.value;
    FirstCut(items, rows, limit);
    PagesAddUp(items, SetOf(page.data), others, c);
    if CleanCut(items, limit) {
      CleanStep(items, c, limit);
    } else {
      assert 1 * limit == limit && !Clean(items, limit);
    }
  }

  /** A page's successors see what the page's own table has left for them. */
  lemma SameRest(before: set<Item>, after: set<Item>, cursor: Option<int>, next: int)
    requires GrowsAtTheTop(before, after, Some(next)) && (cursor.Some? ==> next < cursor.value)
    ensures Matching(after, Some(next)) == Matching(Matching(before, cursor), Some(next))
  {
  }

  /**
   A finished walk has shown every item exactly if no page boundary falls inside a group of
   items created in the same millisecond; items added at the top in between do not matter.
   */
  lemma {:induction false} CompleteIffClean(cursor: Option<int>, tables: seq<set<Item>>, fetched: seq<seq<Item>>,
                                            limit: nat)
    requires limit > 0 && IsWalk(cursor, tables, fetched, limit) && Undisturbed(tables, fetched, limit)
    requires Finished(fetched, limit)
    ensures var items := Matching(tables[0], cursor);
            SetOf(Shown(fetched, limit)) == items <==> Clean(items, limit)
    decreases |fetched|
  {
    var items := Matching(tables[0], cursor);
    var page := BuildPageResult(fetched[0], limit);
    PageFacts(items, fetched[0], limit);
    if |fetched| == 1 {
      assert Shown(fetched[1..], limit) == [];
      OnePage(items, page.data, limit);
    } else {
      var c := page.next.value;
      var rest, shown := Matching(items, Some(c)), Shown(fetched[1..], limit);
      PagesGoDown(cursor, tables[0], fetched[0], limit);
      SameRest(tables[0], tables[1], cursor, c);
      CompleteIffClean(page.next, tables[1..], fetched[1..], limit);
      forall x | x in shown ensures x in rest {
        ShownIsMatching(page.next, tables[1..], fetched[1..], limit, x);
      }
      CutDecides(items, fetched[0], limit, SetOf(shown));
      assert SetOf(page.data + shown) == SetOf(page.data) + SetOf(shown);
    }
  }

  lemma OnePage(items: set<Item>, data: seq<Item>, limit: nat)
    requires limit > 0 && NoDup(data) && SetOf(data) == items && |data| <= limit
    ensures Clean(items, limit)
  {
    SizeOfList(data);
    forall k: nat | 0 < k ensures k * limit >= |items| {
      assert k * limit == limit + (k - 1) * limit;
    }
  }

  // ── Distinct milliseconds ───────────────────────────────────────────────────

  ghost predicate DistinctMs(items: set<Item>) {
    forall x, y :: x in items && y in items && Ms(x) == Ms(y) ==> x == y
  }

  lemma Oldest(items: set<Item>) returns (x: Item)
    requires items != {}
    ensures x in items && forall y :: y in items ==> Ms(x) <= Ms(y)
    decreases |items|
  {
    x :| x in items;
    assert forall y :: y in items <==> y == x || y in items - {x};
    if items - {x} != {} {
      var y := Oldest(items - {x});
      if Ms(y) < Ms(x) { x := y; }
    }
  }

  lemma {:induction false} DistinctMsCuts(items: set<Item>, n: nat)
    requires DistinctMs(items) && n <= |items|
    ensures CleanCut(items, n)
    decreases |items|
  {
    if items == {} {
      assert From(items, 0) == {};
    } else {
      var x := Oldest(items);
      if n == |items| {
        assert From(items, Ms(x)) == items;
      } else {
        var rest := items - {x};
        DistinctMsCuts(rest, n);
        var ms :| |From(rest, ms)| == n;
        var above := if ms > Ms(x) then ms else Ms(x) + 1;
        assert From(items, above) == From(rest, ms);
      }
    }
  }

  /** Without two items in one millisecond, the pages together are the whole list, newest first. */
  lemma DistinctMsIsComplete(cursor: Option<int>, tables: seq<set<Item>>, fetched: seq<seq<Item>>, limit: nat)
    requires limit > 0 && IsWalk(cursor, tables, fetched, limit) && Undisturbed(tables, fetched, limit)
    requires Finished(fetched, limit)
    requires DistinctMs(Matching(tables[0], cursor))
    ensures SetOf(Shown(fetched, limit)) == Matching(tables[0], cursor)
    ensures NoDup(Shown(fetched, limit)) && Descending(Shown(fetched, limit))
  {
    var items := Matching(tables[0], cursor);
    forall k: nat | 0 < k && k * limit < |items| ensures CleanCut(items, k * limit) {
      DistinctMsCuts(items, k * limit);
    }
    CompleteIffClean(cursor, tables, fetched, limit);
    NeverShownTwice(cursor, tables, fetched, limit);
  }

  /** Two items of one millisecond on either side of a page boundary: the second is never shown. */
  lemma TiedItemIsSkipped() returns (table: set<Item>, fetched: seq<seq<Item>>)
    ensures IsWalk(None, [table, table], fetched, 1) && Undisturbed([table, table], fetched, 1) && Finished(fetched, 1)
    ensures table == {Item(1, 1500), Item(2, 1400)}
    ensures Item(2, 1400) !in Shown(fetched, 1)
  {
    table := {Item(1, 1500), Item(2, 1400)};
    fetched := [[Item(1, 1500), Item(2, 1400)], []];
    assert Matching(table, Some(1)) == {};
    assert BuildPageResult(fetched[0], 1) == Page([Item(1, 1500)], Some(1));
    assert BuildPageResult(fetched[1], 1) == Page([], None);
    assert ValidRows(table, 1, fetched[0]);
    assert [table, table][1..] == [table] && fetched[1..] == [[]] && fetched[1..][1..] == [];
    assert IsWalk(Some(1), [table], [[]], 1);
    assert Shown(fetched[1..], 1) == [];
  }
}
