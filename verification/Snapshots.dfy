/** The daily sprint snapshots: the aggregate of a sprint's items, and the upsert that stores it. */
module Snapshots {

  type Id = nat
  type Date = nat

  /** A row of the aggregate's join: an item of the sprint with its status. */
  datatype ItemRow = ItemRow(points: int, hasPoints: bool, done: bool)

  datatype Stats = Stats(totalPoints: int, completedPoints: int, remainingPoints: int, totalItems: nat, completedItems: nat)

  // ── The aggregate ───────────────────────────────────────────────────────────

  /** sum(story_points), nulls skipped; the filter keeps the done items. */
  function SumPoints(rows: seq<ItemRow>, doneOnly: bool): int {
    if rows == [] then 0
    else
      var n := |rows| - 1;
      SumPoints(rows[..n], doneOnly) + (if rows[n].hasPoints && (rows[n].done || !doneOnly) then rows[n].points else 0)
  }

  function Count(rows: seq<ItemRow>, doneOnly: bool): nat {
    if rows == [] then 0
    else
      var n := |rows| - 1;
      Count(rows[..n], doneOnly) + (if rows[n].done || !doneOnly then 1 else 0)
  }

  function AggregateSprintStats(rows: seq<ItemRow>): Stats {
    var total, completed := SumPoints(rows, false), SumPoints(rows, true);
    Stats(total, completed, total - completed, Count(rows, false), Count(rows, true))
  }

  function Open(rows: seq<ItemRow>): seq<ItemRow> {
    if rows == [] then []
    else
      var n := |rows| - 1;
      Open(rows[..n]) + if rows[n].done then [] else [rows[n]]
  }

  lemma SumSnoc(rows: seq<ItemRow>, last: ItemRow)
    ensures SumPoints(rows + [last], false) == SumPoints(rows, false) + (if last.hasPoints then last.points else 0)
  {
    assert (rows + [last])[..|rows|] == rows;
  }

  /**
   What is reported as remaining is the sum over the items that are not done; with points that
   are not negative, 0 <= completed <= total; the item counts are those of the rows.
   */
  lemma {:induction false} StatsAddUp(rows: seq<ItemRow>)
    ensures var s := AggregateSprintStats(rows);
            && s.completedPoints + s.remainingPoints == s.totalPoints
            && s.remainingPoints == SumPoints(Open(rows), false)
            && s.totalItems == |rows| && s.completedItems + |Open(rows)| == |rows|
            && ((forall i :: 0 <= i < |rows| ==> rows[i].points >= 0) ==> 0 <= s.completedPoints <= s.totalPoints)
  {
    if rows != [] {
      var n := |rows| - 1;
      StatsAddUp(rows[..n]);
      if !rows[n].done {
        SumSnoc(Open(rows[..n]), rows[n]);
      } else {
        assert Open(rows) == Open(rows[..n]);
      }
    }
  }

  /** Sums and counts, over all rows or the done ones, add up over two lists. */
  lemma {:induction false} SumConcat(a: seq<ItemRow>, b: seq<ItemRow>, doneOnly: bool)
    ensures SumPoints(a + b, doneOnly) == SumPoints(a, doneOnly) + SumPoints(b, doneOnly)
    ensures Count(a + b, doneOnly) == Count(a, doneOnly) + Count(b, doneOnly)
  {
    if b == [] {
      assert a + b == a;
    } else {
      var n := |b| - 1;
      assert (a + b)[..|a + b| - 1] == a + b[..n];
      SumConcat(a, b[..n], doneOnly);
    }
  }

  lemma {:induction false} SumOne(row: ItemRow, doneOnly: bool)
    ensures SumPoints([row], doneOnly) == if row.hasPoints && (row.done || !doneOnly) then row.points else 0
    ensures Count([row], doneOnly) == if row.done || !doneOnly then 1 else 0
  {
    assert [row][..0] == [];
  }

  /** No rows add up to nothing, and one row counts for itself. */
  lemma {:induction false} StatsOfOne(row: ItemRow)
    ensures AggregateSprintStats([]) == Stats(0, 0, 0, 0, 0)
    ensures var points := if row.hasPoints then row.points else 0;
            AggregateSprintStats([row])
            == if row.done then Stats(points, points, 0, 1, 1) else Stats(points, 0, points, 1, 0)
  {
    SumOne(row, false);
    SumOne(row, true);
  }

  // ── The table ───────────────────────────────────────────────────────────────

  datatype Snapshot = Snapshot(sprint: Id, date: Date, stats: Stats)

  type Table = map<Id, Snapshot>

  /** The unique index on (sprint_id, snapshot_date). */
  ghost predicate UniqueDay(table: Table) {
    forall a, b | a in table && b in table :: table[a].sprint == table[b].sprint && table[a].date == table[b].date ==> a == b
  }

  ghost predicate HasDay(table: Table, sprint: Id, date: Date) {
    exists i :: i in table && table[i].sprint == sprint && table[i].date == date
  }

  /** The stored day of a sprint is exactly one row, with these figures. */
  ghost predicate Stores(table: Table, sprint: Id, date: Date, stats: Stats) {
    exists i :: i in table && table[i] == Snapshot(sprint, date, stats)
  }

  /** Rows of other sprints and days are as they were, ids and all. */
  ghost predicate OthersKept(before: Table, after: Table, sprints: set<Id>, date: Date) {
    && (forall i :: i in before && (before[i].sprint !in sprints || before[i].date != date) ==> i in after && after[i] == before[i])
    && (forall i :: i in after && (after[i].sprint !in sprints || after[i].date != date) ==> i in before && before[i] == after[i])
  }

  /** The first `n` sprints whose snapshot did not fail have their figures stored. */
  ghost predicate AllStored(table: Table, active: seq<Id>, date: Date, rows: seq<seq<ItemRow>>, fails: seq<bool>,
                            n: nat)
    requires n <= |active| == |rows| == |fails|
  {
    forall i :: 0 <= i < n && !fails[i] ==> Stores(table, active[i], date, AggregateSprintStats(rows[i]))
  }

  /** The first `n` sprints but those that failed. */
  function Snapped(active: seq<Id>, fails: seq<bool>, n: nat): set<Id>
    requires n <= |active| == |fails|
  {
    if n == 0 then {} else Snapped(active, fails, n - 1) + if fails[n - 1] then {} else {active[n - 1]}
  }

  /** How many of the first `n` failed. */
  function Failures(fails: seq<bool>, n: nat): nat
    requires n <= |fails|
  {
    if n == 0 then 0 else Failures(fails, n - 1) + if fails[n - 1] then 1 else 0
  }

  /** The ids from number `i` on are new and differ from each other. */
  ghost predicate NewIds(taken: set<Id>, ids: seq<Id>, i: nat) {
    && (forall j :: i <= j < |ids| ==> ids[j] !in taken)
    && (forall j, k :: i <= j < k < |ids| ==> ids[j] != ids[k])
  }

  lemma NewIdsStay(before: set<Id>, after: set<Id>, ids: seq<Id>, i: nat)
    requires i < |ids| && NewIds(before, ids, i) && after <= before + {ids[i]}
    ensures NewIds(after, ids, i + 1)
  {
  }

  lemma OneMoreStored(before: Table, after: Table, active: seq<Id>, date: Date, rows: seq<seq<ItemRow>>,
                      fails: seq<bool>, n: nat)
    requires n < |active| == |rows| == |fails| && AllStored(before, active, date, rows, fails, n)
    requires forall i :: 0 <= i < n ==> active[i] != active[n]
    requires fails[n] ==> after == before
    requires !fails[n] ==> Stores(after, active[n], date, AggregateSprintStats(rows[n]))
    requires !fails[n] ==> OthersKept(before, after, {active[n]}, date)
    ensures AllStored(after, active, date, rows, fails, n + 1)
  {
    if !fails[n] {
      forall i | 0 <= i < n && !fails[i] ensures Stores(after, active[i], date, AggregateSprintStats(rows[i])) {
        StoredStays(before, after, active[n], date, active[i], AggregateSprintStats(rows[i]));
      }
    }
  }

  lemma OthersStillKept(start: Table, before: Table, after: Table, done: set<Id>, more: set<Id>, date: Date)
    requires OthersKept(start, before, done, date) && OthersKept(before, after, more, date)
    ensures OthersKept(start, after, done + more, date)
  {
  }

  /** Where the loop of `runSnapshots` stands after `n` sprints. */
  ghost predicate LoopAt(start: Table, table: Table, active: seq<Id>, date: Date, rows: seq<seq<ItemRow>>,
                         fails: seq<bool>, ids: seq<Id>, n: nat)
    requires n <= |active| == |rows| == |fails| == |ids|
  {
    && UniqueDay(table)
    && OthersKept(start, table, Snapped(active, fails, n), date)
    && AllStored(table, active, date, rows, fails, n)
    && NewIds(table.Keys, ids, n)
  }

  lemma LoopGoesOn(start: Table, before: Table, after: Table, active: seq<Id>, date: Date, rows: seq<seq<ItemRow>>,
                   fails: seq<bool>, ids: seq<Id>, n: nat)
    requires n < |active| == |rows| == |fails| == |ids|
    requires forall i, j :: 0 <= i < j < |active| ==> active[i] != active[j]
    requires LoopAt(start, before, active, date, rows, fails, ids, n)
    requires UniqueDay(after) && after.Keys <= before.Keys + {ids[n]}
    requires fails[n] ==> after == before
    requires !fails[n] ==> Stores(after, active[n], date, AggregateSprintStats(rows[n]))
    requires OthersKept(before, after, if fails[n] then {} else {active[n]}, date)
    ensures LoopAt(start, after, active, date, rows, fails, ids, n + 1)
  {
    NewIdsStay(before.Keys, after.Keys, ids, n);
    OneMoreStored(before, after, active, date, rows, fails, n);
    OthersStillKept(start, before, after, Snapped(active, fails, n), if fails[n] then {} else {active[n]}, date);
  }

  class Reporting {
    var table: Table

    /** INSERT … ON CONFLICT (sprint_id, snapshot_date) DO UPDATE */
    method UpsertSnapshot(id: Id, sprint: Id, date: Date, stats: Stats)
      requires UniqueDay(table) && id !in table
      modifies this
      ensures UniqueDay(table) && Stores(table, sprint, date, stats)
      ensures OthersKept(old(table), table, {sprint}, date)
      ensures table.Keys == if HasDay(old(table), sprint, date) then old(table).Keys else old(table).Keys + {id}
    {
      if i :| i in table && table[i].sprint == sprint && table[i].date == date {
        table := table[i := Snapshot(sprint, date, stats)];
        assert table[i] == Snapshot(sprint, date, stats);
      } else {
        table := table[id := Snapshot(sprint, date, stats)];
        assert table[id] == Snapshot(sprint, date, stats);
      }
    }

    /** The body of the loop of `runSnapshots`: aggregate and upsert, unless one of them throws. */
    method SnapshotSprint(sprint: Id, today: Date, rows: seq<ItemRow>, fails: bool, id: Id)
      requires UniqueDay(table) && id !in table
      modifies this
      ensures UniqueDay(table) && table.Keys <= old(table).Keys + {id}
      ensures fails ==> table == old(table)
      ensures !fails ==> Stores(table, sprint, today, AggregateSprintStats(rows))
      ensures OthersKept(old(table), table, if fails then {} else {sprint}, today)
    {
      if !fails {
        UpsertSnapshot(id, sprint, today, AggregateSprintStats(rows));
      }
    }

    /**
     `runSnapshots`: one upsert for each active sprint.  `rows` is what the aggregate's query
     finds for each, `fails` says which ones throw.
     */
    method RunSnapshots(active: seq<Id>, today: Date, rows: seq<seq<ItemRow>>, fails: seq<bool>, ids: seq<Id>)
      returns (snapped: nat, failed: nat)
      requires UniqueDay(table)
      requires |rows| == |fails| == |ids| == |active|
      requires forall i, j :: 0 <= i < j < |active| ==> active[i] != active[j]
      requires NewIds(table.Keys, ids, 0)
      modifies this
      ensures UniqueDay(table)
      ensures AllStored(table, active, today, rows, fails, |active|)
      ensures OthersKept(old(table), table, Snapped(active, fails, |active|), today)
      ensures snapped + failed == |active| && failed == Failures(fails, |active|)
    {
      snapped, failed := 0, 0;
      var i := 0;
      while i < |active|
        invariant 0 <= i <= |active| && snapped + failed == i && failed == Failures(fails, i)
        invariant LoopAt(old(table), table, active, today, rows, fails, ids, i)
      {
        ghost var before := table;
        SnapshotSprint(active[i], today, rows[i], fails[i], ids[i]);
        LoopGoesOn(old(table), before, table, active, today, rows, fails, ids, i);
        if fails[i] { failed := failed + 1; } else { snapped := snapped + 1; }
        i := i + 1;
      }
    }
  }

  lemma StoredStays(before: Table, after: Table, sprint: Id, date: Date, other: Id, stats: Stats)
    requires OthersKept(before, after, {sprint}, date) && other != sprint && Stores(before, other, date, stats)
    ensures Stores(after, other, date, stats)
  {
    var i :| i in before && before[i] == Snapshot(other, date, stats);
    assert after[i] == before[i];
  }

  /** One pod's upsert, as a step on the table. */
  ghost predicate Upserted(before: Table, after: Table, sprint: Id, date: Date, stats: Stats) {
    && UniqueDay(after) && Stores(after, sprint, date, stats) && OthersKept(before, after, {sprint}, date)
    && (HasDay(before, sprint, date) ==> after.Keys == before.Keys)
  }

  /** A second pod that stores the same figures for the same day changes nothing. */
  lemma SameSnapshotTwice(before: Table, once: Table, twice: Table, sprint: Id, date: Date, stats: Stats)
    requires Upserted(before, once, sprint, date, stats) && Upserted(once, twice, sprint, date, stats)
    ensures twice == once
  {
    var i :| i in once && once[i] == Snapshot(sprint, date, stats);
    var j :| j in twice && twice[j] == Snapshot(sprint, date, stats);
    assert HasDay(once, sprint, date);
    assert j in once && once[j].sprint == sprint && once[j].date == date by {
      if once[j].sprint != sprint || once[j].date != date { assert false; }
    }
    forall k | k in once ensures twice[k] == once[k] {
      if once[k].sprint == sprint && once[k].date == date {
        assert k == i && k == j;
      }
    }
  }
}
