/**
 How long a row waits, and that the queue drains, when one worker polls a table.

 A run that commits ends one try of every row it fetched, so it lowers the number of tries
 the waiting rows have left.  `PolledQueue` takes histories of such runs from the step machine.
 */
module QueueDrain {
  import opened Options
  import opened OutboxModel
  import opened OutboxInvariants

  /** A committed run: the state it fetched from, what it fetched, how each try ended. */
  datatype Run = Run(start: State, batch: seq<Fetched>, tries: seq<Try>)

  /** No other worker polls this table. */
  ghost predicate Unlocked(s: State, kind: Kind) {
    forall r: RowId :: r.kind == kind ==> !Locked(s.open, r)
  }

  ghost predicate Commits(kind: Kind, run: Run) {
    && Unlocked(run.start, kind)
    && ValidBatch(run.start, kind, run.batch)
    && |run.tries| == |run.batch|
  }

  function Left(run: Run): map<RowId, Row>
    requires |run.tries| <= |run.batch|
  {
    Marked(run.start.outbox, run.batch, run.tries)
  }

  /**
   Between two runs the clock goes on, other tables change freely, and rows may be added to
   this table as long as they do not join at or before `front` in the queue.
   */
  ghost predicate Follows(kind: Kind, front: int, run: Run, next: State)
    requires |run.tries| <= |run.batch|
  {
    && run.start.now <= next.now
    && (forall r :: r in Left(run) && r.kind == kind ==> r in next.outbox && next.outbox[r] == Left(run)[r])
    && (forall r :: r in next.outbox && r.kind == kind && r !in Left(run) ==> next.outbox[r].queuedAt > front)
  }

  ghost predicate History(kind: Kind, front: int, runs: seq<Run>) {
    && (forall i :: 0 <= i < |runs| ==> Commits(kind, runs[i]))
    && (forall i :: 0 <= i < |runs| - 1 ==> Follows(kind, front, runs[i], runs[i + 1].start))
  }

  /** The rows still waiting at or before a place in the queue. */
  function Ahead(outbox: map<RowId, Row>, kind: Kind, front: int): set<RowId> {
    set r | r in outbox && r.kind == kind && outbox[r].queuedAt <= front
            && outbox[r].status.Pending? && outbox[r].attempts < MAX_ATTEMPTS
  }

  /** The tries those rows have left; their number is the sum of 5 - attempts. */
  function Slots(outbox: map<RowId, Row>, rows: set<RowId>): set<(RowId, nat)>
    requires rows <= outbox.Keys
  {
    set r, k: nat | r in rows && outbox[r].attempts <= k < MAX_ATTEMPTS :: (r, k)
  }

  lemma CardinalityOfSubset<T>(a: set<T>, b: set<T>)
    requires a <= b
    ensures |a| <= |b|
  {
    assert b == a + (b - a);
  }

  /** Five tries a row at most. */
  lemma {:induction false} SlotsBound(outbox: map<RowId, Row>, rows: set<RowId>)
    requires rows <= outbox.Keys
    ensures |Slots(outbox, rows)| <= MAX_ATTEMPTS * |rows|
    decreases |rows|
  {
    if rows == {} {
      assert Slots(outbox, rows) == {};
    } else {
      var r :| r in rows;
      SlotsBound(outbox, rows - {r});
      var own: set<(RowId, nat)> := {(r, 0), (r, 1), (r, 2), (r, 3), (r, 4)};
      CardinalityOfSubset(Slots(outbox, rows), Slots(outbox, rows - {r}) + own);
    }
  }

  /** The tries a run uses up. */
  function Used(batch: seq<Fetched>): set<(RowId, nat)> {
    if batch == [] then {}
    else
      var n := |batch| - 1;
      Used(batch[..n]) + {(batch[n].rid, batch[n].row.attempts)}
  }

  lemma {:induction false} UsedMembers(batch: seq<Fetched>, u: (RowId, nat))
    ensures u in Used(batch) <==> exists i :: 0 <= i < |batch| && u == (batch[i].rid, batch[i].row.attempts)
  {
    if batch != [] {
      var n := |batch| - 1;
      UsedMembers(batch[..n], u);
      if u in Used(batch[..n]) {
        var i :| 0 <= i < n && u == (batch[..n][i].rid, batch[..n][i].row.attempts);
        assert batch[i] == batch[..n][i];
      }
      if i :| 0 <= i < |batch| && u == (batch[i].rid, batch[i].row.attempts) {
        if i < n { assert batch[..n][i] == batch[i]; }
      }
    }
  }

  lemma {:induction false} UsedCount(batch: seq<Fetched>)
    requires Distinct(batch)
    ensures |Used(batch)| == |batch|
  {
    if batch != [] {
      var n := |batch| - 1;
      UsedCount(batch[..n]);
      UsedMembers(batch[..n], (batch[n].rid, batch[n].row.attempts));
    }
  }

  /** Every batch row's row after a committed run: done, or with one try fewer. */
  lemma AfterRun(kind: Kind, run: Run, q: RowId)
    requires Commits(kind, run) && q in Left(run)
    ensures q in run.start.outbox
    ensures Left(run)[q].queuedAt == run.start.outbox[q].queuedAt
    ensures !InBatch(run.batch, q) ==> Left(run)[q] == run.start.outbox[q]
    ensures InBatch(run.batch, q) && Left(run)[q].status.Pending? ==>
              && run.start.outbox[q].status.Pending?
              && Left(run)[q].attempts == run.start.outbox[q].attempts + 1
  {
    MarkedRows(run.start.outbox, run.batch, run.tries);
    if i :| 0 <= i < |run.batch| && run.batch[i].rid == q {
      assert Eligible(run.start, kind, run.batch[i].rid);
    }
  }

  /** What is left after a run was there before it, less the tries the run used up. */
  lemma RunUsesSlots(kind: Kind, front: int, run: Run, next: State, spared: set<RowId>)
    requires Commits(kind, run) && Follows(kind, front, run, next)
    ensures var before, after := Ahead(run.start.outbox, kind, front) - spared, Ahead(next.outbox, kind, front) - spared;
            && after <= before
            && Slots(next.outbox, after) <= Slots(run.start.outbox, before) - Used(run.batch)
  {
    var before, after := Ahead(run.start.outbox, kind, front) - spared, Ahead(next.outbox, kind, front) - spared;
    forall q | q in after ensures q in before {
      AfterRun(kind, run, q);
    }
    forall u | u in Slots(next.outbox, after)
      ensures u in Slots(run.start.outbox, before) && u !in Used(run.batch)
    {
      AfterRun(kind, run, u.0);
      UsedMembers(run.batch, u);
    }
  }

  /** A run that leaves out a due row fetched 50 rows, all of them at or before it. */
  lemma MissMeansFullBatch(kind: Kind, run: Run, r: RowId)
    requires Commits(kind, run) && r in run.start.outbox && r.kind == kind
    requires Due(run.start.now, r, run.start.outbox[r]) && !InBatch(run.batch, r)
    ensures |run.batch| == BATCH_SIZE
    ensures forall i :: 0 <= i < |run.batch| ==>
              run.batch[i].rid in Ahead(run.start.outbox, kind, run.start.outbox[r].queuedAt) - {r}
  {
    assert Eligible(run.start, kind, r);
    forall i | 0 <= i < |run.batch|
      ensures run.batch[i].rid in Ahead(run.start.outbox, kind, run.start.outbox[r].queuedAt) - {r}
    {
      assert Eligible(run.start, kind, run.batch[i].rid);
    }
  }

  lemma UsedIsAhead(run: Run, kind: Kind, rows: set<RowId>)
    requires Commits(kind, run) && rows <= run.start.outbox.Keys
    requires forall i :: 0 <= i < |run.batch| ==> run.batch[i].rid in rows
    ensures Used(run.batch) <= Slots(run.start.outbox, rows) && |Used(run.batch)| == |run.batch|
  {
    UsedCount(run.batch);
    forall u | u in Used(run.batch) ensures u in Slots(run.start.outbox, rows) {
      UsedMembers(run.batch, u);
      var i :| 0 <= i < |run.batch| && u == (run.batch[i].rid, run.batch[i].row.attempts);
      assert Eligible(run.start, kind, run.batch[i].rid);
    }
  }

  lemma CardinalityOfRest<T>(after: set<T>, before: set<T>, used: set<T>)
    requires after <= before - used && used <= before
    ensures |after| + |used| <= |before|
  {
    CardinalityOfSubset(after, before - used);
  }

  /** Each run that misses the row costs the rows at or before it at least 50 tries. */
  lemma MissCostsFifty(kind: Kind, run: Run, next: State, r: RowId)
    requires Commits(kind, run) && r in run.start.outbox && r.kind == kind
    requires Due(run.start.now, r, run.start.outbox[r]) && !InBatch(run.batch, r)
    requires Follows(kind, run.start.outbox[r].queuedAt, run, next)
    ensures var front := run.start.outbox[r].queuedAt;
            |Slots(next.outbox, Ahead(next.outbox, kind, front) - {r})| + 50
              <= |Slots(run.start.outbox, Ahead(run.start.outbox, kind, front) - {r})|
    ensures r in next.outbox && next.outbox[r] == run.start.outbox[r] && Due(next.now, r, next.outbox[r])
  {
    var front := run.start.outbox[r].queuedAt;
    var before, after := Ahead(run.start.outbox, kind, front) - {r}, Ahead(next.outbox, kind, front) - {r};
    MissMeansFullBatch(kind, run, r);
    UsedIsAhead(run, kind, before);
    RunUsesSlots(kind, front, run, next, {r});
    CardinalityOfRest(Slots(next.outbox, after), Slots(run.start.outbox, before), Used(run.batch));
    MarkedRows(run.start.outbox, run.batch, run.tries);
    AfterRun(kind, run, r);
  }

  lemma {:induction false} Waits(kind: Kind, runs: seq<Run>, r: RowId)
    requires runs != [] && r in runs[0].start.outbox && r.kind == kind
    requires var s := runs[0].start; var front := s.outbox[r].queuedAt;
             && History(kind, front, runs)
             && Due(s.now, r, s.outbox[r])
             && |Slots(s.outbox, Ahead(s.outbox, kind, front) - {r})| < BATCH_SIZE * |runs|
    ensures exists i :: 0 <= i < |runs| && InBatch(runs[i].batch, r)
    decreases |runs|
  {
    var run := runs[0];
    var front := run.start.outbox[r].queuedAt;
    if InBatch(run.batch, r) {
      return;
    }
    if |runs| == 1 {
      var before := Ahead(run.start.outbox, kind, front) - {r};
      MissMeansFullBatch(kind, run, r);
      UsedIsAhead(run, kind, before);
      CardinalityOfSubset(Used(run.batch), Slots(run.start.outbox, before));
    } else {
      MissCostsFifty(kind, run, runs[1].start, r);
      Waits(kind, runs[1..], r);
      var i :| 0 <= i < |runs[1..]| && InBatch(runs[1..][i].batch, r);
      assert InBatch(runs[i + 1].batch, r);
    }
  }

  /**
   Bounded waiting: a due row with k other rows waiting at or before it, and none joining
   ahead of it later, is fetched by one of the next 5k/50 + 1 committed runs, however the
   tries of those rows end.
   */
  lemma BoundedWaiting(kind: Kind, runs: seq<Run>, r: RowId, k: nat)
    requires runs != [] && r in runs[0].start.outbox && r.kind == kind
    requires var s := runs[0].start; var front := s.outbox[r].queuedAt;
             && History(kind, front, runs)
             && Due(s.now, r, s.outbox[r])
             && |Ahead(s.outbox, kind, front) - {r}| == k
    requires |runs| == 5 * k / 50 + 1
    ensures exists i :: 0 <= i < |runs| && InBatch(runs[i].batch, r)
  {
    var s := runs[0].start;
    SlotsBound(s.outbox, Ahead(s.outbox, kind, s.outbox[r].queuedAt) - {r});
    Waits(kind, runs, r);
  }

  /** A run over a non-empty queue fetches a row of it. */
  lemma FetchesFromQueue(kind: Kind, front: int, run: Run) returns (i: nat)
    requires Commits(kind, run) && front <= run.start.now && Ahead(run.start.outbox, kind, front) != {}
    ensures i < |run.batch| && run.batch[i].rid in Ahead(run.start.outbox, kind, front)
    ensures run.batch[i].row == run.start.outbox[run.batch[i].rid]
  {
    var r :| r in Ahead(run.start.outbox, kind, front);
    assert Eligible(run.start, kind, r);
    if InBatch(run.batch, r) {
      i :| 0 <= i < |run.batch| && run.batch[i].rid == r;
    } else {
      i := 0;
    }
    assert Eligible(run.start, kind, run.batch[i].rid);
  }

  lemma RunMakesProgress(kind: Kind, front: int, run: Run, next: State)
    requires Commits(kind, run) && Follows(kind, front, run, next) && front <= run.start.now
    requires Ahead(run.start.outbox, kind, front) != {}
    ensures |Slots(next.outbox, Ahead(next.outbox, kind, front))| < |Slots(run.start.outbox, Ahead(run.start.outbox, kind, front))|
  {
    var before, after := Ahead(run.start.outbox, kind, front), Ahead(next.outbox, kind, front);
    assert before - {} == before && after - {} == after;
    RunUsesSlots(kind, front, run, next, {});
    var i := FetchesFromQueue(kind, front, run);
    var u := (run.batch[i].rid, run.batch[i].row.attempts);
    UsedMembers(run.batch, u);
    assert u in Slots(run.start.outbox, before);
    CardinalityOfRest(Slots(next.outbox, after), Slots(run.start.outbox, before), {u});
  }

  /**
   The queue drains: with n tries left to the rows queued up to a moment already past, and
   none joining them, one of the next n + 1 committed runs finds all of them settled.
   */
  lemma {:induction false} QueueDrains(kind: Kind, front: int, runs: seq<Run>)
    requires runs != [] && History(kind, front, runs) && front <= runs[0].start.now
    requires var s := runs[0].start; |runs| == |Slots(s.outbox, Ahead(s.outbox, kind, front))| + 1
    ensures exists i :: 0 <= i < |runs| && Ahead(runs[i].start.outbox, kind, front) == {}
    decreases |runs|
  {
    var s := runs[0].start;
    if Ahead(s.outbox, kind, front) == {} {
      return;
    }
    var slots := Slots(s.outbox, Ahead(s.outbox, kind, front));
    var r :| r in Ahead(s.outbox, kind, front);
    assert (r, s.outbox[r].attempts) in slots;
    assert |runs| > 1;
    var t := runs[1].start;
    RunMakesProgress(kind, front, runs[0], t);
    var rest := runs[1..][..|Slots(t.outbox, Ahead(t.outbox, kind, front))| + 1];
    QueueDrains(kind, front, rest);
    var i :| 0 <= i < |rest| && Ahead(rest[i].start.outbox, kind, front) == {};
    assert rest[i] == runs[i + 1];
  }

  // ── There is always a batch to fetch ────────────────────────────────────────

  lemma Earliest(outbox: map<RowId, Row>, rows: set<RowId>) returns (r: RowId)
    requires rows != {} && rows <= outbox.Keys
    ensures r in rows && forall q :: q in rows ==> outbox[r].queuedAt <= outbox[q].queuedAt
    decreases |rows|
  {
    r :| r in rows;
    assert forall q :: q in rows <==> q == r || q in rows - {r};
    if rows - {r} != {} {
      var q := Earliest(outbox, rows - {r});
      if outbox[q].queuedAt < outbox[r].queuedAt {
        r := q;
      }
    }
  }

  /** The earliest rows so far, and those left. */
  ghost predicate Picked(s: State, kind: Kind, batch: seq<Fetched>, rest: set<RowId>) {
    && Distinct(batch)
    && (forall r :: r in rest <==> Eligible(s, kind, r) && !InBatch(batch, r))
    && (forall i :: 0 <= i < |batch| ==> Eligible(s, kind, batch[i].rid) && batch[i].row == s.outbox[batch[i].rid])
    && (forall i, j :: 0 <= i < j < |batch| ==> s.outbox[batch[i].rid].queuedAt <= s.outbox[batch[j].rid].queuedAt)
    && (forall i, r :: 0 <= i < |batch| && r in rest ==> s.outbox[batch[i].rid].queuedAt <= s.outbox[r].queuedAt)
  }

  lemma PickNext(s: State, kind: Kind, batch: seq<Fetched>, rest: set<RowId>, r: RowId)
    requires Picked(s, kind, batch, rest) && r in rest
    requires forall q :: q in rest ==> s.outbox[r].queuedAt <= s.outbox[q].queuedAt
    ensures Picked(s, kind, batch + [Fetched(r, s.outbox[r])], rest - {r})
  {
    var longer := batch + [Fetched(r, s.outbox[r])];
    forall q ensures InBatch(longer, q) <==> InBatch(batch, q) || q == r {
      if q == r { assert longer[|batch|].rid == q; }
      if i :| 0 <= i < |batch| && batch[i].rid == q { assert longer[i].rid == q; }
    }
  }

  lemma PickedIsBatch(s: State, kind: Kind, batch: seq<Fetched>, rest: set<RowId>)
    requires Picked(s, kind, batch, rest) && |batch| <= BATCH_SIZE && (rest == {} || |batch| == BATCH_SIZE)
    ensures ValidBatch(s, kind, batch)
  {
    forall r | Eligible(s, kind, r) && !InBatch(batch, r)
      ensures |batch| == BATCH_SIZE
      ensures forall i :: 0 <= i < |batch| ==> s.outbox[batch[i].rid].queuedAt <= s.outbox[r].queuedAt
    {
      assert r in rest;
    }
  }

  /** Whatever is locked and whatever is due, the SELECT has an answer. */
  lemma BatchExists(s: State, kind: Kind) returns (batch: seq<Fetched>)
    ensures ValidBatch(s, kind, batch)
  {
    batch := [];
    var rest := set r | r in s.outbox && Eligible(s, kind, r);
    while |batch| < BATCH_SIZE && rest != {}
      invariant |batch| <= BATCH_SIZE && Picked(s, kind, batch, rest)
      decreases |rest|
    {
      var r := Earliest(s.outbox, rest);
      PickNext(s, kind, batch, rest, r);
      batch, rest := batch + [Fetched(r, s.outbox[r])], rest - {r};
    }
    PickedIsBatch(s, kind, batch, rest);
  }
}
