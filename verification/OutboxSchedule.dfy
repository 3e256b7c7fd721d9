/** When a row of the outbox is fetched: not before the time it is scheduled for, and from then on. */
module OutboxSchedule {
  import opened Options
  import opened OutboxModel
  import opened OutboxInvariants
  import opened OutboxPreservation
  import opened OutboxTheorems

  /** The row stands in the table as given, and no transaction holds it. */
  ghost predicate Waits(s: State, rid: RowId, row: Row) {
    rid in s.outbox && s.outbox[rid] == row && !Locked(s.open, rid)
  }

  lemma ClockStep(cfg: Config, s: State, step: Step)
    requires Apply(cfg, s, step).Some?
    ensures Apply(cfg, s, step).value.now >= s.now
  {
  }

  lemma {:induction false} ClockRuns(cfg: Config, s: State, steps: seq<Step>)
    requires Exec(cfg, s, steps).Some?
    ensures Exec(cfg, s, steps).value.now >= s.now
    decreases |steps|
  {
    if steps != [] {
      ClockStep(cfg, s, steps[0]);
      ClockRuns(cfg, Apply(cfg, s, steps[0]).value, steps[1..]);
    }
  }

  lemma BeginLeaves(s: State, w: Worker, kind: Kind, batch: seq<Fetched>, rid: RowId, row: Row)
    requires Waits(s, rid, row) && !rid.kind.Events? && s.now < row.queuedAt && ValidBatch(s, kind, batch)
    ensures !Locked(s.open[w := Tx(kind, batch, [], None, [])], rid)
  {
    assert !Eligible(s, kind, rid);
    assert forall i :: 0 <= i < |batch| ==> Eligible(s, kind, batch[i].rid);
    var open := s.open[w := Tx(kind, batch, [], None, [])];
    forall v | v in open ensures !InBatch(open[v].batch, rid) {
      assert v in s.open && v != w ==> !InBatch(s.open[v].batch, rid);
    }
  }

  lemma SameBatchesUnlocked(before: map<Worker, Tx>, after: map<Worker, Tx>, rid: RowId)
    requires !Locked(before, rid)
    requires forall w :: w in after ==> w in before && after[w].batch == before[w].batch
    ensures !Locked(after, rid)
  {
    forall w | w in after ensures !InBatch(after[w].batch, rid) {
      assert !InBatch(before[w].batch, rid);
    }
  }

  lemma CommitLeaves(s: State, w: Worker, rid: RowId, row: Row)
    requires TxsOk(s.outbox, s.open) && Waits(s, rid, row) && w in s.open && |s.open[w].tries| == |s.open[w].batch|
    ensures var after := Marked(s.outbox, s.open[w].batch, s.open[w].tries); rid in after && after[rid] == row
  {
    var tx := s.open[w];
    MarkedRows(s.outbox, tx.batch, tx.tries);
    assert !InBatch(tx.batch, rid);
  }

  lemma RowStepLeaves(cfg: Config, s: State, step: Step, rid: RowId, row: Row)
    requires step.Suppress? || step.Unroute? || step.Publish? || step.SendEmail? || step.Notify? || step.MarkSent?
             || step.MarkFailed? || step.Rollback?
    requires Waits(s, rid, row) && Apply(cfg, s, step).Some?
    ensures Waits(Apply(cfg, s, step).value, rid, row)
  {
    SameBatchesUnlocked(s.open, Apply(cfg, s, step).value.open, rid);
  }

  lemma StepLeavesWaiting(cfg: Config, s: State, step: Step, rid: RowId, row: Row)
    requires TxsOk(s.outbox, s.open) && Apply(cfg, s, step).Some?
    requires Waits(s, rid, row) && !rid.kind.Events? && s.now < row.queuedAt
    ensures Waits(Apply(cfg, s, step).value, rid, row)
  {
    match step
    case Begin(w, kind, batch) => BeginLeaves(s, w, kind, batch, rid, row);
    case Commit(w) =>
      CommitLeaves(s, w, rid, row);
      SameBatchesUnlocked(s.open, s.open - {w}, rid);
    case Tick(_) =>
    case Enqueue(_, _, _) =>
    case Push(_) =>
    case ScheduleEmail(_, _) =>
    case Abandon(_) =>
    case Consume(_, _) =>
    case RecordDirect(_) =>
    case _ => RowStepLeaves(cfg, s, step, rid, row);
  }

  lemma {:induction false} RunLeavesWaiting(cfg: Config, s: State, steps: seq<Step>, rid: RowId, row: Row)
    requires Inv(cfg, s) && Exec(cfg, s, steps).Some?
    requires Waits(s, rid, row) && !rid.kind.Events? && Exec(cfg, s, steps).value.now < row.queuedAt
    ensures Waits(Exec(cfg, s, steps).value, rid, row)
    decreases |steps|
  {
    if steps != [] {
      ClockRuns(cfg, s, steps);
      StepLeavesWaiting(cfg, s, steps[0], rid, row);
      StepKeepsInv(cfg, s, steps[0]);
      RunLeavesWaiting(cfg, Apply(cfg, s, steps[0]).value, steps[1..], rid, row);
    }
  }

  /** The row is written by this step: its id is new, and so is its key if it has one. */
  ghost predicate Enqueues(cfg: Config, s: State, rid: RowId, key: Option<Key>, at: int) {
    && Apply(cfg, s, Enqueue(rid, key, at)).Some?
    && (key.Some? ==> forall r :: r in s.outbox && r.kind == rid.kind ==> s.outbox[r].key != key)
  }

  lemma EnqueuedRow(cfg: Config, s: State, rid: RowId, key: Option<Key>, at: int)
    requires Reachable(cfg, s) && Enqueues(cfg, s, rid, key, at)
    ensures var after := Apply(cfg, s, Enqueue(rid, key, at)).value;
            && Inv(cfg, after)
            && after == s.(outbox := s.outbox[rid := Row(key, rid.kind.Notifications?, at, Pending, 0)])
            && Waits(after, rid, Row(key, rid.kind.Notifications?, at, Pending, 0))
  {
    ReachableInv(cfg, s);
    StepKeepsInv(cfg, s, Enqueue(rid, key, at));
    forall w | w in s.open ensures !InBatch(s.open[w].batch, rid) {
      assert TxOk(s.outbox, s.open[w]);
    }
  }

  /** Whatever the workers do, an email or a notification stays as it was written until its time has come. */
  lemma NothingIsSentEarly(cfg: Config, s: State, rid: RowId, key: Option<Key>, at: int, later: seq<Step>)
    requires Reachable(cfg, s) && Enqueues(cfg, s, rid, key, at) && !rid.kind.Events?
    requires Exec(cfg, Apply(cfg, s, Enqueue(rid, key, at)).value, later).Some?
    ensures var after := Exec(cfg, Apply(cfg, s, Enqueue(rid, key, at)).value, later).value;
            after.now < at ==>
              Waits(after, rid, Row(key, rid.kind.Notifications?, at, Pending, 0))
  {
    EnqueuedRow(cfg, s, rid, key, at);
    var start := Apply(cfg, s, Enqueue(rid, key, at)).value;
    if Exec(cfg, start, later).value.now < at {
      RunLeavesWaiting(cfg, start, later, rid, Row(key, rid.kind.Notifications?, at, Pending, 0));
    }
  }

  /** Left alone, a row can be fetched from the time it is scheduled for, and an event at once. */
  lemma FetchableFromItsTime(cfg: Config, s: State, rid: RowId, key: Option<Key>, at: int, elapsed: nat)
    requires Reachable(cfg, s) && Enqueues(cfg, s, rid, key, at)
    ensures var waited := Exec(cfg, s, [Enqueue(rid, key, at), Tick(elapsed)]);
            waited.Some? && (Eligible(waited.value, rid.kind, rid) <==> rid.kind.Events? || at <= s.now + elapsed)
  {
    EnqueuedRow(cfg, s, rid, key, at);
    var start := Apply(cfg, s, Enqueue(rid, key, at)).value;
    var steps := [Enqueue(rid, key, at), Tick(elapsed)];
    assert steps[1..] == [Tick(elapsed)] && [Tick(elapsed)][1..] == [];
    assert Exec(cfg, start, [Tick(elapsed)]) == Some(start.(now := start.now + elapsed));
  }
}
