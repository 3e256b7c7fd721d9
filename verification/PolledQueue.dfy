/**
 The runs that `QueueDrain` speaks of, taken from the step machine: in any run of the pipeline
 in which one worker polls a table, its committed transactions form such a history.  Other
 workers go on polling other tables, rows are queued, transactions of the poller roll back.
 */
module PolledQueue {
  import opened Options
  import opened OutboxModel
  import opened OutboxInvariants
  import opened OutboxPreservation
  import opened OutboxTheorems
  import opened QueueDrain

  /** Only `w` polls the table, and nothing is queued at or before `front`. */
  ghost predicate Polite(s: State, step: Step, w: Worker, kind: Kind, front: int) {
    && (step.Begin? && step.kind == kind ==> step.w == w)
    && (step.Enqueue? && step.rid.kind == kind ==> step.at > front)
    && (step.ScheduleEmail? && kind.Emails? ==> s.now > front)
  }

  ghost predicate AllPolite(cfg: Config, s: State, steps: seq<Step>, w: Worker, kind: Kind, front: int)
    decreases |steps|
  {
    steps != [] ==>
      && Polite(s, steps[0], w, kind, front)
      && (Apply(cfg, s, steps[0]).Some? ==> AllPolite(cfg, Apply(cfg, s, steps[0]).value, steps[1..], w, kind, front))
  }

  // ── Watching the poller ─────────────────────────────────────────────────────

  datatype Begun = Begun(start: State, batch: seq<Fetched>)

  /** The state, the poller's open transaction with what it began from, and its committed runs so far. */
  datatype Watch = Watch(state: State, begun: Option<Begun>, runs: seq<Run>)

  ghost function Next(cfg: Config, w: Worker, kind: Kind, v: Watch, step: Step): Watch
    requires Apply(cfg, v.state, step).Some?
  {
    var t := Apply(cfg, v.state, step).value;
    if step.Begin? && step.w == w && step.kind == kind then Watch(t, Some(Begun(v.state, step.batch)), v.runs)
    else if step.Commit? && step.w == w && v.begun.Some? then
      Watch(t, None, v.runs + [Run(v.begun.value.start, v.begun.value.batch, v.state.open[w].tries)])
    else if step.Rollback? && step.w == w then Watch(t, None, v.runs)
    else Watch(t, v.begun, v.runs)
  }

  ghost function Watched(cfg: Config, w: Worker, kind: Kind, v: Watch, steps: seq<Step>): Watch
    requires Exec(cfg, v.state, steps).Some?
    decreases |steps|
  {
    if steps == [] then v else Watched(cfg, w, kind, Next(cfg, w, kind, v, steps[0]), steps[1..])
  }

  /** The poller's transactions on the table that begin and commit within the steps. */
  ghost function CommittedRuns(cfg: Config, s: State, w: Worker, kind: Kind, steps: seq<Step>): seq<Run>
    requires Exec(cfg, s, steps).Some?
  {
    Watched(cfg, w, kind, Watch(s, None, []), steps).runs
  }

  // ── What happens to the table between the poller's commits ──────────────────

  /** The table's rows are as they were, and new ones are behind `front`. */
  ghost predicate Since(kind: Kind, front: int, before: map<RowId, Row>, after: map<RowId, Row>) {
    && (forall r :: r in before && r.kind == kind ==> r in after && after[r] == before[r])
    && (forall r :: r in after && r.kind == kind && r !in before ==> after[r].queuedAt > front)
  }

  lemma SinceSince(kind: Kind, front: int, a: map<RowId, Row>, b: map<RowId, Row>, c: map<RowId, Row>)
    requires Since(kind, front, a, b) && Since(kind, front, b, c)
    ensures Since(kind, front, a, c)
  {
  }

  ghost predicate OnlyPoller(open: map<Worker, Tx>, w: Worker, kind: Kind) {
    forall v :: v in open && v != w ==> open[v].kind != kind
  }

  ghost predicate Idle(open: map<Worker, Tx>, w: Worker, kind: Kind) {
    w in open ==> open[w].kind != kind
  }

  lemma BatchKind(outbox: map<RowId, Row>, tx: Tx, r: RowId)
    requires TxOk(outbox, tx) && InBatch(tx.batch, r)
    ensures r.kind == tx.kind
  {
  }

  lemma IdleIsUnlocked(s: State, w: Worker, kind: Kind)
    requires TxsOk(s.outbox, s.open) && OnlyPoller(s.open, w, kind) && Idle(s.open, w, kind)
    ensures Unlocked(s, kind)
  {
    forall v, r | v in s.open && InBatch(s.open[v].batch, r) ensures r.kind == s.open[v].kind != kind {
      BatchKind(s.outbox, s.open[v], r);
    }
  }

  lemma InsertIsBehind(kind: Kind, front: int, outbox: map<RowId, Row>, rid: RowId, key: Option<Key>, at: int)
    requires rid !in outbox && (rid.kind == kind ==> at > front)
    ensures Since(kind, front, outbox, InsertRow(outbox, rid, key, at))
  {
    InsertRowFacts(outbox, rid, key, at);
  }

  /** A commit of another table's transaction leaves this one alone. */
  lemma OtherCommit(kind: Kind, front: int, outbox: map<RowId, Row>, tx: Tx)
    requires TxOk(outbox, tx) && |tx.tries| == |tx.batch| && tx.kind != kind
    ensures Since(kind, front, outbox, Marked(outbox, tx.batch, tx.tries))
  {
    MarkedRows(outbox, tx.batch, tx.tries);
  }

  lemma StepSince(cfg: Config, s: State, step: Step, w: Worker, kind: Kind, front: int)
    requires TxsOk(s.outbox, s.open) && Apply(cfg, s, step).Some? && Polite(s, step, w, kind, front)
    requires step.Commit? ==> s.open[step.w].kind != kind
    ensures Since(kind, front, s.outbox, Apply(cfg, s, step).value.outbox)
    ensures s.now <= Apply(cfg, s, step).value.now
  {
    match step
    case Enqueue(rid, key, at) => InsertIsBehind(kind, front, s.outbox, rid, key, at);
    case ScheduleEmail(i, id) =>
      InsertIsBehind(kind, front, s.outbox, RowId(Emails, id), Some(NotificationEmailKey(s.live[i].nid)), s.now);
    case Commit(v) =>
      assert TxOk(s.outbox, s.open[v]);
      OtherCommit(kind, front, s.outbox, s.open[v]);
    case _ => OtherStepsKeepRows(cfg, s, step);
  }

  /** The poller's own commit marks the rows it fetched, as they were when it fetched them. */
  lemma OwnCommit(kind: Kind, front: int, start: map<RowId, Row>, outbox: map<RowId, Row>, tx: Tx)
    requires TxOk(outbox, tx) && |tx.tries| == |tx.batch| && tx.kind == kind
    requires Since(kind, front, start, outbox)
    requires forall i :: 0 <= i < |tx.batch| ==> tx.batch[i].rid in start
    ensures Since(kind, front, Marked(start, tx.batch, tx.tries), Marked(outbox, tx.batch, tx.tries))
  {
    var left, after := Marked(start, tx.batch, tx.tries), Marked(outbox, tx.batch, tx.tries);
    MarkedRows(start, tx.batch, tx.tries);
    MarkedRows(outbox, tx.batch, tx.tries);
    forall r | r in left && r.kind == kind ensures r in after && after[r] == left[r] {
      if i :| 0 <= i < |tx.tries| && tx.batch[i].rid == r {
        assert left[r] == Mark(start, tx.batch[i], tx.tries[i].outcome)[r];
        assert after[r] == Mark(outbox, tx.batch[i], tx.tries[i].outcome)[r];
      }
    }
    forall r | r in after && r.kind == kind && r !in left ensures after[r].queuedAt > front {
      assert after[r] == outbox[r];
    }
  }

  // ── The watched runs are a history ──────────────────────────────────────────

  /** The poller's open transaction on the table is the one that was seen to begin. */
  ghost predicate BegunOk(kind: Kind, front: int, w: Worker, state: State, begun: Option<Begun>) {
    && OnlyPoller(state.open, w, kind)
    && (begun.None? ==> Idle(state.open, w, kind))
    && (begun.Some? ==>
          var b := begun.value;
          && w in state.open && state.open[w].kind == kind && state.open[w].batch == b.batch
          && Unlocked(b.start, kind) && ValidBatch(b.start, kind, b.batch)
          && b.start.now <= state.now && Since(kind, front, b.start.outbox, state.outbox))
  }

  /** The runs so far follow each other, the first one the origin; `here` follows the last. */
  ghost predicate RunsOk(kind: Kind, front: int, origin: State, runs: seq<Run>, here: State) {
    && History(kind, front, runs)
    && (runs == [] ==> Later(kind, front, origin, here))
    && (runs != [] ==>
          && Later(kind, front, origin, runs[0].start)
          && Commits(kind, runs[|runs| - 1])
          && Follows(kind, front, runs[|runs| - 1], here))
  }

  ghost predicate Later(kind: Kind, front: int, a: State, b: State) {
    a.now <= b.now && Since(kind, front, a.outbox, b.outbox)
  }

  /** Where the next run fetches, or has fetched, from. */
  function Here(v: Watch): State {
    match v.begun case Some(b) => b.start case None => v.state
  }

  lemma RunsStayOk(kind: Kind, front: int, origin: State, runs: seq<Run>, s: State, t: State)
    requires RunsOk(kind, front, origin, runs, s) && Later(kind, front, s, t)
    ensures RunsOk(kind, front, origin, runs, t)
  {
    if runs == [] {
      SinceSince(kind, front, origin.outbox, s.outbox, t.outbox);
    } else {
      SinceSince(kind, front, Left(runs[|runs| - 1]), s.outbox, t.outbox);
    }
  }

  lemma OneMoreRun(kind: Kind, front: int, origin: State, runs: seq<Run>, run: Run, t: State)
    requires RunsOk(kind, front, origin, runs, run.start) && Commits(kind, run) && Follows(kind, front, run, t)
    ensures RunsOk(kind, front, origin, runs + [run], t)
  {
    var more := runs + [run];
    forall i | 0 <= i < |more| ensures Commits(kind, more[i]) {
      if i < |runs| { assert more[i] == runs[i]; }
    }
    forall i | 0 <= i < |more| - 1 ensures Follows(kind, front, more[i], more[i + 1].start) {
      if i < |runs| - 1 { assert more[i] == runs[i] && more[i + 1] == runs[i + 1]; }
    }
  }

  /** The transactions that are open before and after are over the same tables and batches. */
  ghost predicate SameTxs(before: map<Worker, Tx>, after: map<Worker, Tx>) {
    forall v :: v in after && v in before ==> after[v].kind == before[v].kind && after[v].batch == before[v].batch
  }

  /** Only a begin opens a transaction, only a commit or a rollback closes one, and none changes its batch. */
  lemma BystanderKeepsTxs(cfg: Config, s: State, step: Step)
    requires Apply(cfg, s, step).Some?
    ensures var t := Apply(cfg, s, step).value;
            && SameTxs(s.open, t.open)
            && t.open.Keys == (if step.Begin? then s.open.Keys + {step.w}
                               else if step.Commit? || step.Rollback? then s.open.Keys - {step.w} else s.open.Keys)
            && (step.Begin? ==> step.w !in s.open && t.open[step.w].kind == step.kind)
  {
    match step
    case Begin(_, _, _) =>
    case Commit(_) =>
    case Rollback(_) =>
    case MarkSent(_, _) =>
    case MarkFailed(_) =>
    case Suppress(_) => RowStepKeepsTxs(cfg, s, step);
    case Unroute(_) => RowStepKeepsTxs(cfg, s, step);
    case Publish(_) => RowStepKeepsTxs(cfg, s, step);
    case SendEmail(_) => RowStepKeepsTxs(cfg, s, step);
    case Notify(w, nid) => NotifyKeepsTxs(cfg, s, w, nid);
    case _ => SideStepKeepsTxs(cfg, s, step);
  }

  lemma EffectKeepsTxKinds(s: State, w: Worker, e: Effect)
    requires w in s.open
    ensures SameTxs(s.open, WithEffect(s, w, e).open) && WithEffect(s, w, e).open.Keys == s.open.Keys
  {
  }

  lemma RowStepKeepsTxs(cfg: Config, s: State, step: Step)
    requires step.Suppress? || step.Unroute? || step.Publish? || step.SendEmail?
    requires Apply(cfg, s, step).Some?
    ensures SameTxs(s.open, Apply(cfg, s, step).value.open) && Apply(cfg, s, step).value.open.Keys == s.open.Keys
  {
  }

  lemma NotifyKeepsTxs(cfg: Config, s: State, w: Worker, nid: Id)
    requires Apply(cfg, s, Notify(w, nid)).Some?
    ensures SameTxs(s.open, Apply(cfg, s, Notify(w, nid)).value.open)
    ensures Apply(cfg, s, Notify(w, nid)).value.open.Keys == s.open.Keys
  {
    EffectKeepsTxKinds(s, w, Deduplicated);
    EffectKeepsTxKinds(s, w, Created(nid));
  }

  lemma SideStepKeepsTxs(cfg: Config, s: State, step: Step)
    requires step.Tick? || step.Enqueue? || step.Push? || step.ScheduleEmail? || step.Abandon? || step.Consume?
             || step.RecordDirect?
    requires Apply(cfg, s, step).Some?
    ensures Apply(cfg, s, step).value.open == s.open
  {
  }

  /** Nothing about the poller's transaction has changed, and no other on the table was opened. */
  lemma BegunStays(kind: Kind, front: int, w: Worker, s: State, t: State, begun: Option<Begun>)
    requires BegunOk(kind, front, w, s, begun) && Later(kind, front, s, t) && SameTxs(s.open, t.open)
    requires forall v :: v in t.open && v !in s.open ==> t.open[v].kind != kind
    requires begun.Some? ==> w in t.open
    ensures BegunOk(kind, front, w, t, begun)
  {
    if begun.Some? {
      SinceSince(kind, front, begun.value.start.outbox, s.outbox, t.outbox);
    }
  }

  /** A step other than the poller's own begin or end on this table. */
  lemma BystanderKeepsBegun(cfg: Config, s: State, step: Step, w: Worker, kind: Kind, front: int, begun: Option<Begun>)
    requires TxsOk(s.outbox, s.open) && Apply(cfg, s, step).Some? && Polite(s, step, w, kind, front)
    requires BegunOk(kind, front, w, s, begun)
    requires !(step.Begin? && step.w == w && step.kind == kind)
    requires step.Commit? || step.Rollback? ==> step.w != w || begun.None?
    ensures Later(kind, front, s, Apply(cfg, s, step).value)
    ensures BegunOk(kind, front, w, Apply(cfg, s, step).value, begun)
  {
    var t := Apply(cfg, s, step).value;
    StepSince(cfg, s, step, w, kind, front);
    BystanderKeepsTxs(cfg, s, step);
    BegunStays(kind, front, w, s, t, begun);
  }

  lemma WatchKeepsBegin(cfg: Config, v: Watch, w: Worker, kind: Kind, front: int, batch: seq<Fetched>)
    requires TxsOk(v.state.outbox, v.state.open) && BegunOk(kind, front, w, v.state, v.begun)
    requires Apply(cfg, v.state, Begin(w, kind, batch)).Some?
    ensures BegunOk(kind, front, w, Apply(cfg, v.state, Begin(w, kind, batch)).value, Some(Begun(v.state, batch)))
    ensures v.begun.None?
  {
    IdleIsUnlocked(v.state, w, kind);
  }

  /** The poller's commit ends the run it had begun. */
  lemma WatchKeepsCommit(cfg: Config, s: State, w: Worker, kind: Kind, front: int, b: Begun)
    requires TxsOk(s.outbox, s.open) && BegunOk(kind, front, w, s, Some(b)) && Apply(cfg, s, Commit(w)).Some?
    ensures var run, t := Run(b.start, b.batch, s.open[w].tries), Apply(cfg, s, Commit(w)).value;
            Commits(kind, run) && Follows(kind, front, run, t) && BegunOk(kind, front, w, t, None)
  {
    assert TxOk(s.outbox, s.open[w]);
    forall i | 0 <= i < |b.batch| ensures b.batch[i].rid in b.start.outbox {
      assert Eligible(b.start, kind, b.batch[i].rid);
    }
    OwnCommit(kind, front, b.start.outbox, s.outbox, s.open[w]);
  }

  ghost predicate WatchOk(kind: Kind, front: int, w: Worker, origin: State, v: Watch) {
    BegunOk(kind, front, w, v.state, v.begun) && RunsOk(kind, front, origin, v.runs, Here(v))
  }

  lemma BeginKeepsWatch(cfg: Config, v: Watch, w: Worker, kind: Kind, front: int, batch: seq<Fetched>, origin: State)
    requires TxsOk(v.state.outbox, v.state.open) && Apply(cfg, v.state, Begin(w, kind, batch)).Some?
    requires WatchOk(kind, front, w, origin, v)
    ensures WatchOk(kind, front, w, origin, Next(cfg, w, kind, v, Begin(w, kind, batch)))
  {
    WatchKeepsBegin(cfg, v, w, kind, front, batch);
  }

  lemma CommitKeepsWatch(cfg: Config, v: Watch, w: Worker, kind: Kind, front: int, origin: State)
    requires TxsOk(v.state.outbox, v.state.open) && Apply(cfg, v.state, Commit(w)).Some? && v.begun.Some?
    requires WatchOk(kind, front, w, origin, v)
    ensures WatchOk(kind, front, w, origin, Next(cfg, w, kind, v, Commit(w)))
  {
    var b := v.begun.value;
    WatchKeepsCommit(cfg, v.state, w, kind, front, b);
    OneMoreRun(kind, front, origin, v.runs, Run(b.start, b.batch, v.state.open[w].tries), Apply(cfg, v.state, Commit(w)).value);
  }

  lemma RollbackKeepsWatch(cfg: Config, v: Watch, w: Worker, kind: Kind, front: int, origin: State)
    requires TxsOk(v.state.outbox, v.state.open) && Apply(cfg, v.state, Rollback(w)).Some?
    requires WatchOk(kind, front, w, origin, v)
    ensures WatchOk(kind, front, w, origin, Next(cfg, w, kind, v, Rollback(w)))
  {
    var t := Apply(cfg, v.state, Rollback(w)).value;
    assert t.outbox == v.state.outbox && t.now == v.state.now;
    assert Later(kind, front, Here(v), t);
    RunsStayOk(kind, front, origin, v.runs, Here(v), t);
  }

  lemma BystanderKeepsWatch(cfg: Config, v: Watch, step: Step, w: Worker, kind: Kind, front: int, origin: State)
    requires TxsOk(v.state.outbox, v.state.open) && Apply(cfg, v.state, step).Some?
    requires Polite(v.state, step, w, kind, front) && WatchOk(kind, front, w, origin, v)
    requires !(step.Begin? && step.w == w && step.kind == kind)
    requires step.Commit? ==> step.w != w || v.begun.None?
    requires step.Rollback? ==> step.w != w
    ensures WatchOk(kind, front, w, origin, Next(cfg, w, kind, v, step))
  {
    BystanderKeepsBegun(cfg, v.state, step, w, kind, front, v.begun);
    if v.begun.None? {
      RunsStayOk(kind, front, origin, v.runs, v.state, Apply(cfg, v.state, step).value);
    }
  }

  lemma StepKeepsWatch(cfg: Config, v: Watch, step: Step, w: Worker, kind: Kind, front: int, origin: State)
    requires Reachable(cfg, v.state) && Apply(cfg, v.state, step).Some?
    requires Polite(v.state, step, w, kind, front) && WatchOk(kind, front, w, origin, v)
    ensures WatchOk(kind, front, w, origin, Next(cfg, w, kind, v, step))
    ensures Reachable(cfg, Next(cfg, w, kind, v, step).state)
  {
    ReachableTables(cfg, v.state);
    ReachableStep(cfg, v.state, step, Apply(cfg, v.state, step).value);
    if step.Begin? && step.w == w && step.kind == kind {
      BeginKeepsWatch(cfg, v, w, kind, front, step.batch, origin);
    } else if step.Commit? && step.w == w && v.begun.Some? {
      CommitKeepsWatch(cfg, v, w, kind, front, origin);
    } else if step.Rollback? && step.w == w {
      RollbackKeepsWatch(cfg, v, w, kind, front, origin);
    } else {
      BystanderKeepsWatch(cfg, v, step, w, kind, front, origin);
    }
  }

  lemma NextState(cfg: Config, w: Worker, kind: Kind, v: Watch, step: Step)
    requires Apply(cfg, v.state, step).Some?
    ensures Next(cfg, w, kind, v, step).state == Apply(cfg, v.state, step).value
  {
  }

  lemma {:induction false} WatchedIsOk(cfg: Config, v: Watch, steps: seq<Step>, w: Worker, kind: Kind, front: int,
                                       origin: State)
    requires Reachable(cfg, v.state) && Exec(cfg, v.state, steps).Some?
    requires AllPolite(cfg, v.state, steps, w, kind, front) && WatchOk(kind, front, w, origin, v)
    ensures WatchOk(kind, front, w, origin, Watched(cfg, w, kind, v, steps))
    decreases |steps|
  {
    if steps != [] {
      var next := Next(cfg, w, kind, v, steps[0]);
      StepKeepsWatch(cfg, v, steps[0], w, kind, front, origin);
      NextState(cfg, w, kind, v, steps[0]);
      WatchedIsOk(cfg, next, steps[1..], w, kind, front, origin);
    }
  }

  /** The poller has no transaction on the table yet, and nobody else has. */
  ghost predicate Unpolled(s: State, w: Worker, kind: Kind) {
    OnlyPoller(s.open, w, kind) && Idle(s.open, w, kind)
  }

  /** The committed transactions of the only poller are runs of `QueueDrain`, whatever else goes on. */
  lemma CommittedRunsAreHistory(cfg: Config, s: State, steps: seq<Step>, w: Worker, kind: Kind, front: int)
    requires Reachable(cfg, s) && Unpolled(s, w, kind)
    requires Exec(cfg, s, steps).Some? && AllPolite(cfg, s, steps, w, kind, front)
    ensures var runs := CommittedRuns(cfg, s, w, kind, steps);
            && History(kind, front, runs)
            && (runs != [] ==> Later(kind, front, s, runs[0].start))
  {
    WatchedIsOk(cfg, Watch(s, None, []), steps, w, kind, front, s);
  }

  lemma HistoryPrefix(kind: Kind, front: int, runs: seq<Run>, n: nat)
    requires History(kind, front, runs) && n <= |runs|
    ensures History(kind, front, runs[..n])
  {
    forall i | 0 <= i < n - 1 ensures Follows(kind, front, runs[..n][i], runs[..n][i + 1].start) {
      assert Follows(kind, front, runs[i], runs[i + 1].start);
    }
  }

  lemma AheadShrinks(kind: Kind, front: int, before: map<RowId, Row>, after: map<RowId, Row>)
    requires Since(kind, front, before, after)
    ensures Ahead(after, kind, front) <= Ahead(before, kind, front)
  {
  }

  /**
   Bounded waiting in the pipeline: a due row with k others waiting at or before it is in the
   batch of one of the only poller's first 5k/50 + 1 committed transactions, in any run in
   which nothing joins ahead of it.
   */
  lemma WaitsBoundedly(cfg: Config, s: State, steps: seq<Step>, w: Worker, r: RowId, k: nat)
    requires Reachable(cfg, s) && Unpolled(s, w, r.kind) && r in s.outbox && Due(s.now, r, s.outbox[r])
    requires Exec(cfg, s, steps).Some? && AllPolite(cfg, s, steps, w, r.kind, s.outbox[r].queuedAt)
    requires |Ahead(s.outbox, r.kind, s.outbox[r].queuedAt) - {r}| == k
    requires |CommittedRuns(cfg, s, w, r.kind, steps)| > 5 * k / 50
    ensures var runs := CommittedRuns(cfg, s, w, r.kind, steps);
            exists i :: 0 <= i <= 5 * k / 50 && InBatch(runs[i].batch, r)
  {
    var front, n := s.outbox[r].queuedAt, 5 * k / 50 + 1;
    CommittedRunsAreHistory(cfg, s, steps, w, r.kind, front);
    var runs := CommittedRuns(cfg, s, w, r.kind, steps);
    var first, start := runs[..n], runs[0].start;
    HistoryPrefix(r.kind, front, runs, n);
    AheadShrinks(r.kind, front, s.outbox, start.outbox);
    var ahead := Ahead(start.outbox, r.kind, front) - {r};
    CardinalityOfSubset(ahead, Ahead(s.outbox, r.kind, front) - {r});
    SlotsBound(start.outbox, ahead);
    Waits(r.kind, first, r);
    var i :| 0 <= i < |first| && InBatch(first[i].batch, r);
    assert first[i] == runs[i];
  }

  /**
   The queue drains in the pipeline: of the only poller's first 5n + 1 committed transactions,
   n rows waiting up to a moment already past, one finds all of those rows settled.
   */
  lemma Drains(cfg: Config, s: State, steps: seq<Step>, w: Worker, kind: Kind, front: int)
    requires Reachable(cfg, s) && Unpolled(s, w, kind) && front <= s.now
    requires Exec(cfg, s, steps).Some? && AllPolite(cfg, s, steps, w, kind, front)
    requires |CommittedRuns(cfg, s, w, kind, steps)| > 5 * |Ahead(s.outbox, kind, front)|
    ensures var runs := CommittedRuns(cfg, s, w, kind, steps);
            exists i :: 0 <= i < |runs| && Ahead(runs[i].start.outbox, kind, front) == {}
  {
    CommittedRunsAreHistory(cfg, s, steps, w, kind, front);
    var runs := CommittedRuns(cfg, s, w, kind, steps);
    var start := runs[0].start;
    var ahead := Ahead(start.outbox, kind, front);
    AheadShrinks(kind, front, s.outbox, start.outbox);
    CardinalityOfSubset(ahead, Ahead(s.outbox, kind, front));
    SlotsBound(start.outbox, ahead);
    var first := runs[..|Slots(start.outbox, ahead)| + 1];
    HistoryPrefix(kind, front, runs, |first|);
    QueueDrains(kind, front, first);
    var i :| 0 <= i < |first| && Ahead(first[i].start.outbox, kind, front) == {};
    assert first[i] == runs[i];
  }
}
