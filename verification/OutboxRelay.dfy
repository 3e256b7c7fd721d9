/**
 One call of `relay()` as the worker executes it: a transaction, a loop over the fetched
 batch with a try/catch around each row, and the collected tasks released after the commit.

 The class holds the tables and the outside world; what the database and the remote
 services answer is passed in.  Every method is shown to be a run of single steps of the
 pipeline, so whatever holds in every run of those steps holds of this code.
 */
module OutboxRelay {
  import opened Options
  import opened OutboxModel
  import opened OutboxInvariants
  import opened OutboxTheorems
  import opened RelaySpec

  datatype Processed = Returned(task: Option<Task>) | Thrown

  lemma ExecSnoc(cfg: Config, s: State, steps: seq<Step>, step: Step)
    requires Exec(cfg, s, steps).Some?
    ensures Exec(cfg, s, steps + [step]) == Apply(cfg, Exec(cfg, s, steps).value, step)
  {
    ExecConcat(cfg, s, steps, [step]);
    assert [step][1..] == [];
  }

  /** The relay's transaction is open and `row` is the one its loop has reached. */
  ghost predicate Ready(s: State, w: Worker, kind: Kind, row: Fetched) {
    && Busy(s, w)
    && Current(s, w) == row
    && s.open[w].kind == kind == row.rid.kind
    && s.open[w].effect.None?
  }

  /** Nothing a relay transaction writes is durable yet. */
  ghost predicate Untouched(before: State, after: State) {
    after.outbox == before.outbox && after.committed == before.committed && after.live == before.live
  }

  /** The row in progress got the effect; of the rest, only what is outside the transaction may differ. */
  ghost predicate Effected(before: State, after: State, w: Worker, e: Effect) {
    && w in before.open
    && after == before.(open := before.open[w := before.open[w].(effect := Some(e))],
                        inApp := after.inApp, published := after.published, sends := after.sends)
  }

  function ListOf(task: Option<Task>): seq<Task> {
    match task
    case Some(t) => [t]
    case None => []
  }

  /** The status updates of the first `n` rows go through. */
  ghost predicate UpdatesSucceed(incidents: seq<Incident>, n: nat)
    requires n <= |incidents|
  {
    forall i :: 0 <= i < n ==> !incidents[i].txFails
  }

  /** How far the loop over the batch came: to its end, or to the first row whose status update failed. */
  ghost predicate Reached(incidents: seq<Incident>, reached: nat) {
    && reached <= |incidents|
    && if UpdatesSucceed(incidents, |incidents|) then reached == |incidents|
       else reached > 0 && incidents[reached - 1].txFails && UpdatesSucceed(incidents, reached - 1)
  }

  lemma UpdateFailed(incidents: seq<Incident>, n: nat)
    requires n < |incidents| && incidents[n].txFails && UpdatesSucceed(incidents, n)
    ensures !UpdatesSucceed(incidents, |incidents|) && Reached(incidents, n + 1)
  {
  }

  lemma UpdateSucceeded(incidents: seq<Incident>, n: nat)
    requires n < |incidents| && !incidents[n].txFails && UpdatesSucceed(incidents, n)
    ensures UpdatesSucceed(incidents, n + 1)
  {
  }

  /**
   What `processRow` did for one row.  It touched nothing of the transaction; a row of a
   recipient who has opted out, no row of anybody else, was suppressed; what it left behind
   outside, and whether it threw, follows from what happened around the row.
   */
  ghost predicate Handled(cfg: Config, before: State, after: State, w: Worker, row: Fetched, x: Incident,
                          result: Processed)
  {
    && w in before.open && w in after.open
    && after == before.(open := before.open[w := before.open[w].(effect := after.open[w].effect)],
                        inApp := after.inApp, published := after.published, sends := after.sends)
    && (row.row.linked ==> (after.open[w].effect == Some(Suppressed) <==> x.suppressed))
    && LeavesOutside(cfg, before, after, row, x)
    && (result.Thrown? <==> Throws(cfg, row, x))
    && (result.Returned? ==>
          && after.open[w].effect.Some?
          && result.task == TaskOf(after.open[w].effect.value, x.emailEnabled)
          && ListOf(result.task) == TaskFor(cfg, before.inApp, row, x))
  }

  /** The local variables of the loop over the batch: the table as the transaction sees it, the tries, the tasks. */
  ghost predicate Recorded(cfg: Config, outbox: map<RowId, Row>, inApp: map<Id, Key>, batch: seq<Fetched>,
                           incidents: seq<Incident>, view: map<RowId, Row>, tries: seq<Try>, tasks: seq<Task>)
    requires |tries| <= |batch| == |incidents|
  {
    && OutcomesMatch(cfg, batch, incidents, tries)
    && view == Marked(outbox, batch, tries)
    && Nids(tasks) == CreatedBy(tries)
    && tasks == TasksBy(cfg, inApp, batch, incidents, |tries|)
  }

  /** Where the loop over the batch stands after the tries so far. */
  ghost predicate LoopAt(cfg: Config, start: State, s: State, w: Worker, kind: Kind, batch: seq<Fetched>,
                         incidents: seq<Incident>, view: map<RowId, Row>, tries: seq<Try>, tasks: seq<Task>)
    requires |tries| <= |batch| == |incidents|
  {
    && Untouched(start, s)
    && LeftOutside(cfg, start, s, batch, incidents, |tries|)
    && Recorded(cfg, start.outbox, start.inApp, batch, incidents, view, tries, tasks)
    && s.open == start.open[w := Tx(kind, batch, tries, None, tasks)]
  }

  /** What one pass through the loop does when the status update goes through. */
  ghost predicate Tried(cfg: Config, before: State, after: State, w: Worker, row: Fetched, x: Incident,
                        outcome: Outcome, tasks: seq<Task>)
  {
    && Busy(before, w)
    && Untouched(before, after)
    && LeavesOutside(cfg, before, after, row, x)
    && OutcomeFits(cfg, row, x, outcome)
    && Nids(tasks) == CreatedIn(outcome)
    && tasks == TaskFor(cfg, before.inApp, row, x)
    && after.open == WithTry(before, w, outcome, tasks).open
  }

  lemma LoopStops(cfg: Config, start: State, before: State, after: State, w: Worker, kind: Kind, batch: seq<Fetched>,
                  incidents: seq<Incident>, view: map<RowId, Row>, tries: seq<Try>, tasks: seq<Task>)
    requires |tries| < |batch| == |incidents|
    requires LoopAt(cfg, start, before, w, kind, batch, incidents, view, tries, tasks)
    requires Untouched(before, after) && after.open == before.open - {w}
    requires LeavesOutside(cfg, before, after, batch[|tries|], incidents[|tries|])
    ensures Untouched(start, after) && after.open == start.open - {w}
    ensures LeftOutside(cfg, start, after, batch, incidents, |tries| + 1)
  {
    OneMoreOutside(cfg, start, before, after, batch, incidents, |tries|);
    Replaced(start.open, w, Tx(kind, batch, tries, None, tasks));
  }

  lemma NextIdIsNew(cfg: Config, start: State, s: State, batch: seq<Fetched>, incidents: seq<Incident>, n: nat)
    requires n < |batch| == |incidents| && FreshIds(start.inApp, incidents, 0)
    requires LeftOutside(cfg, start, s, batch, incidents, n)
    ensures incidents[n].newId !in s.inApp
  {
    IdsInOrder(cfg, start.inApp, batch, incidents, n);
  }

  lemma TriedSoFar(cfg: Config, before: State, mid: State, w: Worker, row: Fetched, x: Incident, result: Processed,
                   outcome: Outcome, tasks: seq<Task>)
    requires Busy(before, w) && Handled(cfg, before, mid, w, row, x, result)
    requires outcome == if result.Thrown? then Threw else Succeeded(mid.open[w].effect.value)
    requires tasks == (if result.Returned? then ListOf(result.task) else []) && Nids(tasks) == CreatedIn(outcome)
    ensures Busy(mid, w) && Current(mid, w) == Current(before, w)
    ensures Tried(cfg, before, WithTry(mid, w, outcome, tasks), w, row, x, outcome, tasks)
  {
    assert Throws(cfg, row, x) ==> TaskFor(cfg, before.inApp, row, x) == [];
  }

  lemma LoopGoesOn(cfg: Config, start: State, before: State, after: State, w: Worker, kind: Kind, batch: seq<Fetched>,
                   incidents: seq<Incident>, view: map<RowId, Row>, tries: seq<Try>, tasks: seq<Task>,
                   outcome: Outcome, more: seq<Task>)
    requires |tries| < |batch| == |incidents|
    requires LoopAt(cfg, start, before, w, kind, batch, incidents, view, tries, tasks)
    requires Tried(cfg, before, after, w, batch[|tries|], incidents[|tries|], outcome, more)
    ensures LoopAt(cfg, start, after, w, kind, batch, incidents, Mark(view, batch[|tries|], outcome),
                   tries + [Try(batch[|tries|].rid, outcome)], tasks + more)
  {
    OneMoreOutside(cfg, start, before, after, batch, incidents, |tries|);
    OneMoreRecorded(cfg, start.outbox, start.inApp, batch, incidents, view, tries, tasks, outcome, more);
    TryRecorded(before, w, start.open, outcome, more);
  }

  /**
   What a committed run leaves in the tables: each row of the batch as its own incident says,
   whatever happened to its neighbours, the tries in the log and the tasks released.
   */
  ghost predicate Commits(cfg: Config, before: State, after: State, batch: seq<Fetched>, incidents: seq<Incident>,
                          tries: seq<Try>, tasks: seq<Task>)
    requires |batch| == |incidents|
  {
    && |tries| == |batch|
    && Recorded(cfg, before.outbox, before.inApp, batch, incidents, after.outbox, tries, tasks)
    && TableEnds(cfg, before.outbox, after.outbox, batch, incidents)
    && after.committed == before.committed + tries
    && after.live == before.live + tasks
  }

  function TaskOf(effect: Effect, emailEnabled: bool): Option<Task> {
    match effect
    case Created(n) => Some(Task(n, emailEnabled, false))
    case _ => None
  }

  lemma StillReachable(cfg: Config, s: State, steps: seq<Step>)
    requires Exec(cfg, s, steps).Some?
    ensures Reachable(cfg, s) ==> Reachable(cfg, Exec(cfg, s, steps).value)
  {
    if Reachable(cfg, s) {
      ReachableExtends(cfg, s, steps);
    }
  }

  lemma ExecCons(cfg: Config, s: State, step: Step, steps: seq<Step>)
    requires Apply(cfg, s, step).Some?
    ensures Exec(cfg, s, [step] + steps) == Exec(cfg, Apply(cfg, s, step).value, steps)
  {
    assert ([step] + steps)[1..] == steps;
  }

  lemma RunCommits(cfg: Config, before: State, after: State, kind: Kind, batch: seq<Fetched>, incidents: seq<Incident>,
                   tries: seq<Try>, tasks: seq<Task>)
    requires ValidBatch(before, kind, batch) && |tries| == |batch| == |incidents|
    requires Recorded(cfg, before.outbox, before.inApp, batch, incidents, after.outbox, tries, tasks)
    requires after.committed == before.committed + tries && after.live == before.live + tasks
    ensures Commits(cfg, before, after, batch, incidents, tries, tasks)
  {
    MarksEndTable(cfg, before, kind, batch, incidents, tries);
  }

  lemma BeginStep(cfg: Config, s: State, w: Worker, kind: Kind, batch: seq<Fetched>)
    requires w !in s.open && ValidBatch(s, kind, batch)
    ensures Apply(cfg, s, Begin(w, kind, batch)) == Some(s.(open := s.open[w := Tx(kind, batch, [], None, [])]))
  {
  }

  lemma RollbackStep(cfg: Config, s: State, w: Worker)
    requires w in s.open
    ensures Apply(cfg, s, Rollback(w)) == Some(WithoutTx(s, w))
  {
  }

  lemma MarkSentStep(cfg: Config, s: State, w: Worker, emailEnabled: bool)
    requires Busy(s, w) && s.open[w].effect.Some?
    ensures var e := s.open[w].effect.value;
            var tasks := ListOf(TaskOf(e, emailEnabled));
            Apply(cfg, s, MarkSent(w, emailEnabled)) == Some(WithTry(s, w, Succeeded(e), tasks))
  {
  }

  lemma MarkFailedStep(cfg: Config, s: State, w: Worker)
    requires Busy(s, w)
    ensures Apply(cfg, s, MarkFailed(w)) == Some(WithTry(s, w, Threw, []))
  {
  }

  lemma CommitStep(cfg: Config, s: State, w: Worker)
    requires w in s.open && |s.open[w].tries| == |s.open[w].batch|
    ensures Apply(cfg, s, Commit(w)) == Some(WithoutTx(s, w).(
              outbox := Marked(s.outbox, s.open[w].batch, s.open[w].tries),
              committed := s.committed + s.open[w].tries,
              live := s.live + s.open[w].tasks))
  {
  }

  // ── What each way through `processRow` amounts to ──────────────────────────

  lemma SkipHandled(cfg: Config, s: State, w: Worker, row: Fetched, x: Incident)
    requires w in s.open && Ready(s, w, s.open[w].kind, row)
    requires (row.row.linked && x.suppressed) || (row.rid.kind.Events? && !cfg.topicSet)
    ensures var e := if row.row.linked && x.suppressed then Suppressed else Unrouted;
            Handled(cfg, s, WithEffect(s, w, e), w, row, x, Returned(None))
  {
  }

  lemma FailureHandled(cfg: Config, s: State, w: Worker, row: Fetched, x: Incident)
    requires w in s.open && Ready(s, w, s.open[w].kind, row)
    requires !(row.row.linked && x.suppressed) && !(row.rid.kind.Events? && !cfg.topicSet)
    requires x.callFails || (row.rid.kind.Notifications? && UuidOf(cfg, row).None?)
    ensures Handled(cfg, s, s, w, row, x, Thrown)
  {
    assert s == s.(open := s.open[w := s.open[w].(effect := s.open[w].effect)]);
  }

  lemma CallHandled(cfg: Config, before: State, after: State, w: Worker, row: Fetched, x: Incident, e: Effect,
                    result: Processed)
    requires w in before.open && Ready(before, w, before.open[w].kind, row) && CallMade(cfg, row, x)
    requires Effected(before, after, w, e) && !e.Suppressed? && LeavesOutside(cfg, before, after, row, x)
    requires result == if x.lateFailure then Thrown else Returned(TaskOf(e, x.emailEnabled))
    requires ListOf(TaskOf(e, x.emailEnabled))
             == if Inserts(cfg, before.inApp, row, x) then [Task(x.newId, x.emailEnabled, false)] else []
    ensures Handled(cfg, before, after, w, row, x, result)
  {
  }

  lemma NotifyHandled(cfg: Config, before: State, after: State, w: Worker, row: Fetched, x: Incident, uuid: Key,
                      result: Processed)
    requires w in before.open && Ready(before, w, before.open[w].kind, row) && row.rid.kind.Notifications?
    requires UuidOf(cfg, row) == Some(uuid) && !(row.row.linked && x.suppressed) && !x.callFails
    requires var e := if HasUuid(before.inApp, uuid) then Deduplicated else Created(x.newId);
             && Effected(before, after, w, e)
             && result == if x.lateFailure then Thrown else Returned(TaskOf(e, x.emailEnabled))
    requires after.inApp == if HasUuid(before.inApp, uuid) then before.inApp else before.inApp[x.newId := uuid]
    requires after.published == before.published && after.sends == before.sends
    ensures Handled(cfg, before, after, w, row, x, result)
  {
    var e := if HasUuid(before.inApp, uuid) then Deduplicated else Created(x.newId);
    assert PublishFor(cfg, row, x) == [] && SendFor(cfg, row, x) == [];
    CallHandled(cfg, before, after, w, row, x, e, result);
  }

  lemma BatchKinds(s: State, kind: Kind, batch: seq<Fetched>)
    requires ValidBatch(s, kind, batch)
    ensures forall i :: 0 <= i < |batch| ==> batch[i].rid.kind == kind
  {
    forall i | 0 <= i < |batch| ensures batch[i].rid.kind == kind {
      assert Eligible(s, kind, batch[i].rid);
    }
  }

  class Relay {
    const cfg: Config
    const worker: Worker
    const kind: Kind

    // the tables, and everything done outside them so far
    var world: State

    /** The event relay: a publish keyed by the row's id. */
    method PublishRow(row: Fetched, incident: Incident) returns (result: Processed, ghost steps: seq<Step>)
      requires Ready(world, worker, kind, row) && kind.Events? && cfg.topicSet
      modifies this
      ensures Exec(cfg, old(world), steps) == Some(world)
      ensures Effected(old(world), world, worker, Published)
      ensures world.published == old(world).published + [row.rid.id]
      ensures world.sends == old(world).sends && world.inApp == old(world).inApp
      ensures result == if incident.lateFailure then Thrown else Returned(None)
      ensures CallMade(cfg, row, incident) ==> Handled(cfg, old(world), world, worker, row, incident, result)
    {
      ghost var before := world;
      world := WithEffect(world, worker, Published).(published := world.published + [row.rid.id]);
      result, steps := if incident.lateFailure then Thrown else Returned(None), [Publish(worker)];
      assert steps[1..] == [];
      if CallMade(cfg, row, incident) {
        CallHandled(cfg, before, world, worker, row, incident, Published, result);
      }
    }

    /** The email relay: a send under the key that all tries of the row share. */
    method SendRow(row: Fetched, incident: Incident) returns (result: Processed, ghost steps: seq<Step>)
      requires Ready(world, worker, kind, row) && kind.Emails?
      modifies this
      ensures Exec(cfg, old(world), steps) == Some(world)
      ensures Effected(old(world), world, worker, Accepted)
      ensures world.sends == old(world).sends + [Send(row.rid, if row.row.key.Some? then row.row.key.value else row.rid.id)]
      ensures world.published == old(world).published && world.inApp == old(world).inApp
      ensures result == if incident.lateFailure then Thrown else Returned(None)
      ensures CallMade(cfg, row, incident) ==> Handled(cfg, old(world), world, worker, row, incident, result)
    {
      ghost var before := world;
      world := WithEffect(world, worker, Accepted)
                 .(sends := world.sends + [Send(row.rid, SourceKey(row.rid, row.row.key))]);
      result, steps := if incident.lateFailure then Thrown else Returned(None), [SendEmail(worker)];
      assert steps[1..] == [];
      if CallMade(cfg, row, incident) {
        CallHandled(cfg, before, world, worker, row, incident, Accepted, result);
      }
    }

    /** The notification relay: an insert unless the source key is taken; the task only for a new row. */
    method NotifyRow(row: Fetched, incident: Incident) returns (result: Processed, ghost steps: seq<Step>)
      requires Ready(world, worker, kind, row) && kind.Notifications? && incident.newId !in world.inApp
      modifies this
      ensures Exec(cfg, old(world), steps) == Some(world)
      ensures UuidOf(cfg, row).None? ==> world == old(world)
      ensures UuidOf(cfg, row).Some? ==>
                var uuid := UuidOf(cfg, row).value;
                && Effected(old(world), world, worker,
                            if HasUuid(old(world).inApp, uuid) then Deduplicated else Created(incident.newId))
                && world.inApp == if HasUuid(old(world).inApp, uuid) then old(world).inApp
                                  else old(world).inApp[incident.newId := uuid]
      ensures world.published == old(world).published && world.sends == old(world).sends
      ensures result.Thrown? <==> UuidOf(cfg, row).None? || incident.lateFailure
      ensures result.Returned? ==>
                result.task == if HasUuid(old(world).inApp, UuidOf(cfg, row).value) then None
                               else Some(Task(incident.newId, incident.emailEnabled, false))
      ensures !(row.row.linked && incident.suppressed) && !incident.callFails ==>
                Handled(cfg, old(world), world, worker, row, incident, result)
    {
      ghost var before := world;
      var uuid := cfg.uuid(SourceKey(row.rid, row.row.key));
      ghost var must := !(row.row.linked && incident.suppressed) && !incident.callFails;
      if uuid.None? {
        result, steps := Thrown, [];
        if must { FailureHandled(cfg, world, worker, row, incident); }
      } else {
        var effect;
        if HasUuid(world.inApp, uuid.value) {
          effect := Deduplicated;
          world := WithEffect(world, worker, effect);
        } else {
          effect := Created(incident.newId);
          world := WithEffect(world, worker, effect).(inApp := world.inApp[incident.newId := uuid.value]);
        }
        result := if incident.lateFailure then Thrown else Returned(TaskOf(effect, incident.emailEnabled));
        steps := [Notify(worker, incident.newId)];
        assert steps[1..] == [];
        if must { NotifyHandled(cfg, before, world, worker, row, incident, uuid.value, result); }
      }
    }

    /**
     `processRow` of the three subclasses.  It touches nothing of the transaction, and a row of
     a recipient who has opted out, no row of anybody else, is suppressed.  What it leaves
     behind outside, and whether it throws, follows from what happens around the row.
     */
    method ProcessRow(row: Fetched, incident: Incident) returns (result: Processed, ghost steps: seq<Step>)
      requires Ready(world, worker, kind, row)
      requires incident.newId !in world.inApp
      modifies this
      ensures Exec(cfg, old(world), steps) == Some(world)
      ensures Handled(cfg, old(world), world, worker, row, incident, result)
    {
      if row.row.linked && incident.suppressed {
        SkipHandled(cfg, world, worker, row, incident);
        world := WithEffect(world, worker, Suppressed);
        steps := [Suppress(worker)];
        result := Returned(None);
      } else if kind.Events? && !cfg.topicSet {
        SkipHandled(cfg, world, worker, row, incident);
        world := WithEffect(world, worker, Unrouted);
        steps := [Unroute(worker)];
        result := Returned(None);
      } else if incident.callFails {
        FailureHandled(cfg, world, worker, row, incident);
        result, steps := Thrown, [];
      } else {
        match kind {
          case Events => result, steps := PublishRow(row, incident);
          case Emails => result, steps := SendRow(row, incident);
          case Notifications => result, steps := NotifyRow(row, incident);
        }
      }
    }

    /** After `processRow`: mark sent and collect the task; on a throw, mark failed. */
    method Settle(row: Fetched, result: Processed, emailEnabled: bool, view: map<RowId, Row>)
      returns (after: map<RowId, Row>, tasks: seq<Task>, outcome: Outcome, ghost step: Step)
      requires Busy(world, worker) && Current(world, worker) == row
      requires result.Returned? ==> world.open[worker].effect.Some?
                                    && result.task == TaskOf(world.open[worker].effect.value, emailEnabled)
      modifies this
      ensures Apply(cfg, old(world), step) == Some(world)
      ensures world == WithTry(old(world), worker, outcome, tasks)
      ensures after == Mark(view, row, outcome) && Nids(tasks) == CreatedIn(outcome)
      ensures outcome == if result.Thrown? then Threw else Succeeded(old(world).open[worker].effect.value)
      ensures tasks == if result.Returned? then ListOf(result.task) else []
    {
      match result {
        case Returned(task) =>
          outcome := Succeeded(world.open[worker].effect.value);
          after := MarkRowSent(view, row.rid);
          tasks := ListOf(task);
          step := MarkSent(worker, emailEnabled);
          MarkSentStep(cfg, world, worker, emailEnabled);
        case Thrown =>
          outcome, tasks := Threw, [];
          var newAttempts := row.row.attempts + 1;
          var newStatus := if newAttempts >= MAX_ATTEMPTS then Failed else Pending;
          after := MarkRowFailed(view, row.rid, newAttempts, newStatus);
          step := MarkFailed(worker);
          MarkFailedStep(cfg, world, worker);
      }
      world := WithTry(world, worker, outcome, tasks);
    }

    /**
     The body of the batch loop.  `view` is the table as the transaction sees it.  Only a
     failing status update aborts the transaction; a row whose try throws is marked and the
     loop goes on.
     */
    method TryRow(row: Fetched, incident: Incident, view: map<RowId, Row>)
      returns (aborted: bool, after: map<RowId, Row>, tasks: seq<Task>, outcome: Outcome, ghost steps: seq<Step>)
      requires Ready(world, worker, kind, row)
      requires incident.newId !in world.inApp
      modifies this
      ensures Exec(cfg, old(world), steps) == Some(world)
      ensures Untouched(old(world), world)
      ensures LeavesOutside(cfg, old(world), world, row, incident)
      ensures aborted == incident.txFails
      ensures aborted ==> world.open == old(world).open - {worker}
      ensures !aborted ==>
                && Tried(cfg, old(world), world, worker, row, incident, outcome, tasks)
                && after == Mark(view, row, outcome)
    {
      ghost var start := world;
      var result;
      result, steps := ProcessRow(row, incident);
      ghost var last: Step;
      aborted := incident.txFails;
      if aborted {
        after, tasks, outcome, last := view, [], Threw, Rollback(worker);
        RollbackStep(cfg, world, worker);
        world := WithoutTx(world, worker);
      } else {
        ghost var mid := world;
        after, tasks, outcome, last := Settle(row, result, incident.emailEnabled, view);
        TriedSoFar(cfg, start, mid, worker, row, incident, result, outcome, tasks);
      }
      ExecSnoc(cfg, start, steps, last);
      steps := steps + [last];
    }

    /**
     The callback of the transaction: the loop over the fetched batch.  `view` is the table as
     the transaction sees it, which is what its commit would make durable.
     */
    method TryAll(batch: seq<Fetched>, incidents: seq<Incident>)
      returns (aborted: bool, reached: nat, view: map<RowId, Row>, tries: seq<Try>, tasks: seq<Task>,
               ghost steps: seq<Step>)
      requires worker in world.open && world.open[worker] == Tx(kind, batch, [], None, [])
      requires forall i :: 0 <= i < |batch| ==> batch[i].rid.kind == kind
      requires |incidents| == |batch| && FreshIds(world.inApp, incidents, 0)
      modifies this
      ensures Exec(cfg, old(world), steps) == Some(world)
      ensures Untouched(old(world), world)
      ensures Reached(incidents, reached)
      ensures LeftOutside(cfg, old(world), world, batch, incidents, reached)
      ensures aborted <==> !UpdatesSucceed(incidents, |incidents|)
      ensures aborted ==> world.open == old(world).open - {worker}
      ensures !aborted ==>
                && |tries| == |batch|
                && Recorded(cfg, old(world).outbox, old(world).inApp, batch, incidents, view, tries, tasks)
                && world.open == old(world).open[worker := Tx(kind, batch, tries, None, tasks)]
    {
      ghost var start := world;
      view, tries, tasks, steps, aborted, reached := world.outbox, [], [], [], false, 0;
      while reached < |batch|
        invariant reached <= |batch| && |tries| == reached
        invariant UpdatesSucceed(incidents, reached)
        invariant Exec(cfg, start, steps) == Some(world)
        invariant LoopAt(cfg, start, world, worker, kind, batch, incidents, view, tries, tasks)
      {
        ghost var before := world;
        var row, incident := batch[reached], incidents[reached];
        CurrentOf(world, worker, kind, batch, tries, tasks);
        NextIdIsNew(cfg, start, world, batch, incidents, reached);
        var after, task, outcome;
        ghost var more;
        aborted, after, task, outcome, more := TryRow(row, incident, view);
        ExecConcat(cfg, start, steps, more);
        steps := steps + more;
        if aborted {
          LoopStops(cfg, start, before, world, worker, kind, batch, incidents, view, tries, tasks);
          UpdateFailed(incidents, reached);
          reached := reached + 1;
          return;
        }
        UpdateSucceeded(incidents, reached);
        LoopGoesOn(cfg, start, before, world, worker, kind, batch, incidents, view, tries, tasks, outcome, task);
        reached := reached + 1;
        view, tries, tasks := after, tries + [Try(row.rid, outcome)], tasks + task;
      }
    }

    /** The end of the transaction: its writes become durable and its tasks are released, or neither. */
    method Close(view: map<RowId, Row>, tries: seq<Try>, tasks: seq<Task>, commitFails: bool) returns (ghost step: Step)
      requires worker in world.open && |tries| == |world.open[worker].batch|
      requires world.open[worker] == Tx(kind, world.open[worker].batch, tries, None, tasks)
      requires view == Marked(world.outbox, world.open[worker].batch, tries)
      modifies this
      ensures Apply(cfg, old(world), step) == Some(world)
      ensures world == if commitFails then WithoutTx(old(world), worker)
                       else WithoutTx(old(world), worker).(
                              outbox := view, committed := old(world).committed + tries, live := old(world).live + tasks)
    {
      if commitFails {
        step := Rollback(worker);
        RollbackStep(cfg, world, worker);
        world := WithoutTx(world, worker);
      } else {
        step := Commit(worker);
        CommitStep(cfg, world, worker);
        world := WithoutTx(world, worker).(
          outbox := view, committed := world.committed + tries, live := world.live + tasks);
      }
    }

    /** The rest of the transaction once the batch is fetched: the loop, then the commit or the rollback. */
    method Transact(batch: seq<Fetched>, incidents: seq<Incident>, commitFails: bool)
      returns (ok: bool, reached: nat, tries: seq<Try>, tasks: seq<Task>, ghost steps: seq<Step>)
      requires worker in world.open && world.open[worker] == Tx(kind, batch, [], None, [])
      requires forall i :: 0 <= i < |batch| ==> batch[i].rid.kind == kind
      requires |incidents| == |batch| && FreshIds(world.inApp, incidents, 0)
      modifies this
      ensures Exec(cfg, old(world), steps) == Some(world)
      ensures world.open == old(world).open - {worker}
      ensures ok <==> !commitFails && UpdatesSucceed(incidents, |incidents|)
      ensures ok ==>
                && |tries| == |batch|
                && Recorded(cfg, old(world).outbox, old(world).inApp, batch, incidents, world.outbox, tries, tasks)
                && world.committed == old(world).committed + tries
                && world.live == old(world).live + tasks
      ensures !ok ==> Untouched(old(world), world)
      ensures Reached(incidents, reached) && LeftOutside(cfg, old(world), world, batch, incidents, reached)
    {
      ghost var start := world;
      var aborted, view;
      aborted, reached, view, tries, tasks, steps := TryAll(batch, incidents);
      ok := !aborted && !commitFails;
      if !aborted {
        Replaced(start.open, worker, Tx(kind, batch, tries, None, tasks));
        ghost var last;
        last := Close(view, tries, tasks, commitFails);
        ExecSnoc(cfg, start, steps, last);
        steps := steps + [last];
      }
    }

    /**
     `relay()` when no other call is in progress.  `batch` is what the SELECT returned.
     Either the transaction commits: the table becomes what the marks of its tries make of
     it and its tasks are released; or it rolls back: table, log and tasks are as before.
     It commits unless a status update or the commit itself fails, and then each row ends as
     its own incident says, whatever happened to its neighbours.  In both cases what was done
     outside the transaction stays done.
     */
    method Run(batch: seq<Fetched>, incidents: seq<Incident>, commitFails: bool)
      returns (ok: bool, reached: nat, tries: seq<Try>, tasks: seq<Task>, ghost steps: seq<Step>)
      requires worker !in world.open && ValidBatch(world, kind, batch)
      requires |incidents| == |batch| && FreshIds(world.inApp, incidents, 0)
      modifies this
      ensures Exec(cfg, old(world), steps) == Some(world)
      ensures Reachable(cfg, old(world)) ==> Reachable(cfg, world)
      ensures world.open == old(world).open
      ensures ok <==> !commitFails && UpdatesSucceed(incidents, |incidents|)
      ensures ok ==> Commits(cfg, old(world), world, batch, incidents, tries, tasks)
      ensures !ok ==> Untouched(old(world), world)
      ensures Reached(incidents, reached) && LeftOutside(cfg, old(world), world, batch, incidents, reached)
    {
      ghost var start := world;
      ghost var first := Begin(worker, kind, batch);
      BatchKinds(start, kind, batch);
      BeginStep(cfg, start, worker, kind, batch);
      world := world.(open := world.open[worker := Tx(kind, batch, [], None, [])]);
      ok, reached, tries, tasks, steps := Transact(batch, incidents, commitFails);
      ExecCons(cfg, start, first, steps);
      steps := [first] + steps;
      if ok { RunCommits(cfg, start, world, kind, batch, incidents, tries, tasks); }
      OpenAndClose(start.open, worker, Tx(kind, batch, [], None, []));
      StillReachable(cfg, start, steps);
    }
  }

  lemma OpenAndClose(open: map<Worker, Tx>, w: Worker, tx: Tx)
    requires w !in open
    ensures open[w := tx] - {w} == open
  {
  }

  lemma Replaced(open: map<Worker, Tx>, w: Worker, tx: Tx)
    ensures open[w := tx] - {w} == open - {w}
  {
  }

  lemma CurrentOf(s: State, w: Worker, kind: Kind, batch: seq<Fetched>, tries: seq<Try>, tasks: seq<Task>)
    requires w in s.open && s.open[w] == Tx(kind, batch, tries, None, tasks)
    requires |tries| < |batch| && batch[|tries|].rid.kind == kind
    ensures Ready(s, w, kind, batch[|tries|])
  {
  }

  lemma TryRecorded(s: State, w: Worker, open: map<Worker, Tx>, outcome: Outcome, tasks: seq<Task>)
    requires Busy(s, w) && s.open == open[w := s.open[w]]
    ensures var tx := s.open[w];
            WithTry(s, w, outcome, tasks).open
            == open[w := Tx(tx.kind, tx.batch, tx.tries + [Try(Current(s, w).rid, outcome)], None, tx.tasks + tasks)]
  {
  }

  lemma OneMoreMatch(cfg: Config, batch: seq<Fetched>, incidents: seq<Incident>, tries: seq<Try>, outcome: Outcome)
    requires |tries| < |batch| == |incidents| && OutcomesMatch(cfg, batch, incidents, tries)
    requires OutcomeFits(cfg, batch[|tries|], incidents[|tries|], outcome)
    ensures OutcomesMatch(cfg, batch, incidents, tries + [Try(batch[|tries|].rid, outcome)])
  {
  }

  lemma OneMoreMarked(outbox: map<RowId, Row>, batch: seq<Fetched>, tries: seq<Try>, outcome: Outcome)
    requires |tries| < |batch|
    ensures Marked(outbox, batch, tries + [Try(batch[|tries|].rid, outcome)])
            == Mark(Marked(outbox, batch, tries), batch[|tries|], outcome)
  {
    assert (tries + [Try(batch[|tries|].rid, outcome)])[..|tries|] == tries;
  }

  lemma OneMoreCreated(tries: seq<Try>, last: Try, tasks: seq<Task>, more: seq<Task>)
    requires Nids(tasks) == CreatedBy(tries) && Nids(more) == CreatedIn(last.outcome)
    ensures Nids(tasks + more) == CreatedBy(tries + [last])
  {
    CreatedBySnoc(tries, last);
    assert Nids(tasks + more) == Nids(tasks) + Nids(more);
  }

  /** One more try: its mark on the table, and the tasks collected so far. */
  lemma OneMoreRecorded(cfg: Config, outbox: map<RowId, Row>, inApp: map<Id, Key>, batch: seq<Fetched>,
                        incidents: seq<Incident>, view: map<RowId, Row>, tries: seq<Try>, tasks: seq<Task>,
                        outcome: Outcome, more: seq<Task>)
    requires |tries| < |batch| == |incidents|
    requires Recorded(cfg, outbox, inApp, batch, incidents, view, tries, tasks)
    requires OutcomeFits(cfg, batch[|tries|], incidents[|tries|], outcome)
    requires Nids(more) == CreatedIn(outcome)
    requires more == TaskFor(cfg, InsertedBy(cfg, inApp, batch, incidents, |tries|), batch[|tries|], incidents[|tries|])
    ensures Recorded(cfg, outbox, inApp, batch, incidents, Mark(view, batch[|tries|], outcome),
                     tries + [Try(batch[|tries|].rid, outcome)], tasks + more)
  {
    var last := Try(batch[|tries|].rid, outcome);
    OneMoreMatch(cfg, batch, incidents, tries, outcome);
    OneMoreMarked(outbox, batch, tries, outcome);
    OneMoreCreated(tries, last, tasks, more);
    assert TasksBy(cfg, inApp, batch, incidents, |tries| + 1) == tasks + more;
  }
}
