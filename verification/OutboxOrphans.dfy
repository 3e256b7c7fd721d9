/**
 Notifications that are delivered in-app but never pushed.

 The in-app insert goes through the connection pool and survives; the task that would push
 the notification belongs to the relay transaction and does not.  This module says exactly
 when the two part, shows that a run reaches that point, and that nothing repairs it.
 */
module OutboxOrphans {
  import opened Options
  import opened OutboxModel
  import opened OutboxInvariants
  import opened OutboxPreservation
  import opened OutboxTheorems

  ghost predicate ClaimedIn(done: seq<Id>, claims: map<Worker, seq<Id>>, nid: Id) {
    || nid in done
    || exists w :: w in claims && nid in claims[w]
  }

  /** Some committed or open try claims the notification as its own creation. */
  ghost predicate Claimed(s: State, nid: Id) {
    ClaimedIn(CreatedBy(s.committed), Claims(s.open), nid)
  }

  /** The step gives up the transaction, or the try, that had created the notification. */
  ghost predicate GivesUp(s: State, step: Step, nid: Id) {
    match step
    case Rollback(w) => w in s.open && nid in Claims(s.open)[w]
    case MarkFailed(w) => w in s.open && s.open[w].effect == Some(Created(nid))
    case _ => false
  }

  /** Exactly which claims a step keeps: the insert survives everything, the claim does not. */
  lemma StepKeepsClaims(cfg: Config, s: State, step: Step, nid: Id)
    requires TxsOk(s.outbox, s.open) && RowsOk(s.outbox) && CreatedOk(s.committed, s.inApp, s.open)
    requires Apply(cfg, s, step).Some? && nid in s.inApp
    ensures Claimed(Apply(cfg, s, step).value, nid) <==> Claimed(s, nid) && !GivesUp(s, step, nid)
  {
    match step
    case Begin(w, kind, batch) => BeginKeepsClaims(cfg, s, w, kind, batch, nid);
    case Commit(w) => CommitKeepsClaims(cfg, s, w, nid);
    case Rollback(w) => RollbackKeepsClaims(cfg, s, w, nid);
    case MarkSent(w, emailEnabled) => MarkSentKeepsClaims(cfg, s, w, emailEnabled, nid);
    case MarkFailed(w) => MarkFailedKeepsClaims(cfg, s, w, nid);
    case Suppress(_) => RowStepKeepsClaims(cfg, s, step, nid);
    case Unroute(_) => RowStepKeepsClaims(cfg, s, step, nid);
    case Publish(_) => RowStepKeepsClaims(cfg, s, step, nid);
    case SendEmail(_) => RowStepKeepsClaims(cfg, s, step, nid);
    case Notify(_, _) => RowStepKeepsClaims(cfg, s, step, nid);
    case _ => SideStepKeepsClaims(cfg, s, step, nid);
  }

  /** Replacing one transaction's claims by a list that says the same about `nid`. */
  lemma ReplaceClaim(done: seq<Id>, claims: map<Worker, seq<Id>>, w: Worker, own: seq<Id>, nid: Id)
    requires nid in own <==> w in claims && nid in claims[w]
    ensures ClaimedIn(done, claims[w := own], nid) <==> ClaimedIn(done, claims, nid)
  {
    var after := claims[w := own];
    if nid !in done {
      if v :| v in claims && nid in claims[v] { assert v in after && nid in after[v]; }
      if v :| v in after && nid in after[v] { assert v in claims && nid in claims[v]; }
    }
  }

  lemma BeginKeepsClaims(cfg: Config, s: State, w: Worker, kind: Kind, batch: seq<Fetched>, nid: Id)
    requires Apply(cfg, s, Begin(w, kind, batch)).Some?
    ensures Claimed(Apply(cfg, s, Begin(w, kind, batch)).value, nid) <==> Claimed(s, nid)
  {
    ClaimsUpdated(s.open, w, Tx(kind, batch, [], None, []));
    ReplaceClaim(CreatedBy(s.committed), Claims(s.open), w, [], nid);
  }

  lemma SideStepKeepsClaims(cfg: Config, s: State, step: Step, nid: Id)
    requires step.Tick? || step.Enqueue? || step.Push? || step.ScheduleEmail? || step.Abandon? || step.Consume? || step.RecordDirect?
    requires Apply(cfg, s, step).Some?
    ensures Claimed(Apply(cfg, s, step).value, nid) <==> Claimed(s, nid)
  {
    var t := Apply(cfg, s, step).value;
    assert t.open == s.open && t.committed == s.committed;
  }

  lemma RowStepKeepsClaims(cfg: Config, s: State, step: Step, nid: Id)
    requires step.Suppress? || step.Unroute? || step.Publish? || step.SendEmail? || step.Notify?
    requires TxsOk(s.outbox, s.open) && RowsOk(s.outbox) && Apply(cfg, s, step).Some? && nid in s.inApp
    ensures Claimed(Apply(cfg, s, step).value, nid) <==> Claimed(s, nid)
  {
    RowStepSetsEffect(cfg, s, step);
    EffectKeepsClaims(cfg, s, Apply(cfg, s, step).value, step.w, nid);
  }

  lemma EffectKeepsClaims(cfg: Config, s: State, t: State, w: Worker, nid: Id)
    requires OnlyEffect(cfg, s, t, w) && nid in s.inApp
    ensures Claimed(t, nid) <==> Claimed(s, nid)
  {
    EffectClaims(s.open[w], t.open[w].effect.value);
    ClaimsUpdated(s.open, w, t.open[w]);
    ReplaceClaim(CreatedBy(s.committed), Claims(s.open), w, CreatedBy(Work(t.open[w])), nid);
  }

  lemma CommitKeepsClaims(cfg: Config, s: State, w: Worker, nid: Id)
    requires TxsOk(s.outbox, s.open) && Apply(cfg, s, Commit(w)).Some?
    ensures Claimed(Apply(cfg, s, Commit(w)).value, nid) <==> Claimed(s, nid)
  {
    assert TxOk(s.outbox, s.open[w]);
    var claims := Claims(s.open);
    assert claims[w] == CreatedBy(s.open[w].tries);
    CreatedByConcat(s.committed, s.open[w].tries);
    ClaimsRemoved(s, w);
    MoveClaim(CreatedBy(s.committed), claims, w, nid);
  }

  lemma MoveClaim(done: seq<Id>, claims: map<Worker, seq<Id>>, w: Worker, nid: Id)
    requires w in claims
    ensures ClaimedIn(done + claims[w], claims - {w}, nid) <==> ClaimedIn(done, claims, nid)
  {
    var after := claims - {w};
    assert nid in done + claims[w] <==> nid in done || nid in claims[w];
    if nid !in done && nid !in claims[w] {
      if v :| v in claims && nid in claims[v] { assert v in after && nid in after[v]; }
    }
  }

  lemma RollbackKeepsClaims(cfg: Config, s: State, w: Worker, nid: Id)
    requires CreatedOk(s.committed, s.inApp, s.open) && Apply(cfg, s, Rollback(w)).Some?
    ensures Claimed(Apply(cfg, s, Rollback(w)).value, nid) <==> Claimed(s, nid) && nid !in Claims(s.open)[w]
  {
    ClaimsRemoved(s, w);
    LoseClaim(CreatedBy(s.committed), s.inApp, Claims(s.open), w, nid);
  }

  lemma LoseClaim(done: seq<Id>, inApp: map<Id, Key>, claims: map<Worker, seq<Id>>, w: Worker, nid: Id)
    requires ClaimsOk(done, inApp, claims) && w in claims
    ensures ClaimedIn(done, claims - {w}, nid) <==> ClaimedIn(done, claims, nid) && nid !in claims[w]
  {
    var after := claims - {w};
    if nid !in claims[w] {
      if v :| v in claims && nid in claims[v] { assert v in after && nid in after[v]; }
    } else {
      assert Apart(claims[w], done);
      assert forall v :: v in after ==> Apart(claims[w], claims[v]);
    }
  }

  lemma MarkSentKeepsClaims(cfg: Config, s: State, w: Worker, emailEnabled: bool, nid: Id)
    requires Apply(cfg, s, MarkSent(w, emailEnabled)).Some?
    ensures Claimed(Apply(cfg, s, MarkSent(w, emailEnabled)).value, nid) <==> Claimed(s, nid)
  {
    var t := Apply(cfg, s, MarkSent(w, emailEnabled)).value;
    assert Work(t.open[w]) == Work(s.open[w]);
    ClaimsUpdated(s.open, w, t.open[w]);
    ReplaceClaim(CreatedBy(s.committed), Claims(s.open), w, CreatedBy(Work(t.open[w])), nid);
  }

  lemma MarkFailedKeepsClaims(cfg: Config, s: State, w: Worker, nid: Id)
    requires CreatedOk(s.committed, s.inApp, s.open) && Apply(cfg, s, MarkFailed(w)).Some?
    ensures Claimed(Apply(cfg, s, MarkFailed(w)).value, nid) <==> Claimed(s, nid) && s.open[w].effect != Some(Created(nid))
  {
    var t := Apply(cfg, s, MarkFailed(w)).value;
    FailedTryClaims(s.open[w]);
    ClaimsUpdated(s.open, w, t.open[w]);
    var dropped := if s.open[w].effect.Some? then CreatedIn(Succeeded(s.open[w].effect.value)) else [];
    DropClaim(CreatedBy(s.committed), s.inApp, Claims(s.open), w, CreatedBy(s.open[w].tries), dropped, nid);
  }

  /** The row in progress holds the last claim of its transaction; a failed try holds none. */
  lemma FailedTryClaims(tx: Tx)
    requires |tx.tries| < |tx.batch|
    ensures CreatedBy(Work(tx)) == CreatedBy(tx.tries) + (if tx.effect.Some? then CreatedIn(Succeeded(tx.effect.value)) else [])
    ensures CreatedBy(tx.tries + [Try(tx.batch[|tx.tries|].rid, Threw)]) == CreatedBy(tx.tries)
  {
    CreatedBySnoc(tx.tries, Try(tx.batch[|tx.tries|].rid, Threw));
    if tx.effect.Some? {
      CreatedBySnoc(tx.tries, Try(tx.batch[|tx.tries|].rid, Succeeded(tx.effect.value)));
    }
  }

  lemma DropClaim(done: seq<Id>, inApp: map<Id, Key>, claims: map<Worker, seq<Id>>, w: Worker,
                  kept: seq<Id>, dropped: seq<Id>, nid: Id)
    requires ClaimsOk(done, inApp, claims) && w in claims && claims[w] == kept + dropped
    ensures ClaimedIn(done, claims[w := kept], nid) <==> ClaimedIn(done, claims, nid) && nid !in dropped
  {
    var after := claims[w := kept];
    if nid in dropped {
      var k :| 0 <= k < |dropped| && dropped[k] == nid;
      assert claims[w][|kept| + k] == nid;
      assert nid !in kept by {
        assert forall i :: 0 <= i < |kept| ==> claims[w][i] == kept[i];
      }
      assert forall v :: v in claims && v != w ==> Apart(claims[w], claims[v]);
    } else {
      assert nid in kept <==> nid in claims[w];
      ReplaceClaim(done, claims, w, kept, nid);
    }
  }

  /** A notification in the table that no try claims. */
  ghost predicate Orphan(s: State, nid: Id) {
    nid in s.inApp && !Claimed(s, nid)
  }

  /** An orphaned notification stays in the table and is never pushed or emailed, whatever happens. */
  lemma {:induction false} OrphansAreNeverPushed(cfg: Config, s: State, steps: seq<Step>, nid: Id)
    requires Inv(cfg, s) && Orphan(s, nid) && Exec(cfg, s, steps).Some?
    ensures var t := Exec(cfg, s, steps).value;
            nid in t.inApp && nid !in t.pushes && nid !in t.scheduled
    decreases |steps|
  {
    if steps != [] {
      StepKeepsClaims(cfg, s, steps[0], nid);
      StepGrows(cfg, s, steps[0]);
      StepKeepsInv(cfg, s, steps[0]);
      OrphansAreNeverPushed(cfg, Apply(cfg, s, steps[0]).value, steps[1..], nid);
    }
  }

  lemma StepGrows(cfg: Config, s: State, step: Step)
    requires Apply(cfg, s, step).Some?
    ensures forall n :: n in s.inApp ==> n in Apply(cfg, s, step).value.inApp
  {
  }

  // ── Over a whole run ────────────────────────────────────────────────────────

  /** Some step of the run gives the notification up. */
  ghost predicate GivenUp(cfg: Config, s: State, steps: seq<Step>, nid: Id)
    requires Exec(cfg, s, steps).Some?
    decreases |steps|
  {
    steps != [] && (GivesUp(s, steps[0], nid) || GivenUp(cfg, Apply(cfg, s, steps[0]).value, steps[1..], nid))
  }

  /** A claimed notification ends as an orphan exactly if some step of the run gave it up. */
  lemma {:induction false} OrphanIffGivenUp(cfg: Config, s: State, steps: seq<Step>, nid: Id)
    requires Inv(cfg, s) && nid in s.inApp && Exec(cfg, s, steps).Some?
    ensures Orphan(Exec(cfg, s, steps).value, nid) <==> Orphan(s, nid) || GivenUp(cfg, s, steps, nid)
    decreases |steps|
  {
    if steps != [] {
      StepKeepsClaims(cfg, s, steps[0], nid);
      StepGrows(cfg, s, steps[0]);
      StepKeepsInv(cfg, s, steps[0]);
      OrphanIffGivenUp(cfg, Apply(cfg, s, steps[0]).value, steps[1..], nid);
    }
  }

  // ── From the claim to the push ──────────────────────────────────────────────

  /** The notification's task is out, or has made its push. */
  ghost predicate Released(live: seq<Task>, pushes: seq<Id>, nid: Id) {
    nid in Nids(live) || nid in pushes
  }

  /** The notification was pushed, or still can be: by its task, or once its transaction has committed. */
  ghost predicate Hopeful(s: State, nid: Id) {
    Claimed(s, nid) && (nid in CreatedBy(s.committed) ==> Released(s.live, s.pushes, nid))
  }

  /** The step ends the notification's task before its push. */
  ghost predicate Abandons(s: State, step: Step, nid: Id) {
    step.Abandon? && step.i < |s.live| && s.live[step.i].nid == nid && !s.live[step.i].pushed
  }

  lemma InNids(live: seq<Task>, nid: Id)
    ensures nid in Nids(live) <==> exists i :: 0 <= i < |live| && live[i].nid == nid
  {
    if nid in Nids(live) {
      var i :| 0 <= i < |Nids(live)| && Nids(live)[i] == nid;
      assert live[i].nid == nid;
    }
    if i :| 0 <= i < |live| && live[i].nid == nid {
      assert Nids(live)[i] == nid;
    }
  }

  /** A push moves the notification from one side of `Released` to the other. */
  lemma PushKeepsReleased(cfg: Config, s: State, i: nat, nid: Id)
    requires Apply(cfg, s, Push(i)).Some?
    ensures var t := Apply(cfg, s, Push(i)).value;
            Released(t.live, t.pushes, nid) <==> Released(s.live, s.pushes, nid)
  {
    var t := Apply(cfg, s, Push(i)).value;
    assert Nids(t.live) == Nids(s.live);
    assert Nids(s.live)[i] == s.live[i].nid;
  }

  /** A task that ends takes its notification out of the released ones only if it was not pushed. */
  lemma EndKeepsReleased(committed: seq<Try>, live: seq<Task>, pushes: seq<Id>, scheduled: seq<Id>, i: nat, nid: Id)
    requires LiveOk(committed, live, pushes, scheduled) && i < |live|
    ensures Released(Without(live, i), pushes, nid)
            <==> Released(live, pushes, nid) && !(live[i].nid == nid && !live[i].pushed)
  {
    var rest := Without(live, i);
    InNids(live, nid);
    InNids(rest, nid);
    if k :| 0 <= k < |live| && live[k].nid == nid {
      if k < i { assert rest[k] == live[k]; }
      if k > i { assert rest[k - 1] == live[k]; }
    }
    if k :| 0 <= k < |rest| && rest[k].nid == nid {
      var j := if k < i then k else k + 1;
      assert rest[k] == live[j] && Nids(live)[j] == nid;
      assert Nids(live)[i] == live[i].nid;
    }
  }

  lemma ReleasedConcat(live: seq<Task>, tasks: seq<Task>, pushes: seq<Id>, nid: Id)
    ensures Released(live + tasks, pushes, nid) <==> Released(live, pushes, nid) || nid in Nids(tasks)
  {
    assert Nids(live + tasks) == Nids(live) + Nids(tasks);
  }

  /** What an open transaction has created, no committed try has. */
  lemma ClaimIsNotCommitted(done: seq<Id>, inApp: map<Id, Key>, open: map<Worker, Tx>, w: Worker, nid: Id)
    requires ClaimsOk(done, inApp, Claims(open)) && w in open && nid in CreatedBy(Work(open[w]))
    ensures nid !in done
  {
    assert Apart(Claims(open)[w], done);
  }

  /** A commit releases exactly the tasks of the notifications it makes durable. */
  lemma CommitReleasesTasks(cfg: Config, s: State, w: Worker, nid: Id)
    requires TasksOk(s.open) && CreatedOk(s.committed, s.inApp, s.open) && Apply(cfg, s, Commit(w)).Some?
    requires Work(s.open[w]) == s.open[w].tries
    ensures var t := Apply(cfg, s, Commit(w)).value;
            && (nid in CreatedBy(s.open[w].tries) ==> nid !in CreatedBy(s.committed))
            && (nid in CreatedBy(t.committed) <==> nid in CreatedBy(s.committed) || nid in CreatedBy(s.open[w].tries))
            && (Released(t.live, t.pushes, nid)
                <==> Released(s.live, s.pushes, nid) || nid in CreatedBy(s.open[w].tries))
  {
    var tx := s.open[w];
    assert TxTasksOk(tx);
    CreatedByConcat(s.committed, tx.tries);
    ReleasedConcat(s.live, tx.tasks, s.pushes, nid);
    if nid in CreatedBy(tx.tries) {
      ClaimIsNotCommitted(CreatedBy(s.committed), s.inApp, s.open, w, nid);
    }
  }

  /** Only giving up or abandoning takes the hope of a push away, and nothing brings it back. */
  lemma StepKeepsHope(cfg: Config, s: State, step: Step, nid: Id)
    requires Inv(cfg, s) && Apply(cfg, s, step).Some? && nid in s.inApp
    ensures Hopeful(Apply(cfg, s, step).value, nid)
            <==> Hopeful(s, nid) && !GivesUp(s, step, nid) && !Abandons(s, step, nid)
  {
    StepKeepsClaims(cfg, s, step, nid);
    if step.Commit? {
      assert TxOk(s.outbox, s.open[step.w]);
      CommitReleasesTasks(cfg, s, step.w, nid);
    } else {
      OtherStepKeepsReleased(cfg, s, step, nid);
      if Abandons(s, step, nid) {
        assert s.live[step.i].nid in CreatedBy(s.committed);
      }
    }
  }

  lemma OtherStepKeepsReleased(cfg: Config, s: State, step: Step, nid: Id)
    requires LiveOk(s.committed, s.live, s.pushes, s.scheduled) && Apply(cfg, s, step).Some? && !step.Commit?
    ensures var t := Apply(cfg, s, step).value;
            && t.committed == s.committed
            && (Released(t.live, t.pushes, nid) <==> Released(s.live, s.pushes, nid) && !Abandons(s, step, nid))
  {
    match step
    case Push(i) => PushKeepsReleased(cfg, s, i, nid);
    case ScheduleEmail(i, _) => EndKeepsReleased(s.committed, s.live, s.pushes, s.scheduled, i, nid);
    case Abandon(i) => EndKeepsReleased(s.committed, s.live, s.pushes, s.scheduled, i, nid);
    case _ => TasksUntouched(cfg, s, step);
  }

  lemma TasksUntouched(cfg: Config, s: State, step: Step)
    requires !step.Commit? && !step.Push? && !step.ScheduleEmail? && !step.Abandon? && Apply(cfg, s, step).Some?
    ensures var t := Apply(cfg, s, step).value;
            t.committed == s.committed && t.live == s.live && t.pushes == s.pushes
  {
  }

  /** Some step of the run gives the notification up or abandons its task. */
  ghost predicate Lost(cfg: Config, s: State, steps: seq<Step>, nid: Id)
    requires Exec(cfg, s, steps).Some?
    decreases |steps|
  {
    && steps != []
    && (GivesUp(s, steps[0], nid) || Abandons(s, steps[0], nid)
        || Lost(cfg, Apply(cfg, s, steps[0]).value, steps[1..], nid))
  }

  lemma {:induction false} HopeOverRun(cfg: Config, s: State, steps: seq<Step>, nid: Id)
    requires Inv(cfg, s) && nid in s.inApp && Exec(cfg, s, steps).Some?
    ensures Hopeful(Exec(cfg, s, steps).value, nid) <==> Hopeful(s, nid) && !Lost(cfg, s, steps, nid)
    decreases |steps|
  {
    if steps != [] {
      StepKeepsHope(cfg, s, steps[0], nid);
      StepGrows(cfg, s, steps[0]);
      StepKeepsInv(cfg, s, steps[0]);
      HopeOverRun(cfg, Apply(cfg, s, steps[0]).value, steps[1..], nid);
    }
  }

  /** A notification is hopeful from the step that inserts it. */
  lemma CreatedIsHopeful(cfg: Config, s: State, w: Worker, nid: Id)
    requires TxsOk(s.outbox, s.open) && CreatedOk(s.committed, s.inApp, s.open)
    requires Apply(cfg, s, Notify(w, nid)).Some? && nid !in s.inApp && nid in Apply(cfg, s, Notify(w, nid)).value.inApp
    ensures Hopeful(Apply(cfg, s, Notify(w, nid)).value, nid)
  {
    var t := Apply(cfg, s, Notify(w, nid)).value;
    EffectClaims(s.open[w], Created(nid));
    ClaimsUpdated(s.open, w, t.open[w]);
    assert t.open[w] == s.open[w].(effect := Some(Created(nid)));
    assert nid in Claims(t.open)[w];
  }

  /**
   Once nothing is open and no task is running, a notification has been pushed exactly if no
   step since its insert rolled back its transaction, failed its try or abandoned its task.
   */
  lemma PushedUnlessLost(cfg: Config, s: State, w: Worker, nid: Id, later: seq<Step>)
    requires Reachable(cfg, s)
    requires Apply(cfg, s, Notify(w, nid)).Some? && nid !in s.inApp && nid in Apply(cfg, s, Notify(w, nid)).value.inApp
    requires Exec(cfg, Apply(cfg, s, Notify(w, nid)).value, later).Some?
    requires var end := Exec(cfg, Apply(cfg, s, Notify(w, nid)).value, later).value;
             end.open == map[] && end.live == []
    ensures var t := Apply(cfg, s, Notify(w, nid)).value;
            nid in Exec(cfg, t, later).value.pushes <==> !Lost(cfg, t, later, nid)
  {
    var t := Apply(cfg, s, Notify(w, nid)).value;
    var end := Exec(cfg, t, later).value;
    ReachableInv(cfg, s);
    StepKeepsInv(cfg, s, Notify(w, nid));
    RunKeepsInv(cfg, t, later);
    CreatedIsHopeful(cfg, s, w, nid);
    HopeOverRun(cfg, t, later, nid);
    AtRest(end.committed, end.live, end.pushes, end.scheduled, nid);
    assert Claims(end.open) == map[];
  }

  lemma AtRest(committed: seq<Try>, live: seq<Task>, pushes: seq<Id>, scheduled: seq<Id>, nid: Id)
    requires LiveOk(committed, live, pushes, scheduled) && live == []
    ensures Released(live, pushes, nid) <==> nid in pushes
    ensures nid in pushes ==> nid in CreatedBy(committed)
  {
  }

  // ── Orphans of rows that are durably sent ───────────────────────────────────

  /** No other notification row spells the same uuid. */
  ghost predicate OnlySource(cfg: Config, outbox: map<RowId, Row>, rid: RowId, uuid: Key) {
    forall r :: r in outbox && r.kind.Notifications? && r != rid ==> cfg.uuid(KeyOf(outbox, r)) != Some(uuid)
  }

  /** Whoever claims a notification did so for a row whose source key spells the notification's uuid. */
  lemma ClaimHasTry(cfg: Config, s: State, nid: Id) returns (rid: RowId)
    requires Reachable(cfg, s) && Claimed(s, nid)
    ensures rid in s.outbox && rid.kind.Notifications? && nid in s.inApp
    ensures cfg.uuid(KeyOf(s.outbox, rid)) == Some(s.inApp[nid])
    ensures FinishedWith(s, rid, Created(nid)) || s.outbox[rid].status.Pending?
  {
    ReachableInv(cfg, s);
    if nid in CreatedBy(s.committed) {
      var i := TryOfCreated(s.committed, nid);
      rid := s.committed[i].rid;
      assert Evidence(cfg, s, rid, Created(nid));
      assert s.committed[i] == Try(rid, Succeeded(Created(nid)));
    } else {
      var w :| w in s.open && nid in Claims(s.open)[w];
      rid := OpenClaimHasTry(cfg, s, w, nid);
    }
  }

  lemma OpenClaimHasTry(cfg: Config, s: State, w: Worker, nid: Id) returns (rid: RowId)
    requires EvidenceOk(cfg, s) && TxsOk(s.outbox, s.open) && w in s.open && nid in CreatedBy(Work(s.open[w]))
    ensures rid in s.outbox && s.outbox[rid].status.Pending? && Evidence(cfg, s, rid, Created(nid))
  {
    var work := Work(s.open[w]);
    var i := TryOfCreated(work, nid);
    rid := work[i].rid;
    assert TriesEvident(cfg, s, work) && TxOk(s.outbox, s.open[w]);
    assert rid == s.open[w].batch[i].rid;
  }

  /**
   The notification of a durably 'sent' row, no other row spelling its uuid, is an orphan
   exactly if the row was not finished by the try that inserted it: it was deduplicated
   against its own earlier insert, or suppressed after it.
   */
  lemma SentRowsOrphan(cfg: Config, s: State, rid: RowId, nid: Id)
    requires Reachable(cfg, s) && rid in s.outbox && rid.kind.Notifications? && s.outbox[rid].status.Done?
    requires nid in s.inApp && cfg.uuid(KeyOf(s.outbox, rid)) == Some(s.inApp[nid])
    requires OnlySource(cfg, s.outbox, rid, s.inApp[nid])
    ensures Orphan(s, nid) <==> !FinishedWith(s, rid, Created(nid))
    ensures Orphan(s, nid) <==> FinishedWith(s, rid, Deduplicated) || FinishedWith(s, rid, Suppressed)
  {
    if Claimed(s, nid) {
      var r := ClaimHasTry(cfg, s, nid);
      assert r == rid;
    }
    if FinishedWith(s, rid, Created(nid)) {
      var i :| 0 <= i < |s.committed| && s.committed[i] == Try(rid, Succeeded(Created(nid)));
      CreatedByTry(s.committed, nid, i);
    }
    ReachableEffects(cfg, s);
    var e := DoneHasEffect(cfg, s, rid);
    forall d | FinishedWith(s, rid, d) ensures d == e {
      FinishedOnce(cfg, s, rid, d, e);
    }
  }

  /** A row is finished by one try only. */
  lemma FinishedOnce(cfg: Config, s: State, rid: RowId, d: Effect, e: Effect)
    requires Reachable(cfg, s) && FinishedWith(s, rid, d) && FinishedWith(s, rid, e)
    ensures d == e
  {
    ReachableLog(cfg, s);
    var i :| 0 <= i < |s.committed| && s.committed[i] == Try(rid, Succeeded(d));
    var j :| 0 <= j < |s.committed| && s.committed[j] == Try(rid, Succeeded(e));
    if i < j {
      SerialDone(s.committed, i, j);
    } else if j < i {
      SerialDone(s.committed, j, i);
    }
  }
}
