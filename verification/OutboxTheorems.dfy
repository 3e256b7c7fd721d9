/**
 What the outbox pipeline guarantees in every run: any number of workers, any interleaving,
 with a rollback or a crash possible at every step.
 */
module OutboxTheorems {
  import opened Options
  import opened OutboxModel
  import opened OutboxInvariants
  import opened OutboxPreservation

  /** `s` is a state some run starting from empty tables is in. */
  ghost predicate Reachable(cfg: Config, s: State) {
    exists steps :: Exec(cfg, INIT, steps) == Some(s)
  }

  lemma ReachableInv(cfg: Config, s: State)
    requires Reachable(cfg, s)
    ensures Inv(cfg, s)
  {
    var steps :| Exec(cfg, INIT, steps) == Some(s);
    InitInv(cfg);
    RunKeepsInv(cfg, INIT, steps);
  }

  // the parts of the invariant, each by itself

  lemma ReachableTables(cfg: Config, s: State)
    requires Reachable(cfg, s)
    ensures TxsOk(s.outbox, s.open) && Disjoint(s.open) && RowsOk(s.outbox)
  {
    ReachableInv(cfg, s);
  }

  lemma ReachableLog(cfg: Config, s: State)
    requires Reachable(cfg, s)
    ensures LogOk(s.outbox, s.committed)
  {
    ReachableInv(cfg, s);
  }

  lemma ReachableTasks(cfg: Config, s: State)
    requires Reachable(cfg, s)
    ensures LiveOk(s.committed, s.live, s.pushes, s.scheduled) && ScheduledOk(s.outbox, s.scheduled)
  {
    ReachableInv(cfg, s);
  }

  lemma ReachableEffects(cfg: Config, s: State)
    requires Reachable(cfg, s)
    ensures TriesEvident(cfg, s, s.committed)
    ensures InAppOk(s.inApp)
  {
    ReachableInv(cfg, s);
  }

  lemma ReachableOutside(cfg: Config, s: State)
    requires Reachable(cfg, s)
    ensures SendsOk(s.outbox, s.sends) && PublishedOk(s.outbox, s.published) && AuditOk(s.published, s.audit)
  {
    ReachableInv(cfg, s);
  }

  lemma ReachableExtends(cfg: Config, s: State, steps: seq<Step>)
    requires Reachable(cfg, s) && Exec(cfg, s, steps).Some?
    ensures Reachable(cfg, Exec(cfg, s, steps).value)
  {
    var before :| Exec(cfg, INIT, before) == Some(s);
    ExecConcat(cfg, INIT, before, steps);
  }

  lemma ReachableStep(cfg: Config, s: State, step: Step, t: State)
    requires Reachable(cfg, s) && Apply(cfg, s, step) == Some(t)
    ensures Reachable(cfg, t)
  {
    assert [step][1..] == [];
    assert Exec(cfg, s, [step]) == Some(t);
    ReachableExtends(cfg, s, [step]);
  }

  // ── Rows: serializability, counters, absorbing states ───────────────────────

  function FailedTries(log: seq<Try>, rid: RowId): nat {
    if log == [] then 0
    else
      var n := |log| - 1;
      FailedTries(log[..n], rid) + (if log[n] == Try(rid, Threw) then 1 else 0)
  }

  function SuccessfulTries(log: seq<Try>, rid: RowId): nat {
    if log == [] then 0
    else
      var n := |log| - 1;
      SuccessfulTries(log[..n], rid) + (if log[n].rid == rid && log[n].outcome.Succeeded? then 1 else 0)
  }

  lemma {:induction false} SerialCounts(log: seq<Try>, rid: RowId)
    requires Serial(log)
    ensures var p := Replay(log, rid);
            && p.attempts == FailedTries(log, rid) <= MAX_ATTEMPTS
            && (p.status.Failed? <==> p.attempts == MAX_ATTEMPTS)
            && SuccessfulTries(log, rid) == (if p.status.Done? then 1 else 0)
  {
    if log != [] {
      var n := |log| - 1;
      assert Serial(log[..n]) by {
        forall i | 0 <= i < n ensures Replay(log[..n][..i], log[..n][i].rid).status.Pending? {
          assert log[..n][..i] == log[..i];
        }
      }
      SerialCounts(log[..n], rid);
      assert Replay(log[..n], log[n].rid).status.Pending?;
    }
  }

  /**
   The tables are what the committed tries, taken one at a time in commit order, make of
   them, and each such try found its row still pending: concurrent relay transactions are
   serializable, and no increment of `attempts` is lost to the value read at fetch.
   */
  lemma RelayTransactionsAreSerializable(cfg: Config, s: State, rid: RowId)
    requires Reachable(cfg, s) && rid in s.outbox
    ensures Serial(s.committed)
    ensures Replay(s.committed, rid) == Progress(s.outbox[rid].status, s.outbox[rid].attempts)
  {
    ReachableLog(cfg, s);
  }

  /** The counter, the retry limit and the final states, for every row of every table. */
  lemma AttemptsCountFailures(cfg: Config, s: State, rid: RowId)
    requires Reachable(cfg, s) && rid in s.outbox
    ensures var row := s.outbox[rid];
            && row.attempts == FailedTries(s.committed, rid)
            && (row.status.Failed? <==> row.attempts == 5)
            && (row.status.Pending? ==> row.attempts < 5)
            && SuccessfulTries(s.committed, rid) == (if row.status.Done? then 1 else 0)
  {
    ReachableLog(cfg, s);
    SerialCounts(s.committed, rid);
  }

  /** No row is worked on by two transactions at once. */
  lemma BatchesAreDisjoint(cfg: Config, s: State, v: Worker, w: Worker, rid: RowId)
    requires Reachable(cfg, s) && v in s.open && w in s.open
    requires InBatch(s.open[v].batch, rid) && InBatch(s.open[w].batch, rid)
    ensures v == w
  {
    ReachableTables(cfg, s);
    SharedRow(s.open[v].batch, s.open[w].batch, rid);
  }

  lemma SharedRow(a: seq<Fetched>, b: seq<Fetched>, rid: RowId)
    requires InBatch(a, rid) && InBatch(b, rid)
    ensures !BatchesApart(a, b)
  {
  }

  /** A row that left 'pending' is never written again; the counter of any row never falls. */
  ghost predicate RowsSettle(a: map<RowId, Row>, b: map<RowId, Row>) {
    forall r :: r in a ==>
      r in b && a[r].attempts <= b[r].attempts && (!a[r].status.Pending? ==> b[r] == a[r])
  }

  lemma StepSettles(cfg: Config, s: State, step: Step)
    requires TxsOk(s.outbox, s.open) && Apply(cfg, s, step).Some?
    ensures RowsSettle(s.outbox, Apply(cfg, s, step).value.outbox)
  {
    match step
    case Enqueue(rid, key, at) => InsertRowFacts(s.outbox, rid, key, at);
    case ScheduleEmail(i, id) =>
      InsertRowFacts(s.outbox, RowId(Emails, id), Some(NotificationEmailKey(s.live[i].nid)), s.now);
    case Commit(w) => CommitSettles(s.outbox, s.open[w]);
    case _ => OtherStepsKeepRows(cfg, s, step);
  }

  lemma OtherStepsKeepRows(cfg: Config, s: State, step: Step)
    requires !step.Enqueue? && !step.ScheduleEmail? && !step.Commit? && Apply(cfg, s, step).Some?
    ensures Apply(cfg, s, step).value.outbox == s.outbox
  {
  }

  lemma CommitSettles(outbox: map<RowId, Row>, tx: Tx)
    requires TxOk(outbox, tx) && |tx.tries| == |tx.batch|
    ensures RowsSettle(outbox, Marked(outbox, tx.batch, tx.tries))
  {
    var after := Marked(outbox, tx.batch, tx.tries);
    MarkedRows(outbox, tx.batch, tx.tries);
    forall r | r in outbox
      ensures outbox[r].attempts <= after[r].attempts && (!outbox[r].status.Pending? ==> after[r] == outbox[r])
    {
      if i :| 0 <= i < |tx.batch| && tx.batch[i].rid == r {
        assert after[r] == Mark(outbox, tx.batch[i], tx.tries[i].outcome)[r];
      }
    }
  }

  lemma {:induction false} SentAndFailedAreAbsorbing(cfg: Config, s: State, steps: seq<Step>)
    requires Inv(cfg, s) && Exec(cfg, s, steps).Some?
    ensures RowsSettle(s.outbox, Exec(cfg, s, steps).value.outbox)
    decreases |steps|
  {
    if steps != [] {
      StepSettles(cfg, s, steps[0]);
      StepKeepsInv(cfg, s, steps[0]);
      SentAndFailedAreAbsorbing(cfg, Apply(cfg, s, steps[0]).value, steps[1..]);
    }
  }

  // ── The try that finished a row ─────────────────────────────────────────────

  lemma {:induction false} SuccessExists(log: seq<Try>, rid: RowId)
    requires SuccessfulTries(log, rid) > 0
    ensures exists i :: 0 <= i < |log| && log[i].rid == rid && log[i].outcome.Succeeded?
  {
    var n := |log| - 1;
    if !(log[n].rid == rid && log[n].outcome.Succeeded?) {
      SuccessExists(log[..n], rid);
      var i :| 0 <= i < n && log[..n][i].rid == rid && log[..n][i].outcome.Succeeded?;
      assert log[i].rid == rid && log[i].outcome.Succeeded?;
    }
  }

  /** The effect with which a row was committed as sent. */
  ghost predicate FinishedWith(s: State, rid: RowId, e: Effect) {
    Try(rid, Succeeded(e)) in s.committed
  }

  lemma DoneHasEffect(cfg: Config, s: State, rid: RowId) returns (e: Effect)
    requires Reachable(cfg, s) && rid in s.outbox && s.outbox[rid].status.Done?
    ensures FinishedWith(s, rid, e) && Evidence(cfg, s, rid, e)
  {
    ReachableEffects(cfg, s);
    AttemptsCountFailures(cfg, s, rid);
    SuccessExists(s.committed, rid);
    var i :| 0 <= i < |s.committed| && s.committed[i].rid == rid && s.committed[i].outcome.Succeeded?;
    e := s.committed[i].outcome.effect;
    assert s.committed[i] == Try(rid, Succeeded(e));
  }

  lemma {:induction false} SerialDone(log: seq<Try>, i: nat, j: nat)
    requires Serial(log) && i <= j <= |log| && i < |log| && log[i].outcome.Succeeded? && i < j
    ensures Replay(log[..j], log[i].rid).status.Done?
    decreases j
  {
    assert log[..j][..j - 1] == log[..j - 1];
    if i < j - 1 {
      SerialDone(log, i, j - 1);
    } else {
      assert log[..j - 1] == log[..i];
    }
  }

  lemma FinishedIsDone(cfg: Config, s: State, rid: RowId, e: Effect)
    requires Reachable(cfg, s) && FinishedWith(s, rid, e)
    ensures rid in s.outbox && s.outbox[rid].status.Done? && Evidence(cfg, s, rid, e)
  {
    ReachableLog(cfg, s);
    ReachableEffects(cfg, s);
    var i :| 0 <= i < |s.committed| && s.committed[i] == Try(rid, Succeeded(e));
    SerialDone(s.committed, i, |s.committed|);
    assert s.committed[..|s.committed|] == s.committed;
    assert Evidence(cfg, s, s.committed[i].rid, s.committed[i].outcome.effect);
  }

  // ── In-app notifications ────────────────────────────────────────────────────

  /**
   A notification row that is durably 'sent' has exactly one in-app notification under the
   uuid its source key spells, unless the recipient's preference suppressed it; no uuid ever
   has two.
   */
  lemma SentMeansNotifiedOnce(cfg: Config, s: State, rid: RowId)
    requires Reachable(cfg, s) && rid in s.outbox && rid.kind.Notifications? && s.outbox[rid].status.Done?
    ensures FinishedWith(s, rid, Suppressed) || Notified(cfg, s, rid)
    ensures forall m, n :: m in s.inApp && n in s.inApp && s.inApp[m] == s.inApp[n] ==> m == n
  {
    ReachableEffects(cfg, s);
    var e := DoneHasEffect(cfg, s, rid);
    if e.Created? {
      assert HasUuid(s.inApp, s.inApp[e.nid]);
    }
  }

  /**
   source_event_id is a uuid column.  A row whose source key Postgres does not read as a
   uuid can only ever be suppressed or fail: it never yields a notification.
   */
  lemma KeyMustBeUuid(cfg: Config, s: State, rid: RowId)
    requires Reachable(cfg, s) && rid in s.outbox && rid.kind.Notifications?
    requires cfg.uuid(KeyOf(s.outbox, rid)).None?
    ensures s.outbox[rid].status.Done? ==> FinishedWith(s, rid, Suppressed)
    ensures forall e :: FinishedWith(s, rid, e) ==> e == Suppressed
  {
    if s.outbox[rid].status.Done? {
      var e := DoneHasEffect(cfg, s, rid);
    }
    forall e | FinishedWith(s, rid, e) ensures e == Suppressed {
      FinishedIsDone(cfg, s, rid, e);
    }
  }

  // ── Pushes and notification emails ──────────────────────────────────────────

  /** Some notification row under the notification's key is durably 'sent', by the try that created it. */
  ghost predicate DurablySent(cfg: Config, s: State, nid: Id) {
    exists rid ::
      && FinishedWith(s, rid, Created(nid))
      && rid in s.outbox && rid.kind.Notifications? && s.outbox[rid].status.Done?
      && nid in s.inApp && cfg.uuid(KeyOf(s.outbox, rid)) == Some(s.inApp[nid])
  }

  lemma CreatedMeansSent(cfg: Config, s: State, nid: Id)
    requires Reachable(cfg, s) && nid in CreatedBy(s.committed)
    ensures DurablySent(cfg, s, nid)
  {
    var i := TryOfCreated(s.committed, nid);
    var rid := s.committed[i].rid;
    assert s.committed[i] == Try(rid, Succeeded(Created(nid)));
    FinishedIsDone(cfg, s, rid, Created(nid));
    assert FinishedWith(s, rid, Created(nid));
  }

  /** A push happens only after the row is durably 'sent', and it is the first for its notification. */
  lemma PushIsAfterCommitAndOnce(cfg: Config, s: State, i: nat)
    requires Reachable(cfg, s) && Apply(cfg, s, Push(i)).Some?
    ensures DurablySent(cfg, s, s.live[i].nid)
    ensures s.live[i].nid !in s.pushes
  {
    ReachableTasks(cfg, s);
    CreatedMeansSent(cfg, s, s.live[i].nid);
  }

  /** An email is scheduled only after the row is durably 'sent' and pushed, and only once. */
  lemma EmailIsAfterPushAndOnce(cfg: Config, s: State, i: nat, id: Id)
    requires Reachable(cfg, s) && Apply(cfg, s, ScheduleEmail(i, id)).Some?
    ensures DurablySent(cfg, s, s.live[i].nid)
    ensures s.live[i].nid in s.pushes
    ensures s.live[i].nid !in s.scheduled
  {
    ReachableTasks(cfg, s);
    CreatedMeansSent(cfg, s, s.live[i].nid);
  }

  function EmailJobs(s: State, nid: Id): set<RowId> {
    set r | r in s.outbox && r.kind.Emails? && s.outbox[r].key == Some(NotificationEmailKey(nid))
  }

  /** However often rows were retried: one push, one scheduling and one email job per notification. */
  lemma OnePushAndOneEmailJob(cfg: Config, s: State, nid: Id)
    requires Reachable(cfg, s)
    ensures NoDup(s.pushes) && NoDup(s.scheduled)
    ensures nid in s.pushes ==> DurablySent(cfg, s, nid)
    ensures nid in s.scheduled ==> KeyTaken(s.outbox, Emails, NotificationEmailKey(nid))
    ensures forall q, r :: q in EmailJobs(s, nid) && r in EmailJobs(s, nid) ==> q == r
  {
    ReachableTasks(cfg, s);
    ReachableTables(cfg, s);
    if nid in s.pushes {
      CreatedMeansSent(cfg, s, nid);
    }
  }

  // ── Emails ──────────────────────────────────────────────────────────────────

  /** The emails a provider that ignores repeated idempotency keys delivers for one outbox row. */
  function Delivered(s: State, rid: RowId): set<Key> {
    set m | m in s.sends && m.rid == rid :: m.key
  }

  /**
   All sends for one email row, across retries and rolled-back batches, carry the row's own
   key, so the row yields at most one email; a row that is durably 'sent' yielded exactly
   one.  (The email scheduler never records a recipient, so no email row is suppressed.)
   */
  lemma EmailRowsDeliverOnce(cfg: Config, s: State, rid: RowId)
    requires Reachable(cfg, s) && rid in s.outbox && rid.kind.Emails?
    ensures Delivered(s, rid) <= {KeyOf(s.outbox, rid)}
    ensures s.outbox[rid].status.Done? ==> Delivered(s, rid) == {KeyOf(s.outbox, rid)}
  {
    ReachableOutside(cfg, s);
    if s.outbox[rid].status.Done? {
      var e := DoneHasEffect(cfg, s, rid);
      assert Send(rid, KeyOf(s.outbox, rid)) in s.sends;
    }
  }

  /** Two email rows with a caller-supplied key never share it, so neither do their emails. */
  lemma KeyedEmailsAreDistinct(cfg: Config, s: State, q: RowId, r: RowId)
    requires Reachable(cfg, s) && q in s.outbox && r in s.outbox && q != r && q.kind.Emails? && r.kind.Emails?
    requires s.outbox[q].key.Some? && s.outbox[r].key.Some?
    ensures Delivered(s, q) !! Delivered(s, r)
  {
    ReachableTables(cfg, s);
    EmailRowsDeliverOnce(cfg, s, q);
    EmailRowsDeliverOnce(cfg, s, r);
  }

  // ── Events ──────────────────────────────────────────────────────────────────

  function AuditRowsOf(s: State, eid: Id): set<Id> {
    set a | a in s.audit && s.audit[a] == Some(eid)
  }

  /**
   With a topic, an event row that is durably 'published' was accepted by SNS under its own
   id at least once; without one nothing is ever published.  However many duplicates and
   redeliveries there are, each event has at most one audit row, and only a published event
   of an existing outbox row has one.
   */
  lemma EventsReachAuditAtMostOnce(cfg: Config, s: State, rid: RowId)
    requires Reachable(cfg, s) && rid.kind.Events?
    ensures rid in s.outbox && s.outbox[rid].status.Done? && cfg.topicSet ==> rid.id in s.published
    ensures forall a, b :: a in AuditRowsOf(s, rid.id) && b in AuditRowsOf(s, rid.id) ==> a == b
    ensures AuditRowsOf(s, rid.id) != {} ==> rid.id in s.published && rid in s.outbox
  {
    ReachableOutside(cfg, s);
    if rid in s.outbox && s.outbox[rid].status.Done? && cfg.topicSet {
      var e := DoneHasEffect(cfg, s, rid);
    }
    if AuditRowsOf(s, rid.id) != {} {
      var a :| a in AuditRowsOf(s, rid.id);
      assert s.audit[a].Some? && rid == RowId(Events, rid.id);
    }
  }
}
