/** What every step of the outbox pipeline keeps. */
module OutboxInvariants {
  import opened Options
  import opened OutboxModel

  // ── Lists of notification ids ───────────────────────────────────────────────

  ghost predicate NoDup<T>(xs: seq<T>) {
    forall i, j :: 0 <= i < j < |xs| ==> xs[i] != xs[j]
  }

  ghost predicate Apart<T>(xs: seq<T>, ys: seq<T>) {
    forall x :: x in xs ==> x !in ys
  }

  /** The notification a try created, if any. */
  function CreatedIn(o: Outcome): seq<Id> {
    if o.Succeeded? && o.effect.Created? then [o.effect.nid] else []
  }

  /** The notifications created by the successful tries of a list, in order. */
  function CreatedBy(tries: seq<Try>): seq<Id> {
    if tries == [] then []
    else
      var n := |tries| - 1;
      CreatedBy(tries[..n]) + CreatedIn(tries[n].outcome)
  }

  function Nids(tasks: seq<Task>): seq<Id> {
    seq(|tasks|, i requires 0 <= i < |tasks| => tasks[i].nid)
  }

  lemma {:induction false} CreatedByConcat(a: seq<Try>, b: seq<Try>)
    ensures CreatedBy(a + b) == CreatedBy(a) + CreatedBy(b)
  {
    if b == [] {
      assert a + b == a;
    } else {
      assert (a + b)[..|a + b| - 1] == a + b[..|b| - 1];
      CreatedByConcat(a, b[..|b| - 1]);
    }
  }

  lemma {:induction false} CreatedBySnoc(tries: seq<Try>, last: Try)
    ensures CreatedBy(tries + [last]) == CreatedBy(tries) + CreatedIn(last.outcome)
  {
    assert (tries + [last])[..|tries|] == tries;
  }

  lemma {:induction false} CreatedByTry(tries: seq<Try>, n: Id, i: nat)
    requires i < |tries| && tries[i].outcome == Succeeded(Created(n))
    ensures n in CreatedBy(tries)
  {
    var k := |tries| - 1;
    if i < k {
      CreatedByTry(tries[..k], n, i);
    }
  }

  /** The try that created the notification. */
  lemma {:induction false} TryOfCreated(tries: seq<Try>, n: Id) returns (i: nat)
    requires n in CreatedBy(tries)
    ensures i < |tries| && tries[i].outcome == Succeeded(Created(n))
  {
    var k := |tries| - 1;
    if n in CreatedIn(tries[k].outcome) {
      i := k;
    } else {
      i := TryOfCreated(tries[..k], n);
    }
  }

  // ── The committed tries as a serial log ─────────────────────────────────────

  datatype Progress = Progress(status: Status, attempts: nat)

  /** One try against the row as it stands: the counter that is incremented is the current one. */
  function Advance(p: Progress, o: Outcome): Progress {
    match o
    case Succeeded(_) => p.(status := Done)
    case Threw =>
      Progress(if p.attempts + 1 >= MAX_ATTEMPTS then Failed else Pending, p.attempts + 1)
  }

  /** The row after the committed tries, taken one at a time in commit order. */
  function Replay(log: seq<Try>, rid: RowId): Progress {
    if log == [] then Progress(Pending, 0)
    else
      var n := |log| - 1;
      var p := Replay(log[..n], rid);
      if log[n].rid == rid then Advance(p, log[n].outcome) else p
  }

  /** Every committed try found its row still pending. */
  ghost predicate Serial(log: seq<Try>) {
    forall i :: 0 <= i < |log| ==> Replay(log[..i], log[i].rid).status.Pending?
  }

  lemma {:induction false} ReplayUntouched(log: seq<Try>, tries: seq<Try>, rid: RowId)
    requires forall i :: 0 <= i < |tries| ==> tries[i].rid != rid
    ensures Replay(log + tries, rid) == Replay(log, rid)
  {
    if tries == [] {
      assert log + tries == log;
    } else {
      var k := |tries| - 1;
      assert (log + tries)[..|log| + k] == log + tries[..k];
      ReplayUntouched(log, tries[..k], rid);
    }
  }

  /** In a batch every row is tried once, so only its own try moves it. */
  lemma {:induction false} ReplayOnce(log: seq<Try>, tries: seq<Try>, i: nat)
    requires i < |tries|
    requires forall a, b :: 0 <= a < b < |tries| ==> tries[a].rid != tries[b].rid
    ensures Replay(log + tries[..i], tries[i].rid) == Replay(log, tries[i].rid)
    ensures Replay(log + tries, tries[i].rid) == Advance(Replay(log, tries[i].rid), tries[i].outcome)
  {
    var rid := tries[i].rid;
    ReplayUntouched(log, tries[..i], rid);
    var before, upTo := log + tries[..i], log + tries[..i] + [tries[i]];
    assert upTo[..|upTo| - 1] == before;
    assert Replay(upTo, rid) == Advance(Replay(before, rid), tries[i].outcome);
    assert log + tries == upTo + tries[i + 1..];
    ReplayUntouched(upTo, tries[i + 1..], rid);
  }

  lemma {:induction false} SerialExtend(log: seq<Try>, tries: seq<Try>)
    requires Serial(log)
    requires forall a, b :: 0 <= a < b < |tries| ==> tries[a].rid != tries[b].rid
    requires forall i :: 0 <= i < |tries| ==> Replay(log, tries[i].rid).status.Pending?
    ensures Serial(log + tries)
  {
    var all := log + tries;
    forall i | 0 <= i < |all|
      ensures Replay(all[..i], all[i].rid).status.Pending?
    {
      if i < |log| {
        assert all[..i] == log[..i];
      } else {
        assert all[..i] == log + tries[..i - |log|];
        ReplayOnce(log, tries, i - |log|);
      }
    }
  }

  /** What the marks of a batch do to the table, row by row. */
  lemma {:induction false} MarkedRows(outbox: map<RowId, Row>, batch: seq<Fetched>, tries: seq<Try>)
    requires |tries| <= |batch| && Distinct(batch)
    ensures Marked(outbox, batch, tries).Keys == outbox.Keys
    ensures forall r :: r in outbox && (forall i :: 0 <= i < |tries| ==> batch[i].rid != r) ==>
              Marked(outbox, batch, tries)[r] == outbox[r]
    ensures forall i :: 0 <= i < |tries| && batch[i].rid in outbox ==>
              Marked(outbox, batch, tries)[batch[i].rid] == Mark(outbox, batch[i], tries[i].outcome)[batch[i].rid]
  {
    if tries != [] {
      var n := |tries| - 1;
      MarkedRows(outbox, batch, tries[..n]);
      var prev := Marked(outbox, batch, tries[..n]);
      var next := Marked(outbox, batch, tries);
      assert next == Mark(prev, batch[n], tries[n].outcome);
      forall i | 0 <= i < |tries| && batch[i].rid in outbox
        ensures next[batch[i].rid] == Mark(outbox, batch[i], tries[i].outcome)[batch[i].rid]
      {
        if i < n {
          assert tries[..n][i] == tries[i];
        } else {
          assert forall j :: 0 <= j < n ==> batch[j].rid != batch[n].rid;
          assert prev[batch[n].rid] == outbox[batch[n].rid];
        }
      }
    }
  }

  // ── The invariant ───────────────────────────────────────────────────────────

  /** The tries of an open transaction, the row in progress counted as if marked sent. */
  function Work(tx: Tx): seq<Try> {
    if tx.effect.Some? && |tx.tries| < |tx.batch|
    then tx.tries + [Try(tx.batch[|tx.tries|].rid, Succeeded(tx.effect.value))]
    else tx.tries
  }

  ghost predicate TxOk(outbox: map<RowId, Row>, tx: Tx) {
    && |tx.tries| <= |tx.batch| <= BATCH_SIZE
    && (tx.effect.Some? ==> |tx.tries| < |tx.batch|)
    && Distinct(tx.batch)
    && (forall i :: 0 <= i < |tx.tries| ==> tx.tries[i].rid == tx.batch[i].rid)
    && (forall i :: 0 <= i < |tx.batch| ==>
          && tx.batch[i].rid.kind == tx.kind
          && tx.batch[i].rid in outbox
          && outbox[tx.batch[i].rid] == tx.batch[i].row
          && tx.batch[i].row.status.Pending?
          && tx.batch[i].row.attempts < MAX_ATTEMPTS)
  }

  ghost predicate TxsOk(outbox: map<RowId, Row>, open: map<Worker, Tx>) {
    forall w :: w in open ==> TxOk(outbox, open[w])
  }

  ghost predicate BatchesApart(a: seq<Fetched>, b: seq<Fetched>) {
    forall i, j :: 0 <= i < |a| && 0 <= j < |b| ==> a[i].rid != b[j].rid
  }

  /** Batches of concurrent transactions are pairwise disjoint. */
  ghost predicate Disjoint(open: map<Worker, Tx>) {
    forall v, w :: v in open && w in open && v != w ==> BatchesApart(open[v].batch, open[w].batch)
  }

  /** The table is what the committed tries make of it, one at a time. */
  ghost predicate LogOk(outbox: map<RowId, Row>, committed: seq<Try>) {
    && Serial(committed)
    && (forall i :: 0 <= i < |committed| ==> committed[i].rid in outbox)
    && (forall r :: r in outbox ==> Replay(committed, r) == Progress(outbox[r].status, outbox[r].attempts))
  }

  ghost predicate RowsOk(outbox: map<RowId, Row>) {
    && (forall r :: r in outbox ==> (outbox[r].linked <==> r.kind.Notifications?))
    && (forall r :: r in outbox && r.kind.Events? ==> outbox[r].key.None?)
    && (forall q, r :: q in outbox && r in outbox && q != r && q.kind == r.kind && outbox[q].key.Some? ==>
          outbox[q].key != outbox[r].key)
  }

  function KeyOf(outbox: map<RowId, Row>, rid: RowId): Key
    requires rid in outbox
  {
    SourceKey(rid, outbox[rid].key)
  }

  /** There is a notification under the uuid that the row's source key spells. */
  ghost predicate Notified(cfg: Config, s: State, rid: RowId)
    requires rid in s.outbox
  {
    cfg.uuid(KeyOf(s.outbox, rid)).Some? && HasUuid(s.inApp, cfg.uuid(KeyOf(s.outbox, rid)).value)
  }

  /** What must exist outside the transaction for `rid` to have been processed with effect `e`. */
  ghost predicate Evidence(cfg: Config, s: State, rid: RowId, e: Effect) {
    && rid in s.outbox
    && match e
       case Suppressed => rid.kind.Notifications?
       case Unrouted => rid.kind.Events? && !cfg.topicSet
       case Published => rid.kind.Events? && cfg.topicSet && rid.id in s.published
       case Accepted => rid.kind.Emails? && Send(rid, KeyOf(s.outbox, rid)) in s.sends
       case Created(n) =>
         rid.kind.Notifications? && n in s.inApp && cfg.uuid(KeyOf(s.outbox, rid)) == Some(s.inApp[n])
       case Deduplicated =>
         rid.kind.Notifications? && Notified(cfg, s, rid)
  }

  ghost predicate TriesEvident(cfg: Config, s: State, tries: seq<Try>) {
    forall i :: 0 <= i < |tries| && tries[i].outcome.Succeeded? ==>
      Evidence(cfg, s, tries[i].rid, tries[i].outcome.effect)
  }

  ghost predicate EvidenceOk(cfg: Config, s: State) {
    && TriesEvident(cfg, s, s.committed)
    && (forall w :: w in s.open ==> TriesEvident(cfg, s, Work(s.open[w])))
  }

  ghost predicate InAppOk(inApp: map<Id, Key>) {
    forall m, n :: m in inApp && n in inApp && inApp[m] == inApp[n] ==> m == n
  }

  ghost predicate Known(ids: seq<Id>, inApp: map<Id, Key>) {
    NoDup(ids) && forall n :: n in ids ==> n in inApp
  }

  /** No notification is claimed twice: among the committed ones, or by any open transaction. */
  ghost predicate ClaimsOk(done: seq<Id>, inApp: map<Id, Key>, claims: map<Worker, seq<Id>>) {
    && Known(done, inApp)
    && (forall w :: w in claims ==> Known(claims[w], inApp) && Apart(claims[w], done))
    && (forall v, w :: v in claims && w in claims && v != w ==> Apart(claims[v], claims[w]))
  }

  /** The notifications each open transaction has created so far. */
  function Claims(open: map<Worker, Tx>): map<Worker, seq<Id>> {
    map w | w in open :: CreatedBy(Work(open[w]))
  }

  ghost predicate CreatedOk(committed: seq<Try>, inApp: map<Id, Key>, open: map<Worker, Tx>) {
    ClaimsOk(CreatedBy(committed), inApp, Claims(open))
  }

  /** A transaction collects one task, not yet run, for each notification it created. */
  ghost predicate TxTasksOk(tx: Tx) {
    && Nids(tx.tasks) == CreatedBy(tx.tries)
    && (forall i :: 0 <= i < |tx.tasks| ==> !tx.tasks[i].pushed)
  }

  ghost predicate TasksOk(open: map<Worker, Tx>) {
    forall w :: w in open ==> TxTasksOk(open[w])
  }

  /** Released tasks belong to committed notifications, each in at most one task. */
  ghost predicate LiveOk(committed: seq<Try>, live: seq<Task>, pushes: seq<Id>, scheduled: seq<Id>) {
    && NoDup(Nids(live))
    && NoDup(pushes)
    && NoDup(scheduled)
    && (forall i :: 0 <= i < |live| ==>
          && live[i].nid in CreatedBy(committed)
          && (live[i].pushed <==> live[i].nid in pushes)
          && live[i].nid !in scheduled)
    && (forall n :: n in pushes ==> n in CreatedBy(committed))
    && (forall n :: n in scheduled ==> n in pushes)
  }

  ghost predicate ScheduledOk(outbox: map<RowId, Row>, scheduled: seq<Id>) {
    forall n :: n in scheduled ==> KeyTaken(outbox, Emails, NotificationEmailKey(n))
  }

  ghost predicate SendsOk(outbox: map<RowId, Row>, sends: seq<Send>) {
    forall m :: m in sends ==> m.rid.kind.Emails? && m.rid in outbox && m.key == KeyOf(outbox, m.rid)
  }

  ghost predicate PublishedOk(outbox: map<RowId, Row>, published: seq<Id>) {
    forall e :: e in published ==> RowId(Events, e) in outbox
  }

  ghost predicate AuditOk(published: seq<Id>, audit: map<Id, Option<Id>>) {
    && (forall a, b :: a in audit && b in audit && audit[a].Some? && audit[a] == audit[b] ==> a == b)
    && (forall a :: a in audit && audit[a].Some? ==> audit[a].value in published)
  }

  ghost predicate Inv(cfg: Config, s: State) {
    && TxsOk(s.outbox, s.open)
    && Disjoint(s.open)
    && LogOk(s.outbox, s.committed)
    && RowsOk(s.outbox)
    && EvidenceOk(cfg, s)
    && InAppOk(s.inApp)
    && CreatedOk(s.committed, s.inApp, s.open)
    && TasksOk(s.open)
    && LiveOk(s.committed, s.live, s.pushes, s.scheduled)
    && ScheduledOk(s.outbox, s.scheduled)
    && SendsOk(s.outbox, s.sends)
    && PublishedOk(s.outbox, s.published)
    && AuditOk(s.published, s.audit)
  }
}
