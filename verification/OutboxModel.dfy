/**
 The transactional outbox pipeline as a state machine over single steps.

 Any number of workers poll three outbox tables (events, emails, notifications).  A relay
 run is one database transaction: it locks a batch of pending rows, processes them one at
 a time, marks each row sent or failed, and commits or rolls back.  What `processRow` does
 outside that transaction (an SNS publish, a provider send, an insert of an in-app
 notification through the connection pool) is durable at once and survives a rollback.
 Tasks collected by a committed run are released after the commit and run on their own.

 One step is one atomic action: a single SQL statement, a single remote call that took
 effect, a commit, a rollback or a crash.  Every choice the environment makes is in the
 step, so `Apply` is a function; `None` means the step is not possible in that state.
 */
module OutboxModel {
  import opened Options

  type Id = string
  type Key = string
  type Worker = nat

  const MAX_ATTEMPTS: nat := 5
  const BATCH_SIZE: nat := 50

  datatype Kind = Events | Emails | Notifications

  /** `Done` is 'published' in the events table and 'sent' in the other two. */
  datatype Status = Pending | Done | Failed

  /** The three tables are kept in one map, so a row is named by its table and its id. */
  datatype RowId = RowId(kind: Kind, id: Id)

  /**
   `queuedAt` is the column the table is ordered by: created_at for events, else scheduled_at.
   `linked` says that the row names an internal recipient whose preferences can suppress it.
   */
  datatype Row = Row(key: Option<Key>, linked: bool, queuedAt: int, status: Status, attempts: nat)

  /** What `processRow` got done for one row before returning. */
  datatype Effect =
    | Suppressed            // switched off by the recipient's preference
    | Unrouted              // no SNS topic configured
    | Published             // accepted by SNS
    | Accepted              // accepted by the email provider
    | Created(nid: Id)      // a new in-app notification
    | Deduplicated          // the source key already had an in-app notification

  datatype Outcome = Succeeded(effect: Effect) | Threw

  datatype Try = Try(rid: RowId, outcome: Outcome)

  /** A row as `fetchBatch` returned it. */
  datatype Fetched = Fetched(rid: RowId, row: Row)

  /** A post-commit task: push, then (when enabled) schedule the notification email. */
  datatype Task = Task(nid: Id, emailEnabled: bool, pushed: bool)

  /**
   An open relay transaction.  Row number |tries| of the batch is being processed;
   `effect` holds what it has already got done.
   */
  datatype Tx = Tx(kind: Kind, batch: seq<Fetched>, tries: seq<Try>, effect: Option<Effect>, tasks: seq<Task>)

  datatype Send = Send(rid: RowId, key: Key)

  datatype State = State(
    now: int,
    outbox: map<RowId, Row>,
    open: map<Worker, Tx>,
    inApp: map<Id, Key>,            // in_app_notifications: id to source_event_id, a uuid
    audit: map<Id, Option<Id>>,     // audit_logs: id to source_event_id
    published: seq<Id>,             // eventId of every message SNS accepted
    sends: seq<Send>,               // every message the email provider accepted
    live: seq<Task>,                // released post-commit tasks still running
    pushes: seq<Id>,                // notifications pushed to SSE
    scheduled: seq<Id>,             // notifications whose email was scheduled
    committed: seq<Try>)            // tries of committed transactions, in commit order

  /** Deployment facts: is an SNS topic set, and what uuid, in Postgres's own spelling, a text is read as. */
  datatype Config = Config(topicSet: bool, uuid: Key -> Option<Key>)

  const INIT := State(0, map[], map[], map[], map[], [], [], [], [], [], [])

  // ── Keys ────────────────────────────────────────────────────────────────────

  /** `row.idempotencyKey ?? row.id`. */
  function SourceKey(rid: RowId, key: Option<Key>): Key {
    match key
    case Some(k) => k
    case None => rid.id
  }

  function NotificationEmailKey(nid: Id): Key {
    "notification-email:" + nid
  }

  predicate KeyTaken(outbox: map<RowId, Row>, kind: Kind, key: Key) {
    exists r | r in outbox :: r.kind == kind && outbox[r].key == Some(key)
  }

  predicate HasUuid(inApp: map<Id, Key>, uuid: Key) {
    exists n | n in inApp :: inApp[n] == uuid
  }

  ghost predicate Audited(audit: map<Id, Option<Id>>, eid: Id) {
    exists a :: a in audit && audit[a] == Some(eid)
  }

  /**
   INSERT … ON CONFLICT (idempotency_key) DO NOTHING into one of the outbox tables.  Only the
   notification scheduler fills in a recipient; the email scheduler leaves it null.
   */
  function InsertRow(outbox: map<RowId, Row>, rid: RowId, key: Option<Key>, at: int): map<RowId, Row> {
    if key.Some? && KeyTaken(outbox, rid.kind, key.value) then outbox
    else outbox[rid := Row(key, rid.kind.Notifications?, at, Pending, 0)]
  }

  // ── Fetching ────────────────────────────────────────────────────────────────

  predicate InBatch(batch: seq<Fetched>, rid: RowId) {
    exists i | 0 <= i < |batch| :: batch[i].rid == rid
  }

  ghost predicate Locked(open: map<Worker, Tx>, rid: RowId) {
    exists w :: w in open && InBatch(open[w].batch, rid)
  }

  /** The WHERE clause of `fetchBatch`; the events table has no scheduled_at. */
  predicate Due(now: int, rid: RowId, row: Row) {
    && row.status.Pending?
    && row.attempts < MAX_ATTEMPTS
    && (rid.kind.Events? || row.queuedAt <= now)
  }

  ghost predicate Eligible(s: State, kind: Kind, rid: RowId) {
    && rid in s.outbox
    && rid.kind == kind
    && Due(s.now, rid, s.outbox[rid])
    && !Locked(s.open, rid)
  }

  ghost predicate Distinct(batch: seq<Fetched>) {
    forall i, j :: 0 <= i < j < |batch| ==> batch[i].rid != batch[j].rid
  }

  /** ORDER BY queuedAt LIMIT 50 FOR UPDATE SKIP LOCKED; ties in any order. */
  ghost predicate ValidBatch(s: State, kind: Kind, batch: seq<Fetched>) {
    && |batch| <= BATCH_SIZE
    && Distinct(batch)
    && (forall i :: 0 <= i < |batch| ==>
          Eligible(s, kind, batch[i].rid) && batch[i].row == s.outbox[batch[i].rid])
    && (forall i, j :: 0 <= i < j < |batch| ==>
          s.outbox[batch[i].rid].queuedAt <= s.outbox[batch[j].rid].queuedAt)
    && (forall r :: Eligible(s, kind, r) && !InBatch(batch, r) ==>
          && |batch| == BATCH_SIZE
          && forall i :: 0 <= i < |batch| ==> s.outbox[batch[i].rid].queuedAt <= s.outbox[r].queuedAt)
  }

  // ── Marking ─────────────────────────────────────────────────────────────────

  /** UPDATE … SET status = 'sent' WHERE id = rid. */
  function MarkRowSent(outbox: map<RowId, Row>, rid: RowId): map<RowId, Row> {
    if rid in outbox then outbox[rid := outbox[rid].(status := Done)] else outbox
  }

  /** UPDATE … SET status, attempts WHERE id = rid. */
  function MarkRowFailed(outbox: map<RowId, Row>, rid: RowId, attempts: nat, status: Status): map<RowId, Row> {
    if rid in outbox then outbox[rid := outbox[rid].(status := status, attempts := attempts)] else outbox
  }

  /** The update that ends one row's try; the counter is the one that was read at fetch, plus one. */
  function Mark(outbox: map<RowId, Row>, f: Fetched, outcome: Outcome): map<RowId, Row> {
    match outcome
    case Succeeded(_) => MarkRowSent(outbox, f.rid)
    case Threw =>
      var newAttempts := f.row.attempts + 1;
      MarkRowFailed(outbox, f.rid, newAttempts, if newAttempts >= MAX_ATTEMPTS then Failed else Pending)
  }

  /** The table as the transaction sees it after the given tries, and as its commit leaves it. */
  function Marked(outbox: map<RowId, Row>, batch: seq<Fetched>, tries: seq<Try>): map<RowId, Row>
    requires |tries| <= |batch|
  {
    if tries == [] then outbox
    else
      var n := |tries| - 1;
      Mark(Marked(outbox, batch, tries[..n]), batch[n], tries[n].outcome)
  }

  // ── Steps ───────────────────────────────────────────────────────────────────

  datatype Step =
    // the API side and the clock
    | Tick(elapsed: nat)
    | Enqueue(rid: RowId, key: Option<Key>, at: int)
    // one relay transaction
    | Begin(w: Worker, kind: Kind, batch: seq<Fetched>)
    | Suppress(w: Worker)
    | Unroute(w: Worker)
    | Publish(w: Worker)
    | SendEmail(w: Worker)
    | Notify(w: Worker, nid: Id)
    | MarkSent(w: Worker, emailEnabled: bool)
    | MarkFailed(w: Worker)
    | Commit(w: Worker)
    | Rollback(w: Worker)
    // released post-commit tasks
    | Push(i: nat)
    | ScheduleEmail(i: nat, id: Id)
    | Abandon(i: nat)
    // the audit consumer, and audit records written directly by services
    | Consume(eid: Id, aid: Id)
    | RecordDirect(aid: Id)

  predicate Busy(s: State, w: Worker) {
    w in s.open && |s.open[w].tries| < |s.open[w].batch|
  }

  function Current(s: State, w: Worker): Fetched
    requires Busy(s, w)
  {
    s.open[w].batch[|s.open[w].tries|]
  }

  function CurrentKey(s: State, w: Worker): Key
    requires Busy(s, w)
  {
    SourceKey(Current(s, w).rid, Current(s, w).row.key)
  }

  function WithEffect(s: State, w: Worker, e: Effect): State
    requires w in s.open
  {
    s.(open := s.open[w := s.open[w].(effect := Some(e))])
  }

  /** End of one row: its outcome is recorded, its task (if any) is collected. */
  function WithTry(s: State, w: Worker, outcome: Outcome, tasks: seq<Task>): State
    requires Busy(s, w)
  {
    var tx := s.open[w];
    var tries := tx.tries + [Try(Current(s, w).rid, outcome)];
    s.(open := s.open[w := tx.(tries := tries, effect := None, tasks := tx.tasks + tasks)])
  }

  function WithoutTx(s: State, w: Worker): State {
    s.(open := s.open - {w})
  }

  function Without(live: seq<Task>, i: nat): seq<Task>
    requires i < |live|
  {
    live[..i] + live[i + 1..]
  }

  ghost function Apply(cfg: Config, s: State, step: Step): Option<State> {
    match step
    case Tick(elapsed) => Some(s.(now := s.now + elapsed))
    case Enqueue(rid, key, at) =>
      if rid in s.outbox || (rid.kind.Events? && key.Some?) then None
      else Some(s.(outbox := InsertRow(s.outbox, rid, key, at)))
    case Begin(w, kind, batch) =>
      if w in s.open || !ValidBatch(s, kind, batch) then None
      else Some(s.(open := s.open[w := Tx(kind, batch, [], None, [])]))
    case Suppress(w) =>
      if !Busy(s, w) || !Current(s, w).row.linked || s.open[w].effect.Some? then None
      else Some(WithEffect(s, w, Suppressed))
    case Unroute(w) =>
      if !Busy(s, w) || !s.open[w].kind.Events? || s.open[w].effect.Some? || cfg.topicSet then None
      else Some(WithEffect(s, w, Unrouted))
    case Publish(w) =>
      // may repeat: the resilience policy retries a call whose answer was lost
      if !Busy(s, w) || !s.open[w].kind.Events? || s.open[w].effect !in {None, Some(Published)} || !cfg.topicSet then None
      else Some(WithEffect(s, w, Published).(published := s.published + [Current(s, w).rid.id]))
    case SendEmail(w) =>
      if !Busy(s, w) || !s.open[w].kind.Emails? || s.open[w].effect !in {None, Some(Accepted)} then None
      else Some(WithEffect(s, w, Accepted).(sends := s.sends + [Send(Current(s, w).rid, CurrentKey(s, w))]))
    case Notify(w, nid) =>
      if !Busy(s, w) || !s.open[w].kind.Notifications? || s.open[w].effect.Some? then None
      else if cfg.uuid(CurrentKey(s, w)).None? then None
      else if HasUuid(s.inApp, cfg.uuid(CurrentKey(s, w)).value) then Some(WithEffect(s, w, Deduplicated))
      else if nid in s.inApp then None
      else Some(WithEffect(s, w, Created(nid)).(inApp := s.inApp[nid := cfg.uuid(CurrentKey(s, w)).value]))
    case MarkSent(w, emailEnabled) =>
      if !Busy(s, w) || s.open[w].effect.None? then None
      else
        var e := s.open[w].effect.value;
        var tasks := if e.Created? then [Task(e.nid, emailEnabled, false)] else [];
        Some(WithTry(s, w, Succeeded(e), tasks))
    case MarkFailed(w) =>
      if !Busy(s, w) then None else Some(WithTry(s, w, Threw, []))
    case Commit(w) =>
      if w !in s.open || |s.open[w].tries| != |s.open[w].batch| then None
      else
        var tx := s.open[w];
        Some(WithoutTx(s, w).(
          outbox := Marked(s.outbox, tx.batch, tx.tries),
          committed := s.committed + tx.tries,
          live := s.live + tx.tasks))
    case Rollback(w) =>
      if w !in s.open then None else Some(WithoutTx(s, w))
    case Push(i) =>
      if i >= |s.live| || s.live[i].pushed then None
      else Some(s.(pushes := s.pushes + [s.live[i].nid], live := s.live[i := s.live[i].(pushed := true)]))
    case ScheduleEmail(i, id) =>
      var rid := RowId(Emails, id);
      if i >= |s.live| || !s.live[i].pushed || !s.live[i].emailEnabled || rid in s.outbox then None
      else
        var nid := s.live[i].nid;
        Some(s.(
          outbox := InsertRow(s.outbox, rid, Some(NotificationEmailKey(nid)), s.now),
          scheduled := s.scheduled + [nid],
          live := Without(s.live, i)))
    case Abandon(i) =>
      if i >= |s.live| then None else Some(s.(live := Without(s.live, i)))
    case Consume(eid, aid) =>
      if eid !in s.published then None
      else if Audited(s.audit, eid) then Some(s)
      else if aid in s.audit then None
      else Some(s.(audit := s.audit[aid := Some(eid)]))
    case RecordDirect(aid) =>
      if aid in s.audit then None else Some(s.(audit := s.audit[aid := None]))
  }

  /** A whole run: the steps in order, or `None` when one of them was not possible. */
  ghost function Exec(cfg: Config, s: State, steps: seq<Step>): Option<State>
    decreases |steps|
  {
    if steps == [] then Some(s)
    else
      match Apply(cfg, s, steps[0])
      case None => None
      case Some(t) => Exec(cfg, t, steps[1..])
  }

  lemma {:induction false} ExecConcat(cfg: Config, s: State, a: seq<Step>, b: seq<Step>)
    requires Exec(cfg, s, a).Some?
    ensures Exec(cfg, s, a + b) == Exec(cfg, Exec(cfg, s, a).value, b)
    decreases |a|
  {
    if a == [] {
      assert a + b == b;
    } else {
      assert (a + b)[1..] == a[1..] + b;
      ExecConcat(cfg, Apply(cfg, s, a[0]).value, a[1..], b);
    }
  }
}
