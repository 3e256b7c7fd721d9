/**
 What a relay run owes each row of its batch, in terms of what happened around the row: what
 the preference service answered, whether the call and what follows it went wrong, and
 whether the transaction survived.
 */
module RelaySpec {
  import opened Options
  import opened OutboxModel
  import opened OutboxInvariants

  /** What happens around one row: answers of the preference service, of the remote call, of the database. */
  datatype Incident = Incident(
    suppressed: bool,     // the preference lookup says no
    callFails: bool,      // the remote call or insert throws before it took effect
    newId: Id,            // uuid generated for a new notification
    lateFailure: bool,    // something throws after the remote call or insert took effect
    emailEnabled: bool,   // answer of the email preference lookup
    txFails: bool)        // the status update throws: the transaction is aborted

  /** The uuid that the row's source key spells, if it spells one. */
  function UuidOf(cfg: Config, f: Fetched): Option<Key> {
    cfg.uuid(SourceKey(f.rid, f.row.key))
  }

  /** The publish, send or insert takes effect: the recipient has not opted out, and nothing stops the call. */
  ghost predicate CallMade(cfg: Config, f: Fetched, x: Incident) {
    && !(f.row.linked && x.suppressed)
    && !x.callFails
    && (f.rid.kind.Events? ==> cfg.topicSet)
    && (f.rid.kind.Notifications? ==> UuidOf(cfg, f).Some?)
  }

  /** The row's try throws: there was a call to make, and it or what follows it went wrong. */
  ghost predicate Throws(cfg: Config, f: Fetched, x: Incident) {
    && !(f.row.linked && x.suppressed)
    && (f.rid.kind.Events? ==> cfg.topicSet)
    && (x.callFails || x.lateFailure || (f.rid.kind.Notifications? && UuidOf(cfg, f).None?))
  }

  // ── Outside the transaction ─────────────────────────────────────────────────

  ghost predicate Inserts(cfg: Config, inApp: map<Id, Key>, f: Fetched, x: Incident) {
    f.rid.kind.Notifications? && CallMade(cfg, f, x) && !HasUuid(inApp, UuidOf(cfg, f).value)
  }

  ghost function Inserted(cfg: Config, inApp: map<Id, Key>, f: Fetched, x: Incident): map<Id, Key> {
    if Inserts(cfg, inApp, f, x) then inApp[x.newId := UuidOf(cfg, f).value] else inApp
  }

  /** The notifications after the first `n` rows. */
  ghost function InsertedBy(cfg: Config, inApp: map<Id, Key>, batch: seq<Fetched>, xs: seq<Incident>, n: nat)
    : map<Id, Key>
    requires n <= |batch| == |xs|
  {
    if n == 0 then inApp else Inserted(cfg, InsertedBy(cfg, inApp, batch, xs, n - 1), batch[n - 1], xs[n - 1])
  }

  /** The tasks of the first `n` rows: one for each new notification whose row's try did not throw. */
  ghost function TasksBy(cfg: Config, inApp: map<Id, Key>, batch: seq<Fetched>, xs: seq<Incident>, n: nat): seq<Task>
    requires n <= |batch| == |xs|
  {
    if n == 0 then []
    else
      TasksBy(cfg, inApp, batch, xs, n - 1)
      + TaskFor(cfg, InsertedBy(cfg, inApp, batch, xs, n - 1), batch[n - 1], xs[n - 1])
  }

  ghost function TaskFor(cfg: Config, inApp: map<Id, Key>, f: Fetched, x: Incident): seq<Task> {
    if Inserts(cfg, inApp, f, x) && !x.lateFailure then [Task(x.newId, x.emailEnabled, false)] else []
  }

  /** The event ids that the first `n` rows publish. */
  ghost function PublishedBy(cfg: Config, batch: seq<Fetched>, xs: seq<Incident>, n: nat): seq<Id>
    requires n <= |batch| == |xs|
  {
    if n == 0 then [] else PublishedBy(cfg, batch, xs, n - 1) + PublishFor(cfg, batch[n - 1], xs[n - 1])
  }

  ghost function PublishFor(cfg: Config, f: Fetched, x: Incident): seq<Id> {
    if f.rid.kind.Events? && CallMade(cfg, f, x) then [f.rid.id] else []
  }

  /** The emails that the first `n` rows send. */
  ghost function SentBy(cfg: Config, batch: seq<Fetched>, xs: seq<Incident>, n: nat): seq<Send>
    requires n <= |batch| == |xs|
  {
    if n == 0 then [] else SentBy(cfg, batch, xs, n - 1) + SendFor(cfg, batch[n - 1], xs[n - 1])
  }

  ghost function SendFor(cfg: Config, f: Fetched, x: Incident): seq<Send> {
    if f.rid.kind.Emails? && CallMade(cfg, f, x)
    then [Send(f.rid, match f.row.key case Some(k) => k case None => f.rid.id)] else []
  }

  /** What one row leaves behind outside the transaction. */
  ghost predicate LeavesOutside(cfg: Config, before: State, after: State, f: Fetched, x: Incident) {
    && after.inApp == Inserted(cfg, before.inApp, f, x)
    && after.published == before.published + PublishFor(cfg, f, x)
    && after.sends == before.sends + SendFor(cfg, f, x)
  }

  /** What the first `n` rows leave behind outside the transaction. */
  ghost predicate LeftOutside(cfg: Config, before: State, after: State, batch: seq<Fetched>, xs: seq<Incident>, n: nat)
    requires n <= |batch| == |xs|
  {
    && after.inApp == InsertedBy(cfg, before.inApp, batch, xs, n)
    && after.published == before.published + PublishedBy(cfg, batch, xs, n)
    && after.sends == before.sends + SentBy(cfg, batch, xs, n)
  }

  lemma OneMoreOutside(cfg: Config, start: State, before: State, after: State, batch: seq<Fetched>, xs: seq<Incident>,
                       n: nat)
    requires n < |batch| == |xs| && LeftOutside(cfg, start, before, batch, xs, n)
    requires LeavesOutside(cfg, before, after, batch[n], xs[n])
    ensures LeftOutside(cfg, start, after, batch, xs, n + 1)
  {
  }

  /** A notification row that reaches the insert: not opted out, no failure before it, and a key that spells a uuid. */
  ghost predicate ReachesInsert(cfg: Config, f: Fetched, x: Incident) {
    && f.rid.kind.Notifications?
    && UuidOf(cfg, f).Some?
    && !x.callFails
    && (f.row.linked ==> !x.suppressed)
  }

  /**
   In a batch: every notification row that reaches the insert has its notification at the
   end, and an id generated for a row is in use only if that row reached the insert.
   */
  lemma {:induction false} EveryCallHasItsNotification(cfg: Config, inApp: map<Id, Key>, batch: seq<Fetched>,
                                                       xs: seq<Incident>, n: nat, i: nat)
    requires i < n <= |batch| == |xs| && FreshIds(inApp, xs, 0)
    ensures var after := InsertedBy(cfg, inApp, batch, xs, n);
            && (ReachesInsert(cfg, batch[i], xs[i]) ==> HasUuid(after, UuidOf(cfg, batch[i]).value))
            && (xs[i].newId in after ==>
                  ReachesInsert(cfg, batch[i], xs[i]) && after[xs[i].newId] == UuidOf(cfg, batch[i]).value)
  {
    var before, after := InsertedBy(cfg, inApp, batch, xs, n - 1), InsertedBy(cfg, inApp, batch, xs, n);
    IdsInOrder(cfg, inApp, batch, xs, n - 1);
    if i < n - 1 {
      EveryCallHasItsNotification(cfg, inApp, batch, xs, n - 1, i);
      if ReachesInsert(cfg, batch[i], xs[i]) {
        StillThere(before, after, UuidOf(cfg, batch[i]).value);
      }
    } else if Inserts(cfg, before, batch[i], xs[i]) {
      assert after[xs[i].newId] == UuidOf(cfg, batch[i]).value;
    }
  }

  /** In a batch of events: what is published is the id of every row whose publish went through, and of no other. */
  lemma {:induction false} PublishedIffRouted(cfg: Config, batch: seq<Fetched>, xs: seq<Incident>, n: nat, id: Id)
    requires n <= |batch| == |xs|
    ensures id in PublishedBy(cfg, batch, xs, n)
            <==> exists i :: 0 <= i < n && batch[i].rid == RowId(Events, id)
                             && cfg.topicSet && !xs[i].callFails && (batch[i].row.linked ==> !xs[i].suppressed)
  {
    if n > 0 {
      PublishedIffRouted(cfg, batch, xs, n - 1, id);
      assert id in PublishFor(cfg, batch[n - 1], xs[n - 1]) <==>
             batch[n - 1].rid == RowId(Events, id) && CallMade(cfg, batch[n - 1], xs[n - 1]);
    }
  }

  /** In a batch of emails: every row whose call went through is sent under its key, or under its id if it has none. */
  lemma {:induction false} SentIffAccepted(cfg: Config, batch: seq<Fetched>, xs: seq<Incident>, n: nat, rid: RowId,
                                           key: Key)
    requires n <= |batch| == |xs|
    ensures Send(rid, key) in SentBy(cfg, batch, xs, n)
            <==> exists i :: 0 <= i < n && batch[i].rid == rid && rid.kind.Emails?
                             && (batch[i].row.key == Some(key) || (batch[i].row.key.None? && key == rid.id))
                             && !xs[i].callFails && (batch[i].row.linked ==> !xs[i].suppressed)
  {
    if n > 0 {
      SentIffAccepted(cfg, batch, xs, n - 1, rid, key);
      var f, x := batch[n - 1], xs[n - 1];
      assert Send(rid, key) in SendFor(cfg, f, x) <==>
             && f.rid == rid && rid.kind.Emails?
             && (f.row.key == Some(key) || (f.row.key.None? && key == rid.id))
             && CallMade(cfg, f, x);
    }
  }

  lemma StillThere(before: map<Id, Key>, after: map<Id, Key>, uuid: Key)
    requires HasUuid(before, uuid) && forall n :: n in before ==> n in after && after[n] == before[n]
    ensures HasUuid(after, uuid)
  {
    var n :| n in before && before[n] == uuid;
    assert after[n] == uuid;
  }

  /** The ids generated for rows from number `i` on are new and differ from each other. */
  ghost predicate FreshIds(inApp: map<Id, Key>, xs: seq<Incident>, i: nat) {
    && (forall j :: i <= j < |xs| ==> xs[j].newId !in inApp)
    && (forall j, k :: i <= j < k < |xs| ==> xs[j].newId != xs[k].newId)
  }

  lemma {:induction false} IdsInOrder(cfg: Config, inApp: map<Id, Key>, batch: seq<Fetched>, xs: seq<Incident>, n: nat)
    requires n <= |batch| == |xs| && FreshIds(inApp, xs, 0)
    ensures FreshIds(InsertedBy(cfg, inApp, batch, xs, n), xs, n)
    ensures var after := InsertedBy(cfg, inApp, batch, xs, n);
            forall m :: m in inApp ==> m in after && after[m] == inApp[m]
  {
    if n > 0 {
      IdsInOrder(cfg, inApp, batch, xs, n - 1);
    }
  }

  // ── In the table ────────────────────────────────────────────────────────────

  /**
   How a committed run leaves a row of its batch, whatever happened to its neighbours: done
   when the recipient has opted out, when there is no topic to publish to, or when nothing
   went wrong; else one attempt further, and given up at the fifth.
   */
  ghost predicate RowEnds(cfg: Config, f: Fetched, x: Incident, after: Row) {
    if || (f.row.linked && x.suppressed)
       || (f.rid.kind.Events? && !cfg.topicSet)
       || (!x.callFails && !x.lateFailure && (f.rid.kind.Notifications? ==> UuidOf(cfg, f).Some?))
    then after == f.row.(status := Done)
    else after == f.row.(attempts := f.row.attempts + 1, status := if f.row.attempts < 4 then Pending else Failed)
  }

  /** How the row's try is recorded: as thrown, or as done, and as suppressed for whoever has opted out. */
  ghost predicate OutcomeFits(cfg: Config, f: Fetched, x: Incident, outcome: Outcome) {
    && (outcome.Threw? <==> Throws(cfg, f, x))
    && (f.row.linked ==> (outcome == Succeeded(Suppressed) <==> x.suppressed))
  }

  lemma MarkEndsRow(cfg: Config, outbox: map<RowId, Row>, f: Fetched, x: Incident, outcome: Outcome)
    requires f.rid in outbox && outbox[f.rid] == f.row && f.row.status.Pending?
    requires OutcomeFits(cfg, f, x, outcome)
    ensures f.rid in Mark(outbox, f, outcome) && RowEnds(cfg, f, x, Mark(outbox, f, outcome)[f.rid])
  {
  }

  ghost predicate OutcomesMatch(cfg: Config, batch: seq<Fetched>, xs: seq<Incident>, tries: seq<Try>)
    requires |tries| <= |batch| == |xs|
  {
    forall i :: 0 <= i < |tries| ==>
      tries[i].rid == batch[i].rid && OutcomeFits(cfg, batch[i], xs[i], tries[i].outcome)
  }

  /** What a committed run makes of the table: each row of the batch as its own incident says, the others untouched. */
  ghost predicate TableEnds(cfg: Config, before: map<RowId, Row>, after: map<RowId, Row>, batch: seq<Fetched>,
                            xs: seq<Incident>)
    requires |batch| == |xs|
  {
    && after.Keys == before.Keys
    && (forall r :: r in before && !InBatch(batch, r) ==> after[r] == before[r])
    && (forall i :: 0 <= i < |batch| ==> batch[i].rid in after && RowEnds(cfg, batch[i], xs[i], after[batch[i].rid]))
  }

  lemma MarksEndTable(cfg: Config, s: State, kind: Kind, batch: seq<Fetched>, xs: seq<Incident>, tries: seq<Try>)
    requires ValidBatch(s, kind, batch) && |tries| == |batch| == |xs| && OutcomesMatch(cfg, batch, xs, tries)
    ensures TableEnds(cfg, s.outbox, Marked(s.outbox, batch, tries), batch, xs)
  {
    var after := Marked(s.outbox, batch, tries);
    MarkedRows(s.outbox, batch, tries);
    forall i | 0 <= i < |batch| ensures batch[i].rid in after && RowEnds(cfg, batch[i], xs[i], after[batch[i].rid]) {
      assert Eligible(s, kind, batch[i].rid);
      MarkEndsRow(cfg, s.outbox, batch[i], xs[i], tries[i].outcome);
    }
  }
}
