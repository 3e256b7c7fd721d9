/** Every step of the outbox pipeline preserves the invariant. */
module OutboxPreservation {
  import opened Options
  import opened OutboxModel
  import opened OutboxInvariants

  // ── What only grows ─────────────────────────────────────────────────────────

  /** Rows keep their identity columns. */
  ghost predicate TableGrows(a: map<RowId, Row>, b: map<RowId, Row>) {
    forall r :: r in a ==> r in b && b[r].key == a[r].key && b[r].linked == a[r].linked
  }

  /** Nothing done outside a transaction is undone. */
  ghost predicate Grows(s: State, t: State) {
    && TableGrows(s.outbox, t.outbox)
    && (forall n :: n in s.inApp ==> n in t.inApp && t.inApp[n] == s.inApp[n])
    && (forall e :: e in s.published ==> e in t.published)
    && (forall m :: m in s.sends ==> m in t.sends)
  }

  lemma EvidenceGrows(cfg: Config, s: State, t: State, rid: RowId, e: Effect)
    requires Grows(s, t) && Evidence(cfg, s, rid, e)
    ensures Evidence(cfg, t, rid, e)
  {
    if e.Deduplicated? {
      var n :| n in s.inApp && Some(s.inApp[n]) == cfg.uuid(KeyOf(s.outbox, rid));
      assert n in t.inApp && Some(t.inApp[n]) == cfg.uuid(KeyOf(t.outbox, rid));
    }
  }

  lemma TriesGrow(cfg: Config, s: State, t: State, tries: seq<Try>)
    requires Grows(s, t) && TriesEvident(cfg, s, tries)
    ensures TriesEvident(cfg, t, tries)
  {
    forall i | 0 <= i < |tries| && tries[i].outcome.Succeeded?
      ensures Evidence(cfg, t, tries[i].rid, tries[i].outcome.effect)
    {
      EvidenceGrows(cfg, s, t, tries[i].rid, tries[i].outcome.effect);
    }
  }

  lemma TriesEvidentConcat(cfg: Config, s: State, a: seq<Try>, b: seq<Try>)
    ensures TriesEvident(cfg, s, a + b) <==> TriesEvident(cfg, s, a) && TriesEvident(cfg, s, b)
  {
    if TriesEvident(cfg, s, a + b) {
      assert forall i :: 0 <= i < |a| ==> (a + b)[i] == a[i];
      assert forall i :: 0 <= i < |b| ==> (a + b)[|a| + i] == b[i];
    }
  }

  /** Evidence survives a step that changes at most one transaction, if that one has its own. */
  lemma EvidenceKept(cfg: Config, s: State, t: State, w: Worker)
    requires EvidenceOk(cfg, s) && Grows(s, t) && t.committed == s.committed
    requires forall v :: v in t.open && v != w ==> v in s.open && t.open[v] == s.open[v]
    requires w in t.open ==> TriesEvident(cfg, t, Work(t.open[w]))
    ensures EvidenceOk(cfg, t)
  {
    TriesGrow(cfg, s, t, s.committed);
    forall v | v in t.open && v != w ensures TriesEvident(cfg, t, Work(t.open[v])) {
      TriesGrow(cfg, s, t, Work(s.open[v]));
    }
  }

  lemma EvidenceStays(cfg: Config, s: State, t: State)
    requires EvidenceOk(cfg, s) && Grows(s, t) && t.open == s.open && t.committed == s.committed
    ensures EvidenceOk(cfg, t)
  {
    TriesGrow(cfg, s, t, s.committed);
    forall w | w in s.open ensures TriesEvident(cfg, t, Work(t.open[w])) {
      TriesGrow(cfg, s, t, Work(s.open[w]));
    }
  }

  // ── A new row in a table ────────────────────────────────────────────────────

  lemma InsertRowFacts(outbox: map<RowId, Row>, rid: RowId, key: Option<Key>, at: int)
    requires rid !in outbox
    ensures var after := InsertRow(outbox, rid, key, at);
            && (forall r :: r in outbox ==> r in after && after[r] == outbox[r])
            && (forall r :: r in after && r !in outbox ==>
                  r == rid && after[r] == Row(key, rid.kind.Notifications?, at, Pending, 0))
            && (rid in after && key.Some? ==> !KeyTaken(outbox, rid.kind, key.value))
            && (key.Some? ==> KeyTaken(after, rid.kind, key.value))
  {
    if key.Some? && !KeyTaken(outbox, rid.kind, key.value) {
      assert InsertRow(outbox, rid, key, at)[rid].key == key;
    }
  }

  lemma InsertKeeps(s: State, rid: RowId, key: Option<Key>, at: int)
    requires rid !in s.outbox && (rid.kind.Events? ==> key.None?)
    requires TxsOk(s.outbox, s.open) && LogOk(s.outbox, s.committed) && RowsOk(s.outbox)
    requires SendsOk(s.outbox, s.sends) && PublishedOk(s.outbox, s.published)
    ensures var outbox := InsertRow(s.outbox, rid, key, at);
            && TxsOk(outbox, s.open)
            && LogOk(outbox, s.committed)
            && RowsOk(outbox)
            && SendsOk(outbox, s.sends)
            && PublishedOk(outbox, s.published)
            && TableGrows(s.outbox, outbox)
  {
    InsertRowFacts(s.outbox, rid, key, at);
    NeverTried(s.committed, rid);
  }

  lemma NeverTried(log: seq<Try>, rid: RowId)
    requires forall i :: 0 <= i < |log| ==> log[i].rid != rid
    ensures Replay(log, rid) == Progress(Pending, 0)
  {
    ReplayUntouched([], log, rid);
    assert [] + log == log;
  }

  lemma KeyTakenGrows(a: map<RowId, Row>, b: map<RowId, Row>, scheduled: seq<Id>)
    requires TableGrows(a, b) && ScheduledOk(a, scheduled)
    ensures ScheduledOk(b, scheduled)
  {
    forall n | n in scheduled ensures KeyTaken(b, Emails, NotificationEmailKey(n)) {
      var r :| r in a && r.kind == Emails && a[r].key == Some(NotificationEmailKey(n));
      assert r in b && b[r].key == Some(NotificationEmailKey(n));
    }
  }

  lemma EnqueueKeeps(cfg: Config, s: State, rid: RowId, key: Option<Key>, at: int)
    requires Inv(cfg, s) && Apply(cfg, s, Enqueue(rid, key, at)).Some?
    ensures Inv(cfg, Apply(cfg, s, Enqueue(rid, key, at)).value)
  {
    var t := Apply(cfg, s, Enqueue(rid, key, at)).value;
    InsertKeeps(s, rid, key, at);
    EvidenceStays(cfg, s, t);
    KeyTakenGrows(s.outbox, t.outbox, s.scheduled);
  }

  // ── Claims on notifications ─────────────────────────────────────────────────

  lemma ClaimsUpdated(open: map<Worker, Tx>, w: Worker, tx: Tx)
    ensures Claims(open[w := tx]) == Claims(open)[w := CreatedBy(Work(tx))]
  {
  }

  lemma ClaimsRemoved(s: State, w: Worker)
    ensures Claims(WithoutTx(s, w).open) == Claims(s.open) - {w}
  {
  }

  lemma ReleaseClaim(done: seq<Id>, inApp: map<Id, Key>, claims: map<Worker, seq<Id>>, w: Worker)
    requires ClaimsOk(done, inApp, claims) && w in claims
    ensures ClaimsOk(done + claims[w], inApp, claims - {w})
    ensures ClaimsOk(done, inApp, claims - {w})
  {
    var all := done + claims[w];
    forall i, j | 0 <= i < j < |all| ensures all[i] != all[j] {
      if i < |done| <= j {
        assert claims[w][j - |done|] !in done;
      }
    }
  }

  lemma GrowClaim(done: seq<Id>, a: map<Id, Key>, b: map<Id, Key>, claims: map<Worker, seq<Id>>, w: Worker,
                  more: seq<Id>)
    requires ClaimsOk(done, a, claims)
    requires forall n :: n in a ==> n in b
    requires NoDup(more) && forall n :: n in more ==> n !in a && n in b
    ensures ClaimsOk(done, b, claims[w := (if w in claims then claims[w] else []) + more])
  {
    var own := if w in claims then claims[w] else [];
    var all := own + more;
    forall i, j | 0 <= i < j < |all| ensures all[i] != all[j] {
      if i < |own| <= j {
        assert more[j - |own|] !in own;
      }
    }
    forall v | v in claims && v != w ensures Apart(claims[v], all) && Apart(all, claims[v]) {
      assert w in claims ==> Apart(claims[v], own) && Apart(own, claims[v]);
      forall x | x in all ensures x !in claims[v] {
        assert x in own || x in more;
      }
    }
    forall x | x in all ensures x !in done && x in b {
      assert x in own || x in more;
    }
  }

  lemma ShrinkClaim(done: seq<Id>, inApp: map<Id, Key>, claims: map<Worker, seq<Id>>, w: Worker, less: seq<Id>)
    requires ClaimsOk(done, inApp, claims) && w in claims && less <= claims[w]
    ensures ClaimsOk(done, inApp, claims[w := less])
  {
    assert forall x :: x in less ==> x in claims[w];
    forall v | v in claims && v != w ensures Apart(claims[v], less) && Apart(less, claims[v]) {
      assert Apart(claims[v], claims[w]) && Apart(claims[w], claims[v]);
    }
  }

  // ── Opening and closing a transaction ───────────────────────────────────────

  lemma BeginKeepsDisjoint(s: State, kind: Kind, batch: seq<Fetched>)
    requires ValidBatch(s, kind, batch)
    ensures forall v :: v in s.open ==> BatchesApart(s.open[v].batch, batch) && BatchesApart(batch, s.open[v].batch)
  {
    forall v, i, j | v in s.open && 0 <= i < |s.open[v].batch| && 0 <= j < |batch|
      ensures s.open[v].batch[i].rid != batch[j].rid
    {
      assert Eligible(s, kind, batch[j].rid);
      assert !InBatch(s.open[v].batch, batch[j].rid);
    }
  }

  lemma BeginKeepsTxs(s: State, w: Worker, kind: Kind, batch: seq<Fetched>)
    requires TxsOk(s.outbox, s.open) && Disjoint(s.open) && TasksOk(s.open)
    requires ValidBatch(s, kind, batch)
    ensures var open := s.open[w := Tx(kind, batch, [], None, [])];
            TxsOk(s.outbox, open) && TasksOk(open) && (w !in s.open ==> Disjoint(open))
  {
    BeginKeepsDisjoint(s, kind, batch);
    assert TxOk(s.outbox, Tx(kind, batch, [], None, [])) by {
      forall i | 0 <= i < |batch| ensures Eligible(s, kind, batch[i].rid) {
      }
    }
  }

  lemma BeginKeepsCreated(s: State, w: Worker, tx: Tx)
    requires CreatedOk(s.committed, s.inApp, s.open) && w !in s.open && tx.tries == [] && tx.effect.None?
    ensures CreatedOk(s.committed, s.inApp, s.open[w := tx])
  {
    GrowClaim(CreatedBy(s.committed), s.inApp, s.inApp, Claims(s.open), w, []);
    ClaimsUpdated(s.open, w, tx);
  }

  lemma BeginKeeps(cfg: Config, s: State, w: Worker, kind: Kind, batch: seq<Fetched>)
    requires Inv(cfg, s) && Apply(cfg, s, Begin(w, kind, batch)).Some?
    ensures Inv(cfg, Apply(cfg, s, Begin(w, kind, batch)).value)
  {
    var t := Apply(cfg, s, Begin(w, kind, batch)).value;
    BeginKeepsTxs(s, w, kind, batch);
    BeginKeepsCreated(s, w, Tx(kind, batch, [], None, []));
    EvidenceKept(cfg, s, t, w);
  }

  lemma RollbackKeeps(cfg: Config, s: State, w: Worker)
    requires Inv(cfg, s) && Apply(cfg, s, Rollback(w)).Some?
    ensures Inv(cfg, Apply(cfg, s, Rollback(w)).value)
  {
    var t := Apply(cfg, s, Rollback(w)).value;
    EvidenceKept(cfg, s, t, w);
    ReleaseClaim(CreatedBy(s.committed), s.inApp, Claims(s.open), w);
    ClaimsRemoved(s, w);
  }

  lemma CommitGrowsTable(outbox: map<RowId, Row>, tx: Tx)
    requires TxOk(outbox, tx) && |tx.tries| == |tx.batch|
    ensures var after := Marked(outbox, tx.batch, tx.tries);
            TableGrows(outbox, after) && after.Keys == outbox.Keys
  {
    var after := Marked(outbox, tx.batch, tx.tries);
    MarkedRows(outbox, tx.batch, tx.tries);
    forall r | r in outbox ensures after[r].key == outbox[r].key && after[r].linked == outbox[r].linked {
      if i :| 0 <= i < |tx.tries| && tx.batch[i].rid == r {
        assert after[r] == Mark(outbox, tx.batch[i], tx.tries[i].outcome)[r];
      }
    }
  }

  lemma CommitKeepsTxs(s: State, w: Worker)
    requires TxsOk(s.outbox, s.open) && Disjoint(s.open)
    requires w in s.open && |s.open[w].tries| == |s.open[w].batch|
    ensures TxsOk(Marked(s.outbox, s.open[w].batch, s.open[w].tries), s.open - {w})
  {
    var tx := s.open[w];
    var outbox := Marked(s.outbox, tx.batch, tx.tries);
    assert TxOk(s.outbox, tx);
    MarkedRows(s.outbox, tx.batch, tx.tries);
    forall v | v in s.open && v != w ensures TxOk(outbox, s.open[v]) {
      assert TxOk(s.outbox, s.open[v]) && BatchesApart(tx.batch, s.open[v].batch);
    }
  }

  lemma CommitKeepsTable(s: State, w: Worker)
    requires TxsOk(s.outbox, s.open) && Disjoint(s.open) && RowsOk(s.outbox)
    requires SendsOk(s.outbox, s.sends) && PublishedOk(s.outbox, s.published)
    requires w in s.open && |s.open[w].tries| == |s.open[w].batch|
    ensures var outbox := Marked(s.outbox, s.open[w].batch, s.open[w].tries);
            && TxsOk(outbox, s.open - {w})
            && RowsOk(outbox)
            && SendsOk(outbox, s.sends)
            && PublishedOk(outbox, s.published)
            && TableGrows(s.outbox, outbox)
  {
    assert TxOk(s.outbox, s.open[w]);
    CommitGrowsTable(s.outbox, s.open[w]);
    CommitKeepsTxs(s, w);
  }

  /** The mark of a try is what the try does to the row's progress. */
  lemma MarkAdvances(outbox: map<RowId, Row>, f: Fetched, outcome: Outcome)
    requires f.rid in outbox && outbox[f.rid] == f.row && f.row.status.Pending?
    ensures var after := Mark(outbox, f, outcome);
            && f.rid in after
            && Progress(after[f.rid].status, after[f.rid].attempts) == Advance(Progress(f.row.status, f.row.attempts), outcome)
  {
  }

  lemma BatchRowAfter(outbox: map<RowId, Row>, tx: Tx, i: nat)
    requires TxOk(outbox, tx) && |tx.tries| == |tx.batch| && i < |tx.batch|
    ensures var rid, after := tx.batch[i].rid, Marked(outbox, tx.batch, tx.tries);
            && tx.tries[i].rid == rid && rid in outbox && rid in after
            && Progress(after[rid].status, after[rid].attempts)
               == Advance(Progress(outbox[rid].status, outbox[rid].attempts), tx.tries[i].outcome)
  {
    MarkedRows(outbox, tx.batch, tx.tries);
    MarkAdvances(outbox, tx.batch[i], tx.tries[i].outcome);
  }

  lemma OtherRowAfter(outbox: map<RowId, Row>, tx: Tx, r: RowId)
    requires TxOk(outbox, tx) && |tx.tries| == |tx.batch| && r in outbox
    requires forall i :: 0 <= i < |tx.tries| ==> tx.tries[i].rid != r
    ensures r in Marked(outbox, tx.batch, tx.tries) && Marked(outbox, tx.batch, tx.tries)[r] == outbox[r]
  {
    MarkedRows(outbox, tx.batch, tx.tries);
  }

  /** One row after the commit: its own try, if it was in the batch, advanced it. */
  lemma CommitKeepsRow(outbox: map<RowId, Row>, tx: Tx, committed: seq<Try>, r: RowId)
    requires TxOk(outbox, tx) && |tx.tries| == |tx.batch| && r in outbox
    requires Replay(committed, r) == Progress(outbox[r].status, outbox[r].attempts)
    ensures var after := Marked(outbox, tx.batch, tx.tries);
            r in after && Replay(committed + tx.tries, r) == Progress(after[r].status, after[r].attempts)
  {
    if i :| 0 <= i < |tx.tries| && tx.tries[i].rid == r {
      ReplayOnce(committed, tx.tries, i);
      BatchRowAfter(outbox, tx, i);
    } else {
      ReplayUntouched(committed, tx.tries, r);
      OtherRowAfter(outbox, tx, r);
    }
  }

  lemma CommitKeepsLog(s: State, w: Worker)
    requires TxsOk(s.outbox, s.open) && LogOk(s.outbox, s.committed)
    requires w in s.open && |s.open[w].tries| == |s.open[w].batch|
    ensures LogOk(Marked(s.outbox, s.open[w].batch, s.open[w].tries), s.committed + s.open[w].tries)
  {
    var tx := s.open[w];
    assert TxOk(s.outbox, tx);
    CommitGrowsTable(s.outbox, tx);
    CommitKeepsSerial(s.outbox, tx, s.committed);
    forall r | r in s.outbox
      ensures var after := Marked(s.outbox, tx.batch, tx.tries);
              r in after && Replay(s.committed + tx.tries, r) == Progress(after[r].status, after[r].attempts)
    {
      CommitKeepsRow(s.outbox, tx, s.committed, r);
    }
  }

  lemma CommitKeepsSerial(outbox: map<RowId, Row>, tx: Tx, committed: seq<Try>)
    requires TxOk(outbox, tx) && |tx.tries| == |tx.batch| && LogOk(outbox, committed)
    ensures Serial(committed + tx.tries)
    ensures forall i :: 0 <= i < |committed + tx.tries| ==> (committed + tx.tries)[i].rid in outbox
  {
    SerialExtend(committed, tx.tries);
  }

  lemma CommitKeepsLive(s: State, tx: Tx)
    requires LiveOk(s.committed, s.live, s.pushes, s.scheduled) && TxTasksOk(tx)
    requires NoDup(CreatedBy(tx.tries)) && Apart(CreatedBy(tx.tries), CreatedBy(s.committed))
    ensures LiveOk(s.committed + tx.tries, s.live + tx.tasks, s.pushes, s.scheduled)
  {
    CreatedByConcat(s.committed, tx.tries);
    assert Nids(s.live + tx.tasks) == Nids(s.live) + Nids(tx.tasks);
    forall i | 0 <= i < |tx.tasks| ensures tx.tasks[i].nid in CreatedBy(tx.tries) {
      assert Nids(tx.tasks)[i] == tx.tasks[i].nid;
    }
    forall i | 0 <= i < |s.live| ensures Nids(s.live)[i] in CreatedBy(s.committed) {
    }
  }

  lemma CommitReleases(s: State, w: Worker)
    requires LiveOk(s.committed, s.live, s.pushes, s.scheduled) && TasksOk(s.open)
    requires CreatedOk(s.committed, s.inApp, s.open) && w in s.open && Work(s.open[w]) == s.open[w].tries
    ensures LiveOk(s.committed + s.open[w].tries, s.live + s.open[w].tasks, s.pushes, s.scheduled)
  {
    assert Claims(s.open)[w] == CreatedBy(s.open[w].tries);
    CommitKeepsLive(s, s.open[w]);
  }

  lemma CommitKeepsCreated(s: State, w: Worker)
    requires CreatedOk(s.committed, s.inApp, s.open)
    requires w in s.open && Work(s.open[w]) == s.open[w].tries
    ensures CreatedOk(s.committed + s.open[w].tries, s.inApp, WithoutTx(s, w).open)
  {
    CreatedByConcat(s.committed, s.open[w].tries);
    ReleaseClaim(CreatedBy(s.committed), s.inApp, Claims(s.open), w);
    ClaimsRemoved(s, w);
  }

  lemma CommitKeepsEvidence(cfg: Config, s: State, t: State, w: Worker)
    requires EvidenceOk(cfg, s) && Grows(s, t)
    requires w in s.open && Work(s.open[w]) == s.open[w].tries
    requires t.committed == s.committed + s.open[w].tries && t.open == WithoutTx(s, w).open
    ensures EvidenceOk(cfg, t)
  {
    TriesGrow(cfg, s, t, s.committed);
    TriesGrow(cfg, s, t, s.open[w].tries);
    TriesEvidentConcat(cfg, t, s.committed, s.open[w].tries);
    forall v | v in t.open ensures TriesEvident(cfg, t, Work(t.open[v])) {
      TriesGrow(cfg, s, t, Work(s.open[v]));
    }
  }

  lemma CommitKeeps(cfg: Config, s: State, w: Worker)
    requires Inv(cfg, s) && Apply(cfg, s, Commit(w)).Some?
    ensures Inv(cfg, Apply(cfg, s, Commit(w)).value)
  {
    var t := Apply(cfg, s, Commit(w)).value;
    assert TxOk(s.outbox, s.open[w]);
    assert Work(s.open[w]) == s.open[w].tries;
    CommitKeepsTable(s, w);
    CommitKeepsLog(s, w);
    CommitKeepsCreated(s, w);
    CommitReleases(s, w);
    KeyTakenGrows(s.outbox, t.outbox, s.scheduled);
    CommitKeepsEvidence(cfg, s, t, w);
  }

  // ── Processing one row ──────────────────────────────────────────────────────

  /** The current row of an open transaction is the row as it stands in the table. */
  lemma CurrentRow(s: State, w: Worker)
    requires TxsOk(s.outbox, s.open) && Busy(s, w)
    ensures var f := Current(s, w);
            f.rid in s.outbox && s.outbox[f.rid] == f.row && f.rid.kind == s.open[w].kind
  {
    assert TxOk(s.outbox, s.open[w]);
  }

  /**
   The step set the effect of the current row to `e`, left the evidence for it, and claimed
   a notification only if it did not exist before.
   */
  ghost predicate EffectSet(cfg: Config, s: State, t: State, w: Worker, e: Effect) {
    && Busy(s, w)
    && (s.open[w].effect.None? || (s.open[w].effect == Some(e) && !e.Created?))
    && t.open == s.open[w := s.open[w].(effect := Some(e))]
    && t.outbox == s.outbox && t.committed == s.committed
    && Grows(s, t)
    && Evidence(cfg, t, Current(s, w).rid, e)
    && (e.Created? ==> e.nid !in s.inApp && e.nid in t.inApp)
  }

  lemma EffectKeeps(cfg: Config, s: State, t: State, w: Worker, e: Effect)
    requires TxsOk(s.outbox, s.open) && Disjoint(s.open) && TasksOk(s.open)
    requires EvidenceOk(cfg, s) && CreatedOk(s.committed, s.inApp, s.open)
    requires EffectSet(cfg, s, t, w, e)
    ensures TxsOk(t.outbox, t.open) && Disjoint(t.open) && TasksOk(t.open)
    ensures EvidenceOk(cfg, t) && CreatedOk(t.committed, t.inApp, t.open)
  {
    EffectKeepsEvidence(cfg, s, t, w, e);
    EffectKeepsCreated(cfg, s, t, w, e);
    EffectKeepsTxs(s.outbox, s.open, w, e);
  }

  lemma EffectKeepsTxs(outbox: map<RowId, Row>, open: map<Worker, Tx>, w: Worker, e: Effect)
    requires TxsOk(outbox, open) && Disjoint(open) && TasksOk(open)
    requires w in open && |open[w].tries| < |open[w].batch|
    ensures var after := open[w := open[w].(effect := Some(e))];
            TxsOk(outbox, after) && Disjoint(after) && TasksOk(after)
  {
    assert TxOk(outbox, open[w]) && TxTasksOk(open[w]);
    SameBatchesKeepDisjoint(open, w, open[w].(effect := Some(e)));
  }

  lemma EffectKeepsEvidence(cfg: Config, s: State, t: State, w: Worker, e: Effect)
    requires TxsOk(s.outbox, s.open) && EvidenceOk(cfg, s) && EffectSet(cfg, s, t, w, e)
    ensures EvidenceOk(cfg, t)
  {
    var tries := s.open[w].tries;
    var before := Work(s.open[w]);
    var last := [Try(Current(s, w).rid, Succeeded(e))];
    assert before == tries + before[|tries|..];
    TriesEvidentConcat(cfg, s, tries, before[|tries|..]);
    TriesGrow(cfg, s, t, tries);
    TriesEvidentConcat(cfg, t, tries, last);
    TriesGrow(cfg, s, t, s.committed);
    forall v | v in s.open && v != w ensures TriesEvident(cfg, t, Work(t.open[v])) {
      TriesGrow(cfg, s, t, Work(s.open[v]));
    }
  }

  /** What an effect adds to its transaction's claims: the notification, if it is a new one. */
  lemma EffectClaims(tx: Tx, e: Effect)
    requires |tx.tries| < |tx.batch| && (tx.effect.None? || (tx.effect == Some(e) && !e.Created?))
    ensures CreatedBy(Work(tx.(effect := Some(e))))
            == CreatedBy(Work(tx)) + (if tx.effect.None? then CreatedIn(Succeeded(e)) else [])
  {
    CreatedBySnoc(tx.tries, Try(tx.batch[|tx.tries|].rid, Succeeded(e)));
  }

  lemma EffectKeepsCreated(cfg: Config, s: State, t: State, w: Worker, e: Effect)
    requires CreatedOk(s.committed, s.inApp, s.open) && EffectSet(cfg, s, t, w, e)
    ensures CreatedOk(t.committed, t.inApp, t.open)
  {
    var claim := if s.open[w].effect.None? then CreatedIn(Succeeded(e)) else [];
    EffectClaims(s.open[w], e);
    GrowClaim(CreatedBy(s.committed), s.inApp, t.inApp, Claims(s.open), w, claim);
    ClaimsUpdated(s.open, w, t.open[w]);
  }

  /** Every step inside `processRow` sets the effect of the current row and leaves the rest alone. */
  ghost predicate OnlyEffect(cfg: Config, s: State, t: State, w: Worker) {
    && w in t.open && t.open[w].effect.Some?
    && EffectSet(cfg, s, t, w, t.open[w].effect.value)
    && t.live == s.live && t.pushes == s.pushes && t.scheduled == s.scheduled && t.audit == s.audit
  }

  lemma NotifySetsEffect(cfg: Config, s: State, w: Worker, nid: Id)
    requires TxsOk(s.outbox, s.open) && Apply(cfg, s, Notify(w, nid)).Some?
    ensures OnlyEffect(cfg, s, Apply(cfg, s, Notify(w, nid)).value, w)
  {
    CurrentRow(s, w);
  }

  lemma PublishSetsEffect(cfg: Config, s: State, w: Worker)
    requires TxsOk(s.outbox, s.open) && Apply(cfg, s, Publish(w)).Some?
    ensures OnlyEffect(cfg, s, Apply(cfg, s, Publish(w)).value, w)
  {
    CurrentRow(s, w);
  }

  lemma SendEmailSetsEffect(cfg: Config, s: State, w: Worker)
    requires TxsOk(s.outbox, s.open) && Apply(cfg, s, SendEmail(w)).Some?
    ensures OnlyEffect(cfg, s, Apply(cfg, s, SendEmail(w)).value, w)
  {
    CurrentRow(s, w);
  }

  lemma SkipSetsEffect(cfg: Config, s: State, step: Step)
    requires step.Suppress? || step.Unroute?
    requires TxsOk(s.outbox, s.open) && RowsOk(s.outbox) && Apply(cfg, s, step).Some?
    ensures OnlyEffect(cfg, s, Apply(cfg, s, step).value, step.w)
  {
    CurrentRow(s, step.w);
  }

  lemma RowStepSetsEffect(cfg: Config, s: State, step: Step)
    requires step.Suppress? || step.Unroute? || step.Publish? || step.SendEmail? || step.Notify?
    requires TxsOk(s.outbox, s.open) && RowsOk(s.outbox) && Apply(cfg, s, step).Some?
    ensures OnlyEffect(cfg, s, Apply(cfg, s, step).value, step.w)
  {
    match step
    case Notify(w, nid) => NotifySetsEffect(cfg, s, w, nid);
    case Publish(w) => PublishSetsEffect(cfg, s, w);
    case SendEmail(w) => SendEmailSetsEffect(cfg, s, w);
    case _ => SkipSetsEffect(cfg, s, step);
  }

  lemma RowStepKeepsLogs(cfg: Config, s: State, step: Step)
    requires step.Suppress? || step.Unroute? || step.Publish? || step.SendEmail? || step.Notify?
    requires TxsOk(s.outbox, s.open) && Apply(cfg, s, step).Some?
    requires InAppOk(s.inApp) && SendsOk(s.outbox, s.sends)
    requires PublishedOk(s.outbox, s.published) && AuditOk(s.published, s.audit)
    ensures var t := Apply(cfg, s, step).value;
            && InAppOk(t.inApp)
            && SendsOk(t.outbox, t.sends)
            && PublishedOk(t.outbox, t.published)
            && AuditOk(t.published, t.audit)
  {
    CurrentRow(s, step.w);
    if step.Publish? {
      assert Current(s, step.w).rid == RowId(Events, Current(s, step.w).rid.id);
    }
  }

  lemma RowStepKeeps(cfg: Config, s: State, step: Step)
    requires step.Suppress? || step.Unroute? || step.Publish? || step.SendEmail? || step.Notify?
    requires Inv(cfg, s) && Apply(cfg, s, step).Some?
    ensures Inv(cfg, Apply(cfg, s, step).value)
  {
    RowStepSetsEffect(cfg, s, step);
    var t := Apply(cfg, s, step).value;
    EffectKeeps(cfg, s, t, step.w, t.open[step.w].effect.value);
    RowStepKeepsLogs(cfg, s, step);
  }

  /** The step recorded the outcome of the current row and collected the tasks that go with it. */
  ghost predicate TrySet(s: State, t: State, w: Worker, outcome: Outcome, tasks: seq<Task>) {
    && Busy(s, w)
    && t == WithTry(s, w, outcome, tasks)
    && (outcome.Succeeded? ==> s.open[w].effect == Some(outcome.effect))
    && Nids(tasks) == CreatedIn(outcome)
    && (forall i :: 0 <= i < |tasks| ==> !tasks[i].pushed)
  }

  lemma TryKeepsEvidence(cfg: Config, s: State, t: State, w: Worker, outcome: Outcome, tasks: seq<Task>)
    requires TxsOk(s.outbox, s.open) && EvidenceOk(cfg, s) && TrySet(s, t, w, outcome, tasks)
    ensures EvidenceOk(cfg, t)
  {
    var tries := s.open[w].tries;
    var before := Work(s.open[w]);
    var last := [Try(Current(s, w).rid, outcome)];
    assert before == tries + before[|tries|..];
    TriesEvidentConcat(cfg, s, tries, before[|tries|..]);
    assert outcome.Succeeded? ==> before[|tries|..] == last;
    TriesEvidentConcat(cfg, s, tries, last);
    TriesGrow(cfg, s, t, tries + last);
    TriesGrow(cfg, s, t, s.committed);
    forall v | v in s.open && v != w ensures TriesEvident(cfg, t, Work(t.open[v])) {
      TriesGrow(cfg, s, t, Work(s.open[v]));
    }
  }

  lemma TryKeepsCreated(s: State, t: State, w: Worker, outcome: Outcome, tasks: seq<Task>)
    requires TxsOk(s.outbox, s.open) && CreatedOk(s.committed, s.inApp, s.open) && TrySet(s, t, w, outcome, tasks)
    ensures CreatedOk(t.committed, t.inApp, t.open)
  {
    var tries := s.open[w].tries;
    var rid := Current(s, w).rid;
    assert Work(t.open[w]) == t.open[w].tries == tries + [Try(rid, outcome)];
    CreatedBySnoc(tries, Try(rid, outcome));
    if s.open[w].effect.Some? {
      CreatedBySnoc(tries, Try(rid, Succeeded(s.open[w].effect.value)));
    }
    ShrinkClaim(CreatedBy(s.committed), s.inApp, Claims(s.open), w, CreatedBy(t.open[w].tries));
    ClaimsUpdated(s.open, w, t.open[w]);
  }

  lemma TryKeepsTxs(s: State, t: State, w: Worker, outcome: Outcome, tasks: seq<Task>)
    requires TxsOk(s.outbox, s.open) && Disjoint(s.open) && TasksOk(s.open) && TrySet(s, t, w, outcome, tasks)
    ensures TxsOk(t.outbox, t.open) && Disjoint(t.open) && TasksOk(t.open)
  {
    TryKeepsTx(s.outbox, s.open[w], outcome, tasks);
    TryKeepsTasks(s, t, w, outcome, tasks);
    SameBatchesKeepDisjoint(s.open, w, t.open[w]);
  }

  lemma SameBatchesKeepDisjoint(open: map<Worker, Tx>, w: Worker, tx: Tx)
    requires Disjoint(open) && w in open && tx.batch == open[w].batch
    ensures Disjoint(open[w := tx])
  {
  }

  lemma TryKeepsTx(outbox: map<RowId, Row>, tx: Tx, outcome: Outcome, tasks: seq<Task>)
    requires TxOk(outbox, tx) && |tx.tries| < |tx.batch|
    ensures var tries := tx.tries + [Try(tx.batch[|tx.tries|].rid, outcome)];
            TxOk(outbox, tx.(tries := tries, effect := None, tasks := tx.tasks + tasks))
  {
  }

  lemma TryKeepsTasks(s: State, t: State, w: Worker, outcome: Outcome, tasks: seq<Task>)
    requires TasksOk(s.open) && TrySet(s, t, w, outcome, tasks)
    ensures TasksOk(t.open)
  {
    assert TxTasksOk(s.open[w]);
    CreatedBySnoc(s.open[w].tries, Try(Current(s, w).rid, outcome));
    assert Nids(s.open[w].tasks + tasks) == Nids(s.open[w].tasks) + Nids(tasks);
    assert TxTasksOk(t.open[w]);
  }

  lemma TryKeeps(cfg: Config, s: State, t: State, w: Worker, outcome: Outcome, tasks: seq<Task>)
    requires Inv(cfg, s) && TrySet(s, t, w, outcome, tasks)
    ensures Inv(cfg, t)
  {
    TryKeepsTxs(s, t, w, outcome, tasks);
    TryKeepsEvidence(cfg, s, t, w, outcome, tasks);
    TryKeepsCreated(s, t, w, outcome, tasks);
  }

  lemma MarkSentKeeps(cfg: Config, s: State, w: Worker, emailEnabled: bool)
    requires Inv(cfg, s) && Apply(cfg, s, MarkSent(w, emailEnabled)).Some?
    ensures Inv(cfg, Apply(cfg, s, MarkSent(w, emailEnabled)).value)
  {
    var e := s.open[w].effect.value;
    var tasks := if e.Created? then [Task(e.nid, emailEnabled, false)] else [];
    MarkSentSets(cfg, s, w, emailEnabled, e, tasks);
    TryKeeps(cfg, s, Apply(cfg, s, MarkSent(w, emailEnabled)).value, w, Succeeded(e), tasks);
  }

  lemma MarkSentSets(cfg: Config, s: State, w: Worker, emailEnabled: bool, e: Effect, tasks: seq<Task>)
    requires Busy(s, w) && s.open[w].effect == Some(e)
    requires tasks == if e.Created? then [Task(e.nid, emailEnabled, false)] else []
    ensures Apply(cfg, s, MarkSent(w, emailEnabled)).Some?
    ensures TrySet(s, Apply(cfg, s, MarkSent(w, emailEnabled)).value, w, Succeeded(e), tasks)
  {
    assert Nids(tasks) == CreatedIn(Succeeded(e));
  }

  lemma MarkFailedKeeps(cfg: Config, s: State, w: Worker)
    requires Inv(cfg, s) && Apply(cfg, s, MarkFailed(w)).Some?
    ensures Inv(cfg, Apply(cfg, s, MarkFailed(w)).value)
  {
    MarkFailedSets(cfg, s, w);
    TryKeeps(cfg, s, Apply(cfg, s, MarkFailed(w)).value, w, Threw, []);
  }

  lemma MarkFailedSets(cfg: Config, s: State, w: Worker)
    requires Busy(s, w)
    ensures Apply(cfg, s, MarkFailed(w)).Some?
    ensures TrySet(s, Apply(cfg, s, MarkFailed(w)).value, w, Threw, [])
  {
  }

  // ── Post-commit tasks ───────────────────────────────────────────────────────

  /** Of the invariant, only its part about released tasks depends on them. */
  lemma TasksOnly(cfg: Config, s: State, live: seq<Task>, pushes: seq<Id>)
    requires Inv(cfg, s) && LiveOk(s.committed, live, pushes, s.scheduled)
    ensures Inv(cfg, s.(live := live, pushes := pushes))
  {
    EvidenceStays(cfg, s, s.(live := live, pushes := pushes));
  }

  lemma PushKeepsLive(committed: seq<Try>, live: seq<Task>, pushes: seq<Id>, scheduled: seq<Id>, i: nat)
    requires LiveOk(committed, live, pushes, scheduled) && i < |live| && !live[i].pushed
    ensures LiveOk(committed, live[i := live[i].(pushed := true)], pushes + [live[i].nid], scheduled)
  {
    var after := live[i := live[i].(pushed := true)];
    assert Nids(after) == Nids(live);
    forall j | 0 <= j < |live| && j != i ensures live[j].nid != live[i].nid {
      assert Nids(live)[j] != Nids(live)[i];
    }
  }

  lemma PushKeeps(cfg: Config, s: State, i: nat)
    requires Inv(cfg, s) && Apply(cfg, s, Push(i)).Some?
    ensures Inv(cfg, Apply(cfg, s, Push(i)).value)
  {
    var t := Apply(cfg, s, Push(i)).value;
    PushKeepsLive(s.committed, s.live, s.pushes, s.scheduled, i);
    TasksOnly(cfg, s, t.live, t.pushes);
    assert t == s.(live := t.live, pushes := t.pushes);
  }

  lemma WithoutFacts(live: seq<Task>, i: nat)
    requires NoDup(Nids(live)) && i < |live|
    ensures NoDup(Nids(Without(live, i)))
    ensures forall j :: 0 <= j < |Without(live, i)| ==>
              Without(live, i)[j] in live && Without(live, i)[j].nid != live[i].nid
  {
    var rest := Without(live, i);
    forall j | 0 <= j < |rest|
      ensures Nids(rest)[j] == Nids(live)[if j < i then j else j + 1] && rest[j] in live && rest[j].nid != live[i].nid
    {
      assert rest[j] == live[if j < i then j else j + 1];
      assert Nids(live)[if j < i then j else j + 1] != Nids(live)[i];
    }
  }

  lemma EndKeepsLive(committed: seq<Try>, live: seq<Task>, pushes: seq<Id>, scheduled: seq<Id>, i: nat)
    requires LiveOk(committed, live, pushes, scheduled) && i < |live|
    ensures LiveOk(committed, Without(live, i), pushes, scheduled)
    ensures live[i].pushed ==> LiveOk(committed, Without(live, i), pushes, scheduled + [live[i].nid])
  {
    WithoutFacts(live, i);
  }

  /** The email row is added while the task is still there; taking the task away is the other half. */
  lemma ScheduleKeeps(cfg: Config, s: State, i: nat, id: Id)
    requires Inv(cfg, s) && Apply(cfg, s, ScheduleEmail(i, id)).Some?
    ensures Inv(cfg, Apply(cfg, s, ScheduleEmail(i, id)).value)
  {
    var t := Apply(cfg, s, ScheduleEmail(i, id)).value;
    var rid, key := RowId(Emails, id), NotificationEmailKey(s.live[i].nid);
    assert Apply(cfg, s, Enqueue(rid, Some(key), s.now)) == Some(s.(outbox := t.outbox));
    EnqueueKeeps(cfg, s, rid, Some(key), s.now);
    InsertRowFacts(s.outbox, rid, Some(key), s.now);
    EndKeepsLive(s.committed, s.live, s.pushes, s.scheduled, i);
    ScheduledOnly(cfg, s.(outbox := t.outbox), t.live, s.live[i].nid);
    assert t == s.(outbox := t.outbox).(live := t.live, scheduled := s.scheduled + [s.live[i].nid]);
  }

  lemma ScheduledOnly(cfg: Config, s: State, live: seq<Task>, nid: Id)
    requires Inv(cfg, s) && LiveOk(s.committed, live, s.pushes, s.scheduled + [nid])
    requires KeyTaken(s.outbox, Emails, NotificationEmailKey(nid))
    ensures Inv(cfg, s.(live := live, scheduled := s.scheduled + [nid]))
  {
    EvidenceStays(cfg, s, s.(live := live, scheduled := s.scheduled + [nid]));
  }

  lemma AbandonKeeps(cfg: Config, s: State, i: nat)
    requires Inv(cfg, s) && Apply(cfg, s, Abandon(i)).Some?
    ensures Inv(cfg, Apply(cfg, s, Abandon(i)).value)
  {
    var t := Apply(cfg, s, Abandon(i)).value;
    EndKeepsLive(s.committed, s.live, s.pushes, s.scheduled, i);
    TasksOnly(cfg, s, t.live, s.pushes);
    assert t == s.(live := t.live, pushes := s.pushes);
  }

  lemma ConsumeKeepsAudit(published: seq<Id>, audit: map<Id, Option<Id>>, eid: Id, aid: Id)
    requires AuditOk(published, audit) && eid in published && !Audited(audit, eid) && aid !in audit
    ensures AuditOk(published, audit[aid := Some(eid)])
  {
    assert forall a :: a in audit ==> audit[a] != Some(eid);
  }

  /** Nothing of the invariant but the audit table's part depends on the clock or the audit table. */
  lemma AuditOnly(cfg: Config, s: State, now: int, audit: map<Id, Option<Id>>)
    requires Inv(cfg, s) && AuditOk(s.published, audit)
    ensures Inv(cfg, s.(now := now, audit := audit))
  {
    EvidenceStays(cfg, s, s.(now := now, audit := audit));
  }

  lemma AuditStepKeeps(cfg: Config, s: State, step: Step)
    requires step.Tick? || step.Consume? || step.RecordDirect?
    requires Inv(cfg, s) && Apply(cfg, s, step).Some?
    ensures Inv(cfg, Apply(cfg, s, step).value)
  {
    var t := Apply(cfg, s, step).value;
    if step.Consume? && !Audited(s.audit, step.eid) {
      ConsumeKeepsAudit(s.published, s.audit, step.eid, step.aid);
    }
    assert AuditOk(s.published, t.audit);
    AuditOnly(cfg, s, t.now, t.audit);
    assert t == s.(now := t.now, audit := t.audit);
  }

  // ── All together ────────────────────────────────────────────────────────────

  lemma StepKeepsInv(cfg: Config, s: State, step: Step)
    requires Inv(cfg, s) && Apply(cfg, s, step).Some?
    ensures Inv(cfg, Apply(cfg, s, step).value)
  {
    match step
    case Enqueue(rid, key, at) => EnqueueKeeps(cfg, s, rid, key, at);
    case Begin(w, kind, batch) => BeginKeeps(cfg, s, w, kind, batch);
    case Commit(w) => CommitKeeps(cfg, s, w);
    case Rollback(w) => RollbackKeeps(cfg, s, w);
    case MarkSent(w, emailEnabled) => MarkSentKeeps(cfg, s, w, emailEnabled);
    case MarkFailed(w) => MarkFailedKeeps(cfg, s, w);
    case Push(i) => PushKeeps(cfg, s, i);
    case ScheduleEmail(i, id) => ScheduleKeeps(cfg, s, i, id);
    case Abandon(i) => AbandonKeeps(cfg, s, i);
    case Tick(_) => AuditStepKeeps(cfg, s, step);
    case Consume(_, _) => AuditStepKeeps(cfg, s, step);
    case RecordDirect(_) => AuditStepKeeps(cfg, s, step);
    case _ => RowStepKeeps(cfg, s, step);
  }

  lemma {:induction false} RunKeepsInv(cfg: Config, s: State, steps: seq<Step>)
    requires Inv(cfg, s) && Exec(cfg, s, steps).Some?
    ensures Inv(cfg, Exec(cfg, s, steps).value)
    decreases |steps|
  {
    if steps != [] {
      StepKeepsInv(cfg, s, steps[0]);
      RunKeepsInv(cfg, Apply(cfg, s, steps[0]).value, steps[1..]);
    }
  }

  lemma InitInv(cfg: Config)
    ensures Inv(cfg, INIT)
  {
  }
}
