/** Runs of the pipeline that reach the states its comments do not promise. */
module OutboxWitnesses {
  import opened Options
  import opened OutboxModel
  import opened OutboxInvariants
  import opened OutboxTheorems
  import opened OutboxOrphans

  const NOTE_ROW := RowId(Notifications, "row")

  function NoteRow(key: Key, status: Status, attempts: nat): Row {
    Row(Some(key), true, 0, status, attempts)
  }

  /** The only row of the table was tried once, after its notification had been inserted, and failed. */
  function FailedAfterInsert(key: Key, uuid: Key): State {
    INIT.(outbox := map[NOTE_ROW := NoteRow(key, Pending, 1)],
          inApp := map["note" := uuid],
          committed := [Try(NOTE_ROW, Threw)])
  }

  /** A transaction over one row, about to commit. */
  lemma CommitOne(cfg: Config, s: State, f: Fetched, outcome: Outcome)
    requires s.open == map[0 := Tx(f.rid.kind, [f], [Try(f.rid, outcome)], None, [])]
    ensures Apply(cfg, s, Commit(0)) == Some(s.(
              open := map[],
              outbox := Mark(s.outbox, f, outcome),
              committed := s.committed + [Try(f.rid, outcome)]))
  {
    assert Marked(s.outbox, [f], [Try(f.rid, outcome)]) == Mark(s.outbox, f, outcome) by {
      assert [Try(f.rid, outcome)][..0] == [];
    }
    assert s.live + [] == s.live;
    assert s.open - {0} == map[];
  }

  /** The end of the only row's processing: marked as given, then committed. */
  lemma MarkOne(cfg: Config, s: State, f: Fetched, effect: Option<Effect>, outcome: Outcome, step: Step)
    requires s.open == map[0 := Tx(f.rid.kind, [f], [], effect, [])]
    requires
      || (step == MarkFailed(0) && outcome == Threw)
      || (step == MarkSent(0, false) && effect == Some(Deduplicated) && outcome == Succeeded(Deduplicated))
    ensures Apply(cfg, s, step) == Some(s.(open := map[0 := Tx(f.rid.kind, [f], [Try(f.rid, outcome)], None, [])]))
  {
    var tx := Tx(f.rid.kind, [f], [Try(f.rid, outcome)], None, []);
    assert WithTry(s, 0, outcome, []).open[0] == tx;
    assert s.open[0 := tx] == map[0 := tx];
  }

  /** The row is queued, and fetched by worker 0. */
  lemma OneRowFetched(cfg: Config, f: Fetched)
    requires f == Fetched(NOTE_ROW, f.row) && f.row == Row(f.row.key, true, 0, Pending, 0)
    ensures Reachable(cfg, INIT.(outbox := map[NOTE_ROW := f.row], open := map[0 := Tx(Notifications, [f], [], None, [])]))
  {
    var queued := INIT.(outbox := map[NOTE_ROW := f.row]);
    var begun := queued.(open := map[0 := Tx(Notifications, [f], [], None, [])]);
    assert Exec(cfg, INIT, []) == Some(INIT);
    assert InsertRow(map[], NOTE_ROW, f.row.key, 0) == map[NOTE_ROW := f.row];
    ReachableStep(cfg, INIT, Enqueue(NOTE_ROW, f.row.key, 0), queued);
    OneRowBatch(queued, f);
    assert INIT.open[0 := begun.open[0]] == begun.open;
    ReachableStep(cfg, queued, Begin(0, Notifications, [f]), begun);
  }

  lemma InsertThenThrow(cfg: Config, key: Key, uuid: Key)
    requires cfg.uuid(key) == Some(uuid)
    ensures Reachable(cfg, FailedAfterInsert(key, uuid))
  {
    var f := Fetched(NOTE_ROW, NoteRow(key, Pending, 0));
    var s2 := INIT.(outbox := map[NOTE_ROW := f.row], open := map[0 := Tx(Notifications, [f], [], None, [])]);
    var s3 := s2.(open := map[0 := Tx(Notifications, [f], [], Some(Created("note")), [])], inApp := map["note" := uuid]);
    var s4 := s3.(open := map[0 := Tx(Notifications, [f], [Try(NOTE_ROW, Threw)], None, [])]);
    OneRowFetched(cfg, f);
    NotifyOne(cfg, s2, f, key, uuid);
    ReachableStep(cfg, s2, Notify(0, "note"), s3);
    MarkOne(cfg, s3, f, Some(Created("note")), Threw, MarkFailed(0));
    ReachableStep(cfg, s3, MarkFailed(0), s4);
    CommitOne(cfg, s4, f, Threw);
    assert FailedAfterInsert(key, uuid).committed == [] + [Try(NOTE_ROW, Threw)];
    assert Mark(s4.outbox, f, Threw) == FailedAfterInsert(key, uuid).outbox;
    ReachableStep(cfg, s4, Commit(0), FailedAfterInsert(key, uuid));
  }

  lemma NotifyOne(cfg: Config, s: State, f: Fetched, key: Key, uuid: Key)
    requires cfg.uuid(key) == Some(uuid) && s.inApp == map[] && f == Fetched(NOTE_ROW, NoteRow(key, Pending, 0))
    requires s.open == map[0 := Tx(Notifications, [f], [], None, [])]
    ensures Apply(cfg, s, Notify(0, "note")) == Some(s.(
              open := map[0 := Tx(Notifications, [f], [], Some(Created("note")), [])], inApp := map["note" := uuid]))
  {
    var tx := Tx(Notifications, [f], [], Some(Created("note")), []);
    assert !HasUuid(s.inApp, uuid) && CurrentKey(s, 0) == key;
    assert s.open[0 := tx] == map[0 := tx] && s.inApp["note" := uuid] == map["note" := uuid];
  }

  /**
   A row can be durably 'sent', with its notification in the table, and yet no task was ever
   collected for it: the first try inserts the notification and then throws (while looking up
   the email preference), so the retry finds the source key taken.
   */
  lemma SentButNeverPushed(cfg: Config, key: Key, uuid: Key) returns (s: State)
    requires cfg.uuid(key) == Some(uuid)
    ensures Reachable(cfg, s)
    ensures NOTE_ROW in s.outbox && s.outbox[NOTE_ROW].status.Done? && s.outbox[NOTE_ROW].key == Some(key)
    ensures "note" in s.inApp && s.inApp["note"] == uuid
    ensures Orphan(s, "note")
  {
    var before := FailedAfterInsert(key, uuid);
    var f := Fetched(NOTE_ROW, NoteRow(key, Pending, 1));
    var success := Try(NOTE_ROW, Succeeded(Deduplicated));
    var s1 := before.(open := map[0 := Tx(Notifications, [f], [], None, [])]);
    var s2 := before.(open := map[0 := Tx(Notifications, [f], [], Some(Deduplicated), [])]);
    var s3 := before.(open := map[0 := Tx(Notifications, [f], [success], None, [])]);
    s := before.(outbox := Mark(before.outbox, f, success.outcome), committed := before.committed + [success]);
    OneRowBatch(before, f);
    assert HasUuid(s1.inApp, uuid) by { assert s1.inApp["note"] == uuid; }
    assert s1.open[0 := s2.open[0]] == s2.open;
    MarkOne(cfg, s2, f, Some(Deduplicated), success.outcome, MarkSent(0, false));
    CommitOne(cfg, s3, f, success.outcome);
    InsertThenThrow(cfg, key, uuid);
    assert before.open[0 := s1.open[0]] == s1.open;
    ReachableStep(cfg, before, Begin(0, Notifications, [f]), s1);
    ReachableStep(cfg, s1, Notify(0, "spare"), s2);
    ReachableStep(cfg, s2, MarkSent(0, false), s3);
    ReachableStep(cfg, s3, Commit(0), s);
    CreatedBySnoc(before.committed, success);
    CreatedBySnoc([], Try(NOTE_ROW, Threw));
    assert [] + [Try(NOTE_ROW, Threw)] == before.committed;
  }

  lemma OneRowBatch(s: State, f: Fetched)
    requires s.open == map[] && s.outbox == map[f.rid := f.row] && Due(s.now, f.rid, f.row)
    ensures ValidBatch(s, f.rid.kind, [f])
  {
    assert InBatch([f], f.rid) by { assert [f][0].rid == f.rid; }
  }

  // ── A source key that is no uuid ────────────────────────────────────────────

  /** The only row of the table after `k` tries that all threw. */
  function TriedInVain(key: Key, k: nat): State {
    INIT.(outbox := map[NOTE_ROW := NoteRow(key, if k >= MAX_ATTEMPTS then Failed else Pending, k)],
          committed := seq(k, _ => Try(NOTE_ROW, Threw)))
  }

  lemma {:induction false} TriesInVain(cfg: Config, key: Key, k: nat)
    requires k <= MAX_ATTEMPTS
    ensures Reachable(cfg, TriedInVain(key, k))
  {
    if k == 0 {
      assert Exec(cfg, INIT, []) == Some(INIT);
      assert InsertRow(map[], NOTE_ROW, Some(key), 0) == map[NOTE_ROW := NoteRow(key, Pending, 0)];
      assert TriedInVain(key, 0).committed == [];
      ReachableStep(cfg, INIT, Enqueue(NOTE_ROW, Some(key), 0), TriedInVain(key, 0));
    } else {
      TriesInVain(cfg, key, k - 1);
      OneTryInVain(cfg, key, k - 1);
    }
  }

  lemma AfterOneMore(key: Key, k: nat)
    requires k < MAX_ATTEMPTS
    ensures var before, f := TriedInVain(key, k), Fetched(NOTE_ROW, NoteRow(key, Pending, k));
            TriedInVain(key, k + 1) == before.(outbox := Mark(before.outbox, f, Threw),
                                               committed := before.committed + [Try(NOTE_ROW, Threw)])
  {
    var before, after := TriedInVain(key, k), TriedInVain(key, k + 1);
    assert before.committed + [Try(NOTE_ROW, Threw)] == after.committed;
    assert Mark(before.outbox, Fetched(NOTE_ROW, NoteRow(key, Pending, k)), Threw) == after.outbox;
  }

  lemma OneTryInVain(cfg: Config, key: Key, k: nat)
    requires k < MAX_ATTEMPTS && Reachable(cfg, TriedInVain(key, k))
    ensures Reachable(cfg, TriedInVain(key, k + 1))
  {
    var before := TriedInVain(key, k);
    var f := Fetched(NOTE_ROW, NoteRow(key, Pending, k));
    var s1 := before.(open := map[0 := Tx(Notifications, [f], [], None, [])]);
    var s2 := before.(open := map[0 := Tx(Notifications, [f], [Try(NOTE_ROW, Threw)], None, [])]);
    OneRowBatch(before, f);
    assert before.open[0 := s1.open[0]] == s1.open;
    ReachableStep(cfg, before, Begin(0, Notifications, [f]), s1);
    MarkOne(cfg, s1, f, None, Threw, MarkFailed(0));
    ReachableStep(cfg, s1, MarkFailed(0), s2);
    CommitOne(cfg, s2, f, Threw);
    var after := TriedInVain(key, k + 1);
    AfterOneMore(key, k);
    ReachableStep(cfg, s2, Commit(0), after);
  }

  /** A run in which a row whose key is no uuid fails five times, without a notification. */
  lemma NonUuidRowFails(cfg: Config, key: Key) returns (s: State)
    requires cfg.uuid(key).None?
    ensures Reachable(cfg, s) && NOTE_ROW in s.outbox && cfg.uuid(KeyOf(s.outbox, NOTE_ROW)).None?
    ensures s.outbox[NOTE_ROW].status.Failed? && s.outbox[NOTE_ROW].attempts == MAX_ATTEMPTS && s.inApp == map[]
  {
    s := TriedInVain(key, MAX_ATTEMPTS);
    TriesInVain(cfg, key, MAX_ATTEMPTS);
  }
}
