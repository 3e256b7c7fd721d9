/**
 What happens after a relay run has committed: the released tasks, each of which pushes a
 notification and then schedules its email, and on the other side of SNS the audit consumer.
 Both are runs of single steps of the pipeline, like `OutboxRelay.Relay.Run`.
 */
module OutboxTasks {
  import opened Options
  import opened OutboxModel
  import opened OutboxInvariants
  import opened OutboxTheorems
  import opened OutboxRelay

  /** What goes wrong in a task; failures of the email part are swallowed. */
  datatype Trouble = Trouble(pushFails: bool, noRecipient: bool, insertFails: bool)

  /** A received message: its event id, or None when the body does not parse, and what goes wrong with it. */
  datatype Message = Message(event: Option<Id>, newId: Id, recordFails: bool, deleteFails: bool)

  /**
   The email for the notification is in the outbox, due at once and never tried: as a new row,
   or, if its key was there before, as it was.
   */
  ghost predicate Scheduled(before: State, after: State, newId: Id, nid: Id) {
    && after.scheduled == before.scheduled + [nid]
    && var key := "notification-email:" + nid;
       if exists r :: r in before.outbox && r.kind.Emails? && before.outbox[r].key == Some(key)
       then after.outbox == before.outbox
       else after.outbox == before.outbox[RowId(Emails, newId) := Row(Some(key), false, before.now, Pending, 0)]
  }

  class WorkerProcess {
    const cfg: Config
    var world: State

    /** `EmailSchedulerService.schedule` outside a transaction, as the last thing the task does. */
    method ScheduleNotificationEmail(i: nat, newId: Id)
      requires i < |world.live| && world.live[i].pushed && world.live[i].emailEnabled
      requires RowId(Emails, newId) !in world.outbox
      modifies this
      ensures Apply(cfg, old(world), ScheduleEmail(i, newId)) == Some(world)
      ensures Scheduled(old(world), world, newId, old(world).live[i].nid)
    {
      var nid := world.live[i].nid;
      var key := NotificationEmailKey(nid);
      if !KeyTaken(world.outbox, Emails, key) {
        world := world.(outbox := world.outbox[RowId(Emails, newId) := Row(Some(key), false, world.now, Pending, 0)]);
      }
      world := world.(scheduled := world.scheduled + [nid], live := Without(world.live, i));
    }

    /** A released task: push, then the email when it is enabled.  An error ends it. */
    method RunTask(i: nat, newId: Id, trouble: Trouble) returns (ghost steps: seq<Step>)
      requires i < |world.live| && !world.live[i].pushed && RowId(Emails, newId) !in world.outbox
      modifies this
      ensures Exec(cfg, old(world), steps) == Some(world)
      ensures Reachable(cfg, old(world)) ==> Reachable(cfg, world)
      ensures world.live == Without(old(world).live, i)
      ensures world.pushes == old(world).pushes + (if trouble.pushFails then [] else [old(world).live[i].nid])
      ensures if old(world).live[i].emailEnabled && trouble == Trouble(false, false, false)
              then Scheduled(old(world), world, newId, old(world).live[i].nid)
              else world.scheduled == old(world).scheduled && world.outbox == old(world).outbox
    {
      ghost var start := world;
      var task := world.live[i];
      steps := [];
      if !trouble.pushFails {
        world := world.(pushes := world.pushes + [task.nid], live := world.live[i := task.(pushed := true)]);
        ExecSnoc(cfg, start, steps, Push(i));
        steps := steps + [Push(i)];
      }
      assert Without(world.live, i) == Without(start.live, i);
      ghost var last := Abandon(i);
      if !trouble.pushFails && task.emailEnabled && !trouble.noRecipient && !trouble.insertFails {
        last := ScheduleEmail(i, newId);
        ScheduleNotificationEmail(i, newId);
      } else {
        world := world.(live := Without(world.live, i));
      }
      ExecSnoc(cfg, start, steps, last);
      steps := steps + [last];
      StillReachable(cfg, start, steps);
    }

    /**
     `handleMessage`.  `AuditService.record` swallows a failing insert, so the message is
     deleted all the same.  A failing delete brings the message back; it is caught, except for
     a body that does not parse, where it throws out of the handler.
     */
    method HandleMessage(m: Message) returns (deleted: bool, thrown: bool, ghost steps: seq<Step>)
      requires m.event.Some? ==> m.event.value in world.published
      requires m.newId !in world.audit
      modifies this
      ensures Exec(cfg, old(world), steps) == Some(world)
      ensures deleted == !m.deleteFails && thrown == Throws(m)
      ensures world == old(world).(audit := world.audit)
      ensures m.event.Some? && !m.recordFails ==> Audited(world.audit, m.event.value)
      ensures m.event.None? || m.recordFails || Audited(old(world).audit, m.event.value) ==>
                world.audit == old(world).audit
      ensures forall a :: a in old(world).audit ==> a in world.audit && world.audit[a] == old(world).audit[a]
      ensures forall a :: a in world.audit && a !in old(world).audit ==> a == m.newId
    {
      steps := [];
      if m.event.Some? && !m.recordFails {
        steps := [Consume(m.event.value, m.newId)];
        assert steps[1..] == [];
        if !(exists a | a in world.audit :: world.audit[a] == m.event) {
          world := world.(audit := world.audit[m.newId := m.event]);
          assert world.audit[m.newId] == Some(m.event.value);
        }
      }
      return !m.deleteFails, m.event.None? && m.deleteFails, steps;
    }

    /**
     `poll`: the received messages one by one, duplicates and redeliveries included, up to
     the first whose handler throws.  Whatever they are, in a state that a run of the pipeline
     reaches each event still has at most one audit row
     (`OutboxTheorems.EventsReachAuditAtMostOnce`).
     */
    method Poll(messages: seq<Message>) returns (handled: nat, kept: seq<Message>, ghost steps: seq<Step>)
      requires forall m :: m in messages && m.event.Some? ==> m.event.value in world.published
      requires forall i :: 0 <= i < |messages| ==> messages[i].newId !in world.audit
      requires forall i, j :: 0 <= i < j < |messages| ==> messages[i].newId != messages[j].newId
      modifies this
      ensures Exec(cfg, old(world), steps) == Some(world)
      ensures Reachable(cfg, old(world)) ==> Reachable(cfg, world)
      ensures handled <= |messages| && forall i :: 0 <= i < handled - 1 ==> !Throws(messages[i])
      ensures handled < |messages| ==> handled > 0 && Throws(messages[handled - 1])
      ensures forall m :: m in messages[..handled] && m.event.Some? && !m.recordFails ==>
                Audited(world.audit, m.event.value)
      ensures forall m :: m in kept <==> m in messages[handled..] || (m in messages[..handled] && m.deleteFails)
    {
      ghost var start := world;
      handled, kept, steps := 0, [], [];
      var thrown := false;
      while handled < |messages| && !thrown
        invariant handled <= |messages| && (thrown ==> handled > 0)
        invariant Exec(cfg, start, steps) == Some(world)
        invariant world == start.(audit := world.audit)
        invariant forall i :: 0 <= i < handled - 1 ==> !Throws(messages[i])
        invariant handled > 0 ==> thrown == Throws(messages[handled - 1])
        invariant forall m :: m in messages[..handled] && m.event.Some? && !m.recordFails ==>
                    Audited(world.audit, m.event.value)
        invariant forall m :: m in kept <==> m in messages[..handled] && m.deleteFails
        invariant forall j :: handled <= j < |messages| ==> messages[j].newId !in world.audit
        decreases |messages| - handled
      {
        ghost var before, more := world, [];
        var deleted;
        assert messages[handled] in messages;
        deleted, thrown, more := HandleMessage(messages[handled]);
        AuditedStays(before.audit, world.audit);
        ExecConcat(cfg, start, steps, more);
        steps := steps + more;
        if !deleted { kept := kept + [messages[handled]]; }
        assert messages[..handled + 1] == messages[..handled] + [messages[handled]];
        handled := handled + 1;
      }
      kept := kept + messages[handled..];
      StillReachable(cfg, start, steps);
    }
  }

  /** A message whose body does not parse and whose delete fails. */
  predicate Throws(m: Message) {
    m.event.None? && m.deleteFails
  }

  lemma AuditedStays(before: map<Id, Option<Id>>, after: map<Id, Option<Id>>)
    requires forall a :: a in before ==> a in after && after[a] == before[a]
    ensures forall e :: Audited(before, e) ==> Audited(after, e)
  {
    forall e | Audited(before, e) ensures Audited(after, e) {
      var a :| a in before && before[a] == Some(e);
      assert a in after && after[a] == Some(e);
    }
  }
}
