# Rally backend: a verified model

Rally is a multi-tenant work-tracking backend: an API that writes business data together with
outbox rows, a worker that delivers events, emails and notifications from those rows, and
services for sessions, work items, sprints, invitations and rate limits around it.  This project
models the parts of it that are protocols rather than CRUD and proves what they guarantee, over
every run of requests, workers, rollbacks and crashes.  Where a promise of the code or of its
comments is false, there is an input that shows it and the exact condition under which it holds.

Run `dafny verify dfyconfig.toml` to check it.

## How it is built

**Outbox pipeline** (`OutboxModel`, `OutboxInvariants`, `OutboxPreservation`, `OutboxTheorems`,
`OutboxSchedule`, `OutboxOrphans`, `OutboxWitnesses`, `RelaySpec`, `OutboxRelay`, `OutboxTasks`,
`QueueDrain`, `PolledQueue`, `RelayWake`).  `OutboxModel.Apply` is
one atomic step of the system: a row is queued, a worker's transaction locks a batch, one row is
suppressed, published, sent or turned into a notification, marked, the transaction commits or
rolls back, a released task pushes or schedules an email, the audit consumer handles a message.
All choices of the environment are in the step, so `Exec` over a sequence of steps is a run of any
number of workers in any interleaving, and a crash is a rollback (and an abandoned task) at any
point.  `OutboxInvariants.Inv` is kept by every step; the theorems follow.  The one fact the
design turns on is in the step `Notify`: the in-app insert goes through the connection pool, so it
stays when the relay's transaction does not.  `OutboxRelay.Relay` and
`OutboxTasks.WorkerProcess` are the imperative code (the loop with its try/catch, the counters,
the collected tasks, the consumer's loop), each method proved to be a run of such steps, so every
theorem about runs applies to it.  `RelaySpec` says, apart from steps and code, what a relay run
owes each row of its batch in terms of what happened around that row.

**Sessions** (`SessionModel`, `SessionTheorems`, `SessionPurge`, `SessionService`).  Requests over
the session table, one step each, with the history of all sessions ever issued.  `AuthService` is
the class whose methods make those steps.

**Smaller cores**: `ActivityLog` (revision history), `Paging` (cursor walk), `RateLimit`,
`Sprints`, `CronLock` and `Snapshots`, `Invitations`.

Random values are parameters that have to be new; clocks, the answers of remote services and what
texts Postgres reads as which uuid are parameters; a token stands for its hash, a cursor for its
decoded content.

## What turned out differently from the comments

- A notification can be durable and its outbox row 'sent' while nobody ever pushed or emailed it:
  the email preference is looked up after the insert, and a failure there (or any rollback) loses
  the task, while the retry finds the source key taken
  (`apps/worker/src/notifications/notification-relay.service.ts:156-173`).  `OutboxWitnesses` gives
  the run; `OutboxOrphans` says over whole runs exactly when a notification is pushed.
- The idempotency key documented as a sha256 text (`db/schema/messaging.ts:144`) is passed to the
  uuid column `source_event_id`.  A row whose key is no uuid never yields a notification: it is
  suppressed or it fails (`OutboxTheorems.KeyMustBeUuid`), and a run in which it fails after five
  tries is `OutboxWitnesses.NonUuidRowFails`.
- "Guarantees one more relay run" (`libs/platform/src/outbox/abstract-outbox-relay.ts:60-65`): one
  more run begins, but if every run that could serve the call rejects before its fetch, no fetch
  follows it.
- "Preserve authMethod across tenant switches" (`libs/modules/identity/src/application/auth.service.ts:1068`):
  the new session has no SSO provider, so its rotations say 'password'.
- The reset answer "expired" is given only to a token that expires between two readings of the
  clock; the lookup already drops expired rows.
- The revision history records the requested text, while uuid columns print theirs in lower case:
  after a uuid was sent in upper case the log's last value is not the stored one, and sending it
  again logs a change of a field that does not change.
- After the purge deletes a rotated-out session, presenting its token is no longer seen as reuse.
- The limiter is called a sliding window and a token bucket; it is a fixed window, and twice the
  limit passes in one window's length across a boundary.
- The page cursor is cut to milliseconds, so items of one millisecond on both sides of a page
  boundary are skipped.
- Completing a sprint leaves unfinished items in it when the project has no done status or when
  the target is the sprint itself.
- `eventId` of a published event is the outbox row's id, not the column `event_id`.
- The email relay's preference check never applies to rows of `EmailSchedulerService`, which
  records no recipient.

## Model

| member | source | states |
|---|---|---|
| `OutboxTheorems.RelayTransactionsAreSerializable` | libs/platform/src/outbox/abstract-outbox-relay.ts:135-160 | In every run, each row's status and counter are what the committed tries, one at a time in commit order, make of it, and each committed try found its row pending: no increment is lost to the value read at fetch. |
| `OutboxTheorems.AttemptsCountFailures` | libs/platform/src/outbox/abstract-outbox-relay.ts:146-152 | `attempts` is the number of committed failed tries, 'failed' holds exactly at 5, 'pending' only below 5, and a 'sent' row has exactly one committed successful try, any other none. |
| `OutboxTheorems.BatchesAreDisjoint` | apps/worker/src/notifications/notification-relay.service.ts:103-127 | No row is in the batches of two open transactions. |
| `OutboxSchedule.NothingIsSentEarly` | apps/worker/src/notifications/notification-relay.service.ts:103-127 | Whatever any workers do, an email or notification row stays unlocked and exactly as it was written until the time it is scheduled for. |
| `OutboxSchedule.FetchableFromItsTime` | apps/worker/src/email/email-relay.service.ts:70-93 | Left alone, a queued row can be fetched if and only if its time has come; an event row at once. |
| `OutboxTheorems.SentAndFailedAreAbsorbing` | libs/platform/src/outbox/abstract-outbox-relay.ts:141-159 | Along every run, a row that left 'pending' is never written again and no counter falls. |
| `OutboxTheorems.SentMeansNotifiedOnce` | apps/worker/src/notifications/notification-relay.service.ts:139-170 | A durably 'sent' notification row has an in-app notification under the uuid its source key spells unless it was suppressed by preference, and no uuid ever has two. |
| `OutboxTheorems.KeyMustBeUuid` | libs/modules/notifications/src/infrastructure/persistence/notification.drizzle-repository.ts:45-67 | A row whose source key is no uuid can only be finished by suppression. |
| `OutboxTheorems.PushIsAfterCommitAndOnce` | libs/platform/src/outbox/abstract-outbox-relay.ts:130-166 | A push happens only when a row under the notification's key is durably 'sent' by the try that created it, and only if the notification was never pushed before. |
| `OutboxTheorems.EmailIsAfterPushAndOnce` | apps/worker/src/notifications/notification-relay.service.ts:175-191 | Scheduling a notification email comes after the commit and the push, and at most once. |
| `OutboxTheorems.OnePushAndOneEmailJob` | libs/platform/src/email/email-scheduler.service.ts:58-82 | In every run: no notification is pushed or scheduled twice, every scheduled one has its email row, and no notification has two. |
| `OutboxTheorems.EmailRowsDeliverOnce` | apps/worker/src/email/email-relay.service.ts:95-130 | All sends for an email row carry the row's own key, so a provider that ignores repeated keys delivers at most one email for it, and exactly one if the row is durably 'sent'. |
| `OutboxTheorems.KeyedEmailsAreDistinct` | libs/platform/src/email/email-scheduler.service.ts:62-75 | Two email rows with caller-supplied keys never share one, so neither do their emails. |
| `OutboxTheorems.EventsReachAuditAtMostOnce` | apps/worker/src/outbox/outbox-relay.service.ts:102-147 | A durably 'published' event row was accepted by SNS under its row id if a topic is set; through all duplicates and redeliveries at most one audit row exists for it, and only for a published event. |
| `OutboxOrphans.StepKeepsClaims` | libs/platform/src/outbox/abstract-outbox-relay.ts:141-152 | A step keeps a notification's claim on its task exactly unless it rolls back the transaction, or fails the try, that created the notification. |
| `OutboxOrphans.OrphansAreNeverPushed` | apps/worker/src/notifications/notification-relay.service.ts:170-192 | A notification that no committed or open try claims stays in the table and is never pushed or emailed in any later run. |
| `OutboxOrphans.OrphanIffGivenUp` | apps/worker/src/notifications/notification-relay.service.ts:139-192 | After any run, a notification claimed at its start is an orphan if and only if some step of the run rolled back its transaction or failed the try that created it. |
| `OutboxOrphans.StepKeepsHope` | libs/platform/src/outbox/abstract-outbox-relay.ts:130-166 | A step keeps a notification pushed or on its way to the push (in an open or committing transaction, or in a released task) exactly unless it gives it up or abandons its task. |
| `OutboxOrphans.PushedUnlessLost` | libs/platform/src/outbox/abstract-outbox-relay.ts:130-166 | Once nothing is open and no task runs, a notification has been pushed if and only if no step since its insert gave it up or abandoned its task. |
| `OutboxOrphans.SentRowsOrphan` | apps/worker/src/notifications/notification-relay.service.ts:156-173 | The notification of a durably 'sent' row, no other row spelling its uuid, is an orphan if and only if the row was finished as deduplicated or suppressed instead of by the try that inserted it. |
| `OutboxWitnesses.SentButNeverPushed` | apps/worker/src/notifications/notification-relay.service.ts:156-173 | A run reaches a row that is durably 'sent' with its notification stored and unclaimed. |
| `OutboxWitnesses.NonUuidRowFails` | libs/modules/notifications/src/infrastructure/persistence/notification.drizzle-repository.ts:45-67 | A run in which a row whose key is no uuid ends 'failed' after five tries, without a notification. |
| `OutboxPreservation.StepKeepsInv` | libs/platform/src/outbox/abstract-outbox-relay.ts:120-166 | Every step of the pipeline keeps the invariant: locks, log, evidence of effects, unique keys, claims, tasks. |
| `OutboxRelay.Relay.PublishRow` | apps/worker/src/outbox/outbox-relay.service.ts:102-140 | The event relay's `processRow` is one publish step under the row's id, the one thing it leaves behind; it throws exactly if something goes wrong afterwards. |
| `OutboxRelay.Relay.SendRow` | apps/worker/src/email/email-relay.service.ts:95-123 | The email relay's `processRow` is one send step under the row's key, or its id if it has none, the one thing it leaves behind. |
| `OutboxRelay.Relay.NotifyRow` | apps/worker/src/notifications/notification-relay.service.ts:139-192 | The notification relay's `processRow` inserts unless the key is taken, and returns a task exactly for a new notification. |
| `OutboxRelay.Relay.ProcessRow` | apps/worker/src/notifications/notification-relay.service.ts:139-192 | A row of a recipient is suppressed if and only if the preference is off; it throws exactly if there was a call to make and the call, what follows it or the key failed; what it leaves outside is the insert, publish or send that went through and nothing else; of the transaction it changes only the effect of its row. |
| `OutboxRelay.Relay.Settle` | libs/platform/src/outbox/abstract-outbox-relay.ts:141-152 | A return marks the row sent and collects its task; a throw writes the fetched counter plus one, and 'failed' from 5 on. |
| `OutboxRelay.Relay.TryRow` | libs/platform/src/outbox/abstract-outbox-relay.ts:141-158 | The transaction is aborted if and only if the row's status update fails; a row whose try throws is marked failed with the fetched counter plus one and the loop goes on. |
| `OutboxRelay.Relay.TryAll` | libs/platform/src/outbox/abstract-outbox-relay.ts:135-160 | The transaction's callback runs to its end unless a status update fails; then its view of the table, its tries and its tasks are those that the rows' own incidents call for. |
| `OutboxRelay.Relay.Run` | libs/platform/src/outbox/abstract-outbox-relay.ts:120-177 | A call of `relay()` commits if and only if neither a status update nor the commit fails. A committed run ends every row as its own incident says, whatever its neighbours did, and releases exactly the tasks of its new notifications; otherwise table, log and tasks are untouched. What was done outside for the rows reached stays done either way. From a reachable state it leads to a reachable one. |
| `RelaySpec.MarksEndTable` | libs/platform/src/outbox/abstract-outbox-relay.ts:141-158 | Marking the tries of a batch leaves each of its rows done when the recipient opted out, no topic is set or nothing went wrong, else one attempt further and failed from the fifth on; all other rows are as they were. |
| `RelaySpec.EveryCallHasItsNotification` | apps/worker/src/notifications/notification-relay.service.ts:139-170 | After a batch, every notification row that was not suppressed, had no failing call and spells a uuid has its notification; a generated id is in use only for such a row. |
| `RelaySpec.PublishedIffRouted` | apps/worker/src/outbox/outbox-relay.service.ts:102-140 | An id is published in a batch if and only if it is that of an event row whose publish went through while a topic is set. |
| `RelaySpec.SentIffAccepted` | apps/worker/src/email/email-relay.service.ts:95-123 | An email is sent under a key in a batch if and only if some row of it has that key, or no key and that id, and its call went through. |
| `OutboxTasks.WorkerProcess.ScheduleNotificationEmail` | apps/worker/src/notifications/notification-relay.service.ts:203-240 | Scheduling the email is one step: a pending, untried row due at once under the notification's key, unless that key is taken, in which case the table stays as it is. |
| `OutboxTasks.WorkerProcess.RunTask` | apps/worker/src/notifications/notification-relay.service.ts:175-191 | A released task pushes unless the push fails, then schedules the email exactly if it is enabled and nothing failed, and is gone afterwards; its errors leave the table alone. |
| `OutboxTasks.WorkerProcess.HandleMessage` | apps/worker/src/consumers/audit.consumer.ts:116-152 | A message is deleted unless the delete fails, even when its audit insert failed; a repeated event adds nothing; only a failing delete of an unparseable body throws. |
| `OutboxTasks.WorkerProcess.Poll` | apps/worker/src/consumers/audit.consumer.ts:90-114 | Handling a list of messages with duplicates, up to the first whose handler throws, is a run of steps; every event recorded among them ends with an audit row, and exactly the unhandled and undeleted messages stay queued. |
| `QueueDrain.MissCostsFifty` | apps/worker/src/email/email-relay.service.ts:82-92 | A committed run that leaves out a due row uses up at least 50 of the tries that the rows at or before it have left. |
| `QueueDrain.BoundedWaiting` | libs/platform/src/outbox/abstract-outbox-relay.ts:55-56 | In a history of committed runs, a due row with k others waiting at or before it and none joining ahead is fetched within 5k/50 + 1 runs, however the tries end. |
| `QueueDrain.QueueDrains` | libs/platform/src/outbox/abstract-outbox-relay.ts:135-160 | In such a history, with n tries left to the rows queued up to a moment past, one of the next n + 1 runs finds all of them settled. |
| `QueueDrain.BatchExists` | apps/worker/src/email/email-relay.service.ts:70-93 | In every state, whatever is locked, the batch query has an answer. |
| `PolledQueue.CommittedRunsAreHistory` | libs/platform/src/outbox/abstract-outbox-relay.ts:135-160 | In any run of the pipeline in which one worker polls a table and nothing is queued ahead, its committed transactions form such a history, whatever other workers do and however often its own transactions roll back. |
| `PolledQueue.WaitsBoundedly` | libs/platform/src/outbox/abstract-outbox-relay.ts:55-56 | So in every such run of the pipeline the row is in one of the first 5k/50 + 1 committed batches. |
| `PolledQueue.Drains` | libs/platform/src/outbox/abstract-outbox-relay.ts:135-160 | And one of the first 5n + 1 committed transactions finds the n waiting rows settled. |
| `RelayWake.Guard.Relay` | libs/platform/src/outbox/abstract-outbox-relay.ts:120-128 | A call enters exactly if no run is in progress, else it raises the flag; afterwards a run is in progress and no callback was queued. |
| `RelayWake.Guard.Finally` | libs/platform/src/outbox/abstract-outbox-relay.ts:167-176 | The end of a run lowers the guard and queues one callback exactly if the flag was up. |
| `RelayWake.AtMostOneRunInside` | libs/platform/src/outbox/abstract-outbox-relay.ts:120-128 | In every run of calls, callbacks, fetches and ends, at most one relay run is inside the body. |
| `RelayWake.NoLostWakeup` | libs/platform/src/outbox/abstract-outbox-relay.ts:120-177 | Whatever is going on when `relay()` is called, once the relay is at rest a run has begun at that call or after it. |
| `RelayWake.RunFetchesOrRejects` | libs/platform/src/outbox/abstract-outbox-relay.ts:134-177 | Once the relay is at rest, every run that began has either fetched or ended by rejecting before its fetch, never both. |
| `RelayWake.WhoServes` | libs/platform/src/outbox/abstract-outbox-relay.ts:120-177 | Idle, a call is served by its own run and later ones; before the fetch of the run in progress, by that run and a queued later one; in the middle of a batch, only by later runs, of which there is one. |
| `RelayWake.CallIsFollowedByFetch` | libs/platform/src/outbox/abstract-outbox-relay.ts:120-177 | A call is followed by a fetch if and only if not every run that can serve it ends by rejecting before its fetch. |
| `RelayWake.RejectedFollowUpDropsTheCall` | libs/platform/src/outbox/abstract-outbox-relay.ts:167-176 | A run of the steps in which a call made mid-batch is followed by no fetch, because the follow-up run rejects. |
| `RelayWake.ComesToRest` | libs/platform/src/outbox/abstract-outbox-relay.ts:167-176 | Without new calls the relay makes a bounded number of steps and is never stuck before it is at rest. |
| `SessionService.AuthService.Login` | libs/modules/identity/src/application/auth.service.ts:76-144 | Opens one session, in a new family and with the given time to live, if and only if the user exists, is not deleted, is active (not suspended, inactive or invited), the password fits and there is a tenant to log in to; else nothing changes. |
| `SessionService.AuthService.Refresh` | libs/modules/identity/src/application/auth.service.ts:380-459 | Each answer if and only if its condition on the row, the clock and the user holds, in the order of the checks; a rotation revokes the presented session and adds a successor of the same user, tenant, family and provider that lives for the time to live from now; a reuse revokes exactly the family; any other answer changes nothing. |
| `SessionService.AuthService.SwitchTenant` | libs/modules/identity/src/application/auth.service.ts:1043-1103 | For a member in good standing, and nobody else, revokes exactly the caller's session and opens one in a new family for the target tenant, without SSO provider. |
| `SessionService.AuthService.Logout` | libs/modules/identity/src/application/auth.service.ts:465-476 | Revokes the caller's session and leaves every other row as it was. |
| `SessionService.AuthService.LogoutAll` | libs/modules/identity/src/application/auth.service.ts:894-904 | Revokes the user's sessions in all tenants and leaves every other row as it was. |
| `SessionService.AuthService.ResetPassword` | libs/modules/identity/src/application/auth.service.ts:992-1036 | Succeeds if and only if the token is stored, unused, not past its expiry and its user exists; then the token is used and exactly the user's sessions are revoked; else nothing changes. |
| `SessionService.AuthService.Purge` | apps/worker/src/cron/cleanup.cron.ts:51-74 | A session survives if and only if it is unrevoked or not past its expiry by more than the retention, a reset token if and only if it is not past its expiry by more than a day; survivors are unchanged. |
| `SessionTheorems.StepKeepsInv` | libs/modules/identity/src/infrastructure/persistence/auth-session.drizzle-repository.ts:22-54 | Every request keeps: live sessions are the newest of their family, families are homogeneous, accepted tokens are spent, used reset tokens stay used. |
| `SessionTheorems.OneLiveSessionPerFamily` | libs/modules/identity/src/application/auth.service.ts:438-456 | In every run a family has at most one unrevoked session. |
| `SessionTheorems.OnlyTheNewestTokenOnce` | libs/modules/identity/src/application/auth.service.ts:380-456 | A token that is accepted was never accepted before and no later session exists in its family. |
| `SessionTheorems.FamilyIsHomogeneous` | libs/modules/identity/src/application/auth.service.ts:419-456 | Sessions of one family agree in user, tenant and authentication method. |
| `SessionTheorems.OtherwiseTheMethodIsKept` | libs/modules/identity/src/application/auth.service.ts:419-456 | A login, an SSO login and a rotation hand out an access token with the method that the new session's own rotations answer with. |
| `SessionTheorems.SwitchKeepsPasswordOnly` | libs/modules/identity/src/application/auth.service.ts:1067-1103 | A tenant switch hands on the method of the caller's access token, but after any later requests the rotations of the new family answer with it if and only if it is 'password'. |
| `SessionTheorems.SsoCallerBecomesPassword` | libs/modules/identity/src/application/auth.service.ts:1067-1103 | A run with an SSO caller whose session answers 'password' after a switch. |
| `SessionTheorems.SpentForever` | libs/modules/identity/src/application/auth.service.ts:388-405 | A token once issued and not backed by an unrevoked row is not accepted after any later requests. |
| `SessionTheorems.ReplayKillsTheFamily` | libs/modules/identity/src/application/auth.service.ts:388-405 | After a revoked token was replayed, no token of its family, old or new, is ever accepted. |
| `SessionTheorems.NoEarlierTokenSurvives` | libs/modules/identity/src/application/auth.service.ts:1024-1033 | After a logout, a tenant switch, a logout from all devices or a password reset, no token of the sessions it ends is ever accepted, in any tenant. |
| `SessionTheorems.AcceptedIff` | libs/modules/identity/src/application/auth.service.ts:384-416 | A token is accepted if and only if its row is stored, unrevoked and not past its expiry, and its user is stored, not deleted and active or invited. |
| `SessionTheorems.NeverAcceptedPastExpiry` | libs/modules/identity/src/application/auth.service.ts:407-409 | In every run, a token issued at time T with time to live n is not accepted once the clock is past T + n, whatever happened in between. |
| `SessionTheorems.AcceptedUntilExpiry` | libs/modules/identity/src/application/auth.service.ts:407-459 | Left alone, a token issued by a login, sign-up, SSO login, rotation or switch is accepted after a delay if and only if the delay is at most its time to live. |
| `SessionTheorems.ResetTokenWorksOnce` | libs/modules/identity/src/application/auth.service.ts:992-1033 | In every run a reset token succeeds at most once. |
| `SessionTheorems.ResetTokenWorksUntilExpiry` | libs/modules/identity/src/application/auth.service.ts:911-960 | A request for a reset stores a token for an active member only, and left alone that token works if and only if less than its time to live has passed. |
| `SessionTheorems.ExpiredResetLooksUnknown` | libs/modules/identity/src/infrastructure/persistence/user.drizzle-repository.ts:105-124 | The answer "expired" is given if and only if an unused token expires between the two readings of the clock; a token is unknown exactly if it is not stored or had expired before. |
| `SessionPurge.PurgeChangesNoAcceptance` | apps/worker/src/cron/cleanup.cron.ts:51-74 | The purge changes no refresh token's acceptability and no answer to a reset. |
| `SessionPurge.FutureUnaffected` | apps/worker/src/cron/cleanup.cron.ts:51-74 | From a purged and the unpurged table, the same later requests are possible and lead to the same live sessions, accepted tokens and acceptability of every token, as long as none presents a deleted token. |
| `SessionPurge.PurgeAndReplayCommute` | libs/modules/identity/src/application/auth.service.ts:384-405 | Presenting a token before or after the purge leaves the same sessions alive if and only if the purge does not delete it while its family has a live session. |
| `SessionPurge.PurgedTokenIsNoReuse` | apps/worker/src/cron/cleanup.cron.ts:52-58 | A one-day login, rotated at once and purged nine days later with a retention of seven days: the reuse has become an unknown token while the family lives on. |
| `ActivityLog.DiffWorkItem` | libs/modules/work-items/src/application/activity-diff.ts:50-88 | The pushed entries are those of the rules in order. |
| `ActivityLog.EntriesAreTheChanges` | libs/modules/work-items/src/application/activity-diff.ts:58-87 | There is one entry for each tracked field that the update names with another text, and none else, in the order of the rules. |
| `ActivityLog.ActionTellsTheField` | libs/modules/work-items/src/application/activity-diff.ts:68-85 | The action of every entry is the one that its field has for a task or for any other item. |
| `ActivityLog.NoRichBodyIsLogged` | libs/modules/work-items/src/application/activity-diff.ts:26-43 | Entries of rich-text fields carry null for old and new; all others the stored and the requested value; no entry is about an untracked field. |
| `ActivityLog.UpdateReplays` | libs/modules/work-items/src/infrastructure/persistence/work-item.drizzle-repository.ts:184-219 | For one update, replaying its entries forward is exact if and only if the field was neither changed silently nor stored in another spelling than logged; backward, if and only if it was not changed silently. |
| `ActivityLog.LogTellsForward` | libs/modules/work-items/src/application/activity-diff.ts:19-24 | Over any sequence of updates the log, folded forward, gives the value of a tracked plain field at every moment if and only if no update was silent about it or stored another spelling. |
| `ActivityLog.LogTellsBackward` | libs/modules/work-items/src/application/activity-diff.ts:19-43 | Folded backward it restores the initial value at every moment if and only if the field was not changed silently before its first entry. |
| `ActivityLog.TypedLogTells` | libs/modules/work-items/src/application/activity-diff.ts:19-88 | For rows and requests of the declared types, backward always exact; forward always the current value up to the spelling of uuids, and exact at every moment if and only if every request spelled the field as it is stored. |
| `ActivityLog.UpperCaseUuidMisleadsTheLog` | libs/modules/work-items/src/application/activity-diff.ts:58-66 | Any uuid sent with upper-case digits: the log's last value is not the stored one, and sending it again logs a change that does not happen. |
| `ActivityLog.NullTextIsSilent` | libs/modules/work-items/src/application/activity-diff.ts:19-24 | Outside those types null and the text "null" look the same and the log loses the change. |
| `ActivityLog.WorkItem.UpdateWorkItem` | libs/modules/work-items/src/infrastructure/persistence/work-item.drizzle-repository.ts:184-219 | Row and log are written together or not at all. Every field the update names, rich text and unlogged ones included, then holds the requested value, lower-cased letter by letter in a uuid column and verbatim otherwise; every other field keeps its value. After every update the log still restores every tracked plain field's first value and tells its current one up to the spelling of uuids. |
| `Paging.NeverShownTwice` | libs/modules/work-items/src/infrastructure/persistence/work-item.drizzle-repository.ts:65-84 | Along a walk no item is shown twice, whatever the ties and whatever is added or deleted between the fetches, and the order is newest first. |
| `Paging.WalkIsBounded` | libs/platform/src/http/pagination.ts:64-81 | With items added only at the top, the walk ends: page size times (number of pages - 1) is at most the size of the first table. |
| `Paging.CompleteIffClean` | libs/modules/work-items/src/infrastructure/persistence/work-item.drizzle-repository.ts:72-83 | A finished walk has shown every item if and only if no multiple of the page size falls inside a group of items of one millisecond. |
| `Paging.DistinctMsIsComplete` | libs/modules/work-items/src/infrastructure/persistence/work-item.drizzle-repository.ts:65-84 | With distinct milliseconds the pages together are the whole list, newest first, also when newer items are added between fetches. |
| `Paging.TiedItemIsSkipped` | libs/modules/work-items/src/infrastructure/persistence/work-item.drizzle-repository.ts:72-83 | Two items of one millisecond and a page of one: the second is never shown. |
| `RateLimit.Limiter.Consume` | libs/platform/src/cache/valkey.service.ts:53-73 | A request is allowed exactly if fewer than the limit came before it in its window: no counter is lost to expiry inside its own window. |
| `RateLimit.WindowLimit` | libs/platform/src/cache/valkey.service.ts:53-73 | Of the requests in a window exactly the first `limit` are allowed. |
| `RateLimit.SpanLimit` | libs/platform/src/cache/valkey.service.ts:58-60 | At most twice the limit is allowed in any span as long as a window. |
| `RateLimit.SpanLimitIsTight` | libs/platform/src/cache/valkey.service.ts:58-60 | For every tier a history reaches that bound. |
| `RateLimit.RetryLandsInALaterWindow` | libs/platform/src/rate-limit/rate-limit.guard.ts:122-124 | A client that waits the answered Retry-After (section 10.2.3 of RFC 9110) is in a later window. |
| `RateLimit.RetryWastesUnderASecond` | libs/platform/src/rate-limit/rate-limit.guard.ts:122-124 | Refused within its own window, it is back within the first second of the next one; refused later, after exactly a second. |
| `RateLimit.RetrySucceeds` | libs/platform/src/rate-limit/rate-limit.guard.ts:98-129 | If it made no other request meanwhile, it is allowed then. |
| `Sprints.PlanningService.StartSprint` | libs/modules/planning/src/application/planning.service.ts:94-115 | Answers Ok if and only if the sprint is a planned one of the tenant and its project has no active one; then that sprint alone becomes active, else no sprint changes. |
| `Sprints.PlanningService.CompleteSprint` | libs/modules/planning/src/application/planning.service.ts:119-191 | Answers Ok only for an active sprint of the tenant, which then is completed while every other sprint stays as it was; any other answer changes no sprint. The items that move, when the request got that far, are exactly the sprint's undeleted ones not in a done status of the project, and only their place changes. |
| `Sprints.PlanningService.DeleteSprint` | libs/modules/planning/src/application/planning.service.ts:80-90 | Only planned sprints are deleted. |
| `Sprints.CompletionConserves` | libs/modules/planning/src/application/planning.service.ts:156-180 | No item or point is lost: what leaves the sprint, in items and points, arrives at the target or in the backlog, and every other place is as before. |
| `Sprints.OthersUntouched` | libs/modules/planning/src/application/planning.service.ts:158-179 | Done and deleted items and everything outside the sprint are unchanged; a moved item changes its place only. |
| `Sprints.CompletedHoldsNoUnfinished` | libs/modules/planning/src/application/planning.service.ts:156-180 | The completed sprint holds no unfinished item if and only if the project has a done status and the target is another one, or it held none before. |
| `Sprints.CompletionFreesTheProject` | libs/modules/planning/src/application/planning.service.ts:99-115 | Completing the active sprint of a project turns the refusal to start any other planned sprint of it into a start. |
| `Sprints.RerunEndsLikeCleanRun` | libs/modules/planning/src/application/planning.service.ts:173-185 | However often the request is cut off between its writes, repeating it ends as one clean run. |
| `Sprints.RunsKeepOneActive` | libs/modules/planning/src/infrastructure/persistence/sprint.drizzle-repository.ts:18-25 | No run of requests reaches two active sprints in a project; completed sprints stay completed. |
| `CronLock.Valkey.TakeTurn` | apps/worker/src/cron/snapshot.cron.ts:38-49 | The guarded body enters exactly if the key is free, and leaves by deleting it whoever set it. |
| `CronLock.MutualExclusion` | libs/platform/src/cache/valkey.service.ts:101-112 | If every pod leaves within the time to live of its acquire, at most one is ever inside. |
| `CronLock.OverstayLetsTwoIn` | libs/platform/src/cache/valkey.service.ts:110-112 | One pod that overstays lets two others in together, neither of which overstayed. |
| `CronLock.DeadHolderBlocksAtMostTtl` | libs/platform/src/cache/valkey.service.ts:96-104 | Whatever pods died inside, the lock can be taken again 55 minutes later. |
| `Snapshots.StatsAddUp` | apps/worker/src/cron/snapshot.cron.ts:95-140 | Remaining points are those of the items not done; for points not negative, 0 <= completed <= total; the counts are those of the rows. |
| `Snapshots.StatsOfOne` | apps/worker/src/cron/snapshot.cron.ts:95-140 | No rows aggregate to zeros; one row counts its points, if any, as completed or as remaining. |
| `Snapshots.SumConcat` | apps/worker/src/cron/snapshot.cron.ts:95-140 | The sums and counts of two lists of rows add up to those of both together, so with those of one row they determine the aggregate. |
| `Snapshots.Reporting.UpsertSnapshot` | libs/modules/reporting/src/infrastructure/persistence/reporting.drizzle-repository.ts:83-107 | The day's row is overwritten or added, other rows are kept, and a sprint never has two rows for one day. |
| `Snapshots.Reporting.RunSnapshots` | apps/worker/src/cron/snapshot.cron.ts:51-93 | Every active sprint whose aggregate did not fail has its figures stored for the day, no other row changes, and the failures are counted. |
| `Snapshots.SameSnapshotTwice` | libs/modules/reporting/src/infrastructure/persistence/reporting.drizzle-repository.ts:97-106 | A second pod that stores the same figures changes nothing. |
| `Invitations.StepKeepsInv` | libs/modules/tenancy/src/application/tenancy.service.ts:413-447 | Every request keeps: unique tokens, one pending invitation per invitee, jobs matching invitations, accepted exactly if redeemed, accepted users enrolled. |
| `Invitations.AtMostOnePending` | libs/modules/tenancy/src/infrastructure/persistence/workspace-invitation.drizzle-repository.ts:99-110 | In every run at most one invitation is pending per workspace and address. |
| `Invitations.InvitationsMatchEmails` | libs/modules/tenancy/src/application/tenancy.service.ts:413-447 | Committed invitations and committed invitation emails are in bijection, each to its invitee. |
| `Invitations.TokenIsAcceptedOnce` | libs/modules/tenancy/src/application/tenancy.service.ts:482-531 | In every run a token is accepted at most once. |
| `Invitations.ClosedStatesAreAbsorbing` | libs/modules/tenancy/src/infrastructure/persistence/workspace-invitation.drizzle-repository.ts:83-110 | An accepted, cancelled or expired invitation is never written again. |
| `Invitations.ResendEndsEarlierTokens` | libs/modules/tenancy/src/application/tenancy.service.ts:413-415 | After a resend no earlier token to the same address is ever accepted. |
| `Invitations.CancelledTokenIsRefused` | libs/modules/tenancy/src/application/tenancy.service.ts:457-479 | Cancelling a pending invitation of a workspace of the tenant changes that row's status alone, and its token is never accepted in any later run. |
| `Invitations.AcceptedIff` | libs/modules/tenancy/src/application/tenancy.service.ts:482-505 | In every run, a token is accepted if and only if some invitation has it, is pending and not past its expiry. |
| `Invitations.NeverAcceptedPastExpiry` | libs/modules/tenancy/src/application/tenancy.service.ts:500-505 | In every run, an invitation sent at time T with time to live n is not accepted once the clock is past T + n. |
| `Invitations.AcceptedUntilExpiry` | libs/modules/tenancy/src/application/tenancy.service.ts:482-505 | Left alone, an invitation is accepted after a delay if and only if the delay is at most its time to live. |
| `Invitations.CleanUpChangesNoAcceptance` | apps/worker/src/cron/cleanup.cron.ts:76-84 | Expiring stale invitations changes no token's acceptability. |
| `Invitations.AcceptEnrolls` | libs/modules/tenancy/src/application/tenancy.service.ts:501-531 | Accepting marks the invitation accepted by the user, enrolls the user in its tenant and workspace, keeps an existing member's role, and uses the token up. |
| `Invitations.AcceptedMeansMember` | libs/modules/tenancy/src/application/tenancy.service.ts:507-531 | Who accepted an invitation is a member of its tenant and workspace. |
| `Invitations.TenancyService.InviteMember` | libs/modules/tenancy/src/application/tenancy.service.ts:389-450 | In one transaction adds the pending row with its dates, cancels exactly the pending ones to the same invitee and adds the email job, or fails and does nothing. |
| `Invitations.TenancyService.CancelInvitation` | libs/modules/tenancy/src/application/tenancy.service.ts:457-479 | Answers Ok if and only if the invitation is a pending one of the named workspace; then that row alone is cancelled, else nothing changes. |
| `Invitations.TenancyService.AcceptInvitation` | libs/modules/tenancy/src/application/tenancy.service.ts:482-531 | Answers Ok if and only if some row has the token, is pending and not past its expiry, and nothing fails; then that row is accepted by the user, who is enrolled in the same transaction; else nothing changes. |
| `Invitations.TenancyService.ExpireInvitations` | apps/worker/src/cron/cleanup.cron.ts:76-84 | Expires exactly the pending invitations past their date and leaves every other row as it was. |

## Left out

- OutboxRelay.Relay.Run: nothing else changes the world while the method runs; interleavings with other workers, and crashes between any two steps, are covered by the theorems over step sequences.
- OutboxTasks.WorkerProcess.RunTask: one task at a time; the step relation interleaves them freely.
- PolledQueue.WaitsBoundedly: one worker per table, counting committed transactions; with several workers a row can be locked and skipped while its transaction keeps rolling back.
- SessionService.AuthService.Refresh: one request is one step; in the service the revoked check is made before the transaction of the rotation, so two simultaneous refreshes of one token are not excluded by what is proved.
- Sprints.PlanningService.StartSprint: one request is one step; two simultaneous starts are not excluded by what is proved, since no index enforces one active sprint.
- RateLimit.Limiter.Consume: the clock is read and the counter updated at one moment, and both servers have one clock.
- Invitations.AcceptedMeansMember: removing members is not among the modelled requests.
- Paging.CompleteIffClean: rows are added only at or above the cursor between fetches; completeness is not claimed when rows below it are added or deleted.
- ActivityLog.WorkItem.UpdateWorkItem: writes that bypass the diff (time-log trigger, bulk moves of a completed sprint, reordering) and overlapping updates of one item are left out.
- Snapshots.StatsAddUp: 32-bit overflow of the sums is not modelled.
- The retry and circuit-breaker policies around remote calls: a publish or send may take effect more than once before it returns, nothing else is assumed.
- Provider-side deduplication: only Resend ignores repeated keys; with SES a rolled-back send is repeated.
- At-least-once audit: `AuditService.record` swallows write errors, so it does not hold; `OutboxTasks.WorkerProcess.HandleMessage` says what does.
- Row-level security policies: the database role bypasses them (`libs/platform/src/database/tenant-rls.service.ts:10-13`).
- Access tokens and their denylist, password hashing, JWT and SSO token verification: parameters.
- `NotificationSchedulerService.schedule` writes through the pool, so it is not atomic with its caller; the model starts from rows that are in the table.
- The other keyset listings sort ascending but filter with `<`, so the page-walk theorems do not hold for them.
- Fail-open of the rate limiter when Valkey is down, clock skew, SSE replay and heartbeat.
- HTTP controllers, request schemas, configuration, logging, rendering of emails and notifications, and plain CRUD.
