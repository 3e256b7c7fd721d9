/**
 Workspace invitations: sending, resending, cancelling, accepting and expiring them, and the
 email job that is written in the transaction that creates one.

 One step is one request; its transaction commits whole or, when a write fails, not at all.
 Ids and tokens that a request makes up come with the step and have to be new; a token stands
 for its own hash, and an address is the number of its normalised text.
 */
module Invitations {
  import opened Options

  type Id = nat
  type Token = nat
  type Address = nat

  datatype Status = Pending | Accepted | Cancelled | Expired

  datatype Invitation = Invitation(tenant: Id, workspace: Id, email: Address, role: Option<Id>, token: Token,
                                   status: Status, expiresAt: int, acceptedBy: Option<Id>)

  datatype Workspace = Workspace(tenant: Id, deleted: bool)

  /** The idempotency key of an email job: an invitation's id, or one of another kind of email. */
  datatype JobKey = ForInvitation(id: Id) | Other(n: nat)

  datatype Job = Job(key: JobKey, to: Address)

  type Table = map<Id, Invitation>

  datatype State = State(
    now: int,
    workspaces: map<Id, Workspace>,
    invitations: Table,
    jobs: map<Id, Job>,
    tenantMembers: set<(Id, Id)>,             // (tenant, user)
    members: map<(Id, Id), Option<Id>>,       // (workspace, user) to role
    redeemed: seq<Token>)                     // history: tokens accepted, in order

  const INIT := State(0, map[], map[], map[], {}, map[], [])

  // ── The repositories ────────────────────────────────────────────────────────

  ghost predicate KeyTaken(jobs: map<Id, Job>, key: JobKey) {
    exists j :: j in jobs && jobs[j].key == key
  }

  /** `EmailSchedulerService.schedule` with an idempotency key: ON CONFLICT DO NOTHING. */
  ghost function Schedule(jobs: map<Id, Job>, jobId: Id, job: Job): map<Id, Job> {
    if KeyTaken(jobs, job.key) then jobs else jobs[jobId := job]
  }

  predicate SameInvitee(x: Invitation, workspace: Id, email: Address) {
    x.workspace == workspace && x.email == email
  }

  /** `cancelExistingForEmail` */
  function CancelExisting(table: Table, workspace: Id, email: Address): Table {
    map i | i in table ::
      if SameInvitee(table[i], workspace, email) && table[i].status.Pending? then table[i].(status := Cancelled) else table[i]
  }

  /** UPDATE … SET status = 'expired' WHERE status = 'pending' AND expires_at < now. */
  function ExpireStale(table: Table, now: int): Table {
    map i | i in table ::
      if table[i].status.Pending? && table[i].expiresAt < now then table[i].(status := Expired) else table[i]
  }

  ghost predicate TokenKnown(table: Table, token: Token) {
    exists i :: i in table && table[i].token == token
  }

  ghost function FindByToken(table: Table, token: Token): (i: Id)
    requires TokenKnown(table, token)
    ensures i in table && table[i].token == token
  {
    var i :| i in table && table[i].token == token; i
  }

  lemma OnlyOneHasToken(table: Table, token: Token, id: Id)
    requires TokensUnique(table) && id in table && table[id].token == token
    ensures TokenKnown(table, token) && FindByToken(table, token) == id
  {
  }

  // ── Decisions ───────────────────────────────────────────────────────────────

  predicate WorkspaceVisible(workspaces: map<Id, Workspace>, tenant: Id, workspace: Id) {
    workspace in workspaces && !workspaces[workspace].deleted && workspaces[workspace].tenant == tenant
  }

  datatype Answer = Ok | NotFound | NotPending | TooLate | Failed

  ghost function OnAccept(s: State, token: Token): Answer {
    if !TokenKnown(s.invitations, token) then NotFound
    else
      var x := s.invitations[FindByToken(s.invitations, token)];
      if !x.status.Pending? then NotPending
      else if x.expiresAt < s.now then TooLate
      else Ok
  }

  function OnCancel(s: State, tenant: Id, workspace: Id, id: Id): Answer {
    if !WorkspaceVisible(s.workspaces, tenant, workspace) then NotFound
    else if id !in s.invitations || s.invitations[id].workspace != workspace then NotFound
    else if !s.invitations[id].status.Pending? then NotPending
    else Ok
  }

  // ── Requests ────────────────────────────────────────────────────────────────

  datatype Step =
    | Tick(elapsed: nat)
    | SetWorkspace(id: Id, row: Workspace)
    | Invite(tenant: Id, workspace: Id, email: Address, role: Option<Id>, id: Id, token: Token, jobId: Id, ttl: nat, fails: bool)
    | Cancel(tenant: Id, workspace: Id, id: Id)
    | Accept(token: Token, user: Id, fails: bool)
    | ExpireAll
    | OtherEmail(jobId: Id, n: nat, to: Address)

  ghost predicate FreshInvite(s: State, id: Id, token: Token, jobId: Id) {
    && id !in s.invitations && jobId !in s.jobs && !KeyTaken(s.jobs, ForInvitation(id))
    && !TokenKnown(s.invitations, token)
  }

  ghost function Invited(s: State, tenant: Id, workspace: Id, email: Address, role: Option<Id>, id: Id, token: Token,
                         jobId: Id, ttl: nat): State {
    var rotated := CancelExisting(s.invitations, workspace, email);
    s.(invitations := rotated[id := Invitation(tenant, workspace, email, role, token, Pending, s.now + ttl, None)],
       jobs := Schedule(s.jobs, jobId, Job(ForInvitation(id), email)))
  }

  ghost function Accepting(s: State, id: Id, user: Id): State
    requires id in s.invitations
  {
    var x := s.invitations[id];
    s.(invitations := s.invitations[id := x.(status := Accepted, acceptedBy := Some(user))],
       tenantMembers := s.tenantMembers + {(x.tenant, user)},
       members := if (x.workspace, user) in s.members then s.members else s.members[(x.workspace, user) := x.role],
       redeemed := s.redeemed + [x.token])
  }

  ghost function Apply(s: State, step: Step): Option<State> {
    match step
    case Tick(elapsed) => Some(s.(now := s.now + elapsed))
    case SetWorkspace(id, row) => Some(s.(workspaces := s.workspaces[id := row]))
    case Invite(tenant, workspace, email, role, id, token, jobId, ttl, fails) =>
      if !FreshInvite(s, id, token, jobId) then None
      else if !WorkspaceVisible(s.workspaces, tenant, workspace) || fails then Some(s)
      else Some(Invited(s, tenant, workspace, email, role, id, token, jobId, ttl))
    case Cancel(tenant, workspace, id) =>
      if !OnCancel(s, tenant, workspace, id).Ok? then Some(s)
      else Some(s.(invitations := s.invitations[id := s.invitations[id].(status := Cancelled)]))
    case Accept(token, user, fails) =>
      if !OnAccept(s, token).Ok? || fails then Some(s)
      else Some(Accepting(s, FindByToken(s.invitations, token), user))
    case ExpireAll => Some(s.(invitations := ExpireStale(s.invitations, s.now)))
    case OtherEmail(jobId, n, to) =>
      if jobId in s.jobs then None else Some(s.(jobs := Schedule(s.jobs, jobId, Job(Other(n), to))))
  }

  ghost function Exec(s: State, steps: seq<Step>): Option<State>
    decreases |steps|
  {
    if steps == [] then Some(s)
    else
      match Apply(s, steps[0])
      case None => None
      case Some(t) => Exec(t, steps[1..])
  }

  // ── The invariant ───────────────────────────────────────────────────────────

  ghost predicate TokensUnique(table: Table) {
    forall i, j | i in table && j in table :: table[i].token == table[j].token ==> i == j
  }

  /** At most one pending invitation per workspace and address. */
  ghost predicate OnePending(table: Table) {
    forall i, j | i in table && j in table ::
      table[i].status.Pending? && table[j].status.Pending? && SameInvitee(table[j], table[i].workspace, table[i].email) ==> i == j
  }

  /** Every invitation has its email job, to its address, and every invitation job has its invitation. */
  ghost predicate JobsMatch(table: Table, jobs: map<Id, Job>) {
    && (forall i :: i in table ==> exists j :: j in jobs && jobs[j] == Job(ForInvitation(i), table[i].email))
    && (forall j :: j in jobs && jobs[j].key.ForInvitation? ==> jobs[j].key.id in table)
    && (forall j, k | j in jobs && k in jobs :: jobs[j].key == jobs[k].key ==> j == k)
  }

  ghost predicate NoDup<T>(xs: seq<T>) {
    forall i, j :: 0 <= i < j < |xs| ==> xs[i] != xs[j]
  }

  ghost predicate RedeemedOk(redeemed: seq<Token>, table: Table) {
    && NoDup(redeemed)
    && (forall t :: t in redeemed ==> TokenKnown(table, t))
    && (forall i :: i in table ==> (table[i].status.Accepted? <==> table[i].token in redeemed))
    && (forall i :: i in table ==> (table[i].status.Accepted? <==> table[i].acceptedBy.Some?))
  }

  /** Who joined by an accepted invitation is enrolled in its tenant and its workspace. */
  ghost predicate Enrolled(s: State) {
    forall i :: i in s.invitations && s.invitations[i].acceptedBy.Some? ==>
      && (s.invitations[i].tenant, s.invitations[i].acceptedBy.value) in s.tenantMembers
      && (s.invitations[i].workspace, s.invitations[i].acceptedBy.value) in s.members
  }

  ghost predicate Inv(s: State) {
    && TokensUnique(s.invitations)
    && OnePending(s.invitations)
    && JobsMatch(s.invitations, s.jobs)
    && RedeemedOk(s.redeemed, s.invitations)
    && Enrolled(s)
  }

  /** Only the status of pending rows has changed, and not to 'accepted'. */
  ghost predicate Closed(before: Table, after: Table) {
    && after.Keys == before.Keys
    && forall i :: i in before ==>
         || after[i] == before[i]
         || (before[i].status.Pending? && after[i].status in {Cancelled, Expired} && after[i] == before[i].(status := after[i].status))
  }

  lemma ClosingKeepsJobs(before: Table, after: Table, jobs: map<Id, Job>)
    requires JobsMatch(before, jobs) && Closed(before, after)
    ensures JobsMatch(after, jobs)
  {
    forall i | i in after ensures exists j :: j in jobs && jobs[j] == Job(ForInvitation(i), after[i].email) {
      assert after[i].email == before[i].email;
    }
  }

  lemma ClosingKeepsRedeemed(before: Table, after: Table, redeemed: seq<Token>)
    requires RedeemedOk(redeemed, before) && Closed(before, after)
    ensures RedeemedOk(redeemed, after)
  {
    forall t | t in redeemed ensures TokenKnown(after, t) {
      var i :| i in before && before[i].token == t;
      assert after[i].token == t;
    }
  }

  lemma ClosingKeepsUnique(before: Table, after: Table)
    requires TokensUnique(before) && OnePending(before) && Closed(before, after)
    ensures TokensUnique(after) && OnePending(after)
  {
  }

  lemma ClosingKeepsEnrolled(s: State, after: Table)
    requires Enrolled(s) && Closed(s.invitations, after)
    ensures Enrolled(s.(invitations := after))
  {
  }

  lemma ClosingKeeps(s: State, after: Table)
    requires Inv(s) && Closed(s.invitations, after)
    ensures Inv(s.(invitations := after))
  {
    ClosingKeepsUnique(s.invitations, after);
    ClosingKeepsJobs(s.invitations, after, s.jobs);
    ClosingKeepsRedeemed(s.invitations, after, s.redeemed);
    ClosingKeepsEnrolled(s, after);
  }

  lemma InviteJobs(table: Table, jobs: map<Id, Job>, id: Id, x: Invitation, jobId: Id)
    requires JobsMatch(table, jobs) && id !in table && jobId !in jobs && !KeyTaken(jobs, ForInvitation(id))
    ensures JobsMatch(table[id := x], Schedule(jobs, jobId, Job(ForInvitation(id), x.email)))
  {
    var after, more := table[id := x], Schedule(jobs, jobId, Job(ForInvitation(id), x.email));
    assert more == jobs[jobId := Job(ForInvitation(id), x.email)];
    forall i | i in after ensures exists j :: j in more && more[j] == Job(ForInvitation(i), after[i].email) {
      if i == id {
        assert more[jobId] == Job(ForInvitation(i), after[i].email);
      } else {
        var j :| j in jobs && jobs[j] == Job(ForInvitation(i), table[i].email);
        assert more[j] == Job(ForInvitation(i), after[i].email);
      }
    }
  }

  lemma InviteTable(table: Table, redeemed: seq<Token>, id: Id, x: Invitation)
    requires TokensUnique(table) && OnePending(table) && RedeemedOk(redeemed, table)
    requires id !in table && !TokenKnown(table, x.token) && x.status.Pending? && x.acceptedBy.None?
    requires forall i :: i in table && SameInvitee(table[i], x.workspace, x.email) ==> !table[i].status.Pending?
    ensures TokensUnique(table[id := x]) && OnePending(table[id := x]) && RedeemedOk(redeemed, table[id := x])
  {
    var after := table[id := x];
    assert forall i :: i in table ==> after[i] == table[i];
    forall t | t in redeemed ensures TokenKnown(after, t) {
      var i :| i in table && table[i].token == t;
      assert after[i].token == t;
    }
  }

  lemma RotationFrees(table: Table, workspace: Id, email: Address, token: Token)
    requires !TokenKnown(table, token)
    ensures var rotated := CancelExisting(table, workspace, email);
            && Closed(table, rotated)
            && !TokenKnown(rotated, token)
            && forall i :: i in rotated && SameInvitee(rotated[i], workspace, email) ==> !rotated[i].status.Pending?
  {
    var rotated := CancelExisting(table, workspace, email);
    forall i | i in rotated ensures rotated[i].token != token {
      assert rotated[i].token == table[i].token;
    }
  }

  lemma InvitedKeeps(s: State, tenant: Id, workspace: Id, email: Address, role: Option<Id>, id: Id, token: Token,
                     jobId: Id, ttl: nat)
    requires Inv(s) && FreshInvite(s, id, token, jobId)
    ensures Inv(Invited(s, tenant, workspace, email, role, id, token, jobId, ttl))
  {
    var rotated := CancelExisting(s.invitations, workspace, email);
    var x := Invitation(tenant, workspace, email, role, token, Pending, s.now + ttl, None);
    RotationFrees(s.invitations, workspace, email, token);
    ClosingKeeps(s, rotated);
    InviteTable(rotated, s.redeemed, id, x);
    InviteJobs(rotated, s.jobs, id, x, jobId);
    var after := Invited(s, tenant, workspace, email, role, id, token, jobId, ttl);
    assert after.invitations == rotated[id := x];
    assert Enrolled(s.(invitations := rotated));
  }

  lemma InviteKeeps(s: State, step: Step)
    requires Inv(s) && step.Invite? && Apply(s, step).Some?
    ensures Inv(Apply(s, step).value)
  {
    if WorkspaceVisible(s.workspaces, step.tenant, step.workspace) && !step.fails {
      InvitedKeeps(s, step.tenant, step.workspace, step.email, step.role, step.id, step.token, step.jobId, step.ttl);
    }
  }

  lemma AcceptTable(table: Table, redeemed: seq<Token>, id: Id, user: Id)
    requires TokensUnique(table) && OnePending(table) && RedeemedOk(redeemed, table)
    requires id in table && table[id].status.Pending?
    ensures var after := table[id := table[id].(status := Accepted, acceptedBy := Some(user))];
            TokensUnique(after) && OnePending(after) && RedeemedOk(redeemed + [table[id].token], after)
  {
    var after := table[id := table[id].(status := Accepted, acceptedBy := Some(user))];
    forall t | t in redeemed + [table[id].token] ensures TokenKnown(after, t) {
      if t in redeemed {
        var i :| i in table && table[i].token == t;
        assert after[i].token == t;
      } else {
        assert after[id].token == t;
      }
    }
  }

  lemma AcceptKeeps(s: State, id: Id, user: Id)
    requires Inv(s) && id in s.invitations && s.invitations[id].status.Pending?
    ensures Inv(Accepting(s, id, user))
  {
    var after := Accepting(s, id, user);
    AcceptTable(s.invitations, s.redeemed, id, user);
    assert JobsMatch(after.invitations, after.jobs) by {
      forall i | i in after.invitations
        ensures exists j :: j in s.jobs && s.jobs[j] == Job(ForInvitation(i), after.invitations[i].email)
      {
        assert after.invitations[i].email == s.invitations[i].email;
      }
    }
  }

  lemma OtherEmailKeeps(s: State, jobId: Id, n: nat, to: Address)
    requires Inv(s) && jobId !in s.jobs
    ensures Inv(Apply(s, OtherEmail(jobId, n, to)).value)
  {
    var more := Schedule(s.jobs, jobId, Job(Other(n), to));
    forall i | i in s.invitations ensures exists j :: j in more && more[j] == Job(ForInvitation(i), s.invitations[i].email) {
      var j :| j in s.jobs && s.jobs[j] == Job(ForInvitation(i), s.invitations[i].email);
      assert more[j] == s.jobs[j];
    }
  }

  lemma StepKeepsInv(s: State, step: Step)
    requires Inv(s) && Apply(s, step).Some?
    ensures Inv(Apply(s, step).value)
  {
    match step
    case Invite(_, _, _, _, _, _, _, _, _) => InviteKeeps(s, step);
    case Cancel(tenant, workspace, id) =>
      if OnCancel(s, tenant, workspace, id).Ok? {
        ClosingKeeps(s, s.invitations[id := s.invitations[id].(status := Cancelled)]);
      }
    case Accept(token, user, fails) =>
      if OnAccept(s, token).Ok? { AcceptKeeps(s, FindByToken(s.invitations, token), user); }
    case ExpireAll => ClosingKeeps(s, ExpireStale(s.invitations, s.now));
    case OtherEmail(jobId, n, to) => OtherEmailKeeps(s, jobId, n, to);
    case _ =>
  }

  lemma {:induction false} RunKeepsInv(s: State, steps: seq<Step>)
    requires Inv(s) && Exec(s, steps).Some?
    ensures Inv(Exec(s, steps).value)
    decreases |steps|
  {
    if steps != [] {
      StepKeepsInv(s, steps[0]);
      RunKeepsInv(Apply(s, steps[0]).value, steps[1..]);
    }
  }

  ghost predicate Reachable(s: State) {
    exists steps :: Exec(INIT, steps) == Some(s)
  }

  lemma ReachableInv(s: State)
    requires Reachable(s)
    ensures Inv(s)
  {
    var steps :| Exec(INIT, steps) == Some(s);
    RunKeepsInv(INIT, steps);
  }

  // ── What holds in every run ─────────────────────────────────────────────────

  lemma AtMostOnePending(s: State, i: Id, j: Id)
    requires Reachable(s) && i in s.invitations && j in s.invitations
    requires s.invitations[i].status.Pending? && s.invitations[j].status.Pending?
    requires s.invitations[i].workspace == s.invitations[j].workspace && s.invitations[i].email == s.invitations[j].email
    ensures i == j
  {
    ReachableInv(s);
  }

  function InvitationJobs(jobs: map<Id, Job>, id: Id): set<Id> {
    set j | j in jobs && jobs[j].key == ForInvitation(id)
  }

  /** Committed invitations and committed invitation emails are in bijection; each email goes to its invitee. */
  lemma InvitationsMatchEmails(s: State)
    requires Reachable(s)
    ensures forall i :: i in s.invitations ==>
              exists j :: InvitationJobs(s.jobs, i) == {j} && s.jobs[j].to == s.invitations[i].email
    ensures forall j :: j in s.jobs && s.jobs[j].key.ForInvitation? ==> s.jobs[j].key.id in s.invitations
  {
    ReachableInv(s);
    forall i | i in s.invitations
      ensures exists j :: InvitationJobs(s.jobs, i) == {j} && s.jobs[j].to == s.invitations[i].email
    {
      var j :| j in s.jobs && s.jobs[j] == Job(ForInvitation(i), s.invitations[i].email);
      assert InvitationJobs(s.jobs, i) == {j};
    }
  }

  /** A token is accepted at most once. */
  lemma TokenIsAcceptedOnce(s: State, token: Token)
    requires Reachable(s) && OnAccept(s, token).Ok?
    ensures token !in s.redeemed && NoDup(s.redeemed)
  {
    ReachableInv(s);
    var i := FindByToken(s.invitations, token);
    assert !s.invitations[i].status.Accepted?;
  }

  /** An invitation that is no longer pending is never written again. */
  ghost predicate Settled(before: Table, after: Table) {
    forall i :: i in before && !before[i].status.Pending? ==> i in after && after[i] == before[i]
  }

  lemma {:induction false} ClosedStatesAreAbsorbing(s: State, steps: seq<Step>)
    requires Exec(s, steps).Some?
    ensures Settled(s.invitations, Exec(s, steps).value.invitations)
    decreases |steps|
  {
    if steps != [] {
      var t := Apply(s, steps[0]).value;
      assert Settled(s.invitations, t.invitations);
      ClosedStatesAreAbsorbing(t, steps[1..]);
    }
  }

  /** The step leaves the invitation in the table, with its token, and not pending. */
  ghost predicate Ends(s: State, step: Step, i: Id) {
    && Apply(s, step).Some? && i in s.invitations && i in Apply(s, step).value.invitations
    && Apply(s, step).value.invitations[i].token == s.invitations[i].token
    && !Apply(s, step).value.invitations[i].status.Pending?
  }

  lemma ResendEndsEarlier(s: State, step: Step, i: Id)
    requires step.Invite? && FreshInvite(s, step.id, step.token, step.jobId)
    requires WorkspaceVisible(s.workspaces, step.tenant, step.workspace) && !step.fails
    requires i in s.invitations && SameInvitee(s.invitations[i], step.workspace, step.email)
    ensures Ends(s, step, i)
  {
  }

  lemma EndedTokenIsRefused(s: State, step: Step, later: seq<Step>, i: Id)
    requires Inv(s) && Ends(s, step, i) && Exec(Apply(s, step).value, later).Some?
    ensures OnAccept(Exec(Apply(s, step).value, later).value, s.invitations[i].token).NotPending?
  {
    var t := Apply(s, step).value;
    var after := Exec(t, later).value;
    StepKeepsInv(s, step);
    RunKeepsInv(t, later);
    ClosedStatesAreAbsorbing(t, later);
    assert after.invitations[i] == t.invitations[i];
    OnlyOneHasToken(after.invitations, s.invitations[i].token, i);
  }

  /** Sending a new invitation ends every earlier one to the same address: its token is never accepted again. */
  lemma ResendEndsEarlierTokens(s: State, step: Step, later: seq<Step>, i: Id)
    requires Reachable(s) && step.Invite? && FreshInvite(s, step.id, step.token, step.jobId)
    requires WorkspaceVisible(s.workspaces, step.tenant, step.workspace) && !step.fails
    requires i in s.invitations && SameInvitee(s.invitations[i], step.workspace, step.email)
    requires Exec(Apply(s, step).value, later).Some?
    ensures OnAccept(Exec(Apply(s, step).value, later).value, s.invitations[i].token).NotPending?
  {
    ReachableInv(s);
    ResendEndsEarlier(s, step, i);
    EndedTokenIsRefused(s, step, later, i);
  }

  /** A cancelled invitation is never accepted: cancelling is for a pending one of a workspace the tenant has. */
  lemma CancelledTokenIsRefused(s: State, tenant: Id, workspace: Id, i: Id, later: seq<Step>)
    requires Reachable(s) && i in s.invitations
    requires workspace in s.workspaces && s.workspaces[workspace] == Workspace(tenant, false)
    requires s.invitations[i].workspace == workspace && s.invitations[i].status.Pending?
    requires Exec(Apply(s, Cancel(tenant, workspace, i)).value, later).Some?
    ensures Apply(s, Cancel(tenant, workspace, i)).value.invitations
            == s.invitations[i := s.invitations[i].(status := Cancelled)]
    ensures OnAccept(Exec(Apply(s, Cancel(tenant, workspace, i)).value, later).value,
                     s.invitations[i].token).NotPending?
  {
    ReachableInv(s);
    EndedTokenIsRefused(s, Cancel(tenant, workspace, i), later, i);
  }

  // ── How long an invitation stands ───────────────────────────────────────────

  /** The row has the token, is pending and has not run out. */
  ghost predicate Acceptable(table: Table, i: Id, token: Token, now: int) {
    i in table && table[i].token == token && table[i].status.Pending? && now <= table[i].expiresAt
  }

  lemma AcceptedById(s: State, token: Token, i: Id)
    requires TokensUnique(s.invitations) && i in s.invitations && s.invitations[i].token == token
    ensures OnAccept(s, token).Ok? <==> Acceptable(s.invitations, i, token, s.now)
    ensures OnAccept(s, token).Ok? ==> FindByToken(s.invitations, token) == i
  {
    OnlyOneHasToken(s.invitations, token, i);
  }

  /** What the table has to hold for a token to be accepted. */
  lemma AcceptedIff(s: State, token: Token)
    requires Reachable(s)
    ensures OnAccept(s, token).Ok? <==> exists i :: Acceptable(s.invitations, i, token, s.now)
  {
    ReachableInv(s);
    if TokenKnown(s.invitations, token) {
      AcceptedById(s, token, FindByToken(s.invitations, token));
    }
    if i :| Acceptable(s.invitations, i, token, s.now) {
      AcceptedById(s, token, i);
    }
  }

  /** Time goes on, and no row ever loses its token or its date. */
  ghost predicate Dated(before: State, after: State) {
    && before.now <= after.now
    && forall i :: i in before.invitations ==>
         && i in after.invitations
         && after.invitations[i].token == before.invitations[i].token
         && after.invitations[i].expiresAt == before.invitations[i].expiresAt
  }

  lemma StepKeepsDates(s: State, step: Step)
    requires Apply(s, step).Some?
    ensures Dated(s, Apply(s, step).value)
  {
  }

  lemma {:induction false} RunKeepsDates(s: State, steps: seq<Step>)
    requires Exec(s, steps).Some?
    ensures Dated(s, Exec(s, steps).value)
    decreases |steps|
  {
    if steps != [] {
      StepKeepsDates(s, steps[0]);
      RunKeepsDates(Apply(s, steps[0]).value, steps[1..]);
    }
  }

  /** The request opens an invitation: its workspace exists, and nothing fails. */
  ghost predicate Opens(s: State, step: Step) {
    && step.Invite? && FreshInvite(s, step.id, step.token, step.jobId)
    && WorkspaceVisible(s.workspaces, step.tenant, step.workspace) && !step.fails
  }

  lemma OpensAtNow(s: State, step: Step)
    requires Inv(s) && Opens(s, step)
    ensures var after := Apply(s, step).value;
            && Inv(after) && after.now == s.now && step.id in after.invitations
            && after.invitations[step.id].token == step.token && after.invitations[step.id].status.Pending?
            && after.invitations[step.id].expiresAt == s.now + step.ttl
  {
    StepKeepsInv(s, step);
  }

  /** An invitation is not accepted once its time to live is over, whatever happened in between. */
  lemma NeverAcceptedPastExpiry(s: State, step: Step, later: seq<Step>)
    requires Reachable(s) && Opens(s, step) && Exec(Apply(s, step).value, later).Some?
    ensures var after := Exec(Apply(s, step).value, later).value;
            after.now > s.now + step.ttl ==> !OnAccept(after, step.token).Ok?
  {
    ReachableInv(s);
    OpensAtNow(s, step);
    var start := Apply(s, step).value;
    RunKeepsInv(start, later);
    RunKeepsDates(start, later);
    AcceptedById(Exec(start, later).value, step.token, step.id);
  }

  /** Left alone, it is accepted as long as its time to live lasts, and no longer. */
  lemma AcceptedUntilExpiry(s: State, step: Step, elapsed: nat)
    requires Reachable(s) && Opens(s, step)
    ensures var waited := Exec(Apply(s, step).value, [Tick(elapsed)]);
            waited.Some? && (OnAccept(waited.value, step.token).Ok? <==> elapsed <= step.ttl)
  {
    ReachableInv(s);
    OpensAtNow(s, step);
    var start := Apply(s, step).value;
    var late := start.(now := start.now + elapsed);
    assert [Tick(elapsed)][1..] == [];
    assert Exec(start, [Tick(elapsed)]) == Some(late);
    AcceptedById(late, step.token, step.id);
  }

  lemma CleanUpKeepsById(s: State, token: Token, i: Id)
    requires Inv(s) && i in s.invitations && s.invitations[i].token == token
    ensures OnAccept(Apply(s, ExpireAll).value, token).Ok? <==> OnAccept(s, token).Ok?
  {
    var after := Apply(s, ExpireAll).value;
    StepKeepsInv(s, ExpireAll);
    assert after.invitations[i].token == token;
    AcceptedById(s, token, i);
    AcceptedById(after, token, i);
  }

  /** The nightly clean-up changes no acceptance: what it expires had run out. */
  lemma CleanUpChangesNoAcceptance(s: State, token: Token)
    requires Reachable(s)
    ensures OnAccept(Apply(s, ExpireAll).value, token).Ok? <==> OnAccept(s, token).Ok?
  {
    ReachableInv(s);
    var after := Apply(s, ExpireAll).value;
    if TokenKnown(s.invitations, token) {
      CleanUpKeepsById(s, token, FindByToken(s.invitations, token));
    } else {
      assert forall i :: i in after.invitations ==> after.invitations[i].token == s.invitations[i].token;
    }
  }

  /** Accepting enrolls the user in the invitation's tenant and workspace; an existing member keeps the role. */
  lemma AcceptEnrolls(s: State, token: Token, user: Id)
    requires Reachable(s) && OnAccept(s, token).Ok?
    ensures var x := s.invitations[FindByToken(s.invitations, token)];
            var after := Apply(s, Accept(token, user, false)).value;
            && OnAccept(after, token).NotPending?
            && after.invitations
               == s.invitations[FindByToken(s.invitations, token) := x.(status := Accepted, acceptedBy := Some(user))]
            && after.tenantMembers == s.tenantMembers + {(x.tenant, user)}
            && (x.workspace, user) in after.members
            && after.members[(x.workspace, user)] == (if (x.workspace, user) in s.members then s.members[(x.workspace, user)] else x.role)
            && (forall m :: m != (x.workspace, user) ==> (m in after.members <==> m in s.members))
  {
    ReachableInv(s);
    var i := FindByToken(s.invitations, token);
    var after := Apply(s, Accept(token, user, false)).value;
    AcceptKeeps(s, i, user);
    assert after.invitations[i].token == token;
    assert FindByToken(after.invitations, token) == i;
  }

  /** Whoever accepted an invitation is, as long as nobody is removed, a member of its tenant and workspace. */
  lemma AcceptedMeansMember(s: State, i: Id)
    requires Reachable(s) && i in s.invitations && s.invitations[i].status.Accepted?
    ensures s.invitations[i].acceptedBy.Some?
    ensures (s.invitations[i].tenant, s.invitations[i].acceptedBy.value) in s.tenantMembers
    ensures (s.invitations[i].workspace, s.invitations[i].acceptedBy.value) in s.members
  {
    ReachableInv(s);
  }

  // ── What the requests write ─────────────────────────────────────────────────

  /** The row is new; pending ones to the same invitee are cancelled, all others are as they were. */
  ghost predicate Rotated(before: Table, after: Table, id: Id, row: Invitation) {
    && after.Keys == before.Keys + {id}
    && after[id] == row
    && forall i :: i in before && i != id ==>
         var x := before[i];
         after[i] == if x.workspace == row.workspace && x.email == row.email && x.status.Pending?
                     then x.(status := Cancelled) else x
  }

  lemma CancelledAndAdded(table: Table, id: Id, row: Invitation)
    ensures Rotated(table, CancelExisting(table, row.workspace, row.email)[id := row], id, row)
  {
  }

  /** What is pending past its date is expired, and nothing else is touched. */
  ghost predicate OnlyLateExpired(before: Table, after: Table, now: int) {
    && after.Keys == before.Keys
    && forall i :: i in before ==>
         after[i] == if before[i].status.Pending? && before[i].expiresAt < now then before[i].(status := Expired)
                     else before[i]
  }

  lemma StaleAreLate(table: Table, now: int)
    ensures OnlyLateExpired(table, ExpireStale(table, now), now)
  {
  }

  /** The row is accepted by the user, who joins tenant and workspace; who is a member already keeps the role. */
  ghost predicate Enrols(before: State, after: State, i: Id, user: Id) {
    && i in before.invitations
    && var x := before.invitations[i];
       && after.invitations == before.invitations[i := x.(status := Accepted, acceptedBy := Some(user))]
       && after.tenantMembers == before.tenantMembers + {(x.tenant, user)}
       && after.members.Keys == before.members.Keys + {(x.workspace, user)}
       && (forall m :: m in before.members ==> after.members[m] == before.members[m])
       && ((x.workspace, user) !in before.members ==> after.members[(x.workspace, user)] == x.role)
  }

  lemma AcceptingEnrols(s: State, i: Id, user: Id)
    requires i in s.invitations
    ensures Enrols(s, Accepting(s, i, user), i, user)
  {
  }

  lemma OnlyThisOne(table: Table, token: Token, id: Id)
    requires TokensUnique(table) && id in table && table[id].token == token
    ensures forall i, now :: Acceptable(table, i, token, now) ==> i == id
  {
  }

  // ── The service ─────────────────────────────────────────────────────────────

  class TenancyService {
    var now: int
    var workspaces: map<Id, Workspace>
    var invitations: Table
    var jobs: map<Id, Job>
    var tenantMembers: set<(Id, Id)>
    var members: map<(Id, Id), Option<Id>>
    ghost var redeemed: seq<Token>

    ghost function View(): State
      reads this
    {
      State(now, workspaces, invitations, jobs, tenantMembers, members, redeemed)
    }

    ghost predicate Valid()
      reads this
    {
      Inv(View())
    }

    /** The transaction of `inviteMember`. */
    method CreateInvitation(tenant: Id, workspace: Id, email: Address, role: Option<Id>, id: Id, token: Token,
                            jobId: Id, ttl: nat)
      requires !KeyTaken(jobs, ForInvitation(id))
      modifies this
      ensures View() == Invited(old(View()), tenant, workspace, email, role, id, token, jobId, ttl)
      ensures Rotated(old(invitations), invitations, id,
                      Invitation(tenant, workspace, email, role, token, Pending, old(now) + ttl, None))
      ensures jobs == old(jobs)[jobId := Job(ForInvitation(id), email)]
    {
      CancelledAndAdded(invitations, id, Invitation(tenant, workspace, email, role, token, Pending, now + ttl, None));
      invitations := CancelExisting(invitations, workspace, email);
      invitations := invitations[id := Invitation(tenant, workspace, email, role, token, Pending, now + ttl, None)];
      // the job's key is new, so ON CONFLICT does not apply
      jobs := jobs[jobId := Job(ForInvitation(id), email)];
    }

    method InviteMember(tenant: Id, workspace: Id, email: Address, role: Option<Id>, id: Id, token: Token, jobId: Id,
                        ttl: nat, fails: bool)
      returns (answer: Answer)
      requires Valid() && FreshInvite(View(), id, token, jobId)
      modifies this
      ensures Valid() && Apply(old(View()), Invite(tenant, workspace, email, role, id, token, jobId, ttl, fails)) == Some(View())
      ensures answer == if !WorkspaceVisible(old(workspaces), tenant, workspace) then NotFound
                        else if fails then Failed else Ok
      ensures answer.Ok? ==>
                && Rotated(old(invitations), invitations, id,
                           Invitation(tenant, workspace, email, role, token, Pending, old(now) + ttl, None))
                && jobs == old(jobs)[jobId := Job(ForInvitation(id), email)]
      ensures !answer.Ok? ==> View() == old(View())
    {
      InviteKeeps(View(), Invite(tenant, workspace, email, role, id, token, jobId, ttl, fails));
      if workspace !in workspaces || workspaces[workspace].deleted || workspaces[workspace].tenant != tenant { return NotFound; }
      if fails { return Failed; }
      CreateInvitation(tenant, workspace, email, role, id, token, jobId, ttl);
      return Ok;
    }

    method CancelInvitation(tenant: Id, workspace: Id, id: Id) returns (answer: Answer)
      requires Valid()
      modifies this
      ensures Valid() && Apply(old(View()), Cancel(tenant, workspace, id)) == Some(View())
      ensures answer == OnCancel(old(View()), tenant, workspace, id)
      ensures answer.Ok? <==>
                && WorkspaceVisible(old(workspaces), tenant, workspace)
                && id in old(invitations) && old(invitations)[id].workspace == workspace
                && old(invitations)[id].status.Pending?
      ensures answer.Ok? ==> invitations == old(invitations)[id := old(invitations)[id].(status := Cancelled)]
      ensures !answer.Ok? ==> View() == old(View())
    {
      StepKeepsInv(View(), Cancel(tenant, workspace, id));
      if workspace !in workspaces || workspaces[workspace].deleted || workspaces[workspace].tenant != tenant { return NotFound; }
      if id !in invitations || invitations[id].workspace != workspace { return NotFound; }
      if invitations[id].status != Pending { return NotPending; }
      invitations := invitations[id := invitations[id].(status := Cancelled)];
      return Ok;
    }

    /** The transaction of `acceptInvitation`. */
    method Redeem(id: Id, user: Id)
      requires id in invitations
      modifies this
      ensures View() == Accepting(old(View()), id, user)
    {
      var invitation := invitations[id];
      var existing := (invitation.workspace, user) in members;
      tenantMembers := tenantMembers + {(invitation.tenant, user)};
      if !existing { members := members[(invitation.workspace, user) := invitation.role]; }
      invitations := invitations[id := invitation.(status := Accepted, acceptedBy := Some(user))];
      redeemed := redeemed + [invitation.token];
    }

    method AcceptInvitation(token: Token, user: Id, fails: bool) returns (answer: Answer)
      requires Valid()
      modifies this
      ensures Valid() && Apply(old(View()), Accept(token, user, fails)) == Some(View())
      ensures answer == if OnAccept(old(View()), token).Ok? && fails then Failed else OnAccept(old(View()), token)
      ensures answer.Ok? <==> !fails && exists i :: Acceptable(old(invitations), i, token, old(now))
      ensures answer.Ok? ==>
                exists i :: Acceptable(old(invitations), i, token, old(now)) && Enrols(old(View()), View(), i, user)
      ensures !answer.Ok? ==> View() == old(View())
    {
      StepKeepsInv(View(), Accept(token, user, fails));
      if id :| id in invitations && invitations[id].token == token {
        AcceptedById(View(), token, id);
        ghost var before := View();
        OnlyThisOne(invitations, token, id);
        if invitations[id].status != Pending { return NotPending; }
        if invitations[id].expiresAt < now { return TooLate; }
        if fails { return Failed; }
        AcceptingEnrols(before, id, user);
        Redeem(id, user);
        return Ok;
      }
      return NotFound;
    }

    /** The invitation part of the nightly clean-up: what is pending past its expiry, and nothing else. */
    method ExpireInvitations()
      requires Valid()
      modifies this
      ensures Valid() && Apply(old(View()), ExpireAll) == Some(View())
      ensures OnlyLateExpired(old(invitations), invitations, old(now))
    {
      StepKeepsInv(View(), ExpireAll);
      StaleAreLate(invitations, now);
      invitations := ExpireStale(invitations, now);
    }
  }
}
