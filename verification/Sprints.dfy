/**
 Sprints: starting, completing and deleting them, and where completing one leaves its items.

 A request is one step, except that completing a sprint makes two writes without a
 transaction and may be cut off before either.
 */
module Sprints {
  import opened Options

  type Id = nat

  datatype SprintStatus = Planned | Active | Completed

  datatype Sprint = Sprint(tenant: Id, project: Id, status: SprintStatus)

  /** A work item; `sprint` is its iteration, None the backlog. */
  datatype Item = Item(tenant: Id, sprint: Option<Id>, status: Id, points: Option<nat>, deleted: bool)

  type Items = map<Id, Item>

  datatype State = State(sprints: map<Id, Sprint>, items: Items)

  /** The ids of the workflow statuses in the 'done' category, by project. */
  type DoneStatuses = Id -> set<Id>

  datatype Outcome = Ok | NotFound | WrongStatus | OtherActive | TargetNotFound | OtherProject | CutOff

  /** Where a request that completes a sprint is cut off, if at all. */
  datatype CrashPoint = Nowhere | BeforeItems | BeforeStatus

  predicate Visible(sprints: map<Id, Sprint>, tenant: Id, id: Id) {
    id in sprints && sprints[id].tenant == tenant
  }

  ghost predicate HasActive(sprints: map<Id, Sprint>, project: Id) {
    exists id :: id in sprints && sprints[id].project == project && sprints[id].status.Active?
  }

  /** An item of the sprint that is not in a done status. */
  predicate Unfinished(x: Item, sprint: Id, tenant: Id, done: set<Id>) {
    x.sprint == Some(sprint) && x.tenant == tenant && !x.deleted && x.status !in done
  }

  /** The items that completing the sprint moves: none if the project has no done status. */
  function Moved(items: Items, sprint: Id, tenant: Id, done: set<Id>): set<Id> {
    if done == {} then {} else set i | i in items && Unfinished(items[i], sprint, tenant, done)
  }

  /** The UPDATE of the items. */
  function MoveItems(items: Items, sprint: Id, tenant: Id, done: set<Id>, target: Option<Id>): Items {
    if done == {} then items
    else map i | i in items ::
           if Unfinished(items[i], sprint, tenant, done) then items[i].(sprint := target) else items[i]
  }

  /** The checks of `completeSprint`, in their order. */
  function OnComplete(sprints: map<Id, Sprint>, tenant: Id, id: Id, target: Option<Id>): Outcome {
    if !Visible(sprints, tenant, id) then NotFound
    else if !sprints[id].status.Active? then WrongStatus
    else if target.Some? && !Visible(sprints, tenant, target.value) then TargetNotFound
    else if target.Some? && sprints[target.value].project != sprints[id].project then OtherProject
    else Ok
  }

  /** `completeSprint`, possibly cut off. */
  function Complete(s: State, doneOf: DoneStatuses, tenant: Id, id: Id, target: Option<Id>, crash: CrashPoint): State {
    if !OnComplete(s.sprints, tenant, id, target).Ok? || crash.BeforeItems? then s
    else
      var moved := MoveItems(s.items, id, tenant, doneOf(s.sprints[id].project), target);
      if crash.BeforeStatus? then s.(items := moved)
      else State(s.sprints[id := s.sprints[id].(status := Completed)], moved)
  }

  /** The checks of `startSprint`, in their order. */
  ghost function OnStart(sprints: map<Id, Sprint>, tenant: Id, id: Id): Outcome {
    if !Visible(sprints, tenant, id) then NotFound
    else if !sprints[id].status.Planned? then WrongStatus
    else if HasActive(sprints, sprints[id].project) then OtherActive
    else Ok
  }

  ghost function Start(s: State, tenant: Id, id: Id): State {
    if !OnStart(s.sprints, tenant, id).Ok? then s
    else s.(sprints := s.sprints[id := s.sprints[id].(status := Active)])
  }

  // ── At most one active sprint ───────────────────────────────────────────────

  ghost predicate OneActive(sprints: map<Id, Sprint>) {
    forall a, b | a in sprints && b in sprints && sprints[a].project == sprints[b].project ::
      sprints[a].status.Active? && sprints[b].status.Active? ==> a == b
  }

  class PlanningService {
    const doneOf: DoneStatuses
    var sprints: map<Id, Sprint>
    var items: Items

    ghost function View(): State
      reads this
    {
      State(sprints, items)
    }

    ghost predicate Valid()
      reads this
    {
      OneActive(sprints)
    }

    constructor (doneOf: DoneStatuses, items: Items)
      ensures Valid() && View() == State(map[], items) && this.doneOf == doneOf
    {
      this.doneOf, this.sprints, this.items := doneOf, map[], items;
    }

    method CreateSprint(tenant: Id, project: Id, id: Id)
      requires Valid() && id !in sprints
      modifies `sprints
      ensures Valid() && sprints == old(sprints)[id := Sprint(tenant, project, Planned)]
    {
      sprints := sprints[id := Sprint(tenant, project, Planned)];
    }

    method DeleteSprint(tenant: Id, id: Id) returns (outcome: Outcome)
      requires Valid()
      modifies `sprints
      ensures Valid()
      ensures outcome == if !Visible(old(sprints), tenant, id) then NotFound
                         else if !old(sprints)[id].status.Planned? then WrongStatus else Ok
      ensures sprints == if outcome.Ok? then old(sprints) - {id} else old(sprints)
    {
      if id !in sprints || sprints[id].tenant != tenant { return NotFound; }
      if sprints[id].status != Planned { return WrongStatus; }
      sprints := sprints - {id};
      return Ok;
    }

    /** `findActive`: some active sprint of the project, if there is one. */
    method FindActive(project: Id) returns (active: Option<Id>)
      ensures active.Some? <==> HasActive(sprints, project)
      ensures active.Some? ==>
                && active.value in sprints
                && sprints[active.value].project == project && sprints[active.value].status.Active?
    {
      active := None;
      if id :| id in sprints && sprints[id].project == project && sprints[id].status.Active? {
        active := Some(id);
      }
    }

    /** A planned sprint becomes the active one of its project, unless there is one already. */
    method StartSprint(tenant: Id, id: Id) returns (outcome: Outcome)
      requires Valid()
      modifies `sprints
      ensures Valid() && View() == Start(old(View()), tenant, id)
      ensures outcome == OnStart(old(sprints), tenant, id)
      ensures outcome.Ok? <==>
                && id in old(sprints) && old(sprints)[id].tenant == tenant && old(sprints)[id].status.Planned?
                && forall x :: x in old(sprints) && old(sprints)[x].project == old(sprints)[id].project ==>
                     !old(sprints)[x].status.Active?
      ensures outcome.Ok? ==> sprints == old(sprints)[id := old(sprints)[id].(status := Active)]
      ensures !outcome.Ok? ==> sprints == old(sprints)
    {
      if id !in sprints || sprints[id].tenant != tenant { return NotFound; }
      if sprints[id].status != Planned { return WrongStatus; }
      var active := FindActive(sprints[id].project);
      if active.Some? { return OtherActive; }
      sprints := sprints[id := sprints[id].(status := Active)];
      return Ok;
    }

    /**
     The items that are neither done nor deleted go to the target, if the project has done
     statuses, and then the sprint is completed.  A request cut off in between has moved the
     items only.
     */
    method CompleteSprint(tenant: Id, id: Id, target: Option<Id>, crash: CrashPoint) returns (outcome: Outcome)
      requires Valid()
      modifies this
      ensures Valid() && View() == Complete(old(View()), doneOf, tenant, id, target, crash)
      ensures outcome == if OnComplete(old(sprints), tenant, id, target).Ok? && !crash.Nowhere? then CutOff
                         else OnComplete(old(sprints), tenant, id, target)
      ensures outcome.Ok? ==>
                && id in old(sprints) && old(sprints)[id].tenant == tenant && old(sprints)[id].status.Active?
                && sprints == old(sprints)[id := old(sprints)[id].(status := Completed)]
      ensures !outcome.Ok? ==> sprints == old(sprints)
      ensures outcome.Ok? || (outcome.CutOff? && crash.BeforeStatus?) ==>
                && items.Keys == old(items).Keys
                && forall i :: i in items ==>
                     var x, done := old(items)[i], doneOf(old(sprints)[id].project);
                     if x.sprint == Some(id) && x.tenant == tenant && !x.deleted && done != {} && x.status !in done
                     then items[i] == x.(sprint := target) else items[i] == x
      ensures !outcome.Ok? && !(outcome.CutOff? && crash.BeforeStatus?) ==> items == old(items)
    {
      if id !in sprints || sprints[id].tenant != tenant { return NotFound; }
      var sprint := sprints[id];
      if sprint.status != Active { return WrongStatus; }
      if target.Some? {
        if target.value !in sprints || sprints[target.value].tenant != tenant { return TargetNotFound; }
        if sprints[target.value].project != sprint.project { return OtherProject; }
      }
      var done := doneOf(sprint.project);
      if crash.BeforeItems? { return CutOff; }
      if done != {} {
        items := MoveItems(items, id, tenant, done, target);
      }
      if crash.BeforeStatus? { return CutOff; }
      sprints := sprints[id := sprint.(status := Completed)];
      return Ok;
    }
  }

  // ── Conservation ────────────────────────────────────────────────────────────

  function PointsOf(x: Item): nat {
    match x.points case None => 0 case Some(n) => n
  }

  /** The story points of a set of items. */
  ghost function Sum(items: Items, ids: set<Id>): nat
    requires ids <= items.Keys
  {
    if ids == {} then 0
    else
      var i :| i in ids;
      PointsOf(items[i]) + Sum(items, ids - {i})
  }

  lemma {:induction false} SumTakes(items: Items, ids: set<Id>, i: Id)
    requires ids <= items.Keys && i in ids
    ensures Sum(items, ids) == PointsOf(items[i]) + Sum(items, ids - {i})
    decreases |ids|
  {
    var j :| j in ids && Sum(items, ids) == PointsOf(items[j]) + Sum(items, ids - {j});
    if i != j {
      SumTakes(items, ids - {j}, i);
      SumTakes(items, ids - {i}, j);
      assert ids - {j} - {i} == ids - {i} - {j};
    }
  }

  lemma {:induction false} SumSplits(items: Items, a: set<Id>, b: set<Id>)
    requires a <= items.Keys && b <= items.Keys && a !! b
    ensures Sum(items, a + b) == Sum(items, a) + Sum(items, b)
    decreases |a|
  {
    if a == {} {
      assert a + b == b;
    } else {
      var i :| i in a;
      SumTakes(items, a, i);
      SumTakes(items, a + b, i);
      assert a + b - {i} == (a - {i}) + b;
      SumSplits(items, a - {i}, b);
    }
  }

  lemma {:induction false} SumSame(before: Items, after: Items, ids: set<Id>)
    requires ids <= before.Keys && ids <= after.Keys
    requires forall i :: i in ids ==> before[i].points == after[i].points
    ensures Sum(before, ids) == Sum(after, ids)
    decreases |ids|
  {
    if ids != {} {
      var i :| i in ids;
      SumTakes(before, ids, i);
      SumTakes(after, ids, i);
      SumSame(before, after, ids - {i});
    }
  }

  function In(items: Items, place: Option<Id>): set<Id> {
    set i | i in items && items[i].sprint == place
  }

  /** Where the items are after the UPDATE. */
  lemma MovedPlaces(items: Items, sprint: Id, tenant: Id, done: set<Id>, target: Option<Id>)
    requires target != Some(sprint)
    ensures var after, moved := MoveItems(items, sprint, tenant, done, target), Moved(items, sprint, tenant, done);
            && after.Keys == items.Keys
            && (forall i :: i in items ==> after[i].points == items[i].points)
            && moved <= In(items, Some(sprint))
            && In(after, Some(sprint)) == In(items, Some(sprint)) - moved
            && In(after, target) == In(items, target) + moved
            && In(items, target) !! moved
            && (forall p :: p != Some(sprint) && p != target ==> In(after, p) == In(items, p))
  {
    var after, moved := MoveItems(items, sprint, tenant, done, target), Moved(items, sprint, tenant, done);
    forall p | p != Some(sprint) && p != target ensures In(after, p) == In(items, p) {
      assert forall i :: i in items && after[i].sprint == p <==> i in items && items[i].sprint == p;
    }
  }

  /** What the places add up to. */
  lemma MovedPoints(items: Items, after: Items, from: set<Id>, to: set<Id>, moved: set<Id>)
    requires after.Keys == items.Keys && forall i :: i in items ==> after[i].points == items[i].points
    requires moved <= from <= items.Keys && to <= items.Keys && to !! moved
    ensures Sum(after, after.Keys) == Sum(items, items.Keys)
    ensures Sum(after, from - moved) + Sum(items, moved) == Sum(items, from)
    ensures Sum(after, to + moved) == Sum(items, to) + Sum(items, moved)
  {
    SumSame(items, after, items.Keys);
    SumSame(items, after, from - moved);
    SumSame(items, after, to + moved);
    SumSplits(items, from - moved, moved);
    assert from - moved + moved == from;
    SumSplits(items, to, moved);
  }

  /**
   Completing a sprint keeps every item and its points: what leaves the sprint, in items and
   in points, is what arrives at the target (or in the backlog), and nothing else moves.
   */
  lemma CompletionConserves(s: State, doneOf: DoneStatuses, tenant: Id, id: Id, target: Option<Id>, crash: CrashPoint)
    requires target != Some(id) && OnComplete(s.sprints, tenant, id, target).Ok? && !crash.BeforeItems?
    ensures var after := Complete(s, doneOf, tenant, id, target, crash).items;
            var moved := Moved(s.items, id, tenant, doneOf(s.sprints[id].project));
            && after.Keys == s.items.Keys
            && Sum(after, after.Keys) == Sum(s.items, s.items.Keys)
            && In(after, Some(id)) == In(s.items, Some(id)) - moved
            && In(after, target) == In(s.items, target) + moved
            && Sum(after, In(after, Some(id))) + Sum(s.items, moved) == Sum(s.items, In(s.items, Some(id)))
            && Sum(after, In(after, target)) == Sum(s.items, In(s.items, target)) + Sum(s.items, moved)
            && (forall p :: p != Some(id) && p != target ==> In(after, p) == In(s.items, p))
  {
    var done := doneOf(s.sprints[id].project);
    MovedPlaces(s.items, id, tenant, done, target);
    MovedPoints(s.items, Complete(s, doneOf, tenant, id, target, crash).items,
                In(s.items, Some(id)), In(s.items, target), Moved(s.items, id, tenant, done));
  }

  /** Naming the sprint itself as the target moves nothing. */
  lemma SelfTargetMovesNothing(s: State, doneOf: DoneStatuses, tenant: Id, id: Id, crash: CrashPoint)
    ensures Complete(s, doneOf, tenant, id, Some(id), crash).items == s.items
  {
  }

  /** Done items, deleted items, and everything outside the sprint stay as they are; moved ones change place only. */
  lemma OthersUntouched(s: State, doneOf: DoneStatuses, tenant: Id, id: Id, target: Option<Id>, crash: CrashPoint,
                        i: Id)
    requires i in s.items && id in s.sprints
    ensures var after := Complete(s, doneOf, tenant, id, target, crash).items;
            && i in after
            && after[i] == s.items[i].(sprint := after[i].sprint)
            && (s.items[i].sprint != Some(id) || s.items[i].deleted || s.items[i].status in doneOf(s.sprints[id].project) ==>
                  after[i] == s.items[i])
  {
  }

  // ── Nothing unfinished stays behind ─────────────────────────────────────────

  ghost predicate LeftBehind(items: Items, sprint: Id, tenant: Id, done: set<Id>) {
    exists i :: i in items && Unfinished(items[i], sprint, tenant, done)
  }

  /**
   A completed sprint holds no unfinished item exactly if the project has a done status and
   the items were not moved to the sprint itself, or it held none to begin with.
   */
  lemma CompletedHoldsNoUnfinished(s: State, doneOf: DoneStatuses, tenant: Id, id: Id, target: Option<Id>)
    requires OnComplete(s.sprints, tenant, id, target).Ok?
    ensures var done := doneOf(s.sprints[id].project);
            var after := Complete(s, doneOf, tenant, id, target, Nowhere);
            !LeftBehind(after.items, id, tenant, done)
            <==> (done != {} && target != Some(id)) || !LeftBehind(s.items, id, tenant, done)
  {
    var done := doneOf(s.sprints[id].project);
    var after := Complete(s, doneOf, tenant, id, target, Nowhere);
    if i :| i in s.items && Unfinished(s.items[i], id, tenant, done) {
      assert done == {} || target == Some(id) ==> Unfinished(after.items[i], id, tenant, done);
    }
    if i :| i in after.items && Unfinished(after.items[i], id, tenant, done) {
      assert Unfinished(s.items[i], id, tenant, done);
    }
  }

  // ── What completing is for ──────────────────────────────────────────────────

  /**
   Completing the active sprint of a project makes room for the next one: no sprint of the
   project is active, and any planned one of it can be started and then is the active one.
   */
  lemma CompletionFreesTheProject(s: State, doneOf: DoneStatuses, tenant: Id, id: Id, target: Option<Id>, next: Id)
    requires OneActive(s.sprints) && OnComplete(s.sprints, tenant, id, target).Ok?
    requires next in s.sprints && s.sprints[next].project == s.sprints[id].project && s.sprints[next].status.Planned?
    ensures var after := Complete(s, doneOf, tenant, id, target, Nowhere);
            && OnStart(s.sprints, s.sprints[next].tenant, next).OtherActive?
            && !HasActive(after.sprints, s.sprints[id].project)
            && OnStart(after.sprints, s.sprints[next].tenant, next).Ok?
            && Start(after, s.sprints[next].tenant, next).sprints[next].status.Active?
  {
    assert HasActive(s.sprints, s.sprints[id].project);
    var after := Complete(s, doneOf, tenant, id, target, Nowhere);
    assert forall x :: x in after.sprints && x != id ==> after.sprints[x] == s.sprints[x];
  }

  // ── Crash and rerun ─────────────────────────────────────────────────────────

  lemma MoveTwice(items: Items, sprint: Id, tenant: Id, done: set<Id>, target: Option<Id>)
    ensures var once := MoveItems(items, sprint, tenant, done, target);
            MoveItems(once, sprint, tenant, done, target) == once
  {
  }

  /** Attempts to complete the sprint, each cut off where it says, and then one that is not. */
  function Attempts(s: State, doneOf: DoneStatuses, tenant: Id, id: Id, target: Option<Id>,
                    crashes: seq<CrashPoint>): State
    decreases |crashes|
  {
    if crashes == [] then Complete(s, doneOf, tenant, id, target, Nowhere)
    else Attempts(Complete(s, doneOf, tenant, id, target, crashes[0]), doneOf, tenant, id, target, crashes[1..])
  }

  /** However often the request is cut off between its writes, repeating it ends as one clean run would. */
  lemma {:induction false} RerunEndsLikeCleanRun(s: State, doneOf: DoneStatuses, tenant: Id, id: Id,
                                                 target: Option<Id>, crashes: seq<CrashPoint>)
    requires forall k :: 0 <= k < |crashes| ==> !crashes[k].Nowhere?
    ensures Attempts(s, doneOf, tenant, id, target, crashes) == Complete(s, doneOf, tenant, id, target, Nowhere)
    decreases |crashes|
  {
    if crashes != [] {
      RerunEndsLikeCleanRun(Complete(s, doneOf, tenant, id, target, crashes[0]), doneOf, tenant, id, target, crashes[1..]);
      if OnComplete(s.sprints, tenant, id, target).Ok? {
        MoveTwice(s.items, id, tenant, doneOf(s.sprints[id].project), target);
      }
    }
  }

  // ── All runs ────────────────────────────────────────────────────────────────

  datatype Step =
    | Create(tenant: Id, project: Id, id: Id)
    | Delete(tenant: Id, id: Id)
    | StartIt(tenant: Id, id: Id)
    | CompleteIt(tenant: Id, id: Id, target: Option<Id>, crash: CrashPoint)
    | EditItem(id: Id, item: Item)

  ghost function Apply(doneOf: DoneStatuses, s: State, step: Step): State {
    match step
    case Create(tenant, project, id) =>
      if id in s.sprints then s else s.(sprints := s.sprints[id := Sprint(tenant, project, Planned)])
    case Delete(tenant, id) =>
      if Visible(s.sprints, tenant, id) && s.sprints[id].status.Planned? then s.(sprints := s.sprints - {id}) else s
    case StartIt(tenant, id) => Start(s, tenant, id)
    case CompleteIt(tenant, id, target, crash) => Complete(s, doneOf, tenant, id, target, crash)
    case EditItem(id, item) => s.(items := s.items[id := item])
  }

  ghost function Exec(doneOf: DoneStatuses, s: State, steps: seq<Step>): State
    decreases |steps|
  {
    if steps == [] then s else Exec(doneOf, Apply(doneOf, s, steps[0]), steps[1..])
  }

  /** A completed sprint is never active, planned or gone again. */
  ghost predicate StaysCompleted(before: map<Id, Sprint>, after: map<Id, Sprint>) {
    forall id :: id in before && before[id].status.Completed? ==> id in after && after[id] == before[id]
  }

  /** No run of requests reaches two active sprints in one project, and completed sprints stay completed. */
  lemma {:induction false} RunsKeepOneActive(doneOf: DoneStatuses, s: State, steps: seq<Step>)
    requires OneActive(s.sprints)
    ensures OneActive(Exec(doneOf, s, steps).sprints)
    ensures StaysCompleted(s.sprints, Exec(doneOf, s, steps).sprints)
    decreases |steps|
  {
    if steps != [] {
      RunsKeepOneActive(doneOf, Apply(doneOf, s, steps[0]), steps[1..]);
    }
  }
}
