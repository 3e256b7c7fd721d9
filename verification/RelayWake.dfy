/**
 The in-process side of a relay: the guard that lets one run into the body at a time, and
 the flag that remembers a call that came while a run was in progress.

 Calls come from the cron tick and from wake signals.  The event loop runs one handler at a
 time, so a step is one stretch of code between two awaits: a call, a callback that
 `setImmediate` queued, the moment a run's SELECT starts, and the `finally` block.
 */
module RelayWake {
  import opened Options

  /**
   `opening` counts the runs inside the body that have not started their fetch, `working`
   those that have.  Nothing but the guard keeps their number down.
   */
  datatype State = State(isRelaying: bool, wakeOnComplete: bool, immediates: nat, opening: nat, working: nat)

  const IDLE := State(false, false, 0, 0, 0)

  datatype Step =
    | Call                    // relay() by cron or by a wake signal
    | Immediate               // a callback queued by setImmediate calls relay()
    | Fetch                   // a run's SELECT … FOR UPDATE SKIP LOCKED starts
    | Finish(fetched: bool)   // a run ends, by return or by rejection; without a fetch only by rejection

  /** The guard at the top of `relay()`. */
  function Enter(s: State): State {
    if s.isRelaying then s.(wakeOnComplete := true)
    else s.(isRelaying := true, opening := s.opening + 1)
  }

  /** The `finally` block. */
  function Leave(s: State): State {
    s.(isRelaying := false, wakeOnComplete := false,
       immediates := s.immediates + if s.wakeOnComplete then 1 else 0)
  }

  function Apply(s: State, step: Step): Option<State> {
    match step
    case Call => Some(Enter(s))
    case Immediate => if s.immediates == 0 then None else Some(Enter(s.(immediates := s.immediates - 1)))
    case Fetch => if s.opening == 0 then None else Some(s.(opening := s.opening - 1, working := s.working + 1))
    case Finish(fetched) =>
      if fetched then
        if s.working == 0 then None else Some(Leave(s.(working := s.working - 1)))
      else
        if s.opening == 0 then None else Some(Leave(s.(opening := s.opening - 1)))
  }

  function Exec(s: State, steps: seq<Step>): Option<State>
    decreases |steps|
  {
    if steps == [] then Some(s)
    else
      match Apply(s, steps[0])
      case None => None
      case Some(t) => Exec(t, steps[1..])
  }

  class Guard {
    var isRelaying: bool
    var wakeOnComplete: bool
    var immediates: nat
    ghost var opening: nat
    ghost var working: nat

    ghost function View(): State
      reads this
    {
      State(isRelaying, wakeOnComplete, immediates, opening, working)
    }

    constructor ()
      ensures View() == IDLE
    {
      isRelaying, wakeOnComplete, immediates, opening, working := false, false, 0, 0, 0;
    }

    /** The code before the transaction; `entered` says that this call goes on to run it. */
    method Relay() returns (entered: bool)
      modifies this
      ensures Apply(old(View()), Call) == Some(View())
      ensures entered == !old(isRelaying)
      ensures isRelaying && immediates == old(immediates)
      ensures wakeOnComplete == (old(wakeOnComplete) || !entered)
    {
      if isRelaying {
        wakeOnComplete := true;
        return false;
      }
      isRelaying := true;
      opening := opening + 1;
      return true;
    }

    /** The `finally` block of a run. */
    method Finally(ghost fetched: bool)
      requires Apply(View(), Finish(fetched)).Some?
      modifies this
      ensures Apply(old(View()), Finish(fetched)) == Some(View())
      ensures !isRelaying && !wakeOnComplete
      ensures immediates == if old(wakeOnComplete) then old(immediates) + 1 else old(immediates)
    {
      if fetched { working := working - 1; } else { opening := opening - 1; }
      isRelaying := false;
      if wakeOnComplete {
        wakeOnComplete := false;
        immediates := immediates + 1;
      }
    }
  }

  // ── Mutual exclusion ────────────────────────────────────────────────────────

  ghost predicate Guarded(s: State) {
    && s.opening + s.working == (if s.isRelaying then 1 else 0)
    && (s.wakeOnComplete ==> s.isRelaying)
  }

  /** In every run of the steps at most one run of the relay is inside the body. */
  lemma {:induction false} AtMostOneRunInside(s: State, steps: seq<Step>)
    requires Guarded(s) && Exec(s, steps).Some?
    ensures var t := Exec(s, steps).value; Guarded(t) && t.opening + t.working <= 1
    decreases |steps|
  {
    if steps != [] {
      AtMostOneRunInside(Apply(s, steps[0]).value, steps[1..]);
    }
  }

  // ── No lost wakeup ──────────────────────────────────────────────────────────

  /** Nothing is running and nothing is queued: only a new call can make a step. */
  ghost predicate Quiescent(s: State) {
    s.opening == 0 && s.working == 0 && s.immediates == 0
  }

  /** The state before step number `i`. */
  function At(steps: seq<Step>, i: nat): Option<State>
    requires i <= |steps|
  {
    Exec(IDLE, steps[..i])
  }

  /** Step number `i` is a call that finds the relay idle, so a run begins. */
  ghost predicate Begins(steps: seq<Step>, i: nat) {
    && i < |steps|
    && (steps[i].Call? || steps[i].Immediate?)
    && At(steps, i).Some? && !At(steps, i).value.isRelaying
  }

  /** The run that began at step `b` gets as far as its fetch, at step `f`. */
  ghost predicate FetchesAt(steps: seq<Step>, b: nat, f: nat) {
    && b < f < |steps|
    && steps[f].Fetch?
    && forall i :: b < i < f ==> !steps[i].Finish?
  }

  lemma {:induction false} ExecSplit(s: State, a: seq<Step>, b: seq<Step>)
    ensures Exec(s, a + b) == match Exec(s, a) case None => None case Some(t) => Exec(t, b)
    decreases |a|
  {
    if a == [] {
      assert a + b == b;
    } else {
      assert (a + b)[1..] == a[1..] + b;
      if Apply(s, a[0]).Some? {
        ExecSplit(Apply(s, a[0]).value, a[1..], b);
      }
    }
  }

  lemma AtStart(steps: seq<Step>)
    ensures At(steps, 0) == Some(IDLE)
  {
    assert steps[..0] == [];
  }

  lemma AtEnd(steps: seq<Step>)
    ensures At(steps, |steps|) == Exec(IDLE, steps)
  {
    assert steps[..|steps|] == steps;
  }

  lemma First(s: State, step: Step, rest: seq<Step>)
    requires Apply(s, step).Some?
    ensures Exec(s, [step] + rest) == Exec(Apply(s, step).value, rest)
  {
    assert ([step] + rest)[1..] == rest;
  }

  lemma AtExists(steps: seq<Step>, i: nat)
    requires i <= |steps| && Exec(IDLE, steps).Some?
    ensures At(steps, i).Some? && Guarded(At(steps, i).value)
  {
    assert steps == steps[..i] + steps[i..];
    ExecSplit(IDLE, steps[..i], steps[i..]);
    AtMostOneRunInside(IDLE, steps[..i]);
  }

  lemma AtNext(steps: seq<Step>, i: nat)
    requires i < |steps| && Exec(IDLE, steps).Some?
    ensures At(steps, i).Some? && At(steps, i + 1) == Apply(At(steps, i).value, steps[i])
    ensures At(steps, i + 1).Some?
    ensures Guarded(At(steps, i).value) && Guarded(At(steps, i + 1).value)
  {
    AtExists(steps, i);
    AtExists(steps, i + 1);
    assert steps[..i + 1] == steps[..i] + [steps[i]];
    ExecSplit(IDLE, steps[..i], [steps[i]]);
    ExecOne(At(steps, i).value, steps[i]);
  }

  lemma ExecOne(s: State, step: Step)
    ensures Exec(s, [step]) == Apply(s, step)
  {
    assert [step][1..] == [];
  }

  /** While the flag is up or a callback is queued, a run is still to begin. */
  lemma {:induction false} OwedRunBegins(steps: seq<Step>, i: nat) returns (b: nat)
    requires i <= |steps| && Exec(IDLE, steps).Some? && Quiescent(Exec(IDLE, steps).value)
    requires At(steps, i).Some? && (At(steps, i).value.wakeOnComplete || At(steps, i).value.immediates > 0)
    ensures i <= b && Begins(steps, b)
    decreases |steps| - i
  {
    if i == |steps| {
      assert steps[..i] == steps;
      AtMostOneRunInside(IDLE, steps);
      assert false;
    } else {
      AtNext(steps, i);
      if Begins(steps, i) {
        b := i;
      } else {
        b := OwedRunBegins(steps, i + 1);
      }
    }
  }

  /**
   Whatever is going on when `relay()` is called, a run begins at that call or after it:
   at the latest the one queued when the run in progress ends.
   */
  lemma NoLostWakeup(steps: seq<Step>, c: nat) returns (b: nat)
    requires c < |steps| && steps[c].Call?
    requires Exec(IDLE, steps).Some? && Quiescent(Exec(IDLE, steps).value)
    ensures c <= b && Begins(steps, b)
  {
    AtNext(steps, c);
    if Begins(steps, c) {
      b := c;
    } else {
      b := OwedRunBegins(steps, c + 1);
    }
  }

  /** Every fetch belongs to a run that began before it and had not ended. */
  lemma {:induction false} FetchHasRun(steps: seq<Step>, f: nat, i: nat) returns (b: nat)
    requires i <= f < |steps| && steps[f].Fetch? && Exec(IDLE, steps).Some?
    requires At(steps, i).Some? && At(steps, i).value.opening > 0
    requires forall j :: i <= j < f ==> !steps[j].Finish?
    ensures b < i && Begins(steps, b) && FetchesAt(steps, b, f)
    decreases i
  {
    if i == 0 {
      AtStart(steps);
      assert false;
    } else {
      AtNext(steps, i - 1);
      if Begins(steps, i - 1) {
        b := i - 1;
      } else {
        b := FetchHasRun(steps, f, i - 1);
      }
    }
  }

  /** The run that began at step `b` rejects before its fetch starts, at step `e`. */
  ghost predicate RejectsAt(steps: seq<Step>, b: nat, e: nat) {
    && b < e < |steps|
    && steps[e] == Finish(false)
    && forall i :: b < i < e ==> !steps[i].Fetch? && !steps[i].Finish?
  }

  ghost predicate Rejects(steps: seq<Step>, b: nat) {
    exists e :: RejectsAt(steps, b, e)
  }

  /** A run that is still on its way to its fetch gets there or rejects before the relay is at rest. */
  lemma {:induction false} OpeningEnds(steps: seq<Step>, b: nat, i: nat)
    requires b < i <= |steps| && Exec(IDLE, steps).Some? && Quiescent(Exec(IDLE, steps).value)
    requires At(steps, i).Some? && At(steps, i).value.opening > 0
    requires forall j :: b < j < i ==> !steps[j].Fetch? && !steps[j].Finish?
    ensures Rejects(steps, b) || exists f :: FetchesAt(steps, b, f)
    decreases |steps| - i
  {
    if i == |steps| {
      AtEnd(steps);
      assert false;
    } else {
      AtNext(steps, i);
      if steps[i].Fetch? {
        assert FetchesAt(steps, b, i);
      } else if steps[i].Finish? {
        assert RejectsAt(steps, b, i);
      } else {
        OpeningEnds(steps, b, i + 1);
      }
    }
  }

  /** A run rejects before its fetch, or fetches, and never both. */
  lemma RunFetchesOrRejects(steps: seq<Step>, b: nat)
    requires Begins(steps, b) && Exec(IDLE, steps).Some? && Quiescent(Exec(IDLE, steps).value)
    ensures Rejects(steps, b) <==> !exists f :: FetchesAt(steps, b, f)
  {
    AtNext(steps, b);
    OpeningEnds(steps, b, b + 1);
    if e: nat, f: nat :| RejectsAt(steps, b, e) && FetchesAt(steps, b, f) {
      assert false;
    }
  }

  /** A run that begins at or after the call, or was on its way to its fetch when the call came. */
  ghost predicate CanServe(steps: seq<Step>, c: nat, b: nat) {
    && Begins(steps, b)
    && forall i :: b < i < c && i < |steps| ==> !steps[i].Fetch? && !steps[i].Finish?
  }

  /** A call is followed by a fetch exactly if not every run that could serve it ended by rejecting before its fetch. */
  lemma CallIsFollowedByFetch(steps: seq<Step>, c: nat)
    requires c < |steps| && steps[c].Call?
    requires Exec(IDLE, steps).Some? && Quiescent(Exec(IDLE, steps).value)
    ensures FetchAfter(steps, c) <==> exists b :: CanServe(steps, c, b) && !Rejects(steps, b)
  {
    if FetchAfter(steps, c) {
      var f :| c < f < |steps| && steps[f].Fetch?;
      var b := ServedBy(steps, c, f);
      RunFetchesOrRejects(steps, b);
    }
    if b :| CanServe(steps, c, b) && !Rejects(steps, b) {
      RunFetchesOrRejects(steps, b);
      ServesLater(steps, c, b);
    }
  }

  ghost predicate FetchAfter(steps: seq<Step>, c: nat) {
    exists f :: c < f < |steps| && steps[f].Fetch?
  }

  /** The run whose fetch is the first after the call. */
  lemma ServedBy(steps: seq<Step>, c: nat, f: nat) returns (b: nat)
    requires c < f < |steps| && steps[f].Fetch? && Exec(IDLE, steps).Some?
    ensures CanServe(steps, c, b) && exists g :: FetchesAt(steps, b, g)
  {
    var g := FirstFetch(steps, c, f);
    AtNext(steps, g);
    b := FetchHasRun(steps, g, g);
    OnlyFetchOfRun(steps, b, c, g);
  }

  lemma ServesLater(steps: seq<Step>, c: nat, b: nat)
    requires c < |steps| && steps[c].Call? && CanServe(steps, c, b) && exists f :: FetchesAt(steps, b, f)
    ensures FetchAfter(steps, c)
  {
    var f: nat :| FetchesAt(steps, b, f);
    assert f != c;
    assert c < f < |steps| && steps[f].Fetch?;
  }

  /** The begin of the run that is on its way to its fetch. */
  lemma {:induction false} OpeningBegan(steps: seq<Step>, i: nat) returns (b: nat)
    requires i <= |steps| && Exec(IDLE, steps).Some?
    requires At(steps, i).Some? && At(steps, i).value.opening > 0
    ensures b < i && Begins(steps, b) && forall j :: b < j < i ==> !steps[j].Fetch? && !steps[j].Finish?
    decreases i
  {
    if i == 0 {
      AtStart(steps);
      assert false;
    } else {
      AtNext(steps, i - 1);
      if Begins(steps, i - 1) {
        b := i - 1;
      } else {
        b := OpeningBegan(steps, i - 1);
      }
    }
  }

  /** No run that began before a call can serve it once a run is past its fetch, or none is inside. */
  lemma EarlierRunsAreOver(steps: seq<Step>, c: nat, b: nat)
    requires c < |steps| && Exec(IDLE, steps).Some? && At(steps, c).Some? && At(steps, c).value.opening == 0
    requires CanServe(steps, c, b)
    ensures c <= b
  {
    if b < c {
      StaysOpening(steps, b, c);
    }
  }

  lemma {:induction false} StaysOpening(steps: seq<Step>, b: nat, i: nat)
    requires b < i <= |steps| && Exec(IDLE, steps).Some? && Begins(steps, b)
    requires forall j :: b < j < i ==> !steps[j].Fetch? && !steps[j].Finish?
    ensures At(steps, i).Some? && At(steps, i).value.opening > 0
    decreases i
  {
    AtNext(steps, i - 1);
    if b < i - 1 {
      StaysOpening(steps, b, i - 1);
    }
  }

  /**
   Which runs can serve a call, by what it finds.  Idle: the run it begins itself, and later
   ones.  Before the fetch of the run in progress: that run, and a later one that the call
   has queued.  In the middle of a batch: only later ones, of which there is at least one.
   */
  lemma WhoServes(steps: seq<Step>, c: nat)
    requires c < |steps| && steps[c].Call?
    requires Exec(IDLE, steps).Some? && Quiescent(Exec(IDLE, steps).value)
    ensures At(steps, c).Some?
    ensures !At(steps, c).value.isRelaying ==>
              CanServe(steps, c, c) && forall b :: CanServe(steps, c, b) ==> c <= b
    ensures At(steps, c).value.opening > 0 ==>
              (exists b: nat :: b < c && CanServe(steps, c, b)) && exists b: nat :: c < b && CanServe(steps, c, b)
    ensures At(steps, c).value.working > 0 ==>
              (exists b :: CanServe(steps, c, b)) && forall b :: CanServe(steps, c, b) ==> c < b
  {
    AtNext(steps, c);
    var s := At(steps, c).value;
    if s.isRelaying {
      var later := OwedRunBegins(steps, c + 1);
      assert CanServe(steps, c, later);
    }
    if s.opening > 0 {
      var b := OpeningBegan(steps, c);
      assert CanServe(steps, c, b);
    } else {
      forall b | CanServe(steps, c, b) ensures c <= b {
        EarlierRunsAreOver(steps, c, b);
      }
    }
  }

  lemma FirstFetch(steps: seq<Step>, c: nat, f: nat) returns (g: nat)
    requires c < f < |steps| && steps[f].Fetch?
    ensures c < g <= f && steps[g].Fetch? && forall i :: c < i < g ==> !steps[i].Fetch?
    decreases f - c
  {
    g := f;
    if i :| c < i < f && steps[i].Fetch? {
      g := FirstFetch(steps, c, i);
    }
  }

  /** A run fetches once: between its begin and its fetch there is no other fetch. */
  lemma {:induction false} OnlyFetchOfRun(steps: seq<Step>, b: nat, c: nat, g: nat)
    requires Begins(steps, b) && FetchesAt(steps, b, g) && Exec(IDLE, steps).Some?
    ensures forall i :: b < i < g ==> !steps[i].Fetch?
  {
    forall i | b < i < g ensures !steps[i].Fetch? {
      AtNext(steps, b);
      AtNext(steps, g);
      StillOpening(steps, b, g, i);
    }
  }

  lemma {:induction false} StillOpening(steps: seq<Step>, b: nat, g: nat, i: nat)
    requires Begins(steps, b) && FetchesAt(steps, b, g) && Exec(IDLE, steps).Some? && b < i < g
    ensures !steps[i].Fetch?
  {
    if steps[i].Fetch? {
      AtNext(steps, i);
      WorkingStays(steps, i + 1, g);
      AtNext(steps, g);
      assert false;
    }
  }

  /** Once a run works, it does so until it finishes. */
  lemma {:induction false} WorkingStays(steps: seq<Step>, i: nat, g: nat)
    requires i <= g < |steps| && Exec(IDLE, steps).Some?
    requires At(steps, i).Some? && At(steps, i).value.working > 0
    requires forall j :: i <= j < g ==> !steps[j].Finish?
    ensures At(steps, g).Some? && At(steps, g).value.working > 0
    decreases g - i
  {
    if i < g {
      AtNext(steps, i);
      WorkingStays(steps, i + 1, g);
    }
  }

  const WORKING := State(true, false, 0, 0, 1)

  lemma CallAndFetch()
    ensures Exec(IDLE, [Call, Fetch]) == Some(WORKING)
  {
    First(IDLE, Call, [Fetch]);
    First(Enter(IDLE), Fetch, []);
    assert [Call] + [Fetch] == [Call, Fetch] && [Fetch] + [] == [Fetch];
  }

  lemma FollowUpRejects()
    ensures Exec(State(false, false, 1, 0, 0), [Immediate, Finish(false)]) == Some(IDLE)
  {
    First(State(false, false, 1, 0, 0), Immediate, [Finish(false)]);
    First(State(true, false, 0, 1, 0), Finish(false), []);
    assert [Immediate] + [Finish(false)] == [Immediate, Finish(false)] && [Finish(false)] + [] == [Finish(false)];
  }

  lemma CallWhileWorking(rest: seq<Step>)
    ensures Exec(WORKING, [Call, Finish(true)] + rest) == Exec(State(false, false, 1, 0, 0), rest)
  {
    First(WORKING, Call, [Finish(true)] + rest);
    First(Enter(WORKING), Finish(true), rest);
    assert [Call] + ([Finish(true)] + rest) == [Call, Finish(true)] + rest;
  }

  /**
   The remembered call is not served when the follow-up run rejects: nothing is queued, and
   no fetch started after the call.
   */
  lemma RejectedFollowUpDropsTheCall() returns (steps: seq<Step>, c: nat)
    ensures c < |steps| && steps[c].Call? && Exec(IDLE, steps) == Some(IDLE)
    ensures !Begins(steps, c)
    ensures forall f :: c < f < |steps| ==> !steps[f].Fetch?
  {
    var busy, rest := [Call, Fetch], [Call, Finish(true)] + [Immediate, Finish(false)];
    steps, c := busy + rest, 2;
    CallAndFetch();
    FollowUpRejects();
    CallWhileWorking([Immediate, Finish(false)]);
    ExecSplit(IDLE, busy, rest);
    assert steps[..2] == busy;
  }

  // ── The relay comes to rest ─────────────────────────────────────────────────

  function Weight(s: State): nat {
    4 * s.immediates + (if s.wakeOnComplete then 3 else 0) + 3 * s.opening + 2 * s.working
  }

  /** Without new calls every step brings the relay closer to rest, and until then one is possible. */
  lemma {:induction false} ComesToRest(s: State, steps: seq<Step>)
    requires Guarded(s) && Exec(s, steps).Some?
    requires forall i :: 0 <= i < |steps| ==> !steps[i].Call?
    ensures |steps| <= Weight(s)
    ensures var t := Exec(s, steps).value;
            Quiescent(t) || exists step :: step != Call && Apply(t, step).Some?
    decreases |steps|
  {
    if steps == [] {
      if s.opening > 0 { assert Apply(s, Fetch).Some?; }
      if s.working > 0 { assert Apply(s, Finish(true)).Some?; }
      if s.immediates > 0 { assert Apply(s, Immediate).Some?; }
    } else {
      var t := Apply(s, steps[0]).value;
      assert Weight(t) < Weight(s);
      ComesToRest(t, steps[1..]);
    }
  }
}
