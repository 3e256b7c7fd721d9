/**
 The lock that keeps a cron body to one pod: SET NX PX on entry, an unconditional DEL on exit.
 Nothing in the key says who holds it.
 */
module CronLock {
  import opened Options

  type Pod = nat

  /** 55 minutes in milliseconds. */
  const TTL: nat := 55 * 60 * 1000

  /** `expiry` is when the lock's key expires, if it is set; `inside` says since when each pod is in the body. */
  datatype State = State(now: nat, expiry: Option<nat>, inside: map<Pod, nat>)

  const INIT := State(0, None, map[])

  predicate Held(s: State) {
    s.expiry.Some? && s.now < s.expiry.value
  }

  datatype Step =
    | Tick(elapsed: nat)
    | Enter(pod: Pod)      // acquireLock, then the body
    | Leave(pod: Pod)      // the body returns or throws, then releaseLock
    | Die(pod: Pod)        // the pod is killed inside the body

  function Apply(s: State, step: Step): Option<State> {
    match step
    case Tick(elapsed) => Some(s.(now := s.now + elapsed))
    case Enter(pod) =>
      if pod in s.inside then None
      else if Held(s) then Some(s)
      else Some(s.(expiry := Some(s.now + TTL), inside := s.inside[pod := s.now]))
    case Leave(pod) => if pod !in s.inside then None else Some(s.(expiry := None, inside := s.inside - {pod}))
    case Die(pod) => if pod !in s.inside then None else Some(s.(inside := s.inside - {pod}))
  }

  function Exec(s: State, steps: seq<Step>): Option<State>
    decreases |steps|
  {
    if steps == [] then Some(s)
    else
      match Apply(s, steps[0])
      case None => None
      case Some(t) => Exec(t, steps[1..])
  }

  /** The client side of one key. */
  class Valkey {
    var now: nat
    var expiry: Option<nat>

    method AcquireLock(ttlMs: nat) returns (acquired: bool)
      modifies `expiry
      ensures acquired == !(old(expiry).Some? && now < old(expiry).value)
      ensures expiry == if acquired then Some(now + ttlMs) else old(expiry)
    {
      if expiry.Some? && now < expiry.value { return false; }
      expiry := Some(now + ttlMs);
      return true;
    }

    method ReleaseLock()
      modifies `expiry
      ensures expiry == None
    {
      expiry := None;
    }

    /**
     `takeDailySnapshots` around a body that takes `elapsed` milliseconds: the two steps of the
     protocol, or one when the lock is refused.  What other pods did to the key meanwhile is `meanwhile`.
     */
    method TakeTurn(pod: Pod, elapsed: nat, meanwhile: Option<nat>, ghost others: map<Pod, nat>) returns (ran: bool)
      requires pod !in others
      modifies this
      ensures ran <==> !Held(State(old(now), old(expiry), others))
      ensures var entered := Apply(State(old(now), old(expiry), others), Enter(pod));
              if !ran then entered == Some(State(now, expiry, others))
              else entered == Some(State(old(now), Some(old(now) + TTL), others[pod := old(now)]))
                   && Apply(State(now, meanwhile, others[pod := old(now)]), Leave(pod)) == Some(State(now, expiry, others))
    {
      ran := AcquireLock(TTL);
      if ran {
        now := now + elapsed;
        expiry := meanwhile;
        ReleaseLock();
        assert others[pod := old(now)] - {pod} == others;
      }
    }
  }

  // ── Mutual exclusion ────────────────────────────────────────────────────────

  /** Every pod inside the body is still within the time to live of its own acquire. */
  ghost predicate InTime(s: State) {
    forall p :: p in s.inside ==> s.now < s.inside[p] + TTL
  }

  ghost predicate AlwaysInTime(s: State, steps: seq<Step>)
    decreases |steps|
  {
    && InTime(s)
    && (steps != [] && Apply(s, steps[0]).Some? ==> AlwaysInTime(Apply(s, steps[0]).value, steps[1..]))
  }

  /** A pod inside the body holds the key. */
  ghost predicate Guarded(s: State) {
    && (forall p :: p in s.inside ==> s.expiry == Some(s.inside[p] + TTL))
    && (forall p, q :: p in s.inside && q in s.inside ==> p == q)
  }

  /** If every pod leaves the body (or dies) within the time to live, at most one is ever inside. */
  lemma {:induction false} AtMostOneInside(s: State, steps: seq<Step>)
    requires Guarded(s) && AlwaysInTime(s, steps) && Exec(s, steps).Some?
    ensures Guarded(Exec(s, steps).value)
    decreases |steps|
  {
    if steps != [] {
      AtMostOneInside(Apply(s, steps[0]).value, steps[1..]);
    }
  }

  lemma MutualExclusion(steps: seq<Step>, p: Pod, q: Pod)
    requires AlwaysInTime(INIT, steps) && Exec(INIT, steps).Some?
    requires p in Exec(INIT, steps).value.inside && q in Exec(INIT, steps).value.inside
    ensures p == q
  {
    AtMostOneInside(INIT, steps);
  }

  /**
   One pod that overstays is enough to lose the exclusion for the others: when it leaves, it
   deletes the key of the pod that came after it, and a third walks in.  Pods 2 and 3 are
   inside together, although neither has overstayed.
   */
  lemma OverstayLetsTwoIn() returns (steps: seq<Step>)
    ensures Exec(INIT, steps).Some?
    ensures var s := Exec(INIT, steps).value;
            InTime(s) && 2 in s.inside && 3 in s.inside
  {
    steps := [Enter(1), Tick(TTL), Enter(2), Leave(1), Enter(3)];
    var s1 := State(0, Some(TTL), map[1 := 0]);
    var s2 := State(TTL, Some(TTL), map[1 := 0]);
    var s3 := State(TTL, Some(2 * TTL), map[1 := 0, 2 := TTL]);
    var s4 := State(TTL, None, map[2 := TTL]);
    var s5 := State(TTL, Some(2 * TTL), map[2 := TTL, 3 := TTL]);
    assert Apply(INIT, Enter(1)) == Some(s1);
    assert Apply(s1, Tick(TTL)) == Some(s2);
    assert Apply(s2, Enter(2)) == Some(s3);
    assert map[1 := 0, 2 := TTL] - {1} == map[2 := TTL];
    assert Apply(s3, Leave(1)) == Some(s4);
    assert Apply(s4, Enter(3)) == Some(s5);
    ExecFive(INIT, steps, s1, s2, s3, s4, s5);
  }

  lemma ExecFive(s: State, steps: seq<Step>, a: State, b: State, c: State, d: State, e: State)
    requires |steps| == 5
    requires Apply(s, steps[0]) == Some(a) && Apply(a, steps[1]) == Some(b) && Apply(b, steps[2]) == Some(c)
    requires Apply(c, steps[3]) == Some(d) && Apply(d, steps[4]) == Some(e)
    ensures Exec(s, steps) == Some(e)
  {
    var rest := steps[1..][1..][1..][1..];
    assert rest[1..] == [] && rest[0] == steps[4];
    assert Exec(d, rest) == Some(e);
    assert Exec(c, steps[1..][1..][1..]) == Some(e);
    assert Exec(b, steps[1..][1..]) == Some(e);
    assert Exec(a, steps[1..]) == Some(e);
  }

  // ── No deadlock ─────────────────────────────────────────────────────────────

  lemma {:induction false} KeyExpires(s: State, steps: seq<Step>)
    requires s.expiry.Some? ==> s.expiry.value <= s.now + TTL
    requires Exec(s, steps).Some?
    ensures var t := Exec(s, steps).value; t.expiry.Some? ==> t.expiry.value <= t.now + TTL
    decreases |steps|
  {
    if steps != [] {
      KeyExpires(Apply(s, steps[0]).value, steps[1..]);
    }
  }

  /** Whatever pods were killed inside the body, 55 minutes later the lock can be taken again. */
  lemma DeadHolderBlocksAtMostTtl(steps: seq<Step>, pod: Pod, elapsed: nat)
    requires Exec(INIT, steps).Some? && pod !in Exec(INIT, steps).value.inside && elapsed >= TTL
    ensures var later := Apply(Exec(INIT, steps).value, Tick(elapsed)).value;
            var entered := Apply(later, Enter(pod));
            entered.Some? && pod in entered.value.inside
  {
    KeyExpires(INIT, steps);
  }
}
