/**
 The rate limiter: counters in Valkey that expire, and the guard that consults them.

 Time is in milliseconds; the limiter itself works on whole seconds.  One request reads the
 clock and updates its counter at one moment.
 */
module RateLimit {

  datatype Tier = Default | Strict | AuthLogin | AuthRefresh | AuthForgot

  function Limit(tier: Tier): nat {
    match tier
    case Default => 100
    case Strict => 20
    case AuthLogin => 5
    case AuthRefresh => 30
    case AuthForgot => 3
  }

  function WindowSeconds(tier: Tier): nat {
    match tier
    case Default => 60
    case Strict => 60
    case AuthLogin => 900
    case AuthRefresh => 60
    case AuthForgot => 3600
  }

  /** `tier:identifier`; the identifier is the number of a user, a session or an address. */
  datatype Key = Key(tier: Tier, identifier: nat)

  datatype Request = Request(key: Key, at: nat)

  function Window(tier: Tier, at: nat): nat {
    at / 1000 / WindowSeconds(tier)
  }

  /** The moment at which the window ends. */
  function WindowEnd(tier: Tier, w: nat): nat {
    (w + 1) * WindowSeconds(tier) * 1000
  }

  lemma WindowBounds(tier: Tier, at: nat, w: nat)
    ensures Window(tier, at) == w <==> w * WindowSeconds(tier) * 1000 <= at < WindowEnd(tier, w)
  {
    match tier
    case Default =>
    case Strict =>
    case AuthLogin =>
    case AuthRefresh =>
    case AuthForgot =>
  }

  lemma WindowsInOrder(tier: Tier, a: nat, b: nat)
    requires a <= b
    ensures Window(tier, a) <= Window(tier, b)
  {
    match tier
    case Default =>
    case Strict =>
    case AuthLogin =>
    case AuthRefresh =>
    case AuthForgot =>
  }

  // ── What the limiter ought to do ────────────────────────────────────────────

  predicate InWindow(r: Request, key: Key, w: nat) {
    r.key == key && Window(key.tier, r.at) == w
  }

  /** Requests under the key in one window. */
  function Requests(history: seq<Request>, key: Key, w: nat): nat {
    if history == [] then 0
    else
      var n := |history| - 1;
      Requests(history[..n], key, w) + (if InWindow(history[n], key, w) then 1 else 0)
  }

  /** A request is allowed when fewer than `limit` came before it in its window. */
  predicate Allows(earlier: seq<Request>, r: Request) {
    Requests(earlier, r.key, Window(r.key.tier, r.at)) < Limit(r.key.tier)
  }

  // ── The store ───────────────────────────────────────────────────────────────

  datatype Counter = Counter(value: nat, expiresAt: nat)

  type Store = map<(Key, nat), Counter>

  /** A key that has not expired holds its counter; any other counts from zero. */
  function Stored(counters: Store, k: (Key, nat), now: nat): nat {
    if k in counters && counters[k].expiresAt > now then counters[k].value else 0
  }

  /** No counter is lost inside its own window: it holds the number of requests made in it. */
  ghost predicate CountersOk(counters: Store, history: seq<Request>, now: nat) {
    && (forall r :: r in history ==> r.at <= now)
    && (forall key: Key, w: nat :: (key, w) in counters ==>
          && w <= Window(key.tier, now)
          && counters[(key, w)].value == Requests(history, key, w)
          && counters[(key, w)].expiresAt >= WindowEnd(key.tier, w))
    && (forall key: Key, w: nat :: Requests(history, key, w) > 0 ==> (key, w) in counters || WindowEnd(key.tier, w) <= now)
  }

  /** INCR and EXPIRE in one transaction. */
  function Incremented(counters: Store, key: Key, now: nat): Store {
    var k := (key, Window(key.tier, now));
    counters[k := Counter(Stored(counters, k, now) + 1, now + WindowSeconds(key.tier) * 1000)]
  }

  lemma StoredIsExact(counters: Store, history: seq<Request>, now: nat, key: Key)
    requires CountersOk(counters, history, now)
    ensures Stored(counters, (key, Window(key.tier, now)), now) == Requests(history, key, Window(key.tier, now))
  {
    WindowBounds(key.tier, now, Window(key.tier, now));
  }

  lemma IncrementKeeps(counters: Store, history: seq<Request>, now: nat, key: Key)
    requires CountersOk(counters, history, now)
    ensures CountersOk(Incremented(counters, key, now), history + [Request(key, now)], now)
  {
    var w0 := Window(key.tier, now);
    var after, longer := Incremented(counters, key, now), history + [Request(key, now)];
    StoredIsExact(counters, history, now, key);
    WindowBounds(key.tier, now, w0);
    forall other: Key, w: nat
      ensures Requests(longer, other, w) == Requests(history, other, w) + (if (other, w) == (key, w0) then 1 else 0)
    {
      CountOneMore(history, Request(key, now), other, w);
    }
  }

  lemma CountOneMore(history: seq<Request>, r: Request, key: Key, w: nat)
    ensures Requests(history + [r], key, w) == Requests(history, key, w) + (if InWindow(r, key, w) then 1 else 0)
  {
    assert (history + [r])[..|history|] == history;
  }

  class Limiter {
    var now: nat
    var counters: Store
    ghost var history: seq<Request>

    ghost predicate Valid()
      reads this
    {
      CountersOk(counters, history, now)
    }

    constructor ()
      ensures Valid() && history == [] && now == 0
    {
      now, counters, history := 0, map[], [];
    }

    /** Time passes; the server drops expired keys whenever it likes. */
    method Wait(elapsed: nat, dropped: set<(Key, nat)>)
      requires Valid()
      requires forall k :: k in dropped && k in counters ==> counters[k].expiresAt <= now + elapsed
      modifies this
      ensures Valid() && now == old(now) + elapsed && history == old(history)
    {
      forall key: Key, w | (key, w) in counters ensures w <= Window(key.tier, now + elapsed) {
        WindowsInOrder(key.tier, now, now + elapsed);
      }
      now := now + elapsed;
      counters := counters - dropped;
    }

    /** `consumeRateLimit` */
    method Consume(key: Key) returns (allowed: bool, remaining: nat, resetAt: nat)
      requires Valid()
      modifies this
      ensures Valid() && now == old(now) && history == old(history) + [Request(key, now)]
      ensures allowed == Allows(old(history), Request(key, now))
      ensures remaining + Requests(history, key, Window(key.tier, now)) == Limit(key.tier) || (remaining == 0 && !allowed)
      ensures resetAt * 1000 == WindowEnd(key.tier, Window(key.tier, now))
    {
      var window := now / 1000 / WindowSeconds(key.tier);
      resetAt := (window + 1) * WindowSeconds(key.tier);
      StoredIsExact(counters, history, now, key);
      IncrementKeeps(counters, history, now, key);
      CountOneMore(history, Request(key, now), key, window);
      counters := Incremented(counters, key, now);
      history := history + [Request(key, now)];
      var count := counters[(key, window)].value;
      allowed := count <= Limit(key.tier);
      remaining := if count <= Limit(key.tier) then Limit(key.tier) - count else 0;
    }
  }

  // ── How many get through ────────────────────────────────────────────────────

  predicate InOrder(history: seq<Request>) {
    forall i, j :: 0 <= i < j < |history| ==> history[i].at <= history[j].at
  }

  /** Allowed requests under the key in one window. */
  function AllowedInWindow(history: seq<Request>, key: Key, w: nat): nat {
    if history == [] then 0
    else
      var n := |history| - 1;
      AllowedInWindow(history[..n], key, w) + (if InWindow(history[n], key, w) && Allows(history[..n], history[n]) then 1 else 0)
  }

  /** In a window exactly the first `limit` requests are allowed. */
  lemma {:induction false} WindowLimit(history: seq<Request>, key: Key, w: nat)
    ensures var n := Requests(history, key, w);
            AllowedInWindow(history, key, w) == if n < Limit(key.tier) then n else Limit(key.tier)
  {
    if history != [] {
      WindowLimit(history[..|history| - 1], key, w);
    }
  }

  /** Allowed requests under the key from `start` on, for the length of one window. */
  function AllowedInSpan(history: seq<Request>, key: Key, start: nat): nat {
    if history == [] then 0
    else
      var n := |history| - 1;
      AllowedInSpan(history[..n], key, start) + (if InSpan(history[n], key, start) && Allows(history[..n], history[n]) then 1 else 0)
  }

  predicate InSpan(r: Request, key: Key, start: nat) {
    r.key == key && start <= r.at < start + WindowSeconds(key.tier) * 1000
  }

  /** A span as long as a window touches at most two windows. */
  lemma SpanTouchesTwo(tier: Tier, start: nat, at: nat)
    requires start <= at < start + WindowSeconds(tier) * 1000
    ensures Window(tier, at) == Window(tier, start) || Window(tier, at) == Window(tier, start) + 1
  {
    match tier
    case Default =>
    case Strict =>
    case AuthLogin =>
    case AuthRefresh =>
    case AuthForgot =>
  }

  lemma {:induction false} SpanIsInTwoWindows(history: seq<Request>, key: Key, start: nat)
    ensures var w := Window(key.tier, start);
            AllowedInSpan(history, key, start) <= AllowedInWindow(history, key, w) + AllowedInWindow(history, key, w + 1)
  {
    if history != [] {
      var n := |history| - 1;
      SpanIsInTwoWindows(history[..n], key, start);
      if InSpan(history[n], key, start) {
        SpanTouchesTwo(key.tier, start, history[n].at);
      }
    }
  }

  /** At most 2·limit requests are allowed in any span of the length of a window. */
  lemma SpanLimit(history: seq<Request>, key: Key, start: nat)
    ensures AllowedInSpan(history, key, start) <= 2 * Limit(key.tier)
  {
    var w := Window(key.tier, start);
    SpanIsInTwoWindows(history, key, start);
    WindowLimit(history, key, w);
    WindowLimit(history, key, w + 1);
  }

  function Burst(key: Key, at: nat, n: nat): seq<Request> {
    if n == 0 then [] else Burst(key, at, n - 1) + [Request(key, at)]
  }

  /** Up to `limit` requests at one moment of a fresh window are all allowed. */
  lemma {:induction false} BurstIsAllowed(before: seq<Request>, key: Key, start: nat, at: nat, n: nat)
    requires n <= Limit(key.tier) && Requests(before, key, Window(key.tier, at)) == 0
    requires InSpan(Request(key, at), key, start)
    ensures var after := before + Burst(key, at, n);
            && AllowedInSpan(after, key, start) == AllowedInSpan(before, key, start) + n
            && forall w :: Requests(after, key, w) == Requests(before, key, w) + (if w == Window(key.tier, at) then n else 0)
  {
    if n == 0 {
      assert before + Burst(key, at, 0) == before;
    } else {
      var prev := before + Burst(key, at, n - 1);
      BurstIsAllowed(before, key, start, at, n - 1);
      assert before + Burst(key, at, n) == prev + [Request(key, at)];
      assert (prev + [Request(key, at)])[..|prev|] == prev;
    }
  }

  lemma {:induction false} BurstIsInOrder(key: Key, at: nat, n: nat)
    ensures forall r :: r in Burst(key, at, n) ==> r.at == at
  {
    if n > 0 {
      BurstIsInOrder(key, at, n - 1);
    }
  }

  /** The bound is reached: `limit` requests at the end of a window and `limit` at the start of the next. */
  lemma SpanLimitIsTight(key: Key) returns (history: seq<Request>, start: nat)
    ensures InOrder(history) && AllowedInSpan(history, key, start) == 2 * Limit(key.tier)
  {
    var end := WindowEnd(key.tier, 0);
    start := end - 1;
    WindowBounds(key.tier, start, 0);
    WindowBounds(key.tier, end, 1);
    var first, second := Burst(key, start, Limit(key.tier)), Burst(key, end, Limit(key.tier));
    history := first + second;
    BurstIsAllowed([], key, start, start, Limit(key.tier));
    assert [] + first == first;
    BurstIsAllowed(first, key, start, end, Limit(key.tier));
    BurstIsInOrder(key, start, Limit(key.tier));
    BurstIsInOrder(key, end, Limit(key.tier));
    forall i, j | 0 <= i < j < |history| ensures history[i].at <= history[j].at {
      assert if i < |first| then history[i] in first else history[i] in second;
      assert if j < |first| then history[j] in first else history[j] in second;
    }
  }

  // ── Retry-After ─────────────────────────────────────────────────────────────

  /** Math.max(resetAt - Math.floor(Date.now() / 1000), 1) */
  function RetryAfter(resetAt: nat, now: nat): nat {
    if resetAt - now / 1000 > 1 then resetAt - now / 1000 else 1
  }

  /** A refused client that waits the answered number of seconds is in a later window. */
  lemma RetryLandsInALaterWindow(tier: Tier, at: nat, answered: nat, resetAt: nat)
    requires at <= answered && resetAt * 1000 == WindowEnd(tier, Window(tier, at))
    ensures Window(tier, answered + 1000 * RetryAfter(resetAt, answered)) > Window(tier, at)
  {
    var w := Window(tier, at);
    var again := answered + 1000 * RetryAfter(resetAt, answered);
    WindowBounds(tier, again, Window(tier, again));
    WindowBounds(tier, resetAt * 1000, w + 1);
    WindowsInOrder(tier, resetAt * 1000, again);
  }

  /**
   And it waits no longer than it must: refused within its own window, it is back within the
   first second of the next one; refused later, after a second.
   */
  lemma RetryWastesUnderASecond(tier: Tier, at: nat, answered: nat, resetAt: nat)
    requires at <= answered && resetAt * 1000 == WindowEnd(tier, Window(tier, at))
    ensures var again := answered + 1000 * RetryAfter(resetAt, answered);
            if Window(tier, answered) == Window(tier, at)
            then Window(tier, again) == Window(tier, at) + 1 && again < WindowEnd(tier, Window(tier, at)) + 1000
            else again == answered + 1000
  {
    var w := Window(tier, at);
    var again := answered + 1000 * RetryAfter(resetAt, answered);
    WindowBounds(tier, at, w);
    WindowBounds(tier, answered, w);
    WindowBounds(tier, again, w + 1);
    if Window(tier, answered) == w {
      assert answered / 1000 < resetAt;
      assert again == resetAt * 1000 + answered % 1000;
      assert WindowEnd(tier, w) + 1000 <= WindowEnd(tier, w + 1);
    }
  }

  /** So it is allowed again, unless `limit` other requests under its key are already in that window. */
  lemma RetrySucceeds(history: seq<Request>, key: Key, at: nat, answered: nat, resetAt: nat)
    requires at <= answered && resetAt * 1000 == WindowEnd(key.tier, Window(key.tier, at))
    requires forall r :: r in history ==> r.key == key ==> r.at <= at
    ensures Allows(history, Request(key, answered + 1000 * RetryAfter(resetAt, answered)))
  {
    var again := answered + 1000 * RetryAfter(resetAt, answered);
    RetryLandsInALaterWindow(key.tier, at, answered, resetAt);
    NoneYet(history, key, at, Window(key.tier, again));
  }

  lemma {:induction false} NoneYet(history: seq<Request>, key: Key, at: nat, w: nat)
    requires forall r :: r in history ==> r.key == key ==> r.at <= at
    requires w > Window(key.tier, at)
    ensures Requests(history, key, w) == 0
  {
    if history != [] {
      var n := |history| - 1;
      NoneYet(history[..n], key, at, w);
      if history[n].key == key {
        assert history[n] in history;
        WindowsInOrder(key.tier, history[n].at, at);
      }
    }
  }
}
