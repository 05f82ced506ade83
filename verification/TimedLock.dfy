/**
 * The lock both app/store/sheets_store.py and app/services/matrix.py use: SET NX EX, retry with sleeps,
 * DEL in a finally. The DEL does not check who holds the key. Times are milliseconds.
 */
module TimedLock {
  import opened Options

  const SHEETS_TTL_MS: nat := 15_000
  const MATRIX_TTL_MS: nat := 30_000
  const RETRY_DELAY_MS: nat := 200
  const MAX_ATTEMPTS: nat := 100

  // ---------------------------------------------------------------- any number of callers

  /** A caller since its SET: in the guarded call, or past it with its DEL on the way. */
  datatype Caller = Caller(since: nat, deleting: bool)

  /** The key's expiry, if it was set and not deleted, and the callers that have got past the SET. */
  datatype State = State(now: nat, expiry: Option<nat>, callers: map<nat, Caller>)

  datatype Event =
    | Try(id: nat)
    | End(id: nat) // the call returned or raised; the finally sends its DEL
    | Del(id: nat) // the DEL lands, whoever holds the key by now
    | Die(id: nat) // the process died with its DEL not sent, or lost; the key stays
    | Tick(ms: nat)

  predicate Held(s: State) {
    s.expiry.Some? && s.now < s.expiry.value
  }

  predicate Inside(s: State, id: nat) {
    id in s.callers && !s.callers[id].deleting
  }

  predicate Enabled(s: State, e: Event) {
    match e
    case Try(id) => id !in s.callers
    case End(id) => Inside(s, id)
    case Del(id) => id in s.callers && s.callers[id].deleting
    case Die(id) => id in s.callers
    case Tick(_) => true
  }

  function Next(s: State, e: Event, ttl: nat): State
    requires Enabled(s, e)
  {
    match e
    case Try(id) =>
      if Held(s) then s
      else s.(expiry := Some(s.now + ttl), callers := s.callers[id := Caller(s.now, false)])
    case End(id) => s.(callers := s.callers[id := s.callers[id].(deleting := true)])
    case Del(id) => s.(expiry := None, callers := s.callers - {id})
    case Die(id) => s.(callers := s.callers - {id})
    case Tick(ms) => s.(now := s.now + ms)
  }

  ghost predicate Possible(s: State, events: seq<Event>, ttl: nat)
    decreases |events|
  {
    events == [] || (Enabled(s, events[0]) && Possible(Next(s, events[0], ttl), events[1..], ttl))
  }

  ghost function Run(s: State, events: seq<Event>, ttl: nat): State
    requires Possible(s, events, ttl)
    decreases |events|
  {
    if events == [] then s else Run(Next(s, events[0], ttl), events[1..], ttl)
  }

  /** Nobody has been in the guarded call for `limit` or longer; with `delToo`, nor waited that long for the DEL to land. */
  ghost predicate Within(s: State, limit: nat, delToo: bool) {
    forall id :: id in s.callers && (delToo || !s.callers[id].deleting) ==> s.now < s.callers[id].since + limit
  }

  /** ... now and at every earlier moment of the run. */
  ghost predicate AlwaysWithin(s: State, events: seq<Event>, ttl: nat, limit: nat, delToo: bool)
    requires Possible(s, events, ttl)
    decreases |events|
  {
    Within(s, limit, delToo)
    && (events == [] || AlwaysWithin(Next(s, events[0], ttl), events[1..], ttl, limit, delToo))
  }

  ghost predicate AtMostOneInside(s: State) {
    forall a, b :: Inside(s, a) && Inside(s, b) ==> a == b
  }

  function Free(now: nat): State {
    State(now, None, map[])
  }

  /** The invariant: a caller whose DEL has not landed holds the key, set when it entered, and is the only one. */
  ghost predicate HolderHolds(s: State, ttl: nat) {
    && (forall a, b :: a in s.callers && b in s.callers ==> a == b)
    && (forall id :: id in s.callers ==> s.expiry == Some(s.callers[id].since + ttl))
  }

  lemma StepKeepsHolder(s: State, e: Event, ttl: nat)
    requires HolderHolds(s, ttl) && Within(s, ttl, true) && Enabled(s, e)
    ensures HolderHolds(Next(s, e, ttl), ttl)
  {
    if e.Try? {
      assert forall id :: id in s.callers ==> Held(s);
    }
  }

  lemma {:induction false} RunKeepsHolder(s: State, events: seq<Event>, ttl: nat)
    requires HolderHolds(s, ttl) && Possible(s, events, ttl) && AlwaysWithin(s, events, ttl, ttl, true)
    ensures HolderHolds(Run(s, events, ttl), ttl)
    decreases |events|
  {
    hide HolderHolds, Enabled, Next;
    if events != [] {
      StepKeepsHolder(s, events[0], ttl);
      RunKeepsHolder(Next(s, events[0], ttl), events[1..], ttl);
    }
  }

  /** The lock excludes in every run that stays below `limit`. */
  ghost predicate Excludes(ttl: nat, limit: nat, delToo: bool) {
    forall now, events :: Possible(Free(now), events, ttl) && AlwaysWithin(Free(now), events, ttl, limit, delToo) ==>
                            AtMostOneInside(Run(Free(now), events, ttl))
  }

  lemma OneMoreEvent(s: State, e: Event, events: seq<Event>, ttl: nat, limit: nat, delToo: bool)
    requires Enabled(s, e) && Within(s, limit, delToo)
    requires Possible(Next(s, e, ttl), events, ttl) && AlwaysWithin(Next(s, e, ttl), events, ttl, limit, delToo)
    ensures Possible(s, [e] + events, ttl) && AlwaysWithin(s, [e] + events, ttl, limit, delToo)
    ensures Run(s, [e] + events, ttl) == Run(Next(s, e, ttl), events, ttl)
  {
    hide Enabled, Next, Within;
    assert ([e] + events)[1..] == events;
  }

  /** A second caller enters once the first has stayed for the whole TTL. */
  lemma OverrunLetsTwoIn(now: nat, ttl: nat, limit: nat, delToo: bool)
    requires limit > ttl > 0
    ensures var events := [Try(0)] + ([Tick(ttl)] + ([Try(1)] + []));
            && Possible(Free(now), events, ttl)
            && AlwaysWithin(Free(now), events, ttl, limit, delToo)
            && !AtMostOneInside(Run(Free(now), events, ttl))
  {
    var s0 := Free(now);
    var s1 := Next(s0, Try(0), ttl);
    var s2 := Next(s1, Tick(ttl), ttl);
    var s3 := Next(s2, Try(1), ttl);
    assert Inside(s3, 0) && Inside(s3, 1);
    OneMoreEvent(s2, Try(1), [], ttl, limit, delToo);
    OneMoreEvent(s1, Tick(ttl), [Try(1)] + [], ttl, limit, delToo);
    OneMoreEvent(s0, Try(0), [Tick(ttl)] + ([Try(1)] + []), ttl, limit, delToo);
  }

  /**
   * A DEL that lands late takes away the next holder's key, and a third caller enters. No guarded call
   * has lasted at all.
   */
  lemma LateDelLetsTwoIn(now: nat, ttl: nat, limit: nat)
    requires ttl > 0 && limit > 0
    ensures var events := [Try(0)] + ([End(0)] + ([Tick(ttl)] + ([Try(1)] + ([Del(0)] + ([Try(2)] + [])))));
            && Possible(Free(now), events, ttl)
            && AlwaysWithin(Free(now), events, ttl, limit, false)
            && !AtMostOneInside(Run(Free(now), events, ttl))
  {
    var s0 := Free(now);
    var s1 := Next(s0, Try(0), ttl);
    var s2 := Next(s1, End(0), ttl);
    var s3 := Next(s2, Tick(ttl), ttl);
    var s4 := Next(s3, Try(1), ttl);
    var s5 := Next(s4, Del(0), ttl);
    var s6 := Next(s5, Try(2), ttl);
    assert Inside(s6, 1) && Inside(s6, 2);
    OneMoreEvent(s5, Try(2), [], ttl, limit, false);
    OneMoreEvent(s4, Del(0), [Try(2)] + [], ttl, limit, false);
    OneMoreEvent(s3, Try(1), [Del(0)] + ([Try(2)] + []), ttl, limit, false);
    OneMoreEvent(s2, Tick(ttl), [Try(1)] + ([Del(0)] + ([Try(2)] + [])), ttl, limit, false);
    OneMoreEvent(s1, End(0), [Tick(ttl)] + ([Try(1)] + ([Del(0)] + ([Try(2)] + []))), ttl, limit, false);
    OneMoreEvent(s0, Try(0), [End(0)] + ([Tick(ttl)] + ([Try(1)] + ([Del(0)] + ([Try(2)] + [])))), ttl, limit, false);
  }

  /**
   * Mutual exclusion, including after exceptions and after holders that die, holds in all runs exactly
   * when every caller's DEL has landed before its own key expires.
   */
  lemma ExcludesExactlyWithinTtl(ttl: nat, limit: nat)
    requires ttl > 0
    ensures Excludes(ttl, limit, true) <==> limit <= ttl
  {
    if limit <= ttl {
      forall now, events | Possible(Free(now), events, ttl) && AlwaysWithin(Free(now), events, ttl, limit, true)
        ensures AtMostOneInside(Run(Free(now), events, ttl))
      {
        ShorterIsWithin(Free(now), events, ttl, limit);
        RunKeepsHolder(Free(now), events, ttl);
      }
    } else {
      OverrunLetsTwoIn(0, ttl, limit, true);
    }
  }

  /** A bound on the guarded calls alone, however small, is not enough unless it rules out every call. */
  lemma CallBoundNeverExcludes(ttl: nat, limit: nat)
    requires ttl > 0
    ensures Excludes(ttl, limit, false) <==> limit == 0
  {
    if limit > 0 {
      LateDelLetsTwoIn(0, ttl, limit);
    } else {
      forall now, events | Possible(Free(now), events, ttl) && AlwaysWithin(Free(now), events, ttl, 0, false)
        ensures AtMostOneInside(Run(Free(now), events, ttl))
      {
        NobodyInside(Free(now), events, ttl);
      }
    }
  }

  lemma {:induction false} NobodyInside(s: State, events: seq<Event>, ttl: nat)
    requires Possible(s, events, ttl) && AlwaysWithin(s, events, ttl, 0, false)
    requires forall id :: id in s.callers ==> s.callers[id].since <= s.now
    ensures forall id :: !Inside(Run(s, events, ttl), id)
    decreases |events|
  {
    if events != [] {
      NobodyInside(Next(s, events[0], ttl), events[1..], ttl);
    }
  }

  lemma {:induction false} ShorterIsWithin(s: State, events: seq<Event>, ttl: nat, limit: nat)
    requires limit <= ttl && Possible(s, events, ttl) && AlwaysWithin(s, events, ttl, limit, true)
    ensures AlwaysWithin(s, events, ttl, ttl, true)
    decreases |events|
  {
    hide Enabled, Next;
    if events != [] {
      ShorterIsWithin(Next(s, events[0], ttl), events[1..], ttl, limit);
    }
  }

  // ---------------------------------------------------------------- one waiter

  /** When a waiter that starts at `start` makes its k-th attempt; sleeps may overshoot. */
  function AttemptAt(start: nat, delay: nat, overshoot: nat -> nat, k: nat): nat {
    if k == 0 then start else AttemptAt(start, delay, overshoot, k - 1) + delay + overshoot(k - 1)
  }

  /** Some attempt comes when the key has expired and nobody else has taken it. */
  ghost predicate GetsIn(start: nat, expiry: nat, delay: nat, attempts: nat, overshoot: nat -> nat) {
    exists k :: 0 <= k < attempts && AttemptAt(start, delay, overshoot, k) >= expiry
  }

  lemma {:induction false} AttemptsSpread(start: nat, delay: nat, overshoot: nat -> nat, k: nat)
    ensures AttemptAt(start, delay, overshoot, k) >= start + k * delay
    ensures (forall i :: overshoot(i) == 0) ==> AttemptAt(start, delay, overshoot, k) == start + k * delay
  {
    if k > 0 {
      AttemptsSpread(start, delay, overshoot, k - 1);
      assert k * delay == (k - 1) * delay + delay;
    }
  }

  /** Behind a dead holder, whenever it died and however long the sleeps are. */
  ghost predicate AlwaysGetsIn(ttl: nat, delay: nat, attempts: nat) {
    forall start: nat, expiry: nat, overshoot: nat -> nat :: expiry <= start + ttl ==>
      GetsIn(start, expiry, delay, attempts, overshoot)
  }

  /** The only waiter behind a dead holder always gets in iff its attempts span the TTL. */
  lemma GetsInExactlyWhenAttemptsSpanTtl(ttl: nat, delay: nat, attempts: nat)
    requires attempts > 0
    ensures AlwaysGetsIn(ttl, delay, attempts) <==> (attempts - 1) * delay >= ttl
  {
    if (attempts - 1) * delay >= ttl {
      forall start: nat, expiry: nat, overshoot: nat -> nat | expiry <= start + ttl
        ensures GetsIn(start, expiry, delay, attempts, overshoot)
      {
        AttemptsSpread(start, delay, overshoot, attempts - 1);
      }
    } else {
      var prompt: nat -> nat := (i: nat) => 0;
      forall k: nat | k < attempts ensures AttemptAt(0, delay, prompt, k) < ttl {
        AttemptsSpread(0, delay, prompt, k);
        MulMonotone(k, attempts - 1, delay);
      }
      assert !GetsIn(0, 0 + ttl, delay, attempts, prompt);
    }
  }

  lemma MulMonotone(a: nat, b: nat, m: nat)
    requires a <= b
    ensures a * m <= b * m
  {
  }

  /**
   * So with the Sheets constants it always gets in; with the matrix constants it may not, although the
   * comment beside them says the wait outlasts the TTL.
   */
  lemma SheetsWaiterGetsInMatrixWaiterMayNot()
    ensures AlwaysGetsIn(15_000, 200, 100)
    ensures !AlwaysGetsIn(30_000, 200, 100)
  {
    GetsInExactlyWhenAttemptsSpanTtl(SHEETS_TTL_MS, RETRY_DELAY_MS, MAX_ATTEMPTS);
    GetsInExactlyWhenAttemptsSpanTtl(MATRIX_TTL_MS, RETRY_DELAY_MS, MAX_ATTEMPTS);
  }

  // ---------------------------------------------------------------- the code

  /** One sleep: how much longer it lasts, and what other callers leave in the key if they touch it. */
  datatype Gap = Gap(overshoot: nat, touched: Option<Option<nat>>)

  /** The guarded call: how long it takes, how it ends, and how long the DEL after it is on its way. */
  datatype Guarded<T, E> = Guarded(took: nat, result: Result<T, E>, deleteLag: nat)

  datatype Outcome<T, E> = TimedOut | Ended(result: Result<T, E>)

  predicate HeldAt(now: nat, expiry: Option<nat>) {
    expiry.Some? && now < expiry.value
  }

  class Key {
    var now: nat
    var expiry: Option<nat>

    constructor (now: nat, expiry: Option<nat>)
      ensures this.now == now && this.expiry == expiry
    {
      this.now, this.expiry := now, expiry;
    }

    method SetNxEx(ttl: nat) returns (acquired: bool)
      modifies this
      ensures acquired == !HeldAt(old(now), old(expiry))
      ensures now == old(now) && expiry == if acquired then Some(now + ttl) else old(expiry)
    {
      acquired := !HeldAt(now, expiry);
      if acquired {
        expiry := Some(now + ttl);
      }
    }

    method Delete()
      modifies this
      ensures now == old(now) && expiry == None
    {
      expiry := None;
    }

    method Sleep(ms: nat, gap: Gap)
      modifies this
      ensures now == old(now) + ms + gap.overshoot && expiry == gap.touched.GetOr(old(expiry))
    {
      now := now + ms + gap.overshoot;
      expiry := gap.touched.GetOr(expiry);
    }
  }

  function Overshoots(gaps: nat -> Gap): nat -> nat {
    i => gaps(i).overshoot
  }

  /** The key as the waiter finds it at its k-th attempt, all earlier ones having failed. */
  function KeyAt(start: nat, expiry: Option<nat>, gaps: nat -> Gap, k: nat): (nat, Option<nat>) {
    if k == 0 then (start, expiry)
    else
      var (now, seen) := KeyAt(start, expiry, gaps, k - 1);
      (now + RETRY_DELAY_MS + gaps(k - 1).overshoot, gaps(k - 1).touched.GetOr(seen))
  }

  predicate FailsAt(start: nat, expiry: Option<nat>, gaps: nat -> Gap, k: nat) {
    var (now, seen) := KeyAt(start, expiry, gaps, k);
    HeldAt(now, seen)
  }

  /**
   * `_with_lock`. It gives up only if every attempt found the key held; otherwise the call's own
   * result comes back, after the key was deleted, whether the call returned or raised.
   */
  method WithLock<T, E>(key: Key, ttl: nat, fn: Guarded<T, E>, gaps: nat -> Gap) returns (r: Outcome<T, E>, ghost entered: nat)
    modifies key
    ensures r == TimedOut <==> forall k :: 0 <= k < 100 ==> FailsAt(old(key.now), old(key.expiry), gaps, k)
    ensures r != TimedOut ==>
              && r == Ended(fn.result) && key.expiry == None
              && entered < 100 && !FailsAt(old(key.now), old(key.expiry), gaps, entered)
              && (forall k :: 0 <= k < entered ==> FailsAt(old(key.now), old(key.expiry), gaps, k))
              && key.now == KeyAt(old(key.now), old(key.expiry), gaps, entered).0 + fn.took + fn.deleteLag
    ensures (forall i :: gaps(i).touched == None) && old(key.expiry.Some?) ==>
              (r != TimedOut <==> GetsIn(old(key.now), old(key.expiry.value), 200, 100, Overshoots(gaps)))
  {
    entered := 0;
    SoleWaiter(key.now, key.expiry, gaps);
    for attempt := 0 to MAX_ATTEMPTS
      invariant entered == attempt
      invariant (key.now, key.expiry) == KeyAt(old(key.now), old(key.expiry), gaps, attempt)
      invariant forall k :: 0 <= k < attempt ==> FailsAt(old(key.now), old(key.expiry), gaps, k)
    {
      var acquired := key.SetNxEx(ttl);
      assert acquired == !FailsAt(old(key.now), old(key.expiry), gaps, attempt);
      if acquired {
        key.now := key.now + fn.took + fn.deleteLag;
        key.Delete();
        return Ended(fn.result), entered;
      }
      key.Sleep(RETRY_DELAY_MS, gaps(attempt));
      entered := attempt + 1;
    }
    r := TimedOut;
  }

  lemma SoleWaiter(start: nat, expiry: Option<nat>, gaps: nat -> Gap)
    ensures (forall i :: gaps(i).touched == None) && expiry.Some? ==>
              ((exists k :: 0 <= k < MAX_ATTEMPTS && !FailsAt(start, expiry, gaps, k)) <==>
               GetsIn(start, expiry.value, RETRY_DELAY_MS, MAX_ATTEMPTS, Overshoots(gaps)))
  {
    if (forall i :: gaps(i).touched == None) && expiry.Some? {
      forall k: nat
        ensures FailsAt(start, expiry, gaps, k) <==> AttemptAt(start, RETRY_DELAY_MS, Overshoots(gaps), k) < expiry.value
      {
        UntouchedKey(start, expiry, gaps, k);
      }
    }
  }

  lemma {:induction false} UntouchedKey(start: nat, expiry: Option<nat>, gaps: nat -> Gap, k: nat)
    requires forall i :: gaps(i).touched == None
    ensures KeyAt(start, expiry, gaps, k) == (AttemptAt(start, RETRY_DELAY_MS, Overshoots(gaps), k), expiry)
  {
    if k > 0 {
      UntouchedKey(start, expiry, gaps, k - 1);
    }
  }
}
