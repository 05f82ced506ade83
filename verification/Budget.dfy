/**
 * The daily generation cap (app/services/budget.py, app/api/v1/generate.py): a check, and much later an
 * increment, each against the counter of the UTC day at the moment its key was computed.
 */
module Budget {
  import opened Counters

  const DAY_MS: nat := 24 * 60 * 60 * 1000
  const SPEND_TTL_MS: nat := 48 * 60 * 60 * 1000

  function Today(now: nat): nat {
    now / DAY_MS
  }

  /** How the date is written; any two days differ. */
  datatype Calendar = Calendar(date: nat -> string)

  ghost predicate Dates(c: Calendar) {
    forall a: nat, b: nat :: c.date(a) == c.date(b) ==> a == b
  }

  /** There are such calendars. */
  lemma DatesExist()
    ensures exists c :: Dates(c)
  {
    var c := Calendar((day: nat) => seq(day, i => '0'));
    forall a: nat, b: nat | c.date(a) == c.date(b) ensures a == b {
      assert |c.date(a)| == a && |c.date(b)| == b;
    }
    assert Dates(c);
  }

  function SpendKey(c: Calendar, day: nat): string {
    "spend:" + c.date(day)
  }

  lemma SpendKeysDiffer(c: Calendar, a: nat, b: nat)
    requires Dates(c) && SpendKey(c, a) == SpendKey(c, b)
    ensures a == b
  {
    assert SpendKey(c, a)[6..] == c.date(a) && SpendKey(c, b)[6..] == c.date(b);
  }

  // ---------------------------------------------------------------- the code; `lag` is the time an await takes

  method TodaySpend(redis: CounterStore, c: Calendar, lag: nat) returns (spent: nat)
    modifies redis`now
    ensures redis.now == old(redis.now) + lag
    ensures spent == Get(redis.store, SpendKey(c, Today(old(redis.now))), redis.now)
  {
    var key := SpendKey(c, Today(redis.now));
    redis.Wait(lag);
    spent := Get(redis.store, key, redis.now);
  }

  method CheckBudget(redis: CounterStore, c: Calendar, cap: nat, lag: nat) returns (allowed: bool)
    modifies redis`now
    ensures redis.now == old(redis.now) + lag
    ensures allowed <==> Get(redis.store, SpendKey(c, Today(old(redis.now))), redis.now) < cap
  {
    var count := TodaySpend(redis, c, lag);
    allowed := count < cap;
  }

  /** Both operations go to the day on which the call began, even if midnight passes in between. */
  method IncrementSpend(redis: CounterStore, c: Calendar, lag: nat, secondLag: nat)
    requires Dates(c)
    modifies redis
    ensures redis.now == old(redis.now) + lag + secondLag
    ensures var key, at := SpendKey(c, Today(old(redis.now))), old(redis.now) + lag;
            redis.store == Expire(Incr(old(redis.store), key, at), key, redis.now, SPEND_TTL_MS)
    ensures forall day: nat :: day != Today(old(redis.now)) ==>
              (SpendKey(c, day) in redis.store <==> SpendKey(c, day) in old(redis.store))
              && (SpendKey(c, day) in redis.store ==> redis.store[SpendKey(c, day)] == old(redis.store)[SpendKey(c, day)])
  {
    var key := SpendKey(c, Today(redis.now));
    forall day: nat | SpendKey(c, day) == key ensures day == Today(redis.now) {
      SpendKeysDiffer(c, day, Today(redis.now));
    }
    redis.Wait(lag);
    var _ := redis.Increment(key);
    redis.Wait(secondLag);
    redis.SetTtl(key, SPEND_TTL_MS);
  }

  // ---------------------------------------------------------------- any number of billable requests

  /** Where a request stands; between two of these anything may happen. */
  datatype Stage =
    | Checking(day: nat) // check_budget has computed its key
    | Passed(day: nat)
    | Counting(day: nat) // increment_spend has computed its key
    | Counted(day: nat) // after INCR, before EXPIRE

  /** `total` is how often each day's key has been incremented, ever. */
  datatype State = State(now: nat, store: Store, requests: map<nat, Stage>, total: map<nat, nat>)

  datatype Event =
    | StartCheck(id: nat)
    | ReadCount(id: nat)
    | StartCount(id: nat)
    | Count(id: nat)
    | KeepKey(id: nat)
    | GoAway(id: nat) // refused elsewhere, failed or died
    | Tick(ms: nat)

  predicate Enabled(s: State, e: Event) {
    match e
    case StartCheck(id) => id !in s.requests
    case ReadCount(id) => id in s.requests && s.requests[id].Checking?
    case StartCount(id) => id in s.requests && s.requests[id].Passed?
    case Count(id) => id in s.requests && s.requests[id].Counting?
    case KeepKey(id) => id in s.requests && s.requests[id].Counted?
    case GoAway(id) => id in s.requests
    case Tick(_) => true
  }

  function TotalOf(s: State, day: nat): nat {
    if day in s.total then s.total[day] else 0
  }

  function Next(s: State, e: Event, cap: nat, c: Calendar): State
    requires Enabled(s, e)
  {
    match e
    case StartCheck(id) => s.(requests := s.requests[id := Checking(Today(s.now))])
    case ReadCount(id) =>
      var day := s.requests[id].day;
      if Get(s.store, SpendKey(c, day), s.now) < cap then s.(requests := s.requests[id := Passed(day)])
      else s.(requests := s.requests - {id})
    case StartCount(id) => s.(requests := s.requests[id := Counting(Today(s.now))])
    case Count(id) =>
      var day := s.requests[id].day;
      s.(requests := s.requests[id := Counted(day)],
         store := Incr(s.store, SpendKey(c, day), s.now),
         total := s.total[day := TotalOf(s, day) + 1])
    case KeepKey(id) =>
      s.(requests := s.requests - {id}, store := Expire(s.store, SpendKey(c, s.requests[id].day), s.now, SPEND_TTL_MS))
    case GoAway(id) => s.(requests := s.requests - {id})
    case Tick(ms) => s.(now := s.now + ms)
  }

  /** The requests between the start of their check and their increment. */
  function InFlight(s: State): set<nat> {
    set id | id in s.requests && !s.requests[id].Counted?
  }

  /** A possible run in which at most k requests are ever in flight together. */
  ghost predicate Possible(s: State, events: seq<Event>, cap: nat, c: Calendar, k: nat)
    decreases |events|
  {
    && |InFlight(s)| <= k
    && (events == [] || (Enabled(s, events[0]) && Possible(Next(s, events[0], cap, c), events[1..], cap, c, k)))
  }

  ghost function Run(s: State, events: seq<Event>, cap: nat, c: Calendar, k: nat): State
    requires Possible(s, events, cap, c, k)
    decreases |events|
  {
    if events == [] then s else Run(Next(s, events[0], cap, c), events[1..], cap, c, k)
  }

  function Fresh(now: nat): State {
    State(now, map[], map[], map[])
  }

  // ---------------------------------------------------------------- the invariant

  /** May this request still increment that day's counter? */
  predicate Threatens(st: Stage, day: nat, now: nat) {
    match st
    case Checking(d) => d < day && Today(now) <= day
    case Passed(d) => d <= day && Today(now) <= day
    case Counting(d) => d == day
    case Counted(_) => false
  }

  function Threats(s: State, day: nat): set<nat> {
    set id | id in s.requests && Threatens(s.requests[id], day, s.now)
  }

  ghost predicate BudgetInv(s: State, cap: nat, c: Calendar, k: nat) {
    && (forall id :: id in s.requests ==> s.requests[id].day <= Today(s.now))
    && (forall day :: day > Today(s.now) ==> TotalOf(s, day) == 0)
    && (forall day: nat :: LastsUntil(s.store, SpendKey(c, day), day * DAY_MS + SPEND_TTL_MS))
    && (forall day: nat :: s.now < day * DAY_MS + SPEND_TTL_MS ==> Get(s.store, SpendKey(c, day), s.now) == TotalOf(s, day))
    && (cap == 0 ==> forall id :: id in s.requests ==> s.requests[id].Checking?)
    && (forall day: nat :: Bounded(s, cap, k, day))
  }

  ghost predicate Bounded(s: State, cap: nat, k: nat, day: nat) {
    if cap == 0 then TotalOf(s, day) == 0 else TotalOf(s, day) + |Threats(s, day)| <= cap + k - 1
  }

  lemma SubsetSize(a: set<nat>, b: set<nat>)
    requires a <= b
    ensures |a| <= |b|
  {
    if a != b {
      var x :| x in b && x !in a;
      assert a <= b - {x};
      SubsetSize(a, b - {x});
    }
  }

  lemma ThreatWasThere(s: State, e: Event, cap: nat, c: Calendar, day: nat, id: nat)
    requires Enabled(s, e) && id in Threats(Next(s, e, cap, c), day)
    requires e.StartCheck? || e.ReadCount? ==> TotalOf(s, day) >= cap || Today(s.now) > day
    requires e.ReadCount? && s.requests[e.id].day == Today(s.now) == day ==> Get(s.store, SpendKey(c, day), s.now) == TotalOf(s, day)
    requires forall d: nat :: d > Today(s.now) ==> TotalOf(s, d) == 0
    requires cap > 0
    requires forall id :: id in s.requests ==> s.requests[id].day <= Today(s.now)
    ensures id in Threats(s, day)
    ensures e.Count? && s.requests[e.id].day == day ==> id != e.id
  {
    hide Get, Incr, Expire, SpendKey;
  }

  /** Total plus threats grows only where the counter has just been read below the cap, or the day has not begun. */
  lemma StepKeepsBound(s: State, e: Event, cap: nat, c: Calendar, k: nat, day: nat)
    requires BudgetInv(s, cap, c, k) && Enabled(s, e) && |InFlight(Next(s, e, cap, c))| <= k
    ensures Bounded(Next(s, e, cap, c), cap, k, day)
  {
    var t := Next(s, e, cap, c);
    assert Bounded(s, cap, k, day);
    assert Today(s.now) == day ==> Get(s.store, SpendKey(c, day), s.now) == TotalOf(s, day);
    hide Get, Incr, Expire, SpendKey, LastsUntil;
    if cap == 0 {
    } else if (e.StartCheck? || e.ReadCount?) && TotalOf(s, day) < cap && Today(s.now) <= day {
      assert Threats(t, day) <= InFlight(t);
      SubsetSize(Threats(t, day), InFlight(t));
    } else {
      forall id | id in Threats(t, day)
        ensures id in Threats(s, day) && (e.Count? && s.requests[e.id].day == day ==> id != e.id)
      {
        ThreatWasThere(s, e, cap, c, day, id);
      }
      var gone := if e.Count? && s.requests[e.id].day == day then {e.id} else {};
      assert gone <= Threats(s, day);
      SubsetSize(Threats(t, day), Threats(s, day) - gone);
    }
  }

  /** Within its own day, and for another day after, a counter is never reset. */
  lemma StepKeepsCounters(s: State, e: Event, cap: nat, c: Calendar, k: nat, day: nat)
    requires BudgetInv(s, cap, c, k) && Enabled(s, e) && Dates(c)
    ensures var t := Next(s, e, cap, c);
            && LastsUntil(t.store, SpendKey(c, day), day * DAY_MS + SPEND_TTL_MS)
            && (t.now < day * DAY_MS + SPEND_TTL_MS ==> Get(t.store, SpendKey(c, day), t.now) == TotalOf(t, day))
  {
    var t := Next(s, e, cap, c);
    var key := SpendKey(c, day);
    assert LastsUntil(s.store, key, day * DAY_MS + SPEND_TTL_MS);
    if e.Tick? && t.now < day * DAY_MS + SPEND_TTL_MS {
      LastingIsStable(s.store, key, s.now, t.now, day * DAY_MS + SPEND_TTL_MS);
    } else if e.Count? || e.KeepKey? {
      var d := s.requests[e.id].day;
      if SpendKey(c, d) == key {
        SpendKeysDiffer(c, d, day);
      }
    }
    hide Dates, SpendKey, InFlight, Bounded;
  }

  lemma StepKeepsDays(s: State, e: Event, cap: nat, c: Calendar, k: nat)
    requires BudgetInv(s, cap, c, k) && Enabled(s, e)
    ensures var t := Next(s, e, cap, c);
            && (forall id :: id in t.requests ==> t.requests[id].day <= Today(t.now))
            && (forall day :: day > Today(t.now) ==> TotalOf(t, day) == 0)
            && (cap == 0 ==> forall id :: id in t.requests ==> t.requests[id].Checking?)
  {
    hide Bounded, LastsUntil, Incr, Expire, Get, SpendKey;
    var t := Next(s, e, cap, c);
    assert Today(s.now) <= Today(t.now);
    forall day: nat | day > Today(t.now) ensures TotalOf(t, day) == 0 {
      assert TotalOf(s, day) == 0;
    }
  }

  lemma StepKeepsBudgetInv(s: State, e: Event, cap: nat, c: Calendar, k: nat)
    requires BudgetInv(s, cap, c, k) && Enabled(s, e) && Dates(c) && |InFlight(Next(s, e, cap, c))| <= k
    ensures BudgetInv(Next(s, e, cap, c), cap, c, k)
  {
    var t := Next(s, e, cap, c);
    StepKeepsDays(s, e, cap, c, k);
    forall day: nat
      ensures LastsUntil(t.store, SpendKey(c, day), day * DAY_MS + SPEND_TTL_MS)
      ensures t.now < day * DAY_MS + SPEND_TTL_MS ==> Get(t.store, SpendKey(c, day), t.now) == TotalOf(t, day)
      ensures Bounded(t, cap, k, day)
    {
      StepKeepsCounters(s, e, cap, c, k, day);
      StepKeepsBound(s, e, cap, c, k, day);
    }
    hide Dates, SpendKey, InFlight, Bounded, LastsUntil, Get, Next, Enabled, TotalOf, Today;
  }

  lemma {:induction false} RunKeepsBudgetInv(s: State, events: seq<Event>, cap: nat, c: Calendar, k: nat)
    requires BudgetInv(s, cap, c, k) && Dates(c) && Possible(s, events, cap, c, k)
    ensures BudgetInv(Run(s, events, cap, c, k), cap, c, k)
    decreases |events|
  {
    hide BudgetInv, Next, Enabled, InFlight, Dates;
    if events != [] {
      StepKeepsBudgetInv(s, events[0], cap, c, k);
      RunKeepsBudgetInv(Next(s, events[0], cap, c), events[1..], cap, c, k);
    }
  }

  /**
   * With at most k requests in flight between check and increment, no UTC day's increments ever exceed
   * cap + k - 1: also for requests that check on one day and count on the next, and never more than the
   * cap when they are serialised.
   */
  lemma SpendIsBounded(now: nat, events: seq<Event>, cap: nat, c: Calendar, k: nat, day: nat)
    requires Dates(c) && Possible(Fresh(now), events, cap, c, k)
    ensures var spent := TotalOf(Run(Fresh(now), events, cap, c, k), day);
            && (cap == 0 ==> spent == 0)
            && (cap > 0 ==> spent <= cap + k - 1)
            && (k == 1 ==> spent <= cap)
  {
    var s := Run(Fresh(now), events, cap, c, k);
    assert Threats(Fresh(now), day) == {};
    assert forall d: nat :: Threats(Fresh(now), d) == {};
    RunKeepsBudgetInv(Fresh(now), events, cap, c, k);
    assert Bounded(s, cap, k, day);
  }

  /** today_spend shows the day's true count: the 48 h time to live resets no counter during its own day. */
  lemma CounterIsTrueToday(now: nat, events: seq<Event>, cap: nat, c: Calendar, k: nat)
    requires Dates(c) && Possible(Fresh(now), events, cap, c, k)
    ensures var s := Run(Fresh(now), events, cap, c, k);
            Get(s.store, SpendKey(c, Today(s.now)), s.now) == TotalOf(s, Today(s.now))
  {
    assert forall d: nat :: Threats(Fresh(now), d) == {};
    RunKeepsBudgetInv(Fresh(now), events, cap, c, k);
  }
}
