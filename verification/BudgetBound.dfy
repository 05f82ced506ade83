/** The bound of SpendIsBounded is reached: for every cap and k there is a run that spends cap + k - 1 in a day. */
module BudgetBound {
  import opened Budget
  import opened Counters

  ghost predicate Reaches(s0: State, s: State, cap: nat, c: Calendar, k: nat) {
    exists events :: Possible(s0, events, cap, c, k) && Run(s0, events, cap, c, k) == s
  }

  lemma {:induction false} OneMoreEvent(s0: State, events: seq<Event>, e: Event, cap: nat, c: Calendar, k: nat)
    requires Possible(s0, events, cap, c, k) && Enabled(Run(s0, events, cap, c, k), e)
    requires |InFlight(Next(Run(s0, events, cap, c, k), e, cap, c))| <= k
    ensures Possible(s0, events + [e], cap, c, k)
    ensures Run(s0, events + [e], cap, c, k) == Next(Run(s0, events, cap, c, k), e, cap, c)
    decreases |events|
  {
    hide Enabled, InFlight, Next;
    if events == [] {
      assert [e][1..] == [];
      assert Possible(Next(s0, e, cap, c), [], cap, c, k);
    } else {
      OneMoreEvent(Next(s0, events[0], cap, c), events[1..], e, cap, c, k);
      assert (events + [e])[1..] == events[1..] + [e];
    }
  }

  lemma ReachNext(s0: State, s: State, e: Event, cap: nat, c: Calendar, k: nat)
    requires Reaches(s0, s, cap, c, k) && Enabled(s, e) && |InFlight(Next(s, e, cap, c))| <= k
    ensures Reaches(s0, Next(s, e, cap, c), cap, c, k)
  {
    hide Enabled, InFlight, Next;
    var events :| Possible(s0, events, cap, c, k) && Run(s0, events, cap, c, k) == s;
    OneMoreEvent(s0, events, e, cap, c, k);
  }

  function Below(n: nat): (r: set<nat>)
    ensures |r| == n && forall i: nat :: i in r <==> i < n
  {
    if n == 0 then {} else Below(n - 1) + {n - 1}
  }

  lemma FewInFlight(s: State, n: nat)
    requires forall id :: id in s.requests ==> id < n
    ensures |InFlight(s)| <= n
  {
    SubsetSize(InFlight(s), Below(n));
  }

  /** Requests lo to hi have passed their check, and n have been counted, all on day `Today(s.now)`. */
  ghost predicate Stand(s: State, lo: nat, hi: nat, n: nat, c: Calendar) {
    && (forall id: nat :: id in s.requests <==> lo <= id < hi)
    && (forall id: nat :: id in s.requests ==> s.requests[id] == Passed(Today(s.now)))
    && Get(s.store, SpendKey(c, Today(s.now)), s.now) == n == TotalOf(s, Today(s.now))
  }

  lemma Begin(s0: State, s: State, lo: nat, hi: nat, n: nat, cap: nat, c: Calendar, k: nat) returns (t: State)
    requires Reaches(s0, s, cap, c, k) && Stand(s, lo, hi, n, c) && lo <= hi < k && n < cap
    ensures Reaches(s0, t, cap, c, k) && Stand(t, lo, hi + 1, n, c) && t.now == s.now
  {
    hide Get, SpendKey, InFlight, Reaches;
    var s1 := Next(s, StartCheck(hi), cap, c);
    FewInFlight(s1, hi + 1);
    ReachNext(s0, s, StartCheck(hi), cap, c, k);
    t := Next(s1, ReadCount(hi), cap, c);
    FewInFlight(t, hi + 1);
    ReachNext(s0, s1, ReadCount(hi), cap, c, k);
  }

  lemma Finish(s0: State, s: State, lo: nat, hi: nat, n: nat, cap: nat, c: Calendar, k: nat) returns (t: State)
    requires Reaches(s0, s, cap, c, k) && Stand(s, lo, hi, n, c) && lo < hi <= k
    ensures Reaches(s0, t, cap, c, k) && Stand(t, lo + 1, hi, n + 1, c) && t.now == s.now
  {
    hide SpendKey, InFlight, Reaches, Get, Incr, Expire;
    var key := SpendKey(c, Today(s.now));
    var s1 := Next(s, StartCount(lo), cap, c);
    FewInFlight(s1, hi);
    ReachNext(s0, s, StartCount(lo), cap, c, k);
    var s2 := Next(s1, Count(lo), cap, c);
    FewInFlight(s2, hi);
    ReachNext(s0, s1, Count(lo), cap, c, k);
    IncrCounts(s1.store, key, key, s.now);
    t := Next(s2, KeepKey(lo), cap, c);
    FewInFlight(t, hi);
    ReachNext(s0, s2, KeepKey(lo), cap, c, k);
    ExpireKeepsCounts(s2.store, key, key, s.now, SPEND_TTL_MS);
  }

  /** cap - 1 requests, one after the other. */
  lemma {:induction false} ServeSerially(s0: State, n: nat, cap: nat, c: Calendar, k: nat) returns (s: State)
    requires Reaches(s0, s0, cap, c, k) && Stand(s0, 0, 0, 0, c) && n < cap && k > 0
    ensures Reaches(s0, s, cap, c, k) && Stand(s, 0, 0, n, c) && s.now == s0.now
  {
    hide Get, SpendKey, InFlight, Reaches, Next;
    s := s0;
    if n > 0 {
      s := ServeSerially(s0, n - 1, cap, c, k);
      s := Begin(s0, s, 0, 0, n - 1, cap, c, k);
      s := Finish(s0, s, 0, 1, n - 1, cap, c, k);
    }
  }

  /** Then k at once: all check before any of them counts. */
  lemma {:induction false} CheckTogether(s0: State, s: State, hi: nat, n: nat, cap: nat, c: Calendar, k: nat) returns (t: State)
    requires Reaches(s0, s, cap, c, k) && Stand(s, 0, 0, n, c) && n < cap && hi <= k
    ensures Reaches(s0, t, cap, c, k) && Stand(t, 0, hi, n, c) && t.now == s.now
  {
    hide Stand, Reaches;
    t := s;
    if hi > 0 {
      t := CheckTogether(s0, s, hi - 1, n, cap, c, k);
      t := Begin(s0, t, 0, hi - 1, n, cap, c, k);
    }
  }

  lemma {:induction false} CountTogether(s0: State, s: State, lo: nat, n: nat, cap: nat, c: Calendar, k: nat) returns (t: State)
    requires Reaches(s0, s, cap, c, k) && Stand(s, 0, k, n, c) && lo <= k
    ensures Reaches(s0, t, cap, c, k) && Stand(t, lo, k, n + lo, c) && t.now == s.now
  {
    hide Stand, Reaches;
    t := s;
    if lo > 0 {
      t := CountTogether(s0, s, lo - 1, n, cap, c, k);
      t := Finish(s0, t, lo - 1, k, n + lo - 1, cap, c, k);
    }
  }

  /** So cap + k - 1 is exactly what k overlapping requests can spend. */
  lemma BoundIsReached(now: nat, cap: nat, c: Calendar, k: nat)
    requires cap > 0 && k > 0
    ensures exists events :: Possible(Fresh(now), events, cap, c, k)
                             && TotalOf(Run(Fresh(now), events, cap, c, k), Today(now)) == cap + k - 1
  {
    var s0 := Fresh(now);
    FewInFlight(s0, 0);
    assert Possible(s0, [], cap, c, k) && Run(s0, [], cap, c, k) == s0;
    var s1 := ServeSerially(s0, cap - 1, cap, c, k);
    var s2 := CheckTogether(s0, s1, k, cap - 1, cap, c, k);
    var s3 := CountTogether(s0, s2, k, cap - 1, cap, c, k);
    var events :| Possible(s0, events, cap, c, k) && Run(s0, events, cap, c, k) == s3;
  }
}
