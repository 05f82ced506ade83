/** When any 60 seconds see at most twice a client's limit pass: exactly how late an INCR may come after its key. */
module RateLimitSpan {
  import opened Counters
  import opened Options
  import opened RateLimit

  /** In every run, any 60 seconds see at most twice the limit of each client pass. */
  ghost predicate AlwaysTwiceAtMost(c: Config, maxLag: nat, bucket: Bucket) {
    forall now, events :: Possible(Quiet(now), events, c, maxLag) ==>
      forall client, from: nat :: PassedInMinute(Run(Quiet(now), events, c, maxLag).log, client, bucket, from) <= 2 * LimitOf(bucket, c)
  }

  /** The run that breaks it. With a limit of one it needs a millisecond more: its first request must not fall at 0. */
  function FirstAt(limit: nat): nat {
    if limit == 1 then 1 else 0
  }

  /** The first request of a window, with the time to live of its counter set at once. */
  lemma FirstRequest(bucket: Bucket, c: Config, maxLag: nat) returns (events: seq<Event>)
    requires LimitOf(bucket, c) > 0
    ensures Possible(Quiet(0), events, c, maxLag)
    ensures var w, a := Window("", bucket, 0), FirstAt(LimitOf(bucket, c));
            Run(Quiet(0), events, c, maxLag)
            == State(1, map[KeyOf(w, c) := Counter(1, Some(a + RATE_LIMIT_KEY_TTL_MS))], [Hit(w, a, true)])
  {
    hide KeyOf, Run, Possible;
    var w, a := Window("", bucket, 0), FirstAt(LimitOf(bucket, c));
    var s0 := Quiet(0);
    assert Possible(s0, [], c, maxLag) && Run(s0, [], c, maxLag) == s0 by {
      NoEvents(s0, c, maxLag);
    }
    OneMoreEvent(s0, [], Tick(a), c, maxLag);
    events := [] + [Tick(a)];
    var count := Event.Count("", bucket, a);
    OneMoreEvent(s0, events, count, c, maxLag);
    events := events + [count];
    assert Run(s0, events, c, maxLag) == State(a, map[KeyOf(w, c) := Counter(1, None)], [Hit(w, a, true)]);
    assert Hit(w, a, true) in Run(s0, events, c, maxLag).log;
    OneMoreEvent(s0, events, Touch(w), c, maxLag);
    events := events + [Touch(w)];
    OneMoreEvent(s0, events, Tick(1 - a), c, maxLag);
    events := events + [Tick(1 - a)];
  }

  lemma NoEvents(s: State, c: Config, maxLag: nat)
    ensures Possible(s, [], c, maxLag) && Run(s, [], c, maxLag) == s
  {
  }

  /** One window used up, its counter due to expire two minutes after the first request. */
  lemma FirstWindow(bucket: Bucket, c: Config, maxLag: nat) returns (events: seq<Event>)
    requires LimitOf(bucket, c) > 0
    ensures Possible(Quiet(0), events, c, maxLag)
    ensures var s, w, n := Run(Quiet(0), events, c, maxLag), Window("", bucket, 0), LimitOf(bucket, c);
            && s.now == 1 && s.log == [Hit(w, FirstAt(n), true)] + Hits(w, 1, n - 1)
            && KeyOf(w, c) in s.store && s.store.Keys == {KeyOf(w, c)}
            && s.store[KeyOf(w, c)].expiry == Some(FirstAt(n) + RATE_LIMIT_KEY_TTL_MS)
  {
    hide KeyOf, Run, Possible;
    var n := LimitOf(bucket, c);
    events := FirstRequest(bucket, c, maxLag);
    BurstPasses(Run(Quiet(0), events, c, maxLag), "", bucket, 1, n - 1, c, maxLag);
    RunsJoin(Quiet(0), events, Burst("", bucket, 1, n - 1), c, maxLag);
    events := events + Burst("", bucket, 1, n - 1);
  }

  /** Some time passes, and then a whole window's worth of requests with this key time. */
  lemma TickThenBurst(s: State, ms: nat, bucket: Bucket, at: nat, c: Config, maxLag: nat) returns (events: seq<Event>)
    requires at <= s.now + ms <= at + maxLag
    requires Get(s.store, KeyOf(WindowAt("", bucket, at), c), s.now + ms) == 0
    ensures Possible(s, events, c, maxLag)
    ensures var t, w := Run(s, events, c, maxLag), WindowAt("", bucket, at);
            && t.now == s.now + ms && t.log == s.log + Hits(w, at, LimitOf(bucket, c))
            && forall k :: k != KeyOf(w, c) ==> (k in t.store <==> k in s.store) && (k in s.store ==> t.store[k] == s.store[k])
  {
    hide KeyOf;
    var t := Next(s, Tick(ms), c);
    BurstPasses(t, "", bucket, at, LimitOf(bucket, c), c, maxLag);
    events := [Tick(ms)] + Burst("", bucket, at, LimitOf(bucket, c));
    assert events[1..] == Burst("", bucket, at, LimitOf(bucket, c));
  }

  /** Two full windows, and a third burst for the first of them once its counter has expired. */
  lemma LateBurstPasses(bucket: Bucket, c: Config, maxLag: nat)
    requires Stamps(c) && LimitOf(bucket, c) > 0 && maxLag > SLACK_MS + FirstAt(LimitOf(bucket, c))
    ensures !AlwaysTwiceAtMost(c, maxLag, bucket)
  {
    hide PassedBetween, Requests, Passes, KeyOf, Stamps, Run, Possible;
    var n, w0, w1 := LimitOf(bucket, c), Window("", bucket, 0), Window("", bucket, 1);
    assert WindowAt("", bucket, MINUTE_MS) == w1 && WindowAt("", bucket, MINUTE_MS - 1) == w0;
    if KeyOf(w0, c) == KeyOf(w1, c) {
      WindowsDiffer(w0, w1, c);
    }
    var s0 := Quiet(0);
    var events := FirstWindow(bucket, c, maxLag);
    var s1 := Run(s0, events, c, maxLag);
    var more := TickThenBurst(s1, MINUTE_MS - 1, bucket, MINUTE_MS, c, maxLag);
    RunsJoin(s0, events, more, c, maxLag);
    var s2 := Run(s1, more, c, maxLag);
    var late := TickThenBurst(s2, SLACK_MS + FirstAt(n), bucket, MINUTE_MS - 1, c, maxLag);
    RunsJoin(s0, events + more, late, c, maxLag);
    var log := Run(s2, late, c, maxLag).log;
    FiveBursts(w0, w1, n);
    assert log == [Hit(w0, FirstAt(n), true)] + Hits(w0, 1, n - 1) + Hits(w1, MINUTE_MS, n) + Hits(w0, MINUTE_MS - 1, n);
    assert PassedInMinute(Run(s0, events + more + late, c, maxLag).log, "", bucket, 1) > 2 * n;
  }

  lemma FiveBursts(w0: Window, w1: Window, n: nat)
    requires w0.client == w1.client && w0.bucket == w1.bucket && n > 0
    ensures PassedBetween([Hit(w0, FirstAt(n), true)] + Hits(w0, 1, n - 1) + Hits(w1, MINUTE_MS, n) + Hits(w0, MINUTE_MS - 1, n),
                          w0.client, w0.bucket, 1, 1 + MINUTE_MS) == FirstAt(n) + (n - 1) + n + n
  {
    var to := 1 + MINUTE_MS;
    var first := [Hit(w0, FirstAt(n), true)];
    assert first[..0] == [];
    assert PassedBetween(first, w0.client, w0.bucket, 1, to) == FirstAt(n);
    HitsCount(first, w0, 1, n - 1, 1, to);
    HitsCount(first + Hits(w0, 1, n - 1), w1, MINUTE_MS, n, 1, to);
    HitsCount(first + Hits(w0, 1, n - 1) + Hits(w1, MINUTE_MS, n), w0, MINUTE_MS - 1, n, 1, to);
  }

  // With a limit of one, and INCRs at most a minute and a millisecond late, a window can pass two requests:
  // one at its first instant and one at its last.

  function StartOf(w: Window): nat {
    w.minute * MINUTE_MS
  }

  /** A window's passes before its last millisecond, and those after its first. */
  function Early(log: seq<Hit>, w: Window): nat {
    PassedBetween(log, w.client, w.bucket, StartOf(w), StartOf(w) + MINUTE_MS - 1)
  }

  function Late(log: seq<Hit>, w: Window): nat {
    PassedBetween(log, w.client, w.bucket, StartOf(w) + 1, StartOf(w) + MINUTE_MS)
  }

  ghost predicate SoleInv(s: State, c: Config, w: Window) {
    var key := KeyOf(w, c);
    && LastsUntil(s.store, key, EndOf(w))
    && (key in s.store ==> s.store[key].count > 0)
    && (s.now < EndOf(w) ==> Get(s.store, key, s.now) == Requests(s.log, w))
    && Early(s.log, w) <= 1 && Late(s.log, w) <= 1
    && (s.now <= EndOf(w) && (key !in s.store || s.store[key].expiry == Some(EndOf(w))) ==> Late(s.log, w) == 0)
  }

  lemma {:induction false} NoRequestNoPass(log: seq<Hit>, w: Window, from: nat, to: nat)
    requires forall h :: h in log ==> h.window.minute == MinuteOf(h.at)
    requires StartOf(w) <= from && to <= StartOf(w) + MINUTE_MS
    ensures PassedBetween(log, w.client, w.bucket, from, to) <= Requests(log, w)
  {
    if log != [] {
      assert log[|log| - 1] in log;
      NoRequestNoPass(log[..|log| - 1], w, from, to);
    }
  }

  lemma {:induction false} NotYet(log: seq<Hit>, w: Window, from: nat, to: nat)
    requires forall h :: h in log ==> h.at < from
    ensures PassedBetween(log, w.client, w.bucket, from, to) == 0
  {
    if log != [] {
      assert log[|log| - 1] in log;
      NotYet(log[..|log| - 1], w, from, to);
    }
  }

  lemma HitCounts(log: seq<Hit>, h: Hit, w: Window)
    requires h.window.minute == MinuteOf(h.at)
    ensures var passed := if h.window == w && h.passed then 1 else 0;
            && Early(log + [h], w) == Early(log, w) + (if h.at < StartOf(w) + MINUTE_MS - 1 then passed else 0)
            && Late(log + [h], w) == Late(log, w) + (if h.at > StartOf(w) then passed else 0)
  {
    PassedOneMore(log, h, w.client, w.bucket, StartOf(w), StartOf(w) + MINUTE_MS - 1);
    PassedOneMore(log, h, w.client, w.bucket, StartOf(w) + 1, StartOf(w) + MINUTE_MS);
    hide PassedBetween;
  }

  lemma CountKeepsSole(s: State, e: Event, c: Config, maxLag: nat, w: Window)
    requires LogInv(s, c) && SoleInv(s, c, w) && Enabled(s, e, maxLag) && e.Count?
    requires Stamps(c) && LimitOf(w.bucket, c) == 1 && maxLag <= SLACK_MS + 1
    ensures SoleInv(Next(s, e, c), c, w)
  {
    var t := Next(s, e, c);
    var mine := Window(e.client, e.bucket, MinuteOf(e.at));
    if KeyOf(mine, c) == KeyOf(w, c) {
      WindowsDiffer(mine, w, c);
      NoRequestNoPass(s.log, w, StartOf(w), StartOf(w) + MINUTE_MS - 1);
      NoRequestNoPass(s.log, w, StartOf(w) + 1, StartOf(w) + MINUTE_MS);
    }
    hide KeyOf, Stamps;
    LoggedOneMore(s.log, t.log[|s.log|], w);
    HitCounts(s.log, t.log[|s.log|], w);
    hide Early, Late, Requests;
  }

  lemma TouchKeepsSole(s: State, e: Event, c: Config, maxLag: nat, w: Window)
    requires LogInv(s, c) && SoleInv(s, c, w) && Enabled(s, e, maxLag) && e.Touch?
    requires Stamps(c)
    ensures SoleInv(Next(s, e, c), c, w)
  {
    if KeyOf(e.w, c) == KeyOf(w, c) {
      WindowsDiffer(e.w, w, c);
      if s.now == StartOf(w) {
        NotYet(s.log, w, StartOf(w) + 1, StartOf(w) + MINUTE_MS);
      }
    }
    hide KeyOf, Stamps, Early, Requests;
  }

  lemma StepKeepsSole(s: State, e: Event, c: Config, maxLag: nat, w: Window)
    requires LogInv(s, c) && SoleInv(s, c, w) && Enabled(s, e, maxLag)
    requires Stamps(c) && LimitOf(w.bucket, c) == 1 && maxLag <= SLACK_MS + 1
    ensures SoleInv(Next(s, e, c), c, w)
  {
    match e
    case Count(_, _, _) => CountKeepsSole(s, e, c, maxLag, w);
    case Touch(_) => TouchKeepsSole(s, e, c, maxLag, w);
    case Tick(ms) =>
      hide KeyOf, Stamps, Early, Late, Requests, LogInv;
      if s.now + ms < EndOf(w) {
        LastingIsStable(s.store, KeyOf(w, c), s.now, s.now + ms, EndOf(w));
      }
  }

  lemma {:induction false} RunKeepsSole(s: State, events: seq<Event>, c: Config, maxLag: nat, w: Window)
    requires LogInv(s, c) && SoleInv(s, c, w) && Possible(s, events, c, maxLag)
    requires Stamps(c) && LimitOf(w.bucket, c) == 1 && maxLag <= SLACK_MS + 1
    ensures SoleInv(Run(s, events, c, maxLag), c, w)
    decreases |events|
  {
    hide SoleInv, KeyOf, Stamps;
    if events != [] {
      StepKeepsSole(s, events[0], c, maxLag, w);
      RunKeepsSole(Next(s, events[0], c), events[1..], c, maxLag, w);
    }
  }

  /** A span covered by two others. */
  lemma {:induction false} SpanIsCovered(log: seq<Hit>, client: string, bucket: Bucket, from: nat, middle: nat, end: nat, to: nat, last: nat)
    requires middle <= end && from <= to <= last
    ensures PassedBetween(log, client, bucket, from, to)
            <= PassedBetween(log, client, bucket, from, end) + PassedBetween(log, client, bucket, middle, last)
  {
    if log != [] {
      SpanIsCovered(log[..|log| - 1], client, bucket, from, middle, end, to, last);
    }
  }

  lemma {:induction false} ShorterSpan(log: seq<Hit>, client: string, bucket: Bucket, from: nat, later: nat, to: nat)
    requires from <= later
    ensures PassedBetween(log, client, bucket, later, to) <= PassedBetween(log, client, bucket, from, to)
  {
    if log != [] {
      ShorterSpan(log[..|log| - 1], client, bucket, from, later, to);
    }
  }

  /** Any 60 seconds lie in one window, or in what is late in one and early in the next. */
  lemma SpanIsLateAndEarly(log: seq<Hit>, client: string, bucket: Bucket, from: nat)
    ensures var w := Window(client, bucket, MinuteOf(from));
            PassedInMinute(log, client, bucket, from)
            <= if from == StartOf(w) then Early(log, w) + Late(log, w) else Late(log, w) + Early(log, w.(minute := w.minute + 1))
  {
    var start := MinuteOf(from) * MINUTE_MS;
    assert start <= from < start + MINUTE_MS;
    if from == start {
      SpanIsCovered(log, client, bucket, start, start + 1, start + MINUTE_MS - 1, start + MINUTE_MS, start + MINUTE_MS);
    } else {
      var next := start + MINUTE_MS;
      SpanIsCovered(log, client, bucket, from, next, next, from + MINUTE_MS, next + MINUTE_MS - 1);
      ShorterSpan(log, client, bucket, start + 1, from, next);
    }
  }

  lemma SoleTwiceAtMost(now: nat, events: seq<Event>, c: Config, maxLag: nat, client: string, bucket: Bucket, from: nat)
    requires Stamps(c) && Possible(Quiet(now), events, c, maxLag) && LimitOf(bucket, c) == 1 && maxLag <= SLACK_MS + 1
    ensures PassedInMinute(Run(Quiet(now), events, c, maxLag).log, client, bucket, from) <= 2
  {
    var w := Window(client, bucket, MinuteOf(from));
    RunKeepsSole(Quiet(now), events, c, maxLag, w);
    RunKeepsSole(Quiet(now), events, c, maxLag, w.(minute := w.minute + 1));
    SpanIsLateAndEarly(Run(Quiet(now), events, c, maxLag).log, client, bucket, from);
  }

  /**
   * Any 60 seconds see at most twice the limit pass, in all runs, if and only if no INCR comes more than
   * a minute after its key; with a limit of one it may be a millisecond more.
   */
  lemma TwiceAtMostIffPrompt(bucket: Bucket, c: Config, maxLag: nat)
    requires Stamps(c)
    ensures AlwaysTwiceAtMost(c, maxLag, bucket)
            <==> LimitOf(bucket, c) == 0 || maxLag <= SLACK_MS + FirstAt(LimitOf(bucket, c))
  {
    var n := LimitOf(bucket, c);
    if n == 0 || maxLag <= SLACK_MS + FirstAt(n) {
      forall now, events, client, from: nat | Possible(Quiet(now), events, c, maxLag)
        ensures PassedInMinute(Run(Quiet(now), events, c, maxLag).log, client, bucket, from) <= 2 * n
      {
        hide Run, Possible, Stamps;
        if maxLag <= SLACK_MS {
          AtMostTwiceTheLimitInAMinute(now, events, c, maxLag, client, bucket, from);
        } else if n == 1 {
          SoleTwiceAtMost(now, events, c, maxLag, client, bucket, from);
        } else {
          RunKeepsLog(Quiet(now), events, c, maxLag);
          NothingPasses(Run(Quiet(now), events, c, maxLag).log, Window(client, bucket, 0), from, from + MINUTE_MS);
        }
      }
    } else {
      LateBurstPasses(bucket, c, maxLag);
    }
  }
}
