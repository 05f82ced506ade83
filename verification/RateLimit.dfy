/** The fixed-window limiter of app/api/deps.py: one counter per client, bucket and clock minute. */
module RateLimit {
  import opened Counters
  import opened Options
  import opened Separators

  const MINUTE_MS: nat := 60_000
  const RATE_LIMIT_KEY_TTL_MS: nat := 120_000

  /** How long after its key an INCR may come and still find the window's own counter, whenever that began. */
  const SLACK_MS: nat := RATE_LIMIT_KEY_TTL_MS - MINUTE_MS

  datatype Bucket = DefaultBucket | PollBucket

  function BucketText(b: Bucket): string {
    match b
    case DefaultBucket => "default"
    case PollBucket => "poll"
  }

  /** The two limits of the settings, and how strftime("%Y%m%d%H%M") writes a minute. */
  datatype Config = Config(ratePerMinute: nat, pollingRatePerMinute: nat, stamp: nat -> string)

  /** strftime writes digits only, and different minutes differently. */
  ghost predicate Stamps(c: Config) {
    && (forall m: nat :: ':' !in c.stamp(m))
    && (forall m: nat, n: nat :: c.stamp(m) == c.stamp(n) ==> m == n)
  }

  /** There are such stamps, whatever the limits. */
  lemma StampsExist(ratePerMinute: nat, pollingRatePerMinute: nat)
    ensures exists c :: Stamps(c) && c.ratePerMinute == ratePerMinute && c.pollingRatePerMinute == pollingRatePerMinute
  {
    var c := Config(ratePerMinute, pollingRatePerMinute, (m: nat) => seq(m, i => '0'));
    forall m: nat, n: nat | c.stamp(m) == c.stamp(n) ensures m == n {
      assert |c.stamp(m)| == m && |c.stamp(n)| == n;
    }
    assert Stamps(c);
  }

  function LimitOf(b: Bucket, c: Config): nat {
    if b == DefaultBucket then c.ratePerMinute else c.pollingRatePerMinute
  }

  datatype Window = Window(client: string, bucket: Bucket, minute: nat)

  function KeyOf(w: Window, c: Config): string {
    "ratelimit:" + BucketText(w.bucket) + ":" + w.client + ":" + c.stamp(w.minute)
  }

  /** Two windows share a counter only if they are the same, whatever the client's name contains. */
  lemma WindowsDiffer(a: Window, b: Window, c: Config)
    requires Stamps(c) && KeyOf(a, c) == KeyOf(b, c)
    ensures a == b
  {
    var x := "ratelimit:" + BucketText(a.bucket) + ":" + a.client;
    var y := "ratelimit:" + BucketText(b.bucket) + ":" + b.client;
    LastSplits(':', x, c.stamp(a.minute), y, c.stamp(b.minute));
    assert x[10] == BucketText(a.bucket)[0] && y[10] == BucketText(b.bucket)[0];
    assert a.bucket == b.bucket;
    var n := |BucketText(a.bucket)| + 11;
    assert x[n..] == a.client && y[n..] == b.client;
  }

  function MinuteOf(ms: nat): nat {
    ms / MINUTE_MS
  }

  /** `_check_rate_limit`; `lag` and `secondLag` are the times its two awaits take. */
  method CheckRateLimit(redis: CounterStore, client: string, bucket: Bucket, c: Config, lag: nat, secondLag: nat)
    returns (allowed: bool)
    requires Stamps(c)
    modifies redis
    ensures redis.now == old(redis.now) + lag + secondLag
    ensures var window := (if bucket == DefaultBucket then "default" else "poll") + ":" + client;
            var key := "ratelimit:" + window + ":" + c.stamp(old(redis.now) / 60_000);
            var limit := if bucket == DefaultBucket then c.ratePerMinute else c.pollingRatePerMinute;
            var at := old(redis.now) + lag;
            && (allowed <==> Get(old(redis.store), key, at) < limit)
            && Get(redis.store, key, at) == Get(old(redis.store), key, at) + 1
            && redis.store - {key} == old(redis.store) - {key}
            && (Get(redis.store, key, redis.now) > 0 ==>
                  key in redis.store && redis.store[key].expiry == Some(redis.now + 120_000))
    ensures forall w :: w != Window(client, bucket, MinuteOf(old(redis.now))) ==>
              (KeyOf(w, c) in redis.store <==> KeyOf(w, c) in old(redis.store))
              && (KeyOf(w, c) in redis.store ==> redis.store[KeyOf(w, c)] == old(redis.store)[KeyOf(w, c)])
  {
    var window := Window(client, bucket, MinuteOf(redis.now));
    var key := KeyOf(window, c);
    forall w | KeyOf(w, c) == key ensures w == window {
      WindowsDiffer(w, window, c);
    }
    assert key == "ratelimit:" + (BucketText(bucket) + ":" + client) + ":" + c.stamp(redis.now / 60_000);
    hide KeyOf, Stamps, BucketText;
    CountsOnce(redis.store, key, redis.now + lag, redis.now + lag + secondLag, RATE_LIMIT_KEY_TTL_MS);
    redis.Wait(lag);
    var count := redis.Increment(key);
    redis.Wait(secondLag);
    redis.SetTtl(key, RATE_LIMIT_KEY_TTL_MS);
    allowed := count <= LimitOf(bucket, c);
  }

  // ---------------------------------------------------------------- any number of requests

  /** A request: its window, when it computed its key, and whether it was let through. */
  datatype Hit = Hit(window: Window, at: nat, passed: bool)

  datatype State = State(now: nat, store: Store, log: seq<Hit>)

  datatype Event = Count(client: string, bucket: Bucket, at: nat) | Touch(w: Window) | Tick(ms: nat)

  /** INCR reaches Redis at most `maxLag` after the key was computed; EXPIRE follows some INCR of that key. */
  predicate Enabled(s: State, e: Event, maxLag: nat) {
    match e
    case Count(_, _, at) => at <= s.now <= at + maxLag
    case Touch(w) => exists h :: h in s.log && h.window == w
    case Tick(_) => true
  }

  function Next(s: State, e: Event, c: Config): State {
    match e
    case Count(client, bucket, at) =>
      var w := Window(client, bucket, MinuteOf(at));
      var store := Incr(s.store, KeyOf(w, c), s.now);
      State(s.now, store, s.log + [Hit(w, at, Get(store, KeyOf(w, c), s.now) <= LimitOf(bucket, c))])
    case Touch(w) => s.(store := Expire(s.store, KeyOf(w, c), s.now, RATE_LIMIT_KEY_TTL_MS))
    case Tick(ms) => s.(now := s.now + ms)
  }

  ghost predicate Possible(s: State, events: seq<Event>, c: Config, maxLag: nat)
    decreases |events|
  {
    events == [] || (Enabled(s, events[0], maxLag) && Possible(Next(s, events[0], c), events[1..], c, maxLag))
  }

  ghost function Run(s: State, events: seq<Event>, c: Config, maxLag: nat): State
    requires Possible(s, events, c, maxLag)
    decreases |events|
  {
    if events == [] then s else Run(Next(s, events[0], c), events[1..], c, maxLag)
  }

  function Requests(log: seq<Hit>, w: Window): nat {
    if log == [] then 0 else Requests(log[..|log| - 1], w) + (if log[|log| - 1].window == w then 1 else 0)
  }

  function Passes(log: seq<Hit>, w: Window): nat {
    if log == [] then 0
    else Passes(log[..|log| - 1], w) + (if log[|log| - 1].window == w && log[|log| - 1].passed then 1 else 0)
  }

  /** How many of a client's requests to a bucket that began in [from, to) were let through. */
  function PassedBetween(log: seq<Hit>, client: string, bucket: Bucket, from: nat, to: nat): nat {
    if log == [] then 0
    else
      var h := log[|log| - 1];
      PassedBetween(log[..|log| - 1], client, bucket, from, to)
      + (if h.window.client == client && h.window.bucket == bucket && from <= h.at < to && h.passed then 1 else 0)
  }

  /** ... in the 60 seconds from then on. */
  function PassedInMinute(log: seq<Hit>, client: string, bucket: Bucket, from: nat): nat {
    PassedBetween(log, client, bucket, from, from + MINUTE_MS)
  }

  function Min(a: nat, b: nat): nat {
    if a < b then a else b
  }

  function EndOf(w: Window): nat {
    w.minute * MINUTE_MS + RATE_LIMIT_KEY_TTL_MS
  }

  ghost predicate WindowInv(s: State, c: Config, w: Window) {
    && LastsUntil(s.store, KeyOf(w, c), EndOf(w))
    && (s.now < EndOf(w) ==> Get(s.store, KeyOf(w, c), s.now) == Requests(s.log, w))
    && Passes(s.log, w) == Min(Requests(s.log, w), LimitOf(w.bucket, c))
  }

  /** What is logged, however late an INCR came. */
  ghost predicate LogInv(s: State, c: Config) {
    forall h :: h in s.log ==>
      h.at <= s.now && h.window.minute == MinuteOf(h.at) && (h.passed ==> LimitOf(h.window.bucket, c) > 0)
  }

  ghost predicate LimitInv(s: State, c: Config) {
    LogInv(s, c) && (forall w :: WindowInv(s, c, w))
  }

  lemma LoggedOneMore(log: seq<Hit>, h: Hit, w: Window)
    ensures Requests(log + [h], w) == Requests(log, w) + (if h.window == w then 1 else 0)
    ensures Passes(log + [h], w) == Passes(log, w) + (if h.window == w && h.passed then 1 else 0)
  {
    assert (log + [h])[..|log|] == log;
  }

  lemma CountKeepsWindow(s: State, e: Event, c: Config, maxLag: nat, w: Window)
    requires WindowInv(s, c, w) && Enabled(s, e, maxLag) && e.Count? && Stamps(c) && maxLag <= SLACK_MS
    ensures WindowInv(Next(s, e, c), c, w)
  {
    var mine := Window(e.client, e.bucket, MinuteOf(e.at));
    if KeyOf(mine, c) == KeyOf(w, c) {
      WindowsDiffer(mine, w, c);
    }
    hide KeyOf, Stamps;
    LoggedOneMore(s.log, Next(s, e, c).log[|s.log|], w);
    hide Requests, Passes;
  }

  lemma StepKeepsWindow(s: State, e: Event, c: Config, maxLag: nat, w: Window)
    requires LimitInv(s, c) && Enabled(s, e, maxLag) && Stamps(c) && maxLag <= SLACK_MS
    ensures WindowInv(Next(s, e, c), c, w)
  {
    assert WindowInv(s, c, w);
    if e.Count? {
      CountKeepsWindow(s, e, c, maxLag, w);
      hide *;
    } else if e.Touch? {
      if KeyOf(e.w, c) == KeyOf(w, c) {
        WindowsDiffer(e.w, w, c);
      }
      hide KeyOf, Stamps, Requests, Passes, LimitInv;
    } else if s.now + e.ms < EndOf(w) {
      LastingIsStable(s.store, KeyOf(w, c), s.now, s.now + e.ms, EndOf(w));
      hide KeyOf, Stamps, Requests, Passes, LimitInv;
    }
  }

  lemma {:induction false} RunKeepsLimits(s: State, events: seq<Event>, c: Config, maxLag: nat)
    requires LimitInv(s, c) && Stamps(c) && Possible(s, events, c, maxLag) && maxLag <= SLACK_MS
    ensures LimitInv(Run(s, events, c, maxLag), c)
    decreases |events|
  {
    hide WindowInv, KeyOf, Stamps;
    if events != [] {
      var t := Next(s, events[0], c);
      forall w ensures WindowInv(t, c, w) {
        StepKeepsWindow(s, events[0], c, maxLag, w);
      }
      RunKeepsLimits(t, events[1..], c, maxLag);
    }
  }

  function Quiet(now: nat): State {
    State(now, map[], [])
  }

  /** Of n requests in a window exactly min(n, limit) pass, whatever any other window does. */
  lemma ExactlyTheLimitPasses(now: nat, events: seq<Event>, c: Config, maxLag: nat, w: Window)
    requires Stamps(c) && Possible(Quiet(now), events, c, maxLag) && maxLag <= SLACK_MS
    ensures var log := Run(Quiet(now), events, c, maxLag).log;
            Passes(log, w) == Min(Requests(log, w), LimitOf(w.bucket, c))
  {
    RunKeepsLimits(Quiet(now), events, c, maxLag);
    assert WindowInv(Run(Quiet(now), events, c, maxLag), c, w);
  }

  lemma {:induction false} SpanIsTwoWindows(log: seq<Hit>, client: string, bucket: Bucket, from: nat)
    requires forall h :: h in log ==> h.window.minute == MinuteOf(h.at)
    ensures PassedBetween(log, client, bucket, from, from + MINUTE_MS)
            <= Passes(log, Window(client, bucket, MinuteOf(from))) + Passes(log, Window(client, bucket, MinuteOf(from) + 1))
  {
    if log != [] {
      SpanIsTwoWindows(log[..|log| - 1], client, bucket, from);
      var h := log[|log| - 1];
      assert h in log;
    }
  }

  /** Straddling two windows, a client gets at most twice the limit in any 60 seconds. */
  lemma AtMostTwiceTheLimitInAMinute(now: nat, events: seq<Event>, c: Config, maxLag: nat, client: string, bucket: Bucket, from: nat)
    requires Stamps(c) && Possible(Quiet(now), events, c, maxLag) && maxLag <= SLACK_MS
    ensures PassedInMinute(Run(Quiet(now), events, c, maxLag).log, client, bucket, from) <= 2 * LimitOf(bucket, c)
  {
    var log := Run(Quiet(now), events, c, maxLag).log;
    RunKeepsLimits(Quiet(now), events, c, maxLag);
    SpanIsTwoWindows(log, client, bucket, from);
    ExactlyTheLimitPasses(now, events, c, maxLag, Window(client, bucket, MinuteOf(from)));
    ExactlyTheLimitPasses(now, events, c, maxLag, Window(client, bucket, MinuteOf(from) + 1));
  }

  // ---------------------------------------------------------------- bursts of requests

  lemma {:induction false} RunsJoin(s: State, before: seq<Event>, after: seq<Event>, c: Config, maxLag: nat)
    requires Possible(s, before, c, maxLag) && Possible(Run(s, before, c, maxLag), after, c, maxLag)
    ensures Possible(s, before + after, c, maxLag)
    ensures Run(s, before + after, c, maxLag) == Run(Run(s, before, c, maxLag), after, c, maxLag)
    decreases |before|
  {
    hide Enabled, Next;
    if before == [] {
      assert before + after == after;
    } else {
      assert (before + after)[1..] == before[1..] + after;
      RunsJoin(Next(s, before[0], c), before[1..], after, c, maxLag);
    }
  }

  lemma OneMoreEvent(s: State, events: seq<Event>, e: Event, c: Config, maxLag: nat)
    requires Possible(s, events, c, maxLag) && Enabled(Run(s, events, c, maxLag), e, maxLag)
    ensures Possible(s, events + [e], c, maxLag)
    ensures Run(s, events + [e], c, maxLag) == Next(Run(s, events, c, maxLag), e, c)
  {
    hide Enabled, Next;
    var t := Run(s, events, c, maxLag);
    assert [e][1..] == [] && Possible(Next(t, e, c), [], c, maxLag);
    RunsJoin(s, events, [e], c, maxLag);
  }

  function Burst(client: string, bucket: Bucket, at: nat, n: nat): seq<Event> {
    seq(n, _ => Event.Count(client, bucket, at))
  }

  function Hits(w: Window, at: nat, n: nat): seq<Hit> {
    seq(n, _ => Hit(w, at, true))
  }

  function WindowAt(client: string, bucket: Bucket, at: nat): Window {
    Window(client, bucket, MinuteOf(at))
  }

  /** n requests at once, when the counter has room for them: all pass. */
  lemma {:induction false} BurstPasses(s: State, client: string, bucket: Bucket, at: nat, n: nat, c: Config, maxLag: nat)
    requires at <= s.now <= at + maxLag
    requires Get(s.store, KeyOf(WindowAt(client, bucket, at), c), s.now) + n <= LimitOf(bucket, c)
    ensures Possible(s, Burst(client, bucket, at, n), c, maxLag)
    ensures var t, w := Run(s, Burst(client, bucket, at, n), c, maxLag), WindowAt(client, bucket, at);
            var key := KeyOf(w, c);
            && t.now == s.now && t.log == s.log + Hits(w, at, n)
            && Get(t.store, key, s.now) == Get(s.store, key, s.now) + n
            && (forall k :: k != key ==> (k in t.store <==> k in s.store) && (k in s.store ==> t.store[k] == s.store[k]))
            && (if key in s.store && Live(s.store[key], s.now) then key in t.store && t.store[key].expiry == s.store[key].expiry
                else n > 0 ==> key in t.store && t.store[key] == Counter(n, None))
    decreases n
  {
    hide KeyOf, MinuteOf;
    var es, w := Burst(client, bucket, at, n), WindowAt(client, bucket, at);
    if n == 0 {
      assert s.log + Hits(w, at, 0) == s.log;
    } else {
      var t := Next(s, es[0], c);
      assert t.log == s.log + [Hit(w, at, true)];
      BurstPasses(t, client, bucket, at, n - 1, c, maxLag);
      assert es[1..] == Burst(client, bucket, at, n - 1);
      assert s.log + [Hit(w, at, true)] + Hits(w, at, n - 1) == s.log + Hits(w, at, n);
    }
  }

  lemma {:induction false} HitsCount(log: seq<Hit>, w: Window, at: nat, n: nat, from: nat, to: nat)
    ensures PassedBetween(log + Hits(w, at, n), w.client, w.bucket, from, to)
            == PassedBetween(log, w.client, w.bucket, from, to) + (if from <= at < to then n else 0)
    ensures Requests(log + Hits(w, at, n), w) == Requests(log, w) + n && Passes(log + Hits(w, at, n), w) == Passes(log, w) + n
  {
    hide Requests, Passes, PassedBetween;
    if n == 0 {
      assert log + Hits(w, at, 0) == log;
    } else {
      HitsCount(log, w, at, n - 1, from, to);
      var more, h := log + Hits(w, at, n - 1), Hit(w, at, true);
      assert log + Hits(w, at, n) == more + [h];
      LoggedOneMore(more, h, w);
      PassedOneMore(more, h, w.client, w.bucket, from, to);
    }
  }

  lemma PassedOneMore(log: seq<Hit>, h: Hit, client: string, bucket: Bucket, from: nat, to: nat)
    ensures PassedBetween(log + [h], client, bucket, from, to)
            == PassedBetween(log, client, bucket, from, to)
               + (if h.window.client == client && h.window.bucket == bucket && from <= h.at < to && h.passed then 1 else 0)
  {
    assert (log + [h])[..|log|] == log;
  }

  lemma NoHits(w: Window)
    ensures Requests([], w) == 0 && Passes([], w) == 0
  {
  }

  // ---------------------------------------------------------------- when a window is exact

  /** In every run, of the requests in any window of this bucket exactly min(n, limit) pass. */
  ghost predicate AlwaysExact(c: Config, maxLag: nat, bucket: Bucket) {
    forall now, events, w: Window :: w.bucket == bucket && Possible(Quiet(now), events, c, maxLag) ==>
      var log := Run(Quiet(now), events, c, maxLag).log;
      Passes(log, w) == Min(Requests(log, w), LimitOf(bucket, c))
  }

  lemma {:induction false} RunKeepsLog(s: State, events: seq<Event>, c: Config, maxLag: nat)
    requires LogInv(s, c) && Possible(s, events, c, maxLag)
    ensures LogInv(Run(s, events, c, maxLag), c)
    decreases |events|
  {
    hide KeyOf;
    if events != [] {
      RunKeepsLog(Next(s, events[0], c), events[1..], c, maxLag);
    }
  }

  lemma {:induction false} NothingPasses(log: seq<Hit>, w: Window, from: nat, to: nat)
    requires forall h :: h in log && h.window.bucket == w.bucket ==> !h.passed
    ensures Passes(log, w) == 0 && PassedBetween(log, w.client, w.bucket, from, to) == 0
  {
    if log != [] {
      assert log[|log| - 1] in log;
      NothingPasses(log[..|log| - 1], w, from, to);
    }
  }

  /** A request that waits more than a minute between its key and its INCR finds the counter expired. */
  lemma LateRequestPasses(bucket: Bucket, c: Config, maxLag: nat)
    requires LimitOf(bucket, c) > 0 && maxLag > SLACK_MS
    ensures !AlwaysExact(c, maxLag, bucket)
  {
    hide KeyOf, Requests, Passes, PassedBetween, Run, Possible;
    var w, n, last := Window("", bucket, 0), LimitOf(bucket, c), MINUTE_MS - 1;
    assert WindowAt("", bucket, 0) == WindowAt("", bucket, last) == w;
    var s0, events := Quiet(0), Burst("", bucket, 0, n);
    BurstPasses(s0, "", bucket, 0, n, c, maxLag);
    var s1 := Run(s0, events, c, maxLag);
    assert s1.log[0] in s1.log;
    OneMoreEvent(s0, events, Touch(w), c, maxLag);
    events := events + [Touch(w)];
    OneMoreEvent(s0, events, Tick(RATE_LIMIT_KEY_TTL_MS), c, maxLag);
    events := events + [Tick(RATE_LIMIT_KEY_TTL_MS)];
    var s2 := Run(s0, events, c, maxLag);
    BurstPasses(s2, "", bucket, last, 1, c, maxLag);
    RunsJoin(s0, events, Burst("", bucket, last, 1), c, maxLag);
    NoHits(w);
    HitsCount([], w, 0, n, 0, 0);
    HitsCount(s2.log, w, last, 1, 0, 0);
    var log := Run(s0, events + Burst("", bucket, last, 1), c, maxLag).log;
    assert Passes(log, w) == n + 1;
  }

  /** The limiter is exact in all runs if and only if nothing passes at all, or no INCR comes more than a minute after its key. */
  lemma ExactIffPrompt(bucket: Bucket, c: Config, maxLag: nat)
    requires Stamps(c)
    ensures AlwaysExact(c, maxLag, bucket) <==> LimitOf(bucket, c) == 0 || maxLag <= SLACK_MS
  {
    if LimitOf(bucket, c) == 0 || maxLag <= SLACK_MS {
      forall now, events, w: Window | w.bucket == bucket && Possible(Quiet(now), events, c, maxLag)
        ensures var log := Run(Quiet(now), events, c, maxLag).log;
                Passes(log, w) == Min(Requests(log, w), LimitOf(bucket, c))
      {
        if maxLag <= SLACK_MS {
          ExactlyTheLimitPasses(now, events, c, maxLag, w);
        } else {
          RunKeepsLog(Quiet(now), events, c, maxLag);
          NothingPasses(Run(Quiet(now), events, c, maxLag).log, w, 0, 0);
        }
      }
    } else {
      LateRequestPasses(bucket, c, maxLag);
    }
  }
}
