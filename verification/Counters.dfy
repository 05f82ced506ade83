/** Redis string counters with a time to live: GET, INCR and EXPIRE. Times are milliseconds. */
module Counters {
  import opened Options

  datatype Counter = Counter(count: nat, expiry: Option<nat>)

  type Store = map<string, Counter>

  predicate Live(c: Counter, now: nat) {
    c.expiry.None? || now < c.expiry.value
  }

  function Get(s: Store, key: string, now: nat): nat {
    if key in s && Live(s[key], now) then s[key].count else 0
  }

  /** INCR starts a missing or expired key at 1, without a time to live; it keeps a live key's. */
  function Incr(s: Store, key: string, now: nat): Store {
    s[key := if key in s && Live(s[key], now) then s[key].(count := s[key].count + 1) else Counter(1, None)]
  }

  function Expire(s: Store, key: string, now: nat, ttl: nat): Store {
    if key in s && Live(s[key], now) then s[key := s[key].(expiry := Some(now + ttl))] else s
  }

  /** A counter that was never reset before `until`. */
  predicate LastsUntil(s: Store, key: string, until: nat) {
    key in s && s[key].expiry.Some? ==> until <= s[key].expiry.value
  }

  lemma IncrCounts(s: Store, key: string, other: string, now: nat)
    ensures Get(Incr(s, key, now), other, now) == Get(s, other, now) + (if key == other then 1 else 0)
  {
  }

  lemma ExpireKeepsCounts(s: Store, key: string, other: string, now: nat, ttl: nat)
    requires ttl > 0
    ensures Get(Expire(s, key, now, ttl), other, now) == Get(s, other, now)
  {
  }

  lemma LastingIsStable(s: Store, key: string, now: nat, later: nat, until: nat)
    requires LastsUntil(s, key, until) && now <= later < until
    ensures Get(s, key, later) == Get(s, key, now)
  {
  }

  /** One more: INCR, and then EXPIRE if the counter is still there. */
  lemma CountsOnce(before: Store, key: string, at: nat, keep: nat, ttl: nat)
    requires at <= keep && ttl > 0
    ensures var after := Expire(Incr(before, key, at), key, keep, ttl);
            && Get(after, key, at) == Get(before, key, at) + 1
            && after - {key} == before - {key}
            && (Get(after, key, keep) > 0 ==> key in after && after[key].expiry == Some(keep + ttl))
  {
  }

  class CounterStore {
    var store: Store
    var now: nat

    constructor (now: nat)
      ensures store == map[] && this.now == now
    {
      store, this.now := map[], now;
    }

    /** Time passes between two awaits. */
    method Wait(ms: nat)
      modifies this`now
      ensures now == old(now) + ms
    {
      now := now + ms;
    }

    method Increment(key: string) returns (count: nat)
      modifies this`store
      ensures store == Incr(old(store), key, now)
      ensures count == Get(old(store), key, now) + 1 == Get(store, key, now)
    {
      store := Incr(store, key, now);
      count := store[key].count;
    }

    method SetTtl(key: string, ttl: nat)
      modifies this`store
      ensures store == Expire(old(store), key, now, ttl)
    {
      store := Expire(store, key, now, ttl);
    }
  }
}
