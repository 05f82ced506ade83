/** app/store/redis_store.py and app/worker/sweeper.py: the job hashes, the jobs:recent index, and the reaper. */
module JobStore {
  import opened Enums
  import opened Options
  import opened RecentIndex
  import R = JobRecord

  /** What get_job makes of a key. A hash it cannot decode raises. */
  datatype Fetched = Absent | Unreadable | Found(job: R.Job)

  type Hashes = map<string, R.Hash>

  function HashAt(hashes: Hashes, id: string): R.Hash {
    if id in hashes then hashes[id] else map[]
  }

  function Fetch(hashes: Hashes, id: string): (r: Fetched)
    ensures r.Found? ==> R.WellFormed(r.job)
  {
    var h := HashAt(hashes, id);
    if h == map[] then Absent
    else if R.Readable(h) then
      R.DecodedIsWellFormed(h);
      Found(R.FromRedisHash(h).value)
    else Unreadable
  }

  /** A hash's job_id is the one in its key; update_job on a lost key leaves a hash without one. */
  ghost predicate Keyed(hashes: Hashes) {
    forall id :: id in hashes && R.JobId in hashes[id] ==> hashes[id][R.JobId] == R.Plain(id)
  }

  function StatusOf(j: R.Job): JobStatus
    requires R.WellFormed(j)
  {
    assert R.KindOf(R.Status) == R.KStatus;
    j[R.Status].status
  }

  function DeadlineOf(j: R.Job): nat
    requires R.WellFormed(j)
  {
    assert R.KindOf(R.DeadlineAt) == R.KTime;
    j[R.DeadlineAt].us
  }

  /** Not terminal, and past its deadline. */
  predicate IsExpired(hashes: Hashes, id: string, now: nat) {
    var f := Fetch(hashes, id);
    f.Found? && !Terminal(StatusOf(f.job)) && DeadlineOf(f.job) < now
  }

  /** The expired among these index entries, in index order. */
  ghost function ExpiredIds(hashes: Hashes, index: seq<Entry>, now: nat): seq<string> {
    if index == [] then []
    else
      var front, last := ExpiredIds(hashes, index[..|index| - 1], now), index[|index| - 1].id;
      if IsExpired(hashes, last, now) then front + [last] else front
  }

  lemma {:induction false} ExpiredMembers(hashes: Hashes, index: seq<Entry>, now: nat, id: string)
    ensures id in ExpiredIds(hashes, index, now) <==> IsExpired(hashes, id, now) && exists e :: e in index && e.id == id
  {
    if index != [] {
      var front, last := index[..|index| - 1], index[|index| - 1];
      ExpiredMembers(hashes, front, now, id);
      assert forall e :: e in index <==> e in front || e == last;
      hide IsExpired;
    }
  }

  lemma {:induction false} ExpiredOnce(hashes: Hashes, index: seq<Entry>, now: nat)
    requires DistinctIds(index)
    ensures var ids := ExpiredIds(hashes, index, now); forall i, j :: 0 <= i < j < |ids| ==> ids[i] != ids[j]
  {
    if index != [] {
      var front := index[..|index| - 1];
      ExpiredOnce(hashes, front, now);
      ExpiredMembers(hashes, front, now, index[|index| - 1].id);
    }
  }

  /** What create_job and update_job store for a job reads back as that job, in milliseconds. */
  lemma FetchStored(hashes: Hashes, id: string, j: R.Job)
    requires R.WellFormed(j) && HashAt(hashes, id) == R.ToRedisHash(j)
    ensures Fetch(hashes, id) == Found(R.Truncated(j))
  {
    R.RoundTrip(j);
    assert R.Status in R.ToRedisHash(j) by {
      assert R.Demanded(R.Status);
    }
    hide R.ToRedisHash, R.FromRedisHash, R.WellFormed, R.Truncated;
  }

  lemma TruncatedFields(j: R.Job)
    requires R.WellFormed(j) && R.WellFormed(R.Truncated(j))
    ensures StatusOf(R.Truncated(j)) == StatusOf(j)
    ensures DeadlineOf(R.Truncated(j)) == DeadlineOf(j) - DeadlineOf(j) % 1000
    ensures R.Error in j && j[R.Error].OfError? ==> R.Error in R.Truncated(j) && R.Truncated(j)[R.Error] == j[R.Error]
  {
    assert R.Truncated(j)[R.Status] == R.TruncatedValue(j[R.Status]);
    assert R.Truncated(j)[R.DeadlineAt] == R.TruncatedValue(j[R.DeadlineAt]);
    assert R.KindOf(R.Status) == R.KStatus && R.KindOf(R.DeadlineAt) == R.KTime;
    hide R.Truncated, R.Demanded, R.Default, R.KindOf;
  }

  /** Storing a deadline in milliseconds never hides an expired job, and finds none more than a millisecond early. */
  lemma TruncationHidesNothing(hashes: Hashes, id: string, j: R.Job, now: nat)
    requires R.WellFormed(j) && id in hashes && hashes[id] == R.ToRedisHash(j) && !Terminal(StatusOf(j))
    ensures IsExpired(hashes, id, now) <==> DeadlineOf(j) - DeadlineOf(j) % 1000 < now
    ensures DeadlineOf(j) < now ==> IsExpired(hashes, id, now)
    ensures IsExpired(hashes, id, now) ==> DeadlineOf(j) < now + 1000
  {
    FetchStored(hashes, id, j);
    TruncatedFields(j);
    hide R.ToRedisHash, Fetch, R.WellFormed, R.Truncated, Terminal, StatusOf, DeadlineOf;
  }

  ghost predicate Decodable(hashes: Hashes, index: seq<Entry>) {
    forall e :: e in index ==> Fetch(hashes, e.id) != Unreadable
  }

  /** How sweep ends a job. */
  function SweepTarget(from: JobStatus): (JobStatus, ErrorCode) {
    if from == Submitting then (NeedsReview, OrphanedSubmit) else (Failed, ProviderTimeout)
  }

  /** The job sweep leaves in place of an expired one. */
  function Reaped(j: R.Job, stamp: nat): R.Job
    requires R.WellFormed(j)
  {
    var (to, error) := SweepTarget(StatusOf(j));
    R.Replace(j, R.TransitionUpdates(to, Some(error), None, map[], stamp))
  }

  /** What it leaves, field by field: money may have moved for a submitting job, the others have just run out of time. */
  lemma ReapedField(j: R.Job, stamp: nat, f: R.Field)
    requires R.WellFormed(j)
    ensures R.Attribute(Reaped(j, stamp), f)
            == match f
               case Status => Some(R.OfStatus(if StatusOf(j) == Submitting then NeedsReview else Failed))
               case Error => Some(R.OfError(if StatusOf(j) == Submitting then OrphanedSubmit else ProviderTimeout))
               case CompletedAt => Some(R.Time(stamp))
               case UpdatedAt => Some(R.Time(stamp))
               case _ => R.Attribute(j, f)
  {
    var (to, error) := SweepTarget(StatusOf(j));
    R.TransitionedField(j, f, to, Some(error), None, map[], stamp);
    hide StatusOf, R.WellFormed, R.TransitionUpdates, R.Replace, R.Attribute;
  }

  /** Sweep's transition is never refused, and the job it leaves differs in nothing else. */
  lemma ReapedIsTransition(j: R.Job, stamp: nat)
    requires R.WellFormed(j) && !Terminal(StatusOf(j))
    ensures R.Status in j && j[R.Status].OfStatus?
    ensures var (to, error) := SweepTarget(StatusOf(j));
            R.Transition(j, to, Some(error), None, map[], stamp) == Ok(Reaped(j, stamp))
  {
    hide R.TransitionUpdates, R.Replace;
  }

  /** The arguments of sweep's update_job call. */
  function ReapArguments(updated: R.Job): R.Patch {
    R.PersistArguments(updated, map[])
  }

  lemma ReapUpdates(j: R.Job, stamp: nat)
    requires R.WellFormed(j)
    ensures R.JobId !in ReapArguments(Reaped(j, stamp))
    ensures var updates := R.HashUpdates(ReapArguments(Reaped(j, stamp))); R.JobId !in updates && R.Status in updates
  {
    var fields: R.Patch := map[];
    ReapedField(j, stamp, R.Status);
    R.ArgumentsByField(R.Status, Reaped(j, stamp), fields);
    R.ArgumentsByField(R.JobId, Reaped(j, stamp), fields);
    hide Reaped, R.PersistArguments, R.EncodeValue, R.WellFormed, StatusOf;
  }

  /** The write leaves the key's own job_id alone, and the hash decodes to the reaped job. */
  lemma ReapWrite(h: R.Hash, stamp: nat)
    requires R.Readable(h) && R.WellFormed(R.FromRedisHash(h).value)
    ensures var reaped := Reaped(R.FromRedisHash(h).value, stamp);
            var updates := R.HashUpdates(ReapArguments(reaped));
            && R.JobId !in updates && R.Status in updates
            && R.FromRedisHash(h + updates) == Some(R.Truncated(reaped))
  {
    var j := R.FromRedisHash(h).value;
    var (to, error) := SweepTarget(StatusOf(j));
    R.PersistDecodes(h, to, Some(error), None, stamp);
    ReapUpdates(j, stamp);
    hide R.FromRedisHash, R.Readable, R.WellFormed, R.TransitionUpdates, R.Replace, R.HashUpdates, R.PersistArguments;
    hide StatusOf, R.Truncated;
  }

  function Written(hashes: Hashes, id: string, updates: R.Hash): Hashes {
    hashes[id := HashAt(hashes, id) + updates]
  }

  lemma CreateKeepsKeyed(hashes: Hashes, job: R.Job)
    requires Keyed(hashes) && R.WellFormed(job)
    ensures job[R.JobId].Str? && job[R.CreatedAt].Time?
    ensures Keyed(Written(hashes, job[R.JobId].s, R.ToRedisHash(job)))
  {
    assert R.KindOf(R.JobId) == R.KStr && R.KindOf(R.CreatedAt) == R.KTime;
    assert R.ToRedisHash(job)[R.JobId] == R.EncodeField(R.JobId, job[R.JobId]);
    hide R.ToRedisHash, R.WellFormed, R.KindOf;
  }

  lemma UpdateKeepsKeyed(hashes: Hashes, id: string, updates: R.Hash)
    requires Keyed(hashes) && R.JobId !in updates
    ensures Keyed(Written(hashes, id, updates))
  {
  }

  class RedisStore {
    var hashes: Hashes
    var recent: seq<Entry>

    /** No job twice in the index, no hash under another job's key. */
    ghost predicate Valid()
      reads this
    {
      DistinctIds(recent) && Keyed(hashes)
    }

    constructor ()
      ensures Valid() && hashes == map[] && recent == []
    {
      hashes, recent := map[], [];
    }

    /** One MULTI/EXEC: HSET, ZADD, ZREMRANGEBYRANK. */
    method CreateJob(job: R.Job)
      requires Valid() && R.WellFormed(job)
      modifies this
      ensures Valid()
      ensures var id := job[R.JobId].s;
              && hashes == old(hashes)[id := old(HashAt(hashes, id)) + R.ToRedisHash(job)]
              && recent == AfterCreate(old(recent), Entry(job[R.CreatedAt].us, id))
    {
      var id := job[R.JobId].s;
      CreateKeepsKeyed(hashes, job);
      AfterCreateKeepsDistinct(recent, Entry(job[R.CreatedAt].us, id));
      hide Keyed, R.WellFormed, DistinctIds;
      hashes := hashes[id := HashAt(hashes, id) + R.ToRedisHash(job)];
      recent := ZAdd(recent, Entry(job[R.CreatedAt].us, id));
      recent := LastN(recent, RECENT_CAP);
    }

    method GetJob(id: string) returns (r: Fetched)
      ensures r == Fetch(hashes, id)
    {
      var data := HashAt(hashes, id);
      if data == map[] {
        return Absent;
      }
      var job := R.FromRedisHash(data);
      r := if job.Some? then Found(job.value) else Unreadable;
    }

    method UpdateJob(id: string, fields: R.Patch)
      requires Valid() && R.JobId !in fields // Python allows no second argument named job_id
      modifies this`hashes
      ensures Valid()
      ensures hashes == if R.HashUpdates(fields) == map[] then old(hashes)
                        else old(hashes)[id := old(HashAt(hashes, id)) + R.HashUpdates(fields)]
    {
      var hashUpdates: R.Hash, todo := map[], fields.Keys;
      while todo != {}
        invariant todo <= fields.Keys
        invariant hashUpdates == R.HashUpdates(fields - todo)
        decreases |todo|
      {
        var key :| key in todo;
        todo := todo - {key};
        if fields[key].Some? {
          hashUpdates := hashUpdates[key := R.EncodeValue(fields[key].value)];
        }
      }
      assert fields - todo == fields;
      UpdateKeepsKeyed(hashes, id, hashUpdates);
      if hashUpdates != map[] {
        hashes := hashes[id := HashAt(hashes, id) + hashUpdates];
      }
    }

    /** Exactly the expired jobs, in index order; a hash that does not decode raises instead. */
    method FindExpired(now: nat) returns (r: Option<seq<R.Job>>)
      ensures r.Some? <==> Decodable(hashes, recent)
      ensures r.Some? ==> |r.value| == |ExpiredIds(hashes, recent, now)|
      ensures r.Some? ==> forall k :: 0 <= k < |r.value| ==> Fetch(hashes, ExpiredIds(hashes, recent, now)[k]) == Found(r.value[k])
    {
      hide Fetch, Terminal, StatusOf, DeadlineOf;
      var expired: seq<R.Job> := [];
      for i := 0 to |recent|
        invariant Decodable(hashes, recent[..i])
        invariant |expired| == |ExpiredIds(hashes, recent[..i], now)|
        invariant forall k :: 0 <= k < |expired| ==> Fetch(hashes, ExpiredIds(hashes, recent[..i], now)[k]) == Found(expired[k])
      {
        assert recent[..i + 1][..i] == recent[..i];
        var fetched := GetJob(recent[i].id);
        if fetched.Unreadable? {
          assert recent[i] in recent;
          return None;
        }
        if fetched.Found? && !Terminal(StatusOf(fetched.job)) && DeadlineOf(fetched.job) < now {
          expired := expired + [fetched.job];
        }
      }
      assert recent[..|recent|] == recent;
      r := Some(expired);
    }

    /**
     * An uninterrupted sweep. `clock(k)` is the time of its k-th transition. Every indexed live job is
     * then terminal or within its deadline, and no other record has changed.
     */
    method Sweep(now: nat, clock: nat -> nat) returns (r: Option<seq<string>>)
      requires Valid()
      modifies this`hashes
      ensures Valid()
      ensures r.Some? <==> Decodable(old(hashes), recent)
      ensures r.None? ==> hashes == old(hashes)
      ensures r.Some? ==> r.value == ExpiredIds(old(hashes), recent, now)
      ensures r.Some? ==> forall id :: id in r.value <==> IsExpired(old(hashes), id, now) && exists e :: e in recent && e.id == id
      ensures r.Some? ==> Swept(old(hashes), hashes, r.value, clock)
      ensures r.Some? ==> forall id :: id in r.value ==>
                var before, after := Fetch(old(hashes), id), Fetch(hashes, id);
                && before.Found? && after.Found?
                && StatusOf(after.job) == (if StatusOf(before.job) == Submitting then NeedsReview else Failed)
                && R.Attribute(after.job, R.Error)
                   == Some(R.OfError(if StatusOf(before.job) == Submitting then OrphanedSubmit else ProviderTimeout))
                && forall f :: f !in {R.Status, R.Error, R.CompletedAt, R.UpdatedAt} ==>
                     R.Attribute(after.job, f) == R.Attribute(before.job, f)
      ensures r.Some? ==> forall id :: id !in r.value ==> HashAt(hashes, id) == HashAt(old(hashes), id)
      ensures r.Some? ==> forall e :: e in recent ==> !IsExpired(hashes, e.id, now)
    {
      hide ExpiredIds, Fetch, Keyed, Reaped, R.Transition, ReapArguments, R.HashUpdates, SweepTarget, R.WellFormed, StatusOf;
      hide Terminal, Decodable, DeadlineOf, DistinctIds, R.Attribute, R.Truncated;
      var expired := FindExpired(now);
      if expired.None? {
        return None;
      }
      ghost var ids := ExpiredIds(hashes, recent, now);
      ExpiredOnce(hashes, recent, now);
      forall id ensures id in ids <==> IsExpired(hashes, id, now) && exists e :: e in recent && e.id == id {
        ExpiredMembers(hashes, recent, now, id);
      }
      var swept: seq<string> := [];
      for k := 0 to |expired.value|
        invariant Valid()
        invariant swept == ids[..k]
        invariant Swept(old(hashes), hashes, ids[..k], clock)
      {
        var job := expired.value[k];
        assert IsExpired(old(hashes), ids[k], now) by {
          assert ids[k] in ids;
        }
        StillFetched(old(hashes), hashes, ids, k, clock);
        ReapOne(hashes, ids[k], clock(k));
        ghost var was := hashes;
        var (to, error) := SweepTarget(StatusOf(job));
        var updated := R.Transition(job, to, Some(error), None, map[], clock(k));
        UpdateJob(job[R.JobId].s, ReapArguments(updated.value));
        SweptOneMore(old(hashes), was, hashes, ids, k, clock);
        swept := swept + [job[R.JobId].s];
      }
      assert ids[..|ids|] == ids;
      SweptLeavesNone(old(hashes), hashes, recent, now, clock);
      forall id | id in ids ensures SweptAs(Fetch(old(hashes), id), Fetch(hashes, id)) {
        SweptReads(old(hashes), hashes, ids, clock, id);
      }
      r := Some(swept);
    }
  }

  /** What a sweep over these ids has done: those jobs reaped, at the time of their turn; the rest as it was. */
  ghost predicate Swept(before: Hashes, after: Hashes, ids: seq<string>, clock: nat -> nat) {
    && (forall id :: id !in ids ==> HashAt(after, id) == HashAt(before, id))
    && (forall k :: 0 <= k < |ids| ==>
          Fetch(before, ids[k]).Found? && Fetch(after, ids[k]) == Found(R.Truncated(Reaped(Fetch(before, ids[k]).job, clock(k)))))
  }

  /** What a sweep has made of one of its jobs. */
  ghost predicate SweptAs(before: Fetched, after: Fetched)
    requires before.Found? ==> R.WellFormed(before.job)
    requires after.Found? ==> R.WellFormed(after.job)
  {
    && before.Found? && after.Found?
    && StatusOf(after.job) == (if StatusOf(before.job) == Submitting then NeedsReview else Failed)
    && R.Attribute(after.job, R.Error)
       == Some(R.OfError(if StatusOf(before.job) == Submitting then OrphanedSubmit else ProviderTimeout))
    && forall f :: f !in {R.Status, R.Error, R.CompletedAt, R.UpdatedAt} ==>
         R.Attribute(after.job, f) == R.Attribute(before.job, f)
  }

  lemma SweptReads(before: Hashes, after: Hashes, ids: seq<string>, clock: nat -> nat, id: string)
    requires Swept(before, after, ids, clock) && id in ids
    ensures SweptAs(Fetch(before, id), Fetch(after, id))
  {
    hide Reaped, R.WellFormed, Fetch, R.Truncated, R.Attribute, StatusOf;
    var k :| 0 <= k < |ids| && ids[k] == id;
    var was := Fetch(before, id).job;
    FetchedInMillis(before, id);
    forall f ensures R.Attribute(Fetch(after, id).job, f) == R.Attribute(R.Truncated(Reaped(was, clock(k))), f) {
    }
    ReapedReads(was, clock(k));
  }

  lemma FetchedInMillis(hashes: Hashes, id: string)
    requires Fetch(hashes, id).Found?
    ensures R.Truncated(Fetch(hashes, id).job) == Fetch(hashes, id).job
  {
    R.DecodedIsWellFormed(HashAt(hashes, id));
    hide R.Truncated, R.FromRedisHash, R.Readable, R.WellFormed;
  }

  /** The reaped job as it reads back. */
  lemma ReapedReads(j: R.Job, stamp: nat)
    requires R.WellFormed(j) && R.Truncated(j) == j && R.WellFormed(R.Truncated(Reaped(j, stamp)))
    ensures SweptAs(Found(j), Found(R.Truncated(Reaped(j, stamp))))
  {
    hide Reaped, R.WellFormed;
    var after := R.Truncated(Reaped(j, stamp));
    forall f
      ensures R.Attribute(after, f) == TruncatedAttribute(R.Attribute(Reaped(j, stamp), f))
      ensures R.Attribute(j, f) == TruncatedAttribute(R.Attribute(j, f))
    {
    }
    ReapedField(j, stamp, R.Status);
    ReapedField(j, stamp, R.Error);
    forall f | f !in {R.Status, R.Error, R.CompletedAt, R.UpdatedAt} ensures R.Attribute(after, f) == R.Attribute(j, f) {
      ReapedField(j, stamp, f);
    }
  }

  function TruncatedAttribute(v: Option<R.Value>): Option<R.Value> {
    if v.Some? then Some(R.TruncatedValue(v.value)) else None
  }

  lemma ReapOne(hashes: Hashes, id: string, stamp: nat)
    requires Keyed(hashes) && Fetch(hashes, id).Found? && !Terminal(StatusOf(Fetch(hashes, id).job))
    ensures var job := Fetch(hashes, id).job;
            var (to, error) := SweepTarget(StatusOf(job));
            var updates := R.HashUpdates(ReapArguments(Reaped(job, stamp)));
            && R.JobId in job && job[R.JobId] == R.Str(id)
            && R.Status in job && job[R.Status].OfStatus?
            && R.Transition(job, to, Some(error), None, map[], stamp) == Ok(Reaped(job, stamp))
            && updates != map[] && R.JobId !in ReapArguments(Reaped(job, stamp))
            && Fetch(Written(hashes, id, updates), id) == Found(R.Truncated(Reaped(job, stamp)))
  {
    var job := Fetch(hashes, id).job;
    ReapedIsTransition(job, stamp);
    ReapWrite(HashAt(hashes, id), stamp);
    ReapUpdates(job, stamp);
    KeyedJobId(hashes, id);
    hide Reaped, ReapArguments, R.HashUpdates, R.Transition, R.WellFormed, SweepTarget, StatusOf, R.Truncated;
  }

  lemma StillFetched(before: Hashes, hashes: Hashes, ids: seq<string>, k: nat, clock: nat -> nat)
    requires k < |ids| && Swept(before, hashes, ids[..k], clock)
    requires forall i, j :: 0 <= i < j < |ids| ==> ids[i] != ids[j]
    ensures Fetch(before, ids[k]) == Fetch(hashes, ids[k])
  {
    assert ids[k] !in ids[..k];
    assert HashAt(before, ids[k]) == HashAt(hashes, ids[k]);
    hide HashAt, R.Readable, R.FromRedisHash, R.WellFormed, Reaped, R.Truncated;
  }

  lemma SweptOneMore(before: Hashes, hashes: Hashes, after: Hashes, ids: seq<string>, k: nat, clock: nat -> nat)
    requires k < |ids| && Swept(before, hashes, ids[..k], clock)
    requires forall i, j :: 0 <= i < j < |ids| ==> ids[i] != ids[j]
    requires forall id :: id != ids[k] ==> HashAt(after, id) == HashAt(hashes, id)
    requires Fetch(hashes, ids[k]).Found?
    requires Fetch(after, ids[k]) == Found(R.Truncated(Reaped(Fetch(hashes, ids[k]).job, clock(k))))
    ensures Swept(before, after, ids[..k + 1], clock)
  {
    hide HashAt, Reaped, R.Truncated, R.Readable, R.FromRedisHash, R.WellFormed;
    assert ids[..k + 1] == ids[..k] + [ids[k]];
    StillFetched(before, hashes, ids, k, clock);
    forall i | 0 <= i < k ensures Fetch(after, ids[i]) == Fetch(hashes, ids[i]) {
      assert HashAt(after, ids[i]) == HashAt(hashes, ids[i]);
    }
    hide Fetch;
  }

  lemma KeyedJobId(hashes: Hashes, id: string)
    requires Keyed(hashes) && Fetch(hashes, id).Found?
    ensures var job := Fetch(hashes, id).job; R.JobId in job && job[R.JobId] == R.Str(id)
  {
  }

  /** Every indexed live job is now terminal or within its deadline. */
  lemma SweptLeavesNone(before: Hashes, after: Hashes, index: seq<Entry>, now: nat, clock: nat -> nat)
    requires Swept(before, after, ExpiredIds(before, index, now), clock)
    ensures forall e :: e in index ==> !IsExpired(after, e.id, now)
  {
    hide Reaped;
    var ids := ExpiredIds(before, index, now);
    forall e | e in index ensures !IsExpired(after, e.id, now) {
      ExpiredMembers(before, index, now, e.id);
      if IsExpired(before, e.id, now) {
        var k :| 0 <= k < |ids| && ids[k] == e.id;
        ReapedField(Fetch(before, ids[k]).job, clock(k), R.Status);
        ReapedEnds(Fetch(before, ids[k]).job, clock(k));
      } else {
        assert HashAt(after, e.id) == HashAt(before, e.id);
      }
    }
  }

  lemma ReapedEnds(j: R.Job, stamp: nat)
    requires R.WellFormed(j) && R.WellFormed(R.Truncated(Reaped(j, stamp)))
    ensures Terminal(StatusOf(R.Truncated(Reaped(j, stamp))))
  {
    ReapedField(j, stamp, R.Status);
    hide Reaped;
  }
}
