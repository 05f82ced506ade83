/** POST /generate (app/api/v1/generate.py) from the idempotency check on: what each outcome leaves behind. */
module Generation {
  import opened Budget
  import opened Counters
  import opened Dedupe
  import opened Enums
  import opened JobStore
  import opened Options
  import opened RecentIndex
  import R = JobRecord

  /** The parsed form and headers. */
  datatype Form = Form(apiKeyName: string, request: Dedupe.Request, callbackUrl: Option<string>, idempotencyKey: Option<string>)

  /** What the outside contributes: the upload's checks, a fresh id, the storage and queue calls, the clock. */
  datatype Outside = Outside(
    now: nat,
    deadlineUs: nat,
    cap: nat,
    mime: Option<string>, // None: read_and_validate_image raises
    newId: string,
    sourceRef: Option<string>, // None: storage.put raises
    rowIndex: Option<nat>, // None: no Sheets client, or safe_append_job_row has caught a failure
    enqueueWorks: bool,
    checkLag: nat,
    countLag: nat,
    keepLag: nat)

  datatype Response = Response(jobId: string, status: JobStatus, deduplicated: bool)

  datatype Refusal = BadImage | OverBudget | Failure

  /** A field of the job the route creates. */
  function NewField(f: R.Field, form: Form, hash: string, mime: string, sourceRef: string, o: Outside): Option<R.Value> {
    match f
    case JobId => Some(R.Str(o.newId))
    case ApiKeyName => Some(R.Str(form.apiKeyName))
    case Service => Some(R.OfService(form.request.service))
    case Mock => Some(R.Bool(form.request.mock))
    case ContentHash => Some(R.Str(hash))
    case JewelryTypeRequested => if form.request.requested.Some? then Some(R.OfType(form.request.requested.value)) else None
    case CallbackUrl => if form.callbackUrl.Some? then Some(R.Str(form.callbackUrl.value)) else None
    case IdempotencyKey => if form.idempotencyKey.Some? then Some(R.Str(form.idempotencyKey.value)) else None
    case Status => Some(R.OfStatus(Queued))
    case CreatedAt => Some(R.Time(o.now))
    case UpdatedAt => Some(R.Time(o.now))
    case DeadlineAt => Some(R.Time(o.now + o.deadlineUs))
    case SourceRef => Some(R.Str(sourceRef))
    case SourceBytes => Some(R.Int(|form.request.image|))
    case SourceMime => Some(R.Str(mime))
    case Billable => Some(R.Bool(!form.request.mock))
    case _ => R.Default(f)
  }

  lemma NewKinds(form: Form, hash: string, mime: string, sourceRef: string, o: Outside)
    ensures forall f :: var v := NewField(f, form, hash, mime, sourceRef, o);
                        && (v.Some? ==> R.HasKind(R.KindOf(f), v.value))
                        && (R.Demanded(f) || R.Default(f).Some? ==> v.Some?)
  {
  }

  function NewJob(form: Form, hash: string, mime: string, sourceRef: string, o: Outside): (j: R.Job)
    ensures R.WellFormed(j) && j[R.JobId] == R.Str(o.newId) && j[R.CreatedAt] == R.Time(o.now)
  {
    NewKinds(form, hash, mime, sourceRef, o);
    map f: R.Field | NewField(f, form, hash, mime, sourceRef, o).Some? :: NewField(f, form, hash, mime, sourceRef, o).value
  }

  /** What the route stores, attribute by attribute. */
  lemma NewJobHolds(form: Form, hash: string, mime: string, sourceRef: string, o: Outside, f: R.Field)
    ensures R.Attribute(NewJob(form, hash, mime, sourceRef, o), f)
            == match f
               case JobId => Some(R.Str(o.newId))
               case ApiKeyName => Some(R.Str(form.apiKeyName))
               case Service => Some(R.OfService(form.request.service))
               case Mock => Some(R.Bool(form.request.mock))
               case Billable => Some(R.Bool(!form.request.mock))
               case ContentHash => Some(R.Str(hash))
               case JewelryTypeRequested => if form.request.requested == None then None else Some(R.OfType(form.request.requested.value))
               case CallbackUrl => if form.callbackUrl == None then None else Some(R.Str(form.callbackUrl.value))
               case IdempotencyKey => if form.idempotencyKey == None then None else Some(R.Str(form.idempotencyKey.value))
               case Status => Some(R.OfStatus(Queued))
               case CreatedAt => Some(R.Time(o.now))
               case UpdatedAt => Some(R.Time(o.now))
               case DeadlineAt => Some(R.Time(o.now + o.deadlineUs))
               case AttemptCount => Some(R.Int(0))
               case SourceRef => Some(R.Str(sourceRef))
               case SourceBytes => Some(R.Int(|form.request.image|))
               case SourceMime => Some(R.Str(mime))
               case AssetRefs => Some(R.Data(R.Refs([])))
               case _ => None
  {
    hide R.WellFormed;
  }

  /** Only the client that created it may load it, and the reaper leaves it alone until its deadline. */
  lemma NewJobIsOwn(hashes: Hashes, form: Form, hash: string, mime: string, sourceRef: string, o: Outside, keyName: string, later: nat)
    requires o.newId in hashes && hashes[o.newId] == R.ToRedisHash(NewJob(form, hash, mime, sourceRef, o))
    ensures Fetch(hashes, o.newId).Found?
    ensures R.Attribute(Fetch(hashes, o.newId).job, R.ApiKeyName) == Some(R.Str(keyName)) <==> keyName == form.apiKeyName
    ensures IsExpired(hashes, o.newId, later) <==> o.now + o.deadlineUs - (o.now + o.deadlineUs) % 1000 < later
  {
    var j := NewJob(form, hash, mime, sourceRef, o);
    NewJobHolds(form, hash, mime, sourceRef, o, R.ApiKeyName);
    NewJobHolds(form, hash, mime, sourceRef, o, R.Status);
    NewJobHolds(form, hash, mime, sourceRef, o, R.DeadlineAt);
    hide NewJob, R.ToRedisHash, Fetch, R.WellFormed, IsExpired;
    FetchStored(hashes, o.newId, j);
    TruncationHidesNothing(hashes, o.newId, j, later);
  }

  lemma FetchedFields(hashes: Hashes, id: string)
    requires Keyed(hashes) && Fetch(hashes, id).Found?
    ensures var job := Fetch(hashes, id).job;
            && R.JobId in job && job[R.JobId] == R.Str(id)
            && R.Mock in job && R.Attribute(job, R.Mock) == Some(job[R.Mock])
            && R.Attribute(job, R.Status) == Some(R.OfStatus(StatusOf(job)))
  {
    KeyedJobId(hashes, id);
    hide Keyed;
  }

  lemma NewJobIsQueued(hashes: Hashes, id: string, job: R.Job)
    requires R.WellFormed(job) && R.Attribute(job, R.Status) == Some(R.OfStatus(Queued))
    requires id in hashes && hashes[id] == R.ToRedisHash(job)
    ensures Fetch(hashes, id).Found? && StatusOf(Fetch(hashes, id).job) == Queued
  {
    hide R.ToRedisHash, Fetch, R.WellFormed, R.Truncated;
    FetchStored(hashes, id, job);
    TruncatedFields(job);
  }

  class Api {
    const store: RedisStore
    const counters: CounterStore
    const calendar: Calendar
    const sha: Bytes -> string
    var keys: map<string, string> // idem:... and dedupe:...
    var rows: map<string, nat> // job:{id}:row, the JobLog row of each job
    var queue: seq<string> // run_job_pipeline jobs

    constructor (store: RedisStore, counters: CounterStore, calendar: Calendar, sha: Bytes -> string)
      ensures this.store == store && this.counters == counters && this.calendar == calendar && this.sha == sha
      ensures keys == map[] && rows == map[] && queue == []
    {
      this.store, this.counters, this.calendar, this.sha := store, counters, calendar, sha;
      keys, rows, queue := map[], map[], [];
    }

    /** The job an earlier request with the same key and idempotency key was answered with, if it still exists. */
    method CheckIdempotency(form: Form) returns (r: Fetched)
      ensures var key := IdemKey(form.apiKeyName, form.idempotencyKey.GetOr(""));
              r == if form.idempotencyKey.GetOr("") != "" && key in keys then Fetch(store.hashes, keys[key]) else Absent
    {
      r := Absent;
      if form.idempotencyKey.Some? && form.idempotencyKey.value != "" {
        var key := IdemKey(form.apiKeyName, form.idempotencyKey.value);
        if key in keys {
          r := store.GetJob(keys[key]);
        }
      }
    }

    /** The job the dedupe index has for this request. */
    method CheckDedupe(form: Form) returns (r: Fetched)
      ensures var key := "dedupe:" + sha(Dedupe.Preimage(form.request));
              r == if key in keys then Fetch(store.hashes, keys[key]) else Absent
    {
      r := Absent;
      var key := "dedupe:" + Dedupe.ContentHash(sha, form.request);
      if key in keys {
        r := store.GetJob(keys[key]);
      }
    }

    /** The route from create_job to enqueue_job, which raises if `enqueueWorks` is false. */
    method Publish(form: Form, o: Outside, job: R.Job)
      requires store.Valid() && o.newId !in store.hashes
      requires R.WellFormed(job) && job[R.JobId] == R.Str(o.newId) && job[R.CreatedAt] == R.Time(o.now)
      modifies this, store
      ensures store.Valid()
      ensures store.hashes == old(store.hashes)[o.newId := R.ToRedisHash(job)]
      ensures store.recent == AfterCreate(old(store.recent), Entry(o.now, o.newId))
      ensures rows == if o.rowIndex.Some? then old(rows)[o.newId := o.rowIndex.value] else old(rows)
      ensures keys == if form.idempotencyKey.GetOr("") != ""
                      then old(keys)[IdemKey(form.apiKeyName, form.idempotencyKey.value) := o.newId] else old(keys)
      ensures queue == if o.enqueueWorks then old(queue) + [o.newId] else old(queue)
    {
      hide IdemKey, AfterCreate, R.ToRedisHash;
      assert HashAt(store.hashes, o.newId) + R.ToRedisHash(job) == R.ToRedisHash(job);
      store.CreateJob(job);
      if o.rowIndex.Some? {
        rows := rows[o.newId := o.rowIndex.value];
      }
      if form.idempotencyKey.Some? && form.idempotencyKey.value != "" {
        keys := keys[IdemKey(form.apiKeyName, form.idempotencyKey.value) := o.newId];
      }
      if o.enqueueWorks {
        queue := queue + [o.newId];
      }
    }

    /** The route from the new id on. */
    method Create(form: Form, o: Outside, mime: string, sourceRef: string) returns (r: Result<Response, Refusal>)
      requires store.Valid() && Dates(calendar) && o.newId !in store.hashes
      modifies this, store, counters
      ensures store.Valid()
      ensures r == if o.enqueueWorks then Ok(Response(o.newId, Queued, false)) else Raised(Failure)
      // its record, its place in the index, its row, its idempotency record, its place in the queue
      ensures store.hashes == old(store.hashes)[o.newId := R.ToRedisHash(
                NewJob(form, sha(Dedupe.Preimage(form.request)), mime, sourceRef, o))]
      ensures store.recent == AfterCreate(old(store.recent), Entry(o.now, o.newId))
      ensures rows == if o.rowIndex.Some? then old(rows)[o.newId := o.rowIndex.value] else old(rows)
      ensures keys == if form.idempotencyKey.GetOr("") != ""
                      then old(keys)[IdemKey(form.apiKeyName, form.idempotencyKey.value) := o.newId] else old(keys)
      ensures queue == if o.enqueueWorks then old(queue) + [o.newId] else old(queue)
      // its count, on the UTC day at this moment, kept for 48 hours
      ensures !o.enqueueWorks || form.request.mock ==> counters.store == old(counters.store)
      ensures o.enqueueWorks && !form.request.mock ==>
                var key, at := "spend:" + calendar.date(old(counters.now) / 86_400_000), old(counters.now) + o.countLag;
                && Get(counters.store, key, at) == Get(old(counters.store), key, at) + 1
                && counters.store - {key} == old(counters.store) - {key}
                && (Get(counters.store, key, counters.now) > 0 ==>
                      key in counters.store && counters.store[key].expiry == Some(counters.now + 172_800_000))
    {
      hide Incr, Expire, Get, Dates, IdemKey, AfterCreate, R.ToRedisHash, NewJob, R.WellFormed, RedisStore.Valid;
      var job := NewJob(form, Dedupe.ContentHash(sha, form.request), mime, sourceRef, o);
      Publish(form, o, job);
      if !o.enqueueWorks {
        return Raised(Failure);
      }
      if !form.request.mock {
        CountsOnce(counters.store, SpendKey(calendar, Today(counters.now)), counters.now + o.countLag,
                   counters.now + o.countLag + o.keepLag, SPEND_TTL_MS);
        Budget.IncrementSpend(counters, calendar, o.countLag, o.keepLag);
      }
      r := Ok(Response(o.newId, Queued, false));
    }

    /**
     * `generate`, branch by branch. A replay, a deduplicated answer or a refusal changes nothing.
     * Otherwise one job is created; it is counted against the budget if and only if it was enqueued
     * and is not a mock.
     */
    method Generate(form: Form, o: Outside) returns (r: Result<Response, Refusal>)
      requires store.Valid() && Dates(calendar) && o.newId !in store.hashes
      modifies this, store, counters
      ensures store.Valid()
      ensures var idem := IdemKey(form.apiKeyName, form.idempotencyKey.GetOr(""));
              var replayed := if form.idempotencyKey.GetOr("") != "" && idem in old(keys)
                              then Fetch(old(store.hashes), old(keys)[idem]) else Absent;
              var dedupe := "dedupe:" + sha(Dedupe.Preimage(form.request));
              var indexed := if dedupe in old(keys) then Fetch(old(store.hashes), old(keys)[dedupe]) else Absent;
              var day := "spend:" + calendar.date(old(counters.now) / 86_400_000);
              var untouched := unchanged(this) && unchanged(store) && counters.store == old(counters.store);
              if replayed.Unreadable? then r == Raised(Failure) && untouched
              else if replayed.Found? then
                r == Ok(Response(old(keys)[idem], StatusOf(replayed.job), false)) && untouched
              else if o.mime == None then r == Raised(BadImage) && untouched
              else if indexed.Unreadable? then r == Raised(Failure) && untouched
              else if indexed.Found? && R.Attribute(indexed.job, R.Status) == Some(R.OfStatus(Succeeded))
                      && R.Attribute(indexed.job, R.Mock) == Some(R.Bool(form.request.mock)) then
                r == Ok(Response(old(keys)[dedupe], Succeeded, true)) && untouched
              else if !form.request.mock && Get(old(counters.store), day, old(counters.now) + o.checkLag) >= o.cap then
                r == Raised(OverBudget) && untouched
              else if o.sourceRef == None then r == Raised(Failure) && untouched
              else
                && r == (if o.enqueueWorks then Ok(Response(o.newId, Queued, false)) else Raised(Failure))
                && store.hashes == old(store.hashes)[o.newId := R.ToRedisHash(
                     NewJob(form, sha(Dedupe.Preimage(form.request)), o.mime.value, o.sourceRef.value, o))]
                && store.recent == AfterCreate(old(store.recent), Entry(o.now, o.newId))
                && rows == (if o.rowIndex.Some? then old(rows)[o.newId := o.rowIndex.value] else old(rows))
                && keys == (if form.idempotencyKey.GetOr("") != "" then old(keys)[idem := o.newId] else old(keys))
                && queue == (if o.enqueueWorks then old(queue) + [o.newId] else old(queue))
                && if o.enqueueWorks && !form.request.mock then
                     var start := old(counters.now) + o.checkLag;
                     var key := "spend:" + calendar.date(start / 86_400_000);
                     && Get(counters.store, key, start + o.countLag) == Get(old(counters.store), key, start + o.countLag) + 1
                     && counters.store - {key} == old(counters.store) - {key}
                     && (Get(counters.store, key, counters.now) > 0 ==>
                           key in counters.store && counters.store[key].expiry == Some(counters.now + 172_800_000))
                   else counters.store == old(counters.store)
    {
      hide Incr, Expire, Get, Dates, IdemKey, Fetch, AfterCreate, R.ToRedisHash, NewJob, Terminal, R.WellFormed;
      hide Keyed, StatusOf;
      var existing := CheckIdempotency(form);
      if existing.Unreadable? {
        return Raised(Failure);
      }
      if existing.Found? {
        FetchedFields(store.hashes, keys[IdemKey(form.apiKeyName, form.idempotencyKey.GetOr(""))]);
        return Ok(Response(existing.job[R.JobId].s, StatusOf(existing.job), false));
      }
      if o.mime.None? {
        return Raised(BadImage);
      }
      var indexed := CheckDedupe(form);
      if indexed.Unreadable? {
        return Raised(Failure);
      }
      if indexed.Found? {
        FetchedFields(store.hashes, keys["dedupe:" + Dedupe.ContentHash(sha, form.request)]);
        if StatusOf(indexed.job) == Succeeded && indexed.job[R.Mock] == R.Bool(form.request.mock) {
          return Ok(Response(indexed.job[R.JobId].s, StatusOf(indexed.job), true));
        }
      }
      if !form.request.mock {
        var allowed := Budget.CheckBudget(counters, calendar, o.cap, o.checkLag);
        if !allowed {
          return Raised(OverBudget);
        }
      }
      if o.sourceRef.None? {
        return Raised(Failure);
      }
      r := Create(form, o, o.mime.value, o.sourceRef.value);
    }

    /**
     * R4. A client posts a form, and then the same or another one with the same idempotency key, while
     * the first job is still there: once a job has been created, even if its enqueue raised, the second
     * call answers with that job, and it stays the only one created, queued and counted.
     */
    method PostTwice(form: Form, o: Outside, second: Form, again: Outside)
      returns (r: Result<Response, Refusal>, repeated: Result<Response, Refusal>)
      requires store.Valid() && Dates(calendar)
      requires o.newId !in store.hashes && again.newId !in store.hashes && o.newId != again.newId
      requires form.idempotencyKey.GetOr("") != ""
      requires second.apiKeyName == form.apiKeyName && second.idempotencyKey == form.idempotencyKey
      modifies this, store, counters
      ensures store.Valid()
      ensures o.newId in store.hashes ==>
                && repeated == Ok(Response(o.newId, Queued, false))
                && (r == repeated || (r == Raised(Failure) && !o.enqueueWorks))
                && store.hashes.Keys == old(store.hashes.Keys) + {o.newId}
                && queue == (if o.enqueueWorks then old(queue) + [o.newId] else old(queue))
      ensures o.newId in store.hashes && o.enqueueWorks && !form.request.mock ==>
                var start := old(counters.now) + o.checkLag;
                var key, at := "spend:" + calendar.date(start / 86_400_000), start + o.countLag;
                && Get(counters.store, key, at) == Get(old(counters.store), key, at) + 1
                && counters.store - {key} == old(counters.store) - {key}
      ensures o.newId in store.hashes && (form.request.mock || !o.enqueueWorks) ==> counters.store == old(counters.store)
      // and a request answered with an older job is answered with it again
      ensures r.Ok? && second == form && again.mime == o.mime ==> repeated.Ok? && repeated.value.jobId == r.value.jobId
    {
      hide Incr, Expire, Get, Dates, IdemKey, Fetch, AfterCreate, R.ToRedisHash, NewJob, Terminal, R.WellFormed;
      hide Keyed, StatusOf;
      r := Generate(form, o);
      if o.newId in store.hashes {
        var job := NewJob(form, sha(Dedupe.Preimage(form.request)), o.mime.value, o.sourceRef.value, o);
        NewJobHolds(form, sha(Dedupe.Preimage(form.request)), o.mime.value, o.sourceRef.value, o, R.Status);
        NewJobIsQueued(store.hashes, o.newId, job);
      }
      repeated := Generate(second, again);
    }
  }
}
