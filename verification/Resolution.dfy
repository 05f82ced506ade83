/** POST /jobs/{id}/resolve (app/api/v1/jobs.py, load_owned_job of app/api/deps.py): a client names the jewelry type. */
module Resolution {
  import opened Enums
  import opened JobStore
  import opened Options
  import R = JobRecord
  import V = RecordView
  import P = Pipeline

  datatype Refusal = NotFound | NotResolvable | Failure

  /** The fields the route passes to `transition`. */
  function ChosenType(chosen: JewelryType): R.Patch {
    map[R.JewelryTypeFinal := Some(R.OfType(chosen)), R.TypeSource := Some(R.OfSource(Resolved))]
  }

  /** The job it writes back. */
  function ResolvedJob(j: R.Job, chosen: JewelryType, now: nat): R.Job {
    R.Replace(j, R.TransitionUpdates(Resolving, None, None, ChosenType(chosen), now))
  }

  /** The arguments of the route's own update_job call, which leaves out the error and completed_at. */
  function ResolveArguments(updated: R.Job): R.Patch {
    map[R.Status := R.Attribute(updated, R.Status), R.UpdatedAt := R.Attribute(updated, R.UpdatedAt),
        R.JewelryTypeFinal := R.Attribute(updated, R.JewelryTypeFinal), R.TypeSource := R.Attribute(updated, R.TypeSource)]
  }

  /** Four fields change; an error code and completed_at from the needs_input stop survive. */
  lemma ResolvedField(j: R.Job, chosen: JewelryType, now: nat, f: R.Field)
    ensures R.Attribute(ResolvedJob(j, chosen, now), f)
            == match f
               case Status => Some(R.OfStatus(Resolving))
               case UpdatedAt => Some(R.Time(now))
               case JewelryTypeFinal => Some(R.OfType(chosen))
               case TypeSource => Some(R.OfSource(Resolved))
               case _ => R.Attribute(j, f)
  {
    var updates := R.TransitionUpdates(Resolving, None, None, ChosenType(chosen), now);
    R.ReplacedField(j, updates, f);
    assert f in updates <==> R.UpdateOf(f, Resolving, None, None, ChosenType(chosen), now).Some?;
    hide R.Replace, R.Attribute;
  }

  lemma ResolvedGiven(j: R.Job, chosen: JewelryType, now: nat)
    ensures R.Given(ResolveArguments(ResolvedJob(j, chosen, now)))
            == map[R.Status := R.OfStatus(Resolving), R.UpdatedAt := R.Time(now),
                   R.JewelryTypeFinal := R.OfType(chosen), R.TypeSource := R.OfSource(Resolved)]
    ensures R.WellTyped(ResolveArguments(ResolvedJob(j, chosen, now)))
  {
    ResolvedField(j, chosen, now, R.Status);
    ResolvedField(j, chosen, now, R.UpdatedAt);
    ResolvedField(j, chosen, now, R.JewelryTypeFinal);
    ResolvedField(j, chosen, now, R.TypeSource);
    hide ResolvedJob, R.Attribute;
  }

  lemma ResolvedIsMerge(j: R.Job, chosen: JewelryType, now: nat)
    ensures ResolvedJob(j, chosen, now) == j + R.Given(ResolveArguments(ResolvedJob(j, chosen, now)))
  {
    var updated := ResolvedJob(j, chosen, now);
    ResolvedGiven(j, chosen, now);
    hide ResolvedJob, ResolveArguments, R.Given, R.WellTyped;
    var given := R.Given(ResolveArguments(updated));
    forall f ensures R.Attribute(updated, f) == R.Attribute(j + given, f) {
      ResolvedField(j, chosen, now, f);
    }
    SameJob(updated, j + given);
  }

  /** Although it passes fewer fields than `_transition_and_persist`, the hash decodes to the job it returns. */
  lemma ResolveRefines(h: R.Hash, chosen: JewelryType, now: nat)
    requires R.Readable(h)
    ensures var updated := ResolvedJob(R.FromRedisHash(h).value, chosen, now);
            R.FromRedisHash(h + R.HashUpdates(ResolveArguments(updated))) == Some(R.Truncated(updated))
  {
    var j := R.FromRedisHash(h).value;
    hide *;
    var updated := ResolvedJob(j, chosen, now);
    R.DecodedIsWellFormed(h);
    ResolvedGiven(j, chosen, now);
    R.UpdateDecodes(h, ResolveArguments(updated));
    ResolvedIsMerge(j, chosen, now);
    TruncatedMerge(j, R.Given(ResolveArguments(updated)));
  }

  lemma SameJob(a: R.Job, b: R.Job)
    requires forall f :: R.Attribute(a, f) == R.Attribute(b, f)
    ensures a == b
  {
    assert forall f :: f in a <==> R.Attribute(a, f).Some?;
    assert forall f :: f in b <==> R.Attribute(b, f).Some?;
  }

  lemma TruncatedMerge(a: R.Job, b: R.Job)
    ensures R.Truncated(a + b) == R.Truncated(a) + R.Truncated(b)
  {
    hide R.TruncatedValue;
  }

  /** The route's write is the protocol's ResolveRoute event. */
  lemma ResolveIsProtocolDelta(j: R.Job, chosen: JewelryType, now: nat)
    ensures V.DeltaOf(ResolveArguments(ResolvedJob(j, chosen, now)))
            == P.NOTHING.(status := Some(Resolving), final := Some(chosen))
  {
    ResolvedGiven(j, chosen, now);
    hide ResolvedJob, ResolveArguments;
  }

  lemma ResolveIsTransition(j: R.Job, chosen: JewelryType, now: nat)
    requires R.WellFormed(j) && StatusOf(j) == NeedsInput
    ensures R.Status in j && j[R.Status].OfStatus?
    ensures R.Transition(j, Resolving, None, None, ChosenType(chosen), now) == Ok(ResolvedJob(j, chosen, now))
  {
    hide R.TransitionUpdates, R.Replace, ChosenType;
  }

  lemma ResolveUpdates(j: R.Job, chosen: JewelryType, now: nat)
    ensures var arguments := ResolveArguments(ResolvedJob(j, chosen, now));
            R.JobId !in arguments && R.Status in R.HashUpdates(arguments)
  {
    ResolvedField(j, chosen, now, R.Status);
    hide ResolvedJob, R.EncodeValue, R.Attribute;
  }

  lemma ResolveWrite(hashes: Hashes, id: string, chosen: JewelryType, now: nat)
    requires Fetch(hashes, id).Found?
    ensures var updated := ResolvedJob(Fetch(hashes, id).job, chosen, now);
            var updates := R.HashUpdates(ResolveArguments(updated));
            && R.JobId !in ResolveArguments(updated) && updates != map[]
            && Fetch(Written(hashes, id, updates), id) == Found(R.Truncated(updated))
  {
    hide R.FromRedisHash, R.Readable, R.HashUpdates, ResolvedJob, ResolveArguments, R.Truncated, R.WellFormed;
    ResolveRefines(HashAt(hashes, id), chosen, now);
    ResolveUpdates(Fetch(hashes, id).job, chosen, now);
    DecodesIfReadable(HashAt(hashes, id) + R.HashUpdates(ResolveArguments(ResolvedJob(Fetch(hashes, id).job, chosen, now))));
  }

  lemma DecodesIfReadable(h: R.Hash)
    ensures R.FromRedisHash(h).Some? <==> R.Readable(h)
  {
    hide R.Readable;
  }

  /** load_owned_job: anybody else's job is not found. */
  predicate Owned(f: Fetched, keyName: string) {
    f.Found? && R.ApiKeyName in f.job && f.job[R.ApiKeyName] == R.Str(keyName)
  }

  /**
   * `resolve_job_route`, its read, check and write in one step. The follow-up job is enqueued after the
   * write, so when that raises the job stays resolving with nothing queued for it.
   */
  method ResolveJobRoute(store: RedisStore, id: string, keyName: string, chosen: JewelryType, now: nat, enqueueWorks: bool)
    returns (r: Result<R.Job, Refusal>, enqueued: bool)
    requires store.Valid()
    modifies store`hashes
    ensures store.Valid()
    ensures var f := old(Fetch(store.hashes, id));
            var owned := f.Found? && R.Attribute(f.job, R.ApiKeyName) == Some(R.Str(keyName));
            if owned && StatusOf(f.job) == NeedsInput then
              var updated := ResolvedJob(f.job, chosen, now);
              && enqueued == enqueueWorks && r == (if enqueueWorks then Ok(updated) else Raised(Failure))
              && Fetch(store.hashes, id) == Found(R.Truncated(updated))
              && forall other :: other != id ==> HashAt(store.hashes, other) == HashAt(old(store.hashes), other)
            else
              && !enqueued && store.hashes == old(store.hashes)
              && r == Raised(if f.Unreadable? then Failure else if owned then NotResolvable else NotFound)
  {
    hide R.WellFormed, R.HashUpdates, R.Transition, ResolveArguments, Keyed, R.Truncated, Terminal, ResolvedJob, Fetch;
    hide StatusOf, ChosenType;
    var fetched := store.GetJob(id);
    if fetched.Unreadable? {
      return Raised(Failure), false;
    }
    if !Owned(fetched, keyName) {
      return Raised(NotFound), false;
    }
    var job := fetched.job;
    if StatusOf(job) != NeedsInput {
      return Raised(NotResolvable), false;
    }
    ResolveWrite(store.hashes, id, chosen, now);
    ResolveIsTransition(job, chosen, now);
    var updated := R.Transition(job, Resolving, None, None, ChosenType(chosen), now);
    store.UpdateJob(id, ResolveArguments(updated.value));
    enqueued := enqueueWorks;
    r := if enqueued then Ok(updated.value) else Raised(Failure);
  }
}
