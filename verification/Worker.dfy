/**
 * app/worker/tasks.py in its own shape, on whole records: stages that write the record, rebind the local
 * job and chain into each other, while at every await other writers may do what they like to the record.
 * Each method says outright what the answers of the outside world make of the job, and is proved to
 * follow the pipeline protocol, event by event, so what PipelineSafety, PipelineSnapshot, SpendLedger and
 * RecordRun prove of every run holds of this code.
 */
module Worker {
  import opened Enums
  import opened Options
  import opened Pipeline
  import opened PipelineSafety
  import opened RecordRun
  import opened StageWrites
  import opened TaskOutcome
  import opened TaskWrites
  import opened Transitions
  import opened WorkerRun
  import PollLoop
  import R = JobRecord
  import S = JobStore
  import V = RecordView

  /** The references of all assets in index order, unless one of the puts raises. */
  method PutAssets(puts: seq<Option<string>>) returns (assetRefs: Option<seq<string>>)
    ensures assetRefs.Some? <==> forall i :: 0 <= i < |puts| ==> puts[i].Some?
    ensures assetRefs.Some? ==>
              |assetRefs.value| == |puts| && forall i :: 0 <= i < |puts| ==> puts[i] == Some(assetRefs.value[i])
  {
    var refs: seq<string> := [];
    for i := 0 to |puts|
      invariant |refs| == i
      invariant forall k :: 0 <= k < i ==> puts[k] == Some(refs[k])
    {
      if puts[i].None? {
        return None;
      }
      refs := refs + [puts[i].value];
    }
    assetRefs := Some(refs);
  }

  /** What get_job makes of the key. */
  function ReadKey(k: V.Key): S.Fetched
    requires V.KeyOk(k)
  {
    if k.None? then S.Absent
    else
      var read := R.FromRedisHash(R.ToRedisHash(k.value));
      if read.Some? then S.Found(read.value) else S.Unreadable
  }

  /** One execution of an entry point: the Redis key it works on and the provider it calls. */
  class PipelineTask {
    const answers: Answers
    const fakeDeployment: bool
    const provider: PollLoop.Provider
    /** The time at an await, in microseconds. */
    const clock: nat -> nat

    // what the other writers try at each await of this execution, and the sweepers' own copies
    const others: nat -> seq<(Event, Input)>
    var awaits: nat
    var sweepers: map<nat, R.Job>
    var around: State

    var key: V.Key
    var calls: seq<Call>

    // the protocol's run this execution is part of, and the records in it
    ghost var start: State
    ghost var trace: seq<Event>
    ghost var state: State
    ghost var records: Records
    // how the poll loop of this execution ended, if it ran
    ghost var verdict: PollLoop.Verdict

    ghost predicate OnPath()
      reads this`start, this`trace, this`state, this`records
    {
      Possible(start, trace) && state == Run(start, trace) && state.fakeDeployment == fakeDeployment && Related(state, records)
    }

    /** The fields are those of the protocol, save for a write to the key that it has still to take. */
    ghost predicate Writing(p: R.Patch)
      reads this`start, this`trace, this`state, this`records, this`key, this`calls, this`around, this`sweepers
    {
      && OnPath() && around == Around(state) && state.core.calls == calls && records.sweepers == sweepers
      && key == KeyAfter(records.key, p)
    }

    ghost predicate Valid()
      reads this
    {
      && OnPath() && around == Around(state) && state.core.calls == calls
      && records.sweepers == sweepers && records.key == key
    }

    /** Nobody else has done anything so far. */
    ghost predicate Alone()
      reads this`trace
    {
      forall e :: e in trace ==> !Foreign(e)
    }

    /** Then the key holds the worker's copy. */
    ghost predicate Synced()
      reads this`trace, this`records, this`state
    {
      Alone() ==> InSync(records) && state.core.stored.Full?
    }

    /** The worker stands here, with this job in its hands. */
    ghost predicate At(pc: Pc, job: R.Job)
      reads this`state, this`records
    {
      state.core.worker.Running? && state.core.worker.pc == pc && records.copy == job
    }

    /** ... or has let go of it. */
    ghost predicate Stopped(r: Outcome)
      reads this`state, this`records
    {
      state.core.worker == Idle && (r.Returned? ==> records.copy == r.job)
    }

    ghost function Mine(): seq<TaskEvent>
      reads this`trace
    {
      TaskEvents(trace)
    }

    constructor (answers: Answers, provider: PollLoop.Provider, clock: nat -> nat, others: nat -> seq<(Event, Input)>,
                 key: V.Key, calls: seq<Call>, around: State, sweepers: map<nat, R.Job>, ghost state: State, ghost records: Records)
      requires Related(state, records) && state.core.worker == Idle
      requires around == Around(state) && state.core.calls == calls && records.key == key && records.sweepers == sweepers
      ensures Valid() && this.state == state && this.records == records && start == state && trace == []
      ensures this.answers == answers && fakeDeployment == state.fakeDeployment && this.others == others
      ensures this.provider == provider && this.clock == clock
    {
      this.answers, this.fakeDeployment, this.provider, this.clock := answers, around.fakeDeployment, provider, clock;
      this.others, awaits, this.sweepers, this.around := others, 0, sweepers, around;
      this.key, this.calls := key, calls;
      this.start, this.trace, this.state, this.records := state, [], state, records;
    }

    // -------------------------------------------------------------- what is known of the worker's copy

    lemma CopyFits()
      requires OnPath() && state.core.worker.Running?
      ensures CoreInv(state.core) && CopyOk(records.copy, state.core.worker.job)
      ensures PcMatches(state.core.worker.pc, state.core.worker.job.status)
    {
      hide Run, Possible, CopyOk, KeyFits;
    }

    /** The job's attributes, as the protocol sees them. */
    lemma CopyLooks(job: R.Job)
      requires OnPath() && state.core.worker.Running? && records.copy == job
      ensures R.WellFormed(job) && R.Status in job && job[R.Status].OfStatus?
      ensures state.core.worker.job == V.ViewOf(job) && S.StatusOf(job) == state.core.worker.job.status
      ensures Has(job, R.Status, R.OfStatus(state.core.worker.job.status))
      ensures PcMatches(state.core.worker.pc, state.core.worker.job.status)
    {
      CopyFits();
      assert R.KindOf(R.Status) == R.KStatus && R.Demanded(R.Status);
      hide OnPath, SnapshotWhole;
    }

    lemma KeyFitsStored()
      requires Valid()
      ensures V.KeyOk(key) && KeyFits(key, state.core.stored) && V.StoredAs(key) == state.core.stored
    {
      assert KeyFits(key, state.core.stored);
      hide Run, Possible, CopyOk, Inv, Unsnapped;
    }

    lemma RecordsMirror()
      requires OnPath()
      ensures Mirrors(state, records)
    {
      hide Run, Possible, Inv, Unsnapped, Mirrors;
    }

    /** In step with the worker's copy, the key reads as that copy. */
    lemma SyncedKeyReads()
      requires Valid() && V.KeyOk(key) && InSync(records) && state.core.stored.Full?
      ensures ReadKey(key) == S.Found(R.Truncated(records.copy))
    {
      KeyFitsStored();
      V.KeyReads(key);
      hide OnPath, R.FromRedisHash, R.ToRedisHash, R.Truncated;
    }

    // -------------------------------------------------------------- the run goes on

    /** The protocol takes an event, and the records with it. */
    ghost method Took(e: Event, i: Input)
      requires OnPath() && Enabled(state, e) && InputOk(state, e, i)
      modifies this`state, this`trace, this`records
      ensures OnPath() && trace == old(trace) + [e] && Mirrors(old(state), old(records))
      ensures state == Next(old(state), e) && records == NextRecords(old(state), old(records), e, i)
      ensures Mine() == old(Mine()) + (if e.Task? then [e.e] else [])
      ensures Alone() <==> old(Alone()) && !Foreign(e)
    {
      hide Related, Mirrors, Run, Possible, Next, NextRecords, Enabled, InputOk, TaskEvents;
      RunTakes(start, trace, records, e, i);
      trace := trace + [e];
      records := NextRecords(state, records, e, i);
      state := Next(state, e);
    }

    /** The protocol takes the event that the code has just carried out. */
    ghost method Did(e: TaskEvent, x: Extras)
      requires OnPath() && TaskEnabled(state.core, e) && Synced()
      modifies this`state, this`trace, this`records
      ensures OnPath() && Synced() && Around(state) == old(Around(state))
      ensures state.core == TaskNext(old(state.core), e, fakeDeployment)
      ensures records == TaskRecords(old(state.core), old(records), e, x)
      ensures Mine() == old(Mine()) + [e] && (Alone() <==> old(Alone()))
    {
      assert state.fakeDeployment == fakeDeployment && Mirrors(state, records);
      var i := Input(x, map[]);
      TaskIsStep(state, e, i);
      if InSync(records) && state.core.stored.Full? {
        TaskKeepsInSync(state, records, e, i);
      }
      NextOfTask(state, records, e, i);
      hide OnPath, Inv, TaskNext, TaskEnabled, TaskRecords, NextRecords, InSync, Related, Mirrors, Next, Enabled, InputOk;
      Took(Task(e), i);
    }

    /** An exception escapes the stage. */
    ghost method Stop()
      requires Valid() && Synced() && state.core.worker.Running?
      modifies this`state, this`trace, this`records
      ensures Valid() && Synced() && state.core.worker == Idle && records == old(records)
      ensures Mine() == old(Mine()) + [Crashed] && (Alone() <==> old(Alone()))
    {
      hide OnPath, InSync;
      Did(Crashed, NO_EXTRAS);
    }

    /** One event of another writer. */
    method Meanwhile(e: Event, i: Input)
      requires Valid() && Foreign(e) && V.KeyOk(key)
      requires Enabled(Seen(around, V.StoredAs(key)), e) && InputOk(Seen(around, V.StoredAs(key)), e, i)
      modifies this`sweepers, this`around, this`key, this`state, this`trace, this`records
      ensures Valid() && Mine() == old(Mine()) && !Alone()
      ensures state.core.worker == old(state.core.worker) && records.copy == old(records.copy)
    {
      hide OnPath, Next, Enabled, NextRecords, InputOk, Mirrors, KeyFits, V.KeyOk, V.StoredAs, Seen, Around, Foreign, InSync;
      KeyFitsStored();
      RecordsMirror();
      OtherStep(state, records, key, sweepers, e, i);
      var seen := Seen(around, V.StoredAs(key));
      var next, after := Next(seen, e), NextRecords(seen, Records(key, map[], sweepers), e, i);
      Took(e, i);
      key, sweepers, around := after.key, after.sweepers, Around(next);
    }

    /** An await: the others go on. */
    method Await()
      requires Valid()
      modifies this`awaits, this`sweepers, this`around, this`key, this`state, this`trace, this`records
      ensures Valid() && Mine() == old(Mine())
      ensures state.core.worker == old(state.core.worker) && records.copy == old(records.copy)
      ensures Alone() ==> old(Alone()) && records == old(records) && state.core == old(state.core)
    {
      hide OnPath, Inv, Next, Enabled, InputOk, V.KeyOk, KeyFits, V.StoredAs;
      var tries := others(awaits);
      awaits := awaits + 1;
      for k := 0 to |tries|
        invariant Valid() && Mine() == old(Mine()) && calls == old(calls)
        invariant state.core.worker == old(state.core.worker) && records.copy == old(records.copy)
        invariant Alone() ==> old(Alone()) && records == old(records) && state.core == old(state.core)
      {
        KeyFitsStored();
        var (e, i) := tries[k];
        var seen := Seen(around, V.StoredAs(key));
        if Foreign(e) && Enabled(seen, e) && InputOk(seen, e, i) {
          Meanwhile(e, i);
        }
      }
    }

    // -------------------------------------------------------------- the code

    method UpdateJob(p: R.Patch)
      requires Valid()
      modifies this`awaits, this`sweepers, this`around, this`key, this`state, this`trace, this`records
      ensures Writing(p) && Mine() == old(Mine())
      ensures state.core.worker == old(state.core.worker) && records.copy == old(records.copy)
      ensures Alone() ==> old(Alone()) && records == old(records) && state.core == old(state.core)
    {
      hide OnPath;
      Await();
      key := KeyAfter(key, p);
    }

    /** `_transition_and_persist`: the guard, the new in-memory job, and its fields on whatever the key holds by then. */
    method TransitionAndPersist(job: R.Job, to: JobStatus, error: Option<ErrorCode>, fields: R.Patch) returns (r: Outcome)
      requires Valid() && R.Status in job && job[R.Status].OfStatus? && R.OwnFields(fields)
      modifies this`awaits, this`sweepers, this`around, this`key, this`state, this`trace, this`records
      ensures Mine() == old(Mine()) && state.core.worker == old(state.core.worker) && records.copy == old(records.copy)
      ensures Alone() ==> old(Alone()) && records == old(records) && state.core == old(state.core)
      ensures Guard(job[R.Status].status, to, error).Some? ==> r == Escaped && Valid() && key == old(key)
      ensures Guard(job[R.Status].status, to, error).None? ==>
                && r.Returned? && Became(job, r.job, to, error, fields, clock(old(awaits)))
                && R.Transition(job, to, error, None, fields, clock(old(awaits))) == Ok(r.job)
                && Writing(R.PersistArguments(r.job, fields))
    {
      hide OnPath, Became, R.Replace, R.TransitionUpdates, R.PersistArguments, R.OwnFields, KeyAfter;
      var transitioned := R.Transition(job, to, error, None, fields, clock(awaits));
      if transitioned.Raised? {
        return Escaped;
      }
      UpdatedBecame(job, to, error, fields, clock(awaits));
      UpdateJob(R.PersistArguments(transitioned.value, fields));
      return Returned(transitioned.value);
    }

    /** The protocol takes such a write. */
    ghost method DidWrite(after: R.Job, to: JobStatus, error: Option<ErrorCode>, fields: R.Patch, e: TaskEvent, x: Extras, next: Option<Pc>)
      requires state.core.worker.Running? && Writes(state.core, records.copy, e, x, to, error, fields, next)
      requires Writing(R.PersistArguments(after, fields)) && Synced()
      requires R.Status in records.copy && records.copy[R.Status].OfStatus?
      requires R.Transition(records.copy, to, error, None, fields, x.now) == Ok(after)
      modifies this`state, this`trace, this`records
      ensures Valid() && Synced() && records.copy == after
      ensures if next.Some? then At(next.value, after) else state.core.worker == Idle
      ensures Mine() == old(Mine()) + [e] && (Alone() <==> old(Alone()))
    {
      hide OnPath, InSync, Writes, R.PersistArguments, KeyAfter, R.Transition, TaskNext, TaskRecords, PcMatches;
      hide CoreInv, CopyOk;
      CopyFits();
      WriteGoesOn(state.core, records, e, x, to, error, fields, next, fakeDeployment);
      Did(e, x);
    }

    /** The same as the stages use it, with the protocol's event for it: the guard lets every one of them. */
    method WriteStatus(job: R.Job, to: JobStatus, error: Option<ErrorCode>, fields: R.Patch,
                       ghost e: TaskEvent, ghost x: Extras, ghost next: Option<Pc>)
      returns (r: Outcome)
      requires Valid() && Synced() && state.core.worker.Running? && records.copy == job
      requires Writes(state.core, job, e, x, to, error, fields, next)
      modifies this`awaits, this`sweepers, this`around, this`key, this`state, this`trace, this`records
      ensures Valid() && Synced() && r.Returned? && records.copy == r.job
      ensures Became(job, r.job, to, error, fields, clock(old(awaits)))
      ensures R.OwnFields(fields) && Has(r.job, R.Status, R.OfStatus(to)) && V.StatusAt(r.job) == Some(to)
      ensures (error.Some? ==> Has(r.job, R.Error, R.OfError(error.value))) && (Halts(to) ==> Parked(r.job))
      ensures if next.Some? then At(next.value, r.job) else state.core.worker == Idle
      ensures Mine() == old(Mine()) + [e] && (Alone() ==> old(Alone()))
    {
      hide OnPath, Became, InSync, Writes, Guard, R.PersistArguments, KeyAfter, Terminal, R.Transition, PcMatches;
      hide CoreInv, CopyOk, At;
      hide R.OwnFields, Has, Parked, V.StatusAt, R.Attribute;
      ghost var at := x.(now := clock(awaits));
      CopyFits();
      SameWrite(state.core, state.core, job, e, x, to, error, fields, next);
      WriteFits(state.core, job, e, at, to, error, fields, next);
      ghost var before := state.core;
      r := TransitionAndPersist(job, to, error, fields);
      SameWrite(before, state.core, job, e, x, to, error, fields, next);
      DidWrite(r.job, to, error, fields, e, at, next);
      Lifecycled(job, r.job, to, error, fields, at.now);
    }

    method ClassifyBody(job: R.Job) returns (r: Outcome)
      requires Valid() && Synced() && At(AtClassify, job)
      modifies this`awaits, this`sweepers, this`around, this`key, this`state, this`trace, this`records
      ensures Valid() && Synced() && Mine() == old(Mine()) + [ClassifyEvent(answers)]
      ensures r.Returned? <==> Guessed(answers)
      ensures r.Returned? ==> records.copy == r.job && ClassifiedAs(r.job, answers.classified.value, answers.threshold)
      ensures r.Returned? ==> Attempts(r.job) == Attempts(job) && R.Attribute(r.job, R.Mock) == R.Attribute(job, R.Mock)
      ensures r.Returned? && !SureOfJewelry(answers) ==> Parked(r.job)
      ensures if SureOfJewelry(answers) then r.Returned? && At(AtResolve, r.job) else state.core.worker == Idle
    {
      hide OnPath, InSync, Became, Writes, TaskNext, V.ViewOf, PcMatches, Attempts, Parked, Terminal, S.StatusOf;
      hide R.WellFormed, R.OwnFields, V.StatusAt;
      CopyLooks(job);
      if answers.classified.None? || answers.classified.value.predictions == [] {
        Stop();
        return Escaped;
      }
      var result := answers.classified.value;
      var candidateTypes := CandidatesOf(result.predictions);
      var top := result.predictions[0];
      ghost var x := NO_EXTRAS.(confidence := top.confidence, candidates := candidateTypes);
      ClassifyWrites(state.core, job, top.jewelryType, x);
      var guess: R.Patch := map[R.Confidence := Some(R.Float(top.confidence)), R.CandidateTypes := Some(R.Data(R.Candidates(candidateTypes)))];
      var typed: R.Patch := map[R.JewelryTypeFinal := Some(R.OfType(top.jewelryType)), R.TypeSource := Some(R.OfSource(Classified))];
      hide CandidatesOf, R.Attribute, Has;
      ghost var at := clock(awaits);
      if !result.isJewelry {
        r := WriteStatus(job, Failed, Some(NotJewelry), guess, ClassifyEnded(NotJewelryFound), x, None);
        GuessKept(job, r.job, Failed, Some(NotJewelry), guess, at, x);
      } else if top.confidence >= answers.threshold {
        r := WriteStatus(job, Resolving, None, typed + guess, ClassifyEnded(Confident(top.jewelryType)), x, Some(AtResolve));
        GuessKept(job, r.job, Resolving, None, typed + guess, at, x);
        TypeKept(job, r.job, typed + guess, at, top.jewelryType, Classified);
      } else {
        r := WriteStatus(job, NeedsInput, Some(LowConfidence), guess, ClassifyEnded(Unsure), x, None);
        GuessKept(job, r.job, NeedsInput, Some(LowConfidence), guess, at, x);
      }
    }

    method ResolveAndSubmit(job: R.Job) returns (r: Outcome)
      requires Valid() && Synced() && At(AtResolve, job)
      modifies this`awaits, this`sweepers, this`around, this`key, this`state, this`trace, this`records, this`calls, this`verdict, provider
      ensures Valid() && Synced() && Stopped(r)
      ensures Mine() == old(Mine()) + ResolveEvents(V.TypeAt(job, R.JewelryTypeFinal), answers, verdict)
      ensures var typed := V.TypeAt(job, R.JewelryTypeFinal).Some?;
              && (r.Returned? <==> typed && ResolveReturns(answers))
              && Called(old(calls), calls, typed && Sends(answers), job, answers, fakeDeployment)
      ensures r.Returned? ==> Parked(r.job) && ResolvedAs(r.job, Attempts(job), answers, verdict)
    {
      hide OnPath, InSync, Became, Writes, TaskNext, V.ViewOf, PcMatches, Attempts, Parked, Terminal, S.StatusOf;
      hide R.WellFormed, R.OwnFields, V.StatusAt, SubmitEvents, SubmittedAs, SnapshotTaken, IsCall, Has, V.TypeAt;
      hide R.Attribute;
      CopyLooks(job);
      if V.TypeAt(job, R.JewelryTypeFinal).None? {
        Untyped(job, ResolveFailed(Miss));
        return Escaped;
      }
      LookupWrites(state.core, job, NO_EXTRAS);
      match answers.lookup
      case LookupRaised =>
        Stop();
        return Escaped;
      case MatrixDown =>
        r := WriteStatus(job, Failed, Some(MatrixUnavailable), map[], ResolveFailed(Unavailable), NO_EXTRAS, None);
      case NotFound =>
        r := WriteStatus(job, Failed, Some(MatrixMiss), map[], ResolveFailed(Miss), NO_EXTRAS, None);
      case Found(row) =>
        if answers.version.None? {
          Stop();
          return Escaped;
        }
        r := SnapshotAndSubmit(job, row, answers.version.value);
    }

    /** The write that fixes what will be sent, and with it the point of no return. */
    method SnapshotAndSubmit(job: R.Job, row: Row, version: string) returns (r: Outcome)
      requires Valid() && Synced() && At(AtResolve, job) && V.TypeAt(job, R.JewelryTypeFinal).Some?
      requires answers.lookup == Found(row) && answers.version == Some(version)
      modifies this`awaits, this`sweepers, this`around, this`key, this`state, this`trace, this`records, this`calls, this`verdict, provider
      ensures Valid() && Synced() && Stopped(r)
      ensures Mine() == old(Mine()) + ([TaskEvent.Resolved(Snapshot(row, version)), SnapshotWritten] + SubmitEvents(answers, verdict))
      ensures r.Returned? <==> answers.sourceReadable
      ensures Called(old(calls), calls, answers.sourceReadable, job, answers, fakeDeployment)
      ensures r.Returned? ==> Parked(r.job) && SnapshotTaken(r.job, row, version) && SubmittedAs(r.job, Attempts(job), answers, verdict)
      ensures !r.Returned? ==> SnapshotTaken(records.copy, row, version) && LeftSubmitting()
    {
      hide OnPath, InSync, Became, Writes, TaskNext, V.ViewOf, PcMatches, Attempts, Parked, Terminal, S.StatusOf;
      hide R.WellFormed, R.OwnFields, V.StatusAt, SubmitEvents, SubmittedAs, SnapshotTaken, R.Attribute;
      var submitting := TakeSnapshot(job, row, version);
      r := Submit(submitting, row, version);
      hide Has;
    }

    method TakeSnapshot(job: R.Job, row: Row, version: string) returns (submitting: R.Job)
      requires Valid() && Synced() && At(AtResolve, job) && V.TypeAt(job, R.JewelryTypeFinal).Some?
      modifies this`awaits, this`sweepers, this`around, this`key, this`state, this`trace, this`records
      ensures Valid() && Synced() && At(AtToken, submitting)
      ensures Mine() == old(Mine()) + [TaskEvent.Resolved(Snapshot(row, version)), SnapshotWritten]
      ensures SnapshotTaken(submitting, row, version) && Has(submitting, R.Status, R.OfStatus(Submitting))
      ensures Attempts(submitting) == Attempts(job) && R.Attribute(submitting, R.Mock) == R.Attribute(job, R.Mock)
    {
      hide OnPath, InSync, Became, Writes, TaskNext, V.ViewOf, PcMatches, Attempts, Parked, Terminal, S.StatusOf;
      hide R.WellFormed, R.OwnFields, V.StatusAt, SnapshotTaken, SnapshotKeywords, R.Attribute, Has, V.TypeAt;
      Resolved(job, Snapshot(row, version));
      CopyLooks(job);
      SnapshotWrites(state.core, job, row, version, NO_EXTRAS);
      ghost var at := clock(awaits);
      var fields := SnapshotKeywords(row, version);
      var r := WriteStatus(job, Submitting, None, fields, SnapshotWritten, NO_EXTRAS, Some(AtToken));
      SnapshotWrittenIsTaken(job, r.job, row, version, at);
      NoCountInSnapshot(row, version);
      CountAndMockKept(job, r.job, Submitting, None, fields, at);
      submitting := r.job;
    }

    /** The lookup has found a row and its version. */
    ghost method Resolved(job: R.Job, snapshot: Snapshot)
      requires Valid() && Synced() && At(AtResolve, job) && V.TypeAt(job, R.JewelryTypeFinal).Some?
      modifies this`state, this`trace, this`records
      ensures Valid() && Synced() && At(AtSnapshot(snapshot), job) && (Alone() <==> old(Alone()))
      ensures Mine() == old(Mine()) + [TaskEvent.Resolved(snapshot)]
    {
      CopyLooks(job);
      ViewFinal(job);
      hide OnPath, InSync, PcMatches, V.ViewOf, V.TypeAt, TaskNext, TaskRecords, TaskEnabled, S.StatusOf, R.WellFormed;
      ResolvedGoesOn(state.core, snapshot, fakeDeployment);
      Did(TaskEvent.Resolved(snapshot), NO_EXTRAS);
    }

    /** R2: an execution that gets no further leaves the job submitting, with its token, for the next one to park. */
    ghost predicate LeftSubmitting()
      reads this`records
    {
      Has(records.copy, R.Status, R.OfStatus(Submitting)) && Has(records.copy, R.SubmissionToken, R.Str(answers.token))
    }

    method Submit(submitting: R.Job, ghost row: Row, ghost version: string) returns (r: Outcome)
      requires Valid() && Synced() && At(AtToken, submitting) && Has(submitting, R.Status, R.OfStatus(Submitting))
      requires SnapshotTaken(submitting, row, version) && answers.lookup == Found(row)
      modifies this`awaits, this`sweepers, this`around, this`key, this`state, this`trace, this`records, this`calls, this`verdict, provider
      ensures Valid() && Synced() && Stopped(r) && Mine() == old(Mine()) + SubmitEvents(answers, verdict)
      ensures r.Returned? <==> answers.sourceReadable
      ensures Called(old(calls), calls, answers.sourceReadable, submitting, answers, fakeDeployment)
      ensures r.Returned? ==>
                Parked(r.job) && SnapshotTaken(r.job, row, version) && SubmittedAs(r.job, Attempts(submitting), answers, verdict)
      ensures !r.Returned? ==> SnapshotTaken(records.copy, row, version) && LeftSubmitting()
    {
      hide OnPath, InSync, Became, Writes, TaskNext, V.ViewOf, PcMatches, Attempts, Parked, Terminal, S.StatusOf;
      hide R.WellFormed, R.OwnFields, V.StatusAt, CallEvents, SubmittedAs, SnapshotTaken, R.Attribute;
      var job := StoreToken(submitting, row, version);
      if !answers.sourceReadable {
        Stop();
        return Escaped;
      }
      CallProvider(job, row, version);
      r := FinishSubmit(job, row, version);
      hide Has;
    }

    /** The submission token is stored before the provider hears of it. */
    method StoreToken(submitting: R.Job, ghost row: Row, ghost version: string) returns (job: R.Job)
      requires Valid() && Synced() && At(AtToken, submitting) && Has(submitting, R.Status, R.OfStatus(Submitting))
      requires SnapshotTaken(submitting, row, version)
      modifies this`awaits, this`sweepers, this`around, this`key, this`state, this`trace, this`records
      ensures Valid() && Synced() && At(AtSubmit, job) && Mine() == old(Mine()) + [TokenWritten(answers.token)]
      ensures Has(job, R.SubmissionToken, R.Str(answers.token)) && Has(job, R.Status, R.OfStatus(Submitting))
      ensures SnapshotTaken(job, row, version)
      ensures Attempts(job) == Attempts(submitting) && R.Attribute(job, R.Mock) == R.Attribute(submitting, R.Mock)
    {
      hide OnPath, InSync, SnapshotTaken, Attempts, R.Attribute, Has, KeyAfter, R.Replace;
      var fields := map[R.SubmissionToken := Some(R.Str(answers.token))];
      TokenReplaced(submitting, answers.token, row, version);
      UpdateJob(fields);
      job := R.Replace(submitting, fields);
      Did(TokenWritten(answers.token), NO_EXTRAS);
    }

    /** provider.submit, with what the job's copy holds. */
    method CallProvider(job: R.Job, ghost row: Row, ghost version: string)
      requires Valid() && Synced() && At(AtSubmit, job)
      requires SnapshotTaken(job, row, version) && Has(job, R.SubmissionToken, R.Str(answers.token)) && answers.lookup == Found(row)
      modifies this`awaits, this`sweepers, this`around, this`key, this`state, this`trace, this`records, this`calls
      ensures Valid() && Synced() && Mine() == old(Mine()) + [ProviderCalled(answers.submit)]
      ensures At(if answers.submit.SubmitRaised? then AtSubmitRaised else AtSubmitted(answers.submit.id), job)
      ensures Called(old(calls), calls, true, job, answers, fakeDeployment)
    {
      hide OnPath, InSync, KeyFits, V.KeyOk, PcMatches, V.StoredAs, SnapshotTaken, V.ViewOf, V.StrAt, V.ParamsAt;
      hide IsCall, Submission;
      Await();
      KeyFitsStored();
      CopyLooks(job);
      var call := Call(answers.token, V.StrAt(job, R.PromptSnapshot).GetOr(""), V.StrAt(job, R.ReferenceUrlSnapshot).GetOr(""),
                       V.StrAt(job, R.NegativePromptSnapshot), V.ParamsAt(job),
                       !Has(job, R.Mock, R.Bool(true)) && !fakeDeployment, V.StoredAs(key));
      CallIsSubmission(job, call, row, version, answers, fakeDeployment, state.core.stored);
      hide Has, R.Attribute, TaskNext, TaskEnabled, TaskRecords, R.WellFormed, S.StatusOf;
      CalledGoesOn(state.core, answers.submit, fakeDeployment);
      calls := calls + [call];
      Did(ProviderCalled(answers.submit), NO_EXTRAS);
    }

    /** What `_submit` does with the provider's answer: park a raise for review, poll a submission. */
    method FinishSubmit(job: R.Job, ghost row: Row, ghost version: string) returns (r: Outcome)
      requires Valid() && Synced() && SnapshotTaken(job, row, version) && Has(job, R.SubmissionToken, R.Str(answers.token))
      requires At(if answers.submit.SubmitRaised? then AtSubmitRaised else AtSubmitted(answers.submit.id), job)
      modifies this`awaits, this`sweepers, this`around, this`key, this`state, this`trace, this`records, this`verdict, provider
      ensures Valid() && Synced() && Stopped(r) && Mine() == old(Mine()) + CallEvents(answers, verdict)
      ensures r.Returned? && Parked(r.job) && SnapshotTaken(r.job, row, version) && SubmittedAs(r.job, Attempts(job), answers, verdict)
    {
      hide OnPath, InSync, Became, Writes, TaskNext, V.ViewOf, PcMatches, Attempts, Parked, Terminal, S.StatusOf;
      hide R.WellFormed, R.OwnFields, V.StatusAt, PollEvents, PolledAs, SnapshotTaken, R.Attribute, Has;
      hide KeepsSubmission;
      CopyLooks(job);
      ghost var at := clock(awaits);
      match answers.submit
      case SubmitRaised =>
        SubmitWrites(state.core, job, NO_EXTRAS);
        r := WriteStatus(job, NeedsReview, Some(OrphanedSubmit), map[], RaiseParked, NO_EXTRAS, None);
        SubmissionKept(job, r.job, NeedsReview, Some(OrphanedSubmit), map[], at);
        KeptHandles(job, r.job, row, version, answers.token);
      case SubmitOk(id) =>
        var fields := map[R.ProviderJobId := Some(R.Str(id)), R.Provider := Some(R.Str(answers.providerName))];
        SubmitWrites(state.core, job, NO_EXTRAS.(provider := answers.providerName));
        r := WriteStatus(job, Generating, None, fields, SubmissionRecorded, NO_EXTRAS.(provider := answers.providerName), Some(AtPoll));
        var generating := r.job;
        SubmissionKnown(job, generating, fields, at, row, version, answers.token, id, answers.providerName);
        r := Poll(generating);
        KeptHandles(generating, r.job, row, version, answers.token);
        KeptId(generating, r.job, id, answers.providerName);
    }

    method AwaitVerdict(deadline: nat) returns (ended: PollLoop.Verdict)
      modifies this`verdict, provider
      ensures ended == verdict && Decided(verdict, provider, deadline, old(provider.now), old(provider.polls))
    {
      var seen, _ := PollLoop.Poll(provider, deadline);
      ended := seen;
      verdict := ended;
    }

    method Poll(job: R.Job) returns (r: Outcome)
      requires Valid() && Synced() && At(AtPoll, job)
      modifies this`awaits, this`sweepers, this`around, this`key, this`state, this`trace, this`records, this`verdict, provider
      ensures Valid() && Synced() && Stopped(r) && Mine() == old(Mine()) + PollEvents(answers, verdict)
      ensures r.Returned? <==> V.StrAt(job, R.ProviderJobId).Some?
      ensures r.Returned? ==>
                R.WellFormed(job) && Decided(verdict, provider, S.DeadlineOf(job) / 1000, old(provider.now), old(provider.polls))
      ensures r.Returned? ==> Parked(r.job) && PolledAs(r.job, Attempts(job), answers, verdict) && KeepsSubmission(job, r.job)
      ensures r.Returned? && verdict == PollLoop.LeftGenerating ==> r.job == job
    {
      hide OnPath, InSync, Became, Writes, TaskNext, V.ViewOf, PcMatches, Attempts, Parked, Terminal, S.StatusOf;
      hide R.WellFormed, R.OwnFields, V.StatusAt, StoreEvents, Decided, PolledAs, KeepsSubmission, V.StrAt;
      hide S.DeadlineOf, R.Attribute, Has;
      CopyLooks(job);
      if V.StrAt(job, R.ProviderJobId).None? {
        verdict := PollLoop.LeftGenerating;
        Untyped(job, PollEnded(PollEnd.LeftGenerating));
        return Escaped;
      }
      var ended := AwaitVerdict(S.DeadlineOf(job) / 1000);
      r := ActOn(job, ended);
    }

    /** What the poll stage does once its loop has ended. */
    method ActOn(job: R.Job, ended: PollLoop.Verdict) returns (r: Outcome)
      requires Valid() && Synced() && At(AtPoll, job) && V.StrAt(job, R.ProviderJobId).Some?
      modifies this`awaits, this`sweepers, this`around, this`key, this`state, this`trace, this`records
      ensures Valid() && Synced() && Stopped(r) && Mine() == old(Mine()) + PollEvents(answers, ended)
      ensures r.Returned? && Parked(r.job) && PolledAs(r.job, Attempts(job), answers, ended) && KeepsSubmission(job, r.job)
      ensures ended == PollLoop.LeftGenerating ==> r.job == job
    {
      hide OnPath, InSync, Became, Writes, TaskNext, V.ViewOf, PcMatches, Attempts, Parked, Terminal, S.StatusOf;
      hide R.WellFormed, R.OwnFields, V.StatusAt, StoreEvents, StoredAs, R.Attribute, Has, KeepsSubmission, V.StrAt;
      match ended
      case Succeeded =>
        r := StoreNext(job);
      case Failed =>
        r := CountFailure(job);
      case LeftGenerating =>
        LeaveGenerating(job);
        r := Returned(job);
    }

    method StoreNext(job: R.Job) returns (r: Outcome)
      requires Valid() && Synced() && At(AtPoll, job) && V.StrAt(job, R.ProviderJobId).Some?
      modifies this`awaits, this`sweepers, this`around, this`key, this`state, this`trace, this`records
      ensures Valid() && Synced() && Stopped(r) && Mine() == old(Mine()) + ([PollEnded(PollSucceeded)] + StoreEvents(answers))
      ensures r.Returned? && Parked(r.job) && StoredAs(r.job, answers) && KeepsSubmission(job, r.job)
    {
      hide OnPath, InSync, Became, Writes, TaskNext, V.ViewOf, PcMatches, Attempts, Parked, Terminal, S.StatusOf;
      hide R.WellFormed, R.OwnFields, V.StatusAt, StoreEvents, StoredAs, R.Attribute, Has, KeepsSubmission, V.StrAt;
      CopyLooks(job);
      PollWrites(state.core, job, NO_EXTRAS);
      ghost var at := clock(awaits);
      r := WriteStatus(job, Storing, None, map[], PollEnded(PollSucceeded), NO_EXTRAS, Some(AtStore));
      var storing := r.job;
      SubmissionKept(job, storing, Storing, None, map[], at);
      KeptIdStays(job, storing);
      r := Store(storing);
      KeptTwice(job, storing, r.job);
    }

    /** The provider has failed: that is final, and counted. */
    method CountFailure(job: R.Job) returns (r: Outcome)
      requires Valid() && Synced() && At(AtPoll, job) && V.StrAt(job, R.ProviderJobId).Some?
      modifies this`awaits, this`sweepers, this`around, this`key, this`state, this`trace, this`records
      ensures Valid() && Synced() && Stopped(r) && Mine() == old(Mine()) + [PollEnded(PollFailed)]
      ensures r.Returned? && Parked(r.job) && Ends(r.job, JobStatus.Failed, ProviderError) && KeepsSubmission(job, r.job)
      ensures Has(r.job, R.AttemptCount, R.Int(Attempts(job) + 1))
    {
      hide OnPath, InSync, Became, Writes, TaskNext, V.ViewOf, PcMatches, Attempts, Parked, Terminal, S.StatusOf;
      hide R.WellFormed, R.OwnFields, V.StatusAt, R.Attribute, Has, KeepsSubmission, V.StrAt;
      CopyLooks(job);
      PollWrites(state.core, job, NO_EXTRAS);
      ghost var at := clock(awaits);
      var fields: R.Patch := map[R.AttemptCount := Some(R.Int(Attempts(job) + 1))];
      r := WriteStatus(job, JobStatus.Failed, Some(ProviderError), fields, PollEnded(PollFailed), NO_EXTRAS, None);
      FieldWritten(job, r.job, JobStatus.Failed, Some(ProviderError), fields, at, R.AttemptCount);
      HasWritten(r.job, R.AttemptCount, R.Int(Attempts(job) + 1));
      SubmissionKept(job, r.job, JobStatus.Failed, Some(ProviderError), fields, at);
    }

    lemma PollIsGenerating(job: R.Job)
      requires OnPath() && At(AtPoll, job)
      ensures Has(job, R.Status, R.OfStatus(Generating))
    {
      hide OnPath, Has, V.ViewOf, R.WellFormed, S.StatusOf, R.Attribute;
      CopyLooks(job);
    }

    ghost method LeaveGenerating(job: R.Job)
      requires Valid() && Synced() && At(AtPoll, job) && V.StrAt(job, R.ProviderJobId).Some?
      modifies this`state, this`trace, this`records
      ensures Valid() && Synced() && state.core.worker == Idle && records == old(records) && (Alone() <==> old(Alone()))
      ensures Mine() == old(Mine()) + [PollEnded(PollEnd.LeftGenerating)]
      ensures Has(job, R.Status, R.OfStatus(Generating)) && Parked(job) && KeepsSubmission(job, job)
    {
      hide OnPath, InSync, PcMatches, V.ViewOf, V.StrAt, TaskNext, TaskRecords, TaskEnabled, S.StatusOf, R.WellFormed;
      hide Parked;
      hide KeepsSubmission, Has, R.Attribute;
      PollIsGenerating(job);
      CopyLooks(job);
      ViewFinal(job);
      GeneratingIsParked(job);
      LeftGoesOn(state.core, fakeDeployment);
      Did(PollEnded(PollEnd.LeftGenerating), NO_EXTRAS);
    }

    method Store(job: R.Job) returns (r: Outcome)
      requires Valid() && Synced() && At(AtStore, job)
      modifies this`awaits, this`sweepers, this`around, this`key, this`state, this`trace, this`records
      ensures Valid() && Synced() && Stopped(r) && Mine() == old(Mine()) + StoreEvents(answers)
      ensures r.Returned? <==> V.StrAt(job, R.ProviderJobId).Some?
      ensures r.Returned? ==> Parked(r.job) && StoredAs(r.job, answers) && KeepsSubmission(job, r.job)
    {
      hide OnPath, InSync, Became, Writes, TaskNext, V.ViewOf, PcMatches, Attempts, Parked, Terminal, S.StatusOf;
      hide R.WellFormed, R.OwnFields, V.StatusAt, R.Attribute, Has, KeepsSubmission, V.StrAt, StoredAs;
      CopyLooks(job);
      if V.StrAt(job, R.ProviderJobId).None? {
        Untyped(job, StoreEnded(AssetsStored(answers)));
        return Escaped;
      }
      var assetRefs: Option<seq<string>> := None;
      if answers.assets.Some? {
        assetRefs := PutAssets(answers.assets.value);
      }
      assert assetRefs.Some? == AssetsStored(answers);
      if assetRefs.Some? {
        r := KeepRefs(job, assetRefs.value);
      } else {
        r := FailStorage(job);
      }
    }

    method KeepRefs(job: R.Job, assetRefs: seq<string>) returns (r: Outcome)
      requires Valid() && Synced() && At(AtStore, job) && V.StrAt(job, R.ProviderJobId).Some?
      requires AssetsStored(answers) && |assetRefs| == |answers.assets.value|
      requires forall i :: 0 <= i < |assetRefs| ==> answers.assets.value[i] == Some(assetRefs[i])
      modifies this`awaits, this`sweepers, this`around, this`key, this`state, this`trace, this`records
      ensures Valid() && Synced() && Stopped(r) && Mine() == old(Mine()) + [StoreEnded(true)]
      ensures r.Returned? && Parked(r.job) && StoredAs(r.job, answers) && KeepsSubmission(job, r.job)
    {
      hide OnPath, InSync, Became, Writes, TaskNext, V.ViewOf, PcMatches, Attempts, Parked, Terminal, S.StatusOf;
      hide R.WellFormed, R.OwnFields, V.StatusAt, R.Attribute, Has, KeepsSubmission, V.StrAt, StoredAs, AssetsStored;
      CopyLooks(job);
      ghost var at := clock(awaits);
      var fields: R.Patch := map[R.AssetRefs := Some(R.Data(R.Refs(assetRefs)))];
      StoreWrites(state.core, job, NO_EXTRAS.(assets := assetRefs));
      r := WriteStatus(job, Succeeded, None, fields, StoreEnded(true), NO_EXTRAS.(assets := assetRefs), None);
      FieldWritten(job, r.job, Succeeded, None, fields, at, R.AssetRefs);
      RefsStored(r.job, assetRefs, answers);
      SubmissionKept(job, r.job, Succeeded, None, fields, at);
    }

    method FailStorage(job: R.Job) returns (r: Outcome)
      requires Valid() && Synced() && At(AtStore, job) && V.StrAt(job, R.ProviderJobId).Some? && !AssetsStored(answers)
      modifies this`awaits, this`sweepers, this`around, this`key, this`state, this`trace, this`records
      ensures Valid() && Synced() && Stopped(r) && Mine() == old(Mine()) + [StoreEnded(false)]
      ensures r.Returned? && Parked(r.job) && StoredAs(r.job, answers) && KeepsSubmission(job, r.job)
    {
      hide OnPath, InSync, Became, Writes, TaskNext, V.ViewOf, PcMatches, Attempts, Parked, Terminal, S.StatusOf;
      hide R.WellFormed, R.OwnFields, V.StatusAt, R.Attribute, Has, KeepsSubmission, V.StrAt, StoredAs, AssetsStored;
      CopyLooks(job);
      ghost var at := clock(awaits);
      StoreWrites(state.core, job, NO_EXTRAS);
      r := WriteStatus(job, Failed, Some(StorageError), map[], StoreEnded(false), NO_EXTRAS, None);
      NothingStored(r.job, answers);
      SubmissionKept(job, r.job, Failed, Some(StorageError), map[], at);
    }

    /** An assert at the start of a stage fails: the exception escapes. */
    ghost method Untyped(job: R.Job, e: TaskEvent)
      requires Valid() && Synced() && state.core.worker.Running? && records.copy == job && TaskEnabled(state.core, e)
      requires (e.ResolveFailed? && V.TypeAt(job, R.JewelryTypeFinal).None?)
               || ((e.PollEnded? || e.StoreEnded?) && V.StrAt(job, R.ProviderJobId).None?)
      modifies this`state, this`trace, this`records
      ensures Valid() && Synced() && state.core.worker == Idle && records == old(records)
      ensures Mine() == old(Mine()) + [e] && (Alone() <==> old(Alone()))
    {
      CopyLooks(job);
      hide OnPath, InSync, PcMatches;
      Did(e, NO_EXTRAS);
    }

    method ClassifyThenResolve(job: R.Job) returns (r: Outcome)
      requires Valid() && Synced() && At(AtClassify, job)
      modifies this`awaits, this`sweepers, this`around, this`key, this`state, this`trace, this`records, this`calls, this`verdict, provider
      ensures Valid() && Synced() && Stopped(r) && Mine() == old(Mine()) + ClassifyEvents(answers, verdict)
      ensures r.Returned? <==> Guessed(answers) && (SureOfJewelry(answers) ==> ResolveReturns(answers))
      ensures Called(old(calls), calls, SureOfJewelry(answers) && Sends(answers), job, answers, fakeDeployment)
      ensures r.Returned? ==> Parked(r.job)
      ensures r.Returned? && !SureOfJewelry(answers) ==> ClassifiedAs(r.job, answers.classified.value, answers.threshold)
      ensures r.Returned? && SureOfJewelry(answers) ==> ResolvedAs(r.job, Attempts(job), answers, verdict)
    {
      hide OnPath, InSync, ResolveEvents, ResolvedAs, ResolveReturns, Sends, Attempts, Parked, CandidatesOf;
      r := ClassifyBody(job);
      if r.Returned? && V.StatusAt(r.job) == Some(Resolving) {
        r := ResolveAndSubmit(r.job);
      }
    }

    /** R11: a type the client gave skips classification. */
    method DispatchTyped(job: R.Job, requested: JewelryType) returns (r: Outcome)
      requires Valid() && Synced() && At(AtDispatch, job) && V.StatusAt(job) == Some(Queued)
      requires V.TypeAt(job, R.JewelryTypeRequested) == Some(requested)
      modifies this`awaits, this`sweepers, this`around, this`key, this`state, this`trace, this`records, this`calls, this`verdict, provider
      ensures Valid() && Synced() && Stopped(r) && Mine() == old(Mine()) + DispatchEvents(V.ViewOf(job), answers, verdict)
      ensures r.Returned? <==> DispatchReturns(job, answers)
      ensures Called(old(calls), calls, DispatchSends(job, answers), job, answers, fakeDeployment)
      ensures r.Returned? ==> Parked(r.job) && DispatchedAs(job, r.job, answers, verdict)
    {
      hide OnPath, InSync, Became, Writes, TaskNext, V.ViewOf, PcMatches, Attempts, Parked, S.StatusOf, R.WellFormed;
      hide V.StatusAt, Has, R.Attribute;
      hide ResolveEvents, ClassifyEvents, ResolvedAs, ClassifiedAs, ResolveReturns, Sends, Called, SureOfJewelry;
      hide Guessed, V.TypeAt;
      hide DispatchReturns, DispatchSends, DispatchedAs, DispatchEvents;
      var resolving := TakeType(job, requested);
      r := ResolveAndSubmit(resolving);
      CalledForSame(old(calls), calls, Sends(answers), resolving, job, answers, fakeDeployment);
      DispatchMeans(job, answers, verdict);
      if r.Returned? {
        DispatchLeaves(job, r, answers, verdict);
      }
    }

    method DispatchUntyped(job: R.Job) returns (r: Outcome)
      requires Valid() && Synced() && At(AtDispatch, job) && V.StatusAt(job) == Some(Queued)
      requires V.TypeAt(job, R.JewelryTypeRequested).None?
      modifies this`awaits, this`sweepers, this`around, this`key, this`state, this`trace, this`records, this`calls, this`verdict, provider
      ensures Valid() && Synced() && Stopped(r) && Mine() == old(Mine()) + DispatchEvents(V.ViewOf(job), answers, verdict)
      ensures r.Returned? <==> DispatchReturns(job, answers)
      ensures Called(old(calls), calls, DispatchSends(job, answers), job, answers, fakeDeployment)
      ensures r.Returned? ==> Parked(r.job) && DispatchedAs(job, r.job, answers, verdict)
    {
      hide OnPath, InSync, Became, Writes, TaskNext, V.ViewOf, PcMatches, Attempts, Parked, S.StatusOf, R.WellFormed;
      hide V.StatusAt, Has, R.Attribute;
      hide ResolveEvents, ClassifyEvents, ResolvedAs, ClassifiedAs, ResolveReturns, Sends, Called, SureOfJewelry;
      hide Guessed, V.TypeAt;
      hide DispatchReturns, DispatchSends, DispatchedAs, DispatchEvents;
      var classifying := StartClassifying(job);
      r := ClassifyThenResolve(classifying);
      CalledForSame(old(calls), calls, SureOfJewelry(answers) && Sends(answers), classifying, job, answers, fakeDeployment);
      DispatchMeans(job, answers, verdict);
      if r.Returned? {
        DispatchLeaves(job, r, answers, verdict);
      }
    }

    method TakeType(job: R.Job, requested: JewelryType) returns (resolving: R.Job)
      requires Valid() && Synced() && At(AtDispatch, job) && V.StatusAt(job) == Some(Queued)
      requires V.TypeAt(job, R.JewelryTypeRequested) == Some(requested)
      modifies this`awaits, this`sweepers, this`around, this`key, this`state, this`trace, this`records
      ensures Valid() && Synced() && At(AtResolve, resolving) && Mine() == old(Mine()) + [Dispatched]
      ensures Has(resolving, R.Status, R.OfStatus(Resolving)) && Has(resolving, R.TypeSource, R.OfSource(Provided))
      ensures V.TypeAt(resolving, R.JewelryTypeFinal) == Some(requested)
      ensures Attempts(resolving) == Attempts(job) && R.Attribute(resolving, R.Mock) == R.Attribute(job, R.Mock)
    {
      hide OnPath, InSync, Became, Writes, TaskNext, V.ViewOf, PcMatches, Attempts, Parked, Terminal, S.StatusOf;
      hide R.WellFormed, R.OwnFields, V.StatusAt, R.Attribute, Has, V.TypeAt;
      CopyLooks(job);
      DispatchWrites(state.core, job, NO_EXTRAS);
      ghost var at := clock(awaits);
      var fields: R.Patch := map[R.JewelryTypeFinal := Some(R.OfType(requested)), R.TypeSource := Some(R.OfSource(Provided))];
      var r := WriteStatus(job, Resolving, None, fields, Dispatched, NO_EXTRAS, Some(AtResolve));
      TypeKept(job, r.job, fields, at, requested, Provided);
      CountAndMockKept(job, r.job, Resolving, None, fields, at);
      resolving := r.job;
    }

    method StartClassifying(job: R.Job) returns (classifying: R.Job)
      requires Valid() && Synced() && At(AtDispatch, job) && V.StatusAt(job) == Some(Queued)
      requires V.TypeAt(job, R.JewelryTypeRequested).None?
      modifies this`awaits, this`sweepers, this`around, this`key, this`state, this`trace, this`records
      ensures Valid() && Synced() && At(AtClassify, classifying) && Mine() == old(Mine()) + [Dispatched]
      ensures Has(classifying, R.Status, R.OfStatus(Classifying))
      ensures Attempts(classifying) == Attempts(job) && R.Attribute(classifying, R.Mock) == R.Attribute(job, R.Mock)
    {
      hide OnPath, InSync, Became, Writes, TaskNext, V.ViewOf, PcMatches, Attempts, Parked, Terminal, S.StatusOf;
      hide R.WellFormed, R.OwnFields, V.StatusAt, R.Attribute, Has, V.TypeAt;
      CopyLooks(job);
      DispatchWrites(state.core, job, NO_EXTRAS);
      ghost var at := clock(awaits);
      var r := WriteStatus(job, Classifying, None, map[], Dispatched, NO_EXTRAS, Some(AtClassify));
      CountAndMockKept(job, r.job, Classifying, None, map[], at);
      classifying := r.job;
    }

    /** A stage that has not yet prepared its call is taken up again. */
    method ResumeEarly(job: R.Job) returns (r: Outcome)
      requires Valid() && Synced() && At(AtDispatch, job)
      requires V.StatusAt(job) == Some(Classifying) || V.StatusAt(job) == Some(Resolving)
      modifies this`awaits, this`sweepers, this`around, this`key, this`state, this`trace, this`records, this`calls, this`verdict, provider
      ensures Valid() && Synced() && Stopped(r) && Mine() == old(Mine()) + DispatchEvents(V.ViewOf(job), answers, verdict)
      ensures r.Returned? <==> DispatchReturns(job, answers)
      ensures Called(old(calls), calls, DispatchSends(job, answers), job, answers, fakeDeployment)
      ensures r.Returned? ==> Parked(r.job) && DispatchedAs(job, r.job, answers, verdict)
    {
      hide OnPath, InSync, Became, Writes, TaskNext, V.ViewOf, PcMatches, Attempts, Parked, S.StatusOf, R.WellFormed;
      hide V.StatusAt, Has, R.Attribute;
      hide ResolveEvents, ClassifyEvents, ResolvedAs, ClassifiedAs, ResolveReturns, Sends, Called, SureOfJewelry;
      hide Guessed, V.TypeAt;
      hide DispatchReturns, DispatchSends, DispatchedAs, DispatchEvents;
      Resume(job);
      if V.StatusAt(job) == Some(Classifying) {
        r := ClassifyThenResolve(job);
      } else {
        r := ResolveAndSubmit(job);
      }
      DispatchMeans(job, answers, verdict);
      if r.Returned? {
        DispatchLeaves(job, r, answers, verdict);
      }
    }

    /** A submit whose outcome nobody knows is parked, never repeated. */
    method ParkOrphan(job: R.Job) returns (r: Outcome)
      requires Valid() && Synced() && At(AtDispatch, job) && V.StatusAt(job) == Some(Submitting)
      modifies this`awaits, this`sweepers, this`around, this`key, this`state, this`trace, this`records
      ensures Valid() && Synced() && Stopped(r) && Mine() == old(Mine()) + [Dispatched]
      ensures r.Returned? && Parked(r.job) && Ends(r.job, NeedsReview, OrphanedSubmit)
    {
      hide OnPath, InSync, Became, Writes, TaskNext, V.ViewOf, PcMatches, Attempts, Parked, Terminal, S.StatusOf;
      hide R.WellFormed, R.OwnFields, V.StatusAt, R.Attribute, Has;
      CopyLooks(job);
      DispatchWrites(state.core, job, NO_EXTRAS);
      r := WriteStatus(job, NeedsReview, Some(OrphanedSubmit), map[], Dispatched, NO_EXTRAS, None);
    }

    /** A stage is resumed where the stored status says. */
    ghost method Resume(job: R.Job)
      requires Valid() && Synced() && At(AtDispatch, job) && ResumesAt(V.StatusAt(job)).Some?
      modifies this`state, this`trace, this`records
      ensures Valid() && Synced() && At(ResumesAt(V.StatusAt(job)).value, job) && (Alone() <==> old(Alone()))
      ensures Mine() == old(Mine()) + [Dispatched]
    {
      CopyLooks(job);
      ViewStatus(job);
      hide OnPath, InSync, PcMatches, V.ViewOf, TaskNext, TaskRecords, TaskEnabled, S.StatusOf, R.WellFormed;
      ResumeGoesOn(state.core, fakeDeployment);
      Did(Dispatched, NO_EXTRAS);
    }

    /** From submitting on, no stage can call the provider's submit again. */
    method ResumeSubmitted(job: R.Job) returns (r: Outcome)
      requires Valid() && Synced() && At(AtDispatch, job)
      requires V.StatusAt(job) == Some(Submitting) || V.StatusAt(job) == Some(Generating) || V.StatusAt(job) == Some(Storing)
      modifies this`awaits, this`sweepers, this`around, this`key, this`state, this`trace, this`records, this`verdict, provider
      ensures Valid() && Synced() && Stopped(r) && Mine() == old(Mine()) + DispatchEvents(V.ViewOf(job), answers, verdict)
      ensures r.Returned? <==> DispatchReturns(job, answers)
      ensures r.Returned? ==> Parked(r.job) && DispatchedAs(job, r.job, answers, verdict)
    {
      hide OnPath, InSync, Became, Writes, TaskNext, V.ViewOf, PcMatches, Attempts, Parked, S.StatusOf, R.WellFormed;
      hide V.StatusAt, Has, R.Attribute;
      hide ResolveEvents, ClassifyEvents, ResolvedAs, ClassifiedAs, ResolveReturns, Sends, Called, SureOfJewelry;
      hide Guessed, V.TypeAt;
      hide DispatchReturns, DispatchSends, DispatchedAs, DispatchEvents;
      hide PollEvents, StoreEvents, PolledAs, StoredAs, Decided, KeepsSubmission, S.DeadlineOf, V.StrAt, Ends;
      if V.StatusAt(job) == Some(Submitting) {
        r := ParkOrphan(job);
      } else if V.StatusAt(job) == Some(Generating) {
        Resume(job);
        r := Poll(job);
      } else {
        Resume(job);
        r := Store(job);
      }
      DispatchMeans(job, answers, verdict);
      if r.Returned? {
        DispatchLeaves(job, r, answers, verdict);
      }
    }

    method DispatchJob(job: R.Job) returns (r: Outcome)
      requires Valid() && Synced() && At(AtDispatch, job)
      modifies this`awaits, this`sweepers, this`around, this`key, this`state, this`trace, this`records, this`calls, this`verdict, provider
      ensures Valid() && Synced() && Stopped(r) && Mine() == old(Mine()) + DispatchEvents(V.ViewOf(job), answers, verdict)
      ensures r.Returned? <==> DispatchReturns(job, answers)
      ensures Called(old(calls), calls, DispatchSends(job, answers), job, answers, fakeDeployment)
      ensures r.Returned? ==> Parked(r.job) && DispatchedAs(job, r.job, answers, verdict)
    {
      hide OnPath, InSync, Became, Writes, TaskNext, V.ViewOf, PcMatches, Attempts, Parked, S.StatusOf, R.WellFormed;
      hide V.StatusAt, Has, R.Attribute;
      hide ResolveEvents, ClassifyEvents, ResolvedAs, ClassifiedAs, ResolveReturns, Sends, Called, SureOfJewelry;
      hide Guessed, V.TypeAt;
      hide DispatchReturns, DispatchSends, DispatchedAs, DispatchEvents;
      CopyLooks(job);
      StatusIsLive(job);
      DispatchMeans(job, answers, verdict);
      match V.StatusAt(job).value
      case Queued =>
        var requested := V.TypeAt(job, R.JewelryTypeRequested);
        if requested.Some? {
          r := DispatchTyped(job, requested.value);
        } else {
          r := DispatchUntyped(job);
        }
      case Classifying | Resolving =>
        r := ResumeEarly(job);
      case Submitting | Generating | Storing =>
        r := ResumeSubmitted(job);
        NoneCalled(calls, job, answers, fakeDeployment);
    }

    lemma StatusIsLive(job: R.Job)
      requires OnPath() && At(AtDispatch, job)
      ensures V.StatusAt(job).Some? && V.StatusAt(job).value in {Queued, Classifying, Resolving, Submitting, Generating, Storing}
    {
      CopyLooks(job);
      OnlyLive(job, state.core.worker.job.status);
      hide OnPath, Has, V.StatusAt, V.ViewOf;
    }

    /**
     * run_job_pipeline and run_job_pipeline_from_resolve, as the queue calls them. A missing or terminal
     * job is left alone, a half-written record raises; anything else is dispatched on the status Redis
     * holds. The execution is part of a run of the whole protocol, in which its own events are the ones
     * the answers lead to, with anything the others do in between.
     */
    method RunJobPipeline() returns (r: Outcome)
      requires Valid() && state.core.worker == Idle && around.enqueued && V.KeyOk(key)
      modifies this`awaits, this`sweepers, this`around, this`key, this`state, this`trace, this`records, this`calls, this`verdict, provider
      ensures Valid() && state.core.worker == Idle && V.KeyOk(key) && |calls| <= 1
      ensures var was := old(ReadKey(key));
              match was
              case Absent => r == NoJob && Untouched()
              case Unreadable => r == Escaped && Untouched()
              case Found(job) =>
                && R.WellFormed(job)
                && if Terminal(S.StatusOf(job)) then r == Returned(job) && Untouched()
                   else
                     && Mine() == old(Mine()) + DispatchEvents(V.ViewOf(job), answers, verdict)
                     && (r.Returned? <==> DispatchReturns(job, answers))
                     && Called(old(calls), calls, DispatchSends(job, answers), job, answers, fakeDeployment)
                     && (r.Returned? ==> Parked(r.job) && DispatchedAs(job, r.job, answers, verdict))
      // undisturbed, get_job then finds the job the last stage returned
      ensures r.Returned? && Alone() ==> ReadKey(key) == S.Found(R.Truncated(r.job))
    {
      hide OnPath, InSync, DispatchEvents, TaskNext, Parked, DispatchReturns, DispatchSends, DispatchedAs, Called;
      hide V.ViewOf, R.FromRedisHash;
      hide R.ToRedisHash, R.Truncated, KeyFits, InSync;
      KeyFitsStored();
      AtMostOneCall();
      if key.None? {
        return NoJob;
      }
      var read := R.FromRedisHash(R.ToRedisHash(key.value));
      if read.None? {
        return Escaped;
      }
      var job := read.value;
      ReadIsCopy(job);
      if Terminal(S.StatusOf(job)) {
        return Returned(job);
      }
      Start(job);
      r := DispatchJob(job);
      AtMostOneCall();
      KeyFitsStored();
      if r.Returned? && Alone() {
        SyncedKeyReads();
      }
    }

    twostate predicate Untouched()
      reads this
    {
      key == old(key) && calls == old(calls) && trace == old(trace)
    }

    lemma AtMostOneCall()
      requires Valid()
      ensures |calls| <= 1
    {
      hide Run, Possible, Mirrors, Unsnapped;
    }

    /** What is read is complete, and reading it again changes nothing. */
    lemma ReadIsCopy(job: R.Job)
      requires Valid() && key.Some? && V.KeyOk(key) && R.FromRedisHash(R.ToRedisHash(key.value)) == Some(job)
      ensures R.WellFormed(job) && job == ReadCopy(key) && R.Truncated(job) == job
      ensures state.core.stored == Full(V.ViewOf(job)) && V.ViewOf(job).status == S.StatusOf(job)
    {
      assert KeyFits(key, state.core.stored);
      V.KeyReads(key);
      ReadMirrors(key, state.core.stored);
      ViewStatus(job);
      hide Run, Possible, Inv, Unsnapped, R.FromRedisHash, R.ToRedisHash, V.ViewOf;
    }

    /** The queue starts a worker, which reads the job. */
    ghost method Start(job: R.Job)
      requires Valid() && state.core.worker == Idle && around.enqueued
      requires R.WellFormed(job) && job == ReadCopy(key) && R.Truncated(job) == job
      requires key.Some? && state.core.stored == Full(V.ViewOf(job)) && !Terminal(V.ViewOf(job).status)
      modifies this`state, this`trace, this`records
      ensures Valid() && Synced() && At(AtDispatch, job) && Mine() == old(Mine())
    {
      hide OnPath, Inv, V.ViewOf, R.Truncated, R.WellFormed, TaskNext, TaskEnabled, TaskRecords, Terminal, CreateOver;
      hide HSet, SweepDelta, InSync;
      StartGoesOn(state, records, Input(NO_EXTRAS, map[]));
      Took(StartTask, Input(NO_EXTRAS, map[]));
    }
  }
}
