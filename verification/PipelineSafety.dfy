/** Money safety of the pipeline protocol: what every event keeps, and what follows for every run. */
module PipelineSafety {
  import opened Enums
  import opened Options
  import opened Transitions
  import opened Pipeline

  /** The statuses a job can have before its provider call is prepared. */
  predicate BeforeSubmit(s: JobStatus) {
    s == Queued || s == Classifying || s == Resolving || s == NeedsInput
  }

  predicate PcMatches(pc: Pc, status: JobStatus) {
    match pc
    case AtDispatch => !Terminal(status)
    case AtClassify => status == Classifying
    case AtResolve => status == Resolving
    case AtSnapshot(_) => status == Resolving
    case AtPoll => status == Generating
    case AtStore => status == Storing
    case _ => status == Submitting
  }

  /** The inductive invariant of the record and the worker. */
  ghost predicate CoreInv(c: Core) {
    && (c.worker.Running? ==> PcMatches(c.worker.pc, c.worker.job.status))
    // before the snapshot write nothing is past it
    && (!c.submittingWritten ==>
          && c.calls == []
          && (c.stored.Full? ==> (BeforeSubmit(c.stored.job.status) || c.stored.job.status == Failed || c.stored.job.status == NeedsReview))
          && (c.worker.Running? ==> BeforeSubmit(c.worker.job.status)))
    // after it, nothing leads back
    && (c.submittingWritten ==>
          && (c.stored.Full? ==> !BeforeSubmit(c.stored.job.status))
          && (c.worker.Running? ==> !BeforeSubmit(c.worker.job.status)))
    // the worker that wrote the snapshot is the only one that can call the provider
    && (c.worker.Running? && (c.worker.pc.AtToken? || c.worker.pc.AtSubmit?) ==> c.calls == [])
    && |c.calls| <= 1
    // `transition` has never raised
    && c.fault.None?
  }

  /** ... and of everything around them. It holds in every run, Redis loss included. */
  ghost predicate Inv(s: State) {
    && CoreInv(s.core)
    && (s.route == NotCreated ==> s.core == FRESH && s.sweepers == map[] && !s.logged && !s.enqueued)
    && (s.rehydrators != {} ==> s.logged)
    && (s.enqueued ==> s.route != Created && s.route != Died)
    && (s.core.worker.Running? || s.core.submittingWritten ==> s.enqueued)
    && (s.core.stored.Full? && s.core.stored.job.status == NeedsInput ==> s.enqueued)
    && (forall i :: i in s.sweepers ==> !Terminal(s.sweepers[i].status))
  }

  // ---------------------------------------------------------------- the worker's status writes

  /** The worker's events that are a status write. */
  predicate IsStatusWrite(c: Core, e: TaskEvent)
    requires TaskEnabled(c, e)
  {
    match e
    case Dispatched => c.worker.job.status == Queued || c.worker.job.status == Submitting
    case ClassifyEnded(_) => true
    case ResolveFailed(_) => c.worker.job.final.Some?
    case SnapshotWritten => true
    case RaiseParked => true
    case SubmissionRecorded => true
    case PollEnded(end) => c.worker.job.providerJobId.Some? && !end.LeftGenerating?
    case StoreEnded(_) => c.worker.job.providerJobId.Some?
    case _ => false
  }

  /** What a status write of the worker looks like, stage by stage. */
  predicate WriteShape(w: Worker, to: JobStatus, error: Option<ErrorCode>, fields: Delta, next: Option<Pc>)
    requires w.Running?
  {
    && Guard(w.job.status, to, error).None?
    && fields.status.None? && fields.token.None?
    && (next.Some? ==> PcMatches(next.value, to) && !next.value.AtSubmit? && !next.value.AtSubmitRaised? && !next.value.AtSubmitted?)
    && (next.Some? && next.value.AtToken? ==> to == Submitting)
    && (to == Submitting ==> next == Some(AtToken) && w.pc.AtSnapshot?)
    && (fields.snapshot.Some? <==> to == Submitting)
    && (to == Resolving ==> fields.final.Some?)
    && (fields.providerJobId.Some? <==> to == Generating)
    && (to == Generating ==> w.pc.AtSubmitted?)
    && (to == Storing || to == Succeeded ==> w.job.providerJobId.Some?)
  }

  datatype StatusWrite = StatusWrite(to: JobStatus, error: Option<ErrorCode>, fields: Delta, next: Option<Pc>)

  /** What each status write writes, and where the stage goes on. */
  function WriteOf(pc: Pc, job: View, e: TaskEvent): StatusWrite {
    match e
    case Dispatched =>
      if job.status == Submitting then StatusWrite(NeedsReview, Some(OrphanedSubmit), NOTHING, None)
      else if job.requested.Some? then StatusWrite(Resolving, None, NOTHING.(final := job.requested), Some(AtResolve))
      else StatusWrite(Classifying, None, NOTHING, Some(AtClassify))
    case ClassifyEnded(NotJewelryFound) => StatusWrite(Failed, Some(NotJewelry), NOTHING, None)
    case ClassifyEnded(Confident(top)) => StatusWrite(Resolving, None, NOTHING.(final := Some(top)), Some(AtResolve))
    case ClassifyEnded(Unsure) => StatusWrite(NeedsInput, Some(LowConfidence), NOTHING, None)
    case ResolveFailed(why) => StatusWrite(Failed, Some(if why == Miss then MatrixMiss else MatrixUnavailable), NOTHING, None)
    case SnapshotWritten =>
      var snapshot := if pc.AtSnapshot? then Some(pc.snapshot) else None;
      StatusWrite(Submitting, None, NOTHING.(snapshot := snapshot), Some(AtToken))
    case RaiseParked => StatusWrite(NeedsReview, Some(OrphanedSubmit), NOTHING, None)
    case SubmissionRecorded =>
      var id := if pc.AtSubmitted? then Some(pc.id) else None;
      StatusWrite(Generating, None, NOTHING.(providerJobId := id), Some(AtPoll))
    case PollEnded(PollSucceeded) => StatusWrite(Storing, None, NOTHING, Some(AtStore))
    case PollEnded(_) => StatusWrite(Failed, Some(ProviderError), NOTHING, None)
    case StoreEnded(ok) =>
      if ok then StatusWrite(Succeeded, None, NOTHING, None) else StatusWrite(Failed, Some(StorageError), NOTHING, None)
    case _ => StatusWrite(job.status, None, NOTHING, None)
  }

  lemma DispatchIsPersist(c: Core)
    requires CoreInv(c) && TaskEnabled(c, Dispatched) && IsStatusWrite(c, Dispatched)
    ensures var w := WriteOf(c.worker.pc, c.worker.job, Dispatched);
            && WriteShape(c.worker, w.to, w.error, w.fields, w.next)
            && Dispatch(c) == Persist(c, w.to, w.error, w.fields, w.next)
  {
    hide CoreInv, Persist;
  }

  /** What each status write of the worker writes, and that the guard lets it. */
  lemma StatusWriteIsPersist(c: Core, e: TaskEvent, fakeDeployment: bool)
    returns (to: JobStatus, error: Option<ErrorCode>, fields: Delta, next: Option<Pc>)
    requires CoreInv(c) && TaskEnabled(c, e) && IsStatusWrite(c, e)
    ensures WriteOf(c.worker.pc, c.worker.job, e) == StatusWrite(to, error, fields, next)
    ensures WriteShape(c.worker, to, error, fields, next)
    ensures TaskNext(c, e, fakeDeployment) == Persist(c, to, error, fields, next)
  {
    assert PcMatches(c.worker.pc, c.worker.job.status);
    hide CoreInv, Persist, Dispatch;
    var w := WriteOf(c.worker.pc, c.worker.job, e);
    to, error, fields, next := w.to, w.error, w.fields, w.next;
    if e == Dispatched {
      DispatchIsPersist(c);
    }
  }

  lemma PersistKeepsCoreInv(c: Core, to: JobStatus, error: Option<ErrorCode>, fields: Delta, next: Option<Pc>)
    requires CoreInv(c) && c.worker.Running? && WriteShape(c.worker, to, error, fields, next)
    ensures CoreInv(Persist(c, to, error, fields, next))
  {
    var t := Persist(c, to, error, fields, next);
    var w := c.worker;
    assert Legal(w.job.status, to);
    assert t.stored.Full? ==> t.stored.job.status == to;
    assert t.worker.Running? ==> t.worker.job.status == to && t.worker.pc == next.value;
    assert t.calls == c.calls && t.fault == c.fault && t.submittingWritten == (c.submittingWritten || to == Submitting);
    hide Persist, WriteShape;
  }

  // ---------------------------------------------------------------- the worker's other events

  /** The worker stops, or goes on inside its stage, and the record stays as it is. */
  ghost predicate OnlyMoves(c: Core, d: Core) {
    && c.worker.Running?
    && d == c.(worker := d.worker, assertFailed := d.assertFailed)
    && (d.worker.Running? ==>
          && d.worker.job == c.worker.job && PcMatches(d.worker.pc, c.worker.job.status)
          && c.worker.job.status != Submitting && !d.assertFailed == !c.assertFailed)
  }

  predicate IsMove(c: Core, e: TaskEvent)
    requires TaskEnabled(c, e)
  {
    !IsStatusWrite(c, e) && !e.TokenWritten? && !e.ProviderCalled?
  }

  lemma DispatchOnlyMoves(c: Core)
    requires CoreInv(c) && TaskEnabled(c, Dispatched) && IsMove(c, Dispatched)
    ensures OnlyMoves(c, Dispatch(c)) && Dispatch(c).assertFailed == c.assertFailed
  {
    hide Persist;
  }

  lemma MoveOnlyMoves(c: Core, e: TaskEvent, fakeDeployment: bool)
    requires CoreInv(c) && TaskEnabled(c, e) && IsMove(c, e)
    ensures OnlyMoves(c, TaskNext(c, e, fakeDeployment))
  {
    assert PcMatches(c.worker.pc, c.worker.job.status);
    hide CoreInv, Persist, Dispatch;
    if e == Dispatched {
      DispatchOnlyMoves(c);
    }
  }

  lemma MoveKeepsCoreInv(c: Core, d: Core)
    requires CoreInv(c) && OnlyMoves(c, d)
    ensures CoreInv(d)
  {
  }

  lemma TokenKeepsCoreInv(c: Core, token: string, fakeDeployment: bool)
    requires CoreInv(c) && TaskEnabled(c, TokenWritten(token))
    ensures CoreInv(TaskNext(c, TokenWritten(token), fakeDeployment))
  {
  }

  lemma CallKeepsCoreInv(c: Core, outcome: SubmitEnd, fakeDeployment: bool)
    requires CoreInv(c) && TaskEnabled(c, ProviderCalled(outcome))
    ensures CoreInv(TaskNext(c, ProviderCalled(outcome), fakeDeployment))
  {
  }

  lemma TaskStepKeepsCoreInv(c: Core, e: TaskEvent, fakeDeployment: bool)
    requires CoreInv(c) && TaskEnabled(c, e)
    ensures CoreInv(TaskNext(c, e, fakeDeployment))
  {
    hide CoreInv, TaskNext, Persist, OnlyMoves;
    if IsStatusWrite(c, e) {
      var to, error, fields, next := StatusWriteIsPersist(c, e, fakeDeployment);
      PersistKeepsCoreInv(c, to, error, fields, next);
    } else if e.TokenWritten? {
      TokenKeepsCoreInv(c, e.token, fakeDeployment);
    } else if e.ProviderCalled? {
      CallKeepsCoreInv(c, e.outcome, fakeDeployment);
    } else {
      MoveOnlyMoves(c, e, fakeDeployment);
      MoveKeepsCoreInv(c, TaskNext(c, e, fakeDeployment));
    }
  }

  // ---------------------------------------------------------------- the whole protocol

  lemma InitInv(req: Request, fakeDeployment: bool)
    ensures Inv(Init(req, fakeDeployment))
  {
  }

  lemma OtherStepKeepsInv(s: State, e: Event)
    requires Inv(s) && Enabled(s, e) && !e.Task?
    ensures Inv(Next(s, e))
  {
    hide TaskNext, TaskEnabled;
  }

  lemma StepKeepsInv(s: State, e: Event)
    requires Inv(s) && Enabled(s, e)
    ensures Inv(Next(s, e))
  {
    if e.Task? {
      assert s.core != FRESH && s.enqueued;
      TaskStepKeepsCoreInv(s.core, e.e, s.fakeDeployment);
      hide CoreInv, TaskNext;
    } else {
      OtherStepKeepsInv(s, e);
    }
  }

  lemma {:induction false} RunKeepsInv(s: State, events: seq<Event>)
    requires Inv(s) && Possible(s, events)
    ensures Inv(Run(s, events))
    decreases |events|
  {
    hide Inv, Next, Enabled;
    if events != [] {
      StepKeepsInv(s, events[0]);
      RunKeepsInv(Next(s, events[0]), events[1..]);
    }
  }

  lemma {:induction false} ExtendRun(s: State, events: seq<Event>, e: Event)
    requires Possible(s, events) && Enabled(Run(s, events), e)
    ensures Possible(s, events + [e]) && Run(s, events + [e]) == Next(Run(s, events), e)
    decreases |events|
  {
    hide Next, Enabled;
    if events != [] {
      assert (events + [e])[1..] == events[1..] + [e];
      ExtendRun(Next(s, events[0]), events[1..], e);
    } else {
      assert events + [e] == [e] && [e][1..] == [];
      assert Possible(Next(s, e), []);
    }
  }

  lemma {:induction false} RunSplits(s: State, before: seq<Event>, after: seq<Event>)
    requires Possible(s, before + after)
    ensures Possible(s, before) && Possible(Run(s, before), after)
    ensures Run(s, before + after) == Run(Run(s, before), after)
    decreases |before|
  {
    hide Next, Enabled;
    if before == [] {
      assert before + after == after;
    } else {
      assert (before + after)[1..] == before[1..] + after;
      RunSplits(Next(s, before[0]), before[1..], after);
    }
  }

  /**
   * R1 and R2 over every run: whatever crashes, restarts, stale sweeps, resolves, rehydrations and
   * Redis losses happen, the provider is asked at most once, and no stage of the worker raises
   * IllegalTransition or the missing-error-code ValueError.
   */
  lemma AtMostOneSubmit(req: Request, fakeDeployment: bool, events: seq<Event>)
    requires Possible(Init(req, fakeDeployment), events)
    ensures |Run(Init(req, fakeDeployment), events).core.calls| <= 1
    ensures Run(Init(req, fakeDeployment), events).core.fault.None?
  {
    InitInv(req, fakeDeployment);
    RunKeepsInv(Init(req, fakeDeployment), events);
  }

  /** What the other writers make of the record: each its own status and error, and nothing else. */
  lemma OthersWrite(s: State, e: Event)
    requires Enabled(s, e) && !e.Task?
    ensures var was, is' := s.core.stored, Next(s, e).core.stored;
            match e
            case CreateRecord => is' == Full(View(Queued, s.req.requested, s.req.mock, None, None, None, None, None))
            case ResolveRoute(chosen) => was.Full? && is' == Full(was.job.(status := Resolving, final := Some(chosen)))
            case LoseRecord => is' == Missing
            case SweepWrite(i) =>
              // money may have moved if the sweeper read submitting
              was.Full? ==>
                is' == Full(if s.sweepers[i].status == Submitting
                            then was.job.(status := NeedsReview, error := Some(OrphanedSubmit))
                            else was.job.(status := Failed, error := Some(ProviderTimeout)))
            case RehydrateWrite(_) =>
              && (was == Missing ==>
                    is' == Full(View(NeedsReview, s.req.requested, s.req.mock, s.req.requested, Some(OrphanedSubmit), None, None, None)))
              && (was.Full? ==>
                    && is'.Full? && is'.job.status == NeedsReview && is'.job.error == Some(OrphanedSubmit)
                    && is'.job.snapshot == was.job.snapshot && is'.job.token == was.job.token
                    && is'.job.providerJobId == was.job.providerJobId)
            case _ => is' == was
  {
    hide TaskNext, TaskEnabled;
    if e.RehydrateWrite? {
      hide HSet, SweepDelta;
    } else if e.SweepWrite? || e.ResolveRoute? {
      hide CreateOver, RehydratedJob;
    } else {
      hide CreateOver, RehydratedJob, HSet, SweepDelta, Write;
    }
  }

  lemma TaskStepHistory(c: Core, e: TaskEvent, fakeDeployment: bool)
    requires CoreInv(c) && TaskEnabled(c, e)
    ensures var d := TaskNext(c, e, fakeDeployment);
            && (c.submittingWritten ==> d.submittingWritten)
            && d.moves == c.moves + (if IsStatusWrite(c, e) then 1 else 0)
            && (c.stored.Full? ==>
                  && d.stored.Full?
                  && (if IsStatusWrite(c, e)
                      then c.worker.job.status == c.stored.job.status ==> Legal(c.stored.job.status, d.stored.job.status)
                      else d.stored.job.status == c.stored.job.status))
  {
    if IsStatusWrite(c, e) {
      var to, error, fields, next := StatusWriteIsPersist(c, e, fakeDeployment);
      hide CoreInv, TaskNext, PcMatches;
    } else if e.TokenWritten? || e.ProviderCalled? {
      hide CoreInv, Persist, Dispatch;
    } else {
      MoveOnlyMoves(c, e, fakeDeployment);
      hide CoreInv, TaskNext;
    }
  }

  lemma StepKeepsWritten(s: State, e: Event)
    requires Inv(s) && Enabled(s, e) && s.core.submittingWritten
    ensures Next(s, e).core.submittingWritten
  {
    if e.Task? {
      TaskStepHistory(s.core, e.e, s.fakeDeployment);
    }
    hide CoreInv, TaskNext;
  }

  lemma {:induction false} RunKeepsWritten(s: State, events: seq<Event>)
    requires Inv(s) && Possible(s, events) && s.core.submittingWritten
    ensures Run(s, events).core.submittingWritten
    decreases |events|
  {
    hide Next, Enabled, Inv;
    if events != [] {
      StepKeepsInv(s, events[0]);
      StepKeepsWritten(s, events[0]);
      RunKeepsWritten(Next(s, events[0]), events[1..]);
    }
  }

  /** Once status=submitting has been written, the record never again reads as a status from before it. */
  lemma NeverBackBeforeSubmit(req: Request, fakeDeployment: bool, before: seq<Event>, after: seq<Event>)
    requires Possible(Init(req, fakeDeployment), before + after)
    requires Possible(Init(req, fakeDeployment), before)
    requires Run(Init(req, fakeDeployment), before).core.submittingWritten
    ensures var stored := Run(Init(req, fakeDeployment), before + after).core.stored;
            stored.Full? ==> stored.job.status !in {Queued, Classifying, Resolving, NeedsInput}
  {
    var s := Init(req, fakeDeployment);
    RunSplits(s, before, after);
    InitInv(req, fakeDeployment);
    RunKeepsInv(s, before + after);
    RunKeepsInv(s, before);
    RunKeepsWritten(Run(s, before), after);
  }

  // ---------------------------------------------------------------- serialised writers

  /** The writer's copy is as fresh as the record, and the record is not lost. */
  ghost predicate Serialised(s: State, e: Event)
    requires Enabled(s, e)
  {
    var c := s.core;
    match e
    case Task(t) => IsStatusWrite(c, t) ==> c.stored.Full? && c.worker.job.status == c.stored.job.status
    case SweepWrite(i) => c.stored.Full? && s.sweepers[i].status == c.stored.job.status
    case LoseRecord => false
    case RehydrateWrite(_) => false
    case _ => true
  }

  /** With fresh copies the stored status moves only along the table, one edge per counted write. */
  lemma SerialStep(s: State, e: Event)
    requires Inv(s) && s.core.stored.Full? && Enabled(s, e) && Serialised(s, e)
    ensures var c, d := s.core, Next(s, e).core;
            d.stored.Full?
            && if d.moves == c.moves then d.stored.job.status == c.stored.job.status
               else d.moves == c.moves + 1 && Legal(c.stored.job.status, d.stored.job.status)
  {
    assert s.route != NotCreated;
    assert e.SweepWrite? ==> !Terminal(s.sweepers[e.id].status);
    if e.Task? {
      TaskStepHistory(s.core, e.e, s.fakeDeployment);
      hide Write, CreateOver, SweepDelta;
    }
    hide CoreInv, TaskNext, TaskEnabled, Inv, IsStatusWrite;
  }

  ghost predicate SerialRun(s: State, events: seq<Event>)
    requires Possible(s, events)
    decreases |events|
  {
    events == [] || (Serialised(s, events[0]) && SerialRun(Next(s, events[0]), events[1..]))
  }

  /** Each status change of a serialised run uses up rank, and a final status is final. */
  lemma {:induction false} SerialRunIsBounded(s: State, events: seq<Event>)
    requires Inv(s) && s.core.stored.Full? && Possible(s, events) && SerialRun(s, events)
    ensures var c, d := s.core, Run(s, events).core;
            d.stored.Full?
            && d.moves + Rank(d.stored.job.status) <= c.moves + Rank(c.stored.job.status)
            && (Final(c.stored.job.status) ==> d.stored.job.status == c.stored.job.status)
    decreases |events|
  {
    hide Inv, Next, Enabled, Serialised;
    if events != [] {
      SerialStep(s, events[0]);
      StepKeepsInv(s, events[0]);
      SerialRunIsBounded(Next(s, events[0]), events[1..]);
    }
  }

  /** A job makes at most seven transitions in its life. */
  lemma AtMostSevenTransitions(req: Request, fakeDeployment: bool, events: seq<Event>)
    requires events != [] && events[0] == CreateRecord
    requires Possible(Init(req, fakeDeployment), events) && SerialRun(Init(req, fakeDeployment), events)
    ensures Run(Init(req, fakeDeployment), events).core.moves <= 7
  {
    var s := Init(req, fakeDeployment);
    InitInv(req, fakeDeployment);
    StepKeepsInv(s, events[0]);
    SerialRunIsBounded(Next(s, CreateRecord), events[1..]);
  }

  /** A status write with a copy that is out of date. */
  ghost predicate WritesStale(s: State, e: Event)
    requires Enabled(s, e)
  {
    (e.Task? || e.SweepWrite?) && !Serialised(s, e)
  }

  /** The status such a write stores. */
  function StatusWritten(s: State, e: Event): JobStatus
    requires Enabled(s, e) && (e.Task? || e.SweepWrite?)
  {
    if e.Task? then WriteOf(s.core.worker.pc, s.core.worker.job, e.e).to else SweepDelta(s.sweepers[e.id]).status.value
  }

  predicate StatusStays(c: Core, d: Core)
    requires c.stored.Full?
  {
    d.stored.Full? && d.stored.job.status == c.stored.job.status
  }

  /** On a final status the writes of workers and sweepers are exactly those with a copy out of date. */
  lemma FinalIsWrittenOnlyStale(s: State, e: Event)
    requires Inv(s) && Enabled(s, e) && s.core.stored.Full? && Final(s.core.stored.job.status)
    ensures Next(s, e).core.moves > s.core.moves <==> WritesStale(s, e)
  {
    assert s.route != NotCreated;
    if e.Task? {
      TaskStepHistory(s.core, e.e, s.fakeDeployment);
    } else if e.SweepWrite? {
      assert !Terminal(s.sweepers[e.id].status);
    }
    if Serialised(s, e) {
      SerialStep(s, e);
    }
    hide Inv, CoreInv, TaskNext;
  }

  lemma StaleWriteStores(s: State, e: Event)
    requires Inv(s) && Enabled(s, e) && s.core.stored.Full? && WritesStale(s, e)
    ensures Next(s, e).core.stored.Full? && Next(s, e).core.stored.job.status == StatusWritten(s, e)
  {
    if e.Task? {
      var to, error, fields, next := StatusWriteIsPersist(s.core, e.e, s.fakeDeployment);
      hide Inv, CoreInv, TaskNext, WriteShape;
    }
    hide Inv, CoreInv, TaskNext, WriteOf;
  }

  /**
   * "A final status is final" is false. It is left exactly by a loss of the record, by a rehydration
   * written over it, and by a write with a copy out of date that stores another status.
   */
  lemma FinalIsLeftOnlyByStaleCopy(s: State, e: Event)
    requires Inv(s) && Enabled(s, e) && s.core.stored.Full? && Final(s.core.stored.job.status)
    ensures !StatusStays(s.core, Next(s, e).core) <==>
              || e.LoseRecord?
              || (e.RehydrateWrite? && s.core.stored.job.status != NeedsReview)
              || (WritesStale(s, e) && StatusWritten(s, e) != s.core.stored.job.status)
    ensures !StatusStays(s.core, Next(s, e).core) ==> !Serialised(s, e)
  {
    assert s.route != NotCreated;
    if WritesStale(s, e) {
      StaleWriteStores(s, e);
    } else if e.Task? || e.SweepWrite? {
      SerialStep(s, e);
      FinalIsWrittenOnlyStale(s, e);
    }
    hide Inv, TaskNext, TaskEnabled, StatusWritten, WritesStale;
  }

  /** A sweep that reads and writes at once. */
  lemma SweepNow(s: State, i: nat)
    requires Enabled(s, SweepRead(i))
    ensures Enabled(Next(s, SweepRead(i)), SweepWrite(i))
    ensures Next(Next(s, SweepRead(i)), SweepWrite(i)).core == Write(s.core, SweepDelta(s.core.stored.job))
  {
    assert Next(s, SweepRead(i)).sweepers[i] == s.core.stored.job;
    hide TaskNext, HSet, SweepDelta;
  }

  /**
   * ... and that does happen. From any state with a worker polling a generating job: the sweeper reads
   * and fails it, then the poll's own copy stores it as storing, and the sweeper's error stays.
   */
  lemma StaleCopyRevivesFailedJob(s: State, i: nat)
    requires CoreInv(s.core) && i !in s.sweepers && s.core.stored.Full? && s.core.stored.job.status == Generating
    requires s.core.worker.Running? && s.core.worker.pc == AtPoll && s.core.worker.job.providerJobId.Some?
    requires s.core.worker.job.error.None?
    ensures Enabled(s, SweepRead(i)) && Enabled(Next(s, SweepRead(i)), SweepWrite(i))
    ensures var failed := Next(Next(s, SweepRead(i)), SweepWrite(i)).core;
            && failed.stored.Full? && failed.stored.job.status == Failed && failed.stored.job.error == Some(ProviderTimeout)
            && TaskEnabled(failed, PollEnded(PollSucceeded))
            && var revived := TaskNext(failed, PollEnded(PollSucceeded), s.fakeDeployment);
               && revived.stored.Full? && revived.stored.job.status == Storing
               && revived.stored.job.error == Some(ProviderTimeout)
  {
    assert s.core.worker.job.status == Generating;
    SweepNow(s, i);
    hide CoreInv, Next, Enabled;
  }
}
