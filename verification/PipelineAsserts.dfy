/**
 * The asserts of the stages over every run, losses of the record included. PipelineSnapshot proves that
 * none fails while the record is not lost. Here is the one thing that makes one fail otherwise, exactly.
 */
module PipelineAsserts {
  import opened Enums
  import opened Options
  import opened Pipeline
  import opened PipelineRuns
  import opened PipelineSafety

  /** The key holds a provider job id, readable or not. */
  predicate KnowsId(stored: Stored) {
    match stored
    case Missing => false
    case Partial(v) => v.providerJobId.Some?
    case Full(v) => v.providerJobId.Some?
  }

  /** A rehydrated record is written while a worker polls the job, and the key has lost the provider's job id. */
  predicate Orphans(s: State, e: Event) {
    e.RehydrateWrite? && s.core.worker.Running? && s.core.worker.job.status == Generating && !KnowsId(s.core.stored)
  }

  /** What is stored, or held as a copy, under resolving and generating is what their stages assert. */
  ghost predicate Typed(c: Core) {
    && (c.stored.Full? ==> HasWhatItAsserts(c.stored.job))
    && (c.worker.Running? ==> HasWhatItAsserts(c.worker.job))
  }

  predicate HasWhatItAsserts(v: View) {
    && (v.status == Resolving ==> v.final.Some?)
    && (v.status == Generating ==> v.providerJobId.Some?)
  }

  /** A job that is, or is about to be, stored as storing without a provider job id. */
  predicate Armed(c: Core) {
    || (c.worker.Running? && c.worker.job.status == Generating && c.stored.Full? && c.stored.job.providerJobId.None?)
    || (c.stored.Full? && c.stored.job.status == Storing && c.stored.job.providerJobId.None?)
    || (c.worker.Running? && c.worker.job.status == Storing && c.worker.job.providerJobId.None?)
  }

  // ---------------------------------------------------------------- what every event keeps

  lemma PersistKeepsTyped(c: Core, to: JobStatus, error: Option<ErrorCode>, fields: Delta, next: Option<Pc>)
    requires CoreInv(c) && Typed(c) && c.worker.Running? && WriteShape(c.worker, to, error, fields, next)
    ensures Typed(Persist(c, to, error, fields, next))
    ensures !Armed(c) ==> !Armed(Persist(c, to, error, fields, next))
    ensures Persist(c, to, error, fields, next).assertFailed == c.assertFailed
  {
    assert to == Storing ==> c.worker.job.status == Generating;
    hide CoreInv, PcMatches, Legal;
  }

  lemma TaskStepKeepsTyped(c: Core, e: TaskEvent, fakeDeployment: bool)
    requires CoreInv(c) && Typed(c) && TaskEnabled(c, e)
    ensures var d := TaskNext(c, e, fakeDeployment);
            Typed(d) && (!Armed(c) ==> !Armed(d) && d.assertFailed == c.assertFailed)
  {
    if IsStatusWrite(c, e) {
      var to, error, fields, next := StatusWriteIsPersist(c, e, fakeDeployment);
      PersistKeepsTyped(c, to, error, fields, next);
      hide CoreInv, TaskNext, Persist, WriteShape, WriteOf, Typed, Armed;
    } else if e == Dispatched {
      assert PcMatches(c.worker.pc, c.worker.job.status);
    } else {
      assert PcMatches(c.worker.pc, c.worker.job.status);
      hide CoreInv, Dispatch;
    }
  }

  /** The key's writers keep what is stored under a status, or move it to one that asserts nothing. */
  lemma KeyWriteKeepsTyped(s: State, e: Event)
    requires Inv(s) && Typed(s.core) && Enabled(s, e) && (e.ResolveRoute? || e.SweepWrite? || e.RehydrateWrite?)
    ensures Typed(Next(s, e).core)
  {
    hide CoreInv, TaskNext, TaskEnabled, Armed;
    if e.RehydrateWrite? {
      hide Inv, Write, SweepDelta, HSet;
    } else {
      hide Inv, CreateOver, RehydratedJob;
    }
  }

  lemma OtherStepKeepsTyped(s: State, e: Event)
    requires Inv(s) && Typed(s.core) && Enabled(s, e) && !e.Task?
    ensures Typed(Next(s, e).core)
  {
    if e.ResolveRoute? || e.SweepWrite? || e.RehydrateWrite? {
      KeyWriteKeepsTyped(s, e);
      hide *;
    } else {
      hide CoreInv, Inv, TaskNext, TaskEnabled, Write, CreateOver, HSet;
    }
  }

  lemma RehydrationArms(s: State, e: Event)
    requires Typed(s.core) && Enabled(s, e) && e.RehydrateWrite? && !Armed(s.core)
    ensures Armed(Next(s, e).core) <==> Orphans(s, e)
  {
    var d := Next(s, e).core;
    assert d.stored.Full? && d.stored.job.status == NeedsReview && d.worker == s.core.worker;
    assert d.stored.job.providerJobId.Some? <==> KnowsId(s.core.stored);
    hide Next, Enabled, Typed, KnowsId;
  }

  lemma KeyWriteArms(s: State, e: Event)
    requires Typed(s.core) && Enabled(s, e) && (e.ResolveRoute? || e.SweepWrite?) && !Armed(s.core)
    ensures !Armed(Next(s, e).core)
  {
    var c, d := s.core, Next(s, e).core;
    assert d.worker == c.worker && (d.stored.Full? ==> c.stored.Full? && d.stored.job.status != Storing
                                                       && d.stored.job.providerJobId == c.stored.job.providerJobId);
    hide Next, Enabled, Typed;
  }

  lemma QuietStepArms(s: State, e: Event)
    requires Inv(s) && Typed(s.core) && Enabled(s, e)
    requires !e.Task? && !e.RehydrateWrite? && !e.ResolveRoute? && !e.SweepWrite? && !Armed(s.core)
    ensures !Armed(Next(s, e).core)
  {
    assert s.route == NotCreated ==> s.core == FRESH;
    hide CoreInv, Inv, TaskNext, TaskEnabled, Write, CreateOver;
  }

  lemma OtherStepArms(s: State, e: Event)
    requires Inv(s) && Typed(s.core) && Enabled(s, e) && !e.Task? && !Armed(s.core)
    ensures Armed(Next(s, e).core) <==> Orphans(s, e)
  {
    if e.RehydrateWrite? {
      RehydrationArms(s, e);
    } else {
      if e.ResolveRoute? || e.SweepWrite? {
        KeyWriteArms(s, e);
      } else {
        QuietStepArms(s, e);
      }
      hide Enabled, Next, Inv, Typed, Armed;
    }
  }

  lemma OthersFailNoAssert(s: State, e: Event)
    requires Enabled(s, e) && !e.Task?
    ensures Next(s, e).core.assertFailed == s.core.assertFailed
  {
    hide TaskNext, TaskEnabled, HSet, SweepDelta, CreateOver, NewJob, RehydratedJob;
  }

  /** Before that, no step arms an assert or lets one fail; that one step does. */
  lemma StepKeepsTyped(s: State, e: Event)
    requires Inv(s) && Typed(s.core) && Enabled(s, e)
    ensures var d := Next(s, e).core;
            && Typed(d)
            && (!Armed(s.core) ==> d.assertFailed == s.core.assertFailed && (Armed(d) <==> Orphans(s, e)))
  {
    if e.Task? {
      TaskStepKeepsTyped(s.core, e.e, s.fakeDeployment);
    } else {
      OtherStepKeepsTyped(s, e);
      OthersFailNoAssert(s, e);
      if !Armed(s.core) {
        OtherStepArms(s, e);
      }
    }
    hide Typed, Armed, TaskNext, CoreInv;
  }

  /** A run in which no step does. */
  ghost predicate NeverOrphans(s: State, events: seq<Event>)
    requires Possible(s, events)
    decreases |events|
  {
    events == [] || (!Orphans(s, events[0]) && NeverOrphans(Next(s, events[0]), events[1..]))
  }

  lemma {:induction false} RunKeepsTyped(s: State, events: seq<Event>)
    requires Inv(s) && Typed(s.core) && Possible(s, events)
    ensures Inv(Run(s, events)) && Typed(Run(s, events).core)
    ensures !Armed(s.core) && NeverOrphans(s, events) ==>
              !Armed(Run(s, events).core) && Run(s, events).core.assertFailed == s.core.assertFailed
    decreases |events|
  {
    hide Inv, Typed, Armed, Orphans, Next, Enabled;
    if events != [] {
      StepKeepsInv(s, events[0]);
      StepKeepsTyped(s, events[0]);
      RunKeepsTyped(Next(s, events[0]), events[1..]);
    }
  }

  /** Lost records or not: no stage's assert fails in a run that does not orphan a polling worker. */
  lemma AssertsHoldUnlessOrphaned(req: Request, fakeDeployment: bool, events: seq<Event>)
    requires Possible(Init(req, fakeDeployment), events) && NeverOrphans(Init(req, fakeDeployment), events)
    ensures !Run(Init(req, fakeDeployment), events).core.assertFailed
  {
    InitInv(req, fakeDeployment);
    RunKeepsTyped(Init(req, fakeDeployment), events);
    hide Run, Possible, NeverOrphans;
  }

  // ---------------------------------------------------------------- the converse

  /** An assert can still fail, with no further rehydration. */
  ghost predicate CanFail(s: State) {
    exists events :: Possible(s, events) && NeverRehydrates(events) && Run(s, events).core.assertFailed
  }

  predicate NeverRehydrates(events: seq<Event>) {
    forall e :: e in events ==> !e.RehydrateWrite?
  }

  lemma {:induction false} NoRehydrationNoOrphan(s: State, events: seq<Event>)
    requires Possible(s, events) && NeverRehydrates(events)
    ensures NeverOrphans(s, events)
    decreases |events|
  {
    hide Next, Enabled;
    if events != [] {
      assert forall e :: e in events[1..] ==> e in events;
      NoRehydrationNoOrphan(Next(s, events[0]), events[1..]);
    }
  }

  lemma CanFailAfter(s: State, e: Event)
    requires Enabled(s, e) && !e.RehydrateWrite? && CanFail(Next(s, e))
    ensures CanFail(s)
  {
    hide Next, Enabled;
    var events :| Possible(Next(s, e), events) && NeverRehydrates(events) && Run(Next(s, e), events).core.assertFailed;
    var all := [e] + events;
    assert all[1..] == events && all[0] == e;
    assert Possible(s, all) && Run(s, all) == Run(Next(s, e), events);
  }

  lemma FailedNow(s: State)
    requires s.core.assertFailed
    ensures CanFail(s)
  {
    assert Possible(s, []) && NeverRehydrates([]) && Run(s, []) == s;
  }

  /** A worker that holds a storing job without the id fails its assert when it stores. */
  lemma StoringCopyFails(s: State)
    requires s.core.worker.Running? && (s.core.worker.pc == AtDispatch || s.core.worker.pc == AtStore)
    requires s.core.worker.job.status == Storing && s.core.worker.job.providerJobId.None?
    ensures CanFail(s)
  {
    var t := s;
    if s.core.worker.pc == AtDispatch {
      t := Next(s, Task(Dispatched));
      assert t.core.worker == Running(AtStore, s.core.worker.job);
    }
    var e := Task(StoreEnded(true));
    FailedNow(Next(t, e));
    CanFailAfter(t, e);
    if s.core.worker.pc == AtDispatch {
      CanFailAfter(s, Task(Dispatched));
    }
  }

  /** Such a record does as soon as a worker resumes it. */
  lemma StoringRecordFails(s: State)
    requires Inv(s) && s.core.stored.Full? && s.core.stored.job.status == Storing && s.core.stored.job.providerJobId.None?
    ensures CanFail(s)
  {
    assert s.enqueued;
    var idle := if s.core.worker.Running? then Next(s, Task(Crashed)) else s;
    hide CoreInv, Inv;
    StoringCopyFails(Next(idle, StartTask));
    CanFailAfter(idle, StartTask);
    if s.core.worker.Running? {
      CanFailAfter(s, Task(Crashed));
    }
  }

  lemma PollerStores(s: State)
    requires Inv(s) && s.core.worker.Running? && s.core.worker.pc == AtPoll && s.core.worker.job.providerJobId.Some?
    requires s.core.stored.Full? && s.core.stored.job.providerJobId.None?
    ensures CanFail(s)
  {
    var e := Task(PollEnded(PollSucceeded));
    assert s.core.worker.job.status == Generating;
    StepKeepsInv(s, e);
    var t := Next(s, e);
    hide Inv, CoreInv;
    StoringRecordFails(t);
    CanFailAfter(s, e);
  }

  lemma ArmedCanFail(s: State)
    requires Inv(s) && Typed(s.core) && Armed(s.core)
    ensures CanFail(s)
  {
    var c := s.core;
    assert c.worker.Running? ==> PcMatches(c.worker.pc, c.worker.job.status);
    if c.stored.Full? && c.stored.job.status == Storing && c.stored.job.providerJobId.None? {
      StoringRecordFails(s);
    } else if c.worker.job.status == Storing && c.worker.job.providerJobId.None? {
      StoringCopyFails(s);
    } else if c.worker.pc == AtPoll {
      PollerStores(s);
    } else {
      StepKeepsInv(s, Task(Dispatched));
      assert Dispatch(c) == c.(worker := Running(AtPoll, c.worker.job));
      PollerStores(Next(s, Task(Dispatched)));
      CanFailAfter(s, Task(Dispatched));
    }
    hide Inv, CoreInv, TaskNext, CanFail;
  }

  lemma StepArmsIffOrphans(s: State, e: Event)
    requires Inv(s) && Typed(s.core) && !s.core.assertFailed && !CanFail(s) && Enabled(s, e)
    ensures CanFail(Next(s, e)) <==> Orphans(s, e)
  {
    if Armed(s.core) {
      ArmedCanFail(s);
    }
    StepKeepsInv(s, e);
    StepKeepsTyped(s, e);
    var t := Next(s, e);
    hide Inv, Typed, Armed, Orphans, Next, Enabled;
    if Orphans(s, e) {
      ArmedCanFail(t);
    } else if events :| Possible(t, events) && NeverRehydrates(events) && Run(t, events).core.assertFailed {
      NoRehydrationNoOrphan(t, events);
      RunKeepsTyped(t, events);
    }
  }

  /**
   * The exact condition, over all runs. While no assert can fail, a step makes it possible if and only if
   * it writes a rehydrated record under a polling worker whose job's key has lost the provider's job id.
   */
  lemma AssertCanFailIffOrphaned(req: Request, fakeDeployment: bool, events: seq<Event>, e: Event)
    requires Possible(Init(req, fakeDeployment), events) && Enabled(Run(Init(req, fakeDeployment), events), e)
    requires !Run(Init(req, fakeDeployment), events).core.assertFailed && !CanFail(Run(Init(req, fakeDeployment), events))
    ensures var s := Run(Init(req, fakeDeployment), events); CanFail(Next(s, e)) <==> Orphans(s, e)
  {
    InitInv(req, fakeDeployment);
    RunKeepsTyped(Init(req, fakeDeployment), events);
    StepArmsIffOrphans(Run(Init(req, fakeDeployment), events), e);
    hide *;
  }

  ghost predicate FailsInSomeRun(s: State) {
    exists events :: Possible(s, events) && Run(s, events).core.assertFailed
  }

  lemma FailsAfter(s: State, e: Event)
    requires Enabled(s, e) && FailsInSomeRun(Next(s, e))
    ensures FailsInSomeRun(s)
  {
    hide Next, Enabled;
    var events :| Possible(Next(s, e), events) && Run(Next(s, e), events).core.assertFailed;
    var all := [e] + events;
    assert all[1..] == events && all[0] == e;
    assert Possible(s, all) && Run(s, all) == Run(Next(s, e), events);
  }

  lemma PollingCanBeOrphaned(s: State)
    requires Inv(s) && Typed(s.core) && Polling(s)
    ensures FailsInSomeRun(s)
  {
    var lost := Next(s, LoseRecord);
    var seen := Next(lost, RehydrateCheck(0));
    var e := RehydrateWrite(0);
    assert Orphans(seen, e) && Enabled(seen, e);
    StepKeepsInv(s, LoseRecord);
    StepKeepsInv(lost, RehydrateCheck(0));
    StepKeepsInv(seen, e);
    StepKeepsTyped(s, LoseRecord);
    StepKeepsTyped(lost, RehydrateCheck(0));
    StepKeepsTyped(seen, e);
    assert !Armed(seen.core);
    ArmedCanFail(Next(seen, e));
    FailsAfter(seen, e);
    FailsAfter(lost, RehydrateCheck(0));
    FailsAfter(s, LoseRecord);
    hide Inv, CoreInv, Typed, TaskNext;
  }

  /** And such steps do occur: from the start, an assert fails in some run. */
  lemma OrphanedPollFails(requested: JewelryType, fake: bool)
    ensures FailsInSomeRun(Init(Request(Some(requested), false), fake))
  {
    var s0 := Init(Request(Some(requested), false), fake);
    var before := PollingIsReachable(requested, fake);
    InitInv(s0.req, fake);
    RunKeepsTyped(s0, before);
    PollingCanBeOrphaned(Run(s0, before));
    hide Inv, Typed, Polling, Run, Possible, TaskNext;
    var after :| Possible(Run(s0, before), after) && Run(Run(s0, before), after).core.assertFailed;
    RunJoins(s0, before, after);
  }

  lemma {:induction false} RunJoins(s: State, before: seq<Event>, after: seq<Event>)
    requires Possible(s, before) && Possible(Run(s, before), after)
    ensures Possible(s, before + after) && Run(s, before + after) == Run(Run(s, before), after)
    decreases |before|
  {
    hide Next, Enabled;
    if before == [] {
      assert before + after == after;
    } else {
      assert (before + after)[1..] == before[1..] + after;
      RunJoins(Next(s, before[0]), before[1..], after);
    }
  }
}
