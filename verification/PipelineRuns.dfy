/** Runs of the pipeline protocol from the start, as far as a worker polling a generating job. */
module PipelineRuns {
  import opened Enums
  import opened Options
  import opened Pipeline
  import opened PipelineSafety

  const ROW := Row("prompt", None, "", None)
  const SNAPSHOT := Snapshot(ROW, "version")
  const TOKEN := "token"
  const JOB_ID := "provider job"

  /** A real job of a known type, polled by its worker, with nobody else around. */
  ghost predicate Polling(s: State) {
    && s.core.worker.Running? && s.core.worker.pc == AtPoll && s.core.stored == Full(s.core.worker.job)
    && s.core.worker.job.status == Generating && s.core.worker.job.providerJobId.Some? && s.core.worker.job.error.None?
    && s.sweepers == map[] && s.rehydrators == {} && s.logged && s.enqueued && !s.core.assertFailed
  }

  lemma ToDispatch(requested: JewelryType, fake: bool) returns (events: seq<Event>)
    ensures var s0 := Init(Request(Some(requested), false), fake);
            && Possible(s0, events)
            && var s := Run(s0, events);
               && s.core == FRESH.(stored := Full(NewJob(s0.req)), worker := Running(AtDispatch, NewJob(s0.req)))
               && s.sweepers == map[] && s.rehydrators == {} && s.logged && s.enqueued && s.fakeDeployment == fake
  {
    var s := Init(Request(Some(requested), false), fake);
    events := [];
    ExtendRun(s, events, CreateRecord);
    events := events + [CreateRecord];
    ExtendRun(s, events, LogRow);
    events := events + [LogRow];
    ExtendRun(s, events, Enqueue);
    events := events + [Enqueue];
    ExtendRun(s, events, StartTask);
    events := events + [StartTask];
    hide TaskNext;
  }

  lemma ThenTask(s0: State, events: seq<Event>, e: TaskEvent) returns (more: seq<Event>)
    requires Possible(s0, events) && TaskEnabled(Run(s0, events).core, e)
    ensures more == events + [Task(e)] && Possible(s0, more)
    ensures var s := Run(s0, events); Run(s0, more) == s.(core := TaskNext(s.core, e, s.fakeDeployment))
  {
    ExtendRun(s0, events, Task(e));
    more := events + [Task(e)];
    hide TaskNext, TaskEnabled, Run, Possible;
  }

  lemma ToSubmit(s0: State, events: seq<Event>) returns (more: seq<Event>)
    requires Possible(s0, events)
    requires var c := Run(s0, events).core;
             && c.worker.Running? && c.worker.pc == AtDispatch && c.stored == Full(c.worker.job)
             && c.worker.job.status == Queued && c.worker.job.requested.Some? && c.worker.job.error.None?
    ensures Possible(s0, more)
    ensures var s, t := Run(s0, events), Run(s0, more);
            && t == s.(core := t.core)
            && t.core.worker.Running? && t.core.worker.pc == AtSubmit && t.core.stored == Full(t.core.worker.job)
            && t.core.worker.job.status == Submitting && t.core.worker.job.error.None? && t.core.assertFailed == s.core.assertFailed
  {
    hide Run, Possible;
    more := ThenTask(s0, events, Dispatched);
    more := ThenTask(s0, more, TaskEvent.Resolved(SNAPSHOT));
    more := ThenTask(s0, more, SnapshotWritten);
    more := ThenTask(s0, more, TokenWritten(TOKEN));
  }

  /** Such a job can be reached. */
  lemma PollingIsReachable(requested: JewelryType, fake: bool) returns (events: seq<Event>)
    ensures var s0 := Init(Request(Some(requested), false), fake);
            Possible(s0, events) && Polling(Run(s0, events)) && Run(s0, events).fakeDeployment == fake
  {
    var s0 := Init(Request(Some(requested), false), fake);
    events := ToDispatch(requested, fake);
    hide Run, Possible;
    events := ToSubmit(s0, events);
    events := ThenTask(s0, events, ProviderCalled(SubmitOk(JOB_ID)));
    events := ThenTask(s0, events, SubmissionRecorded);
  }

  /** From such a state: the sweep, and after it the poll's own write. */
  lemma ThenRevived(s0: State, events: seq<Event>) returns (failed: seq<Event>, revived: seq<Event>)
    requires Possible(s0, events) && Polling(Run(s0, events)) && CoreInv(Run(s0, events).core)
    ensures Possible(s0, failed) && Possible(s0, failed + revived)
    ensures var before, after := Run(s0, failed).core.stored, Run(s0, failed + revived).core.stored;
            && before.Full? && before.job.status == Failed && before.job.error == Some(ProviderTimeout)
            && after.Full? && after.job.status == Storing && after.job.error == Some(ProviderTimeout)
  {
    hide Run, Possible, CoreInv, TaskNext, TaskEnabled, Next, Enabled;
    failed, revived := events + [SweepRead(0)] + [SweepWrite(0)], [Task(PollEnded(PollSucceeded))];
    StaleCopyRevivesFailedJob(Run(s0, events), 0);
    ExtendRun(s0, events, SweepRead(0));
    ExtendRun(s0, events + [SweepRead(0)], SweepWrite(0));
    assert Run(s0, failed).fakeDeployment == Run(s0, events).fakeDeployment by {
      FakeStays(Run(s0, events), SweepRead(0));
      FakeStays(Run(s0, events + [SweepRead(0)]), SweepWrite(0));
    }
    var more := ThenTask(s0, failed, PollEnded(PollSucceeded));
  }

  lemma FakeStays(s: State, e: Event)
    requires Enabled(s, e)
    ensures Next(s, e).fakeDeployment == s.fakeDeployment
  {
    hide TaskNext, TaskEnabled;
  }

  /**
   * A terminal status is not final: in some run a sweep fails a job, and the worker that has been polling
   * it meanwhile stores it as storing.
   */
  lemma SweptJobIsRevived(requested: JewelryType, fake: bool) returns (failed: seq<Event>, revived: seq<Event>)
    ensures var s0 := Init(Request(Some(requested), false), fake);
            && Possible(s0, failed) && Possible(s0, failed + revived)
            && var before, after := Run(s0, failed).core.stored, Run(s0, failed + revived).core.stored;
               && before.Full? && before.job.status == Failed && before.job.error == Some(ProviderTimeout)
               && after.Full? && after.job.status == Storing && after.job.error == Some(ProviderTimeout)
  {
    var s0 := Init(Request(Some(requested), false), fake);
    var events := PollingIsReachable(requested, fake);
    InitInv(s0.req, fake);
    RunKeepsInv(s0, events);
    hide Run, Possible, CoreInv, Polling;
    failed, revived := ThenRevived(s0, events);
  }
}
