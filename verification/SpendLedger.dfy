/**
 * R5 and R6 over all jobs: paid provider calls are covered by the spend counter. The world is every
 * job ever requested, each with its own run of the pipeline protocol.
 */
module SpendLedger {
  import opened Pipeline
  import opened PipelineSafety

  function PaidCalls(calls: seq<Call>): nat {
    if calls == [] then 0 else (if calls[|calls| - 1].paid then 1 else 0) + PaidCalls(calls[..|calls| - 1])
  }

  /** 1 while the request is between enqueue and increment_spend, or for good if the API process died there. */
  function InGap(s: State): nat {
    if s.route == Route.InGap || s.route == DiedInGap then 1 else 0
  }

  ghost predicate MockKnown(c: Core, mock: bool) {
    && (c.stored.Full? ==> c.stored.job.mock == mock)
    && (c.worker.Running? ==> c.worker.job.mock == mock)
  }

  ghost predicate Billed(s: State) {
    && Inv(s)
    && MockKnown(s.core, s.req.mock)
    && (PaidCalls(s.core.calls) > 0 ==> !s.req.mock && !s.fakeDeployment)
    && s.increments == (if s.route == Answered && !s.req.mock then 1 else 0)
    && (s.req.mock ==> InGap(s) == 0)
  }

  lemma {:induction false} PaidCallsBounded(calls: seq<Call>)
    ensures PaidCalls(calls) <= |calls|
  {
    if calls != [] {
      PaidCallsBounded(calls[..|calls| - 1]);
    }
  }

  lemma PaidCallsAppend(calls: seq<Call>, call: Call)
    ensures PaidCalls(calls + [call]) == PaidCalls(calls) + (if call.paid then 1 else 0)
  {
    assert (calls + [call])[..|calls|] == calls;
  }

  /** Only a call adds to the paid calls, and it is paid only for a job that is not a mock. */
  lemma TaskStepBills(c: Core, e: TaskEvent, mock: bool, fakeDeployment: bool)
    requires CoreInv(c) && TaskEnabled(c, e) && MockKnown(c, mock)
    ensures var d := TaskNext(c, e, fakeDeployment);
            && MockKnown(d, mock)
            && PaidCalls(d.calls) <= PaidCalls(c.calls) + (if e.ProviderCalled? && !mock && !fakeDeployment then 1 else 0)
  {
    if IsStatusWrite(c, e) {
      var to, error, fields, next := StatusWriteIsPersist(c, e, fakeDeployment);
      hide CoreInv, TaskNext, WriteShape;
    } else if e.TokenWritten? {
    } else if e.ProviderCalled? {
      PaidCallsAppend(c.calls, Submission(c.stored, c.worker.job, fakeDeployment));
    } else {
      MoveOnlyMoves(c, e, fakeDeployment);
      hide CoreInv, TaskNext;
    }
  }

  lemma StepKeepsBilled(s: State, e: Event)
    requires Billed(s) && Enabled(s, e)
    ensures Billed(Next(s, e))
  {
    StepKeepsInv(s, e);
    assert s.route == NotCreated ==> s.core == FRESH;
    if e.Task? {
      TaskStepBills(s.core, e.e, s.req.mock, s.fakeDeployment);
    }
    hide Inv, TaskNext, TaskEnabled;
  }

  /** One job's paid calls are at most its increment, or its request still being in the gap. */
  lemma PaidCallsOfJobCovered(s: State)
    requires Billed(s)
    ensures PaidCalls(s.core.calls) <= s.increments + InGap(s)
    ensures s.increments == (if s.route == Answered && !s.req.mock then 1 else 0)
    ensures InGap(s) == (if s.route == Route.InGap || s.route == DiedInGap then 1 else 0)
    ensures s.req.mock || s.fakeDeployment ==> PaidCalls(s.core.calls) == 0
    ensures s.req.mock ==> s.increments == 0
  {
    PaidCallsBounded(s.core.calls);
    assert s.core.calls != [] ==> s.enqueued;
    assert s.enqueued ==> s.route != NotCreated;
  }

  // ---------------------------------------------------------------- all jobs

  type World = seq<State>

  datatype WorldEvent = WorldEvent(job: nat, e: Event)

  ghost predicate WorldPossible(w: World, events: seq<WorldEvent>)
    decreases |events|
  {
    events == [] ||
    (events[0].job < |w| && Enabled(w[events[0].job], events[0].e)
     && WorldPossible(w[events[0].job := Next(w[events[0].job], events[0].e)], events[1..]))
  }

  ghost function WorldRun(w: World, events: seq<WorldEvent>): World
    requires WorldPossible(w, events)
    decreases |events|
  {
    if events == [] then w
    else WorldRun(w[events[0].job := Next(w[events[0].job], events[0].e)], events[1..])
  }

  function TotalPaid(w: World): nat {
    if w == [] then 0 else PaidCalls(w[0].core.calls) + TotalPaid(w[1..])
  }

  function TotalIncrements(w: World): nat {
    if w == [] then 0 else w[0].increments + TotalIncrements(w[1..])
  }

  function TotalInGap(w: World): nat {
    if w == [] then 0 else InGap(w[0]) + TotalInGap(w[1..])
  }

  /** A step of one job changes the totals by what it changes there. */
  lemma {:induction false} TotalsMove(w: World, j: nat, s: State)
    requires j < |w|
    ensures TotalPaid(w[j := s]) == TotalPaid(w) - PaidCalls(w[j].core.calls) + PaidCalls(s.core.calls)
    ensures TotalIncrements(w[j := s]) == TotalIncrements(w) - w[j].increments + s.increments
    ensures TotalInGap(w[j := s]) == TotalInGap(w) - InGap(w[j]) + InGap(s)
  {
    if j == 0 {
      assert w[0 := s][1..] == w[1..];
    } else {
      assert w[j := s][1..] == w[1..][j - 1 := s];
      TotalsMove(w[1..], j - 1, s);
    }
  }

  lemma {:induction false} TotalsCovered(w: World)
    requires forall j :: 0 <= j < |w| ==> Billed(w[j])
    ensures TotalPaid(w) <= TotalIncrements(w) + TotalInGap(w)
  {
    if w != [] {
      PaidCallsOfJobCovered(w[0]);
      TotalsCovered(w[1..]);
    }
  }

  lemma {:induction false} WorldRunKeepsBilled(w: World, events: seq<WorldEvent>)
    requires forall j :: 0 <= j < |w| ==> Billed(w[j])
    requires WorldPossible(w, events)
    ensures |WorldRun(w, events)| == |w|
    ensures forall j :: 0 <= j < |w| ==> Billed(WorldRun(w, events)[j])
    decreases |events|
  {
    hide Billed, Next, Enabled;
    if events != [] {
      var i := events[0].job;
      StepKeepsBilled(w[i], events[0].e);
      WorldRunKeepsBilled(w[i := Next(w[i], events[0].e)], events[1..]);
    }
  }

  function NewWorld(requests: seq<Request>, fakeDeployment: bool): World {
    seq(|requests|, j requires 0 <= j < |requests| => Init(requests[j], fakeDeployment))
  }

  /**
   * Calls to a paid provider never exceed the increments of the spend counter plus the requests
   * between their enqueue and their increment, in every run of every set of jobs.
   */
  lemma PaidCallsCovered(requests: seq<Request>, fakeDeployment: bool, events: seq<WorldEvent>)
    requires WorldPossible(NewWorld(requests, fakeDeployment), events)
    ensures var w := WorldRun(NewWorld(requests, fakeDeployment), events);
            TotalPaid(w) <= TotalIncrements(w) + TotalInGap(w)
  {
    var w := NewWorld(requests, fakeDeployment);
    forall j | 0 <= j < |w| ensures Billed(w[j]) {
      InitInv(requests[j], fakeDeployment);
    }
    WorldRunKeepsBilled(w, events);
    TotalsCovered(WorldRun(w, events));
  }
}
