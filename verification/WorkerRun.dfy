/**
 * A worker among the other writers: what they do follows from the record and from themselves, and what
 * the worker does follows from its own events alone.
 */
module WorkerRun {
  import opened Enums
  import opened Options
  import opened Pipeline
  import opened RecordRun
  import R = JobRecord
  import V = RecordView

  // ---------------------------------------------------------------- the worker among the others

  /** An event of another writer, or of the request; none of them starts a worker. */
  predicate Foreign(e: Event) {
    !e.Task? && !e.StartTask?
  }

  function Own(e: Event): seq<TaskEvent> {
    if e.Task? then [e.e] else []
  }

  /** The worker's own events of a run. */
  function TaskEvents(events: seq<Event>): seq<TaskEvent> {
    if events == [] then [] else Own(events[0]) + TaskEvents(events[1..])
  }

  lemma {:induction false} TaskEventsJoin(a: seq<Event>, b: seq<Event>)
    ensures TaskEvents(a + b) == TaskEvents(a) + TaskEvents(b)
  {
    hide Own;
    if a == [] {
      assert a + b == b;
    } else {
      assert (a + b)[1..] == a[1..] + b;
      TaskEventsJoin(a[1..], b);
      assert Own(a[0]) + (TaskEvents(a[1..]) + TaskEvents(b)) == (Own(a[0]) + TaskEvents(a[1..])) + TaskEvents(b);
    }
  }

  /** What an event of the worker makes of its copy and its place in the code, whatever is stored. */
  function WorkerStep(w: Pipeline.Worker, e: TaskEvent): Pipeline.Worker {
    var c := FRESH.(worker := w);
    if TaskEnabled(c, e) then TaskNext(c, e, false).worker else w
  }

  function WorkerAfter(w: Pipeline.Worker, es: seq<TaskEvent>): Pipeline.Worker
    decreases |es|
  {
    if es == [] then w else WorkerAfter(WorkerStep(w, es[0]), es[1..])
  }

  lemma WorkerIsBlind(c: Core, e: TaskEvent, fakeDeployment: bool)
    requires TaskEnabled(c, e)
    ensures TaskNext(c, e, fakeDeployment).worker == WorkerStep(c.worker, e)
  {
    if e == Dispatched {
      DispatchIsBlind(c);
    }
    hide Dispatch;
  }

  lemma DispatchIsBlind(c: Core)
    requires c.worker.Running?
    ensures Dispatch(c).worker == Dispatch(FRESH.(worker := c.worker)).worker
  {
  }

  lemma OthersLeaveWorker(s: State, e: Event)
    requires Foreign(e) && Enabled(s, e)
    ensures Next(s, e).core.worker == s.core.worker && Next(s, e).core.calls == s.core.calls
    ensures Next(s, e).fakeDeployment == s.fakeDeployment
  {
    hide TaskNext, TaskEnabled, HSet, CreateOver, SweepDelta, NewJob, RehydratedJob;
    if e.SweepRead? || e.SweepWrite? || e.SweepDies? {
    } else if e.RehydrateCheck? || e.RehydrateWrite? || e.RehydrateDies? {
    } else {
      hide Write;
      if e.ResolveRoute? {
        assert Next(s, e).core == Write(s.core, NOTHING.(status := Some(Resolving), final := Some(e.chosen)));
        WriteLeavesWorker(s.core, NOTHING.(status := Some(Resolving), final := Some(e.chosen)));
      }
    }
  }

  lemma WriteLeavesWorker(c: Core, d: Delta)
    ensures Write(c, d).worker == c.worker && Write(c, d).calls == c.calls
  {
    hide HSet;
  }

  /**
   * The stages never notice the others: in every run in which no new worker is started, where the worker
   * stands and what it holds follow from its own events alone, whatever is written in between.
   */
  lemma {:induction false} WorkerFollowsOwnEvents(s: State, events: seq<Event>)
    requires Possible(s, events) && forall e :: e in events ==> !e.StartTask?
    ensures Run(s, events).core.worker == WorkerAfter(s.core.worker, TaskEvents(events))
    decreases |events|
  {
    hide TaskNext, TaskEnabled, WorkerStep;
    if events != [] {
      var e := events[0];
      assert e in events && forall x :: x in events[1..] ==> x in events;
      WorkerFollowsOwnEvents(Next(s, e), events[1..]);
      var rest := TaskEvents(events[1..]);
      if e.Task? {
        WorkerIsBlind(s.core, e.e, s.fakeDeployment);
        assert ([e.e] + rest)[1..] == rest;
      } else {
        OthersLeaveWorker(s, e);
        assert [] + rest == rest;
      }
    }
  }

  /** Without the record and the worker; what is left when only the record is put back. */
  function Around(s: State): State {
    s.(core := FRESH)
  }

  function Seen(around: State, stored: Stored): State {
    around.(core := FRESH.(stored := stored))
  }

  lemma OthersCanLocally(s: State, e: Event)
    requires Foreign(e)
    ensures Enabled(s, e) <==> Enabled(Seen(Around(s), s.core.stored), e)
  {
    hide TaskEnabled;
  }

  /** What the others do depends on the record and on themselves, not on the worker. */
  lemma OthersAreLocal(s: State, e: Event)
    requires Foreign(e) && Enabled(s, e) && Enabled(Seen(Around(s), s.core.stored), e)
    ensures var t := Next(Seen(Around(s), s.core.stored), e);
            Next(s, e).core.stored == t.core.stored && Around(Next(s, e)) == Around(t)
  {
    hide TaskNext, TaskEnabled, HSet, CreateOver, SweepDelta, NewJob, RehydratedJob;
    var around := Seen(Around(s), s.core.stored);
    if e.ResolveRoute? || e.SweepWrite? {
      var d := if e.SweepWrite? then SweepDelta(s.sweepers[e.id]) else NOTHING.(status := Some(Resolving), final := Some(e.chosen));
      assert Write(s.core, d).stored == Write(around.core, d).stored;
    } else {
      hide Write;
    }
  }

  /** The same on whole records: the others never look at the worker's copy. */
  lemma OthersRecordsAreLocal(s: State, k: V.Key, copy: R.Job, other: R.Job, sweepers: map<nat, R.Job>, e: Event, i: Input)
    requires Foreign(e) && Enabled(s, e) && Mirrors(s, Records(k, copy, sweepers))
    requires Enabled(Seen(Around(s), s.core.stored), e)
    ensures Mirrors(Seen(Around(s), s.core.stored), Records(k, other, sweepers))
    ensures InputOk(s, e, i) <==> InputOk(Seen(Around(s), s.core.stored), e, i)
    ensures var t, u := NextRecords(s, Records(k, copy, sweepers), e, i),
                        NextRecords(Seen(Around(s), s.core.stored), Records(k, other, sweepers), e, i);
            t.key == u.key && t.sweepers == u.sweepers && t.copy == copy
  {
    hide KeyFits, CopyOk, TaskRecords, TaskEnabled, ReadCopy, V.FieldsOf, R.WellFormed, V.ViewOf;
  }
}
