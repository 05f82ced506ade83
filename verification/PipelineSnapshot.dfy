/**
 * R2 and R8 while the record is not lost: the token is stored before the provider is called, what is
 * sent is the stored snapshot, and neither ever changes again. Also: no stage's assert ever fails.
 */
module PipelineSnapshot {
  import opened Enums
  import opened Options
  import opened Pipeline
  import opened PipelineSafety

  ghost predicate Intact(v: View, written: bool) {
    && (v.snapshot.Some? <==> written)
    && (!written ==> v.token.None?)
    && (v.token.None? ==> v.providerJobId.None?)
    && (v.status == Resolving ==> v.final.Some?)
    && (v.status == Generating || v.status == Storing || v.status == Succeeded ==> v.providerJobId.Some?)
  }

  ghost predicate SameHandles(a: View, b: View) {
    a.snapshot == b.snapshot && a.token == b.token && a.providerJobId == b.providerJobId
  }

  /** What was sent is what Redis held when it was sent. */
  ghost predicate SentAsStored(c: Call) {
    && c.stored.Full? && c.stored.job.snapshot.Some?
    && c.stored.job.token == Some(c.token)
    && c.stored.job.snapshot.value.row == Row(c.prompt, c.negativePrompt, c.referenceUrl, c.params)
  }

  ghost predicate Faithful(c: Core) {
    && !c.assertFailed
    && !c.stored.Partial?
    && (c.stored.Full? ==> Intact(c.stored.job, c.submittingWritten))
    && (c.worker.Running? ==>
          && c.stored.Full? && Intact(c.worker.job, c.submittingWritten) && SameHandles(c.worker.job, c.stored.job)
          && (c.worker.pc.AtToken? ==> c.worker.job.token.None?)
          && (c.worker.pc.AtSubmit? || c.worker.pc.AtSubmitRaised? || c.worker.pc.AtSubmitted? ==>
                c.worker.job.token.Some? && c.worker.job.providerJobId.None?))
    && (forall i :: 0 <= i < |c.calls| ==>
          && SentAsStored(c.calls[i]) && c.stored.Full?
          && c.stored.job.snapshot == c.calls[i].stored.job.snapshot
          && c.stored.job.token == c.calls[i].stored.job.token)
  }

  ghost predicate Kept(s: State) {
    && Inv(s)
    && (!s.lost ==>
          && Faithful(s.core) && s.rehydrators == {}
          && (s.core.stored.Missing? <==> s.route == NotCreated))
  }

  /** The stored snapshot, token and provider id, once there, stay as they are. */
  ghost predicate HandlesKept(before: Core, after: Core) {
    before.stored.Full? ==>
      && after.stored.Full?
      && (before.stored.job.snapshot.Some? ==> after.stored.job.snapshot == before.stored.job.snapshot)
      && (before.stored.job.token.Some? ==> after.stored.job.token == before.stored.job.token)
      && (before.stored.job.providerJobId.Some? ==> after.stored.job.providerJobId == before.stored.job.providerJobId)
  }

  lemma PersistKeepsFaithful(c: Core, to: JobStatus, error: Option<ErrorCode>, fields: Delta, next: Option<Pc>)
    requires CoreInv(c) && Faithful(c) && c.worker.Running? && WriteShape(c.worker, to, error, fields, next)
    ensures Faithful(Persist(c, to, error, fields, next))
    ensures HandlesKept(c, Persist(c, to, error, fields, next))
  {
    assert c.worker.pc.AtSnapshot? ==> !c.submittingWritten;
    hide CoreInv, PcMatches, Legal;
  }

  lemma TokenKeepsFaithful(c: Core, token: string, fakeDeployment: bool)
    requires CoreInv(c) && Faithful(c) && TaskEnabled(c, TokenWritten(token))
    ensures Faithful(TaskNext(c, TokenWritten(token), fakeDeployment))
    ensures HandlesKept(c, TaskNext(c, TokenWritten(token), fakeDeployment))
  {
    assert c.calls == [] && c.submittingWritten;
    hide CoreInv;
  }

  lemma CallKeepsFaithful(c: Core, outcome: SubmitEnd, fakeDeployment: bool)
    requires CoreInv(c) && Faithful(c) && TaskEnabled(c, ProviderCalled(outcome))
    ensures Faithful(TaskNext(c, ProviderCalled(outcome), fakeDeployment))
    ensures HandlesKept(c, TaskNext(c, ProviderCalled(outcome), fakeDeployment))
  {
    assert c.submittingWritten && c.calls == [];
    hide CoreInv;
    assert SentAsStored(Submission(c.stored, c.worker.job, fakeDeployment));
  }

  lemma MoveKeepsFaithful(c: Core, d: Core)
    requires Faithful(c) && OnlyMoves(c, d) && !d.assertFailed
    ensures Faithful(d) && HandlesKept(c, d)
  {
    hide SentAsStored;
  }

  /** What a stage asserts about its copy is there. */
  lemma AssertsHold(c: Core, e: TaskEvent, fakeDeployment: bool)
    requires CoreInv(c) && Faithful(c) && TaskEnabled(c, e) && IsMove(c, e)
    ensures !TaskNext(c, e, fakeDeployment).assertFailed
  {
    assert PcMatches(c.worker.pc, c.worker.job.status);
    if e == Dispatched {
      DispatchOnlyMoves(c);
    }
    hide CoreInv, Persist, Dispatch, SentAsStored;
  }

  lemma TaskStepKeepsFaithful(c: Core, e: TaskEvent, fakeDeployment: bool)
    requires CoreInv(c) && Faithful(c) && TaskEnabled(c, e)
    ensures Faithful(TaskNext(c, e, fakeDeployment))
    ensures HandlesKept(c, TaskNext(c, e, fakeDeployment))
  {
    hide CoreInv, TaskNext, Persist, OnlyMoves, Faithful, HandlesKept;
    if IsStatusWrite(c, e) {
      var to, error, fields, next := StatusWriteIsPersist(c, e, fakeDeployment);
      PersistKeepsFaithful(c, to, error, fields, next);
    } else if e.TokenWritten? {
      TokenKeepsFaithful(c, e.token, fakeDeployment);
    } else if e.ProviderCalled? {
      CallKeepsFaithful(c, e.outcome, fakeDeployment);
    } else {
      MoveOnlyMoves(c, e, fakeDeployment);
      AssertsHold(c, e, fakeDeployment);
      MoveKeepsFaithful(c, TaskNext(c, e, fakeDeployment));
    }
  }

  lemma OtherStepKeepsKept(s: State, e: Event)
    requires Kept(s) && Enabled(s, e) && !e.Task?
    ensures Kept(Next(s, e))
    ensures !Next(s, e).lost ==> !s.lost && HandlesKept(s.core, Next(s, e).core)
  {
    StepKeepsInv(s, e);
    assert s.route == NotCreated ==> s.core == FRESH;
    assert s.logged ==> s.route != NotCreated;
    assert s.enqueued ==> s.route != NotCreated;
    hide Inv, TaskNext, TaskEnabled, SentAsStored;
  }

  lemma StepKeepsKept(s: State, e: Event)
    requires Kept(s) && Enabled(s, e)
    ensures Kept(Next(s, e))
    ensures !Next(s, e).lost ==> !s.lost && HandlesKept(s.core, Next(s, e).core)
  {
    if e.Task? {
      StepKeepsInv(s, e);
      assert s.enqueued && s.route != NotCreated;
      if !s.lost {
        TaskStepKeepsFaithful(s.core, e.e, s.fakeDeployment);
      }
      hide Inv, CoreInv, TaskNext, Faithful;
    } else {
      OtherStepKeepsKept(s, e);
    }
  }

  lemma {:induction false} RunKeepsKept(s: State, events: seq<Event>)
    requires Kept(s) && Possible(s, events)
    ensures Kept(Run(s, events))
    ensures !Run(s, events).lost ==> !s.lost && HandlesKept(s.core, Run(s, events).core)
    decreases |events|
  {
    hide Next, Enabled, Kept;
    if events != [] {
      StepKeepsKept(s, events[0]);
      RunKeepsKept(Next(s, events[0]), events[1..]);
    }
  }

  lemma InitKept(req: Request, fakeDeployment: bool)
    ensures Kept(Init(req, fakeDeployment))
  {
    InitInv(req, fakeDeployment);
  }

  /**
   * In every run that does not lose the record: each provider call carries the token and the row that
   * Redis already held, they are still the stored ones now, and no stage's assert has failed.
   */
  lemma CallsCarryStoredSnapshot(req: Request, fakeDeployment: bool, events: seq<Event>)
    requires Possible(Init(req, fakeDeployment), events)
    requires !Run(Init(req, fakeDeployment), events).lost
    ensures var c := Run(Init(req, fakeDeployment), events).core;
            && !c.assertFailed
            && forall i :: 0 <= i < |c.calls| ==>
                 var call := c.calls[i];
                 && call.stored.Full? && call.stored.job.snapshot.Some? && call.stored.job.token == Some(call.token)
                 && call.stored.job.snapshot.value.row == Row(call.prompt, call.negativePrompt, call.referenceUrl, call.params)
                 && c.stored.Full? && c.stored.job.snapshot == call.stored.job.snapshot && c.stored.job.token == Some(call.token)
  {
    InitKept(req, fakeDeployment);
    RunKeepsKept(Init(req, fakeDeployment), events);
    hide Run, Possible;
  }

  /** R8: the five snapshot fields, the token and the provider's id never change once written, whoever writes afterwards. */
  lemma SnapshotIsImmutable(req: Request, fakeDeployment: bool, before: seq<Event>, after: seq<Event>)
    requires Possible(Init(req, fakeDeployment), before + after)
    requires !Run(Init(req, fakeDeployment), before + after).lost
    ensures Possible(Init(req, fakeDeployment), before)
    ensures var earlier := Run(Init(req, fakeDeployment), before).core.stored;
            var later := Run(Init(req, fakeDeployment), before + after).core.stored;
            earlier.Full? ==>
              && later.Full?
              && (earlier.job.snapshot.Some? ==> later.job.snapshot == earlier.job.snapshot)
              && (earlier.job.token.Some? ==> later.job.token == earlier.job.token)
              && (earlier.job.providerJobId.Some? ==> later.job.providerJobId == earlier.job.providerJobId)
  {
    var s := Init(req, fakeDeployment);
    RunSplits(s, before, after);
    InitKept(req, fakeDeployment);
    RunKeepsKept(s, before);
    RunKeepsKept(Run(s, before), after);
  }
}
