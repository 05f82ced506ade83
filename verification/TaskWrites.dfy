/**
 * The status writes of the stages: each is a `transition` the guard lets, has its event in the pipeline
 * protocol, and changes the job as `transition` says.
 */
module TaskWrites {
  import opened Enums
  import opened Options
  import opened Pipeline
  import opened PipelineSafety
  import opened RecordRun
  import opened StageWrites
  import opened TaskOutcome
  import opened Transitions
  import opened WorkerRun
  import PollLoop
  import R = JobRecord
  import S = JobStore
  import V = RecordView

  const NO_EXTRAS := Extras(0, 0.0, [], "", [])

  /** `transition`, field by field: the new status, its error, the times, the caller's own fields, and nothing else. */
  ghost predicate Became(j: R.Job, after: R.Job, to: JobStatus, error: Option<ErrorCode>, fields: R.Patch, at: nat) {
    forall f :: BecameAt(j, after, to, error, fields, at, f)
  }

  predicate BecameAt(j: R.Job, after: R.Job, to: JobStatus, error: Option<ErrorCode>, fields: R.Patch, at: nat, f: R.Field) {
    R.Attribute(after, f)
    == if f in fields then fields[f]
       else if f == R.Status then Some(R.OfStatus(to))
       else if f == R.Error && error.Some? then Some(R.OfError(error.value))
       else if f == R.UpdatedAt || (f == R.CompletedAt && Terminal(to)) then Some(R.Time(at))
       else R.Attribute(j, f)
  }

  lemma UpdatedBecame(j: R.Job, to: JobStatus, error: Option<ErrorCode>, fields: R.Patch, at: nat)
    requires R.OwnFields(fields)
    ensures Became(j, R.Replace(j, R.TransitionUpdates(to, error, None, fields, at)), to, error, fields, at)
  {
    hide R.Replace, R.TransitionUpdates, R.Attribute, BecameAt, R.OwnFields;
    forall f: R.Field ensures BecameAt(j, R.Replace(j, R.TransitionUpdates(to, error, None, fields, at)), to, error, fields, at, f) {
      FieldBecame(j, to, error, fields, at, f);
    }
  }

  lemma FieldBecame(j: R.Job, to: JobStatus, error: Option<ErrorCode>, fields: R.Patch, at: nat, f: R.Field)
    requires R.OwnFields(fields)
    ensures BecameAt(j, R.Replace(j, R.TransitionUpdates(to, error, None, fields, at)), to, error, fields, at, f)
  {
    hide R.Replace, R.TransitionUpdates, R.Attribute, Terminal;
    R.TransitionedField(j, f, to, error, None, fields, at);
    hide R.OwnFields;
  }

  // ---------------------------------------------------------------- the protocol's side of a write

  /** The protocol's event for a transition-and-persist with these arguments, after which a stage goes on at `next`. */
  ghost predicate Writes(c: Core, j: R.Job, e: TaskEvent, x: Extras, to: JobStatus, error: Option<ErrorCode>, fields: R.Patch, next: Option<Pc>) {
    && TaskEnabled(c, e) && IsStatusWrite(c, e) && c.worker.job == V.ViewOf(j)
    && WriteOf(c.worker.pc, c.worker.job, e) == StatusWrite(to, error, WriteOf(c.worker.pc, c.worker.job, e).fields, next)
    && fields == StageFields(j, c.worker.pc, e, x)
  }

  lemma StageFieldsHaveNoTime(j: R.Job, pc: Pc, e: TaskEvent, x: Extras, now: nat)
    ensures StageFields(j, pc, e, x.(now := now)) == StageFields(j, pc, e, x)
  {
    hide V.ViewOf, V.TypeAt;
  }

  /** The guard lets it, and it is what the protocol makes of the worker's copy. */
  lemma WriteFits(c: Core, j: R.Job, e: TaskEvent, x: Extras, to: JobStatus, error: Option<ErrorCode>, fields: R.Patch, next: Option<Pc>)
    requires CoreInv(c) && Writes(c, j, e, x, to, error, fields, next) && CopyOk(j, c.worker.job)
    ensures R.Status in j && j[R.Status].OfStatus? && R.OwnFields(fields)
    ensures Guard(j[R.Status].status, to, error).None?
    ensures R.Transition(j, to, error, None, fields, x.now) == Ok(Updated(j, c.worker.pc, e, x))
  {
    StageFieldsAreOwn(j, c.worker.pc, e, x);
    StageTransition(c, e, j, x);
    hide CoreInv, CopyOk, StageFields, WriteOf, Guard, R.Replace, R.TransitionUpdates, Updated, TaskEnabled;
    hide IsStatusWrite, V.ViewOf;
  }

  /** Where the protocol then stands, and what it has on record. */
  lemma WriteGoesOn(c: Core, m: Records, e: TaskEvent, x: Extras, to: JobStatus, error: Option<ErrorCode>, fields: R.Patch,
                    next: Option<Pc>, fakeDeployment: bool)
    requires CoreInv(c) && Writes(c, m.copy, e, x, to, error, fields, next) && CopyOk(m.copy, c.worker.job)
    ensures TaskEnabled(c, e)
    ensures var d, t := TaskNext(c, e, fakeDeployment), TaskRecords(c, m, e, x);
            && d.calls == c.calls && t.sweepers == m.sweepers
            && (if next.Some? then d.worker.Running? && d.worker.pc == next.value else d.worker == Idle)
            && R.Status in m.copy && m.copy[R.Status].OfStatus?
            && R.Transition(m.copy, to, error, None, fields, x.now) == Ok(t.copy)
            && t.key == KeyAfter(m.key, R.PersistArguments(t.copy, fields))
  {
    var to', error', fields', next' := StatusWriteIsPersist(c, e, fakeDeployment);
    WriteFits(c, m.copy, e, x, to, error, fields, next);
    hide CoreInv, CopyOk, TaskNext, WriteOf, HSet, Merge, Updated, StageFields, KeyAfter, R.PersistArguments;
    hide R.Transition, IsStatusWrite;
    hide TaskEnabled, V.ViewOf, Guard;
  }

  lemma SameWrite(c: Core, d: Core, j: R.Job, e: TaskEvent, x: Extras, to: JobStatus, error: Option<ErrorCode>, fields: R.Patch, next: Option<Pc>)
    requires c.worker == d.worker && Writes(c, j, e, x, to, error, fields, next)
    ensures forall now :: Writes(d, j, e, x.(now := now), to, error, fields, next)
  {
    forall now {
      StageFieldsHaveNoTime(j, c.worker.pc, e, x, now);
    }
    hide StageFields, WriteOf, V.ViewOf;
  }

  // ---------------------------------------------------------------- stage by stage: event, status, error and keyword arguments

  lemma DispatchWrites(c: Core, j: R.Job, x: Extras)
    requires c.worker.Running? && c.worker.pc == AtDispatch && c.worker.job == V.ViewOf(j)
    ensures var requested := V.TypeAt(j, R.JewelryTypeRequested);
            V.StatusAt(j) == Some(Queued) ==>
              if requested.Some? then
                Writes(c, j, Dispatched, x, Resolving, None,
                       map[R.JewelryTypeFinal := Some(R.OfType(requested.value)), R.TypeSource := Some(R.OfSource(Provided))], Some(AtResolve))
              else Writes(c, j, Dispatched, x, Classifying, None, map[], Some(AtClassify))
    ensures V.StatusAt(j) == Some(Submitting) ==> Writes(c, j, Dispatched, x, NeedsReview, Some(OrphanedSubmit), map[], None)
  {
    hide V.SnapshotAt, V.ErrorAt, V.StrAt;
  }

  lemma ClassifyWrites(c: Core, j: R.Job, top: JewelryType, x: Extras)
    requires c.worker.Running? && c.worker.pc == AtClassify && c.worker.job == V.ViewOf(j)
    ensures var guess: R.Patch := map[R.Confidence := Some(R.Float(x.confidence)),
                                      R.CandidateTypes := Some(R.Data(R.Candidates(x.candidates)))];
            var typed: R.Patch := map[R.JewelryTypeFinal := Some(R.OfType(top)), R.TypeSource := Some(R.OfSource(Classified))];
            && Writes(c, j, ClassifyEnded(NotJewelryFound), x, Failed, Some(NotJewelry), guess, None)
            && Writes(c, j, ClassifyEnded(Confident(top)), x, Resolving, None, typed + guess, Some(AtResolve))
            && Writes(c, j, ClassifyEnded(Unsure), x, NeedsInput, Some(LowConfidence), guess, None)
  {
    hide V.ViewOf;
  }

  lemma LookupWrites(c: Core, j: R.Job, x: Extras)
    requires c.worker.Running? && c.worker.pc == AtResolve && c.worker.job == V.ViewOf(j) && V.TypeAt(j, R.JewelryTypeFinal).Some?
    ensures Writes(c, j, ResolveFailed(Unavailable), x, Failed, Some(MatrixUnavailable), map[], None)
    ensures Writes(c, j, ResolveFailed(Miss), x, Failed, Some(MatrixMiss), map[], None)
  {
    assert V.ViewOf(j).providerJobId == V.StrAt(j, R.ProviderJobId) && V.ViewOf(j).final == V.TypeAt(j, R.JewelryTypeFinal);
    hide V.ViewOf;
  }

  function SnapshotKeywords(row: Row, version: string): R.Patch {
    map[R.PromptSnapshot := Some(R.Str(row.prompt)),
        R.NegativePromptSnapshot := if row.negativePrompt.Some? then Some(R.Str(row.negativePrompt.value)) else None,
        R.ReferenceUrlSnapshot := Some(R.Str(row.referenceUrl)),
        R.ProviderParamsSnapshot := if row.params.Some? then Some(R.Data(R.Params(row.params.value))) else None,
        R.MatrixVersion := Some(R.Str(version))]
  }

  lemma SnapshotWrites(c: Core, j: R.Job, row: Row, version: string, x: Extras)
    requires c.worker.Running? && c.worker.pc == AtSnapshot(Snapshot(row, version)) && c.worker.job == V.ViewOf(j)
    ensures Writes(c, j, SnapshotWritten, x, Submitting, None, SnapshotKeywords(row, version), Some(AtToken))
  {
    hide V.ViewOf;
  }

  lemma SubmitWrites(c: Core, j: R.Job, x: Extras)
    requires c.worker.Running? && c.worker.job == V.ViewOf(j)
    ensures c.worker.pc == AtSubmitRaised ==> Writes(c, j, RaiseParked, x, NeedsReview, Some(OrphanedSubmit), map[], None)
    ensures c.worker.pc.AtSubmitted? ==>
              Writes(c, j, SubmissionRecorded, x, Generating, None,
                     map[R.ProviderJobId := Some(R.Str(c.worker.pc.id)), R.Provider := Some(R.Str(x.provider))], Some(AtPoll))
  {
    hide V.ViewOf;
  }

  lemma PollWrites(c: Core, j: R.Job, x: Extras)
    requires c.worker.Running? && c.worker.pc == AtPoll && c.worker.job == V.ViewOf(j) && V.StrAt(j, R.ProviderJobId).Some?
    ensures Writes(c, j, PollEnded(PollSucceeded), x, Storing, None, map[], Some(AtStore))
    ensures Writes(c, j, PollEnded(PollFailed), x, JobStatus.Failed, Some(ProviderError),
                   map[R.AttemptCount := Some(R.Int(Attempts(j) + 1))], None)
  {
    assert V.ViewOf(j).providerJobId == V.StrAt(j, R.ProviderJobId) && V.ViewOf(j).final == V.TypeAt(j, R.JewelryTypeFinal);
    hide V.ViewOf, Attempts;
  }

  lemma StoreWrites(c: Core, j: R.Job, x: Extras)
    requires c.worker.Running? && c.worker.pc == AtStore && c.worker.job == V.ViewOf(j) && V.StrAt(j, R.ProviderJobId).Some?
    ensures Writes(c, j, StoreEnded(true), x, Succeeded, None, map[R.AssetRefs := Some(R.Data(R.Refs(x.assets)))], None)
    ensures Writes(c, j, StoreEnded(false), x, Failed, Some(StorageError), map[], None)
  {
    assert V.ViewOf(j).providerJobId == V.StrAt(j, R.ProviderJobId) && V.ViewOf(j).final == V.TypeAt(j, R.JewelryTypeFinal);
    hide V.ViewOf;
  }

  // ---------------------------------------------------------------- what a write makes of the job

  predicate Halts(s: JobStatus) {
    s == Succeeded || s == Failed || s == NeedsInput || s == NeedsReview || s == Generating
  }

  lemma Lifecycled(j: R.Job, after: R.Job, to: JobStatus, error: Option<ErrorCode>, fields: R.Patch, at: nat)
    requires Became(j, after, to, error, fields, at) && R.OwnFields(fields)
    ensures Has(after, R.Status, R.OfStatus(to)) && V.StatusAt(after) == Some(to) && (error.Some? ==> Has(after, R.Error, R.OfError(error.value)))
    ensures Halts(to) ==> Parked(after)
  {
    assert BecameAt(j, after, to, error, fields, at, R.Status) && BecameAt(j, after, to, error, fields, at, R.Error);
    hide Became;
  }

  lemma FieldWritten(j: R.Job, after: R.Job, to: JobStatus, error: Option<ErrorCode>, fields: R.Patch, at: nat, f: R.Field)
    requires Became(j, after, to, error, fields, at) && !R.Lifecycle(f)
    ensures R.Attribute(after, f) == if f in fields then fields[f] else R.Attribute(j, f)
  {
    assert BecameAt(j, after, to, error, fields, at, f);
    hide Became, R.Attribute;
  }

  /** A field that no stage passes, and the count unless it is passed. */
  lemma CountAndMockKept(j: R.Job, after: R.Job, to: JobStatus, error: Option<ErrorCode>, fields: R.Patch, at: nat)
    requires Became(j, after, to, error, fields, at) && R.Mock !in fields
    ensures R.Attribute(after, R.Mock) == R.Attribute(j, R.Mock)
    ensures R.AttemptCount !in fields ==> Attempts(after) == Attempts(j)
  {
    FieldWritten(j, after, to, error, fields, at, R.Mock);
    FieldWritten(j, after, to, error, fields, at, R.AttemptCount);
    hide Became;
  }

  /** The fields a stage after the submission leaves alone. */
  ghost predicate KeepsSubmission(j: R.Job, after: R.Job) {
    forall f :: OfSubmission(f) ==> R.Attribute(after, f) == R.Attribute(j, f)
  }

  predicate OfSubmission(f: R.Field) {
    V.SnapshotField(f) || f == R.SubmissionToken || f == R.ProviderJobId || f == R.Provider
  }

  lemma SubmissionKept(j: R.Job, after: R.Job, to: JobStatus, error: Option<ErrorCode>, fields: R.Patch, at: nat)
    requires Became(j, after, to, error, fields, at) && forall f :: f in fields ==> !OfSubmission(f)
    ensures KeepsSubmission(j, after)
  {
    hide Became, R.Attribute;
    forall f | OfSubmission(f) ensures R.Attribute(after, f) == R.Attribute(j, f) {
      FieldWritten(j, after, to, error, fields, at, f);
    }
  }

  lemma KeptSnapshot(j: R.Job, after: R.Job, row: Row, version: string)
    requires SnapshotTaken(j, row, version)
    requires forall f :: V.SnapshotField(f) ==> R.Attribute(after, f) == R.Attribute(j, f)
    ensures SnapshotTaken(after, row, version)
  {
    assert V.SnapshotField(R.PromptSnapshot) && V.SnapshotField(R.NegativePromptSnapshot) && V.SnapshotField(R.ReferenceUrlSnapshot)
           && V.SnapshotField(R.ProviderParamsSnapshot) && V.SnapshotField(R.MatrixVersion);
    hide V.SnapshotField;
  }

  lemma SnapshotWrittenIsTaken(j: R.Job, after: R.Job, row: Row, version: string, at: nat)
    requires Became(j, after, Submitting, None, SnapshotKeywords(row, version), at)
    ensures SnapshotTaken(after, row, version)
  {
    hide Became;
    FieldWritten(j, after, Submitting, None, SnapshotKeywords(row, version), at, R.PromptSnapshot);
    FieldWritten(j, after, Submitting, None, SnapshotKeywords(row, version), at, R.NegativePromptSnapshot);
    FieldWritten(j, after, Submitting, None, SnapshotKeywords(row, version), at, R.ReferenceUrlSnapshot);
    FieldWritten(j, after, Submitting, None, SnapshotKeywords(row, version), at, R.ProviderParamsSnapshot);
    FieldWritten(j, after, Submitting, None, SnapshotKeywords(row, version), at, R.MatrixVersion);
  }

  lemma GuessKept(j: R.Job, after: R.Job, to: JobStatus, error: Option<ErrorCode>, fields: R.Patch, at: nat, x: Extras)
    requires Became(j, after, to, error, fields, at) && R.Mock !in fields && R.AttemptCount !in fields
    requires R.Confidence in fields && fields[R.Confidence] == Some(R.Float(x.confidence))
    requires R.CandidateTypes in fields && fields[R.CandidateTypes] == Some(R.Data(R.Candidates(x.candidates)))
    ensures Has(after, R.Confidence, R.Float(x.confidence)) && Has(after, R.CandidateTypes, R.Data(R.Candidates(x.candidates)))
    ensures Attempts(after) == Attempts(j) && R.Attribute(after, R.Mock) == R.Attribute(j, R.Mock)
  {
    CountAndMockKept(j, after, to, error, fields, at);
    FieldWritten(j, after, to, error, fields, at, R.Confidence);
    FieldWritten(j, after, to, error, fields, at, R.CandidateTypes);
    hide Became, R.Attribute, Attempts;
  }

  lemma TypeKept(j: R.Job, after: R.Job, fields: R.Patch, at: nat, t: JewelryType, source: Enums.TypeSource)
    requires Became(j, after, Resolving, None, fields, at)
    requires R.JewelryTypeFinal in fields && fields[R.JewelryTypeFinal] == Some(R.OfType(t))
    requires R.TypeSource in fields && fields[R.TypeSource] == Some(R.OfSource(source))
    ensures Has(after, R.JewelryTypeFinal, R.OfType(t)) && Has(after, R.TypeSource, R.OfSource(source))
    ensures V.TypeAt(after, R.JewelryTypeFinal) == Some(t)
  {
    FieldWritten(j, after, Resolving, None, fields, at, R.JewelryTypeFinal);
    FieldWritten(j, after, Resolving, None, fields, at, R.TypeSource);
    hide Became;
  }

  lemma NoCountInSnapshot(row: Row, version: string)
    ensures R.Mock !in SnapshotKeywords(row, version) && R.AttemptCount !in SnapshotKeywords(row, version)
  {
  }

  lemma TokenReplaced(j: R.Job, token: string, row: Row, version: string)
    requires SnapshotTaken(j, row, version)
    ensures var fields: R.Patch := map[R.SubmissionToken := Some(R.Str(token))];
            var after := R.Replace(j, fields);
            && fields == TokenFields(token)
            && SnapshotTaken(after, row, version) && Has(after, R.SubmissionToken, R.Str(token))
            && (Has(j, R.Status, R.OfStatus(Submitting)) ==> Has(after, R.Status, R.OfStatus(Submitting)))
            && Attempts(after) == Attempts(j) && R.Attribute(after, R.Mock) == R.Attribute(j, R.Mock)
  {
    var fields: R.Patch := map[R.SubmissionToken := Some(R.Str(token))];
    var after := R.Replace(j, fields);
    hide R.Replace, SnapshotTaken, V.SnapshotField;
    forall f ensures R.Attribute(after, f) == if f == R.SubmissionToken then Some(R.Str(token)) else R.Attribute(j, f) {
      R.ReplacedField(j, fields, f);
      hide R.Attribute;
    }
    assert !V.SnapshotField(R.SubmissionToken) by {
      NoToken();
    }
    KeptSnapshot(j, after, row, version);
    hide R.Attribute;
    SameCount(j, after);
  }

  lemma ViewFinal(j: R.Job)
    ensures V.ViewOf(j).final == V.TypeAt(j, R.JewelryTypeFinal) && V.ViewOf(j).providerJobId == V.StrAt(j, R.ProviderJobId)
  {
  }

  lemma NoToken()
    ensures !V.SnapshotField(R.SubmissionToken)
  {
  }

  lemma SameCount(j: R.Job, after: R.Job)
    requires R.Attribute(after, R.AttemptCount) == R.Attribute(j, R.AttemptCount)
    ensures Attempts(after) == Attempts(j)
  {
  }

  lemma ResolvedGoesOn(c: Core, snapshot: Snapshot, fakeDeployment: bool)
    requires c.worker.Running? && c.worker.pc == AtResolve && c.worker.job.final.Some?
    ensures TaskEnabled(c, TaskEvent.Resolved(snapshot))
    ensures TaskNext(c, TaskEvent.Resolved(snapshot), fakeDeployment) == c.(worker := Running(AtSnapshot(snapshot), c.worker.job))
    ensures forall m, x :: TaskRecords(c, m, TaskEvent.Resolved(snapshot), x) == m
  {
  }

  lemma LeftGoesOn(c: Core, fakeDeployment: bool)
    requires c.worker.Running? && c.worker.pc == AtPoll && c.worker.job.providerJobId.Some?
    ensures TaskEnabled(c, PollEnded(PollEnd.LeftGenerating))
    ensures TaskNext(c, PollEnded(PollEnd.LeftGenerating), fakeDeployment) == c.(worker := Idle)
    ensures forall m, x :: TaskRecords(c, m, PollEnded(PollEnd.LeftGenerating), x) == m
  {
  }

  lemma GeneratingIsParked(j: R.Job)
    requires Has(j, R.Status, R.OfStatus(Generating))
    ensures Parked(j) && KeepsSubmission(j, j)
  {
  }

  lemma CallIsSubmission(j: R.Job, call: Call, row: Row, version: string, a: Answers, fakeDeployment: bool, stored: Stored)
    requires SnapshotTaken(j, row, version) && Has(j, R.SubmissionToken, R.Str(a.token)) && a.lookup == Found(row)
    requires call == Call(a.token, V.StrAt(j, R.PromptSnapshot).GetOr(""), V.StrAt(j, R.ReferenceUrlSnapshot).GetOr(""),
                          V.StrAt(j, R.NegativePromptSnapshot), V.ParamsAt(j),
                          !Has(j, R.Mock, R.Bool(true)) && !fakeDeployment, stored)
    ensures call == Submission(stored, V.ViewOf(j), fakeDeployment) && IsCall(call, j, row, a, fakeDeployment)
  {
    hide V.TypeAt, V.ErrorAt, V.StatusAt;
  }

  lemma KeptHandles(j: R.Job, after: R.Job, row: Row, version: string, token: string)
    requires KeepsSubmission(j, after) && SnapshotTaken(j, row, version) && Has(j, R.SubmissionToken, R.Str(token))
    ensures SnapshotTaken(after, row, version) && Has(after, R.SubmissionToken, R.Str(token))
  {
    assert OfSubmission(R.SubmissionToken);
    forall f | V.SnapshotField(f) ensures R.Attribute(after, f) == R.Attribute(j, f) {
      assert OfSubmission(f);
    }
    KeptSnapshot(j, after, row, version);
    hide SnapshotTaken, V.SnapshotField, R.Attribute;
  }

  lemma KeptId(j: R.Job, after: R.Job, id: string, provider: string)
    requires KeepsSubmission(j, after) && Has(j, R.ProviderJobId, R.Str(id)) && Has(j, R.Provider, R.Str(provider))
    ensures Has(after, R.ProviderJobId, R.Str(id)) && Has(after, R.Provider, R.Str(provider))
  {
    assert OfSubmission(R.ProviderJobId) && OfSubmission(R.Provider);
    hide R.Attribute;
  }

  lemma KeptIdStays(j: R.Job, after: R.Job)
    requires KeepsSubmission(j, after)
    ensures V.StrAt(after, R.ProviderJobId) == V.StrAt(j, R.ProviderJobId)
  {
    assert OfSubmission(R.ProviderJobId);
    assert R.Attribute(after, R.ProviderJobId) == R.Attribute(j, R.ProviderJobId);
    hide KeepsSubmission;
  }

  lemma KeptTwice(a: R.Job, b: R.Job, c: R.Job)
    requires KeepsSubmission(a, b) && KeepsSubmission(b, c)
    ensures KeepsSubmission(a, c)
  {
    hide R.Attribute, OfSubmission;
  }

  lemma SubmissionKnown(j: R.Job, after: R.Job, fields: R.Patch, at: nat, row: Row, version: string, token: string, id: string,
                        provider: string)
    requires fields == map[R.ProviderJobId := Some(R.Str(id)), R.Provider := Some(R.Str(provider))]
    requires Became(j, after, Generating, None, fields, at)
    requires SnapshotTaken(j, row, version) && Has(j, R.SubmissionToken, R.Str(token))
    ensures Has(after, R.ProviderJobId, R.Str(id)) && Has(after, R.Provider, R.Str(provider)) && V.StrAt(after, R.ProviderJobId) == Some(id)
    ensures SnapshotTaken(after, row, version) && Has(after, R.SubmissionToken, R.Str(token)) && Attempts(after) == Attempts(j)
  {
    FieldWritten(j, after, Generating, None, fields, at, R.ProviderJobId);
    FieldWritten(j, after, Generating, None, fields, at, R.Provider);
    FieldWritten(j, after, Generating, None, fields, at, R.SubmissionToken);
    CountAndMockKept(j, after, Generating, None, fields, at);
    forall f | V.SnapshotField(f) ensures R.Attribute(after, f) == R.Attribute(j, f) {
      FieldWritten(j, after, Generating, None, fields, at, f);
    }
    KeptSnapshot(j, after, row, version);
    hide Became, SnapshotTaken, V.SnapshotField;
  }

  lemma ViewStatus(j: R.Job)
    ensures V.StatusAt(j).Some? ==> V.ViewOf(j).status == V.StatusAt(j).value
    ensures R.WellFormed(j) ==> V.StatusAt(j) == Some(S.StatusOf(j))
  {
    assert R.KindOf(R.Status) == R.KStatus && R.Demanded(R.Status);
  }

  /** What is dispatched on each status: the events, the exceptions that escape, and the call. */
  lemma DispatchMeans(j: R.Job, a: Answers, verdict: PollLoop.Verdict)
    ensures V.StatusAt(j) == Some(Queued) ==>
              var requested := V.TypeAt(j, R.JewelryTypeRequested);
              if requested.Some? then
                && DispatchEvents(V.ViewOf(j), a, verdict) == [Dispatched] + ResolveEvents(requested, a, verdict)
                && (DispatchReturns(j, a) <==> ResolveReturns(a)) && (DispatchSends(j, a) <==> Sends(a))
              else
                && DispatchEvents(V.ViewOf(j), a, verdict) == [Dispatched] + ClassifyEvents(a, verdict)
                && (DispatchReturns(j, a) <==> Guessed(a) && (SureOfJewelry(a) ==> ResolveReturns(a)))
                && (DispatchSends(j, a) <==> SureOfJewelry(a) && Sends(a))
    ensures V.StatusAt(j) == Some(Classifying) ==>
              && DispatchEvents(V.ViewOf(j), a, verdict) == [Dispatched] + ClassifyEvents(a, verdict)
              && (DispatchReturns(j, a) <==> Guessed(a) && (SureOfJewelry(a) ==> ResolveReturns(a)))
              && (DispatchSends(j, a) <==> SureOfJewelry(a) && Sends(a))
    ensures V.StatusAt(j) == Some(Resolving) ==>
              var final := V.TypeAt(j, R.JewelryTypeFinal);
              && DispatchEvents(V.ViewOf(j), a, verdict) == [Dispatched] + ResolveEvents(final, a, verdict)
              && (DispatchReturns(j, a) <==> final.Some? && ResolveReturns(a)) && (DispatchSends(j, a) <==> final.Some? && Sends(a))
    ensures V.StatusAt(j) == Some(Submitting) ==>
              DispatchEvents(V.ViewOf(j), a, verdict) == [Dispatched] && DispatchReturns(j, a) && !DispatchSends(j, a)
    ensures V.StatusAt(j) == Some(Generating) ==>
              && DispatchEvents(V.ViewOf(j), a, verdict) == [Dispatched] + PollEvents(a, verdict)
              && (DispatchReturns(j, a) <==> V.StrAt(j, R.ProviderJobId).Some?) && !DispatchSends(j, a)
    ensures V.StatusAt(j) == Some(Storing) ==>
              && DispatchEvents(V.ViewOf(j), a, verdict) == [Dispatched] + StoreEvents(a)
              && (DispatchReturns(j, a) <==> V.StrAt(j, R.ProviderJobId).Some?) && !DispatchSends(j, a)
  {
    hide ResolveEvents, ClassifyEvents, PollEvents, StoreEvents, ResolveReturns, Sends, Guessed, SureOfJewelry;
    hide V.TypeAt, V.StrAt, V.SnapshotAt, V.ErrorAt;
  }

  /** ... and the job it leaves. */
  lemma DispatchLeaves(j: R.Job, r: Outcome, a: Answers, verdict: PollLoop.Verdict)
    requires r.Returned?
    requires V.StatusAt(j) == Some(Queued) && V.TypeAt(j, R.JewelryTypeRequested).Some? ==> ResolvedAs(r.job, Attempts(j), a, verdict)
    requires V.StatusAt(j) == Some(Classifying) || (V.StatusAt(j) == Some(Queued) && V.TypeAt(j, R.JewelryTypeRequested).None?) ==>
               if SureOfJewelry(a) then ResolvedAs(r.job, Attempts(j), a, verdict)
               else Guessed(a) && ClassifiedAs(r.job, a.classified.value, a.threshold)
    requires V.StatusAt(j) == Some(Resolving) ==> ResolvedAs(r.job, Attempts(j), a, verdict)
    requires V.StatusAt(j) == Some(Submitting) ==> Ends(r.job, NeedsReview, OrphanedSubmit)
    requires V.StatusAt(j) == Some(Generating) ==> PolledAs(r.job, Attempts(j), a, verdict)
    requires V.StatusAt(j) == Some(Storing) ==> StoredAs(r.job, a)
    ensures DispatchedAs(j, r.job, a, verdict)
  {
    hide ResolvedAs, ClassifiedAs, PolledAs, StoredAs, Ends, SureOfJewelry, V.StatusAt, V.TypeAt, Attempts;
  }

  lemma NoneCalled(calls: seq<Call>, j: R.Job, a: Answers, fakeDeployment: bool)
    ensures Called(calls, calls, false, j, a, fakeDeployment)
  {
  }

  lemma OnlyLive(j: R.Job, status: JobStatus)
    requires Has(j, R.Status, R.OfStatus(status)) && !Terminal(status)
    ensures V.StatusAt(j) == Some(status)
    ensures status in {Queued, Classifying, Resolving, Submitting, Generating, Storing}
  {
  }

  lemma ResumeGoesOn(c: Core, fakeDeployment: bool)
    requires c.worker.Running? && c.worker.pc == AtDispatch && ResumesAt(Some(c.worker.job.status)).Some?
    ensures TaskEnabled(c, Dispatched)
    ensures TaskNext(c, Dispatched, fakeDeployment) == c.(worker := Running(ResumesAt(Some(c.worker.job.status)).value, c.worker.job))
    ensures forall m, x :: TaskRecords(c, m, Dispatched, x) == m
  {
  }

  lemma CalledForSame(before: seq<Call>, after: seq<Call>, sends: bool, j: R.Job, k: R.Job, a: Answers, fakeDeployment: bool)
    requires Called(before, after, sends, j, a, fakeDeployment) && R.Attribute(j, R.Mock) == R.Attribute(k, R.Mock)
    ensures Called(before, after, sends, k, a, fakeDeployment)
  {
  }

  lemma StartGoesOn(s: State, m: Records, i: Input)
    requires s.enqueued && s.core.worker == Idle && s.core.stored.Full? && !Terminal(s.core.stored.job.status)
    requires R.Truncated(ReadCopy(m.key)) == ReadCopy(m.key)
    ensures Enabled(s, StartTask) && InputOk(s, StartTask, i)
    ensures Next(s, StartTask) == s.(core := s.core.(worker := Running(AtDispatch, s.core.stored.job)))
    ensures Mirrors(s, m) ==> NextRecords(s, m, StartTask, i) == m.(copy := ReadCopy(m.key))
    ensures InSync(m.(copy := ReadCopy(m.key)))
  {
    hide Mirrors, R.Truncated, TaskNext, TaskRecords;
  }

  lemma TaskIsStep(s: State, e: TaskEvent, i: Input)
    requires TaskEnabled(s.core, e)
    ensures Enabled(s, Task(e)) && InputOk(s, Task(e), i)
    ensures Next(s, Task(e)) == s.(core := TaskNext(s.core, e, s.fakeDeployment)) && Around(Next(s, Task(e))) == Around(s)
  {
    hide TaskNext, TaskEnabled;
  }

  lemma CalledGoesOn(c: Core, outcome: SubmitEnd, fakeDeployment: bool)
    requires c.worker.Running? && c.worker.pc == AtSubmit
    ensures TaskEnabled(c, ProviderCalled(outcome))
    ensures var d := TaskNext(c, ProviderCalled(outcome), fakeDeployment);
            && d.calls == c.calls + [Submission(c.stored, c.worker.job, fakeDeployment)] && d.stored == c.stored
            && d.worker == Running(if outcome.SubmitRaised? then AtSubmitRaised else AtSubmitted(outcome.id), c.worker.job)
    ensures forall m, x :: TaskRecords(c, m, ProviderCalled(outcome), x) == m
  {
    hide Submission;
  }

  /** What the code can see of another writer's event is what the protocol makes of it. */
  lemma OtherStep(s: State, m: Records, k: V.Key, sweepers: map<nat, R.Job>, e: Event, i: Input)
    requires Mirrors(s, m) && m.key == k && m.sweepers == sweepers && V.KeyOk(k) && V.StoredAs(k) == s.core.stored
    requires Foreign(e) && Enabled(Seen(Around(s), V.StoredAs(k)), e) && InputOk(Seen(Around(s), V.StoredAs(k)), e, i)
    ensures Enabled(s, e) && InputOk(s, e, i) && !e.Task?
    ensures var seen := Seen(Around(s), V.StoredAs(k));
            && Mirrors(seen, Records(k, map[], sweepers))
            && var n, l, t := NextRecords(s, m, e, i), NextRecords(seen, Records(k, map[], sweepers), e, i), Next(s, e);
               && n.key == l.key && n.sweepers == l.sweepers && n.copy == m.copy
               && Around(t) == Around(Next(seen, e)) && t.core.worker == s.core.worker && t.core.calls == s.core.calls
  {
    assert m == Records(k, m.copy, sweepers);
    assert Foreign(e) ==> !e.Task?;
    hide Mirrors, V.KeyOk, V.StoredAs, Next, Enabled, InputOk, NextRecords, Seen, Around, Foreign;
    OthersCanLocally(s, e);
    OthersAreLocal(s, e);
    OthersLeaveWorker(s, e);
    OthersRecordsAreLocal(s, k, m.copy, map[], sweepers, e, i);
  }

  lemma RunTakes(start: State, trace: seq<Event>, records: Records, e: Event, i: Input)
    requires Possible(start, trace) && Related(Run(start, trace), records)
    requires Enabled(Run(start, trace), e) && InputOk(Run(start, trace), e, i)
    ensures var s := Run(start, trace);
            && Possible(start, trace + [e]) && Run(start, trace + [e]) == Next(s, e) && Next(s, e).fakeDeployment == s.fakeDeployment
            && Mirrors(s, records) && Related(Next(s, e), NextRecords(s, records, e, i))
    ensures TaskEvents(trace + [e]) == TaskEvents(trace) + (if e.Task? then [e.e] else [])
  {
    var s := Run(start, trace);
    FakeDeploymentStays(s, e);
    hide Inv, Unsnapped, Mirrors, Run, Possible, Next, NextRecords, Enabled, InputOk;
    ExtendRun(start, trace, e);
    StepRelates(s, records, e, i);
    TaskEventsJoin(trace, [e]);
    assert TaskEvents([e]) == if e.Task? then [e.e] else [];
  }

  lemma FakeDeploymentStays(s: State, e: Event)
    requires Enabled(s, e)
    ensures Next(s, e).fakeDeployment == s.fakeDeployment
  {
    hide TaskNext, TaskEnabled;
  }

  lemma HasWritten(j: R.Job, f: R.Field, v: R.Value)
    requires R.Attribute(j, f) == Some(v)
    ensures Has(j, f, v)
  {
  }

  lemma RefsStored(j: R.Job, refs: seq<string>, a: Answers)
    requires AssetsStored(a) && |refs| == |a.assets.value| && forall i :: 0 <= i < |refs| ==> a.assets.value[i] == Some(refs[i])
    requires R.Attribute(j, R.AssetRefs) == Some(R.Data(R.Refs(refs))) && Has(j, R.Status, R.OfStatus(Succeeded))
    ensures StoredAs(j, a)
  {
  }

  lemma NothingStored(j: R.Job, a: Answers)
    requires !AssetsStored(a) && Has(j, R.Status, R.OfStatus(Failed)) && Has(j, R.Error, R.OfError(StorageError))
    ensures StoredAs(j, a)
  {
  }
}
