/**
 * What one execution of the worker meets and makes: the answers of the outside world, the events of the
 * pipeline protocol they lead to, and the job they leave behind, attribute by attribute.
 */
module TaskOutcome {
  import opened Enums
  import opened Options
  import opened Pipeline
  import opened StageWrites
  import PollLoop
  import R = JobRecord
  import V = RecordView

  datatype LookupAnswer = Found(row: Row) | NotFound | MatrixDown | LookupRaised

  datatype Prediction = Prediction(jewelryType: JewelryType, confidence: real)

  datatype ClassifierResult = ClassifierResult(isJewelry: bool, predictions: seq<Prediction>)

  /** What the outside world answers during one task. None, or Raised, is an exception that escapes. */
  datatype Answers = Answers(
    classified: Option<ClassifierResult>,
    threshold: real,
    lookup: LookupAnswer,
    version: Option<string>,
    token: string,
    sourceReadable: bool,
    submit: SubmitEnd,
    providerName: string,
    assets: Option<seq<Option<string>>>)

  /** `assets`: fetch_assets raises (None), or each asset's storage.put gives its reference or raises. */
  predicate AssetsStored(a: Answers) {
    a.assets.Some? && forall i :: 0 <= i < |a.assets.value| ==> a.assets.value[i].Some?
  }

  datatype Outcome = Returned(job: R.Job) | NoJob | Escaped

  // ---------------------------------------------------------------- the events these answers lead to

  function StoreEvents(a: Answers): seq<TaskEvent> {
    [StoreEnded(AssetsStored(a))]
  }

  function PollEvents(a: Answers, verdict: PollLoop.Verdict): seq<TaskEvent> {
    match verdict
    case Succeeded => [PollEnded(PollSucceeded)] + StoreEvents(a)
    case Failed => [PollEnded(PollFailed)]
    case LeftGenerating => [PollEnded(PollEnd.LeftGenerating)]
  }

  function CallEvents(a: Answers, verdict: PollLoop.Verdict): seq<TaskEvent> {
    if a.submit.SubmitRaised? then [RaiseParked] else [SubmissionRecorded] + PollEvents(a, verdict)
  }

  function SubmitEvents(a: Answers, verdict: PollLoop.Verdict): seq<TaskEvent> {
    [TokenWritten(a.token)] + (if a.sourceReadable then [ProviderCalled(a.submit)] + CallEvents(a, verdict) else [Crashed])
  }

  function ResolveEvents(final: Option<JewelryType>, a: Answers, verdict: PollLoop.Verdict): seq<TaskEvent> {
    if final.None? then [ResolveFailed(Miss)] // the assert at its start
    else
      match a.lookup
      case LookupRaised => [Crashed]
      case MatrixDown => [ResolveFailed(Unavailable)]
      case NotFound => [ResolveFailed(Miss)]
      case Found(row) =>
        if a.version.None? then [Crashed]
        else [TaskEvent.Resolved(Snapshot(row, a.version.value)), SnapshotWritten] + SubmitEvents(a, verdict)
  }

  /** The decision table of the classify stage: what it is, then whether the best guess is good enough. */
  function ClassifyEvent(a: Answers): TaskEvent {
    if a.classified.None? || a.classified.value.predictions == [] then Crashed
    else if !a.classified.value.isJewelry then ClassifyEnded(NotJewelryFound)
    else if a.classified.value.predictions[0].confidence >= a.threshold
    then ClassifyEnded(Confident(a.classified.value.predictions[0].jewelryType))
    else ClassifyEnded(Unsure)
  }

  function ClassifyEvents(a: Answers, verdict: PollLoop.Verdict): seq<TaskEvent> {
    var e := ClassifyEvent(a);
    [e] + (if e.ClassifyEnded? && e.result.Confident? then ResolveEvents(Some(e.result.top), a, verdict) else [])
  }

  /** Resuming depends on the stored status alone: no stage that is behind the job is run again. */
  function DispatchEvents(job: View, a: Answers, verdict: PollLoop.Verdict): seq<TaskEvent> {
    [Dispatched]
    + match job.status
      case Queued =>
        if job.requested.Some? then ResolveEvents(job.requested, a, verdict) else ClassifyEvents(a, verdict)
      case Classifying => ClassifyEvents(a, verdict)
      case Resolving => ResolveEvents(job.final, a, verdict)
      case Generating => PollEvents(a, verdict)
      case Storing => StoreEvents(a)
      case _ => []
  }

  // ---------------------------------------------------------------- what they make of the job

  predicate Has(j: R.Job, f: R.Field, v: R.Value) {
    R.Attribute(j, f) == Some(v)
  }

  predicate Ends(j: R.Job, status: JobStatus, error: ErrorCode) {
    Has(j, R.Status, R.OfStatus(status)) && Has(j, R.Error, R.OfError(error))
  }

  /** Where an execution that raises nothing leaves a job. */
  predicate Parked(j: R.Job) {
    var s := V.StatusAt(j);
    s.Some? && (Terminal(s.value) || s.value == Generating)
  }

  function CandidatesOf(predictions: seq<Prediction>): seq<(string, real)> {
    seq(|predictions|, i requires 0 <= i < |predictions| =>
      (TypeText(predictions[i].jewelryType), predictions[i].confidence))
  }

  /** How the classify stage leaves the job, by what the classifier saw: its guesses are stored whatever they are. */
  predicate ClassifiedAs(j: R.Job, result: ClassifierResult, threshold: real)
    requires result.predictions != []
  {
    var top := result.predictions[0];
    && Has(j, R.Confidence, R.Float(top.confidence))
    && Has(j, R.CandidateTypes, R.Data(R.Candidates(CandidatesOf(result.predictions))))
    && if !result.isJewelry then Ends(j, Failed, NotJewelry)
       else if top.confidence < threshold then Ends(j, NeedsInput, LowConfidence)
       else
         && Has(j, R.Status, R.OfStatus(Resolving)) && Has(j, R.JewelryTypeFinal, R.OfType(top.jewelryType))
         && Has(j, R.TypeSource, R.OfSource(Classified))
  }

  /** A stored job holds the reference of each of its assets, in order. */
  predicate StoredAs(j: R.Job, a: Answers) {
    if AssetsStored(a) then
      && Has(j, R.Status, R.OfStatus(Succeeded))
      && R.AssetRefs in j && j[R.AssetRefs].Data? && j[R.AssetRefs].json.Refs?
      && var refs := j[R.AssetRefs].json.refs;
         |refs| == |a.assets.value| && forall i :: 0 <= i < |refs| ==> a.assets.value[i] == Some(refs[i])
    else Ends(j, Failed, StorageError)
  }

  /** `attempts`: the provider's failures counted before. */
  predicate PolledAs(j: R.Job, attempts: int, a: Answers, verdict: PollLoop.Verdict) {
    match verdict
    case Succeeded => StoredAs(j, a)
    case Failed => Ends(j, JobStatus.Failed, ProviderError) && Has(j, R.AttemptCount, R.Int(attempts + 1))
    case LeftGenerating => Has(j, R.Status, R.OfStatus(Generating))
  }

  /** A raising submit is parked; a submission is known by its id and its provider, and polled. */
  predicate SubmittedAs(j: R.Job, attempts: int, a: Answers, verdict: PollLoop.Verdict) {
    && Has(j, R.SubmissionToken, R.Str(a.token))
    && match a.submit
       case SubmitRaised => Ends(j, NeedsReview, OrphanedSubmit)
       case SubmitOk(id) =>
         Has(j, R.ProviderJobId, R.Str(id)) && Has(j, R.Provider, R.Str(a.providerName)) && PolledAs(j, attempts, a, verdict)
  }

  predicate SnapshotTaken(j: R.Job, row: Row, version: string) {
    && Has(j, R.PromptSnapshot, R.Str(row.prompt)) && Has(j, R.ReferenceUrlSnapshot, R.Str(row.referenceUrl))
    && Has(j, R.MatrixVersion, R.Str(version))
    && V.StrAt(j, R.NegativePromptSnapshot) == row.negativePrompt && V.ParamsAt(j) == row.params
  }

  predicate ResolvedAs(j: R.Job, attempts: int, a: Answers, verdict: PollLoop.Verdict) {
    match a.lookup
    case NotFound => Ends(j, Failed, MatrixMiss)
    case MatrixDown => Ends(j, Failed, MatrixUnavailable)
    case LookupRaised => false
    case Found(row) => a.version.Some? && SnapshotTaken(j, row, a.version.value) && SubmittedAs(j, attempts, a, verdict)
  }

  /** What is sent: the row and the token; it is paid for unless the job is a mock or the deployment a fake. */
  predicate IsCall(c: Call, j: R.Job, row: Row, a: Answers, fakeDeployment: bool) {
    && c.token == a.token && c.prompt == row.prompt && c.referenceUrl == row.referenceUrl
    && c.negativePrompt == row.negativePrompt && c.params == row.params
    && c.paid == (!Has(j, R.Mock, R.Bool(true)) && !fakeDeployment)
  }

  /** The calls an execution makes: this one and no other, or none. */
  predicate Called(before: seq<Call>, after: seq<Call>, sends: bool, j: R.Job, a: Answers, fakeDeployment: bool) {
    if sends then
      |after| == |before| + 1 && after[..|before|] == before && a.lookup.Found?
      && IsCall(after[|before|], j, a.lookup.row, a, fakeDeployment)
    else after == before
  }

  /** The lookup leads to a call; or at least to no exception. */
  predicate Sends(a: Answers) {
    a.lookup.Found? && a.version.Some? && a.sourceReadable
  }

  predicate ResolveReturns(a: Answers) {
    a.lookup == NotFound || a.lookup == MatrixDown || Sends(a)
  }

  predicate Guessed(a: Answers) {
    a.classified.Some? && a.classified.value.predictions != []
  }

  predicate SureOfJewelry(a: Answers) {
    Guessed(a) && a.classified.value.isJewelry && a.classified.value.predictions[0].confidence >= a.threshold
  }

  /** Where a stage is resumed without a write of its own. */
  function ResumesAt(status: Option<JobStatus>): Option<Pc> {
    match status
    case Some(Classifying) => Some(AtClassify)
    case Some(Resolving) => Some(AtResolve)
    case Some(Generating) => Some(AtPoll)
    case Some(Storing) => Some(AtStore)
    case _ => None
  }

  /** Classification is run, and the lookup is for its guess: the job is classifying, or queued without a type. */
  predicate Classifies(j: R.Job) {
    V.StatusAt(j) == Some(Classifying) || (V.StatusAt(j) == Some(Queued) && V.TypeAt(j, R.JewelryTypeRequested).None?)
  }

  /** The lookup is for a type already known: the client's, or the one stored with resolving. */
  predicate HasType(j: R.Job) {
    || (V.StatusAt(j) == Some(Queued) && V.TypeAt(j, R.JewelryTypeRequested).Some?)
    || (V.StatusAt(j) == Some(Resolving) && V.TypeAt(j, R.JewelryTypeFinal).Some?)
  }

  /** The provider is called once: a type is known or found, its row is there, and the source can be read. */
  predicate DispatchSends(j: R.Job, a: Answers) {
    (HasType(j) || (Classifies(j) && SureOfJewelry(a))) && Sends(a)
  }

  /** No exception escapes. */
  predicate DispatchReturns(j: R.Job, a: Answers) {
    || (HasType(j) && ResolveReturns(a))
    || (Classifies(j) && Guessed(a) && (SureOfJewelry(a) ==> ResolveReturns(a)))
    || V.StatusAt(j) == Some(Submitting)
    || ((V.StatusAt(j) == Some(Generating) || V.StatusAt(j) == Some(Storing)) && V.StrAt(j, R.ProviderJobId).Some?)
  }

  /** How it then leaves the job. */
  predicate DispatchedAs(j: R.Job, after: R.Job, a: Answers, verdict: PollLoop.Verdict) {
    && (HasType(j) || (Classifies(j) && SureOfJewelry(a)) ==> ResolvedAs(after, Attempts(j), a, verdict))
    && (Classifies(j) && !SureOfJewelry(a) ==>
          Guessed(a) && ClassifiedAs(after, a.classified.value, a.threshold))
    && (V.StatusAt(j) == Some(Submitting) ==> Ends(after, NeedsReview, OrphanedSubmit))
    && (V.StatusAt(j) == Some(Generating) ==> PolledAs(after, Attempts(j), a, verdict))
    && (V.StatusAt(j) == Some(Storing) ==> StoredAs(after, a))
  }

  /**
   * What ended the poll loop: the provider's first answer that is a verdict, or, all answers so far having
   * been none, the clock (unless it started 500000 s early).
   */
  ghost predicate Decided(verdict: PollLoop.Verdict, provider: PollLoop.Provider, deadline: nat, started: nat, from: nat)
    reads provider
  {
    match verdict
    case Succeeded => NoVerdict(provider, from, provider.polls - 1) && provider.replies(provider.polls - 1).answer == Some(PollLoop.Done)
    case Failed => NoVerdict(provider, from, provider.polls - 1) && provider.replies(provider.polls - 1).answer == Some(PollLoop.Broken)
    case LeftGenerating =>
      && NoVerdict(provider, from, provider.polls)
      && (deadline < started + PollLoop.MAX_POLL_ITERATIONS * PollLoop.POLL_SLEEP_MS ==> provider.now >= deadline)
  }

  ghost predicate NoVerdict(provider: PollLoop.Provider, from: nat, to: int) {
    from <= to && forall k: nat :: from <= k < to ==>
      provider.replies(k).answer != Some(PollLoop.Done) && provider.replies(k).answer != Some(PollLoop.Broken)
  }
}
