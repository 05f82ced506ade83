/**
 * One job as a crash-prone protocol (app/worker/tasks.py and the other writers of its record).
 *
 * The state holds the job's Redis record, the pipeline worker with its in-memory copy and program
 * point, any number of sweepers each with its own stale copy, rehydrators that have seen the record
 * missing, and the request that created the job. An event is one Redis write, one external call or
 * one crash, so every interleaving at an await is a sequence of events.
 *
 * Assumed, as the steps say: at most one worker runs stages for a job at a time (StartTask
 * needs an idle worker), and the resolve route reads, checks and writes in one step.
 */
module Pipeline {
  import opened Enums
  import opened Options
  import opened Transitions

  /** A matrix row as resolve_matrix_row returns it. */
  datatype Row = Row(prompt: string, negativePrompt: Option<string>, referenceUrl: string, params: Option<string>)

  /** The five fields written together with status=submitting. */
  datatype Snapshot = Snapshot(row: Row, matrixVersion: string)

  /** The part of a job record that decides what may happen next and what is sent to the provider. */
  datatype View = View(
    status: JobStatus,
    requested: Option<JewelryType>,
    mock: bool,
    final: Option<JewelryType>,
    error: Option<ErrorCode>,
    snapshot: Option<Snapshot>,
    token: Option<string>,
    providerJobId: Option<string>)

  /** The fields of one update_job call. A None is skipped, it never clears a stored field. */
  datatype Delta = Delta(
    status: Option<JobStatus>,
    final: Option<JewelryType>,
    error: Option<ErrorCode>,
    snapshot: Option<Snapshot>,
    token: Option<string>,
    providerJobId: Option<string>)

  const NOTHING := Delta(None, None, None, None, None, None)

  function Merge(v: View, d: Delta): View {
    View(d.status.GetOr(v.status), v.requested, v.mock, d.final.Or(v.final), d.error.Or(v.error),
         d.snapshot.Or(v.snapshot), d.token.Or(v.token), d.providerJobId.Or(v.providerJobId))
  }

  /** job:{id} in Redis. Partial is what update_job leaves on a key that had gone: get_job raises on it. */
  datatype Stored = Missing | Partial(rest: View) | Full(job: View)

  const BLANK := View(Failed, None, false, None, None, None, None, None)

  function HSet(stored: Stored, d: Delta): Stored {
    match stored
    case Missing => Partial(Merge(BLANK, d))
    case Partial(v) => Partial(Merge(v, d))
    case Full(v) => Full(Merge(v, d))
  }

  datatype Request = Request(requested: Option<JewelryType>, mock: bool)

  /** One call of provider.submit: what was sent, and what Redis held at that moment. */
  datatype Call = Call(
    token: string,
    prompt: string,
    referenceUrl: string,
    negativePrompt: Option<string>,
    params: Option<string>,
    paid: bool,
    stored: Stored)

  /** Where the pipeline worker stands between two awaits. */
  datatype Pc =
    | AtDispatch
    | AtClassify
    | AtResolve
    | AtSnapshot(snapshot: Snapshot)
    | AtToken
    | AtSubmit
    | AtSubmitRaised
    | AtSubmitted(id: string)
    | AtPoll
    | AtStore

  datatype Worker = Idle | Running(pc: Pc, job: View)

  /** Where POST /generate stands. InGap is after the enqueue and before increment_spend. */
  datatype Route = NotCreated | Created | InGap | Answered | Died | DiedInGap

  /** The record and the pipeline worker, with what the worker has done. */
  datatype Core = Core(
    stored: Stored,
    worker: Worker,
    // history
    calls: seq<Call>,
    submittingWritten: bool,
    moves: nat,
    fault: Option<Fault>,
    assertFailed: bool)

  datatype State = State(
    req: Request,
    fakeDeployment: bool,
    core: Core,
    sweepers: map<nat, View>,
    rehydrators: set<nat>,
    route: Route,
    logged: bool,
    enqueued: bool,
    increments: nat,
    lost: bool)

  const FRESH := Core(Missing, Idle, [], false, 0, None, false)

  function Init(req: Request, fakeDeployment: bool): State {
    State(req, fakeDeployment, FRESH, map[], {}, NotCreated, false, false, 0, false)
  }

  // ---------------------------------------------------------------- the pipeline worker

  datatype Classification = NotJewelryFound | Confident(top: JewelryType) | Unsure
  datatype Lookup = Unavailable | Miss
  datatype PollEnd = PollSucceeded | PollFailed | LeftGenerating
  datatype SubmitEnd = SubmitRaised | SubmitOk(id: string)

  datatype TaskEvent =
    | Dispatched
    | ClassifyEnded(result: Classification)
    | ResolveFailed(why: Lookup)
    | Resolved(snapshot: Snapshot)
    | SnapshotWritten
    | TokenWritten(token: string)
    | ProviderCalled(outcome: SubmitEnd)
    | RaiseParked
    | SubmissionRecorded
    | PollEnded(end: PollEnd)
    | StoreEnded(ok: bool)
    | Crashed

  predicate TaskEnabled(c: Core, e: TaskEvent) {
    && c.worker.Running?
    && match e
       case Dispatched => c.worker.pc == AtDispatch
       case ClassifyEnded(_) => c.worker.pc == AtClassify
       case ResolveFailed(_) => c.worker.pc == AtResolve
       case Resolved(_) => c.worker.pc == AtResolve
       case SnapshotWritten => c.worker.pc.AtSnapshot?
       case TokenWritten(_) => c.worker.pc == AtToken
       case ProviderCalled(_) => c.worker.pc == AtSubmit
       case RaiseParked => c.worker.pc == AtSubmitRaised
       case SubmissionRecorded => c.worker.pc.AtSubmitted?
       case PollEnded(_) => c.worker.pc == AtPoll
       case StoreEnded(_) => c.worker.pc == AtStore
       case Crashed => true
  }

  /** _transition_and_persist: guard, update the worker's copy, write the delta. */
  function Persist(c: Core, to: JobStatus, error: Option<ErrorCode>, fields: Delta, next: Option<Pc>): Core
    requires c.worker.Running?
  {
    var job := c.worker.job;
    var fault := Guard(job.status, to, error);
    if fault.Some? then
      c.(worker := Idle, fault := fault)
    else
      var delta := fields.(status := Some(to), error := error.Or(job.error));
      c.(stored := HSet(c.stored, delta),
         worker := if next.Some? then Running(next.value, Merge(job, delta)) else Idle,
         moves := c.moves + 1,
         submittingWritten := c.submittingWritten || to == Submitting)
  }

  function AssertionError(c: Core): Core {
    c.(worker := Idle, assertFailed := true)
  }

  function Dispatch(c: Core): Core
    requires c.worker.Running?
  {
    var job := c.worker.job;
    match job.status
    case Queued =>
      if job.requested.Some?
      then Persist(c, Resolving, None, NOTHING.(final := job.requested), Some(AtResolve))
      else Persist(c, Classifying, None, NOTHING, Some(AtClassify))
    case Classifying => c.(worker := Running(AtClassify, job))
    case Resolving => c.(worker := Running(AtResolve, job))
    case Submitting => Persist(c, NeedsReview, Some(OrphanedSubmit), NOTHING, None)
    case Generating => c.(worker := Running(AtPoll, job))
    case Storing => c.(worker := Running(AtStore, job))
    case _ => c.(worker := Idle)
  }

  /** The request built from the worker's copy. A mock job, or PROVIDER=fake, never reaches a paid provider. */
  function Submission(stored: Stored, job: View, fakeDeployment: bool): Call {
    var row := if job.snapshot.Some? then job.snapshot.value.row else Row("", None, "", None);
    Call(job.token.GetOr(""), row.prompt, row.referenceUrl, row.negativePrompt, row.params,
         !job.mock && !fakeDeployment, stored)
  }

  function TaskNext(c: Core, e: TaskEvent, fakeDeployment: bool): Core
    requires TaskEnabled(c, e)
  {
    match e
    case Dispatched => Dispatch(c)
    case ClassifyEnded(NotJewelryFound) => Persist(c, Failed, Some(NotJewelry), NOTHING, None)
    case ClassifyEnded(Confident(top)) => Persist(c, Resolving, None, NOTHING.(final := Some(top)), Some(AtResolve))
    case ClassifyEnded(Unsure) => Persist(c, NeedsInput, Some(LowConfidence), NOTHING, None)
    case ResolveFailed(why) =>
      if c.worker.job.final.None? then AssertionError(c)
      else Persist(c, Failed, Some(if why == Miss then MatrixMiss else MatrixUnavailable), NOTHING, None)
    case Resolved(snapshot) =>
      if c.worker.job.final.None? then AssertionError(c)
      else c.(worker := Running(AtSnapshot(snapshot), c.worker.job))
    case SnapshotWritten =>
      Persist(c, Submitting, None, NOTHING.(snapshot := Some(c.worker.pc.snapshot)), Some(AtToken))
    case TokenWritten(token) =>
      c.(stored := HSet(c.stored, NOTHING.(token := Some(token))),
         worker := Running(AtSubmit, c.worker.job.(token := Some(token))))
    case ProviderCalled(outcome) =>
      c.(calls := c.calls + [Submission(c.stored, c.worker.job, fakeDeployment)],
         worker := Running(if outcome.SubmitRaised? then AtSubmitRaised else AtSubmitted(outcome.id), c.worker.job))
    case RaiseParked => Persist(c, NeedsReview, Some(OrphanedSubmit), NOTHING, None)
    case SubmissionRecorded =>
      Persist(c, Generating, None, NOTHING.(providerJobId := Some(c.worker.pc.id)), Some(AtPoll))
    case PollEnded(end) =>
      if c.worker.job.providerJobId.None? then AssertionError(c)
      else (match end
            case PollSucceeded => Persist(c, Storing, None, NOTHING, Some(AtStore))
            case PollFailed => Persist(c, Failed, Some(ProviderError), NOTHING, None)
            case LeftGenerating => c.(worker := Idle))
    case StoreEnded(ok) =>
      if c.worker.job.providerJobId.None? then AssertionError(c)
      else if ok then Persist(c, Succeeded, None, NOTHING, None)
      else Persist(c, Failed, Some(StorageError), NOTHING, None)
    case Crashed => c.(worker := Idle)
  }

  // ---------------------------------------------------------------- everything else

  datatype Event =
    | Task(e: TaskEvent)
    // POST /generate
    | CreateRecord | LogRow | Enqueue | CountSpend | ApiDies
    // the queue starts or restarts a worker, the client resolves, the record is lost
    | StartTask | ResolveRoute(chosen: JewelryType) | LoseRecord
    | SweepRead(id: nat) | SweepWrite(id: nat) | SweepDies(id: nat)
    | RehydrateCheck(id: nat) | RehydrateWrite(id: nat) | RehydrateDies(id: nat)

  predicate Enabled(s: State, e: Event) {
    var stored := s.core.stored;
    match e
    case Task(t) => TaskEnabled(s.core, t)
    case CreateRecord => s.route == NotCreated
    case LogRow => s.route == Created
    case Enqueue => s.route == Created
    case CountSpend => s.route == InGap
    case ApiDies => s.route == Created || s.route == InGap
    case StartTask => s.enqueued && s.core.worker == Idle && stored.Full? && !Terminal(stored.job.status)
    case ResolveRoute(_) => stored.Full? && stored.job.status == NeedsInput
    case LoseRecord => !stored.Missing?
    case SweepRead(i) => i !in s.sweepers && stored.Full? && !Terminal(stored.job.status)
    case SweepWrite(i) => i in s.sweepers
    case SweepDies(i) => i in s.sweepers
    case RehydrateCheck(i) => i !in s.rehydrators && s.logged && stored.Missing?
    case RehydrateWrite(i) => i in s.rehydrators
    case RehydrateDies(i) => i in s.rehydrators
  }

  function NewJob(req: Request): View {
    View(Queued, req.requested, req.mock, None, None, None, None, None)
  }

  function RehydratedJob(req: Request): View {
    View(NeedsReview, req.requested, req.mock, req.requested, Some(OrphanedSubmit), None, None, None)
  }

  /** create_job's HSET: writes every field the new job has; what the key held besides stays. */
  function CreateOver(stored: Stored, job: View): Stored {
    match stored
    case Missing => Full(job)
    case Partial(v) => Full(Overwrite(v, job))
    case Full(v) => Full(Overwrite(v, job))
  }

  function Overwrite(prior: View, job: View): View {
    View(job.status, job.requested.Or(prior.requested), job.mock, job.final.Or(prior.final), job.error.Or(prior.error),
         job.snapshot.Or(prior.snapshot), job.token.Or(prior.token), job.providerJobId.Or(prior.providerJobId))
  }

  function SweepDelta(job: View): Delta {
    if job.status == Submitting
    then NOTHING.(status := Some(NeedsReview), error := Some(OrphanedSubmit))
    else NOTHING.(status := Some(Failed), error := Some(ProviderTimeout))
  }

  /** A status write by someone other than the worker. */
  function Write(c: Core, d: Delta): Core {
    c.(stored := HSet(c.stored, d), moves := c.moves + 1)
  }

  function Next(s: State, e: Event): State
    requires Enabled(s, e)
  {
    match e
    case Task(t) => s.(core := TaskNext(s.core, t, s.fakeDeployment))
    case CreateRecord => s.(core := s.core.(stored := Full(NewJob(s.req))), route := Created)
    case LogRow => s.(logged := true)
    case Enqueue => s.(enqueued := true, route := if s.req.mock then Answered else InGap)
    case CountSpend => s.(increments := s.increments + 1, route := Answered)
    case ApiDies => s.(route := if s.route == InGap then DiedInGap else Died)
    case StartTask => s.(core := s.core.(worker := Running(AtDispatch, s.core.stored.job)))
    case ResolveRoute(chosen) =>
      s.(core := Write(s.core, NOTHING.(status := Some(Resolving), final := Some(chosen))), enqueued := true)
    case LoseRecord => s.(core := s.core.(stored := Missing), lost := true)
    case SweepRead(i) => s.(sweepers := s.sweepers[i := s.core.stored.job])
    case SweepWrite(i) => s.(core := Write(s.core, SweepDelta(s.sweepers[i])), sweepers := s.sweepers - {i})
    case SweepDies(i) => s.(sweepers := s.sweepers - {i})
    case RehydrateCheck(i) => s.(rehydrators := s.rehydrators + {i})
    case RehydrateWrite(i) =>
      s.(core := s.core.(stored := CreateOver(s.core.stored, RehydratedJob(s.req))), rehydrators := s.rehydrators - {i})
    case RehydrateDies(i) => s.(rehydrators := s.rehydrators - {i})
  }

  /** A run: each event is enabled in the state the earlier ones lead to. */
  ghost predicate Possible(s: State, events: seq<Event>)
    decreases |events|
  {
    events == [] || (Enabled(s, events[0]) && Possible(Next(s, events[0]), events[1..]))
  }

  ghost function Run(s: State, events: seq<Event>): State
    requires Possible(s, events)
    decreases |events|
  {
    if events == [] then s else Run(Next(s, events[0]), events[1..])
  }
}
