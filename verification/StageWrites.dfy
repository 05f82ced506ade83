/**
 * The keyword arguments of every update_job call the pipeline makes (app/worker/tasks.py), and why each
 * keeps the hash and the in-memory job together: none clears a field, and the snapshot is written once.
 */
module StageWrites {
  import opened Enums
  import opened Options
  import opened Pipeline
  import opened PipelineSafety
  import R = JobRecord
  import V = RecordView

  /** What a stage writes besides what the protocol looks at, and when. */
  datatype Extras = Extras(now: nat, confidence: real, candidates: seq<(string, real)>, provider: string, assets: seq<string>)

  function Text(s: Option<string>): Option<R.Value> {
    if s.Some? then Some(R.Str(s.value)) else None
  }

  function SnapshotFields(s: Snapshot): R.Patch {
    map[R.PromptSnapshot := Some(R.Str(s.row.prompt)),
        R.NegativePromptSnapshot := Text(s.row.negativePrompt),
        R.ReferenceUrlSnapshot := Some(R.Str(s.row.referenceUrl)),
        R.ProviderParamsSnapshot := if s.row.params.Some? then Some(R.Data(R.Params(s.row.params.value))) else None,
        R.MatrixVersion := Some(R.Str(s.matrixVersion))]
  }

  function TypeFields(t: JewelryType, source: TypeSource): R.Patch {
    map[R.JewelryTypeFinal := Some(R.OfType(t)), R.TypeSource := Some(R.OfSource(source))]
  }

  function GuessFields(x: Extras): R.Patch {
    map[R.Confidence := Some(R.Float(x.confidence)), R.CandidateTypes := Some(R.Data(R.Candidates(x.candidates)))]
  }

  function Attempts(j: R.Job): int {
    if R.AttemptCount in j && j[R.AttemptCount].Int? then j[R.AttemptCount].n else 0
  }

  /** The extra keyword arguments of each `_transition_and_persist` call. */
  function StageFields(j: R.Job, pc: Pc, e: TaskEvent, x: Extras): R.Patch {
    match e
    case Dispatched =>
      var requested := V.TypeAt(j, R.JewelryTypeRequested);
      if V.ViewOf(j).status == Queued && requested.Some? then TypeFields(requested.value, Provided) else map[]
    case ClassifyEnded(Confident(top)) => TypeFields(top, Classified) + GuessFields(x)
    case ClassifyEnded(_) => GuessFields(x)
    case SnapshotWritten => if pc.AtSnapshot? then SnapshotFields(pc.snapshot) else map[]
    case SubmissionRecorded =>
      if pc.AtSubmitted? then map[R.ProviderJobId := Some(R.Str(pc.id)), R.Provider := Some(R.Str(x.provider))] else map[]
    case PollEnded(PollFailed) => map[R.AttemptCount := Some(R.Int(Attempts(j) + 1))]
    case StoreEnded(ok) => if ok then map[R.AssetRefs := Some(R.Data(R.Refs(x.assets)))] else map[]
    case _ => map[]
  }

  /** The write of the submission token before the provider is called. */
  function TokenFields(token: string): R.Patch {
    map[R.SubmissionToken := Some(R.Str(token))]
  }

  /** A snapshot is there whole or not at all. */
  ghost predicate SnapshotWhole(j: R.Job) {
    R.PromptSnapshot !in j ==> forall f :: V.SnapshotField(f) ==> f !in j
  }

  // ---------------------------------------------------------------- the arguments

  /** Fields a stage may pass: not those `transition` sets, nor those only the request sets. */
  ghost predicate StageOwn(p: R.Patch) {
    && R.OwnFields(p) && R.WellTyped(p)
    && R.JobId !in p && R.JewelryTypeRequested !in p && R.Mock !in p && R.SubmissionToken !in p
  }

  lemma SnapshotFieldsAreOwn(s: Snapshot)
    ensures StageOwn(SnapshotFields(s))
  {
  }

  lemma TypeFieldsAreOwn(t: JewelryType, source: TypeSource)
    ensures StageOwn(TypeFields(t, source))
  {
  }

  lemma GuessFieldsAreOwn(x: Extras)
    ensures StageOwn(GuessFields(x))
  {
  }

  lemma OwnUnion(p: R.Patch, q: R.Patch)
    requires StageOwn(p) && StageOwn(q)
    ensures StageOwn(p + q)
  {
    hide R.KindOf, R.HasKind;
  }

  lemma StageFieldsAreOwn(j: R.Job, pc: Pc, e: TaskEvent, x: Extras)
    ensures StageOwn(StageFields(j, pc, e, x))
  {
    if e == SnapshotWritten && pc.AtSnapshot? {
      SnapshotFieldsAreOwn(pc.snapshot);
    } else if e.ClassifyEnded? {
      GuessFieldsAreOwn(x);
      if e.result.Confident? {
        TypeFieldsAreOwn(e.result.top, Classified);
        OwnUnion(TypeFields(e.result.top, Classified), GuessFields(x));
      }
    } else if e == Dispatched && V.TypeAt(j, R.JewelryTypeRequested).Some? {
      TypeFieldsAreOwn(V.TypeAt(j, R.JewelryTypeRequested).value, Provided);
    }
    hide V.ViewOf, V.TypeAt, SnapshotFields, TypeFields, GuessFields, R.KindOf, R.HasKind;
  }

  /** Only the snapshot write has snapshot fields. */
  lemma SnapshotOnlyThere(j: R.Job, pc: Pc, e: TaskEvent, x: Extras, f: R.Field)
    requires V.SnapshotField(f) && f in StageFields(j, pc, e, x)
    ensures e == SnapshotWritten && pc.AtSnapshot?
  {
    hide V.ViewOf, V.TypeAt;
  }

  /** Only the snapshot write passes a None, and only where there is nothing to clear. */
  lemma NothingCleared(j: R.Job, pc: Pc, e: TaskEvent, x: Extras)
    requires SnapshotWhole(j) && (e == SnapshotWritten ==> R.PromptSnapshot !in j)
    ensures !R.Clears(j, StageFields(j, pc, e, x))
  {
    hide V.ViewOf, V.TypeAt;
  }

  lemma SnapshotFieldsDelta(s: Snapshot)
    ensures V.DeltaOf(SnapshotFields(s)) == NOTHING.(snapshot := Some(s))
  {
    var g := R.Given(SnapshotFields(s));
    assert V.StrAt(g, R.NegativePromptSnapshot) == s.row.negativePrompt;
    assert V.ParamsAt(g) == s.row.params;
  }

  /** They are the fields the protocol's event writes. */
  lemma StageFieldsAreProtocolDelta(c: Core, j: R.Job, e: TaskEvent, x: Extras)
    requires TaskEnabled(c, e) && IsStatusWrite(c, e) && c.worker.job == V.ViewOf(j)
    ensures V.DeltaOf(StageFields(j, c.worker.pc, e, x)) == WriteOf(c.worker.pc, c.worker.job, e).fields
  {
    if e == SnapshotWritten {
      SnapshotFieldsDelta(c.worker.pc.snapshot);
      hide SnapshotFields, V.DeltaOf;
    } else if e == Dispatched || e.ClassifyEnded? {
      TypesDelta(c, j, e, x);
      hide V.DeltaOf, GuessFields, TypeFields, V.TypeAt, V.ViewOf;
    } else {
      hide SnapshotFields, TypeFields, GuessFields, V.ViewOf;
    }
  }

  lemma TypesDelta(c: Core, j: R.Job, e: TaskEvent, x: Extras)
    requires TaskEnabled(c, e) && IsStatusWrite(c, e) && c.worker.job == V.ViewOf(j)
    requires e == Dispatched || e.ClassifyEnded?
    ensures V.DeltaOf(StageFields(j, c.worker.pc, e, x)) == WriteOf(c.worker.pc, c.worker.job, e).fields
  {
    hide SnapshotFields;
    if e == Dispatched {
      assert V.ViewOf(j).requested == V.TypeAt(j, R.JewelryTypeRequested);
      hide V.ViewOf, V.ParamsAt;
    } else {
      hide V.ViewOf, V.ParamsAt;
    }
  }

  // ---------------------------------------------------------------- one status write

  /** The in-memory job after the stage's transition. */
  function Updated(j: R.Job, pc: Pc, e: TaskEvent, x: Extras): R.Job {
    var w := WriteOf(pc, V.ViewOf(j), e);
    R.Replace(j, R.TransitionUpdates(w.to, w.error, None, StageFields(j, pc, e, x), x.now))
  }

  /** The arguments of its update_job call. */
  function Arguments(j: R.Job, pc: Pc, e: TaskEvent, x: Extras): R.Patch {
    R.PersistArguments(Updated(j, pc, e, x), StageFields(j, pc, e, x))
  }

  /** What the proof of a write needs of the copy and the key: a snapshot is written only where there is none. */
  ghost predicate Ready(j: R.Job, k: V.Key, e: TaskEvent) {
    && R.WellFormed(j) && SnapshotWhole(j)
    && V.KeyOk(k) && SnapshotWhole(V.FieldsOf(k))
    && (e == SnapshotWritten ==> R.PromptSnapshot !in j && R.PromptSnapshot !in V.FieldsOf(k))
  }

  lemma ArgumentsAreTyped(j: R.Job, pc: Pc, e: TaskEvent, x: Extras)
    requires R.WellFormed(j) && SnapshotWhole(j) && (e == SnapshotWritten ==> R.PromptSnapshot !in j)
    ensures R.WellTyped(Arguments(j, pc, e, x))
    ensures Updated(j, pc, e, x) == R.Patched(j, Arguments(j, pc, e, x))
  {
    var w := WriteOf(pc, V.ViewOf(j), e);
    var fields := StageFields(j, pc, e, x);
    StageFieldsAreOwn(j, pc, e, x);
    NothingCleared(j, pc, e, x);
    R.PersistedIsUpdated(j, w.to, w.error, None, fields, x.now);
    R.PatchedIsReplaced(j, R.TransitionUpdates(w.to, w.error, None, fields, x.now));
    hide StageFields, WriteOf, V.ViewOf, R.Replace, R.Patched, R.TransitionUpdates, R.PersistArguments, R.Clears;
    hide R.WellFormed;
    hide R.Truncated;
  }

  lemma RequestFieldsLeftAlone(j: R.Job, pc: Pc, e: TaskEvent, x: Extras)
    ensures var p := Arguments(j, pc, e, x); R.JobId !in p && R.JewelryTypeRequested !in p && R.Mock !in p
  {
    var fields, updated := StageFields(j, pc, e, x), Updated(j, pc, e, x);
    StageFieldsAreOwn(j, pc, e, x);
    R.ArgumentsByField(R.JobId, updated, fields);
    R.ArgumentsByField(R.JewelryTypeRequested, updated, fields);
    R.ArgumentsByField(R.Mock, updated, fields);
    hide StageFields, Updated, R.PersistArguments, R.WellTyped, R.OwnFields;
  }

  lemma SnapshotGiven(j: R.Job, pc: Pc, e: TaskEvent, x: Extras)
    requires e == SnapshotWritten && pc.AtSnapshot?
    ensures R.PromptSnapshot in R.Given(StageFields(j, pc, e, x))
  {
  }

  lemma SnapshotArgument(j: R.Job, pc: Pc, e: TaskEvent, x: Extras, f: R.Field)
    requires V.SnapshotField(f) && f in R.Given(Arguments(j, pc, e, x))
    ensures e == SnapshotWritten && R.PromptSnapshot in R.Given(Arguments(j, pc, e, x))
  {
    hide StageFields, Updated, R.PersistArguments, R.Given, R.WellTyped, R.OwnFields;
    var fields, updated := StageFields(j, pc, e, x), Updated(j, pc, e, x);
    StageFieldsAreOwn(j, pc, e, x);
    V.OwnArgument(updated, fields, f);
    V.OwnArgument(updated, fields, R.PromptSnapshot);
    V.GivenAttribute(fields, f);
    SnapshotOnlyThere(j, pc, e, x, f);
    SnapshotGiven(j, pc, e, x);
  }

  /** Such a call is one the protocol's HSET stands for. */
  lemma ArgumentsArePipelineWrite(base: R.Job, j: R.Job, pc: Pc, e: TaskEvent, x: Extras)
    requires SnapshotWhole(base) && (e == SnapshotWritten ==> R.PromptSnapshot !in base)
    ensures V.PipelineWrite(base, Arguments(j, pc, e, x)) && R.JobId !in Arguments(j, pc, e, x)
  {
    RequestFieldsLeftAlone(j, pc, e, x);
    var g := R.Given(Arguments(j, pc, e, x));
    assert V.SnapshotField(R.PromptSnapshot);
    forall f | V.SnapshotField(f) ensures f in g ==> e == SnapshotWritten && R.PromptSnapshot in g {
      if f in g {
        SnapshotArgument(j, pc, e, x, f);
      }
    }
    hide Arguments, R.Given;
  }

  /** The two jobs agree, in milliseconds, on every field that is not among these. */
  ghost predicate AgreeOutside(a: R.Job, b: R.Job, g: R.Job) {
    forall f :: f !in g ==> R.Attribute(R.Truncated(a), f) == R.Attribute(R.Truncated(b), f)
  }

  lemma PatchedAgree(a: R.Job, b: R.Job, p: R.Patch)
    ensures R.Truncated(R.Patched(a, p)) == R.Truncated(R.Patched(b, p)) <==> AgreeOutside(a, b, R.Given(p))
  {
    R.TruncatedPatched(a, p);
    R.TruncatedPatched(b, p);
    var g := R.Given(p);
    assert forall f :: f in R.Truncated(g) <==> f in g;
    hide R.Truncated, R.Patched, R.Given, R.Attribute;
    MergedAgree(R.Truncated(a), R.Truncated(b), R.Truncated(g));
  }

  lemma MergedAgree(a: R.Job, b: R.Job, g: R.Job)
    ensures a + g == b + g <==> forall f :: f !in g ==> R.Attribute(a, f) == R.Attribute(b, f)
  {
    if a + g == b + g {
      forall f | f !in g ensures R.Attribute(a, f) == R.Attribute(b, f) {
        assert f in a + g <==> f in b + g;
        assert f in a ==> (a + g)[f] == (b + g)[f];
      }
    }
    if forall f :: f !in g ==> R.Attribute(a, f) == R.Attribute(b, f) {
      assert forall f :: f in a + g <==> f in b + g;
    }
  }

  lemma PipelineWriteKeepsWhole(base: R.Job, p: R.Patch)
    requires SnapshotWhole(base) && V.PipelineWrite(base, p)
    ensures SnapshotWhole(R.Patched(base, p))
  {
    var g := R.Given(p);
    assert forall f :: f in R.Patched(base, p) <==> f in base || f in g;
  }

  lemma ArgumentsDelta(c: Core, j: R.Job, e: TaskEvent, x: Extras)
    requires TaskEnabled(c, e) && IsStatusWrite(c, e) && c.worker.job == V.ViewOf(j)
    ensures var w := WriteOf(c.worker.pc, c.worker.job, e);
            V.DeltaOf(Arguments(j, c.worker.pc, e, x)) == w.fields.(status := Some(w.to), error := w.error.Or(c.worker.job.error))
  {
    var w := WriteOf(c.worker.pc, c.worker.job, e);
    StageFieldsAreOwn(j, c.worker.pc, e, x);
    StageFieldsAreProtocolDelta(c, j, e, x);
    V.PersistIsProtocolDelta(j, w.to, w.error, StageFields(j, c.worker.pc, e, x), x.now);
    hide StageFields, WriteOf, V.DeltaOf, R.Replace, R.TransitionUpdates, R.PersistArguments, V.StatusAt, V.TypeAt;
    hide V.StrAt, V.SnapshotAt;
    hide TaskEnabled, IsStatusWrite;
  }

  /** The key after the call. */
  function KeyAfter(k: V.Key, p: R.Patch): V.Key {
    Some(R.Patched(V.FieldsOf(k), p))
  }

  /**
   * Every status write of every stage: `transition` lets it, the copy the stage goes on with and the key
   * are what the protocol says, and the key's hash then decodes to that copy if and only if the copy was
   * up to date in what the call does not write.
   */
  lemma StageWriteRefines(c: Core, e: TaskEvent, fake: bool, j: R.Job, k: V.Key, x: Extras)
    requires CoreInv(c) && TaskEnabled(c, e) && IsStatusWrite(c, e)
    requires c.worker.job == V.ViewOf(j) && c.stored == V.StoredAs(k) && Ready(j, k, e)
    ensures var w, d := WriteOf(c.worker.pc, c.worker.job, e), TaskNext(c, e, fake);
            var updated, arguments := Updated(j, c.worker.pc, e, x), Arguments(j, c.worker.pc, e, x);
            var after := KeyAfter(k, arguments);
            && R.Status in j && j[R.Status].OfStatus?
            && R.Transition(j, w.to, w.error, None, StageFields(j, c.worker.pc, e, x), x.now) == Ok(updated)
            && R.WellFormed(updated) && SnapshotWhole(updated)
            && (d.worker.Running? ==> d.worker.job == V.ViewOf(updated))
            && V.KeyOk(after) && SnapshotWhole(after.value) && d.stored == V.StoredAs(after)
            && R.ToRedisHash(V.FieldsOf(k)) + R.HashUpdates(arguments) == R.ToRedisHash(after.value)
            && (R.FromRedisHash(R.ToRedisHash(after.value)) == Some(R.Truncated(updated))
                <==> AgreeOutside(V.FieldsOf(k), j, R.Given(arguments)))
  {
    var w := WriteOf(c.worker.pc, c.worker.job, e);
    var updated, arguments := Updated(j, c.worker.pc, e, x), Arguments(j, c.worker.pc, e, x);
    StageTransition(c, e, j, x);
    StagePersists(c, e, fake);
    ArgumentsAreTyped(j, c.worker.pc, e, x);
    ArgumentsArePipelineWrite(V.FieldsOf(k), j, c.worker.pc, e, x);
    ArgumentsArePipelineWrite(j, j, c.worker.pc, e, x);
    ArgumentsDelta(c, j, e, x);
    WriteOnKey(k, j, arguments);
    hide *;
  }

  lemma StageTransition(c: Core, e: TaskEvent, j: R.Job, x: Extras)
    requires CoreInv(c) && TaskEnabled(c, e) && IsStatusWrite(c, e) && c.worker.job == V.ViewOf(j) && R.WellFormed(j)
    ensures var w := WriteOf(c.worker.pc, c.worker.job, e);
            && R.Status in j && j[R.Status].OfStatus?
            && R.Transition(j, w.to, w.error, None, StageFields(j, c.worker.pc, e, x), x.now) == Ok(Updated(j, c.worker.pc, e, x))
  {
    assert R.KindOf(R.Status) == R.KStatus;
    var to, error, fields, next := StatusWriteIsPersist(c, e, false);
    hide CoreInv, TaskNext, Persist, WriteOf, StageFields, R.Replace, R.TransitionUpdates, IsStatusWrite, TaskEnabled;
  }

  lemma StagePersists(c: Core, e: TaskEvent, fake: bool)
    requires CoreInv(c) && TaskEnabled(c, e) && IsStatusWrite(c, e)
    ensures var w, d := WriteOf(c.worker.pc, c.worker.job, e), TaskNext(c, e, fake);
            var delta := w.fields.(status := Some(w.to), error := w.error.Or(c.worker.job.error));
            d.stored == HSet(c.stored, delta) && (d.worker.Running? ==> d.worker.job == Merge(c.worker.job, delta))
  {
    var to, error, fields, next := StatusWriteIsPersist(c, e, fake);
    hide CoreInv, TaskNext, WriteOf, HSet, Merge, IsStatusWrite, TaskEnabled;
  }

  /** An update_job call made with the arguments that also make the copy. */
  lemma WriteOnKey(k: V.Key, j: R.Job, p: R.Patch)
    requires R.WellFormed(j) && V.KeyOk(k) && SnapshotWhole(j) && SnapshotWhole(V.FieldsOf(k))
    requires R.WellTyped(p) && R.JobId !in p && V.PipelineWrite(V.FieldsOf(k), p) && V.PipelineWrite(j, p)
    ensures var copy, after := R.Patched(j, p), KeyAfter(k, p);
            && R.WellFormed(copy) && SnapshotWhole(copy) && V.ViewOf(copy) == Merge(V.ViewOf(j), V.DeltaOf(p))
            && V.KeyOk(after) && SnapshotWhole(after.value) && V.StoredAs(after) == HSet(V.StoredAs(k), V.DeltaOf(p))
            && R.ToRedisHash(V.FieldsOf(k)) + R.HashUpdates(p) == R.ToRedisHash(after.value)
            && (R.FromRedisHash(R.ToRedisHash(after.value)) == Some(R.Truncated(copy))
                <==> AgreeOutside(V.FieldsOf(k), j, R.Given(p)))
  {
    hide R.Patched, R.Truncated, R.ToRedisHash, R.FromRedisHash, R.HashUpdates, R.Given, R.WellTyped, R.HasKind, R.KindOf;
    hide V.ViewOf, V.DeltaOf, V.PipelineWrite, Merge, SnapshotWhole, AgreeOutside;
    var copy, after := R.Patched(j, p), KeyAfter(k, p);
    R.PatchedHash(j, p);
    V.PatchedView(j, p);
    V.TruncatedView(copy);
    PipelineWriteKeepsWhole(j, p);
    PipelineWriteKeepsWhole(V.FieldsOf(k), p);
    V.UpdateIsHSet(k, p);
    V.KeyReads(after);
    PatchedAgree(V.FieldsOf(k), j, p);
    IdIsKept(V.FieldsOf(k), p);
    if R.JobId !in V.FieldsOf(k) {
      IdIsMissed(V.FieldsOf(k), j, p);
    }
  }

  lemma IdIsKept(base: R.Job, p: R.Patch)
    requires R.JobId !in p
    ensures R.JobId in R.Patched(base, p) <==> R.JobId in base
  {
  }

  /** On what is left of a lost key the job id is missing, and no update writes it. */
  lemma IdIsMissed(k: R.Job, j: R.Job, p: R.Patch)
    requires R.WellFormed(j) && R.JobId !in k && R.JobId !in p
    ensures !AgreeOutside(k, j, R.Given(p))
  {
    assert R.Demanded(R.JobId) && R.JobId in j;
    assert R.JobId !in R.Given(p);
    assert R.Attribute(R.Truncated(k), R.JobId) != R.Attribute(R.Truncated(j), R.JobId);
  }
}
