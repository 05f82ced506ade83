/**
 * The pipeline protocol run on whole job records: every event with the update_job or create_job call
 * that stands behind it. In every run, losses and stale copies included, the hash under the job's key is
 * what the protocol says it is; and while one worker is undisturbed it decodes to that worker's copy.
 */
module RecordRun {
  import opened Enums
  import opened Options
  import opened Pipeline
  import opened PipelineSafety
  import opened StageWrites
  import G = Generation
  import H = Rehydration
  import R = JobRecord
  import S = JobStore
  import Q = Resolution
  import V = RecordView

  /** The key's fields, the worker's copy, and each sweeper's copy. */
  datatype Records = Records(key: V.Key, copy: R.Job, sweepers: map<nat, R.Job>)

  const NONE := Records(None, map[], map[])

  /** What an event brings with it: what a stage writes besides, and the job a creator writes. */
  datatype Input = Input(x: Extras, made: R.Job)

  ghost predicate CopyOk(j: R.Job, v: View) {
    R.WellFormed(j) && SnapshotWhole(j) && v == V.ViewOf(j)
  }

  ghost predicate KeyFits(k: V.Key, stored: Stored) {
    V.KeyOk(k) && SnapshotWhole(V.FieldsOf(k)) && stored == V.StoredAs(k)
  }

  ghost predicate Mirrors(s: State, m: Records) {
    && KeyFits(m.key, s.core.stored)
    && (s.core.worker.Running? ==> CopyOk(m.copy, s.core.worker.job))
    && (forall i :: i in s.sweepers ==> i in m.sweepers && CopyOk(m.sweepers[i], s.sweepers[i]))
  }

  /** get_job: what a reader holds. */
  function ReadCopy(k: V.Key): R.Job {
    R.Truncated(V.FieldsOf(k))
  }

  function TaskRecords(c: Core, m: Records, e: TaskEvent, x: Extras): Records
    requires TaskEnabled(c, e)
  {
    if IsStatusWrite(c, e) then
      m.(key := KeyAfter(m.key, Arguments(m.copy, c.worker.pc, e, x)), copy := Updated(m.copy, c.worker.pc, e, x))
    else if e.TokenWritten? then
      m.(key := KeyAfter(m.key, TokenFields(e.token)), copy := R.Replace(m.copy, TokenFields(e.token)))
    else m
  }

  function NextRecords(s: State, m: Records, e: Event, i: Input): Records
    requires Enabled(s, e) && Mirrors(s, m)
  {
    match e
    case Task(t) => TaskRecords(s.core, m, t, i.x)
    case CreateRecord => m.(key := Some(i.made))
    case StartTask => m.(copy := ReadCopy(m.key))
    case ResolveRoute(chosen) =>
      m.(key := KeyAfter(m.key, Q.ResolveArguments(Q.ResolvedJob(ReadCopy(m.key), chosen, i.x.now))))
    case LoseRecord => m.(key := None)
    case SweepRead(id) => m.(sweepers := m.sweepers[id := ReadCopy(m.key)])
    case SweepWrite(id) => m.(key := KeyAfter(m.key, S.ReapArguments(S.Reaped(m.sweepers[id], i.x.now))))
    case RehydrateWrite(_) => m.(key := Some(V.FieldsOf(m.key) + i.made))
    case _ => m
  }

  /** The jobs that create_job is called with are complete, without a snapshot, and look as the protocol says. */
  predicate InputOk(s: State, e: Event, i: Input) {
    e.CreateRecord? || e.RehydrateWrite? ==>
      && R.WellFormed(i.made)
      && NoSnapshot(i.made)
      && V.ViewOf(i.made) == if e.CreateRecord? then NewJob(s.req) else RehydratedJob(s.req)
  }

  // ---------------------------------------------------------------- no snapshot before submitting

  function SnapshotOf(stored: Stored): Option<Snapshot> {
    match stored
    case Missing => None
    case Partial(v) => v.snapshot
    case Full(v) => v.snapshot
  }

  ghost predicate Unsnapped(c: Core) {
    !c.submittingWritten ==>
      SnapshotOf(c.stored).None? && (c.worker.Running? ==> c.worker.job.snapshot.None?)
  }

  lemma TaskStepKeepsUnsnapped(c: Core, e: TaskEvent, fake: bool)
    requires CoreInv(c) && Unsnapped(c) && TaskEnabled(c, e)
    ensures Unsnapped(TaskNext(c, e, fake))
  {
    if IsStatusWrite(c, e) {
      var to, error, fields, next := StatusWriteIsPersist(c, e, fake);
      hide CoreInv, TaskNext, WriteOf;
    } else if e == Dispatched {
      DispatchOnlyMoves(c);
      hide CoreInv, Dispatch;
    } else {
      hide CoreInv, Dispatch;
    }
  }

  lemma StepKeepsUnsnapped(s: State, e: Event)
    requires Inv(s) && Unsnapped(s.core) && Enabled(s, e)
    ensures Unsnapped(Next(s, e).core)
  {
    if e.Task? {
      TaskStepKeepsUnsnapped(s.core, e.e, s.fakeDeployment);
    }
    hide CoreInv, TaskNext, TaskEnabled;
  }

  // ---------------------------------------------------------------- every event

  lemma TokenFieldsWrite(base: R.Job, token: string)
    ensures R.WellTyped(TokenFields(token)) && R.JobId !in TokenFields(token) && V.PipelineWrite(base, TokenFields(token))
    ensures V.DeltaOf(TokenFields(token)) == NOTHING.(token := Some(token))
    ensures R.Replace(base, TokenFields(token)) == R.Patched(base, TokenFields(token))
  {
  }

  lemma TaskMirrors(c: Core, m: Records, e: TaskEvent, x: Extras, fake: bool)
    requires CoreInv(c) && Unsnapped(c) && TaskEnabled(c, e)
    requires KeyFits(m.key, c.stored) && CopyOk(m.copy, c.worker.job)
    ensures var d, t := TaskNext(c, e, fake), TaskRecords(c, m, e, x);
            && KeyFits(t.key, d.stored) && (d.worker.Running? ==> CopyOk(t.copy, d.worker.job))
            && t.sweepers == m.sweepers
            && (R.Truncated(V.FieldsOf(m.key)) == R.Truncated(m.copy) ==> R.Truncated(V.FieldsOf(t.key)) == R.Truncated(t.copy))
  {
    hide CoreInv, Unsnapped, CopyOk, KeyFits, TokenFields, Arguments, Updated, KeyAfter, IsStatusWrite;
    hide R.Replace, R.Truncated, V.FieldsOf, HSet, Dispatch, Persist;
    if IsStatusWrite(c, e) {
      StatusWriteMirrors(c, m, e, x, fake);
    } else if e.TokenWritten? {
      TokenMirrors(m, c.stored, c.worker.job, e.token);
    } else {
      OthersKeepCopy(c, e, fake);
    }
  }

  lemma TokenMirrors(m: Records, stored: Stored, job: View, token: string)
    requires KeyFits(m.key, stored) && CopyOk(m.copy, job)
    ensures var p := TokenFields(token);
            && KeyFits(KeyAfter(m.key, p), HSet(stored, NOTHING.(token := Some(token))))
            && CopyOk(R.Replace(m.copy, p), job.(token := Some(token)))
            && (R.Truncated(V.FieldsOf(m.key)) == R.Truncated(m.copy) ==>
                  R.Truncated(V.FieldsOf(KeyAfter(m.key, p))) == R.Truncated(R.Replace(m.copy, p)))
  {
    hide V.ViewOf, V.DeltaOf, TokenFields, R.WellFormed, R.Patched, R.Replace, R.Truncated, R.Given, V.PipelineWrite;
    hide R.WellTyped;
    hide V.KeyOk, V.StoredAs, SnapshotWhole, HSet;
    TokenFieldsWrite(V.FieldsOf(m.key), token);
    TokenFieldsWrite(m.copy, token);
    WriteOnKey(m.key, m.copy, TokenFields(token));
    PatchedAgree(V.FieldsOf(m.key), m.copy, TokenFields(token));
  }

  lemma OthersKeepCopy(c: Core, e: TaskEvent, fake: bool)
    requires CoreInv(c) && TaskEnabled(c, e) && !IsStatusWrite(c, e) && !e.TokenWritten?
    ensures var d := TaskNext(c, e, fake); d.stored == c.stored && (d.worker.Running? ==> d.worker.job == c.worker.job)
  {
    if !e.ProviderCalled? {
      MoveOnlyMoves(c, e, fake);
      hide CoreInv, TaskNext;
    }
  }

  /** The hash of these fields reads back as this in-memory job, in milliseconds. */
  ghost predicate DecodesTo(k: R.Job, copy: R.Job)
    requires R.Typed(k)
  {
    R.FromRedisHash(R.ToRedisHash(k)) == Some(R.Truncated(copy))
  }

  lemma StatusWriteMirrors(c: Core, m: Records, e: TaskEvent, x: Extras, fake: bool)
    requires CoreInv(c) && Unsnapped(c) && TaskEnabled(c, e) && IsStatusWrite(c, e)
    requires KeyFits(m.key, c.stored) && CopyOk(m.copy, c.worker.job)
    ensures var d, t := TaskNext(c, e, fake), TaskRecords(c, m, e, x);
            && KeyFits(t.key, d.stored) && (d.worker.Running? ==> CopyOk(t.copy, d.worker.job))
            && (R.Truncated(V.FieldsOf(m.key)) == R.Truncated(m.copy) ==> R.Truncated(V.FieldsOf(t.key)) == R.Truncated(t.copy))
            && t.key.Some?
            && (DecodesTo(t.key.value, t.copy)
                <==> AgreeOutside(V.FieldsOf(m.key), m.copy, R.Given(Arguments(m.copy, c.worker.pc, e, x))))
  {
    SnapshotGoesWhereNoneIs(c, m, e);
    StageWriteRefines(c, e, fake, m.copy, m.key, x);
    ArgumentsAreTyped(m.copy, c.worker.pc, e, x);
    PatchedAgree(V.FieldsOf(m.key), m.copy, Arguments(m.copy, c.worker.pc, e, x));
    hide *;
  }

  lemma SnapshotGoesWhereNoneIs(c: Core, m: Records, e: TaskEvent)
    requires CoreInv(c) && Unsnapped(c) && TaskEnabled(c, e)
    requires KeyFits(m.key, c.stored) && CopyOk(m.copy, c.worker.job)
    ensures Ready(m.copy, m.key, e)
  {
    hide R.WellFormed, V.KeyOk, SnapshotWhole, V.StatusAt, V.StrAt, V.TypeAt, V.ErrorAt, V.ParamsAt, R.Typed;
    assert e == SnapshotWritten ==> !c.submittingWritten;
    assert V.ViewOf(m.copy).snapshot.None? <==> R.PromptSnapshot !in m.copy;
    assert V.ViewOf(V.FieldsOf(m.key)).snapshot.None? <==> R.PromptSnapshot !in V.FieldsOf(m.key);
  }

  lemma ReapArgumentsAreTyped(j: R.Job, stamp: nat)
    requires R.WellFormed(j)
    ensures R.WellTyped(S.ReapArguments(S.Reaped(j, stamp)))
  {
    var none: R.Patch := map[];
    var (to, error) := S.SweepTarget(S.StatusOf(j));
    assert R.OwnFields(none) && R.WellTyped(none);
    R.PersistedIsUpdated(j, to, Some(error), None, none, stamp);
    hide R.PersistArguments, R.Replace, R.TransitionUpdates, R.WellFormed, S.StatusOf, R.Patched, R.Clears, R.WellTyped;
  }

  lemma ReapArgumentsAreLifecycle(updated: R.Job, f: R.Field)
    ensures f in S.ReapArguments(updated) ==> R.Lifecycle(f)
  {
    var none: R.Patch := map[];
    assert R.OwnFields(none) && f !in none;
    R.ArgumentsByField(f, updated, none);
    hide R.PersistArguments, R.OwnFields;
  }

  lemma ReapArgumentsWrite(base: R.Job, j: R.Job, stamp: nat)
    requires R.WellFormed(j)
    ensures var p := S.ReapArguments(S.Reaped(j, stamp));
            R.WellTyped(p) && R.JobId !in p && V.PipelineWrite(base, p) && V.DeltaOf(p) == SweepDelta(V.ViewOf(j))
  {
    hide *;
    var p := S.ReapArguments(S.Reaped(j, stamp));
    ReapArgumentsAreTyped(j, stamp);
    V.ReapIsProtocolDelta(j, stamp);
    forall f ensures f in p ==> R.Lifecycle(f) {
      ReapArgumentsAreLifecycle(S.Reaped(j, stamp), f);
    }
    LifecycleIsPipelineWrite(base, p);
  }

  lemma LifecycleIsPipelineWrite(base: R.Job, p: R.Patch)
    requires forall f :: f in p ==> R.Lifecycle(f)
    ensures R.JobId !in p && V.PipelineWrite(base, p)
  {
    assert forall f :: f in R.Given(p) ==> f in p;
    hide R.Given;
  }

  lemma ResolveArgumentsWrite(base: R.Job, j: R.Job, chosen: JewelryType, now: nat)
    ensures var p := Q.ResolveArguments(Q.ResolvedJob(j, chosen, now));
            && R.WellTyped(p) && R.JobId !in p && V.PipelineWrite(base, p)
            && V.DeltaOf(p) == NOTHING.(status := Some(Resolving), final := Some(chosen))
  {
    Q.ResolvedGiven(j, chosen, now);
    Q.ResolveIsProtocolDelta(j, chosen, now);
    hide V.DeltaOf, Q.ResolvedJob, R.WellTyped;
  }

  lemma WriteMirrors(k: V.Key, stored: Stored, p: R.Patch)
    requires KeyFits(k, stored) && R.WellTyped(p) && R.JobId !in p && V.PipelineWrite(V.FieldsOf(k), p)
    ensures KeyFits(KeyAfter(k, p), HSet(stored, V.DeltaOf(p)))
  {
    V.UpdateIsHSet(k, p);
    PipelineWriteKeepsWhole(V.FieldsOf(k), p);
    hide V.KeyOk, SnapshotWhole, V.StoredAs, V.DeltaOf, HSet, R.Patched, R.WellTyped, V.PipelineWrite;
  }

  lemma ReadMirrors(k: V.Key, stored: Stored)
    requires KeyFits(k, stored) && stored.Full?
    ensures CopyOk(ReadCopy(k), stored.job) && R.Truncated(ReadCopy(k)) == ReadCopy(k)
    ensures R.FromRedisHash(R.ToRedisHash(k.value)) == Some(ReadCopy(k))
  {
    var j := V.FieldsOf(k);
    V.TruncatedView(j);
    V.KeyReads(k);
    TruncatedTwice(j);
    hide V.ViewOf, R.ToRedisHash, R.FromRedisHash;
  }

  lemma TruncatedTwice(j: R.Job)
    requires R.WellFormed(j)
    ensures R.WellFormed(R.Truncated(j)) && R.Truncated(R.Truncated(j)) == R.Truncated(j)
  {
    hide R.KindOf, R.Demanded, R.Default;
  }

  /** create_job over what is left under the key: field by field the new job wins. */
  lemma MergedField(k: R.Job, n: R.Job, f: R.Field)
    requires R.Typed(k) && R.Typed(n)
    ensures f in k + n <==> f in n || f in k
    ensures V.StrAt(k + n, f) == V.StrAt(n, f).Or(V.StrAt(k, f)) && V.TypeAt(k + n, f) == V.TypeAt(n, f).Or(V.TypeAt(k, f))
  {
    if f in k && f in n {
      V.SameKind(R.KindOf(f), k[f], n[f]);
    }
    hide R.Typed, R.KindOf, R.HasKind;
  }

  lemma MergedErrorAndParams(k: R.Job, n: R.Job)
    requires R.Typed(k) && R.WellFormed(n)
    ensures V.StatusAt(k + n) == V.StatusAt(n) && V.StatusAt(n).Some? && R.Mock in n
    ensures V.ErrorAt(k + n) == V.ErrorAt(n).Or(V.ErrorAt(k))
    ensures R.ProviderParamsSnapshot !in n ==> V.ParamsAt(k + n) == V.ParamsAt(k)
  {
    assert R.KindOf(R.Status) == R.KStatus && R.KindOf(R.Error) == R.KError;
    assert R.Demanded(R.Status) && R.Default(R.Mock).Some?;
    assert R.Error in n ==> n[R.Error].OfError?;
    hide R.KindOf, R.Demanded, R.Default;
  }

  predicate NoSnapshot(n: R.Job) {
    forall f :: V.SnapshotField(f) ==> f !in n
  }

  lemma MergedSnapshot(k: R.Job, n: R.Job)
    requires R.Typed(k) && R.WellFormed(n) && NoSnapshot(n)
    ensures V.SnapshotAt(k + n) == V.SnapshotAt(k) && V.SnapshotAt(n).None?
  {
    assert V.SnapshotField(R.PromptSnapshot) && V.SnapshotField(R.NegativePromptSnapshot) && V.SnapshotField(R.ReferenceUrlSnapshot)
           && V.SnapshotField(R.ProviderParamsSnapshot) && V.SnapshotField(R.MatrixVersion);
    MergedErrorAndParams(k, n);
    hide R.Typed, R.WellFormed, V.ParamsAt, NoSnapshot;
  }

  lemma MergedView(k: R.Job, n: R.Job)
    requires R.Typed(k) && R.WellFormed(n) && NoSnapshot(n)
    ensures V.ViewOf(k + n) == Overwrite(V.ViewOf(k), V.ViewOf(n))
  {
    MergedField(k, n, R.JewelryTypeRequested);
    MergedField(k, n, R.JewelryTypeFinal);
    MergedField(k, n, R.SubmissionToken);
    MergedField(k, n, R.ProviderJobId);
    MergedErrorAndParams(k, n);
    MergedSnapshot(k, n);
    hide R.Typed, R.WellFormed, NoSnapshot, V.StrAt, V.TypeAt, V.SnapshotAt, V.StatusAt, V.ErrorAt;
  }

  lemma MergedIsWhole(k: R.Job, n: R.Job)
    requires R.Typed(k) && SnapshotWhole(k) && R.WellFormed(n) && NoSnapshot(n)
    ensures R.WellFormed(k + n) && SnapshotWhole(k + n) && R.JobId in k + n
  {
    assert R.Demanded(R.JobId) && V.SnapshotField(R.PromptSnapshot);
    hide R.KindOf, R.HasKind, R.Demanded, R.Default;
  }

  lemma MergedHash(k: R.Job, n: R.Job)
    requires R.Typed(k) && R.Typed(n) && R.Typed(k + n)
    ensures R.ToRedisHash(k) + R.ToRedisHash(n) == R.ToRedisHash(k + n)
  {
    hide R.HasKind, R.KindOf, R.EncodeField;
  }

  lemma CreateMirrors(k: V.Key, stored: Stored, n: R.Job)
    requires KeyFits(k, stored) && R.WellFormed(n) && NoSnapshot(n)
    ensures KeyFits(Some(V.FieldsOf(k) + n), CreateOver(stored, V.ViewOf(n)))
    ensures R.ToRedisHash(V.FieldsOf(k)) + R.ToRedisHash(n) == R.ToRedisHash(V.FieldsOf(k) + n)
  {
    hide R.HasKind, R.KindOf, R.Demanded, R.Default, NoSnapshot, SnapshotWhole, V.ViewOf, Overwrite, R.EncodeField;
    MergedIsWhole(V.FieldsOf(k), n);
    MergedView(V.FieldsOf(k), n);
    MergedHash(V.FieldsOf(k), n);
    assert k.None? ==> V.FieldsOf(k) + n == n;
  }

  lemma FreshMirrors(n: R.Job)
    requires R.WellFormed(n) && NoSnapshot(n)
    ensures KeyFits(Some(n), Full(V.ViewOf(n)))
  {
    assert R.Demanded(R.JobId);
    hide V.ViewOf;
  }

  /** Each event does to the records what the protocol does to their views. */
  lemma StepMirrors(s: State, m: Records, e: Event, i: Input)
    requires Inv(s) && Unsnapped(s.core) && Mirrors(s, m) && Enabled(s, e) && InputOk(s, e, i)
    ensures Mirrors(Next(s, e), NextRecords(s, m, e, i))
  {
    hide KeyFits, CopyOk, KeyAfter, ReadCopy, R.WellFormed, V.FieldsOf, Unsnapped, CoreInv, TaskNext, TaskRecords;
    hide HSet, SweepDelta;
    if e.Task? {
      assert CoreInv(s.core);
      TaskMirrors(s.core, m, e.e, i.x, s.fakeDeployment);
    } else if e.CreateRecord? {
      FreshMirrors(i.made);
    } else if e.StartTask? || e.SweepRead? {
      ReadMirrors(m.key, s.core.stored);
    } else if e.ResolveRoute? {
      var j := ReadCopy(m.key);
      ResolveArgumentsWrite(V.FieldsOf(m.key), j, e.chosen, i.x.now);
      WriteMirrors(m.key, s.core.stored, Q.ResolveArguments(Q.ResolvedJob(j, e.chosen, i.x.now)));
    } else if e.LoseRecord? {
      LostMirrors();
    } else if e.SweepWrite? {
      SweepMirrors(m.key, s.core.stored, m.sweepers[e.id], s.sweepers[e.id], i.x.now);
    } else if e.RehydrateWrite? {
      CreateMirrors(m.key, s.core.stored, i.made);
    }
  }

  lemma LostMirrors()
    ensures KeyFits(None, Missing)
  {
  }

  lemma SweepMirrors(k: V.Key, stored: Stored, j: R.Job, v: View, stamp: nat)
    requires KeyFits(k, stored) && CopyOk(j, v)
    ensures R.WellFormed(j) && KeyFits(KeyAfter(k, S.ReapArguments(S.Reaped(j, stamp))), HSet(stored, SweepDelta(v)))
  {
    ReapArgumentsWrite(V.FieldsOf(k), j, stamp);
    WriteMirrors(k, stored, S.ReapArguments(S.Reaped(j, stamp)));
    hide KeyFits, R.WellFormed, S.ReapArguments, S.Reaped, V.DeltaOf, SweepDelta, HSet, SnapshotWhole, V.ViewOf;
  }

  function TypeValue(t: Option<JewelryType>): Option<R.Value> {
    if t.Some? then Some(R.OfType(t.value)) else None
  }

  /** How a job without snapshot, token and provider id looks to the protocol. */
  lemma ViewFromFields(j: R.Job, v: View)
    requires R.Attribute(j, R.Status) == Some(R.OfStatus(v.status)) && R.Attribute(j, R.Mock) == Some(R.Bool(v.mock))
    requires R.Attribute(j, R.JewelryTypeRequested) == TypeValue(v.requested)
    requires R.Attribute(j, R.JewelryTypeFinal) == TypeValue(v.final)
    requires R.Attribute(j, R.Error) == if v.error.Some? then Some(R.OfError(v.error.value)) else None
    requires R.Attribute(j, R.PromptSnapshot).None? && R.Attribute(j, R.SubmissionToken).None? && R.Attribute(j, R.ProviderJobId).None?
    requires v.snapshot.None? && v.token.None? && v.providerJobId.None?
    ensures V.ViewOf(j) == v
  {
  }

  lemma NoSnapshotFields(n: R.Job)
    requires R.PromptSnapshot !in n && R.NegativePromptSnapshot !in n && R.ReferenceUrlSnapshot !in n
    requires R.ProviderParamsSnapshot !in n && R.MatrixVersion !in n
    ensures NoSnapshot(n)
  {
  }

  lemma NewJobField(form: G.Form, hash: string, mime: string, sourceRef: string, o: G.Outside, f: R.Field)
    ensures var n := G.NewJob(form, hash, mime, sourceRef, o);
            R.Attribute(n, f) == G.NewField(f, form, hash, mime, sourceRef, o) && (f in n <==> R.Attribute(n, f).Some?)
  {
    hide G.NewField, R.WellFormed;
  }

  lemma NewJobHasNoSnapshot(form: G.Form, hash: string, mime: string, sourceRef: string, o: G.Outside)
    ensures NoSnapshot(G.NewJob(form, hash, mime, sourceRef, o))
  {
    hide G.NewJob, V.ViewOf, R.WellFormed, R.Attribute, NoSnapshot;
    NewJobField(form, hash, mime, sourceRef, o, R.PromptSnapshot);
    NewJobField(form, hash, mime, sourceRef, o, R.NegativePromptSnapshot);
    NewJobField(form, hash, mime, sourceRef, o, R.ReferenceUrlSnapshot);
    NewJobField(form, hash, mime, sourceRef, o, R.ProviderParamsSnapshot);
    NewJobField(form, hash, mime, sourceRef, o, R.MatrixVersion);
    NoSnapshotFields(G.NewJob(form, hash, mime, sourceRef, o));
  }

  /** What POST /generate creates is the protocol's new job. */
  lemma NewJobIsInput(form: G.Form, hash: string, mime: string, sourceRef: string, o: G.Outside)
    ensures var n := G.NewJob(form, hash, mime, sourceRef, o);
            NoSnapshot(n) && V.ViewOf(n) == NewJob(Request(form.request.requested, form.request.mock))
  {
    hide G.NewJob, V.ViewOf, R.WellFormed, R.Attribute, NoSnapshot;
    var n := G.NewJob(form, hash, mime, sourceRef, o);
    NewJobField(form, hash, mime, sourceRef, o, R.Status);
    NewJobField(form, hash, mime, sourceRef, o, R.Mock);
    NewJobField(form, hash, mime, sourceRef, o, R.JewelryTypeRequested);
    NewJobField(form, hash, mime, sourceRef, o, R.JewelryTypeFinal);
    NewJobField(form, hash, mime, sourceRef, o, R.Error);
    NewJobField(form, hash, mime, sourceRef, o, R.PromptSnapshot);
    NewJobField(form, hash, mime, sourceRef, o, R.SubmissionToken);
    NewJobField(form, hash, mime, sourceRef, o, R.ProviderJobId);
    NewJobHasNoSnapshot(form, hash, mime, sourceRef, o);
    ViewFromFields(n, NewJob(Request(form.request.requested, form.request.mock)));
  }

  lemma RecoveredJobHasNoSnapshot(row: H.Row, created: nat, service: ServiceType, t: Option<JewelryType>, at: H.Setting)
    ensures NoSnapshot(H.RecoveredJob(row, created, service, t, at))
  {
    hide H.RecoveredJob, V.ViewOf, R.WellFormed, R.Attribute, NoSnapshot, H.Cell, H.IdOf;
    H.RecoveredJobField(row, created, service, t, at, R.PromptSnapshot);
    H.RecoveredJobField(row, created, service, t, at, R.NegativePromptSnapshot);
    H.RecoveredJobField(row, created, service, t, at, R.ReferenceUrlSnapshot);
    H.RecoveredJobField(row, created, service, t, at, R.ProviderParamsSnapshot);
    H.RecoveredJobField(row, created, service, t, at, R.MatrixVersion);
    NoSnapshotFields(H.RecoveredJob(row, created, service, t, at));
  }

  lemma RecoveredJobView(row: H.Row, created: nat, service: ServiceType, t: Option<JewelryType>, at: H.Setting)
    ensures var n := H.RecoveredJob(row, created, service, t, at);
            NoSnapshot(n) && V.ViewOf(n) == RehydratedJob(Request(t, H.Cell(row, H.COL_MOCK) == "1"))
  {
    hide H.RecoveredJob, V.ViewOf, R.WellFormed, R.Attribute, NoSnapshot, H.Cell, H.IdOf;
    var n := H.RecoveredJob(row, created, service, t, at);
    H.RecoveredJobField(row, created, service, t, at, R.Status);
    H.RecoveredJobField(row, created, service, t, at, R.Mock);
    H.RecoveredJobField(row, created, service, t, at, R.JewelryTypeRequested);
    H.RecoveredJobField(row, created, service, t, at, R.JewelryTypeFinal);
    H.RecoveredJobField(row, created, service, t, at, R.Error);
    H.RecoveredJobField(row, created, service, t, at, R.PromptSnapshot);
    H.RecoveredJobField(row, created, service, t, at, R.SubmissionToken);
    H.RecoveredJobField(row, created, service, t, at, R.ProviderJobId);
    RecoveredJobHasNoSnapshot(row, created, service, t, at);
    ViewFromFields(n, RehydratedJob(Request(t, H.Cell(row, H.COL_MOCK) == "1")));
  }

  /** What rehydration creates from a row is the protocol's rehydrated job, for the request the row records. */
  lemma RecoveredIsInput(row: H.Row, at: H.Setting)
    requires H.Open(row, at) && H.Recovered(row, at).Some?
    ensures var n, text := H.Recovered(row, at).value, H.Cell(row, H.COL_JEWELRY_TYPE);
            var requested := if text != "" && text != "AUTO" then R.TypeOf(text) else None;
            NoSnapshot(n) && V.ViewOf(n) == RehydratedJob(Request(requested, H.Cell(row, H.COL_MOCK) == "1"))
  {
    hide H.RecoveredJob, NoSnapshot, V.ViewOf, RehydratedJob, R.WellFormed, R.ServiceOf, R.TypeOf, H.Cell, H.IdOf;
    var text := H.Cell(row, H.COL_JEWELRY_TYPE);
    var requested := if text != "" && text != "AUTO" then R.TypeOf(text) else None;
    RecoveredJobView(row, at.iso(H.Cell(row, H.COL_CREATED_AT)).value, R.ServiceOf(H.Cell(row, H.COL_SERVICE)).value, requested, at);
  }

  // ---------------------------------------------------------------- every run

  ghost predicate InputsOk(s: State, events: seq<Event>, inputs: seq<Input>)
    requires Possible(s, events)
    decreases |events|
  {
    && |inputs| == |events|
    && (events == [] || (InputOk(s, events[0], inputs[0]) && InputsOk(Next(s, events[0]), events[1..], inputs[1..])))
  }

  ghost predicate Related(s: State, m: Records) {
    Inv(s) && Unsnapped(s.core) && Mirrors(s, m)
  }

  lemma StepRelates(s: State, m: Records, e: Event, i: Input)
    requires Related(s, m) && Enabled(s, e) && InputOk(s, e, i)
    ensures Related(Next(s, e), NextRecords(s, m, e, i))
  {
    StepKeepsInv(s, e);
    StepKeepsUnsnapped(s, e);
    StepMirrors(s, m, e, i);
    hide Inv, Unsnapped, Mirrors, Next, NextRecords, Enabled, InputOk;
  }

  /** The records after a run. */
  ghost function RunRecords(s: State, m: Records, events: seq<Event>, inputs: seq<Input>): (r: Records)
    requires Related(s, m) && Possible(s, events) && InputsOk(s, events, inputs)
    ensures Related(Run(s, events), r)
    decreases |events|
  {
    if events == [] then m
    else
      StepRelates(s, m, events[0], inputs[0]);
      RunRecords(Next(s, events[0]), NextRecords(s, m, events[0], inputs[0]), events[1..], inputs[1..])
  }

  lemma NothingRelated(req: Request, fake: bool)
    ensures Related(Init(req, fake), NONE)
  {
    InitInv(req, fake);
    LostMirrors();
    hide CoreInv, KeyFits;
  }

  /**
   * From the start, over every run of every writer: what get_job finds under the key is, seen as the
   * protocol sees it, the protocol's record. It raises exactly on what an update left on a lost key.
   */
  lemma HashFollowsProtocol(req: Request, fake: bool, events: seq<Event>, inputs: seq<Input>)
    requires Possible(Init(req, fake), events) && InputsOk(Init(req, fake), events, inputs)
    ensures Related(Init(req, fake), NONE)
    ensures var s, m := Run(Init(req, fake), events), RunRecords(Init(req, fake), NONE, events, inputs);
            && (s.core.stored.Missing? <==> m.key.None?)
            && (m.key.Some? ==>
                  var read := R.FromRedisHash(R.ToRedisHash(m.key.value));
                  && (s.core.stored.Partial? <==> read.None?)
                  && (read.Some? ==> s.core.stored == Full(V.ViewOf(read.value))))
  {
    NothingRelated(req, fake);
    var m := RunRecords(Init(req, fake), NONE, events, inputs);
    var stored := Run(Init(req, fake), events).core.stored;
    assert KeyFits(m.key, stored);
    if m.key.Some? {
      V.KeyReads(m.key);
      if stored.Full? {
        ReadMirrors(m.key, stored);
      }
    }
    hide Inv, R.FromRedisHash, R.ToRedisHash, V.ViewOf, Run, RunRecords, R.Typed, SnapshotWhole;
  }

  ghost predicate InSync(m: Records) {
    R.Truncated(V.FieldsOf(m.key)) == R.Truncated(m.copy)
  }

  lemma TaskKeepsInSync(s: State, m: Records, e: TaskEvent, i: Input)
    requires Related(s, m) && Enabled(s, Task(e)) && InSync(m)
    ensures InSync(NextRecords(s, m, Task(e), i))
    ensures s.core.stored.Full? ==> Next(s, Task(e)).core.stored.Full?
  {
    hide KeyFits, CopyOk, CoreInv, Unsnapped, TaskRecords, TaskNext, R.Truncated, V.FieldsOf, Next, NextRecords;
    TaskMirrors(s.core, m, e, i.x, s.fakeDeployment);
    if s.core.stored.Full? {
      TaskKeepsFull(s.core, e, s.fakeDeployment);
    }
    NextOfTask(s, m, e, i);
  }

  lemma NextOfTask(s: State, m: Records, e: TaskEvent, i: Input)
    requires Mirrors(s, m) && Enabled(s, Task(e))
    ensures Next(s, Task(e)).core == TaskNext(s.core, e, s.fakeDeployment)
    ensures NextRecords(s, m, Task(e), i) == TaskRecords(s.core, m, e, i.x)
  {
    hide TaskNext, TaskRecords, Mirrors;
  }

  lemma TaskKeepsFull(c: Core, e: TaskEvent, fake: bool)
    requires CoreInv(c) && TaskEnabled(c, e) && c.stored.Full?
    ensures TaskNext(c, e, fake).stored.Full?
  {
    TaskStepHistory(c, e, fake);
    hide CoreInv, TaskNext;
  }

  lemma {:induction false} WorkerStaysInSync(s: State, m: Records, events: seq<Event>, inputs: seq<Input>)
    requires Related(s, m) && Possible(s, events) && InputsOk(s, events, inputs)
    requires InSync(m) && s.core.stored.Full? && forall e :: e in events ==> e.Task?
    ensures InSync(RunRecords(s, m, events, inputs)) && Run(s, events).core.stored.Full?
    decreases |events|
  {
    hide InSync, Inv, Unsnapped, Mirrors, NextRecords, Next, Enabled, InputOk;
    if events != [] {
      var e := events[0];
      assert e in events && forall x :: x in events[1..] ==> x in events;
      StepRelates(s, m, e, inputs[0]);
      TaskKeepsInSync(s, m, e.e, inputs[0]);
      WorkerStaysInSync(Next(s, e), NextRecords(s, m, e, inputs[0]), events[1..], inputs[1..]);
    }
  }

  /**
   * After every write of a worker that nobody has disturbed since it read the job, the hash decodes to
   * the worker's in-memory job, cut to milliseconds: no stage's arguments clear a field.
   */
  lemma HashIsTheCopy(s: State, m: Records, i: Input, events: seq<Event>, inputs: seq<Input>)
    requires Related(s, m) && Enabled(s, StartTask) && (forall e :: e in events ==> e.Task?)
    requires Possible(Next(s, StartTask), events) && InputsOk(Next(s, StartTask), events, inputs)
    ensures Related(Next(s, StartTask), NextRecords(s, m, StartTask, i))
    ensures var r := RunRecords(Next(s, StartTask), NextRecords(s, m, StartTask, i), events, inputs);
            r.key.Some? && R.FromRedisHash(R.ToRedisHash(r.key.value)) == Some(R.Truncated(r.copy))
  {
    var t, n := Next(s, StartTask), NextRecords(s, m, StartTask, i);
    StepRelates(s, m, StartTask, i);
    assert KeyFits(m.key, s.core.stored);
    ReadMirrors(m.key, s.core.stored);
    assert InSync(n);
    WorkerStaysInSync(t, n, events, inputs);
    var r := RunRecords(t, n, events, inputs);
    assert KeyFits(r.key, Run(t, events).core.stored);
    V.KeyReads(r.key);
    hide Inv, Run, RunRecords, NextRecords, CoreInv, R.FromRedisHash, R.ToRedisHash, R.Truncated, V.ViewOf, InputsOk;
    hide SnapshotWhole, R.Typed;
  }

  /**
   * When others may have written in between: after a stage's write the hash decodes to its in-memory job
   * if and only if the copy was up to date in every field the call does not write.
   */
  lemma WriteDecodesIffUpToDate(s: State, m: Records, e: TaskEvent, i: Input)
    requires Related(s, m) && Enabled(s, Task(e)) && IsStatusWrite(s.core, e)
    ensures var r := NextRecords(s, m, Task(e), i);
            && r.key.Some? && R.Typed(r.key.value)
            && (DecodesTo(r.key.value, r.copy)
                <==> AgreeOutside(V.FieldsOf(m.key), m.copy, R.Given(Arguments(m.copy, s.core.worker.pc, e, i.x))))
  {
    hide CopyOk, CoreInv, Unsnapped, TaskNext, TaskRecords, SnapshotWhole, R.Given, R.Typed, R.WellFormed, V.StoredAs;
    hide DecodesTo, AgreeOutside, IsStatusWrite, Arguments, Next, NextRecords;
    StatusWriteMirrors(s.core, m, e, i.x, s.fakeDeployment);
    NextOfTask(s, m, e, i);
  }
}
