/**
 * Why the pipeline protocol may speak of views and deltas: what the Redis hash decodes to, seen through
 * a view, changes under update_job exactly as HSet says.
 */
module RecordView {
  import opened Enums
  import opened Options
  import R = JobRecord
  import P = Pipeline
  import S = JobStore

  function StrAt(j: R.Job, f: R.Field): Option<string> {
    if f in j && j[f].Str? then Some(j[f].s) else None
  }

  function TypeAt(j: R.Job, f: R.Field): Option<JewelryType> {
    if f in j && j[f].OfType? then Some(j[f].jewelryType) else None
  }

  function ErrorAt(j: R.Job): Option<ErrorCode> {
    if R.Error in j && j[R.Error].OfError? then Some(j[R.Error].error) else None
  }

  function ParamsAt(j: R.Job): Option<string> {
    if R.ProviderParamsSnapshot in j && j[R.ProviderParamsSnapshot].Data? && j[R.ProviderParamsSnapshot].json.Params?
    then Some(j[R.ProviderParamsSnapshot].json.body) else None
  }

  function StatusAt(j: R.Job): Option<JobStatus> {
    if R.Status in j && j[R.Status].OfStatus? then Some(j[R.Status].status) else None
  }

  function SnapshotAt(j: R.Job): Option<P.Snapshot> {
    if R.PromptSnapshot in j
    then Some(P.Snapshot(P.Row(StrAt(j, R.PromptSnapshot).GetOr(""), StrAt(j, R.NegativePromptSnapshot),
                               StrAt(j, R.ReferenceUrlSnapshot).GetOr(""), ParamsAt(j)),
                         StrAt(j, R.MatrixVersion).GetOr("")))
    else None
  }

  function ViewOf(j: R.Job): P.View {
    P.View(StatusAt(j).GetOr(Failed), TypeAt(j, R.JewelryTypeRequested), R.Mock in j && j[R.Mock] == R.Bool(true),
           TypeAt(j, R.JewelryTypeFinal), ErrorAt(j), SnapshotAt(j), StrAt(j, R.SubmissionToken), StrAt(j, R.ProviderJobId))
  }

  function DeltaOf(p: R.Patch): P.Delta {
    var g := R.Given(p);
    P.Delta(StatusAt(g), TypeAt(g, R.JewelryTypeFinal), ErrorAt(g), SnapshotAt(g), StrAt(g, R.SubmissionToken),
            StrAt(g, R.ProviderJobId))
  }

  predicate SnapshotField(f: R.Field) {
    f == R.PromptSnapshot || f == R.NegativePromptSnapshot || f == R.ReferenceUrlSnapshot
    || f == R.ProviderParamsSnapshot || f == R.MatrixVersion
  }

  /** As every writer calls update_job: request fields untouched, the snapshot written whole and once. */
  ghost predicate PipelineWrite(j: R.Job, p: R.Patch) {
    && R.JewelryTypeRequested !in p && R.Mock !in p
    && (R.PromptSnapshot in R.Given(p) ==> forall f :: SnapshotField(f) ==> f !in j)
    && (R.PromptSnapshot !in R.Given(p) ==> forall f :: SnapshotField(f) ==> f !in R.Given(p))
  }

  lemma AttributeOfPatched(j: R.Job, p: R.Patch, f: R.Field)
    ensures var t, g := R.Truncated(R.Patched(j, p)), R.Given(p);
            && (f in t <==> f in g || f in j)
            && (f in g ==> t[f] == R.TruncatedValue(g[f]))
            && (f !in g && f in j ==> t[f] == R.TruncatedValue(j[f]))
  {
    hide R.TruncatedValue;
  }

  /** Field by field: what the patch gives wins, the rest stays. */
  lemma FieldOfPatched(j: R.Job, p: R.Patch, f: R.Field)
    requires R.Typed(j) && R.WellTyped(p)
    ensures var t, g := R.Truncated(R.Patched(j, p)), R.Given(p);
            && (f in t <==> f in g || f in j)
            && StrAt(t, f) == StrAt(g, f).Or(StrAt(j, f))
            && TypeAt(t, f) == TypeAt(g, f).Or(TypeAt(j, f))
  {
    if f in j && f in R.Given(p) {
      SameKind(R.KindOf(f), j[f], R.Given(p)[f]);
    }
    AttributeOfPatched(j, p, f);
    hide R.Typed, R.WellTyped, R.KindOf, R.HasKind, R.Truncated, R.Patched, R.Given;
    if f in R.Given(p) {
      TruncationKeepsView(R.Given(p)[f]);
    } else if f in j {
      TruncationKeepsView(j[f]);
    }
    hide R.TruncatedValue;
  }

  lemma TruncationKeepsView(v: R.Value)
    ensures var t := R.TruncatedValue(v);
            && t.Str? == v.Str? && t.OfType? == v.OfType?
            && (v.Str? ==> t.s == v.s) && (v.OfType? ==> t.jewelryType == v.jewelryType)
  {
  }

  lemma SameKind(k: R.Kind, v: R.Value, w: R.Value)
    requires R.HasKind(k, v) && R.HasKind(k, w)
    ensures v.Str? == w.Str? && v.OfType? == w.OfType?
  {
  }

  lemma TypedFieldsOfPatched(j: R.Job, p: R.Patch)
    requires R.Typed(j) && R.WellTyped(p)
    ensures var t, g := R.Truncated(R.Patched(j, p)), R.Given(p);
            && StatusAt(t) == StatusAt(g).Or(StatusAt(j))
            && ErrorAt(t) == ErrorAt(g).Or(ErrorAt(j))
            && (R.ProviderParamsSnapshot !in j ==> ParamsAt(t) == ParamsAt(g))
            && (R.ProviderParamsSnapshot !in g ==> ParamsAt(t) == ParamsAt(j))
            && (R.Mock !in p ==> R.Attribute(t, R.Mock) == R.Attribute(j, R.Mock))
  {
    assert R.KindOf(R.Status) == R.KStatus && R.KindOf(R.Error) == R.KError && R.KindOf(R.Mock) == R.KBool;
    AttributeOfPatched(j, p, R.Status);
    AttributeOfPatched(j, p, R.Error);
    AttributeOfPatched(j, p, R.ProviderParamsSnapshot);
    AttributeOfPatched(j, p, R.Mock);
    assert R.Mock !in p ==> R.Mock !in R.Given(p);
    assert R.Status in R.Given(p) ==> R.Given(p)[R.Status].OfStatus?;
    assert R.Error in R.Given(p) ==> R.Given(p)[R.Error].OfError?;
    hide R.Typed, R.WellTyped, R.KindOf, R.Truncated, R.Patched, R.Given;
  }

  lemma SnapshotOfPatched(j: R.Job, p: R.Patch)
    requires R.Typed(j) && R.WellTyped(p) && PipelineWrite(j, p)
    ensures SnapshotAt(R.Truncated(R.Patched(j, p))) == SnapshotAt(R.Given(p)).Or(SnapshotAt(j))
  {
    FieldOfPatched(j, p, R.PromptSnapshot);
    FieldOfPatched(j, p, R.NegativePromptSnapshot);
    FieldOfPatched(j, p, R.ReferenceUrlSnapshot);
    FieldOfPatched(j, p, R.MatrixVersion);
    TypedFieldsOfPatched(j, p);
    assert SnapshotField(R.PromptSnapshot) && SnapshotField(R.NegativePromptSnapshot) && SnapshotField(R.ReferenceUrlSnapshot)
           && SnapshotField(R.ProviderParamsSnapshot) && SnapshotField(R.MatrixVersion);
    assert R.PromptSnapshot in R.Given(p) ==> StrAt(j, R.NegativePromptSnapshot) == None;
    hide R.Truncated, R.Patched, R.Given, R.Typed, R.WellTyped, ParamsAt;
  }

  lemma PatchedView(j: R.Job, p: R.Patch)
    requires R.Typed(j) && R.WellTyped(p) && PipelineWrite(j, p)
    ensures ViewOf(R.Truncated(R.Patched(j, p))) == P.Merge(ViewOf(j), DeltaOf(p))
  {
    assert R.JewelryTypeRequested !in R.Given(p);
    FieldOfPatched(j, p, R.JewelryTypeRequested);
    FieldOfPatched(j, p, R.JewelryTypeFinal);
    FieldOfPatched(j, p, R.SubmissionToken);
    FieldOfPatched(j, p, R.ProviderJobId);
    TypedFieldsOfPatched(j, p);
    SnapshotOfPatched(j, p);
    hide R.Truncated, R.Patched, R.Given, R.Typed, R.WellTyped, SnapshotAt, ParamsAt, StrAt;
  }

  // ---------------------------------------------------------------- the key job:{id}

  /**
   * What the key holds, as the fields its texts stand for: none when the key is gone, a complete job, or
   * a part of one without job_id that update_job has left on a key that was gone.
   */
  type Key = Option<R.Job>

  function FieldsOf(k: Key): R.Job {
    k.GetOr(map[])
  }

  ghost predicate KeyOk(k: Key) {
    R.Typed(FieldsOf(k)) && (R.JobId in FieldsOf(k) ==> R.WellFormed(FieldsOf(k)))
  }

  /** The key as the protocol sees it. */
  function StoredAs(k: Key): P.Stored {
    if k.None? then P.Missing
    else if R.JobId in k.value then P.Full(ViewOf(k.value)) else P.Partial(ViewOf(k.value))
  }

  /** get_job raises exactly on the parts. */
  lemma KeyReads(k: Key)
    requires k.Some? && KeyOk(k)
    ensures R.FromRedisHash(R.ToRedisHash(k.value)) == if R.JobId in k.value then Some(R.Truncated(k.value)) else None
  {
    if R.JobId in k.value {
      R.RoundTrip(k.value);
    } else {
      assert R.Demanded(R.JobId);
    }
    hide R.Truncated, R.EncodeField, R.DecodeText;
  }

  /** One update_job call is one HSet of the protocol, whatever the key holds. */
  lemma UpdateIsHSet(k: Key, p: R.Patch)
    requires KeyOk(k) && R.WellTyped(p) && PipelineWrite(FieldsOf(k), p) && R.JobId !in p
    ensures var after := Some(R.Patched(FieldsOf(k), p));
            && KeyOk(after)
            && R.ToRedisHash(FieldsOf(k)) + R.HashUpdates(p) == R.ToRedisHash(after.value)
            && StoredAs(after) == P.HSet(StoredAs(k), DeltaOf(p))
  {
    var j := FieldsOf(k);
    assert R.JobId in R.Patched(j, p) <==> R.JobId in j;
    assert ViewOf(map[]) == P.BLANK;
    R.PatchedHash(j, p);
    PatchedView(j, p);
    TruncatedView(R.Patched(j, p));
    hide R.Typed, R.WellFormed, R.Patched, R.ToRedisHash, R.HashUpdates, R.Truncated, ViewOf, DeltaOf, PipelineWrite;
    hide R.WellTyped, P.Merge;
  }

  lemma TruncatedView(j: R.Job)
    requires R.Typed(j)
    ensures ViewOf(R.Truncated(j)) == ViewOf(j)
  {
    assert R.Patched(j, map[]) == j;
    assert DeltaOf(map[]) == P.NOTHING;
    PatchedView(j, map[]);
    hide R.Truncated, R.Patched, ViewOf, DeltaOf;
  }

  // ---------------------------------------------------------------- the writers' arguments

  predicate Own(f: R.Field) {
    f == R.JewelryTypeFinal || f == R.SubmissionToken || f == R.ProviderJobId || SnapshotField(f)
  }

  lemma GivenAttribute(p: R.Patch, f: R.Field)
    ensures R.Attribute(R.Given(p), f) == if f in p then p[f] else None
  {
  }

  /** What update_job is given: the stage's own fields ... */
  lemma OwnArgument(updated: R.Job, fields: R.Patch, f: R.Field)
    requires R.OwnFields(fields) && Own(f)
    ensures R.Attribute(R.Given(R.PersistArguments(updated, fields)), f) == R.Attribute(R.Given(fields), f)
  {
    R.ArgumentsByField(f, updated, fields);
    GivenAttribute(R.PersistArguments(updated, fields), f);
    GivenAttribute(fields, f);
    hide R.PersistArguments, R.Given, R.Attribute, R.OwnFields;
  }

  /** ... and of the updated job the new status and the error so far. */
  lemma LifecycleArgument(j: R.Job, to: JobStatus, error: Option<ErrorCode>, fields: R.Patch, now: nat, f: R.Field)
    requires R.OwnFields(fields) && (f == R.Status || f == R.Error)
    ensures var g := R.Given(R.PersistArguments(R.Replace(j, R.TransitionUpdates(to, error, None, fields, now)), fields));
            R.Attribute(g, f) == if f == R.Status then Some(R.OfStatus(to))
                                 else if error.Some? then Some(R.OfError(error.value)) else R.Attribute(j, f)
  {
    var updates := R.TransitionUpdates(to, error, None, fields, now);
    var updated := R.Replace(j, updates);
    assert f !in fields;
    UpdateAttribute(to, error, fields, now, f);
    R.ArgumentsByField(f, updated, fields);
    R.ReplacedField(j, updates, f);
    GivenAttribute(R.PersistArguments(updated, fields), f);
    hide R.PersistArguments, R.Replace, R.TransitionUpdates, R.Given, R.OwnFields, R.UpdateOf, R.Attribute;
  }

  lemma UpdateAttribute(to: JobStatus, error: Option<ErrorCode>, fields: R.Patch, now: nat, f: R.Field)
    requires f !in fields && (f == R.Status || f == R.Error)
    ensures var updates := R.TransitionUpdates(to, error, None, fields, now);
            && (f == R.Status ==> f in updates && updates[f] == Some(R.OfStatus(to)))
            && (f == R.Error ==> (f in updates <==> error.Some?))
            && (f == R.Error && error.Some? ==> updates[f] == Some(R.OfError(error.value)))
  {
    var update := R.UpdateOf(f, to, error, None, fields, now);
    assert f in R.TransitionUpdates(to, error, None, fields, now) <==> update.Some?;
    hide Terminal;
  }

  lemma SameAttribute(g: R.Job, h: R.Job, f: R.Field)
    requires R.Attribute(g, f) == R.Attribute(h, f)
    ensures StrAt(g, f) == StrAt(h, f) && TypeAt(g, f) == TypeAt(h, f)
    ensures f in g <==> f in h
    ensures f == R.ProviderParamsSnapshot ==> ParamsAt(g) == ParamsAt(h)
  {
  }

  lemma LifecycleAttribute(g: R.Job)
    ensures R.Attribute(g, R.Status).Some? && R.Attribute(g, R.Status).value.OfStatus? ==>
              StatusAt(g) == Some(R.Attribute(g, R.Status).value.status)
    ensures ErrorAt(g) == if R.Attribute(g, R.Error).Some? && R.Attribute(g, R.Error).value.OfError?
                          then Some(R.Attribute(g, R.Error).value.error) else None
  {
  }

  lemma DeltaByField(g: R.Job, h: R.Job)
    requires forall f :: Own(f) ==> R.Attribute(g, f) == R.Attribute(h, f)
    ensures TypeAt(g, R.JewelryTypeFinal) == TypeAt(h, R.JewelryTypeFinal) && SnapshotAt(g) == SnapshotAt(h)
    ensures StrAt(g, R.SubmissionToken) == StrAt(h, R.SubmissionToken) && StrAt(g, R.ProviderJobId) == StrAt(h, R.ProviderJobId)
  {
    SameAttribute(g, h, R.JewelryTypeFinal);
    SameAttribute(g, h, R.SubmissionToken);
    SameAttribute(g, h, R.ProviderJobId);
    SameAttribute(g, h, R.PromptSnapshot);
    SameAttribute(g, h, R.NegativePromptSnapshot);
    SameAttribute(g, h, R.ReferenceUrlSnapshot);
    SameAttribute(g, h, R.ProviderParamsSnapshot);
    SameAttribute(g, h, R.MatrixVersion);
    hide R.Attribute, StrAt, TypeAt, ParamsAt;
  }

  /** _transition_and_persist gives update_job exactly the delta of the protocol's Persist. */
  lemma PersistIsProtocolDelta(j: R.Job, to: JobStatus, error: Option<ErrorCode>, fields: R.Patch, now: nat)
    requires R.OwnFields(fields)
    ensures DeltaOf(R.PersistArguments(R.Replace(j, R.TransitionUpdates(to, error, None, fields, now)), fields))
            == DeltaOf(fields).(status := Some(to), error := error.Or(ErrorAt(j)))
  {
    hide R.PersistArguments, R.Replace, R.TransitionUpdates, R.Given, R.OwnFields, R.Attribute;
    hide StrAt, TypeAt, SnapshotAt, StatusAt, ErrorAt, Own;
    var updated := R.Replace(j, R.TransitionUpdates(to, error, None, fields, now));
    var arguments := R.PersistArguments(updated, fields);
    forall f | Own(f) ensures R.Attribute(R.Given(arguments), f) == R.Attribute(R.Given(fields), f) {
      OwnArgument(updated, fields, f);
    }
    DeltaByField(R.Given(arguments), R.Given(fields));
    LifecycleArgument(j, to, error, fields, now, R.Status);
    LifecycleArgument(j, to, error, fields, now, R.Error);
    LifecycleAttribute(R.Given(arguments));
    LifecycleAttribute(j);
  }

  /** ... and sweep gives it exactly the delta of the protocol's SweepWrite. */
  lemma ReapIsProtocolDelta(j: R.Job, stamp: nat)
    requires R.WellFormed(j)
    ensures DeltaOf(S.ReapArguments(S.Reaped(j, stamp))) == P.SweepDelta(ViewOf(j))
  {
    var (to, error) := S.SweepTarget(S.StatusOf(j));
    var none: R.Patch := map[];
    assert DeltaOf(none) == P.NOTHING;
    assert StatusAt(j) == Some(S.StatusOf(j));
    PersistIsProtocolDelta(j, to, Some(error), none, stamp);
    hide DeltaOf, R.PersistArguments, R.Replace, R.TransitionUpdates, R.WellFormed, S.StatusOf, StatusAt, ErrorAt;
    hide SnapshotAt, TypeAt;
  }
}
