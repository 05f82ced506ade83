/**
 * A job lives twice: as a dataclass (app/models/job.py) and as a string hash in Redis that update_job
 * patches field by field, skipping None (app/store/redis_store.py). This module proves that the patched
 * hash keeps decoding to the in-memory job, and exactly when it does.
 */
module JobRecord {
  import opened Enums
  import opened Options
  import opened Transitions

  datatype Field =
    | JobId | ApiKeyName | Service | Mock | ContentHash | JewelryTypeRequested | CallbackUrl | IdempotencyKey
    | DeduplicatedFrom | Status | CreatedAt | UpdatedAt | DeadlineAt | CompletedAt | AttemptCount | SourceRef
    | SourceBytes | SourceMime | JewelryTypeFinal | TypeSource | Confidence | CandidateTypes | PromptSnapshot
    | NegativePromptSnapshot | ReferenceUrlSnapshot | ProviderParamsSnapshot | MatrixVersion | Provider
    | SubmissionToken | ProviderJobId | Billable | AssetRefs | Error | ErrorMessage

  datatype Json = Candidates(items: seq<(string, real)>) | Params(body: string) | Refs(refs: seq<string>)

  /** A field's value. Times are microseconds since the epoch, in UTC. */
  datatype Value =
    | Str(s: string) | Int(n: int) | Bool(b: bool) | Float(x: real) | Time(us: nat) | Data(json: Json)
    | OfStatus(status: JobStatus) | OfError(error: ErrorCode) | OfType(jewelryType: JewelryType)
    | OfService(service: ServiceType) | OfSource(source: Enums.TypeSource)

  datatype Kind = KStr | KInt | KBool | KFloat | KTime | KJson | KStatus | KError | KType | KService | KSource

  function KindOf(f: Field): Kind {
    match f
    case Service => KService
    case Mock => KBool
    case JewelryTypeRequested => KType
    case Status => KStatus
    case CreatedAt => KTime
    case UpdatedAt => KTime
    case DeadlineAt => KTime
    case CompletedAt => KTime
    case AttemptCount => KInt
    case SourceBytes => KInt
    case JewelryTypeFinal => KType
    case TypeSource => KSource
    case Confidence => KFloat
    case CandidateTypes => KJson
    case ProviderParamsSnapshot => KJson
    case Billable => KBool
    case AssetRefs => KJson
    case Error => KError
    case _ => KStr
  }

  predicate HasKind(k: Kind, v: Value) {
    match k
    case KStr => v.Str?
    case KInt => v.Int?
    case KBool => v.Bool?
    case KFloat => v.Float?
    case KTime => v.Time?
    case KJson => v.Data?
    case KStatus => v.OfStatus?
    case KError => v.OfError?
    case KType => v.OfType?
    case KService => v.OfService?
    case KSource => v.OfSource?
  }

  /** Fields from_redis_hash indexes without a default: a hash without one raises KeyError. */
  predicate Demanded(f: Field) {
    f in {JobId, ApiKeyName, Service, ContentHash, Status, CreatedAt, UpdatedAt, DeadlineAt}
  }

  /** What from_redis_hash puts where the hash has nothing. */
  function Default(f: Field): Option<Value> {
    match f
    case Mock => Some(Bool(false))
    case AttemptCount => Some(Int(0))
    case SourceRef => Some(Str(""))
    case SourceBytes => Some(Int(0))
    case SourceMime => Some(Str(""))
    case AssetRefs => Some(Data(Refs([])))
    case _ => None
  }

  /** The dataclass: a field that is None is not in the map. */
  type Job = map<Field, Value>

  /** Every field there has its kind; some may be missing, as in a hash update_job has made on its own. */
  predicate Typed(j: Job) {
    forall f :: f in j ==> HasKind(KindOf(f), j[f])
  }

  predicate WellFormed(j: Job) {
    && Typed(j)
    && (forall f :: Demanded(f) || Default(f).Some? ==> f in j)
  }

  // ---------------------------------------------------------------- texts

  /** The strings of the hash. Numbers and JSON are printed and parsed by the Python library. */
  datatype Text = Plain(s: string) | IntText(n: int) | FloatText(x: real) | IsoMillis(ms: nat) | JsonText(json: Json)

  type Hash = map<Field, Text>

  /** to_redis_hash, field by field. */
  function EncodeField(f: Field, v: Value): Text
    requires HasKind(KindOf(f), v)
  {
    match KindOf(f)
    case KStr => Plain(v.s)
    case KInt => IntText(v.n)
    case KBool => Plain(if v.b then "1" else "0")
    case KFloat => FloatText(v.x)
    case KTime => IsoMillis(v.us / 1000)
    case KJson => JsonText(v.json)
    case KStatus => Plain(StatusText(v.status))
    case KError => Plain(ErrorText(v.error))
    case KType => Plain(TypeText(v.jewelryType))
    case KService => Plain(ServiceText(v.service))
    case KSource => Plain(SourceText(v.source))
  }

  function ToRedisHash(j: Job): Hash
    requires forall f :: f in j ==> HasKind(KindOf(f), j[f])
  {
    map f | f in j :: EncodeField(f, j[f])
  }

  /** update_job's encoder looks at the value it is given, not at the field. */
  function EncodeValue(v: Value): Text {
    match v
    case OfStatus(s) => Plain(StatusText(s))
    case OfError(e) => Plain(ErrorText(e))
    case OfType(t) => Plain(TypeText(t))
    case OfService(s) => Plain(ServiceText(s))
    case OfSource(s) => Plain(SourceText(s))
    case Bool(b) => Plain(if b then "1" else "0")
    case Time(us) => IsoMillis(us / 1000)
    case Data(json) => JsonText(json)
    case Str(s) => Plain(s)
    case Int(n) => IntText(n)
    case Float(x) => FloatText(x)
  }

  lemma EncodersAgree(f: Field, v: Value)
    requires HasKind(KindOf(f), v)
    ensures EncodeValue(v) == EncodeField(f, v)
  {
  }

  // An enumeration's constructor call: the member whose value is the text, or ValueError.

  function StatusOf(t: string): Option<JobStatus> {
    if x: JobStatus :| StatusText(x) == t then Some(x) else None
  }

  function ErrorOf(t: string): Option<ErrorCode> {
    if x: ErrorCode :| ErrorText(x) == t then Some(x) else None
  }

  function TypeOf(t: string): Option<JewelryType> {
    if x: JewelryType :| TypeText(x) == t then Some(x) else None
  }

  function ServiceOf(t: string): Option<ServiceType> {
    if x: ServiceType :| ServiceText(x) == t then Some(x) else None
  }

  function SourceOf(t: string): Option<Enums.TypeSource> {
    if x: Enums.TypeSource :| SourceText(x) == t then Some(x) else None
  }

  lemma MembersFound(v: Value)
    ensures v.OfStatus? ==> StatusOf(StatusText(v.status)) == Some(v.status)
    ensures v.OfError? ==> ErrorOf(ErrorText(v.error)) == Some(v.error)
    ensures v.OfType? ==> TypeOf(TypeText(v.jewelryType)) == Some(v.jewelryType)
    ensures v.OfService? ==> ServiceOf(ServiceText(v.service)) == Some(v.service)
    ensures v.OfSource? ==> SourceOf(SourceText(v.source)) == Some(v.source)
  {
    hide StatusText, ErrorText, TypeText, ServiceText, SourceText;
    match v
    case OfStatus(x) => StatusTextInjective(StatusOf(StatusText(x)).value, x);
    case OfError(x) => ErrorTextInjective(ErrorOf(ErrorText(x)).value, x);
    case OfType(x) => TypeTextInjective(TypeOf(TypeText(x)).value, x);
    case OfService(x) => ServiceTextInjective(ServiceOf(ServiceText(x)).value, x);
    case OfSource(x) => SourceTextInjective(SourceOf(SourceText(x)).value, x);
    case _ =>
  }

  function Wrap<T>(found: Option<T>, make: T -> Value): Option<Value> {
    if found.Some? then Some(make(found.value)) else None
  }

  /** Reading one text back, by the field's kind; None is an exception. */
  function DecodeText(k: Kind, t: Text): Option<Value> {
    match k
    case KStr => if t.Plain? then Some(Str(t.s)) else None
    case KInt => if t.IntText? then Some(Int(t.n)) else None
    case KBool => Some(Bool(t == Plain("1")))
    case KFloat => if t.FloatText? then Some(Float(t.x)) else None
    case KTime => if t.IsoMillis? then Some(Time(t.ms * 1000)) else None
    case KJson => if t.JsonText? then Some(Data(t.json)) else None
    case KStatus => if t.Plain? then Wrap(StatusOf(t.s), (x: JobStatus) => OfStatus(x)) else None
    case KError => if t.Plain? then Wrap(ErrorOf(t.s), (x: ErrorCode) => OfError(x)) else None
    case KType => if t.Plain? then Wrap(TypeOf(t.s), (x: JewelryType) => OfType(x)) else None
    case KService => if t.Plain? then Wrap(ServiceOf(t.s), (x: ServiceType) => OfService(x)) else None
    case KSource => if t.Plain? then Wrap(SourceOf(t.s), (x: Enums.TypeSource) => OfSource(x)) else None
  }

  /** An empty text in an optional enumeration field reads as None. */
  predicate ReadsAsNone(k: Kind, t: Text) {
    (k == KType || k == KSource || k == KError) && t == Plain("")
  }

  predicate Readable(h: Hash) {
    && (forall f :: Demanded(f) ==> f in h)
    && (forall f :: f in h ==> ReadsAsNone(KindOf(f), h[f]) || DecodeText(KindOf(f), h[f]).Some?)
  }

  /** from_redis_hash; None when it raises. */
  function FromRedisHash(h: Hash): Option<Job> {
    if Readable(h)
    then Some(map f: Field | (f in h && !ReadsAsNone(KindOf(f), h[f])) || (f !in h && Default(f).Some?) ::
                if f in h then DecodeText(KindOf(f), h[f]).value else Default(f).value)
    else None
  }

  function TruncatedValue(v: Value): Value {
    if v.Time? then Time(v.us - v.us % 1000) else v
  }

  /** The job with its timestamps cut to milliseconds. */
  function Truncated(j: Job): Job {
    map f | f in j :: TruncatedValue(j[f])
  }

  lemma TextRoundTrip(k: Kind, f: Field, v: Value)
    requires KindOf(f) == k && HasKind(k, v)
    ensures DecodeText(k, EncodeField(f, v)) == Some(TruncatedValue(v))
    ensures !ReadsAsNone(k, EncodeField(f, v))
  {
    MembersFound(v);
    MembersAreNamed(v);
    hide StatusText, ErrorText, TypeText, ServiceText, SourceText, KindOf;
  }

  lemma MembersAreNamed(v: Value)
    ensures v.OfError? ==> ErrorText(v.error) != ""
    ensures v.OfType? ==> TypeText(v.jewelryType) != ""
    ensures v.OfSource? ==> SourceText(v.source) != ""
  {
  }

  lemma RoundTrip(j: Job)
    requires WellFormed(j)
    ensures FromRedisHash(ToRedisHash(j)) == Some(Truncated(j))
  {
    hide EncodeField, DecodeText, KindOf, TruncatedValue, ReadsAsNone;
    var h := ToRedisHash(j);
    forall f | f in h
      ensures DecodeText(KindOf(f), h[f]) == Some(TruncatedValue(j[f])) && !ReadsAsNone(KindOf(f), h[f])
    {
      TextRoundTrip(KindOf(f), f, j[f]);
    }
    assert Readable(h);
    assert FromRedisHash(h).value == Truncated(j);
  }

  // ---------------------------------------------------------------- updates

  /** Keyword arguments: a field mapped to None is passed as None. */
  type Patch = map<Field, Option<Value>>

  ghost predicate WellTyped(p: Patch) {
    forall f :: f in p && p[f].Some? ==> HasKind(KindOf(f), p[f].value)
  }

  /** dataclasses.replace(job, **patch). */
  function Replace(j: Job, p: Patch): Job {
    map f | f in j.Keys + p.Keys && (f in p ==> p[f].Some?) :: if f in p then p[f].value else j[f]
  }

  /** The mapping update_job passes to HSET: what is None is left out. */
  function HashUpdates(p: Patch): Hash {
    map f | f in p && p[f].Some? :: EncodeValue(p[f].value)
  }

  /** A keyword argument that is None although the job has a value there. */
  predicate Clears(j: Job, p: Patch) {
    exists f :: f in p && p[f].None? && f in j
  }

  /** update_job never removes a field, so this is the job the hash then holds. */
  function Patched(j: Job, p: Patch): Job {
    map f | f in j.Keys + p.Keys && (f in j || p[f].Some?) :: if f in p && p[f].Some? then p[f].value else j[f]
  }

  lemma PatchedIsReplaced(j: Job, p: Patch)
    ensures Truncated(Patched(j, p)) == Truncated(Replace(j, p)) <==> !Clears(j, p)
    ensures Patched(j, p) == Replace(j, p) <==> !Clears(j, p)
  {
    hide TruncatedValue;
    if f :| f in p && p[f].None? && f in j {
      assert f in Truncated(Patched(j, p)) && f !in Truncated(Replace(j, p));
    } else {
      assert Patched(j, p) == Replace(j, p);
    }
  }

  lemma PatchedHash(j: Job, p: Patch)
    requires Typed(j) && WellTyped(p)
    ensures Typed(Patched(j, p))
    ensures WellFormed(j) ==> WellFormed(Patched(j, p))
    ensures ToRedisHash(j) + HashUpdates(p) == ToRedisHash(Patched(j, p))
  {
    hide EncodeField, EncodeValue, KindOf, HasKind, Default, Demanded;
    forall f | f in p && p[f].Some? ensures EncodeValue(p[f].value) == EncodeField(f, p[f].value) {
      EncodersAgree(f, p[f].value);
    }
  }

  /**
   * The refinement: after update_job with the same arguments as replace, the hash decodes to the
   * in-memory job, cut to milliseconds, if and only if no argument is None where the job has a value.
   */
  lemma DeltaUpdateRefines(j: Job, p: Patch)
    requires WellFormed(j) && WellTyped(p)
    ensures FromRedisHash(ToRedisHash(j) + HashUpdates(p)) == Some(Truncated(Replace(j, p))) <==> !Clears(j, p)
  {
    PatchedHash(j, p);
    RoundTrip(Patched(j, p));
    PatchedIsReplaced(j, p);
    hide ToRedisHash, HashUpdates, FromRedisHash, Truncated, Replace, Patched, Clears;
  }

  /** The keyword arguments that are not None, as a job holding only those. */
  function Given(p: Patch): Job {
    map f | f in p && p[f].Some? :: p[f].value
  }

  lemma DecodedText(k: Kind, t: Text)
    requires DecodeText(k, t).Some?
    ensures HasKind(k, DecodeText(k, t).value) && TruncatedValue(DecodeText(k, t).value) == DecodeText(k, t).value
  {
  }

  lemma DefaultIsPlain(f: Field)
    ensures Default(f).Some? ==>
              HasKind(KindOf(f), Default(f).value) && TruncatedValue(Default(f).value) == Default(f).value
    ensures Demanded(f) || Default(f).Some? ==> forall t :: !ReadsAsNone(KindOf(f), t)
  {
  }

  /** Whatever get_job reads back is a complete job with its times in milliseconds. */
  lemma DecodedIsWellFormed(h: Hash)
    requires Readable(h)
    ensures WellFormed(FromRedisHash(h).value) && Truncated(FromRedisHash(h).value) == FromRedisHash(h).value
  {
    hide DecodeText, Default, KindOf, HasKind, TruncatedValue, ReadsAsNone, Demanded;
    var j := FromRedisHash(h).value;
    forall f
      ensures f in j ==> HasKind(KindOf(f), j[f]) && TruncatedValue(j[f]) == j[f]
      ensures Demanded(f) || Default(f).Some? ==> f in j
    {
      DefaultIsPlain(f);
      if f in h && DecodeText(KindOf(f), h[f]).Some? {
        DecodedText(KindOf(f), h[f]);
      }
    }
  }

  /** What a hash without a field reads as: eight fields have to be there, six have a default, the rest are None. */
  lemma MissingField(h: Hash, f: Field)
    requires Readable(h) && f !in h
    ensures f !in {JobId, ApiKeyName, Service, ContentHash, Status, CreatedAt, UpdatedAt, DeadlineAt}
    ensures Attribute(FromRedisHash(h).value, f)
            == match f
               case Mock => Some(Bool(false))
               case AttemptCount => Some(Int(0))
               case SourceRef => Some(Str(""))
               case SourceBytes => Some(Int(0))
               case SourceMime => Some(Str(""))
               case AssetRefs => Some(Data(Refs([])))
               case _ => None
  {
    assert Demanded(f) ==> f in h;
    hide DecodeText, KindOf, ReadsAsNone, Readable;
  }

  /** On any readable hash, update_job adds what it is given to the job the hash held. */
  lemma UpdateDecodes(h: Hash, p: Patch)
    requires Readable(h) && WellTyped(p)
    ensures FromRedisHash(h + HashUpdates(p)) == Some(FromRedisHash(h).value + Truncated(Given(p)))
  {
    hide EncodeField, EncodeValue, DecodeText, Default, KindOf, HasKind, TruncatedValue, ReadsAsNone, Demanded;
    var u := HashUpdates(p);
    forall f | f in u
      ensures DecodeText(KindOf(f), u[f]) == Some(TruncatedValue(p[f].value)) && !ReadsAsNone(KindOf(f), u[f])
    {
      EncodersAgree(f, p[f].value);
      TextRoundTrip(KindOf(f), f, p[f].value);
    }
    assert Readable(h + u);
    assert FromRedisHash(h + u).value == FromRedisHash(h).value + Truncated(Given(p));
  }

  // ---------------------------------------------------------------- transition and persist

  /** `transition`: guard, then replace, stamping the times. */
  function Transition(j: Job, to: JobStatus, error: Option<ErrorCode>, message: Option<string>, fields: Patch, now: nat)
    : Result<Job, Fault>
    requires Status in j && j[Status].OfStatus?
  {
    var fault := Guard(j[Status].status, to, error);
    if fault.Some? then Raised(fault.value)
    else Ok(Replace(j, TransitionUpdates(to, error, message, fields, now)))
  }

  /** The keyword argument `transition` gives replace for a field, if it gives one. */
  function UpdateOf(f: Field, to: JobStatus, error: Option<ErrorCode>, message: Option<string>, fields: Patch, now: nat)
    : Option<Option<Value>>
  {
    var own := if f in fields then Some(fields[f]) else None;
    match f
    case Status => own.Or(Some(Some(OfStatus(to))))
    case UpdatedAt => own.Or(Some(Some(Time(now))))
    case CompletedAt => if Terminal(to) then Some(Some(Time(now))) else own
    case Error => if error.Some? then Some(Some(OfError(error.value))) else own
    case ErrorMessage => if message.Some? then Some(Some(Str(message.value))) else own
    case _ => own
  }

  function TransitionUpdates(to: JobStatus, error: Option<ErrorCode>, message: Option<string>, fields: Patch, now: nat): Patch {
    map f: Field | UpdateOf(f, to, error, message, fields, now).Some? :: UpdateOf(f, to, error, message, fields, now).value
  }

  function Attribute(j: Job, f: Field): Option<Value> {
    if f in j then Some(j[f]) else None
  }

  /** The arguments `_transition_and_persist` gives update_job, from the updated job. */
  function PersistArguments(updated: Job, fields: Patch): Patch {
    map[Status := Attribute(updated, Status), UpdatedAt := Attribute(updated, UpdatedAt),
        CompletedAt := Attribute(updated, CompletedAt), Error := Attribute(updated, Error),
        ErrorMessage := Attribute(updated, ErrorMessage)]
    + fields
  }

  /** The fields a caller passes besides those `transition` sets itself; passing one of those is a TypeError. */
  predicate OwnFields(fields: Patch) {
    Status !in fields && UpdatedAt !in fields && CompletedAt !in fields && Error !in fields && ErrorMessage !in fields
  }

  /**
   * After every _transition_and_persist the stored hash decodes to the job the stage goes on with, if
   * and only if the stage passes no None for a field the job already has.
   */
  lemma PersistRefines(j: Job, to: JobStatus, error: Option<ErrorCode>, message: Option<string>, fields: Patch, now: nat)
    requires WellFormed(j) && WellTyped(fields) && OwnFields(fields)
    requires Transition(j, to, error, message, fields, now).Ok?
    ensures var updated := Transition(j, to, error, message, fields, now).value;
            FromRedisHash(ToRedisHash(j) + HashUpdates(PersistArguments(updated, fields))) == Some(Truncated(updated))
            <==> !Clears(j, fields)
  {
    hide Clears, FromRedisHash, ToRedisHash, HashUpdates, PersistArguments, TransitionUpdates, Replace, Truncated;
    PersistedHash(j, to, error, message, fields, now);
  }

  lemma PersistedHash(j: Job, to: JobStatus, error: Option<ErrorCode>, message: Option<string>, fields: Patch, now: nat)
    requires WellFormed(j) && WellTyped(fields) && OwnFields(fields)
    ensures var updated := Replace(j, TransitionUpdates(to, error, message, fields, now));
            FromRedisHash(ToRedisHash(j) + HashUpdates(PersistArguments(updated, fields))) == Some(Truncated(updated))
            <==> !Clears(j, fields)
  {
    assert Typed(j);
    hide *;
    var updates := TransitionUpdates(to, error, message, fields, now);
    var arguments := PersistArguments(Replace(j, updates), fields);
    PersistedIsUpdated(j, to, error, message, fields, now);
    PatchedHash(j, arguments);
    RoundTrip(Patched(j, arguments));
    PatchedIsReplaced(j, updates);
  }

  /** The same on whatever hash get_job has just read, for a writer that passes no further fields. */
  lemma PersistDecodes(h: Hash, to: JobStatus, error: Option<ErrorCode>, message: Option<string>, now: nat)
    requires Readable(h)
    ensures var updated := Replace(FromRedisHash(h).value, TransitionUpdates(to, error, message, map[], now));
            FromRedisHash(h + HashUpdates(PersistArguments(updated, map[]))) == Some(Truncated(updated))
  {
    var none: Patch := map[];
    assert OwnFields(none) && WellTyped(none);
    assert forall j: Job :: !Clears(j, none);
    hide *;
    var j := FromRedisHash(h).value;
    var updates := TransitionUpdates(to, error, message, none, now);
    var arguments := PersistArguments(Replace(j, updates), none);
    DecodedIsWellFormed(h);
    PersistedIsUpdated(j, to, error, message, none, now);
    UpdateDecodes(h, arguments);
    PatchedIsReplaced(j, updates);
    TruncatedPatched(j, arguments);
  }

  lemma TruncatedPatched(j: Job, p: Patch)
    ensures Truncated(Patched(j, p)) == Truncated(j) + Truncated(Given(p))
  {
    hide TruncatedValue;
  }

  /** `transition` sets the status, the two times, what error it is given and the caller's fields; nothing else. */
  lemma TransitionedField(j: Job, f: Field, to: JobStatus, error: Option<ErrorCode>, message: Option<string>, fields: Patch, now: nat)
    requires OwnFields(fields)
    ensures Attribute(Replace(j, TransitionUpdates(to, error, message, fields, now)), f)
            == if f in fields then fields[f]
               else match f
                    case Status => Some(OfStatus(to))
                    case UpdatedAt => Some(Time(now))
                    case CompletedAt => if Terminal(to) then Some(Time(now)) else Attribute(j, f)
                    case Error => if error.Some? then Some(OfError(error.value)) else Attribute(j, f)
                    case ErrorMessage => if message.Some? then Some(Str(message.value)) else Attribute(j, f)
                    case _ => Attribute(j, f)
  {
    ReplacedField(j, TransitionUpdates(to, error, message, fields, now), f);
    hide Replace, Terminal, Attribute;
  }

  lemma ReplacedField(j: Job, p: Patch, f: Field)
    ensures Attribute(Replace(j, p), f) == if f in p then p[f] else Attribute(j, f)
  {
  }

  predicate Lifecycle(f: Field) {
    f == Status || f == UpdatedAt || f == CompletedAt || f == Error || f == ErrorMessage
  }

  /** The keyword a field gets, if any: `fields` wins nowhere, since its names are its own. */
  lemma UpdatesByField(f: Field, to: JobStatus, error: Option<ErrorCode>, message: Option<string>, fields: Patch, now: nat)
    requires OwnFields(fields)
    ensures var updates := TransitionUpdates(to, error, message, fields, now);
            && (f in fields ==> f in updates && updates[f] == fields[f])
            && (f !in fields && f in updates ==>
                  updates[f].Some? && Lifecycle(f) && HasKind(KindOf(f), updates[f].value))
            && (f == Status || f == UpdatedAt ==> f in updates)
  {
    hide UpdateOf, KindOf, HasKind;
    if f in fields {
      OwnUpdate(f, to, error, message, fields, now);
    } else {
      LifecycleUpdate(f, to, error, message, fields, now);
    }
  }

  lemma OwnUpdate(f: Field, to: JobStatus, error: Option<ErrorCode>, message: Option<string>, fields: Patch, now: nat)
    requires OwnFields(fields) && f in fields
    ensures UpdateOf(f, to, error, message, fields, now) == Some(fields[f])
  {
    hide Terminal;
  }

  lemma LifecycleUpdate(f: Field, to: JobStatus, error: Option<ErrorCode>, message: Option<string>, fields: Patch, now: nat)
    requires f !in fields
    ensures var update := UpdateOf(f, to, error, message, fields, now);
            && (update.Some? ==> update.value.Some? && Lifecycle(f) && HasKind(KindOf(f), update.value.value))
            && (f == Status || f == UpdatedAt ==> update.Some?)
  {
    hide Terminal;
  }

  /** update_job gets the updated job's value of the five lifecycle fields, and the stage's own keywords. */
  lemma ArgumentsByField(f: Field, updated: Job, fields: Patch)
    requires OwnFields(fields)
    ensures var arguments := PersistArguments(updated, fields);
            if f in fields then f in arguments && arguments[f] == fields[f]
            else if Lifecycle(f) then f in arguments && arguments[f] == Attribute(updated, f)
            else f !in arguments
  {
  }

  /** What is written back, on top of what was there, is what `replace` computed, short of clearing. */
  lemma PersistedIsUpdated(j: Job, to: JobStatus, error: Option<ErrorCode>, message: Option<string>, fields: Patch, now: nat)
    requires WellFormed(j) && WellTyped(fields) && OwnFields(fields)
    ensures var updates := TransitionUpdates(to, error, message, fields, now);
            var arguments := PersistArguments(Replace(j, updates), fields);
            && Patched(j, arguments) == Patched(j, updates)
            && WellTyped(arguments)
            && (Clears(j, updates) <==> Clears(j, fields))
  {
    var updates := TransitionUpdates(to, error, message, fields, now);
    var updated := Replace(j, updates);
    var arguments := PersistArguments(updated, fields);
    hide TransitionUpdates, PersistArguments, Demanded, Default, KindOf, HasKind, OwnFields;
    forall f
      ensures f in updates && updates[f].None? <==> f in fields && fields[f].None?
      ensures f in arguments && arguments[f].Some? ==> HasKind(KindOf(f), arguments[f].value)
      ensures Attribute(Patched(j, arguments), f) == Attribute(Patched(j, updates), f)
    {
      UpdatesByField(f, to, error, message, fields, now);
      ArgumentsByField(f, updated, fields);
    }
    var a, b := Patched(j, arguments), Patched(j, updates);
    assert forall f :: f in a <==> Attribute(a, f).Some?;
    assert forall f :: f in b <==> Attribute(b, f).Some?;
  }
}
