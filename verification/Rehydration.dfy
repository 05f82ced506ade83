/** app/store/rehydrate.py: rebuilding lost jobs from the JobLog sheet at worker startup. */
module Rehydration {
  import opened Enums
  import opened JobStore
  import opened Options
  import opened RecentIndex
  import R = JobRecord

  const REHYDRATION_WINDOW_US: nat := 48 * 60 * 60 * 1_000_000

  const COL_JOB_ID: nat := 0
  const COL_CREATED_AT: nat := 1
  const COL_API_KEY_NAME: nat := 2
  const COL_SERVICE: nat := 3
  const COL_JEWELRY_TYPE: nat := 4
  const COL_MOCK: nat := 5
  const COL_CONTENT_HASH: nat := 6
  const COL_STATUS: nat := 7

  /** A row of the sheet, which leaves out trailing blank cells. */
  type Row = seq<string>

  function Cell(row: Row, index: nat): string {
    if index < |row| then row[index] else ""
  }

  function IdOf(row: Row): string {
    Cell(row, COL_JOB_ID)
  }

  /** When this runs, with what settings, and how datetime.fromisoformat reads a text (None: it raises). */
  datatype Setting = Setting(now: nat, deadlineUs: nat, iso: string -> Option<nat>)

  /** The rows whose created_at the loop parses. */
  predicate Unfinished(row: Row) {
    IdOf(row) != "" && Cell(row, COL_STATUS) == "" && Cell(row, COL_CREATED_AT) != ""
  }

  /** The rows for which the loop looks at Redis: unfinished, and created within the window. */
  predicate Open(row: Row, at: Setting) {
    var created := at.iso(Cell(row, COL_CREATED_AT));
    Unfinished(row) && created.Some? && at.now - created.value <= REHYDRATION_WINDOW_US
  }

  /** A field of the record rebuilt from a row; the dataclass supplies the other defaults. */
  function RecoveredField(f: R.Field, row: Row, created: nat, service: ServiceType, jewelryType: Option<JewelryType>, at: Setting)
    : Option<R.Value>
  {
    match f
    case JobId => Some(R.Str(IdOf(row)))
    case ApiKeyName => Some(R.Str(Cell(row, COL_API_KEY_NAME)))
    case Service => Some(R.OfService(service))
    case Mock => Some(R.Bool(Cell(row, COL_MOCK) == "1"))
    case ContentHash => Some(R.Str(Cell(row, COL_CONTENT_HASH)))
    case JewelryTypeRequested => if jewelryType.Some? then Some(R.OfType(jewelryType.value)) else None
    case JewelryTypeFinal => if jewelryType.Some? then Some(R.OfType(jewelryType.value)) else None
    case TypeSource => if jewelryType.Some? then Some(R.OfSource(Provided)) else None
    case Status => Some(R.OfStatus(NeedsReview))
    case CreatedAt => Some(R.Time(created))
    case UpdatedAt => Some(R.Time(at.now))
    case CompletedAt => Some(R.Time(at.now))
    case DeadlineAt => Some(R.Time(created + at.deadlineUs))
    case Error => Some(R.OfError(OrphanedSubmit))
    case ErrorMessage =>
      Some(R.Str("Recovered on worker startup: Redis record missing for a non-terminal JobLog row."))
    case _ => R.Default(f)
  }

  function RecoveredJob(row: Row, created: nat, service: ServiceType, jewelryType: Option<JewelryType>, at: Setting): (j: R.Job)
    ensures R.WellFormed(j)
  {
    RecoveredKinds(row, created, service, jewelryType, at);
    map f: R.Field | RecoveredField(f, row, created, service, jewelryType, at).Some?
      :: RecoveredField(f, row, created, service, jewelryType, at).value
  }

  lemma RecoveredKinds(row: Row, created: nat, service: ServiceType, jewelryType: Option<JewelryType>, at: Setting)
    ensures forall f :: var v := RecoveredField(f, row, created, service, jewelryType, at);
                        && (v.Some? ==> R.HasKind(R.KindOf(f), v.value))
                        && (R.Demanded(f) || R.Default(f).Some? ==> v.Some?)
  {
    hide Cell, IdOf;
    forall f
      ensures var v := RecoveredField(f, row, created, service, jewelryType, at);
              && (v.Some? ==> R.HasKind(R.KindOf(f), v.value))
              && (R.Demanded(f) || R.Default(f).Some? ==> v.Some?)
    {
    }
  }

  /** The record built from an open row; None where an enumeration refuses its text. */
  function Recovered(row: Row, at: Setting): (r: Option<R.Job>)
    requires Open(row, at)
    ensures r.Some? ==> R.WellFormed(r.value)
  {
    var typeText := Cell(row, COL_JEWELRY_TYPE);
    var service, jewelryType := R.ServiceOf(Cell(row, COL_SERVICE)), R.TypeOf(typeText);
    var typed := typeText != "" && typeText != "AUTO";
    if service.None? || (typed && jewelryType.None?) then None
    else
      var created := at.iso(Cell(row, COL_CREATED_AT)).value;
      Some(RecoveredJob(row, created, service.value, if typed then jewelryType else None, at))
  }

  lemma RecoveredJobField(row: Row, created: nat, service: ServiceType, t: Option<JewelryType>, at: Setting, f: R.Field)
    ensures var n := RecoveredJob(row, created, service, t, at);
            R.Attribute(n, f) == RecoveredField(f, row, created, service, t, at) && (f in n <==> R.Attribute(n, f).Some?)
  {
    hide RecoveredField, R.WellFormed;
  }

  /** The rebuilt record, attribute by attribute. */
  lemma RecoveredHolds(row: Row, at: Setting, f: R.Field)
    requires Open(row, at) && Recovered(row, at).Some?
    ensures var typeText := Cell(row, 4);
            var chosen := if typeText != "" && typeText != "AUTO" then R.TypeOf(typeText) else None;
            var created := at.iso(Cell(row, 1)).value;
            && R.ServiceOf(Cell(row, 3)).Some? && (typeText != "" && typeText != "AUTO" ==> chosen.Some?)
            && R.Attribute(Recovered(row, at).value, f)
               == match f
                  case JobId => Some(R.Str(Cell(row, 0)))
                  case ApiKeyName => Some(R.Str(Cell(row, 2)))
                  case Service => Some(R.OfService(R.ServiceOf(Cell(row, 3)).value))
                  case Mock => Some(R.Bool(Cell(row, 5) == "1"))
                  case ContentHash => Some(R.Str(Cell(row, 6)))
                  case JewelryTypeRequested => if chosen == None then None else Some(R.OfType(chosen.value))
                  case JewelryTypeFinal => if chosen == None then None else Some(R.OfType(chosen.value))
                  case TypeSource => if chosen == None then None else Some(R.OfSource(Provided))
                  case Status => Some(R.OfStatus(NeedsReview))
                  case Error => Some(R.OfError(OrphanedSubmit))
                  case ErrorMessage =>
                    Some(R.Str("Recovered on worker startup: Redis record missing for a non-terminal JobLog row."))
                  case CreatedAt => Some(R.Time(created))
                  case UpdatedAt => Some(R.Time(at.now))
                  case CompletedAt => Some(R.Time(at.now))
                  case DeadlineAt => Some(R.Time(created + at.deadlineUs))
                  case AttemptCount => Some(R.Int(0))
                  case SourceRef => Some(R.Str(""))
                  case SourceBytes => Some(R.Int(0))
                  case SourceMime => Some(R.Str(""))
                  case AssetRefs => Some(R.Data(R.Refs([])))
                  case _ => None
  {
    hide R.WellFormed, R.ServiceOf, R.TypeOf, Cell, R.Attribute, RecoveredJob;
    var typeText := Cell(row, COL_JEWELRY_TYPE);
    var chosen := if typeText != "" && typeText != "AUTO" then R.TypeOf(typeText) else None;
    RecoveredJobField(row, at.iso(Cell(row, COL_CREATED_AT)).value, R.ServiceOf(Cell(row, COL_SERVICE)).value, chosen, at, f);
  }

  lemma RecoveredIsParked(row: Row, at: Setting)
    requires Open(row, at) && Recovered(row, at).Some?
    ensures var j := Recovered(row, at).value;
            && j[R.JobId] == R.Str(IdOf(row))
            && StatusOf(j) == NeedsReview
            && R.Error in j && j[R.Error] == R.OfError(OrphanedSubmit)
            && j[R.CreatedAt] == R.Time(at.iso(Cell(row, COL_CREATED_AT)).value)
  {
    hide R.WellFormed, R.ServiceOf, R.TypeOf, Cell;
  }

  /** The row POST /generate has appended for a job; `isoformat` is datetime.isoformat. */
  function LoggedRow(j: R.Job, isoformat: nat -> string): Row
    requires R.WellFormed(j)
  {
    LoggedKinds(j);
    [j[R.JobId].s, isoformat(j[R.CreatedAt].us), j[R.ApiKeyName].s, ServiceText(j[R.Service].service),
     if R.JewelryTypeRequested in j then TypeText(j[R.JewelryTypeRequested].jewelryType) else "AUTO",
     if j[R.Mock].b then "1" else "0", j[R.ContentHash].s]
  }

  lemma LoggedKinds(j: R.Job)
    requires R.WellFormed(j)
    ensures R.JobId in j && j[R.JobId].Str? && R.CreatedAt in j && j[R.CreatedAt].Time? && R.ApiKeyName in j && j[R.ApiKeyName].Str?
    ensures R.Service in j && j[R.Service].OfService? && R.Mock in j && j[R.Mock].Bool? && R.ContentHash in j && j[R.ContentHash].Str?
    ensures R.JewelryTypeRequested in j ==> j[R.JewelryTypeRequested].OfType?
  {
    assert R.KindOf(R.JobId) == R.KStr && R.KindOf(R.CreatedAt) == R.KTime && R.KindOf(R.ApiKeyName) == R.KStr;
    assert R.KindOf(R.Service) == R.KService && R.KindOf(R.Mock) == R.KBool && R.KindOf(R.ContentHash) == R.KStr;
    assert R.KindOf(R.JewelryTypeRequested) == R.KType;
  }

  lemma TypeIsNoPlaceholder(t: JewelryType)
    ensures TypeText(t) != "" && TypeText(t) != "AUTO"
  {
    assert TypeText(t)[1] != "AUTO"[1];
  }

  /** The cells as the loop reads them. */
  lemma LoggedCells(j: R.Job, isoformat: nat -> string, rest: Row)
    requires R.WellFormed(j)
    ensures R.JobId in j && j[R.JobId].Str? && R.CreatedAt in j && j[R.CreatedAt].Time?
    ensures CellsAre(LoggedRow(j, isoformat) + rest, j, isoformat(j[R.CreatedAt].us))
    ensures Cell(LoggedRow(j, isoformat) + rest, COL_STATUS) == if rest == [] then "" else rest[0]
  {
    LoggedKinds(j);
    hide ServiceText, TypeText, R.WellFormed;
    var row, all := LoggedRow(j, isoformat), LoggedRow(j, isoformat) + rest;
    assert forall k :: 0 <= k < 7 ==> all[k] == row[k];
  }

  predicate CellsAre(row: Row, j: R.Job, created: string) {
    && R.Attribute(j, R.JobId) == Some(R.Str(Cell(row, COL_JOB_ID)))
    && Cell(row, COL_CREATED_AT) == created
    && R.Attribute(j, R.ApiKeyName) == Some(R.Str(Cell(row, COL_API_KEY_NAME)))
    && R.Attribute(j, R.ContentHash) == Some(R.Str(Cell(row, COL_CONTENT_HASH)))
    && R.Service in j && j[R.Service].OfService? && Cell(row, COL_SERVICE) == ServiceText(j[R.Service].service)
    && R.Attribute(j, R.Mock) == Some(R.Bool(Cell(row, COL_MOCK) == "1"))
    && (R.JewelryTypeRequested in j ==>
          j[R.JewelryTypeRequested].OfType? && Cell(row, COL_JEWELRY_TYPE) == TypeText(j[R.JewelryTypeRequested].jewelryType))
    && (R.JewelryTypeRequested !in j ==> Cell(row, COL_JEWELRY_TYPE) == "AUTO")
  }

  lemma LoggedIsOpen(row: Row, j: R.Job, created: string, at: Setting)
    requires CellsAre(row, j, created) && R.CreatedAt in j && j[R.CreatedAt].Time? && R.JobId in j && j[R.JobId].Str?
    requires j[R.JobId].s != "" && created != "" && at.iso(created) == Some(j[R.CreatedAt].us)
    ensures Open(row, at) <==> Cell(row, COL_STATUS) == "" && at.now <= j[R.CreatedAt].us + 172_800_000_000
    ensures Open(row, at) ==> Recovered(row, at).Some?
    ensures R.ServiceOf(Cell(row, COL_SERVICE)) == Some(j[R.Service].service)
    ensures var text := Cell(row, COL_JEWELRY_TYPE);
            if R.JewelryTypeRequested in j
            then text != "" && text != "AUTO" && R.TypeOf(text) == Some(j[R.JewelryTypeRequested].jewelryType)
            else text == "AUTO"
  {
    if R.JewelryTypeRequested in j {
      TypeIsNoPlaceholder(j[R.JewelryTypeRequested].jewelryType);
      R.MembersFound(j[R.JewelryTypeRequested]);
    }
    R.MembersFound(j[R.Service]);
    hide ServiceText, TypeText, R.ServiceOf, R.TypeOf, Cell, R.WellFormed;
  }

  /**
   * The row brings back what was asked for, by whom and when, whatever had become of the job: for 48
   * hours, and until a status is written behind it.
   */
  lemma LoggedRowRecovers(j: R.Job, isoformat: nat -> string, at: Setting, rest: Row)
    requires R.WellFormed(j) && R.JobId in j && j[R.JobId].Str? && R.CreatedAt in j && j[R.CreatedAt].Time?
    requires j[R.JobId].s != "" && isoformat(j[R.CreatedAt].us) != "" && at.iso(isoformat(j[R.CreatedAt].us)) == Some(j[R.CreatedAt].us)
    ensures var row := LoggedRow(j, isoformat) + rest;
            && (Open(row, at) <==> (rest == [] || rest[0] == "") && at.now <= j[R.CreatedAt].us + 172_800_000_000)
            && (Open(row, at) ==> Recovered(row, at).Some? && BringsBack(Recovered(row, at).value, j, at))
  {
    var row, created := LoggedRow(j, isoformat) + rest, isoformat(j[R.CreatedAt].us);
    hide LoggedRow, R.WellFormed;
    LoggedCells(j, isoformat, rest);
    LoggedIsOpen(row, j, created, at);
    if Open(row, at) {
      BroughtBack(row, j, created, at);
    }
    hide Open, Recovered, Cell, CellsAre, BringsBack;
  }

  /** The request itself is back; what the job had got to is not. */
  ghost predicate BringsBack(k: R.Job, j: R.Job, at: Setting) {
    && (forall f :: f in {R.JobId, R.ApiKeyName, R.Service, R.Mock, R.ContentHash, R.JewelryTypeRequested, R.CreatedAt} ==>
          R.Attribute(k, f) == R.Attribute(j, f))
    && R.Attribute(k, R.JewelryTypeFinal) == R.Attribute(j, R.JewelryTypeRequested)
    && R.CreatedAt in j && j[R.CreatedAt].Time? && R.Attribute(k, R.DeadlineAt) == Some(R.Time(j[R.CreatedAt].us + at.deadlineUs))
    && R.Attribute(k, R.Status) == Some(R.OfStatus(NeedsReview)) && R.Attribute(k, R.Error) == Some(R.OfError(OrphanedSubmit))
    && forall f :: f in {R.SubmissionToken, R.ProviderJobId, R.PromptSnapshot, R.CallbackUrl, R.IdempotencyKey} ==> f !in k
  }

  lemma RequestedBack(row: Row, j: R.Job, created: string, at: Setting, f: R.Field)
    requires CellsAre(row, j, created) && R.CreatedAt in j && j[R.CreatedAt].Time? && R.JobId in j && j[R.JobId].Str?
    requires j[R.JobId].s != "" && created != "" && at.iso(created) == Some(j[R.CreatedAt].us)
    requires Open(row, at) && Recovered(row, at).Some?
    requires f in {R.JobId, R.ApiKeyName, R.Service, R.Mock, R.ContentHash, R.JewelryTypeRequested, R.CreatedAt}
    ensures R.Attribute(Recovered(row, at).value, f) == R.Attribute(j, f)
  {
    LoggedIsOpen(row, j, created, at);
    RecoveredHolds(row, at, f);
    hide Open, Recovered, Cell, R.ServiceOf, R.TypeOf, ServiceText, TypeText, R.WellFormed;
  }

  lemma DeadlineBack(row: Row, j: R.Job, created: string, at: Setting)
    requires CellsAre(row, j, created) && R.CreatedAt in j && j[R.CreatedAt].Time? && at.iso(created) == Some(j[R.CreatedAt].us)
    requires Open(row, at) && Recovered(row, at).Some?
    ensures R.Attribute(Recovered(row, at).value, R.DeadlineAt) == Some(R.Time(j[R.CreatedAt].us + at.deadlineUs))
  {
    RecoveredHolds(row, at, R.DeadlineAt);
    hide Open, Recovered, Cell, R.Attribute, R.WellFormed;
  }

  lemma BroughtBack(row: Row, j: R.Job, created: string, at: Setting)
    requires CellsAre(row, j, created) && R.CreatedAt in j && j[R.CreatedAt].Time? && R.JobId in j && j[R.JobId].Str?
    requires j[R.JobId].s != "" && created != "" && at.iso(created) == Some(j[R.CreatedAt].us)
    requires Open(row, at) && Recovered(row, at).Some?
    ensures BringsBack(Recovered(row, at).value, j, at)
  {
    hide Open, Recovered, Cell, CellsAre, R.ServiceOf, R.TypeOf, R.WellFormed;
    forall f | f in {R.JobId, R.ApiKeyName, R.Service, R.Mock, R.ContentHash, R.JewelryTypeRequested, R.CreatedAt}
      ensures R.Attribute(Recovered(row, at).value, f) == R.Attribute(j, f)
    {
      RequestedBack(row, j, created, at, f);
    }
    RequestedBack(row, j, created, at, R.JewelryTypeRequested);
    RecoveredHolds(row, at, R.JewelryTypeRequested);
    RecoveredHolds(row, at, R.JewelryTypeFinal);
    DeadlineBack(row, j, created, at);
    RecoveredHolds(row, at, R.Status);
    RecoveredHolds(row, at, R.Error);
    forall f | f in {R.SubmissionToken, R.ProviderJobId, R.PromptSnapshot, R.CallbackUrl, R.IdempotencyKey}
      ensures f !in Recovered(row, at).value
    {
      RecoveredHolds(row, at, f);
      assert R.Attribute(Recovered(row, at).value, f) == None;
    }
  }

  predicate Gone(hashes: Hashes, id: string) {
    HashAt(hashes, id) == map[]
  }

  /** Row i is the first open row of an id that Redis does not have. */
  ghost predicate Creates(before: Hashes, rows: seq<Row>, at: Setting, i: int) {
    && 0 <= i < |rows| && Open(rows[i], at) && Gone(before, IdOf(rows[i]))
    && forall k :: 0 <= k < i && Open(rows[k], at) ==> IdOf(rows[k]) != IdOf(rows[i])
  }

  /** The index entries of the records created, in row order. */
  ghost function CreatedEntries(before: Hashes, rows: seq<Row>, at: Setting): seq<Entry> {
    if rows == [] then []
    else
      var n := |rows| - 1;
      var front := CreatedEntries(before, rows[..n], at);
      if Creates(before, rows, at, n)
      then front + [Entry(at.iso(Cell(rows[n], COL_CREATED_AT)).value, IdOf(rows[n]))]
      else front
  }

  /** What working through these rows does to the hashes. */
  ghost predicate Rehydrated(before: Hashes, after: Hashes, rows: seq<Row>, at: Setting) {
    && (forall id :: !Gone(before, id) ==> HashAt(after, id) == HashAt(before, id))
    && (forall i :: Creates(before, rows, at, i) ==>
          && Recovered(rows[i], at).Some?
          && HashAt(after, IdOf(rows[i])) == R.ToRedisHash(Recovered(rows[i], at).value))
    && (forall id :: Gone(before, id) && !Gone(after, id) ==> exists i :: Creates(before, rows, at, i) && IdOf(rows[i]) == id)
  }

  /** What makes a row raise: a date, an enumeration or a stored hash that does not parse. */
  ghost predicate Raises(hashes: Hashes, row: Row, at: Setting) {
    || (Unfinished(row) && at.iso(Cell(row, COL_CREATED_AT)).None?)
    || (Open(row, at) && Fetch(hashes, IdOf(row)).Unreadable?)
    || (Open(row, at) && Gone(hashes, IdOf(row)) && Recovered(row, at).None?)
  }

  /** The rows below the header. */
  function Body(rows: seq<Row>): seq<Row> {
    if rows == [] then [] else rows[1..]
  }

  /** An open row of a missing id has a first one. */
  lemma {:induction false} FirstOpen(before: Hashes, rows: seq<Row>, at: Setting, k: int)
    requires 0 <= k < |rows| && Open(rows[k], at) && Gone(before, IdOf(rows[k]))
    ensures exists i :: Creates(before, rows, at, i) && IdOf(rows[i]) == IdOf(rows[k])
    decreases k
  {
    hide Open, IdOf, Gone;
    if j :| 0 <= j < k && Open(rows[j], at) && IdOf(rows[j]) == IdOf(rows[k]) {
      FirstOpen(before, rows, at, j);
    } else {
      assert Creates(before, rows, at, k);
    }
  }

  lemma RecoveredHashIsThere(row: Row, at: Setting)
    requires Open(row, at) && Recovered(row, at).Some?
    ensures R.ToRedisHash(Recovered(row, at).value) != map[]
  {
    RecoveredIsParked(row, at);
    assert R.Demanded(R.JobId);
    assert R.JobId in R.ToRedisHash(Recovered(row, at).value);
  }

  /** Afterwards every open row's id is there. */
  lemma OpenIdsAreThere(before: Hashes, after: Hashes, rows: seq<Row>, at: Setting, k: int)
    requires 0 <= k < |rows| && Rehydrated(before, after, rows, at) && Open(rows[k], at)
    ensures !Gone(after, IdOf(rows[k]))
  {
    if Gone(before, IdOf(rows[k])) {
      FirstOpen(before, rows, at, k);
      var i :| Creates(before, rows, at, i) && IdOf(rows[i]) == IdOf(rows[k]);
      RecoveredHashIsThere(rows[i], at);
    }
    hide Open, Recovered, IdOf, R.ToRedisHash;
  }

  lemma CreatesInLonger(before: Hashes, rows: seq<Row>, row: Row, at: Setting, i: int)
    requires i < |rows|
    ensures Creates(before, rows + [row], at, i) <==> Creates(before, rows, at, i)
  {
    hide Open, IdOf, Gone;
    assert forall k :: 0 <= k < |rows| ==> (rows + [row])[k] == rows[k];
  }

  /** One row that changes nothing: it is not open, or its id is there already. */
  lemma SkipRow(before: Hashes, hashes: Hashes, rows: seq<Row>, row: Row, at: Setting)
    requires Rehydrated(before, hashes, rows, at)
    requires Open(row, at) ==> !Gone(hashes, IdOf(row))
    ensures !Creates(before, rows + [row], at, |rows|)
    ensures Rehydrated(before, hashes, rows + [row], at)
  {
    hide Open, Recovered, IdOf, Gone, R.ToRedisHash;
    var longer := rows + [row];
    forall i: int | i < |rows| ensures Creates(before, longer, at, i) <==> Creates(before, rows, at, i) {
      CreatesInLonger(before, rows, row, at, i);
    }
  }

  lemma FirstOfItsId(before: Hashes, hashes: Hashes, rows: seq<Row>, row: Row, at: Setting)
    requires Rehydrated(before, hashes, rows, at)
    requires Open(row, at) && Gone(hashes, IdOf(row))
    ensures Creates(before, rows + [row], at, |rows|)
  {
    forall k | 0 <= k < |rows| && Open(rows[k], at) ensures IdOf(rows[k]) != IdOf(row) {
      OpenIdsAreThere(before, hashes, rows, at, k);
    }
    assert (rows + [row])[|rows|] == row;
    hide Open, Recovered, IdOf, R.ToRedisHash;
  }

  /** One row whose id is missing: it is the first, and its record is created. */
  lemma CreateRow(before: Hashes, hashes: Hashes, rows: seq<Row>, row: Row, at: Setting)
    requires Rehydrated(before, hashes, rows, at)
    requires Open(row, at) && Gone(hashes, IdOf(row)) && Recovered(row, at).Some?
    ensures Creates(before, rows + [row], at, |rows|)
    ensures Rehydrated(before, hashes[IdOf(row) := R.ToRedisHash(Recovered(row, at).value)], rows + [row], at)
  {
    var longer := rows + [row];
    FirstOfItsId(before, hashes, rows, row, at);
    forall i: int | i < |rows| ensures Creates(before, longer, at, i) <==> Creates(before, rows, at, i) {
      CreatesInLonger(before, rows, row, at, i);
    }
    hide Open, Recovered, IdOf, R.ToRedisHash;
    assert longer[|rows|] == row;
  }

  function IdsOf(entries: seq<Entry>): seq<string> {
    seq(|entries|, k requires 0 <= k < |entries| => entries[k].id)
  }

  lemma OneMoreEntry(index: seq<Entry>, created: seq<Entry>, e: Entry)
    ensures AfterCreates(index, created + [e]) == AfterCreate(AfterCreates(index, created), e)
    ensures IdsOf(created + [e]) == IdsOf(created) + [e.id]
  {
    hide AfterCreate;
    assert (created + [e])[..|created|] == created;
  }

  lemma EntriesOfLonger(before: Hashes, rows: seq<Row>, row: Row, at: Setting)
    ensures CreatedEntries(before, rows + [row], at)
            == if Creates(before, rows + [row], at, |rows|)
               then CreatedEntries(before, rows, at) + [Entry(at.iso(Cell(row, COL_CREATED_AT)).value, IdOf(row))]
               else CreatedEntries(before, rows, at)
  {
    hide IdOf, Cell;
    assert (rows + [row])[..|rows|] == rows;
  }

  /** A job this function creates reads back parked for review, never as something to resume. */
  lemma CreatedIsParked(before: Hashes, after: Hashes, rows: seq<Row>, at: Setting, i: int)
    requires Rehydrated(before, after, rows, at) && Creates(before, rows, at, i)
    ensures var f := Fetch(after, IdOf(rows[i]));
            && f.Found? && f.job == R.Truncated(Recovered(rows[i], at).value)
            && StatusOf(f.job) == NeedsReview && R.Error in f.job && f.job[R.Error] == R.OfError(OrphanedSubmit)
  {
    var job := Recovered(rows[i], at).value;
    FetchStored(after, IdOf(rows[i]), job);
    RecoveredIsParked(rows[i], at);
    TruncatedFields(job);
    hide Recovered, R.ToRedisHash, Fetch, R.WellFormed, R.Truncated, StatusOf, DeadlineOf, Open;
  }

  /** What raises on the way would have raised at the start: the rows before it make nothing unreadable. */
  lemma RaisedBefore(before: Hashes, after: Hashes, rows: seq<Row>, row: Row, at: Setting)
    requires Rehydrated(before, after, rows, at) && Raises(after, row, at)
    ensures Raises(before, row, at)
  {
    var id := IdOf(row);
    if Gone(before, id) && !Gone(after, id) {
      var i :| Creates(before, rows, at, i) && IdOf(rows[i]) == id;
      CreatedIsParked(before, after, rows, at, i);
    }
    hide Recovered, R.ToRedisHash, R.FromRedisHash, R.Readable, R.WellFormed;
  }

  /** Idempotent: run again on the same log, at the same time or later, it creates nothing. */
  lemma SecondRunCreatesNothing(before: Hashes, between: Hashes, after: Hashes, rows: seq<Row>, at: Setting, now: nat)
    requires Rehydrated(before, between, rows, at) && at.now <= now
    requires Rehydrated(between, after, rows, at.(now := now))
    ensures CreatedEntries(between, rows, at.(now := now)) == []
    ensures forall id :: HashAt(after, id) == HashAt(between, id)
  {
    forall i | 0 <= i < |rows| && Open(rows[i], at.(now := now)) ensures !Gone(between, IdOf(rows[i])) {
      assert Open(rows[i], at);
      OpenIdsAreThere(before, between, rows, at, i);
    }
    NothingCreated(between, rows, at.(now := now));
    hide Recovered, R.ToRedisHash, Open, IdOf;
  }

  lemma {:induction false} NothingCreated(hashes: Hashes, rows: seq<Row>, at: Setting)
    requires forall i :: 0 <= i < |rows| && Open(rows[i], at) ==> !Gone(hashes, IdOf(rows[i]))
    ensures CreatedEntries(hashes, rows, at) == []
  {
    hide Open, IdOf, Gone;
    if rows != [] {
      NothingCreated(hashes, rows[..|rows| - 1], at);
    }
  }

  /** The loop of `rehydrate` after these rows, from the hashes and index it started with. */
  ghost predicate Progress(before: Hashes, index: seq<Entry>, hashes: Hashes, recent: seq<Entry>, recreated: seq<string>,
                           rows: seq<Row>, at: Setting)
  {
    && Rehydrated(before, hashes, rows, at)
    && recent == AfterCreates(index, CreatedEntries(before, rows, at))
    && recreated == IdsOf(CreatedEntries(before, rows, at))
  }

  lemma NoRows(hashes: Hashes, index: seq<Entry>, at: Setting)
    ensures Progress(hashes, index, hashes, index, [], [], at)
  {
  }

  lemma SkipStep(before: Hashes, index: seq<Entry>, hashes: Hashes, recent: seq<Entry>, recreated: seq<string>,
                 rows: seq<Row>, row: Row, at: Setting)
    requires Progress(before, index, hashes, recent, recreated, rows, at)
    requires Open(row, at) ==> !Gone(hashes, IdOf(row))
    ensures Progress(before, index, hashes, recent, recreated, rows + [row], at)
  {
    SkipRow(before, hashes, rows, row, at);
    EntriesOfLonger(before, rows, row, at);
    hide Rehydrated, Creates, CreatedEntries;
  }

  lemma CreateStep(before: Hashes, index: seq<Entry>, hashes: Hashes, recent: seq<Entry>, recreated: seq<string>,
                   rows: seq<Row>, row: Row, at: Setting)
    requires Progress(before, index, hashes, recent, recreated, rows, at)
    requires Open(row, at) && Gone(hashes, IdOf(row)) && Recovered(row, at).Some?
    ensures var job := Recovered(row, at).value;
            && job[R.JobId] == R.Str(IdOf(row)) && job[R.CreatedAt].Time?
            && Progress(before, index, hashes[IdOf(row) := HashAt(hashes, IdOf(row)) + R.ToRedisHash(job)],
                        AfterCreate(recent, Entry(job[R.CreatedAt].us, IdOf(row))), recreated + [IdOf(row)], rows + [row], at)
  {
    var created := at.iso(Cell(row, COL_CREATED_AT)).value;
    var hash := R.ToRedisHash(Recovered(row, at).value);
    assert HashAt(hashes, IdOf(row)) + hash == hash;
    RecoveredIsParked(row, at);
    CreateRow(before, hashes, rows, row, at);
    EntriesOfLonger(before, rows, row, at);
    OneMoreEntry(index, CreatedEntries(before, rows, at), Entry(created, IdOf(row)));
    hide Open, Recovered, Rehydrated, Creates, CreatedEntries, AfterCreate, AfterCreates, IdsOf, R.ToRedisHash;
    hide R.WellFormed, Cell;
  }

  /**
   * `rehydrate`. What it has worked through is `upTo` rows of the body: all of them, or those before
   * the row that raised. Exactly the first open row of each missing id creates a record.
   */
  method Rehydrate(store: RedisStore, rows: seq<Row>, at: Setting) returns (r: Option<seq<string>>, ghost upTo: nat)
    requires store.Valid()
    modifies store
    ensures store.Valid()
    ensures upTo <= |Body(rows)|
    ensures Rehydrated(old(store.hashes), store.hashes, Body(rows)[..upTo], at)
    ensures store.recent == AfterCreates(old(store.recent), CreatedEntries(old(store.hashes), Body(rows)[..upTo], at))
    ensures r.None? ==> upTo < |Body(rows)| && Raises(old(store.hashes), Body(rows)[upTo], at)
    ensures r.Some? ==> upTo == |Body(rows)|
    ensures r.Some? ==> r.value == IdsOf(CreatedEntries(old(store.hashes), Body(rows), at))
  {
    hide Recovered, Rehydrated, CreatedEntries, IdsOf, IdOf, Cell, Body, Fetch, AfterCreate, AfterCreates;
    hide R.ToRedisHash, R.WellFormed;
    var body := Body(rows);
    assert body[..|body|] == body;
    var recreated: seq<string> := [];
    NoRows(store.hashes, store.recent, at);
    upTo := 0;
    for i := 0 to |body|
      invariant store.Valid() && upTo == i
      invariant Progress(old(store.hashes), old(store.recent), store.hashes, store.recent, recreated, body[..i], at)
    {
      var row := body[i];
      var jobId := IdOf(row);
      assert body[..i + 1] == body[..i] + [row];
      if Open(row, at) ==> !Gone(store.hashes, jobId) {
        SkipStep(old(store.hashes), old(store.recent), store.hashes, store.recent, recreated, body[..i], row, at);
      }
      if jobId != "" && Cell(row, COL_STATUS) == "" && Cell(row, COL_CREATED_AT) != "" {
        var created := at.iso(Cell(row, COL_CREATED_AT));
        if created.None? {
          RaisedBefore(old(store.hashes), store.hashes, body[..i], row, at);
          return None, upTo;
        }
        if at.now - created.value <= REHYDRATION_WINDOW_US {
          var existing := store.GetJob(jobId);
          if existing.Unreadable? {
            RaisedBefore(old(store.hashes), store.hashes, body[..i], row, at);
            return None, upTo;
          }
          if existing.Absent? {
            assert Gone(store.hashes, jobId) by {
              AbsentIsGone(store.hashes, jobId);
            }
            var job := Recovered(row, at);
            if job.None? {
              RaisedBefore(old(store.hashes), store.hashes, body[..i], row, at);
              return None, upTo;
            }
            CreateStep(old(store.hashes), old(store.recent), store.hashes, store.recent, recreated, body[..i], row, at);
            store.CreateJob(job.value);
            recreated := recreated + [jobId];
          } else {
            AbsentIsGone(store.hashes, jobId);
          }
        }
      }
      upTo := i + 1;
    }
    r := Some(recreated);
  }

  lemma AbsentIsGone(hashes: Hashes, id: string)
    ensures Fetch(hashes, id).Absent? <==> Gone(hashes, id)
  {
  }
}
