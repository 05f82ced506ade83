/**
 * The two-key matrix cache of app/services/matrix.py: matrix:data, which expires, and matrix:version,
 * which does not, written one after the other under lock:matrix:refresh.
 */
module MatrixCache {
  import opened Enums
  import opened MatrixVersion
  import opened Options
  import P = PivotParser
  import VersionText

  type Table = seq<P.Variant>

  /** _compute_version; `digest` is the first 16 hex digits of SHA-256. */
  function VersionOf(digest: string -> string, t: Table): string {
    digest(Canonical(t))
  }

  // ---------------------------------------------------------------- any number of callers

  /** How far a caller inside the lock has got with `_do`. */
  datatype Phase = Entered | Reading | HaveRead(table: Table) | WroteData(table: Table) | Leaving

  /** `asks`: a resolve stage whose version read has to refresh. */
  datatype Caller = Caller(force: bool, phase: Phase, asks: bool)

  /**
   * A resolve stage between its two reads: the table its row came from, and the version key at that
   * moment. `settled`: nobody was then between the two writes, or had gone there. `refreshed` is the
   * table of the last refresh completed since, its own included. `missed`: it has found no version.
   */
  datatype Pick = Pick(table: Table, versionThen: Option<string>, settled: bool, refreshed: Option<Table>, missed: bool)

  /** What such a stage writes into its job: the row's table, and the version it read. */
  datatype Record = Record(pick: Pick, version: Option<string>)

  /**
   * The cache, the sheet, the callers inside the lock, and the resolve stages. `overwrote` is the version
   * key as the last write of the data found it. Per cold period: `coldReads` counts the sheet reads that
   * non-forced callers completed in it, `lost` those whose caller went before writing.
   */
  datatype State = State(
    sheet: Table,
    data: Option<Table>,
    version: Option<string>,
    inside: map<nat, Caller>,
    torn: bool,
    overwrote: Option<string>,
    coldReads: nat,
    lost: nat,
    picks: map<nat, Pick>,
    records: seq<Record>)

  datatype Event =
    | Enter(id: nat, force: bool)
    | Check(id: nat)
    | ReadSheet(id: nat, ok: bool)
    | PutData(id: nat)
    | PutVersion(id: nat)
    | Leave(id: nat)
    | Abort(id: nat) // an exception or a crash, at any point
    | Expire
    | EditSheet(table: Table)
    | PickRow(id: nat) // resolve_matrix_row on a warm table
    // current_matrix_version: the key is there; it is not; then the data is warm, or a refresh of its own is due
    | ReadVersion(id: nat)
    | MissVersion(id: nat)
    | AskRefresh(id: nat)
    | GiveUp(id: nat)

  predicate Enabled(s: State, e: Event) {
    match e
    case Enter(id, _) => id !in s.inside
    case Check(id) => id in s.inside && s.inside[id].phase == Entered
    case ReadSheet(id, _) => id in s.inside && s.inside[id].phase == Reading
    case PutData(id) => id in s.inside && s.inside[id].phase.HaveRead?
    case PutVersion(id) => id in s.inside && s.inside[id].phase.WroteData?
    case Leave(id) => id in s.inside && s.inside[id].phase == Leaving
    case Abort(id) => id in s.inside
    case Expire => s.data.Some?
    case EditSheet(_) => true
    case PickRow(id) => id !in s.picks && id !in s.inside && s.data.Some?
    case ReadVersion(id) => id in s.picks && (s.picks[id].missed || s.version.Some?)
    case MissVersion(id) => id in s.picks && s.version.None?
    case AskRefresh(id) => id in s.picks && s.picks[id].missed && s.data.None? && id !in s.inside
    case GiveUp(id) => id in s.picks
  }

  function At(s: State, id: nat, phase: Phase): State
    requires id in s.inside
  {
    s.(inside := s.inside[id := s.inside[id].(phase := phase)])
  }

  function Next(s: State, e: Event, digest: string -> string): State
    requires Enabled(s, e)
  {
    match e
    case Enter(id, force) => s.(inside := s.inside[id := Caller(force, Entered, false)])
    case Check(id) => At(s, id, if !s.inside[id].force && s.data.Some? then Leaving else Reading)
    case ReadSheet(id, ok) =>
      if ok then At(s, id, HaveRead(s.sheet)).(coldReads := if s.inside[id].force then s.coldReads else s.coldReads + 1)
      else At(s, id, Leaving)
    case PutData(id) => At(s, id, WroteData(s.inside[id].phase.table)).(data := Some(s.inside[id].phase.table), overwrote := s.version)
    case PutVersion(id) =>
      var table := s.inside[id].phase.table;
      var version := VersionOf(digest, table);
      var picks := map k | k in s.picks :: s.picks[k].(refreshed := Some(table));
      var written := At(s, id, Leaving).(version := Some(version), torn := false, picks := picks);
      // a refresh for a version read returns the version it computed
      if s.inside[id].asks && id in picks then
        written.(picks := picks - {id}, records := s.records + [Record(picks[id], Some(version))])
      else written
    case Leave(id) => s.(inside := s.inside - {id})
    case Abort(id) =>
      s.(inside := s.inside - {id},
         torn := s.torn || s.inside[id].phase.WroteData?,
         lost := if s.inside[id].phase.HaveRead? && !s.inside[id].force then s.lost + 1 else s.lost)
    case Expire => s.(data := None, torn := false, coldReads := 0, lost := 0)
    case EditSheet(table) => s.(sheet := table)
    case PickRow(id) =>
      s.(picks := s.picks[id := Pick(s.data.value, s.version, !s.torn && !BetweenWrites(s), None, false)])
    case MissVersion(id) => s.(picks := s.picks[id := s.picks[id].(missed := true)])
    case AskRefresh(id) => s.(inside := s.inside[id := Caller(false, Entered, true)])
    case ReadVersion(id) => s.(picks := s.picks - {id}, records := s.records + [Record(s.picks[id], s.version)])
    case GiveUp(id) => s.(picks := s.picks - {id})
  }

  ghost predicate Exclusive(s: State) {
    forall a, b :: a in s.inside && b in s.inside ==> a == b
  }

  /** What the lock gives while nobody outstays it: a possible run with at most one caller inside throughout. */
  ghost predicate ExclusiveRun(s: State, events: seq<Event>, digest: string -> string)
    decreases |events|
  {
    && Exclusive(s)
    && (events == [] || (Enabled(s, events[0]) && ExclusiveRun(Next(s, events[0], digest), events[1..], digest)))
  }

  ghost function Run(s: State, events: seq<Event>, digest: string -> string): State
    requires ExclusiveRun(s, events, digest)
    decreases |events|
  {
    if events == [] then s else Run(Next(s, events[0], digest), events[1..], digest)
  }

  function Cold(sheet: Table, version: Option<string>): State {
    State(sheet, None, version, map[], false, None, 0, 0, map[], [])
  }

  predicate BetweenWrites(s: State) {
    exists id :: id in s.inside && s.inside[id].phase.WroteData?
  }

  /** A non-forced caller holding a completed read. */
  predicate ReadInHand(s: State) {
    exists id :: id in s.inside && !s.inside[id].force && s.inside[id].phase.HaveRead?
  }

  /** The warm data re-hashes to the version. */
  ghost predicate Consistent(s: State, digest: string -> string) {
    s.data.Some? ==> s.version == Some(VersionOf(digest, s.data.value))
  }

  ghost predicate CacheInv(s: State, digest: string -> string) {
    && (!s.torn && !BetweenWrites(s) ==> Consistent(s, digest))
    && (forall id :: id in s.inside && s.inside[id].phase.WroteData? && s.data.Some? ==> s.data.value == s.inside[id].phase.table)
    && (forall id :: id in s.inside && !s.inside[id].force && (s.inside[id].phase == Reading || s.inside[id].phase.HaveRead?) ==>
          s.data.None?)
    && s.coldReads <= s.lost + (if s.data.Some? || ReadInHand(s) then 1 else 0)
    && (s.data.Some? && (s.torn || BetweenWrites(s)) ==> s.version == s.overwrote)
    && (forall id :: id in s.picks ==> PickHolds(s.picks[id], s.version, digest))
    && (forall r :: r in s.records ==> PickHolds(r.pick, r.version, digest))
  }

  /** What is known of a stage whose version read returns `version`. */
  ghost predicate PickHolds(p: Pick, version: Option<string>, digest: string -> string) {
    && version == (if p.refreshed.Some? then Some(VersionOf(digest, p.refreshed.value)) else p.versionThen)
    && (p.settled ==> p.versionThen == Some(VersionOf(digest, p.table)))
  }

  predicate Concerns(e: Event, id: nat) {
    match e
    case Expire => false
    case EditSheet(_) => false
    case PickRow(_) => false
    case ReadVersion(_) => false
    case MissVersion(_) => false
    case GiveUp(_) => false
    case _ => e.id == id
  }

  lemma OthersStay(s: State, e: Event, digest: string -> string, id: nat)
    requires Enabled(s, e) && !Concerns(e, id)
    ensures var t := Next(s, e, digest); (id in t.inside <==> id in s.inside) && (id in s.inside ==> t.inside[id] == s.inside[id])
  {
  }

  lemma StepKeepsConsistency(s: State, e: Event, digest: string -> string)
    requires CacheInv(s, digest) && Exclusive(s) && Enabled(s, e)
    ensures var t := Next(s, e, digest); !t.torn && !BetweenWrites(t) ==> Consistent(t, digest)
  {
    hide VersionOf;
    var t := Next(s, e, digest);
    if w :| w in s.inside && s.inside[w].phase.WroteData? {
      if !Concerns(e, w) {
        OthersStay(s, e, digest, w);
        assert w in t.inside && t.inside[w].phase.WroteData?;
      }
    } else if e.PutData? {
      assert e.id in t.inside && t.inside[e.id].phase.WroteData?;
    }
  }

  lemma StepKeepsColdReads(s: State, e: Event, digest: string -> string)
    requires CacheInv(s, digest) && Exclusive(s) && Enabled(s, e)
    ensures var t := Next(s, e, digest); t.coldReads <= t.lost + (if t.data.Some? || ReadInHand(t) then 1 else 0)
  {
    hide VersionOf, Consistent, BetweenWrites;
    var t := Next(s, e, digest);
    if w :| w in s.inside && !s.inside[w].force && s.inside[w].phase.HaveRead? {
      if !Concerns(e, w) {
        OthersStay(s, e, digest, w);
        assert w in t.inside && !t.inside[w].force && t.inside[w].phase.HaveRead?;
      }
    } else if e.ReadSheet? && e.ok && !s.inside[e.id].force {
      assert e.id in t.inside && !t.inside[e.id].force && t.inside[e.id].phase.HaveRead?;
    }
  }

  lemma StepKeepsOverwrote(s: State, e: Event, digest: string -> string)
    requires CacheInv(s, digest) && Exclusive(s) && Enabled(s, e)
    ensures var t := Next(s, e, digest); t.data.Some? && (t.torn || BetweenWrites(t)) ==> t.version == t.overwrote
  {
    hide VersionOf, Consistent, ReadInHand, PickHolds;
    var t := Next(s, e, digest);
    if w :| w in t.inside && t.inside[w].phase.WroteData? {
      if !Concerns(e, w) {
        OthersStay(s, e, digest, w);
        assert w in s.inside && s.inside[w].phase.WroteData?;
      }
    }
    if e.Abort? && s.inside[e.id].phase.WroteData? {
      assert BetweenWrites(s);
    }
  }

  lemma StepKeepsPicks(s: State, e: Event, digest: string -> string)
    requires CacheInv(s, digest) && Enabled(s, e)
    ensures var t := Next(s, e, digest);
            && (forall id :: id in t.picks ==> PickHolds(t.picks[id], t.version, digest))
            && (forall r :: r in t.records ==> PickHolds(r.pick, r.version, digest))
  {
    hide VersionOf, BetweenWrites, ReadInHand;
  }

  lemma StepKeepsCacheInv(s: State, e: Event, digest: string -> string)
    requires CacheInv(s, digest) && Exclusive(s) && Enabled(s, e)
    ensures CacheInv(Next(s, e, digest), digest)
  {
    StepKeepsConsistency(s, e, digest);
    StepKeepsColdReads(s, e, digest);
    StepKeepsOverwrote(s, e, digest);
    StepKeepsPicks(s, e, digest);
    hide VersionOf, Consistent, BetweenWrites, ReadInHand, PickHolds;
  }

  lemma {:induction false} RunKeepsCacheInv(s: State, events: seq<Event>, digest: string -> string)
    requires CacheInv(s, digest) && ExclusiveRun(s, events, digest)
    ensures CacheInv(Run(s, events, digest), digest)
    decreases |events|
  {
    hide CacheInv, Enabled, Next, Exclusive;
    if events != [] {
      StepKeepsCacheInv(s, events[0], digest);
      RunKeepsCacheInv(Next(s, events[0], digest), events[1..], digest);
    }
  }

  /**
   * From a cold cache, in every run in which the lock excludes, with no refresher between its two
   * writes: warm data re-hashes to the version if and only if no refresher has gone there since, or the
   * version it found was already that of its table.
   */
  lemma WarmDataMatchesVersion(sheet: Table, version: Option<string>, events: seq<Event>, digest: string -> string)
    requires ExclusiveRun(Cold(sheet, version), events, digest)
    ensures var s := Run(Cold(sheet, version), events, digest);
            s.data.Some? && !BetweenWrites(s) ==>
              (s.version == Some(VersionOf(digest, s.data.value)) <==>
               !s.torn || s.overwrote == Some(VersionOf(digest, s.data.value)))
  {
    RunKeepsCacheInv(Cold(sheet, version), events, digest);
  }

  /**
   * The version a resolve stage records beside its row is the version of the row's table if and only if
   * the last refresh completed between its two reads stored that version, or, when there was none, the
   * version key read that already; which a stage that picked from a settled cache can count on.
   */
  lemma RecordedVersionIsOfTable(sheet: Table, version: Option<string>, events: seq<Event>, digest: string -> string, r: Record)
    requires ExclusiveRun(Cold(sheet, version), events, digest)
    requires r in Run(Cold(sheet, version), events, digest).records
    ensures r.version == Some(VersionOf(digest, r.pick.table)) <==>
              if r.pick.refreshed.Some? then VersionOf(digest, r.pick.refreshed.value) == VersionOf(digest, r.pick.table)
              else r.pick.versionThen == Some(VersionOf(digest, r.pick.table))
    ensures r.pick.settled && r.pick.refreshed.None? ==> r.version == Some(VersionOf(digest, r.pick.table))
  {
    RunKeepsCacheInv(Cold(sheet, version), events, digest);
    hide VersionOf, Run, ExclusiveRun;
  }

  /** What is counted: each completed non-forced read, and each caller gone with one, since the data last expired. */
  lemma ReadsAreCounted(s: State, e: Event, digest: string -> string)
    requires Enabled(s, e)
    ensures var t := Next(s, e, digest);
            && (e.Expire? ==> t.coldReads == 0 && t.lost == 0)
            && (!e.Expire? ==>
                  && t.coldReads == s.coldReads + (if e.ReadSheet? && e.ok && !s.inside[e.id].force then 1 else 0)
                  && t.lost == s.lost + (if e.Abort? && !s.inside[e.id].force && s.inside[e.id].phase.HaveRead? then 1 else 0))
  {
    hide VersionOf;
  }

  /** However many callers wait, a cold period sees one completed non-forced sheet read, and one more per caller lost with its read. */
  lemma OneReadPerColdPeriod(sheet: Table, version: Option<string>, events: seq<Event>, digest: string -> string)
    requires ExclusiveRun(Cold(sheet, version), events, digest)
    ensures var s := Run(Cold(sheet, version), events, digest); s.coldReads <= 1 + s.lost
  {
    RunKeepsCacheInv(Cold(sheet, version), events, digest);
  }

  // ---------------------------------------------------------------- runs that do not match

  lemma OneMoreEvent(s: State, e: Event, events: seq<Event>, digest: string -> string)
    requires Exclusive(s) && Enabled(s, e) && ExclusiveRun(Next(s, e, digest), events, digest)
    ensures ExclusiveRun(s, [e] + events, digest)
    ensures Run(s, [e] + events, digest) == Run(Next(s, e, digest), events, digest)
  {
    hide Exclusive, Enabled, Next;
    assert ([e] + events)[1..] == events;
  }

  /** A forced refresh by caller 0 up to its first write, then these events. */
  function ToDataThen(events: seq<Event>): seq<Event> {
    [Enter(0, true)] + ([Check(0)] + ([ReadSheet(0, true)] + ([PutData(0)] + events)))
  }

  /** The rest of that refresh, then these events. */
  function ToEndThen(events: seq<Event>): seq<Event> {
    [PutVersion(0)] + ([Leave(0)] + events)
  }

  function DataWritten(s: State): State {
    s.(inside := map[0 := Caller(true, WroteData(s.sheet), false)], data := Some(s.sheet), overwrote := s.version)
  }

  function RefreshEnded(s: State, digest: string -> string): State {
    s.(inside := map[], version := Some(VersionOf(digest, s.sheet)), torn := false,
       picks := map k | k in s.picks :: s.picks[k].(refreshed := Some(s.sheet)))
  }

  lemma ToData(s: State, events: seq<Event>, digest: string -> string)
    requires s.inside == map[] && ExclusiveRun(DataWritten(s), events, digest)
    ensures ExclusiveRun(s, ToDataThen(events), digest) && Run(s, ToDataThen(events), digest) == Run(DataWritten(s), events, digest)
  {
    var s1 := Next(s, Enter(0, true), digest);
    var s2 := Next(s1, Check(0), digest);
    var s3 := Next(s2, ReadSheet(0, true), digest);
    assert Next(s3, PutData(0), digest) == DataWritten(s);
    OneMoreEvent(s3, PutData(0), events, digest);
    OneMoreEvent(s2, ReadSheet(0, true), [PutData(0)] + events, digest);
    OneMoreEvent(s1, Check(0), [ReadSheet(0, true)] + ([PutData(0)] + events), digest);
    OneMoreEvent(s, Enter(0, true), [Check(0)] + ([ReadSheet(0, true)] + ([PutData(0)] + events)), digest);
  }

  lemma ToEnd(s: State, events: seq<Event>, digest: string -> string)
    requires s.inside == map[0 := Caller(true, WroteData(s.sheet), false)] && ExclusiveRun(RefreshEnded(s, digest), events, digest)
    ensures ExclusiveRun(s, ToEndThen(events), digest) && Run(s, ToEndThen(events), digest) == Run(RefreshEnded(s, digest), events, digest)
  {
    hide VersionOf;
    var s1 := Next(s, PutVersion(0), digest);
    assert Next(s1, Leave(0), digest) == RefreshEnded(s, digest);
    OneMoreEvent(s1, Leave(0), events, digest);
    OneMoreEvent(s, PutVersion(0), [Leave(0)] + events, digest);
  }

  /** A refresh that dies between its writes leaves the prior version beside new data. */
  lemma TornWriteMismatches(digest: string -> string, sheet: Table, prior: string)
    requires prior != VersionOf(digest, sheet)
    ensures var events := ToDataThen([Abort(0)] + []);
            && ExclusiveRun(Cold(sheet, Some(prior)), events, digest)
            && var s := Run(Cold(sheet, Some(prior)), events, digest);
               s.inside == map[] && s.data == Some(sheet) && s.version != Some(VersionOf(digest, sheet))
  {
    hide VersionOf;
    var s := Cold(sheet, Some(prior));
    OneMoreEvent(DataWritten(s), Abort(0), [], digest);
    ToData(s, [Abort(0)] + [], digest);
  }

  /** The row read before a refresh, the version after it: a job records a row its version does not have. */
  lemma RefreshBetweenReadsMismatches(digest: string -> string, first: Table, second: Table)
    requires VersionOf(digest, first) != VersionOf(digest, second)
    ensures exists events ::
              && ExclusiveRun(Cold(first, None), events, digest)
              && var s := Run(Cold(first, None), events, digest);
                 |s.records| == 1 && s.records[0].pick.table == first && s.records[0].pick.settled
                 && s.records[0].version == Some(VersionOf(digest, second))
  {
    hide VersionOf;
    var s0 := Cold(first, None);
    var s1 := DataWritten(s0);
    var s2 := RefreshEnded(s1, digest);
    var middle := PickThenRefresh(s2, second, digest);
    hide Next, Enabled;
    ToEnd(s1, middle, digest);
    ToData(s0, ToEndThen(middle), digest);
    assert Run(s0, ToDataThen(ToEndThen(middle)), digest) == Run(s2, middle, digest);
  }

  lemma PickThenRefresh(s: State, second: Table, digest: string -> string) returns (events: seq<Event>)
    requires s.inside == map[] && s.picks == map[] && s.data.Some? && !s.torn && s.version.Some?
    ensures ExclusiveRun(s, events, digest)
    ensures Run(s, events, digest).records
            == s.records + [Record(Pick(s.data.value, s.version, true, Some(second), false), Some(VersionOf(digest, second)))]
  {
    hide VersionOf;
    var s1 := Next(s, PickRow(7), digest);
    var s2 := Next(s1, EditSheet(second), digest);
    var s3 := DataWritten(s2);
    var s4 := RefreshEnded(s3, digest);
    var last := [ReadVersion(7)] + [];
    OneMoreEvent(s4, ReadVersion(7), [], digest);
    ToEnd(s3, last, digest);
    ToData(s2, ToEndThen(last), digest);
    var again := ToDataThen(ToEndThen(last));
    OneMoreEvent(s1, EditSheet(second), again, digest);
    OneMoreEvent(s, PickRow(7), [EditSheet(second)] + again, digest);
    events := [PickRow(7)] + ([EditSheet(second)] + again);
  }

  /** A resolve stage that finds no version, and then no data either, refreshes by itself. */
  function OwnRefresh(second: Table): seq<Event> {
    [MissVersion(7)] + ([Expire] + ([EditSheet(second)] + ([AskRefresh(7)] + ([Check(7)] + ([ReadSheet(7, true)]
    + ([PutData(7)] + ([PutVersion(7)] + [])))))))
  }

  lemma MissThenRefresh(s: State, second: Table, digest: string -> string)
    requires s.inside == map[] && s.data.Some? && s.version.None?
    requires 7 in s.picks && s.picks[7].refreshed.None?
    ensures ExclusiveRun(s, OwnRefresh(second), digest)
    ensures Run(s, OwnRefresh(second), digest).records
            == s.records + [Record(s.picks[7].(missed := true, refreshed := Some(second)), Some(VersionOf(digest, second)))]
  {
    hide VersionOf, ExclusiveRun;
    var s1 := Next(s, MissVersion(7), digest);
    var s2 := Next(s1, Expire, digest);
    var s3 := Next(s2, EditSheet(second), digest);
    var s4 := Next(s3, AskRefresh(7), digest);
    assert s4.inside == map[7 := Caller(false, Entered, true)] && s4.picks[7] == s.picks[7].(missed := true);
    var es4 := [Check(7)] + ([ReadSheet(7, true)] + ([PutData(7)] + ([PutVersion(7)] + [])));
    RefreshForVersion(s4, digest);
    OneMoreEvent(s3, AskRefresh(7), es4, digest);
    OneMoreEvent(s2, EditSheet(second), [AskRefresh(7)] + es4, digest);
    OneMoreEvent(s1, Expire, [EditSheet(second)] + ([AskRefresh(7)] + es4), digest);
    OneMoreEvent(s, MissVersion(7), [Expire] + ([EditSheet(second)] + ([AskRefresh(7)] + es4)), digest);
  }

  lemma RefreshForVersion(s: State, digest: string -> string)
    requires s.inside == map[7 := Caller(false, Entered, true)] && s.data.None? && 7 in s.picks
    ensures var events := [Check(7)] + ([ReadSheet(7, true)] + ([PutData(7)] + ([PutVersion(7)] + [])));
            && ExclusiveRun(s, events, digest)
            && Run(s, events, digest).records
               == s.records + [Record(s.picks[7].(refreshed := Some(s.sheet)), Some(VersionOf(digest, s.sheet)))]
  {
    hide VersionOf;
    var s1 := Next(s, Check(7), digest);
    var s2 := Next(s1, ReadSheet(7, true), digest);
    var s3 := Next(s2, PutData(7), digest);
    OneMoreEvent(s3, PutVersion(7), [], digest);
    OneMoreEvent(s2, PutData(7), [PutVersion(7)] + [], digest);
    OneMoreEvent(s1, ReadSheet(7, true), [PutData(7)] + ([PutVersion(7)] + []), digest);
    OneMoreEvent(s, Check(7), [ReadSheet(7, true)] + ([PutData(7)] + ([PutVersion(7)] + [])), digest);
  }

  /** Its own refresh can be what comes between: the row is of the old table, the version of the one it has read itself. */
  lemma OwnRefreshMismatches(digest: string -> string, first: Table, second: Table)
    requires VersionOf(digest, first) != VersionOf(digest, second)
    ensures exists events ::
              && ExclusiveRun(Cold(first, None), events, digest)
              && var s := Run(Cold(first, None), events, digest);
                 |s.records| == 1 && s.records[0].pick.table == first && s.records[0].pick.missed
                 && s.records[0].version == Some(VersionOf(digest, second))
  {
    hide VersionOf;
    var s0 := Cold(first, None);
    var s1 := DataWritten(s0);
    var s2 := Next(s1, Abort(0), digest);
    var s3 := Next(s2, PickRow(7), digest);
    MissThenRefresh(s3, second, digest);
    OneMoreEvent(s2, PickRow(7), OwnRefresh(second), digest);
    OneMoreEvent(s1, Abort(0), [PickRow(7)] + OwnRefresh(second), digest);
    ToData(s0, [Abort(0)] + ([PickRow(7)] + OwnRefresh(second)), digest);
    hide Next, Enabled, ExclusiveRun;
    assert |Run(s0, ToDataThen([Abort(0)] + ([PickRow(7)] + OwnRefresh(second))), digest).records| == 1;
  }

  // ---------------------------------------------------------------- the code

  /** Waiting for lock:matrix:refresh: time out, or get it, perhaps after another caller's whole refresh. */
  datatype Wait = NeverFree | Got(meanwhile: Option<Table>)

  /** read_all_rows: the grid, or an exception. */
  datatype SheetRead = Unreachable | Rows(grid: P.Grid)

  datatype CacheError = CacheUnavailable | LockTimeout | SheetError

  datatype Refreshed = Refreshed(version: string, rowsLoaded: nat, changed: bool)

  datatype MatrixRow = MatrixRow(prompt: string, referenceUrl: string)

  predicate Matches(v: P.Variant, jewelryType: JewelryType, service: ServiceType) {
    v.jewelryType == TypeText(jewelryType) && v.service == ServiceText(service)
  }

  /** The variants of one combination, in table order. */
  function Matching(t: Table, jewelryType: JewelryType, service: ServiceType): (r: Table)
    ensures forall v :: v in r <==> v in t && v.jewelryType == TypeText(jewelryType) && v.service == ServiceText(service)
  {
    if t == [] then []
    else
      var front, last := Matching(t[..|t| - 1], jewelryType, service), t[|t| - 1];
      if Matches(last, jewelryType, service) then front + [last] else front
  }

  /** A table as the parser reads it from a grid. */
  ghost predicate ParsedFrom(grid: P.Grid, t: Table) {
    if grid == [] then t == [] else exists cells :: P.ParseOf(grid, cells, t)
  }

  /** Two texts of one digest. */
  ghost predicate Collision(digest: string -> string, a: string, b: string) {
    a != b && digest(a) == digest(b)
  }

  /** A prompt or URL that has been edited changes the version, short of a collision. */
  lemma EditChangesVersion(digest: string -> string, a: Table, b: Table)
    requires VersionText.OneEdited(a, b)
    ensures VersionOf(digest, a) != VersionOf(digest, b) || Collision(digest, Canonical(a), Canonical(b))
  {
    VersionText.EditChangesText(a, b);
    hide Canonical;
  }

  /** Two parsed tables of one-line cells that get one version hold the same variants, short of a collision. */
  lemma VersionShowsTable(digest: string -> string, grid1: P.Grid, a: Table, grid2: P.Grid, b: Table)
    requires ParsedFrom(grid1, a) && ParsedFrom(grid2, b)
    requires VersionText.OneLineEach(a) && VersionText.OneLineEach(b)
    requires VersionOf(digest, a) == VersionOf(digest, b)
    ensures || Collision(digest, Canonical(a), Canonical(b))
            || (|a| == |b|
                && forall v :: v in a ==> exists w :: w in b && SameKey(v, w) && VersionText.Content(v) == VersionText.Content(w))
  {
    hide Canonical, P.ParseOf, SameKey, VersionText.Content, VersionText.OneLineEach;
    if Canonical(a) == Canonical(b) {
      forall v | v in a || v in b ensures VersionText.PlainKey(v) {
        if v in a {
          var cells :| P.ParseOf(grid1, cells, a);
          VersionText.ParsedIsPlain(grid1, cells, a, v);
        } else {
          var cells :| P.ParseOf(grid2, cells, b);
          VersionText.ParsedIsPlain(grid2, cells, b, v);
        }
      }
      VersionText.TextShowsTable(a, b);
    }
  }

  class Cache {
    const digest: string -> string
    var data: Option<Table>
    var version: Option<string>
    var sheetReads: nat

    constructor (digest: string -> string, data: Option<Table>, version: Option<string>)
      ensures this.digest == digest && this.data == data && this.version == version && sheetReads == 0
    {
      this.digest, this.data, this.version, sheetReads := digest, data, version, 0;
    }

    /** A call that returns the cached version: it has written nothing. */
    method Cached() returns (r: Refreshed)
      requires data.Some?
      ensures r == Refreshed(version.GetOr(""), |data.value|, false)
    {
      r := Refreshed(version.GetOr(""), |data.value|, false);
    }

    /**
     * `refresh_matrix`. Warm and not forced, before or after the wait: no sheet read, nothing written.
     * A completed read leaves the grid's table with its own version; a failed one leaves all as it was.
     */
    method RefreshMatrix(sheet: Option<SheetRead>, wait: Wait, force: bool) returns (r: Result<Refreshed, CacheError>)
      modifies this
      ensures !force && old(data.Some?) ==>
                && r == Ok(Refreshed(old(version).GetOr(""), |old(data).value|, false))
                && data == old(data) && version == old(version) && sheetReads == old(sheetReads)
      ensures (force || old(data.None?)) && (sheet.None? || wait.NeverFree?) ==>
                && r == Raised(if sheet.None? then CacheUnavailable else LockTimeout)
                && data == old(data) && version == old(version) && sheetReads == old(sheetReads)
      ensures !force && old(data.None?) && sheet.Some? && wait.Got? && wait.meanwhile.Some? ==>
                && data == wait.meanwhile && version == Some(VersionOf(digest, data.value)) && sheetReads == old(sheetReads)
                && r == Ok(Refreshed(version.value, |data.value|, false))
      ensures (force || (old(data.None?) && wait.Got? && wait.meanwhile.None?)) && sheet.Some? && wait.Got? ==>
                var prior := if wait.meanwhile.Some? then Some(VersionOf(digest, wait.meanwhile.value)) else old(version);
                match sheet.value
                case Unreachable =>
                  r == Raised(SheetError) && data == wait.meanwhile.Or(old(data)) && version == prior && sheetReads == old(sheetReads)
                case Rows(grid) =>
                  && data.Some? && ParsedFrom(grid, data.value) && version == Some(VersionOf(digest, data.value))
                  && r == Ok(Refreshed(version.value, |data.value|, prior != version))
                  && sheetReads == old(sheetReads) + 1
      ensures r.Ok? ==> data.Some?
      // the client edits one prompt or URL and an admin forces a refresh: it is noticed, short of a collision
      ensures force && r.Ok? && wait == Got(None)
              && old(data.Some?) && old(version) == Some(VersionOf(digest, old(data).value))
              && VersionText.OneEdited(old(data).value, data.value) ==>
                r.value.changed || Collision(digest, Canonical(old(data).value), Canonical(data.value))
    {
      hide Canonical, P.ParseOf, VersionText.OneEdited;
      if !force {
        if data.Some? {
          var cached := Cached();
          return Ok(cached);
        }
      }
      if sheet.None? {
        return Raised(CacheUnavailable);
      }
      if wait.NeverFree? {
        return Raised(LockTimeout);
      }
      if wait.meanwhile.Some? {
        data, version := wait.meanwhile, Some(VersionOf(digest, wait.meanwhile.value));
      }
      if !force {
        if data.Some? {
          var cached := Cached();
          return Ok(cached);
        }
      }
      if sheet.value.Unreachable? {
        return Raised(SheetError);
      }
      sheetReads := sheetReads + 1;
      var _, _, variants, _, cells := P.ParsePivotMatrix(sheet.value.grid);
      var newVersion := VersionOf(digest, variants);
      var changed := version != Some(newVersion);
      data := Some(variants);
      version := Some(newVersion);
      assert ParsedFrom(sheet.value.grid, variants);
      if old(data.Some?) && VersionText.OneEdited(old(data).value, variants) {
        EditChangesVersion(digest, old(data).value, variants);
      }
      r := Ok(Refreshed(newVersion, |variants|, changed));
    }

    /** `_ensure_cached_variants`: whatever goes wrong on a cold cache is reported as unavailability. */
    method EnsureCachedVariants(sheet: Option<SheetRead>, wait: Wait) returns (r: Result<Table, CacheError>)
      modifies this
      ensures old(data.Some?) ==> data == old(data) && version == old(version) && sheetReads == old(sheetReads)
      ensures r == if data.Some? then Ok(data.value) else Raised(CacheUnavailable)
      ensures old(data.None?) && data.Some? ==> version == Some(VersionOf(digest, data.value))
      ensures old(data.None?) ==>
                (data.Some? <==> sheet.Some? && wait.Got? && (wait.meanwhile.Some? || sheet.value.Rows?))
      ensures sheetReads <= old(sheetReads) + 1
    {
      if data.Some? {
        return Ok(data.value);
      }
      var refreshed := RefreshMatrix(sheet, wait, false);
      if refreshed.Raised? {
        return Raised(CacheUnavailable);
      }
      r := Ok(data.value);
    }

    /**
     * `resolve_matrix_row`, where `choose` is the random choice. None is a real gap in a table that was
     * there to look at; an unavailable table raises instead.
     */
    method ResolveMatrixRow(sheet: Option<SheetRead>, wait: Wait, jewelryType: JewelryType, service: ServiceType,
                            choose: nat -> nat)
      returns (r: Result<Option<MatrixRow>, CacheError>)
      requires forall n :: n > 0 ==> choose(n) < n
      modifies this
      ensures old(data.Some?) ==> data == old(data) && version == old(version) && sheetReads == old(sheetReads)
      ensures old(data.None?) && data.Some? ==> version == Some(VersionOf(digest, data.value))
      ensures r.Raised? <==> data.None?
      ensures r.Ok? && r.value.None? ==> forall v :: v in data.value ==>
                v.jewelryType != TypeText(jewelryType) || v.service != ServiceText(service)
      ensures r.Ok? && r.value.Some? ==>
                exists v :: v in data.value && v.jewelryType == TypeText(jewelryType) && v.service == ServiceText(service)
                            && r.value.value == MatrixRow(v.prompt, v.referenceImageUrl.GetOr(""))
    {
      var variants := EnsureCachedVariants(sheet, wait);
      if variants.Raised? {
        return Raised(variants.error);
      }
      var matches := Matching(variants.value, jewelryType, service);
      if matches == [] {
        forall v | v in data.value ensures !Matches(v, jewelryType, service) {
          assert v !in matches;
        }
        return Ok(None);
      }
      var chosen := matches[choose(|matches|)];
      assert chosen in matches;
      r := Ok(Some(MatrixRow(chosen.prompt, chosen.referenceImageUrl.GetOr(""))));
    }

    /** `current_matrix_version`. */
    method CurrentMatrixVersion(sheet: Option<SheetRead>, wait: Wait) returns (r: Result<string, CacheError>)
      modifies this
      ensures old(version.Some?) ==>
                r == Ok(old(version).value) && data == old(data) && version == old(version) && sheetReads == old(sheetReads)
      ensures old(version.None?) && old(data.Some?) ==> r == Ok("") && data == old(data) && version == old(version)
      ensures old(version.None?) && old(data.None?) && r.Ok? ==>
                data.Some? && r.value == VersionOf(digest, data.value) && version == Some(r.value)
      ensures r.Raised? <==>
                old(version.None?) && old(data.None?)
                && (sheet.None? || wait.NeverFree? || (wait.meanwhile.None? && sheet.value.Unreachable?))
      ensures r.Raised? ==>
                && r.error == (if sheet.None? then CacheUnavailable else if wait.NeverFree? then LockTimeout else SheetError)
                && data == old(data) && version == old(version)
    {
      if version.Some? {
        return Ok(version.value);
      }
      var refreshed := RefreshMatrix(sheet, wait, false);
      if refreshed.Raised? {
        return Raised(refreshed.error);
      }
      r := Ok(refreshed.value.version);
    }

    /**
     * Resolve, then the version, as the resolve stage does, with nobody refreshing in between: from a
     * cache that is cold or consistent, the row stored in a job's snapshot comes from the very table
     * whose digest is stored as its matrix_version.
     */
    method RowWithVersion(sheet: Option<SheetRead>, wait: Wait, jewelryType: JewelryType, service: ServiceType, choose: nat -> nat)
      returns (row: Result<Option<MatrixRow>, CacheError>, recorded: Result<string, CacheError>)
      requires forall n :: n > 0 ==> choose(n) < n
      requires data.Some? ==> version == Some(VersionOf(digest, data.value))
      modifies this
      ensures row.Ok? ==> data.Some? && recorded == Ok(VersionOf(digest, data.value))
      ensures row.Ok? && row.value.Some? ==>
                exists v :: v in data.value && v.jewelryType == TypeText(jewelryType) && v.service == ServiceText(service)
                            && row.value.value == MatrixRow(v.prompt, v.referenceImageUrl.GetOr(""))
    {
      row := ResolveMatrixRow(sheet, wait, jewelryType, service, choose);
      recorded := Raised(CacheUnavailable);
      if row.Ok? {
        recorded := CurrentMatrixVersion(sheet, wait);
      }
    }
  }
}
