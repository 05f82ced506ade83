/** app/services/dedupe.py and its use in app/api/v1/generate.py: what a deduplicated answer guarantees. */
module Dedupe {
  import opened Enums
  import opened Options
  import opened Separators
  import K = ApiKeys

  // ---------------------------------------------------------------- the hashed bytes

  type Bytes = seq<nat>

  const PIPE: nat := 124

  /** str.encode() of text within ASCII. */
  function Encode(s: string): Bytes {
    seq(|s|, i requires 0 <= i < |s| => s[i] as nat)
  }

  datatype Request = Request(image: Bytes, service: ServiceType, requested: Option<JewelryType>, mock: bool)

  function TypeComponent(requested: Option<JewelryType>): string {
    if requested.Some? then TypeText(requested.value) else "AUTO"
  }

  /** What content_hash feeds to SHA-256. It leaves `mock` out. */
  function Preimage(r: Request): Bytes {
    r.image + [PIPE] + Encode(ServiceText(r.service)) + [PIPE] + Encode(TypeComponent(r.requested))
  }

  predicate NoPipe(b: Bytes) {
    forall i :: 0 <= i < |b| ==> b[i] != PIPE
  }

  lemma ServiceTextHasNoPipe(s: ServiceType)
    ensures NoPipe(Encode(ServiceText(s)))
  {
    if OnFemaleModel(s) || OnMaleModel(s) {
      WornOnModelHasNoPipe(s);
    } else if OnMannequin(s) || s.ProductStylingTraditional? || s.ProductStylingModern? {
      StyledHasNoPipe(s);
    } else {
      EditedHasNoPipe(s);
    }
    hide ServiceText;
  }

  predicate OnFemaleModel(s: ServiceType) {
    s.FemaleModelTraditional? || s.FemaleModelModern?
  }

  predicate OnMaleModel(s: ServiceType) {
    s.MaleModelTraditional? || s.MaleModelModern?
  }

  predicate OnMannequin(s: ServiceType) {
    s.MannequinTraditional? || s.MannequinModern?
  }

  lemma WornOnModelHasNoPipe(s: ServiceType)
    requires OnFemaleModel(s) || OnMaleModel(s)
    ensures NoPipe(Encode(ServiceText(s)))
  {
  }

  lemma StyledHasNoPipe(s: ServiceType)
    requires OnMannequin(s) || s.ProductStylingTraditional? || s.ProductStylingModern?
    ensures NoPipe(Encode(ServiceText(s)))
  {
  }

  lemma EditedHasNoPipe(s: ServiceType)
    requires s.RemoveBg? || s.ChangeBg? || s.MixPieces?
    ensures NoPipe(Encode(ServiceText(s)))
  {
  }

  lemma TypeComponentHasNoPipe(requested: Option<JewelryType>)
    ensures NoPipe(Encode(TypeComponent(requested)))
  {
  }

  lemma EncodeInjective(s: string, t: string)
    requires Encode(s) == Encode(t)
    ensures s == t
  {
    forall i | 0 <= i < |s| ensures s[i] == t[i] {
      assert Encode(s)[i] == Encode(t)[i];
    }
  }

  lemma TypeComponentInjective(a: Option<JewelryType>, b: Option<JewelryType>)
    requires TypeComponent(a) == TypeComponent(b)
    ensures a == b
  {
    if a.Some? && b.Some? {
      TypeTextInjective(a.value, b.value);
    } else {
      assert TypeComponent(a)[0] == TypeComponent(b)[0] && TypeComponent(a)[1] == TypeComponent(b)[1];
    }
  }

  /** Equal preimages: exactly the same image, service and requested type, even if the image contains separators. */
  lemma PreimageInjective(a: Request, b: Request)
    ensures Preimage(a) == Preimage(b) <==> a.image == b.image && a.service == b.service && a.requested == b.requested
  {
    if Preimage(a) == Preimage(b) {
      EqualParts(a, b);
    }
  }

  lemma EqualParts(a: Request, b: Request)
    requires Preimage(a) == Preimage(b)
    ensures a.image == b.image && a.service == b.service && a.requested == b.requested
  {
    var sa, sb := Encode(ServiceText(a.service)), Encode(ServiceText(b.service));
    var ta, tb := Encode(TypeComponent(a.requested)), Encode(TypeComponent(b.requested));
    TypeComponentHasNoPipe(a.requested);
    TypeComponentHasNoPipe(b.requested);
    ServiceTextHasNoPipe(a.service);
    ServiceTextHasNoPipe(b.service);
    assert PIPE !in sa && PIPE !in sb && PIPE !in ta && PIPE !in tb;
    LastSplits(PIPE, a.image + [PIPE] + sa, ta, b.image + [PIPE] + sb, tb);
    LastSplits(PIPE, a.image, sa, b.image, sb);
    EncodeInjective(ServiceText(a.service), ServiceText(b.service));
    ServiceTextInjective(a.service, b.service);
    EncodeInjective(TypeComponent(a.requested), TypeComponent(b.requested));
    TypeComponentInjective(a.requested, b.requested);
    hide ServiceText, TypeComponent, Encode, NoPipe;
  }

  // ---------------------------------------------------------------- runs

  /** A stored job, as far as the dedupe check looks at it. */
  datatype Record = Record(contentHash: string, mock: bool, service: ServiceType, requested: Option<JewelryType>, status: JobStatus)

  /** A request between its lookup of the dedupe key and its answer. */
  datatype Asking = Asking(request: Request, found: Option<string>)

  /** An answer: to what, naming which job, and the record get_job had just read. */
  datatype Answer = Answer(request: Request, id: string, deduplicated: bool, seen: Option<Record>)

  /** `origin` is the request each job was created for; it outlives the record. */
  datatype State = State(
    jobs: map<string, Record>,
    dedupe: map<string, string>,
    origin: map<string, Request>,
    asking: map<nat, Asking>,
    answers: seq<Answer>)

  datatype Event =
    | Lookup(id: nat, request: Request)
    | Decide(id: nat, newId: string)
    | GiveUp(id: nat)
    // any writer, at any time, however stale: a status, or the call of record_dedupe after one
    | WriteStatus(job: string, status: JobStatus)
    | RecordDedupe(job: string, status: JobStatus)
    | LoseRecord(job: string)
    | Rehydrate(job: string)
    | ExpireKey(hash: string)

  const NONE := State(map[], map[], map[], map[], [])

  function ContentHash(sha: Bytes -> string, r: Request): string {
    sha(Preimage(r))
  }

  function NewRecord(sha: Bytes -> string, r: Request, status: JobStatus): Record {
    Record(ContentHash(sha, r), r.mock, r.service, r.requested, status)
  }

  predicate Enabled(s: State, e: Event) {
    match e
    case Lookup(id, _) => id !in s.asking
    case Decide(id, newId) => id in s.asking && newId !in s.origin
    case GiveUp(id) => id in s.asking
    case WriteStatus(job, _) => job in s.jobs
    case RecordDedupe(job, _) => job in s.origin
    case LoseRecord(job) => job in s.jobs
    case Rehydrate(job) => job in s.origin && job !in s.jobs
    case ExpireKey(hash) => hash in s.dedupe
  }

  /** The condition under which the route answers with the job it found. */
  predicate Hits(s: State, a: Asking) {
    && a.found.Some? && a.found.value in s.jobs
    && s.jobs[a.found.value].status == Succeeded && s.jobs[a.found.value].mock == a.request.mock
  }

  function Next(s: State, e: Event, sha: Bytes -> string): State
    requires Enabled(s, e)
  {
    match e
    case Lookup(id, request) =>
      var hash := ContentHash(sha, request);
      s.(asking := s.asking[id := Asking(request, if hash in s.dedupe then Some(s.dedupe[hash]) else None)])
    case Decide(id, newId) =>
      var a := s.asking[id];
      if Hits(s, a) then
        s.(asking := s.asking - {id},
           answers := s.answers + [Answer(a.request, a.found.value, true, Some(s.jobs[a.found.value]))])
      else
        s.(asking := s.asking - {id},
           origin := s.origin[newId := a.request],
           jobs := s.jobs[newId := NewRecord(sha, a.request, Queued)],
           answers := s.answers + [Answer(a.request, newId, false, None)])
    case GiveUp(id) => s.(asking := s.asking - {id})
    case WriteStatus(job, status) => s.(jobs := s.jobs[job := s.jobs[job].(status := status)])
    case RecordDedupe(job, status) =>
      // record_dedupe, called with the fields of some copy of the job
      if status != Succeeded || s.origin[job].mock then s
      else s.(dedupe := s.dedupe[ContentHash(sha, s.origin[job]) := job])
    case LoseRecord(job) => s.(jobs := s.jobs - {job})
    case Rehydrate(job) => s.(jobs := s.jobs[job := NewRecord(sha, s.origin[job], NeedsReview)])
    case ExpireKey(hash) => s.(dedupe := s.dedupe - {hash})
  }

  ghost predicate Possible(s: State, events: seq<Event>, sha: Bytes -> string)
    decreases |events|
  {
    events == [] || (Enabled(s, events[0]) && Possible(Next(s, events[0], sha), events[1..], sha))
  }

  ghost function Run(s: State, events: seq<Event>, sha: Bytes -> string): State
    requires Possible(s, events, sha)
    decreases |events|
  {
    if events == [] then s else Run(Next(s, events[0], sha), events[1..], sha)
  }

  /** A job that could stand in for a request with this hash. */
  ghost predicate StandsFor(s: State, id: string, hash: string, sha: Bytes -> string) {
    id in s.origin && !s.origin[id].mock && ContentHash(sha, s.origin[id]) == hash
  }

  ghost predicate AnswerIsSound(s: State, a: Answer, sha: Bytes -> string) {
    a.deduplicated ==>
      && a.seen.Some? && a.seen.value.status == Succeeded && !a.seen.value.mock && !a.request.mock
      && StandsFor(s, a.id, ContentHash(sha, a.request), sha)
      && a.seen.value == NewRecord(sha, s.origin[a.id], Succeeded)
  }

  ghost predicate DedupeInv(s: State, sha: Bytes -> string) {
    && (forall id :: id in s.jobs ==> id in s.origin && s.jobs[id] == NewRecord(sha, s.origin[id], s.jobs[id].status))
    && (forall hash :: hash in s.dedupe ==> StandsFor(s, s.dedupe[hash], hash, sha))
    && (forall id :: id in s.asking && s.asking[id].found.Some? ==>
          StandsFor(s, s.asking[id].found.value, ContentHash(sha, s.asking[id].request), sha))
    && (forall a :: a in s.answers ==> AnswerIsSound(s, a, sha))
  }

  lemma OriginsStay(s: State, e: Event, sha: Bytes -> string)
    requires Enabled(s, e)
    ensures var t := Next(s, e, sha); forall id :: id in s.origin ==> id in t.origin && t.origin[id] == s.origin[id]
  {
  }

  lemma StepKeepsRecords(s: State, e: Event, sha: Bytes -> string)
    requires DedupeInv(s, sha) && Enabled(s, e)
    ensures var t := Next(s, e, sha);
            forall id :: id in t.jobs ==> id in t.origin && t.jobs[id] == NewRecord(sha, t.origin[id], t.jobs[id].status)
  {
    hide ContentHash, StandsFor, AnswerIsSound, Hits;
  }

  lemma StepKeepsKeys(s: State, e: Event, sha: Bytes -> string)
    requires DedupeInv(s, sha) && Enabled(s, e)
    ensures var t := Next(s, e, sha);
            && (forall hash :: hash in t.dedupe ==> StandsFor(t, t.dedupe[hash], hash, sha))
            && (forall id :: id in t.asking && t.asking[id].found.Some? ==>
                  StandsFor(t, t.asking[id].found.value, ContentHash(sha, t.asking[id].request), sha))
  {
    OriginsStay(s, e, sha);
    hide ContentHash, AnswerIsSound, Hits, NewRecord;
  }

  lemma StepKeepsAnswers(s: State, e: Event, sha: Bytes -> string, a: Answer)
    requires DedupeInv(s, sha) && Enabled(s, e) && a in Next(s, e, sha).answers
    ensures AnswerIsSound(Next(s, e, sha), a, sha)
  {
    OriginsStay(s, e, sha);
    assert a in s.answers ==> AnswerIsSound(s, a, sha);
    hide ContentHash;
  }

  lemma StepKeepsDedupeInv(s: State, e: Event, sha: Bytes -> string)
    requires DedupeInv(s, sha) && Enabled(s, e)
    ensures DedupeInv(Next(s, e, sha), sha)
  {
    StepKeepsRecords(s, e, sha);
    StepKeepsKeys(s, e, sha);
    forall a | a in Next(s, e, sha).answers ensures AnswerIsSound(Next(s, e, sha), a, sha) {
      StepKeepsAnswers(s, e, sha, a);
    }
    hide Next, Enabled, StandsFor, AnswerIsSound, ContentHash;
  }

  lemma {:induction false} RunKeepsDedupeInv(s: State, events: seq<Event>, sha: Bytes -> string)
    requires DedupeInv(s, sha) && Possible(s, events, sha)
    ensures DedupeInv(Run(s, events, sha), sha)
    decreases |events|
  {
    hide DedupeInv, Enabled, Next;
    if events != [] {
      StepKeepsDedupeInv(s, events[0], sha);
      RunKeepsDedupeInv(Next(s, events[0], sha), events[1..], sha);
    }
  }

  predicate Collide(sha: Bytes -> string, x: Bytes, y: Bytes) {
    x != y && sha(x) == sha(y)
  }

  /**
   * In every run, whoever writes statuses when: an answer with `deduplicated` true names a job that was
   * stored as succeeded and is not a mock, answers a request that is not a mock, and the job was created
   * for the same image, service and requested type, or else the two are a collision of SHA-256.
   */
  lemma DeduplicatedMeansSameWork(events: seq<Event>, sha: Bytes -> string, a: Answer)
    requires Possible(NONE, events, sha) && a in Run(NONE, events, sha).answers && a.deduplicated
    ensures var s := Run(NONE, events, sha);
            && a.seen.Some? && a.seen.value.status == Succeeded && !a.seen.value.mock && !a.request.mock
            && a.id in s.origin
            && (|| Collide(sha, Preimage(s.origin[a.id]), Preimage(a.request))
                || (s.origin[a.id] == a.request
                    && a.seen.value.service == a.request.service && a.seen.value.requested == a.request.requested))
  {
    var s := Run(NONE, events, sha);
    RunKeepsDedupeInv(NONE, events, sha);
    assert AnswerIsSound(s, a, sha);
    if Preimage(s.origin[a.id]) == Preimage(a.request) {
      PreimageInjective(s.origin[a.id], a.request);
    }
    hide Preimage, DedupeInv, Run, Possible;
  }

  /**
   * R3 and R6 the other way round: once a succeeded job that is not a mock has been recorded, the next
   * request for the same image, service and type gets it if it is no mock itself, and a job of its own
   * if it is.
   */
  lemma RecordedIsFound(s: State, job: string, id: nat, request: Request, newId: string, sha: Bytes -> string)
    requires DedupeInv(s, sha) && job in s.jobs && id !in s.asking && newId !in s.origin
    requires s.jobs[job].status == Succeeded && !s.jobs[job].mock
    requires job in s.origin && request.image == s.origin[job].image
    requires request.service == s.jobs[job].service && request.requested == s.jobs[job].requested
    ensures var t := Next(s, RecordDedupe(job, Succeeded), sha);
            && Enabled(t, Lookup(id, request))
            && var u := Next(t, Lookup(id, request), sha);
               && Enabled(u, Decide(id, newId))
               && Next(u, Decide(id, newId), sha).answers
                  == s.answers + [if request.mock then Answer(request, newId, false, None)
                                  else Answer(request, job, true, Some(s.jobs[job]))]
  {
    PreimageInjective(request, s.origin[job]);
    assert ContentHash(sha, request) == ContentHash(sha, s.origin[job]);
    hide Preimage, ContentHash, StandsFor, AnswerIsSound;
    var t := Next(s, RecordDedupe(job, Succeeded), sha);
    assert t == s.(dedupe := s.dedupe[ContentHash(sha, request) := job]);
  }

  /** What has not succeeded, or is a mock, is never recorded. */
  lemma OnlySuccessIsRecorded(s: State, job: string, status: JobStatus, sha: Bytes -> string)
    requires job in s.origin && (status != Succeeded || s.origin[job].mock)
    ensures Next(s, RecordDedupe(job, status), sha) == s
  {
  }

  // ---------------------------------------------------------------- idempotency keys

  function IdemKey(apiKeyName: string, idempotencyKey: string): string {
    "idem:" + apiKeyName + ":" + idempotencyKey
  }

  lemma SameNameSameKey(name: string, k1: string, k2: string)
    requires IdemKey(name, k1) == IdemKey(name, k2)
    ensures k1 == k2
  {
    var n := |name| + 6;
    assert IdemKey(name, k1)[n..] == k1 && IdemKey(name, k2)[n..] == k2;
  }

  lemma ClashNeedsPrefix(a: string, b: string, k1: string, k2: string)
    requires IdemKey(a, k1) == IdemKey(b, k2) && a != b && |a| <= |b|
    ensures a + [':'] <= b
  {
    var k := IdemKey(a, k1);
    assert k[5..] == a + [':'] + k1 && k[5..] == b + [':'] + k2;
    assert k[5..][..|a|] == a && k[5..][..|b|] == b;
    assert b[..|a|] == a;
    assert k[5..][|a|] == ':';
  }

  /** Two names' idempotency records could coincide only if one name continued the other after a colon. */
  lemma ClientsShareNoKeyUnlessPrefixed(a: string, b: string)
    requires a != b
    ensures (exists k1, k2 :: k1 != "" && k2 != "" && IdemKey(a, k1) == IdemKey(b, k2))
            <==> a + [':'] <= b || b + [':'] <= a
  {
    if k1, k2 :| k1 != "" && k2 != "" && IdemKey(a, k1) == IdemKey(b, k2) {
      if |a| <= |b| {
        ClashNeedsPrefix(a, b, k1, k2);
      } else {
        ClashNeedsPrefix(b, a, k2, k1);
      }
    }
    if a + [':'] <= b {
      var rest := b[|a| + 1..];
      assert IdemKey(a, rest + ":x") == IdemKey(b, "x");
    }
    if b + [':'] <= a {
      var rest := a[|b| + 1..];
      assert IdemKey(a, "x") == IdemKey(b, rest + ":x");
    }
  }

  lemma IdemKeySplits(a: string, b: string, k1: string, k2: string)
    requires IdemKey(a, k1) == IdemKey(b, k2) && ':' !in a && ':' !in b
    ensures a == b && k1 == k2
  {
    assert IdemKey(a, k1)[5..] == a + [':'] + k1 && IdemKey(b, k2)[5..] == b + [':'] + k2;
    FirstSplits(':', a, k1, b, k2);
  }

  /** But no client's name has a colon: whatever API_KEYS says and is reloaded to, two clients never share a record. */
  lemma ClientsShareNoRecord(sha: string -> string, raw1: string, keys1: map<string, string>, plaintext1: string, k1: string,
                             raw2: string, keys2: map<string, string>, plaintext2: string, k2: string)
    requires K.ParsesTo(raw1, sha, Ok(keys1)) && K.ParsesTo(raw2, sha, Ok(keys2))
    requires var a, b := K.VerifyKey(plaintext1, keys1, sha), K.VerifyKey(plaintext2, keys2, sha);
             a.Some? && b.Some? && IdemKey(a.value, k1) == IdemKey(b.value, k2)
    ensures K.VerifyKey(plaintext1, keys1, sha) == K.VerifyKey(plaintext2, keys2, sha) && k1 == k2
  {
    var a, b := K.VerifyKey(plaintext1, keys1, sha).value, K.VerifyKey(plaintext2, keys2, sha).value;
    K.ClientNamesHaveNoColon(raw1, keys1, plaintext1, sha);
    K.ClientNamesHaveNoColon(raw2, keys2, plaintext2, sha);
    IdemKeySplits(a, b, k1, k2);
    hide *;
  }
}
