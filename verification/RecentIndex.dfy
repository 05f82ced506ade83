/** The jobs:recent sorted set of app/store/redis_store.py: trimming on each insert equals trimming once. */
module RecentIndex {
  import opened Orders
  import opened Text

  const RECENT_CAP: nat := 500

  /** A member and its score, the job's created_at in microseconds. */
  datatype Entry = Entry(score: nat, id: string)

  /** Redis orders by score, then by member. */
  predicate EntryLess(a: Entry, b: Entry) {
    a.score < b.score || (a.score == b.score && TextLess(a.id, b.id))
  }

  lemma EntryLessIsStrict()
    ensures StrictOrder(EntryLess)
  {
    forall a ensures !EntryLess(a, a) {
      TextLessIrreflexive(a.id);
    }
    forall a, b, c | EntryLess(a, b) && EntryLess(b, c) ensures EntryLess(a, c) {
      if a.score == b.score == c.score {
        TextLessTransitive(a.id, b.id, c.id);
      }
    }
  }

  lemma NotBelow(a: Entry, b: Entry, e: Entry)
    requires EntryLess(a, b) && !EntryLess(a, e)
    ensures !EntryLess(b, e)
  {
    EntryLessIsStrict();
  }

  lemma EntryLessTotal(a: Entry, b: Entry)
    ensures a == b || EntryLess(a, b) || EntryLess(b, a)
  {
    TextLessTotal(a.id, b.id);
  }

  /** ZREMRANGEBYRANK key 0 -(n + 1): only the n highest ranks stay. */
  function LastN(s: seq<Entry>, n: nat): (r: seq<Entry>)
    ensures |r| <= n && |r| <= |s|
  {
    if |s| <= n then s else s[|s| - n..]
  }

  function Without(s: seq<Entry>, id: string): seq<Entry> {
    if s == [] then [] else if s[0].id == id then Without(s[1..], id) else [s[0]] + Without(s[1..], id)
  }

  /** ZADD: a member already there gets the new score. */
  function ZAdd(s: seq<Entry>, e: Entry): seq<Entry> {
    Insert(EntryLess, Without(s, e.id), e)
  }

  /** What one create_job does to the index. */
  function AfterCreate(s: seq<Entry>, e: Entry): seq<Entry> {
    LastN(ZAdd(s, e), RECENT_CAP)
  }

  /** The index after creating these jobs, in this order. */
  function AfterCreates(s: seq<Entry>, created: seq<Entry>): seq<Entry> {
    if created == [] then s else AfterCreate(AfterCreates(s, created[..|created| - 1]), created[|created| - 1])
  }

  ghost predicate DistinctIds(s: seq<Entry>) {
    forall i, j :: 0 <= i < j < |s| ==> s[i].id != s[j].id
  }

  lemma {:induction false} WithoutAbsent(s: seq<Entry>, id: string)
    requires forall e :: e in s ==> e.id != id
    ensures Without(s, id) == s
  {
    if s != [] {
      assert s[0] in s;
      WithoutAbsent(s[1..], id);
    }
  }

  lemma {:induction false} WithoutKeepsDistinct(s: seq<Entry>, id: string)
    requires DistinctIds(s)
    ensures DistinctIds(Without(s, id))
    ensures forall e :: e in Without(s, id) ==> e in s && e.id != id
  {
    if s != [] {
      WithoutKeepsDistinct(s[1..], id);
      assert forall e :: e in s[1..] ==> e.id != s[0].id;
    }
  }

  lemma {:induction false} InsertKeepsDistinct(s: seq<Entry>, e: Entry)
    requires DistinctIds(s) && forall x :: x in s ==> x.id != e.id
    ensures DistinctIds(Insert(EntryLess, s, e))
  {
    hide EntryLess;
    if s == [] || !EntryLess(s[0], e) {
      assert forall i :: 0 <= i < |s| ==> s[i] in s;
    } else {
      assert forall x :: x in s[1..] ==> x in s && x.id != s[0].id;
      InsertKeepsDistinct(s[1..], e);
      var rest := Insert(EntryLess, s[1..], e);
      forall i | 0 <= i < |rest| ensures rest[i].id != s[0].id {
        InsertHas(EntryLess, s[1..], e, rest[i]);
      }
    }
  }

  /** The index never holds a job twice. */
  lemma AfterCreateKeepsDistinct(s: seq<Entry>, e: Entry)
    requires DistinctIds(s)
    ensures DistinctIds(AfterCreate(s, e))
  {
    WithoutKeepsDistinct(s, e.id);
    InsertKeepsDistinct(Without(s, e.id), e);
    hide Insert, Without, EntryLess;
  }

  lemma LastNOfTail(s: seq<Entry>, n: nat, k: nat)
    requires k + n <= |s|
    ensures LastN(s[k..], n) == LastN(s, n)
  {
  }

  /** Trimming before an insert loses nothing that the trim after it would keep. */
  lemma {:induction false} TrimThenInsert(s: seq<Entry>, e: Entry, n: nat)
    requires Ascending(EntryLess, s) && n > 0
    ensures LastN(Insert(EntryLess, LastN(s, n), e), n) == LastN(Insert(EntryLess, s, e), n)
  {
    hide EntryLess, Insert;
    if |s| > n {
      var t := s[1..];
      TrimThenInsert(t, e, n);
      LastNOfTail(s, n, 1);
      InsertDropsFirst(s, e);
      LastNOfTail(Insert(EntryLess, s, e), n, 2);
      LastNOfTail(Insert(EntryLess, t, e), n, 1);
    }
  }

  /** Insert into a list longer by one smallest element: the same list again, below its first place or two. */
  lemma InsertDropsFirst(s: seq<Entry>, e: Entry)
    requires s != [] && Ascending(EntryLess, s)
    ensures Insert(EntryLess, s, e)[2..] == Insert(EntryLess, s[1..], e)[1..]
    ensures EntryLess(s[0], e) ==> Insert(EntryLess, s, e)[1..] == Insert(EntryLess, s[1..], e)
  {
    EntryLessIsStrict();
    if !EntryLess(s[0], e) {
      assert Insert(EntryLess, s, e) == [e] + s;
      if |s| > 1 {
        NotBelow(s[0], s[1], e);
      }
      assert Insert(EntryLess, s[1..], e) == [e] + s[1..];
    }
  }

  lemma {:induction false} SortedAscending(created: seq<Entry>)
    requires DistinctIds(created)
    ensures Ascending(EntryLess, Sorted(EntryLess, created))
  {
    EntryLessIsStrict();
    if created != [] {
      SortedAscending(created[1..]);
      forall y | y in Sorted(EntryLess, created[1..]) ensures EntryLess(created[0], y) || EntryLess(y, created[0]) {
        SortedHas(EntryLess, created[1..], y);
        var i :| 0 <= i < |created[1..]| && created[1..][i] == y;
        assert created[i + 1] == y;
        EntryLessTotal(created[0], y);
      }
      InsertKeepsAscending(EntryLess, Sorted(EntryLess, created[1..]), created[0]);
    }
  }

  /** Sorting does not depend on the order of insertion. */
  lemma SortedSnoc(created: seq<Entry>, e: Entry)
    requires DistinctIds(created + [e])
    ensures Sorted(EntryLess, created + [e]) == Insert(EntryLess, Sorted(EntryLess, created), e)
  {
    EntryLessIsStrict();
    var all := created + [e];
    assert forall i :: 0 <= i < |created| ==> all[i] == created[i];
    assert DistinctIds(created);
    SortedAscending(created);
    SortedAscending(all);
    forall y | y in Sorted(EntryLess, created) ensures EntryLess(e, y) || EntryLess(y, e) {
      SortedHas(EntryLess, created, y);
      var i :| 0 <= i < |created| && created[i] == y;
      assert all[i].id != all[|created|].id;
      EntryLessTotal(e, y);
    }
    InsertKeepsAscending(EntryLess, Sorted(EntryLess, created), e);
    forall x ensures x in Sorted(EntryLess, all) <==> x in Insert(EntryLess, Sorted(EntryLess, created), e) {
      SortedHas(EntryLess, all, x);
      SortedHas(EntryLess, created, x);
      InsertHas(EntryLess, Sorted(EntryLess, created), e, x);
    }
    AscendingIsUnique(EntryLess, Sorted(EntryLess, all), Insert(EntryLess, Sorted(EntryLess, created), e));
  }

  /** After any creates with distinct ids, in any order of timestamps, the index is the 500 greatest ever. */
  lemma {:induction false} IndexIsNewest(created: seq<Entry>)
    requires DistinctIds(created)
    ensures AfterCreates([], created) == LastN(Sorted(EntryLess, created), 500)
  {
    if created != [] {
      var before, e := created[..|created| - 1], created[|created| - 1];
      assert created == before + [e];
      IndexIsNewest(before);
      var sorted := Sorted(EntryLess, before);
      SortedAscending(before);
      var index := LastN(sorted, RECENT_CAP);
      forall x | x in index ensures x.id != e.id {
        SortedHas(EntryLess, before, x);
        var i :| 0 <= i < |before| && before[i] == x;
        assert created[i] == x;
      }
      WithoutAbsent(index, e.id);
      TrimThenInsert(sorted, e, RECENT_CAP);
      SortedSnoc(before, e);
    }
  }

  lemma DroppedIsLower(s: seq<Entry>, n: nat, kept: Entry, dropped: Entry)
    requires Ascending(EntryLess, s) && kept in LastN(s, n) && dropped in s && dropped !in LastN(s, n)
    ensures kept in s && EntryLess(dropped, kept) && |LastN(s, n)| == n
  {
    hide EntryLess;
    var i :| 0 <= i < |s| && s[i] == dropped;
    var j :| 0 <= j < |LastN(s, n)| && LastN(s, n)[j] == kept;
    assert s[|s| - |LastN(s, n)| + j] == kept;
  }

  /** ... that is, whatever was dropped is older than everything kept, and nothing is dropped below the cap. */
  lemma KeptAreNewer(created: seq<Entry>, kept: Entry, dropped: Entry)
    requires DistinctIds(created)
    requires kept in AfterCreates([], created) && dropped in created && dropped !in AfterCreates([], created)
    ensures kept in created && |AfterCreates([], created)| == 500
    ensures dropped.score < kept.score || (dropped.score == kept.score && TextLess(dropped.id, kept.id))
  {
    IndexIsNewest(created);
    SortedAscending(created);
    SortedHas(EntryLess, created, kept);
    SortedHas(EntryLess, created, dropped);
    DroppedIsLower(Sorted(EntryLess, created), RECENT_CAP, kept, dropped);
  }
}
