/** Sequences in strictly ascending order, insertion into them, and why they are determined by their members. */
module Orders {
  ghost predicate StrictOrder<T(!new)>(less: (T, T) -> bool) {
    && (forall a :: !less(a, a))
    && (forall a, b, c :: less(a, b) && less(b, c) ==> less(a, c))
  }

  ghost predicate Ascending<T>(less: (T, T) -> bool, s: seq<T>) {
    forall i, j :: 0 <= i < j < |s| ==> less(s[i], s[j])
  }

  lemma TailMembers<T(!new)>(less: (T, T) -> bool, s: seq<T>, x: T)
    requires StrictOrder(less) && s != [] && Ascending(less, s)
    ensures x in s[1..] <==> x in s && x != s[0]
  {
    if x in s && x != s[0] {
      var i :| 0 <= i < |s| && s[i] == x;
      assert s[1..][i - 1] == x;
    }
  }

  /** Two ascending sequences with the same members are the same sequence. */
  lemma {:induction false} AscendingIsUnique<T(!new)>(less: (T, T) -> bool, a: seq<T>, b: seq<T>)
    requires StrictOrder(less) && Ascending(less, a) && Ascending(less, b)
    requires forall x :: x in a <==> x in b
    ensures a == b
  {
    if a != [] {
      assert a[0] in b;
    }
    if b != [] {
      assert b[0] in a;
      assert a[0] == b[0];
      forall x ensures x in a[1..] <==> x in b[1..] {
        TailMembers(less, a, x);
        TailMembers(less, b, x);
      }
      AscendingIsUnique(less, a[1..], b[1..]);
    }
  }

  /** Put x before the first element that is not less than it: with Sorted, a stable sort. */
  function Insert<T>(less: (T, T) -> bool, s: seq<T>, x: T): (r: seq<T>)
    ensures |r| == |s| + 1
  {
    if s == [] || !less(s[0], x) then [x] + s else [s[0]] + Insert(less, s[1..], x)
  }

  function Sorted<T>(less: (T, T) -> bool, s: seq<T>): (r: seq<T>)
    ensures |r| == |s|
  {
    if s == [] then [] else Insert(less, Sorted(less, s[1..]), s[0])
  }

  lemma {:induction false} InsertMembers<T>(less: (T, T) -> bool, s: seq<T>, x: T)
    ensures multiset(Insert(less, s, x)) == multiset(s) + multiset{x}
  {
    if s == [] || !less(s[0], x) {
    } else {
      InsertMembers(less, s[1..], x);
      assert s == [s[0]] + s[1..];
    }
  }

  lemma {:induction false} SortedMembers<T>(less: (T, T) -> bool, s: seq<T>)
    ensures multiset(Sorted(less, s)) == multiset(s)
  {
    if s != [] {
      SortedMembers(less, s[1..]);
      InsertMembers(less, Sorted(less, s[1..]), s[0]);
      assert s == [s[0]] + s[1..];
    }
  }

  lemma SortedHas<T>(less: (T, T) -> bool, s: seq<T>, x: T)
    ensures x in Sorted(less, s) <==> x in s
  {
    SortedMembers(less, s);
    assert x in multiset(Sorted(less, s)) <==> x in multiset(s);
  }

  lemma InsertHas<T>(less: (T, T) -> bool, s: seq<T>, x: T, y: T)
    ensures y in Insert(less, s, x) <==> y == x || y in s
  {
    InsertMembers(less, s, x);
    assert y in multiset(Insert(less, s, x)) <==> y in multiset(s) + multiset{x};
  }

  /** Inserting an element comparable with all others keeps the order strict. */
  lemma {:induction false} InsertKeepsAscending<T(!new)>(less: (T, T) -> bool, s: seq<T>, x: T)
    requires StrictOrder(less) && Ascending(less, s)
    requires forall y :: y in s ==> less(x, y) || less(y, x)
    ensures Ascending(less, Insert(less, s, x))
  {
    if s == [] {
    } else if !less(s[0], x) {
      assert s[0] in s && less(x, s[0]);
    } else {
      assert forall y :: y in s[1..] ==> y in s;
      InsertKeepsAscending(less, s[1..], x);
      var r := Insert(less, s[1..], x);
      forall i | 0 <= i < |r| ensures less(s[0], r[i]) {
        InsertHas(less, s[1..], x, r[i]);
      }
    }
  }
}
