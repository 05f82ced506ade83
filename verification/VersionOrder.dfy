/** When the hashed text of a matrix depends on the order its variants were read in: exactly, for any variants. */
module VersionOrder {
  import opened MatrixVersion
  import opened Orders
  import P = PivotParser

  /** The text of one variant with the line break after it. */
  function LineOf(v: P.Variant): string {
    Line(v) + "\n"
  }

  function Lines(vs: seq<P.Variant>): string {
    if vs == [] then "" else LineOf(vs[0]) + Lines(vs[1..])
  }

  lemma {:induction false} JoinedIsLines(vs: seq<P.Variant>)
    requires vs != []
    ensures Lines(vs) == Joined(vs) + "\n"
  {
    hide Line;
    if |vs| > 1 {
      JoinedIsLines(vs[1..]);
      assert Line(vs[0]) + "\n" + (Joined(vs[1..]) + "\n") == Line(vs[0]) + "\n" + Joined(vs[1..]) + "\n";
    }
  }

  lemma {:induction false} LinesJoin(a: seq<P.Variant>, b: seq<P.Variant>)
    ensures Lines(a + b) == Lines(a) + Lines(b)
  {
    hide LineOf;
    if a == [] {
      assert a + b == b;
    } else {
      assert (a + b)[1..] == a[1..] + b;
      LinesJoin(a[1..], b);
      assert LineOf(a[0]) + (Lines(a[1..]) + Lines(b)) == LineOf(a[0]) + Lines(a[1..]) + Lines(b);
    }
  }

  /** Whichever of the two lines comes first, the text is the same. */
  predicate Commute(a: P.Variant, b: P.Variant) {
    LineOf(a) + LineOf(b) == LineOf(b) + LineOf(a)
  }

  /** Any two variants with one key do. */
  ghost predicate ClashesCommute(vs: seq<P.Variant>) {
    forall a, b :: a in vs && b in vs && SameKey(a, b) ==> Commute(a, b)
  }

  // ---------------------------------------------------------------- the sort

  /** In the order of the keys, equal ones anywhere. */
  ghost predicate InKeyOrder(s: seq<P.Variant>) {
    forall i, j :: 0 <= i < j < |s| ==> !KeyLess(s[j], s[i])
  }

  lemma KeyLessThrough(a: P.Variant, b: P.Variant, c: P.Variant)
    requires KeyLess(a, c)
    ensures KeyLess(a, b) || KeyLess(b, c)
  {
    KeyLessTotal(a, b);
    KeyLessTotal(b, c);
    KeyLessIsStrict();
  }

  lemma {:induction false} InsertKeepsKeyOrder(s: seq<P.Variant>, x: P.Variant)
    requires InKeyOrder(s)
    ensures InKeyOrder(Insert(KeyLess, s, x))
  {
    KeyLessIsStrict();
    hide KeyLess;
    var r := Insert(KeyLess, s, x);
    if s == [] {
    } else if !KeyLess(s[0], x) {
      forall y | y in s ensures !KeyLess(y, x) {
        if KeyLess(y, x) {
          KeyLessThrough(y, s[0], x);
        }
      }
    } else {
      InsertKeepsKeyOrder(s[1..], x);
      var rest := Insert(KeyLess, s[1..], x);
      forall i | 0 <= i < |rest| ensures !KeyLess(rest[i], s[0]) {
        InsertHas(KeyLess, s[1..], x, rest[i]);
      }
    }
  }

  lemma {:induction false} SortedIsInKeyOrder(vs: seq<P.Variant>)
    ensures InKeyOrder(Sorted(KeyLess, vs))
  {
    if vs != [] {
      SortedIsInKeyOrder(vs[1..]);
      InsertKeepsKeyOrder(Sorted(KeyLess, vs[1..]), vs[0]);
    }
  }

  /** The sort is stable: two variants of one key end up side by side, in the order they came. */
  lemma {:induction false} InsertPair(s: seq<P.Variant>, a: P.Variant, b: P.Variant) returns (p: nat)
    requires SameKey(a, b)
    ensures p <= |s|
    ensures Insert(KeyLess, Insert(KeyLess, s, b), a) == s[..p] + [a, b] + s[p..]
    ensures Insert(KeyLess, Insert(KeyLess, s, a), b) == s[..p] + [b, a] + s[p..]
  {
    hide KeyLess, SameKey;
    SameKeyNotLess(a, b);
    if s != [] {
      KeyIsKey(s[0], a, b);
    }
    if s == [] || !KeyLess(s[0], a) {
      p := 0;
    } else {
      p := InsertPair(s[1..], a, b);
      p := p + 1;
      assert s[..p] == [s[0]] + s[1..][..p - 1] && s[p..] == s[1..][p - 1..];
    }
  }

  lemma SameKeyNotLess(a: P.Variant, b: P.Variant)
    requires SameKey(a, b)
    ensures !KeyLess(a, b) && !KeyLess(b, a)
  {
    KeyLessIsStrict();
    assert KeyLess(a, b) <==> KeyLess(a, a);
    assert KeyLess(b, a) <==> KeyLess(a, a);
  }

  lemma KeyIsKey(x: P.Variant, a: P.Variant, b: P.Variant)
    requires SameKey(a, b)
    ensures KeyLess(x, a) <==> KeyLess(x, b)
  {
  }

  // ---------------------------------------------------------------- commuting lines may be read in any order

  lemma {:induction false} MovesToFront(vs: seq<P.Variant>, x: P.Variant)
    requires forall v :: v in vs ==> Commute(v, x)
    ensures Lines(vs) + LineOf(x) == LineOf(x) + Lines(vs)
  {
    hide LineOf;
    if vs != [] {
      var v, rest := LineOf(vs[0]), Lines(vs[1..]);
      assert vs[0] in vs && Commute(vs[0], x) && forall w :: w in vs[1..] ==> w in vs;
      assert v + LineOf(x) == LineOf(x) + v;
      MovesToFront(vs[1..], x);
      PastBefore(v, LineOf(x), rest);
      assert (v + rest) + LineOf(x) == v + (rest + LineOf(x));
      assert LineOf(x) + (v + rest) == LineOf(x) + Lines(vs);
    }
  }

  /** All but the variant at one index. */
  function Without(vs: seq<P.Variant>, i: nat): seq<P.Variant>
    requires i < |vs|
  {
    vs[..i] + vs[i + 1..]
  }

  lemma WithoutMembers(vs: seq<P.Variant>, i: nat)
    requires i < |vs|
    ensures multiset(vs) == multiset(Without(vs, i)) + multiset{vs[i]}
  {
    assert vs == vs[..i] + [vs[i]] + vs[i + 1..];
  }

  lemma WithoutKeepsOrder(vs: seq<P.Variant>, i: nat)
    requires i < |vs| && InKeyOrder(vs)
    ensures InKeyOrder(Without(vs, i))
  {
    hide KeyLess;
  }

  lemma LinesWithout(vs: seq<P.Variant>, i: nat)
    requires i < |vs| && forall v :: v in vs[..i] ==> Commute(v, vs[i])
    ensures Lines(vs) == LineOf(vs[i]) + Lines(Without(vs, i))
  {
    hide LineOf, Commute, Lines;
    var before, x, after := vs[..i], vs[i], vs[i + 1..];
    MovesToFront(before, x);
    var rest := [x] + after;
    assert vs == before + rest;
    LinesJoin(before, rest);
    LinesJoin(before, after);
    LinesFrom(x, after);
    PastBefore(Lines(before), LineOf(x), Lines(after));
  }

  lemma LinesFrom(x: P.Variant, after: seq<P.Variant>)
    ensures Lines([x] + after) == LineOf(x) + Lines(after)
  {
    hide LineOf;
    assert ([x] + after)[1..] == after;
  }

  lemma PastBefore(before: string, x: string, after: string)
    requires before + x == x + before
    ensures before + (x + after) == x + (before + after)
  {
    assert before + (x + after) == (before + x) + after;
    assert (x + before) + after == x + (before + after);
  }

  lemma SameBut<T>(a: multiset<T>, b: multiset<T>, x: T)
    requires a + multiset{x} == b + multiset{x}
    ensures a == b
  {
    assert a == (a + multiset{x}) - multiset{x};
  }

  /** What may differ between two readings in key order: the order within a key. */
  lemma {:induction false} SameLines(s: seq<P.Variant>, t: seq<P.Variant>)
    requires InKeyOrder(s) && InKeyOrder(t) && multiset(s) == multiset(t)
    requires ClashesCommute(s)
    ensures Lines(s) == Lines(t)
    decreases |s|
  {
    hide LineOf, Commute, SameKey, Lines, Without, KeyLess;
    if s == [] {
      assert |multiset(t)| == 0;
    } else {
      assert s[0] in multiset(t);
      var i :| 0 <= i < |t| && t[i] == s[0];
      forall v | v in t[..i] ensures Commute(v, s[0]) {
        assert v in multiset(t);
        FirstKey(s, t, i, v);
      }
      WithoutMembers(s, 0);
      WithoutMembers(t, i);
      WithoutKeepsOrder(s, 0);
      WithoutKeepsOrder(t, i);
      forall v | v in Without(s, 0) ensures v in s {
        assert v in multiset(s);
      }
      WithoutSize(s, 0);
      SameBut(multiset(Without(s, 0)), multiset(Without(t, i)), s[0]);
      SameLines(Without(s, 0), Without(t, i));
      LinesWithout(s, 0);
      LinesWithout(t, i);
    }
  }

  lemma WithoutSize(vs: seq<P.Variant>, i: nat)
    requires i < |vs|
    ensures |Without(vs, i)| == |vs| - 1
  {
  }

  lemma FirstKey(s: seq<P.Variant>, t: seq<P.Variant>, i: nat, v: P.Variant)
    requires InKeyOrder(s) && InKeyOrder(t) && s != [] && i < |t| && t[i] == s[0] && v in s && v in t[..i]
    ensures SameKey(v, s[0])
  {
    KeyLessTotal(v, s[0]);
    hide SameKey, KeyLess;
  }

  // ---------------------------------------------------------------- the condition

  /** However these variants are ordered, the hashed text is the same. */
  ghost predicate OrderFree(vs: seq<P.Variant>) {
    forall a, b :: multiset(a) == multiset(vs) && multiset(b) == multiset(vs) ==> Canonical(a) == Canonical(b)
  }

  lemma CanonicalIsLines(a: seq<P.Variant>, b: seq<P.Variant>)
    requires |a| == |b|
    ensures Canonical(a) == Canonical(b) <==> Lines(Sorted(KeyLess, a)) == Lines(Sorted(KeyLess, b))
  {
    hide Joined, Lines;
    if a != [] {
      JoinedIsLines(Sorted(KeyLess, a));
      JoinedIsLines(Sorted(KeyLess, b));
      var x, y := Canonical(a), Canonical(b);
      assert (x + "\n")[..|x + "\n"| - 1] == x && (y + "\n")[..|y + "\n"| - 1] == y;
    }
  }

  /** Two readings that differ only in which of two variants of one key came first. */
  lemma SwapMatters(a: P.Variant, b: P.Variant, rest: seq<P.Variant>)
    requires SameKey(a, b)
    ensures Canonical([a, b] + rest) == Canonical([b, a] + rest) <==> Commute(a, b)
  {
    hide Lines, LineOf, Canonical;
    var s := Sorted(KeyLess, rest);
    var p := InsertPair(s, a, b);
    assert ([a, b] + rest)[1..] == [b] + rest && ([b, a] + rest)[1..] == [a] + rest;
    assert ([b] + rest)[1..] == rest && ([a] + rest)[1..] == rest;
    assert Sorted(KeyLess, [a, b] + rest) == s[..p] + [a, b] + s[p..];
    assert Sorted(KeyLess, [b, a] + rest) == s[..p] + [b, a] + s[p..];
    CanonicalIsLines([a, b] + rest, [b, a] + rest);
    PairBetween(s[..p], a, b, s[p..]);
    PairBetween(s[..p], b, a, s[p..]);
    SameMiddle(Lines(s[..p]), LineOf(a) + LineOf(b), LineOf(b) + LineOf(a), Lines(s[p..]));
  }

  lemma PairBetween(before: seq<P.Variant>, a: P.Variant, b: P.Variant, after: seq<P.Variant>)
    ensures Lines(before + [a, b] + after) == Lines(before) + (LineOf(a) + LineOf(b)) + Lines(after)
  {
    hide LineOf;
    LinesJoin(before + [a, b], after);
    LinesJoin(before, [a, b]);
    assert [a, b][1..] == [b];
    assert Lines([b]) == LineOf(b);
  }

  lemma SameMiddle(before: string, x: string, y: string, after: string)
    requires |x| == |y|
    ensures before + x + after == before + y + after <==> x == y
  {
    assert (before + x + after)[|before|..|before| + |x|] == x;
    assert (before + y + after)[|before|..|before| + |y|] == y;
  }

  /** Two different members brought to the front. */
  lemma TwoToFront(vs: seq<P.Variant>, a: P.Variant, b: P.Variant) returns (rest: seq<P.Variant>)
    requires a in vs && b in vs && a != b
    ensures multiset([a, b] + rest) == multiset(vs) == multiset([b, a] + rest)
  {
    hide Without;
    var i :| 0 <= i < |vs| && vs[i] == a;
    var others := Without(vs, i);
    WithoutMembers(vs, i);
    assert multiset(vs)[b] == multiset(others)[b];
    var j :| 0 <= j < |others| && others[j] == b;
    rest := Without(others, j);
    WithoutMembers(others, j);
  }

  /**
   * The version depends only on which variants there are, not on the order they were read in, if and only
   * if any two of them that share a key give the same text in either order.
   */
  lemma OrderFreeIffClashesCommute(vs: seq<P.Variant>)
    ensures OrderFree(vs) <==> ClashesCommute(vs)
  {
    hide Canonical, SameKey, Commute;
    if OrderFree(vs) {
      forall a, b | a in vs && b in vs && SameKey(a, b) ensures Commute(a, b) {
        OrderFreeMeansCommute(vs, a, b);
      }
    }
    if ClashesCommute(vs) {
      forall x, y | multiset(x) == multiset(vs) && multiset(y) == multiset(vs) ensures Canonical(x) == Canonical(y) {
        SameText(vs, x, y);
      }
    }
  }

  lemma OrderFreeMeansCommute(vs: seq<P.Variant>, a: P.Variant, b: P.Variant)
    requires OrderFree(vs) && a in vs && b in vs && SameKey(a, b)
    ensures Commute(a, b)
  {
    if a != b {
      var rest := TwoToFront(vs, a, b);
      SwapMatters(a, b, rest);
    }
    hide Canonical, SameKey, LineOf;
  }

  lemma SameText(vs: seq<P.Variant>, x: seq<P.Variant>, y: seq<P.Variant>)
    requires ClashesCommute(vs) && multiset(x) == multiset(vs) && multiset(y) == multiset(vs)
    ensures Canonical(x) == Canonical(y)
  {
    hide Canonical, SameKey, Commute, Lines, KeyLess;
    assert |x| == |multiset(x)| && |y| == |multiset(y)|;
    CanonicalIsLines(x, y);
    SortedIsInKeyOrder(x);
    SortedIsInKeyOrder(y);
    SortedMembers(KeyLess, x);
    SortedMembers(KeyLess, y);
    forall v | v in Sorted(KeyLess, x) ensures v in vs {
      assert v in multiset(Sorted(KeyLess, x));
    }
    SameLines(Sorted(KeyLess, x), Sorted(KeyLess, y));
  }

  /** So with two cells of one key whose lines are equally long and differ, the version does depend on the order. */
  lemma OrderCanMatter(a: P.Variant, b: P.Variant)
    requires SameKey(a, b) && |Line(a)| == |Line(b)| && Line(a) != Line(b)
    ensures !OrderFree([a, b])
  {
    hide Line, Canonical, OrderFree;
    var x, y := LineOf(a), LineOf(b);
    assert x[..|Line(a)|] == Line(a) && y[..|Line(a)|] == Line(b);
    assert (x + y)[..|x|] == x && (y + x)[..|x|] == y;
    OrderFreeIffClashesCommute([a, b]);
  }
}
