/** Texts joined by a separator: which cut of the joined text gives the parts back. */
module Separators {
  /** The last separator is found from the right, whatever comes before it. */
  lemma LastSplits<T>(sep: T, x: seq<T>, u: seq<T>, y: seq<T>, v: seq<T>)
    requires x + [sep] + u == y + [sep] + v && sep !in u && sep !in v
    ensures x == y && u == v
  {
    var s := x + [sep] + u;
    assert s[|x|] == sep && s[|y|] == sep;
    assert forall i :: |x| < i < |s| ==> s[i] == u[i - |x| - 1];
    assert forall i :: |y| < i < |s| ==> s[i] == v[i - |y| - 1];
    assert |x| == |y|;
    assert x == s[..|x|] && u == s[|x| + 1..];
  }

  /** The first separator is found from the left, whatever comes after it. */
  lemma FirstSplits<T>(sep: T, x: seq<T>, u: seq<T>, y: seq<T>, v: seq<T>)
    requires x + [sep] + u == y + [sep] + v && sep !in x && sep !in y
    ensures x == y && u == v
  {
    var s := x + [sep] + u;
    assert s[|x|] == sep && s[|y|] == sep;
    assert forall i :: 0 <= i < |x| ==> s[i] == x[i];
    assert forall i :: 0 <= i < |y| ==> s[i] == y[i];
    assert |x| == |y|;
    assert x == s[..|x|] && u == s[|x| + 1..];
  }
}
