/** What the hashed text of a matrix shows of it: which tables it tells apart. */
module VersionText {
  import opened Enums
  import opened MatrixVersion
  import opened Options
  import opened Orders
  import opened Separators
  import opened Text
  import opened VersionOrder
  import P = PivotParser

  // ---------------------------------------------------------------- the row number

  predicate Digits(s: string) {
    forall i :: 0 <= i < |s| ==> '0' <= s[i] <= '9'
  }

  /** The number a decimal numeral stands for. */
  function Numeral(s: string): nat
    requires Digits(s)
  {
    if s == "" then 0 else 10 * Numeral(s[..|s| - 1]) + (s[|s| - 1] as int - '0' as int)
  }

  /** The row number is printed as its numeral without leading zeros. */
  lemma {:induction false} DecimalReadsBack(n: nat)
    ensures var s := Decimal(n);
            s != "" && Digits(s) && Numeral(s) == n && (n > 0 ==> s[0] != '0')
  {
    if n < 10 {
      assert Decimal(n)[..0] == "";
    } else {
      DecimalReadsBack(n / 10);
      var s := Decimal(n);
      assert s[..|s| - 1] == Decimal(n / 10);
    }
  }

  lemma DecimalInjective(m: nat, n: nat)
    requires Decimal(m) == Decimal(n)
    ensures m == n
  {
    DecimalReadsBack(m);
    DecimalReadsBack(n);
  }

  // ---------------------------------------------------------------- one line

  /** What a line shows besides the key. No URL and an empty one look the same. */
  function Content(v: P.Variant): string {
    v.prompt + "|" + v.referenceImageUrl.GetOr("")
  }

  function KeyText(v: P.Variant): string {
    v.jewelryType + "|" + v.service + "|" + Decimal(v.rowNumber) + "|"
  }

  lemma LineIsKeyAndContent(v: P.Variant)
    ensures Line(v) == KeyText(v) + Content(v)
  {
    hide Decimal;
  }

  lemma SameKeyText(v: P.Variant, w: P.Variant)
    requires SameKey(v, w)
    ensures KeyText(v) == KeyText(w)
  {
  }

  lemma CutPrefix(x: string, u: string, v: string)
    requires x + u == x + v
    ensures u == v
  {
    assert (x + u)[|x|..] == u && (x + v)[|x|..] == v;
  }

  lemma CutSuffix(u: string, v: string, x: string)
    requires u + x == v + x
    ensures u == v
  {
    assert |u| == |v| && (u + x)[..|u|] == u && (v + x)[..|v|] == v;
  }

  /** Two variants of one key have one line exactly when prompt and URL, with a bar between, read the same. */
  lemma LineShowsContent(v: P.Variant, w: P.Variant)
    requires SameKey(v, w)
    ensures Line(v) == Line(w) <==> v.prompt + "|" + v.referenceImageUrl.GetOr("") == w.prompt + "|" + w.referenceImageUrl.GetOr("")
  {
    SameKeyText(v, w);
    LineIsKeyAndContent(v);
    LineIsKeyAndContent(w);
    hide Line, KeyText;
    if Line(v) == Line(w) {
      CutPrefix(KeyText(v), Content(v), Content(w));
    }
  }

  /** So a line never hides that its prompt has been edited, nor that its URL has. */
  lemma LineShowsPrompt(v: P.Variant, prompt: string)
    ensures Line(v) == Line(v.(prompt := prompt)) <==> v.prompt == prompt
  {
    hide Line;
    LineShowsContent(v, v.(prompt := prompt));
    if v.prompt + "|" + v.referenceImageUrl.GetOr("") == prompt + "|" + v.referenceImageUrl.GetOr("") {
      CutSuffix(v.prompt + "|", prompt + "|", v.referenceImageUrl.GetOr(""));
      CutSuffix(v.prompt, prompt, "|");
    }
  }

  lemma LineShowsUrl(v: P.Variant, url: Option<string>)
    ensures Line(v) == Line(v.(referenceImageUrl := url)) <==> v.referenceImageUrl.GetOr("") == url.GetOr("")
  {
    hide Line;
    LineShowsContent(v, v.(referenceImageUrl := url));
    if v.prompt + "|" + v.referenceImageUrl.GetOr("") == v.prompt + "|" + url.GetOr("") {
      CutPrefix(v.prompt + "|", v.referenceImageUrl.GetOr(""), url.GetOr(""));
    }
  }

  /** Type and service come from fixed lists, and none of those names has a bar. */
  predicate PlainKey(v: P.Variant) {
    '|' !in v.jewelryType && '|' !in v.service
  }

  predicate NoBar(s: string) {
    forall i :: 0 <= i < |s| ==> s[i] != '|'
  }

  lemma CategoryHasNoBar(key: string)
    ensures NoBar(P.CategoryLabel(key).GetOr(""))
  {
  }

  lemma StyleHasNoBar(key: string)
    ensures NoBar(P.StyleLabel(key).GetOr(""))
  {
  }

  lemma TypeHasNoBar(t: JewelryType)
    ensures NoBar(TypeText(t))
  {
  }

  lemma ParsedIsPlain(grid: P.Grid, cells: seq<P.Cell>, variants: seq<P.Variant>, v: P.Variant)
    requires P.ParseOf(grid, cells, variants) && v in variants
    ensures PlainKey(v)
  {
    hide P.Filled, SplitPromptAndUrl, P.CellText, P.CategoryLabel, P.StyleLabel, P.HeaderType, TypeText, P.Key, Lower, Strip;
    var i :| 0 <= i < |variants| && variants[i] == v;
    var c := cells[i];
    assert P.IsVariantCell(grid, c) && P.Filled(grid, c);
    CategoryHasNoBar(P.Key(grid[c.category]));
    StyleHasNoBar(P.Key(grid[c.start]));
    forall t ensures NoBar(TypeText(t)) {
      TypeHasNoBar(t);
    }
  }

  /** A line shows its key, whatever its prompt and URL contain. */
  lemma LineShowsKey(v: P.Variant, w: P.Variant)
    requires PlainKey(v) && PlainKey(w)
    ensures Line(v) == Line(w) <==> SameKey(v, w) && Content(v) == Content(w)
  {
    hide Line, Content;
    LineIsKeyAndContent(v);
    LineIsKeyAndContent(w);
    if SameKey(v, w) && Content(v) == Content(w) {
      SameKeyText(v, w);
    }
    if Line(v) == Line(w) {
      DecimalReadsBack(v.rowNumber);
      DecimalReadsBack(w.rowNumber);
      hide Decimal;
      var afterService := Decimal(v.rowNumber) + ['|'] + Content(v);
      var afterService' := Decimal(w.rowNumber) + ['|'] + Content(w);
      assert Line(v) == v.jewelryType + ['|'] + (v.service + ['|'] + afterService);
      assert Line(w) == w.jewelryType + ['|'] + (w.service + ['|'] + afterService');
      FirstSplits('|', v.jewelryType, v.service + ['|'] + afterService, w.jewelryType, w.service + ['|'] + afterService');
      FirstSplits('|', v.service, afterService, w.service, afterService');
      FirstSplits('|', Decimal(v.rowNumber), Content(v), Decimal(w.rowNumber), Content(w));
      DecimalInjective(v.rowNumber, w.rowNumber);
    }
  }

  // ---------------------------------------------------------------- the order of the lines

  /** Python's < on str: at the first difference the lower code point, or a proper prefix. */
  lemma {:induction false} TextLessMeans(a: string, b: string)
    ensures TextLess(a, b) <==>
              exists k :: 0 <= k <= |a| && k < |b| && a[..k] == b[..k] && (k == |a| || a[k] < b[k])
  {
    if a != "" && b != "" && a[0] == b[0] {
      TextLessMeans(a[1..], b[1..]);
      if k :| 0 <= k <= |a| && k < |b| && a[..k] == b[..k] && (k == |a| || a[k] < b[k]) {
        assert k > 0;
        assert a[1..][..k - 1] == a[..k][1..] && b[1..][..k - 1] == b[..k][1..];
      }
      if k :| 0 <= k <= |a[1..]| && k < |b[1..]| && a[1..][..k] == b[1..][..k] && (k == |a[1..]| || a[1..][k] < b[1..][k]) {
        assert a[..k + 1] == [a[0]] + a[1..][..k] && b[..k + 1] == [b[0]] + b[1..][..k];
      }
    } else if b != "" {
      assert a[..0] == b[..0];
      if k :| 0 <= k <= |a| && k < |b| && a[..k] == b[..k] && (k == |a| || a[k] < b[k]) {
        assert k > 0 ==> a[..k][0] == b[..k][0];
      }
    }
  }

  /** The variants of the same type, service and row number as k, in order. */
  function OfKey(vs: seq<P.Variant>, k: P.Variant): seq<P.Variant> {
    if vs == [] then []
    else if vs[0].jewelryType == k.jewelryType && vs[0].service == k.service && vs[0].rowNumber == k.rowNumber
    then [vs[0]] + OfKey(vs[1..], k)
    else OfKey(vs[1..], k)
  }

  lemma {:induction false} InsertIsStable(s: seq<P.Variant>, x: P.Variant, k: P.Variant)
    ensures OfKey(Insert(KeyLess, s, x), k) == OfKey([x] + s, k)
  {
    assert ([x] + s)[1..] == s;
    if s != [] && KeyLess(s[0], x) {
      InsertIsStable(s[1..], x, k);
      assert ([x] + s[1..])[1..] == s[1..];
      assert ([s[0]] + Insert(KeyLess, s[1..], x))[1..] == Insert(KeyLess, s[1..], x);
      if SameKey(s[0], x) {
        SameKeyNotLess(s[0], x);
      }
    }
    hide KeyLess;
  }

  /** The lines come by type, then service, then row number, and otherwise in the order they were read. */
  lemma {:induction false} LinesAscend(vs: seq<P.Variant>, k: P.Variant)
    ensures var s := Sorted(KeyLess, vs);
            && multiset(s) == multiset(vs) && OfKey(s, k) == OfKey(vs, k)
            && forall i, j :: 0 <= i < j < |s| ==>
                 && (s[i].jewelryType == s[j].jewelryType || TextLess(s[i].jewelryType, s[j].jewelryType))
                 && (s[i].jewelryType == s[j].jewelryType ==> s[i].service == s[j].service || TextLess(s[i].service, s[j].service))
                 && (s[i].jewelryType == s[j].jewelryType && s[i].service == s[j].service ==> s[i].rowNumber <= s[j].rowNumber)
  {
    SortedMembers(KeyLess, vs);
    SortedIsInKeyOrder(vs);
    SortIsStable(vs, k);
    var s := Sorted(KeyLess, vs);
    forall i, j | 0 <= i < j < |s|
      ensures !KeyLess(s[j], s[i])
      ensures s[i].jewelryType == s[j].jewelryType || TextLess(s[i].jewelryType, s[j].jewelryType) || TextLess(s[j].jewelryType, s[i].jewelryType)
      ensures s[i].service == s[j].service || TextLess(s[i].service, s[j].service) || TextLess(s[j].service, s[i].service)
    {
      TextLessTotal(s[i].jewelryType, s[j].jewelryType);
      TextLessTotal(s[i].service, s[j].service);
    }
    hide TextLess, Sorted, OfKey;
  }

  lemma {:induction false} SortIsStable(vs: seq<P.Variant>, k: P.Variant)
    ensures OfKey(Sorted(KeyLess, vs), k) == OfKey(vs, k)
  {
    if vs != [] {
      var rest := Sorted(KeyLess, vs[1..]);
      SortIsStable(vs[1..], k);
      InsertIsStable(rest, vs[0], k);
      assert ([vs[0]] + rest)[1..] == rest;
    }
    hide KeyLess;
  }

  // ---------------------------------------------------------------- one edited variant

  lemma {:induction false} InsertReplaced(s: seq<P.Variant>, p: nat, w: P.Variant, x: P.Variant) returns (q: nat)
    requires p < |s| && SameKey(s[p], w)
    ensures q < |s| + 1 && Insert(KeyLess, s, x)[q] == s[p]
    ensures Insert(KeyLess, s[p := w], x) == Insert(KeyLess, s, x)[q := w]
  {
    assert KeyLess(s[0], x) <==> KeyLess(s[p := w][0], x);
    if !KeyLess(s[0], x) {
      q := p + 1;
    } else if p == 0 {
      q := 0;
      assert s[0 := w][1..] == s[1..];
    } else {
      assert s[p := w][1..] == s[1..][p - 1 := w];
      q := InsertReplaced(s[1..], p - 1, w, x);
      q := q + 1;
    }
    hide KeyLess, SameKey;
  }

  lemma {:induction false} InsertAt(s: seq<P.Variant>, v: P.Variant, w: P.Variant) returns (q: nat)
    requires SameKey(v, w)
    ensures q < |s| + 1 && Insert(KeyLess, s, v)[q] == v && Insert(KeyLess, s, w) == Insert(KeyLess, s, v)[q := w]
  {
    if s != [] {
      KeyIsKey(s[0], v, w);
    }
    hide KeyLess, SameKey;
    if s == [] || !KeyLess(s[0], v) {
      q := 0;
    } else {
      q := InsertAt(s[1..], v, w);
      q := q + 1;
    }
  }

  /** An edit that keeps the key keeps the place in the sorted table. */
  lemma {:induction false} SortedReplaced(vs: seq<P.Variant>, i: nat, w: P.Variant) returns (p: nat)
    requires i < |vs| && SameKey(vs[i], w)
    ensures p < |vs| && Sorted(KeyLess, vs)[p] == vs[i] && Sorted(KeyLess, vs[i := w]) == Sorted(KeyLess, vs)[p := w]
  {
    hide KeyLess, SameKey;
    if i == 0 {
      assert vs[0 := w][1..] == vs[1..];
      p := InsertAt(Sorted(KeyLess, vs[1..]), vs[0], w);
    } else {
      assert vs[i := w][1..] == vs[1..][i - 1 := w];
      p := SortedReplaced(vs[1..], i - 1, w);
      p := InsertReplaced(Sorted(KeyLess, vs[1..]), p, w, vs[0]);
    }
  }

  lemma LinesAround(s: seq<P.Variant>, p: nat, w: P.Variant)
    requires p < |s|
    ensures Lines(s[p := w]) == Lines(s[..p]) + (LineOf(w) + Lines(s[p + 1..]))
  {
    hide Lines, LineOf;
    assert s[p := w] == s[..p] + ([w] + s[p + 1..]);
    LinesJoin(s[..p], [w] + s[p + 1..]);
    LinesFrom(w, s[p + 1..]);
  }

  /** The text shows every edit of a variant that its own line shows: exactly those. */
  lemma EditShows(vs: seq<P.Variant>, i: nat, w: P.Variant)
    requires i < |vs| && SameKey(vs[i], w)
    ensures Canonical(vs) == Canonical(vs[i := w]) <==> Line(vs[i]) == Line(w)
  {
    var p := SortedReplaced(vs, i, w);
    hide Line, Canonical, SameKey, Lines;
    CanonicalIsLines(vs, vs[i := w]);
    var s := Sorted(KeyLess, vs);
    assert s[p := s[p]] == s;
    LinesAround(s, p, s[p]);
    LinesAround(s, p, w);
    if Lines(s) == Lines(s[p := w]) {
      CutPrefix(Lines(s[..p]), LineOf(s[p]) + Lines(s[p + 1..]), LineOf(w) + Lines(s[p + 1..]));
      CutSuffix(LineOf(s[p]), LineOf(w), Lines(s[p + 1..]));
      CutSuffix(Line(s[p]), Line(w), "\n");
    }
  }

  /** One variant has a new prompt, or a new URL. */
  ghost predicate OneEdited(a: seq<P.Variant>, b: seq<P.Variant>) {
    exists i :: 0 <= i < |a| && |b| == |a| && b == a[i := b[i]] &&
      (|| (b[i] == a[i].(prompt := b[i].prompt) && b[i].prompt != a[i].prompt)
       || (b[i] == a[i].(referenceImageUrl := b[i].referenceImageUrl)
           && b[i].referenceImageUrl.GetOr("") != a[i].referenceImageUrl.GetOr("")))
  }

  /** Whatever the client edits in one cell, the text is another one. */
  lemma EditChangesText(a: seq<P.Variant>, b: seq<P.Variant>)
    requires OneEdited(a, b)
    ensures Canonical(a) != Canonical(b)
  {
    hide Canonical, Line;
    var i :| 0 <= i < |a| && |b| == |a| && b == a[i := b[i]] && (b[i].prompt != a[i].prompt
             || b[i].referenceImageUrl.GetOr("") != a[i].referenceImageUrl.GetOr("")) && b[i].jewelryType == a[i].jewelryType
             && b[i].service == a[i].service && b[i].rowNumber == a[i].rowNumber
             && (b[i] == a[i].(prompt := b[i].prompt) || b[i] == a[i].(referenceImageUrl := b[i].referenceImageUrl));
    EditShows(a, i, b[i]);
    LineShowsPrompt(a[i], b[i].prompt);
    LineShowsUrl(a[i], b[i].referenceImageUrl);
  }

  // ---------------------------------------------------------------- two whole tables

  /** No cell has a line break in it. */
  ghost predicate OneLineEach(vs: seq<P.Variant>) {
    forall v :: v in vs ==> '\n' !in Line(v)
  }

  lemma {:induction false} LinesShowLines(a: seq<P.Variant>, b: seq<P.Variant>)
    requires OneLineEach(a) && OneLineEach(b)
    requires Lines(a) == Lines(b)
    ensures |a| == |b| && forall i :: 0 <= i < |a| ==> Line(a[i]) == Line(b[i])
  {
    hide Line;
    if a != [] && b != [] {
      assert a[0] in a && b[0] in b;
      assert Lines(a) == Line(a[0]) + ['\n'] + Lines(a[1..]) && Lines(b) == Line(b[0]) + ['\n'] + Lines(b[1..]);
      FirstSplits('\n', Line(a[0]), Lines(a[1..]), Line(b[0]), Lines(b[1..]));
      LinesShowLines(a[1..], b[1..]);
    }
  }

  lemma {:induction false} SameLinesJoin(s: seq<P.Variant>, t: seq<P.Variant>)
    requires |s| == |t| && forall i :: 0 <= i < |s| ==> Line(s[i]) == Line(t[i])
    ensures Lines(s) == Lines(t)
  {
    hide Line;
    if s != [] {
      SameLinesJoin(s[1..], t[1..]);
    }
  }

  lemma CanonicalLines(a: seq<P.Variant>, b: seq<P.Variant>)
    requires Canonical(a) == Canonical(b)
    ensures Lines(Sorted(KeyLess, a)) == Lines(Sorted(KeyLess, b))
  {
    var s, t := Sorted(KeyLess, a), Sorted(KeyLess, b);
    assert forall v :: Line(v) != "" by {
      hide Decimal;
    }
    hide Line, KeyLess, Lines, Sorted;
    if s == [] || t == [] {
      assert Joined(s) == Joined(t);
    } else {
      hide Joined;
      JoinedIsLines(s);
      JoinedIsLines(t);
    }
  }

  lemma SortedOneLine(a: seq<P.Variant>)
    requires OneLineEach(a)
    ensures OneLineEach(Sorted(KeyLess, a))
  {
    hide Line, KeyLess, Sorted;
    forall v | v in Sorted(KeyLess, a) ensures v in a {
      SortedHas(KeyLess, a, v);
    }
  }

  ghost predicate SameLineByLine(s: seq<P.Variant>, t: seq<P.Variant>) {
    |s| == |t| && forall i :: 0 <= i < |s| ==> Line(s[i]) == Line(t[i])
  }

  /** Two tables of one-line cells have one text exactly when, sorted, they read the same line by line. */
  lemma TextShowsLines(a: seq<P.Variant>, b: seq<P.Variant>)
    requires OneLineEach(a) && OneLineEach(b)
    ensures Canonical(a) == Canonical(b) <==> SameLineByLine(Sorted(KeyLess, a), Sorted(KeyLess, b))
  {
    hide Line, Canonical, Lines, KeyLess, Sorted, OneLineEach;
    if Canonical(a) == Canonical(b) {
      CanonicalLines(a, b);
      SortedOneLine(a);
      SortedOneLine(b);
      LinesShowLines(Sorted(KeyLess, a), Sorted(KeyLess, b));
    }
    if SameLineByLine(Sorted(KeyLess, a), Sorted(KeyLess, b)) {
      SameLinesJoin(Sorted(KeyLess, a), Sorted(KeyLess, b));
      CanonicalIsLines(a, b);
    }
  }

  /** So one text means that every variant of either table is in the other, as far as its line shows it. */
  lemma TextShowsTable(a: seq<P.Variant>, b: seq<P.Variant>)
    requires OneLineEach(a) && OneLineEach(b) && forall v :: v in a || v in b ==> PlainKey(v)
    requires Canonical(a) == Canonical(b)
    ensures |a| == |b| && forall v :: v in a ==> exists w :: w in b && SameKey(v, w) && Content(v) == Content(w)
  {
    hide Line, Canonical, KeyLess, Sorted, OneLineEach, SameKey, Content, PlainKey;
    TextShowsLines(a, b);
    var s, t := Sorted(KeyLess, a), Sorted(KeyLess, b);
    forall v | v in a ensures exists w :: w in b && SameKey(v, w) && Content(v) == Content(w) {
      SortedHas(KeyLess, a, v);
      var i :| 0 <= i < |s| && s[i] == v;
      SortedHas(KeyLess, b, t[i]);
      LineShowsKey(v, t[i]);
    }
  }

  lemma TwoInOrder(a: P.Variant, b: P.Variant)
    requires KeyLess(a, b)
    ensures Canonical([a, b]) == Line(a) + "\n" + Line(b)
  {
    assert !KeyLess(b, a) by {
      KeyLessIsStrict();
    }
    hide KeyLess, Line;
    assert [a, b][1..] == [b] && [b][1..] == [];
    assert Sorted(KeyLess, [b]) == [b];
    assert Sorted(KeyLess, [a, b]) == [a, b];
    assert Joined([b]) == Line(b);
  }

  /**
   * With a line break in a cell they can hide a row: the text of two variants is also the text of one
   * whose prompt goes on with the second line.
   */
  lemma LineBreakHidesRow(a: P.Variant, b: P.Variant)
    requires KeyLess(a, b)
    ensures var both := a.(prompt := Content(a) + "\n" + KeyText(b) + b.prompt, referenceImageUrl := b.referenceImageUrl);
            Canonical([a, b]) == Canonical([both])
  {
    var both := a.(prompt := Content(a) + "\n" + KeyText(b) + b.prompt, referenceImageUrl := b.referenceImageUrl);
    TwoInOrder(a, b);
    assert Canonical([both]) == Line(both);
    LineIsKeyAndContent(a);
    LineIsKeyAndContent(b);
    LineIsKeyAndContent(both);
    SameKeyText(a, both);
    hide Canonical, Line, KeyText, KeyLess;
    assert Content(both) == Content(a) + "\n" + (KeyText(b) + Content(b));
    hide Content;
    assert KeyText(a) + Content(both) == KeyText(a) + Content(a) + "\n" + Line(b);
  }
}
