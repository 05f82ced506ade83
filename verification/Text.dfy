/** The string operations of the matrix parser: str.strip, str.lower and the trailing-URL regex. */
module Text {
  import opened Options

  /** str.isspace for one character, which is also what \s matches. */
  predicate IsSpace(c: char) {
    || '\t' <= c <= '\r' || '\U{1c}' <= c <= ' '
    || c == '\U{85}' || c == '\U{a0}' || c == '\U{1680}' || '\U{2000}' <= c <= '\U{200a}'
    || c == '\U{2028}' || c == '\U{2029}' || c == '\U{202f}' || c == '\U{205f}' || c == '\U{3000}'
  }

  predicate Blank(s: string) {
    forall i :: 0 <= i < |s| ==> IsSpace(s[i])
  }

  predicate NoSpace(s: string) {
    forall i :: 0 <= i < |s| ==> !IsSpace(s[i])
  }

  function LStrip(s: string): (r: string)
    ensures |r| <= |s| && r == s[|s| - |r|..] && Blank(s[..|s| - |r|])
    ensures r != "" ==> !IsSpace(r[0])
  {
    if s != "" && IsSpace(s[0]) then
      var r := LStrip(s[1..]);
      assert s[..|s| - |r|] == [s[0]] + s[1..][..|s[1..]| - |r|];
      r
    else s
  }

  function RStrip(s: string): (r: string)
    ensures |r| <= |s| && r == s[..|r|] && Blank(s[|r|..])
    ensures r != "" ==> !IsSpace(r[|r| - 1])
  {
    if s != "" && IsSpace(s[|s| - 1]) then
      var r := RStrip(s[..|s| - 1]);
      assert s[|r|..] == s[..|s| - 1][|r|..] + [s[|s| - 1]];
      r
    else s
  }

  function Strip(s: string): (r: string)
    ensures |r| <= |s|
    ensures r != "" ==> !IsSpace(r[0]) && !IsSpace(r[|r| - 1])
  {
    RStrip(LStrip(s))
  }

  predicate Stripped(s: string) {
    s != "" ==> !IsSpace(s[0]) && !IsSpace(s[|s| - 1])
  }

  lemma StripOfStripped(s: string)
    requires Stripped(s)
    ensures Strip(s) == s
  {
  }

  /** What strip removes is whitespace, and there is none left at either end. */
  lemma StripRemovesOnlySpace(s: string)
    ensures exists i, j :: 0 <= i <= j <= |s| && Strip(s) == s[i..j] && Blank(s[..i]) && Blank(s[j..])
    ensures Stripped(Strip(s))
  {
    var l := LStrip(s);
    var r := RStrip(l);
    var i := |s| - |l|;
    var j := i + |r|;
    assert s[j..] == l[|r|..];
    assert r == s[i..j];
  }

  /**
   * str.lower for one character, as far as it decides the label lookups: besides A-Z, U+212A is the
   * only character whose lower case is a single ASCII letter.
   */
  function LowerChar(c: char): char {
    if 'A' <= c <= 'Z' then (c as int + 32) as char else if c == '\U{212a}' then 'k' else c
  }

  function Lower(s: string): string {
    seq(|s|, i requires 0 <= i < |s| => LowerChar(s[i]))
  }

  /** Only A-Z, and the Kelvin sign, change; no A-Z is left. */
  lemma LowerFolds(s: string)
    ensures |Lower(s)| == |s|
    ensures forall i :: 0 <= i < |s| ==>
              && !('A' <= Lower(s)[i] <= 'Z')
              && (Lower(s)[i] == s[i]
                  || (Lower(s)[i] as int == s[i] as int + 32 && 'A' <= s[i] <= 'Z')
                  || (Lower(s)[i] == 'k' && s[i] == '\U{212a}'))
  {
  }

  /** Python's < on str, and Redis's order of equal-scored members: by code point, a proper prefix first. */
  predicate TextLess(a: string, b: string) {
    b != "" && (a == "" || a[0] < b[0] || (a[0] == b[0] && TextLess(a[1..], b[1..])))
  }

  lemma {:induction false} TextLessIrreflexive(a: string)
    ensures !TextLess(a, a)
  {
    if a != "" {
      TextLessIrreflexive(a[1..]);
    }
  }

  lemma {:induction false} TextLessTransitive(a: string, b: string, c: string)
    requires TextLess(a, b) && TextLess(b, c)
    ensures TextLess(a, c)
  {
    if a != "" && a[0] == b[0] == c[0] {
      TextLessTransitive(a[1..], b[1..], c[1..]);
    }
  }

  lemma {:induction false} TextLessTotal(a: string, b: string)
    ensures a == b || TextLess(a, b) || TextLess(b, a)
  {
    if a != "" && b != "" && a[0] == b[0] {
      TextLessTotal(a[1..], b[1..]);
      assert a == [a[0]] + a[1..] && b == [b[0]] + b[1..];
    }
  }

  const URL_PREFIX := "https://drive.google.com/"

  /** The regex matches here: the prefix, at least one more character, and no space to the end. */
  predicate UrlAt(s: string, p: nat) {
    p + |URL_PREFIX| < |s| && s[p..p + |URL_PREFIX|] == URL_PREFIX && NoSpace(s[p..])
  }

  lemma UrlAtMeans(s: string, p: nat)
    ensures UrlAt(s, p) <==>
              p + 25 < |s| && s[p..p + 25] == "https://drive.google.com/" && forall i :: p <= i < |s| ==> !IsSpace(s[i])
  {
    hide IsSpace;
    if p <= |s| {
      assert forall i :: p <= i < |s| ==> s[i] == s[p..][i - p];
    }
  }

  /** re.search on a stripped string: the leftmost match at or after `from`. */
  function FindUrl(s: string, from: nat): (p: Option<nat>)
    requires from <= |s|
    ensures p.Some? ==> from <= p.value < |s| && UrlAt(s, p.value) && forall q :: from <= q < p.value ==> !UrlAt(s, q)
    ensures p.None? ==> forall q :: from <= q ==> !UrlAt(s, q)
    decreases |s| - from
  {
    if UrlAt(s, from) then Some(from)
    else if from == |s| then None
    else FindUrl(s, from + 1)
  }

  /** _split_prompt_and_url. As in the source, the match position in the stripped cell cuts the cell as given. */
  function SplitPromptAndUrl(cell: string): (string, Option<string>) {
    var stripped := Strip(cell);
    match FindUrl(stripped, 0)
    case None => (stripped, None)
    case Some(p) => (Strip(cell[..p]), Some(stripped[p..]))
  }

  lemma SplitOfStripped(cell: string)
    requires Stripped(cell)
    ensures SplitPromptAndUrl(cell)
            == match FindUrl(cell, 0)
               case None => (cell, None)
               case Some(p) => (Strip(cell[..p]), Some(cell[p..]))
  {
    StripOfStripped(cell);
    hide Strip, FindUrl, UrlAt, IsSpace;
  }

  /** Only space is lost where the prompt is cut off before the URL. */
  lemma PromptBeforeUrl(cell: string, p: nat)
    requires Stripped(cell) && p <= |cell|
    ensures var prompt := Strip(cell[..p]);
            && |prompt| <= p && Stripped(prompt)
            && prompt == cell[..|prompt|] && Blank(cell[|prompt|..p])
  {
    hide IsSpace, Blank;
    var before := cell[..p];
    assert p > 0 ==> before[0] == cell[0];
    assert LStrip(before) == before;
    var n := |RStrip(before)|;
    assert before[..n] == cell[..n] && before[n..] == cell[n..p];
    hide LStrip, RStrip;
  }

  /**
   * The caller passes stripped cells. On those the prompt, the space between and the URL make up the
   * cell, and the URL is the longest tail that is one.
   */
  lemma SplitRebuildsCell(cell: string)
    requires Stripped(cell)
    ensures var (prompt, url) := SplitPromptAndUrl(cell);
            && Stripped(prompt)
            && match url
               case None => prompt == cell && forall p :: !UrlAt(cell, p)
               case Some(u) =>
                 && |prompt| + |u| <= |cell|
                 && prompt == cell[..|prompt|] && u == cell[|cell| - |u|..]
                 && Blank(cell[|prompt|..|cell| - |u|])
                 && UrlAt(cell, |cell| - |u|) && forall p :: 0 <= p < |cell| - |u| ==> !UrlAt(cell, p)
  {
    SplitOfStripped(cell);
    hide SplitPromptAndUrl, Strip, UrlAt, IsSpace, Blank, Stripped;
    var found := FindUrl(cell, 0);
    hide FindUrl;
    if found.Some? {
      PromptBeforeUrl(cell, found.value);
      assert |cell| - |cell[found.value..]| == found.value;
    }
  }
}
