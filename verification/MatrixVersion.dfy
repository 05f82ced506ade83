/** `_compute_version` of app/services/matrix.py: the text whose hash is the matrix version. */
module MatrixVersion {
  import opened Enums
  import opened Orders
  import P = PivotParser
  import opened Text

  // ---------------------------------------------------------------- the sort key's order

  /** The tuple (jewelry_type, service, row_number), compared as Python compares tuples. */
  predicate KeyLess(a: P.Variant, b: P.Variant) {
    || TextLess(a.jewelryType, b.jewelryType)
    || (a.jewelryType == b.jewelryType
        && (TextLess(a.service, b.service) || (a.service == b.service && a.rowNumber < b.rowNumber)))
  }

  predicate SameKey(a: P.Variant, b: P.Variant) {
    a.jewelryType == b.jewelryType && a.service == b.service && a.rowNumber == b.rowNumber
  }

  lemma KeyLessIsStrict()
    ensures StrictOrder(KeyLess)
  {
    forall a ensures !KeyLess(a, a) {
      TextLessIrreflexive(a.jewelryType);
      TextLessIrreflexive(a.service);
    }
    forall a, b, c | KeyLess(a, b) && KeyLess(b, c) ensures KeyLess(a, c) {
      if TextLess(a.jewelryType, b.jewelryType) && TextLess(b.jewelryType, c.jewelryType) {
        TextLessTransitive(a.jewelryType, b.jewelryType, c.jewelryType);
      }
      if TextLess(a.service, b.service) && TextLess(b.service, c.service) {
        TextLessTransitive(a.service, b.service, c.service);
      }
    }
  }

  lemma KeyLessTotal(a: P.Variant, b: P.Variant)
    ensures SameKey(a, b) || KeyLess(a, b) || KeyLess(b, a)
  {
    TextLessTotal(a.jewelryType, b.jewelryType);
    TextLessTotal(a.service, b.service);
  }

  ghost predicate DistinctKeys(vs: seq<P.Variant>) {
    forall i, j :: 0 <= i < j < |vs| ==> !SameKey(vs[i], vs[j])
  }

  // ---------------------------------------------------------------- the hashed text

  function Decimal(n: nat): string {
    if n < 10 then [('0' as int + n) as char] else Decimal(n / 10) + [('0' as int + n % 10) as char]
  }

  function Line(v: P.Variant): string {
    v.jewelryType + "|" + v.service + "|" + Decimal(v.rowNumber) + "|" + v.prompt + "|" + v.referenceImageUrl.GetOr("")
  }

  function Joined(vs: seq<P.Variant>): string {
    if vs == [] then ""
    else if |vs| == 1 then Line(vs[0])
    else Line(vs[0]) + "\n" + Joined(vs[1..])
  }

  /** The argument of the SHA-256 in _compute_version; the version is the first 16 digits of its digest. */
  function Canonical(vs: seq<P.Variant>): string {
    Joined(Sorted(KeyLess, vs))
  }

  lemma {:induction false} SortedIsAscending(vs: seq<P.Variant>)
    requires DistinctKeys(vs)
    ensures Ascending(KeyLess, Sorted(KeyLess, vs))
  {
    if vs != [] {
      SortedIsAscending(vs[1..]);
      KeyLessIsStrict();
      var rest := Sorted(KeyLess, vs[1..]);
      forall y | y in rest ensures KeyLess(vs[0], y) || KeyLess(y, vs[0]) {
        SortedHas(KeyLess, vs[1..], y);
        var i :| 0 <= i < |vs[1..]| && vs[1..][i] == y;
        assert vs[i + 1] == y;
        KeyLessTotal(vs[0], y);
      }
      InsertKeepsAscending(KeyLess, rest, vs[0]);
    }
  }

  /** The version depends only on which variants there are, not on the order they were read in. */
  lemma VersionIgnoresOrder(a: seq<P.Variant>, b: seq<P.Variant>)
    requires DistinctKeys(a) && DistinctKeys(b)
    requires forall v :: v in a <==> v in b
    ensures Canonical(a) == Canonical(b)
  {
    SortedIsAscending(a);
    SortedIsAscending(b);
    KeyLessIsStrict();
    forall v ensures v in Sorted(KeyLess, a) <==> v in Sorted(KeyLess, b) {
      SortedHas(KeyLess, a, v);
      SortedHas(KeyLess, b, v);
    }
    AscendingIsUnique(KeyLess, Sorted(KeyLess, a), Sorted(KeyLess, b));
  }

  // ---------------------------------------------------------------- when keys are distinct

  /** Two filled cells of one row, in two columns of one type. */
  ghost predicate DoubleCell(grid: P.Grid, a: P.Cell, b: P.Cell) {
    && P.IsVariantCell(grid, a) && P.IsVariantCell(grid, b)
    && a.row == b.row && a.col != b.col
    && P.ColumnType(grid[0], a.col) == P.ColumnType(grid[0], b.col)
  }

  lemma BlockIsUnique(grid: P.Grid, a: P.Cell, b: P.Cell)
    requires P.IsVariantCell(grid, a) && P.IsVariantCell(grid, b) && a.row == b.row
    ensures a.category == b.category && a.start == b.start
  {
    hide P.Key, P.CategoryLabel, P.StyleLabel, P.Filled;
  }

  lemma DoubleCellClashes(grid: P.Grid, cells: seq<P.Cell>, variants: seq<P.Variant>, a: P.Cell, b: P.Cell)
    requires P.ParseOf(grid, cells, variants) && DoubleCell(grid, a, b)
    ensures !DistinctKeys(variants)
  {
    hide P.InBlock, P.Filled, SplitPromptAndUrl, P.CellText, P.ColumnType, P.ServiceName, TypeText;
    assert a in cells && b in cells;
    var i :| 0 <= i < |cells| && cells[i] == a;
    var j :| 0 <= j < |cells| && cells[j] == b;
    BlockIsUnique(grid, a, b);
    assert SameKey(variants[i], variants[j]) && SameKey(variants[j], variants[i]);
  }

  lemma ClashIsDoubleCell(grid: P.Grid, cells: seq<P.Cell>, variants: seq<P.Variant>, i: nat, j: nat)
    requires P.ParseOf(grid, cells, variants) && i < j < |variants| && SameKey(variants[i], variants[j])
    ensures DoubleCell(grid, cells[i], cells[j])
  {
    hide P.InBlock, SplitPromptAndUrl, P.CellText, P.ColumnType, P.ServiceName, TypeText;
    var a, b := cells[i], cells[j];
    assert P.Before(a, b);
    BlockIsUnique(grid, a, b);
    TypeTextInjective(P.ColumnType(grid[0], a.col).value, P.ColumnType(grid[0], b.col).value);
  }

  /** The parser's keys are distinct exactly when no row fills two columns of one type. */
  lemma ParsedKeysDistinct(grid: P.Grid, cells: seq<P.Cell>, variants: seq<P.Variant>)
    requires P.ParseOf(grid, cells, variants)
    ensures DistinctKeys(variants) <==> forall a, b :: !DoubleCell(grid, a, b)
  {
    hide DoubleCell, SameKey, P.IsVariantCell, P.VariantOf;
    if a, b :| DoubleCell(grid, a, b) {
      DoubleCellClashes(grid, cells, variants, a, b);
    }
    if !DistinctKeys(variants) {
      var i, j :| 0 <= i < j < |variants| && SameKey(variants[i], variants[j]);
      ClashIsDoubleCell(grid, cells, variants, i, j);
      assert |cells| == |variants| && DoubleCell(grid, cells[i], cells[j]);
    }
  }

  /** In particular when no two header columns map to the same type. */
  lemma DistinctHeadersDistinctKeys(grid: P.Grid, cells: seq<P.Cell>, variants: seq<P.Variant>)
    requires P.ParseOf(grid, cells, variants)
    requires forall c: nat, d: nat :: c < d < |grid[0]| && P.ColumnType(grid[0], c).Some? && P.ColumnType(grid[0], d).Some? ==>
               P.ColumnType(grid[0], c) != P.ColumnType(grid[0], d)
    ensures DistinctKeys(variants)
  {
    ParsedKeysDistinct(grid, cells, variants);
    hide P.InBlock, P.CellText, P.HeaderType;
  }
}
