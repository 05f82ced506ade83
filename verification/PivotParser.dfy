/** app/services/matrix_parser.py: the single pass over the pivot grid, against a per-cell definition. */
module PivotParser {
  import opened Enums
  import opened Options
  import opened Text
  import Orders

  type Row = seq<string>
  type Grid = seq<Row>

  datatype Variant = Variant(
    jewelryType: string, service: string, rowNumber: nat, prompt: string, referenceImageUrl: Option<string>)

  function HeaderType(name: string): Option<JewelryType> {
    if name == "anklets" then Some(Anklet)
    else if name == "necklace" then Some(Necklace)
    else if name == "earrings" then Some(Earring)
    else if name == "bangles" then Some(Bangle)
    else if name == "bracelets" then Some(Bracelet)
    else if name == "hipbelt" then Some(Hipbelt)
    else if name == "ring" then Some(Ring)
    else None
  }

  function CategoryLabel(key: string): Option<string> {
    if key == "female model" then Some("FEMALE_MODEL")
    else if key == "male model" then Some("MALE_MODEL")
    else if key == "mannequin - only in necklace" then Some("MANNEQUIN")
    else if key == "product styling" then Some("PRODUCT_STYLING")
    else None
  }

  function StyleLabel(key: string): Option<string> {
    if key == "traditional" then Some("TRADITIONAL")
    else if key == "modern" then Some("MODERN")
    else None
  }

  // ---------------------------------------------------------------- what the grid says, cell by cell

  function ColumnA(row: Row): string {
    if row == [] then "" else Strip(row[0])
  }

  function Key(row: Row): string {
    Lower(ColumnA(row))
  }

  /** The type of a column, from row 1. Column A never has one. */
  function ColumnType(header: Row, col: nat): Option<JewelryType> {
    if 1 <= col < |header| then HeaderType(Lower(Strip(header[col]))) else None
  }

  function CellText(row: Row, col: nat): string {
    if col < |row| then Strip(row[col]) else ""
  }

  /** Row r belongs to the block that category row `category` and style row `start` open. */
  ghost predicate InBlock(grid: Grid, category: nat, start: nat, r: nat) {
    && 1 <= category < start <= r < |grid|
    && CategoryLabel(Key(grid[category])).Some? && StyleLabel(Key(grid[start])).Some?
    && (forall k :: category < k <= r ==> CategoryLabel(Key(grid[k])).None?)
    && (forall k :: start < k <= r ==> StyleLabel(Key(grid[k])).None?)
  }

  /** A cell of the grid with the two label rows it falls under. */
  datatype Cell = Cell(category: nat, start: nat, col: nat, row: nat)

  ghost predicate Filled(grid: Grid, c: Cell) {
    c.row < |grid| && ColumnType(grid[0], c.col).Some? && CellText(grid[c.row], c.col) != ""
  }

  ghost predicate IsVariantCell(grid: Grid, c: Cell) {
    InBlock(grid, c.category, c.start, c.row) && Filled(grid, c)
  }

  function ServiceName(grid: Grid, category: nat, start: nat): string
    requires category < |grid| && start < |grid|
  {
    CategoryLabel(Key(grid[category])).GetOr("") + "_" + StyleLabel(Key(grid[start])).GetOr("")
  }

  function TypeName(header: Row, col: nat): string {
    var t := ColumnType(header, col);
    if t.Some? then TypeText(t.value) else ""
  }

  function VariantOf(grid: Grid, c: Cell): Variant
    requires 0 < |grid| && c.category < |grid| && c.start < |grid| && c.row < |grid|
  {
    var (prompt, url) := SplitPromptAndUrl(CellText(grid[c.row], c.col));
    Variant(TypeName(grid[0], c.col), ServiceName(grid, c.category, c.start), c.row + 1, prompt, url)
  }

  /** Block, then column, then row. */
  predicate Before(a: Cell, b: Cell) {
    a.start < b.start || (a.start == b.start && (a.col < b.col || (a.col == b.col && a.row < b.row)))
  }

  ghost predicate Ordered(cells: seq<Cell>) {
    forall i, j :: 0 <= i < j < |cells| ==> Before(cells[i], cells[j])
  }

  /**
   * The per-cell definition: exactly the filled cells of open blocks, each once, in order, each giving
   * its own variant.
   */
  ghost predicate ParseOf(grid: Grid, cells: seq<Cell>, variants: seq<Variant>) {
    && grid != []
    && Ordered(cells)
    && (forall c :: c in cells <==> IsVariantCell(grid, c))
    && |variants| == |cells|
    && (forall i :: 0 <= i < |cells| ==> IsVariantCell(grid, cells[i]) && variants[i] == VariantOf(grid, cells[i]))
  }

  /** The definition leaves no choice: one list of cells, so one list of variants. */
  lemma ParseIsDetermined(grid: Grid, cells1: seq<Cell>, variants1: seq<Variant>, cells2: seq<Cell>, variants2: seq<Variant>)
    requires ParseOf(grid, cells1, variants1) && ParseOf(grid, cells2, variants2)
    ensures cells1 == cells2 && variants1 == variants2
  {
    hide IsVariantCell, VariantOf;
    assert Orders.StrictOrder(Before);
    assert forall c :: c in cells1 <==> c in cells2;
    Orders.AscendingIsUnique(Before, cells1, cells2);
  }

  /** R7: each variant's prompt, some space and its URL are the stripped cell it came from. */
  lemma VariantRebuildsCell(grid: Grid, cells: seq<Cell>, variants: seq<Variant>, i: nat)
    requires ParseOf(grid, cells, variants) && i < |variants|
    ensures var text := CellText(grid[cells[i].row], cells[i].col);
            var v := variants[i];
            && text != "" && v.rowNumber == cells[i].row + 1
            && match v.referenceImageUrl
               case None => v.prompt == text && forall p :: !UrlAt(text, p)
               case Some(u) =>
                 && |v.prompt| + |u| <= |text|
                 && v.prompt == text[..|v.prompt|] && u == text[|text| - |u|..]
                 && Blank(text[|v.prompt|..|text| - |u|])
                 && UrlAt(text, |text| - |u|)
  {
    hide Strip, IsSpace, UrlAt, Blank, SplitPromptAndUrl, InBlock, TypeName, ServiceName;
    var c := cells[i];
    assert IsVariantCell(grid, c);
    var text := CellText(grid[c.row], c.col);
    StripRemovesOnlySpace(grid[c.row][c.col]);
    SplitRebuildsCell(text);
  }

  // ---------------------------------------------------------------- the two lists of complaints

  function UnresolvedHeaders(header: Row, n: nat): seq<string>
    requires n <= |header|
  {
    if n <= 1 then []
    else
      var name := Strip(header[n - 1]);
      UnresolvedHeaders(header, n - 1) + (if name != "" && HeaderType(Lower(name)).None? then [name] else [])
  }

  predicate NoCategoryBefore(grid: Grid, r: nat)
    requires r <= |grid|
  {
    forall k :: 1 <= k < r ==> CategoryLabel(Key(grid[k])).None?
  }

  /** A style label before any category, or a label that is neither. */
  predicate UnresolvedLabel(grid: Grid, r: nat)
    requires r < |grid|
  {
    var key := Key(grid[r]);
    && CategoryLabel(key).None?
    && if StyleLabel(key).Some? then NoCategoryBefore(grid, r) else ColumnA(grid[r]) != ""
  }

  function UnresolvedLabels(grid: Grid, n: nat): seq<(nat, string)>
    requires n <= |grid|
  {
    if n <= 1 then []
    else UnresolvedLabels(grid, n - 1) + (if UnresolvedLabel(grid, n - 1) then [(n, ColumnA(grid[n - 1]))] else [])
  }

  // ---------------------------------------------------------------- the single pass

  /** The recognised columns among the first n, in order. */
  ghost predicate ColumnsOf(header: Row, columns: seq<nat>, n: nat) {
    && (forall i, j :: 0 <= i < j < |columns| ==> columns[i] < columns[j])
    && (forall i :: 0 <= i < |columns| ==> columns[i] < n && ColumnType(header, columns[i]).Some?)
    && (forall c: nat :: c < n && ColumnType(header, c).Some? ==> c in columns)
  }

  method ReadHeader(header: Row) returns (columns: seq<nat>, unresolved: seq<string>)
    ensures ColumnsOf(header, columns, |header|)
    ensures unresolved == UnresolvedHeaders(header, |header|)
  {
    hide HeaderType, Lower, Strip;
    columns, unresolved := [], [];
    var col := 1;
    while col < |header|
      invariant 1 <= col && (header != [] ==> col <= |header|)
      invariant ColumnsOf(header, columns, col)
      invariant unresolved == UnresolvedHeaders(header, if header == [] then 0 else col)
    {
      var name := Strip(header[col]);
      var jewelryType := HeaderType(Lower(name));
      if name != "" {
        if jewelryType.None? {
          unresolved := unresolved + [name];
        } else {
          columns := columns + [col];
        }
      } else {
        BlankHeader();
      }
      col := col + 1;
    }
  }

  lemma BlankHeader()
    ensures HeaderType(Lower("")).None?
  {
    assert Lower("") == "";
  }

  /** The first column not yet emitted, once the first ci columns have been. */
  function Bound(header: Row, columns: seq<nat>, ci: nat): nat {
    if ci < |columns| then columns[ci] else |header|
  }

  lemma NextBound(header: Row, columns: seq<nat>, ci: nat, col: nat)
    requires ColumnsOf(header, columns, |header|) && ci < |columns| && ColumnType(header, col).Some?
    ensures col < Bound(header, columns, ci + 1) <==> col <= columns[ci]
  {
    hide HeaderType, Strip, Lower;
    assert col in columns;
  }

  /** The cells that closing a block at row `end` emits: those of the given rows and of columns below `bound`. */
  ghost predicate Emits(grid: Grid, cells: seq<Cell>, category: nat, start: nat, end: nat, bound: nat, col: nat, row: nat) {
    forall c :: c in cells <==>
      && c.category == category && c.start == start && start <= c.row < end && Filled(grid, c)
      && (c.col < bound || (c.col == col && c.row < row))
  }

  method CloseBlock(grid: Grid, columns: seq<nat>, service: string, ghost category: nat, start: nat, end: nat)
    returns (variants: seq<Variant>, ghost cells: seq<Cell>)
    requires grid != [] && ColumnsOf(grid[0], columns, |grid[0]|)
    requires category < |grid| && start <= end <= |grid| && start < |grid|
    requires service == ServiceName(grid, category, start)
    ensures Ordered(cells) && |cells| == |variants|
    ensures forall c :: c in cells <==>
              c.category == category && c.start == start && start <= c.row < end && Filled(grid, c)
    ensures forall i :: 0 <= i < |cells| ==>
              cells[i].category == category && cells[i].start == start && start <= cells[i].row < end
              && variants[i] == VariantOf(grid, cells[i])
  {
    hide HeaderType, Lower, Strip, SplitPromptAndUrl, TypeName, ServiceName, Key, CategoryLabel, StyleLabel;
    variants, cells := [], [];
    var ci := 0;
    while ci < |columns|
      invariant ci <= |columns|
      invariant Ordered(cells) && |cells| == |variants|
      invariant Emits(grid, cells, category, start, end, Bound(grid[0], columns, ci), 0, 0)
      invariant forall i :: 0 <= i < |cells| ==>
                  cells[i] in cells && variants[i] == VariantOf(grid, cells[i])
    {
      var col := columns[ci];
      var r := start;
      while r < end
        invariant start <= r <= end
        invariant Ordered(cells) && |cells| == |variants|
        invariant Emits(grid, cells, category, start, end, col, col, r)
        invariant forall i :: 0 <= i < |cells| ==>
                    cells[i] in cells && variants[i] == VariantOf(grid, cells[i])
      {
        var cell := CellText(grid[r], col);
        if cell != "" {
          var (prompt, url) := SplitPromptAndUrl(cell);
          variants := variants + [Variant(TypeName(grid[0], col), service, r + 1, prompt, url)];
          ghost var c := Cell(category, start, col, r);
          AppendKeepsOrder(grid, cells, c, end);
          cells := cells + [c];
        }
        r := r + 1;
      }
      forall c: Cell | ColumnType(grid[0], c.col).Some? ensures c.col < Bound(grid[0], columns, ci + 1) <==> c.col <= col {
        NextBound(grid[0], columns, ci, c.col);
      }
      ci := ci + 1;
    }
  }

  lemma AppendKeepsOrder(grid: Grid, cells: seq<Cell>, c: Cell, end: nat)
    requires Ordered(cells) && Emits(grid, cells, c.category, c.start, end, c.col, c.col, c.row)
    ensures Ordered(cells + [c])
  {
    forall i | 0 <= i < |cells| ensures Before(cells[i], c) {
      assert cells[i] in cells;
    }
  }

  /** The cells of closed blocks among the first `end` rows: all but those of the open block. */
  ghost predicate Closed(grid: Grid, cells: seq<Cell>, end: nat, open: Option<nat>) {
    forall c :: c in cells <==> IsVariantCell(grid, c) && c.row < end && open != Some(c.start)
  }

  /** The label rows among the first `end` rows, as far as they still matter. */
  ghost predicate LabelsAre(grid: Grid, end: nat, category: Option<nat>, start: Option<nat>)
    requires 1 <= end <= |grid|
  {
    && (category.None? ==> start.None? && NoCategoryBefore(grid, end))
    && (category.Some? ==>
          && 1 <= category.value < end && CategoryLabel(Key(grid[category.value])).Some?
          && (forall k :: category.value < k < end ==> CategoryLabel(Key(grid[k])).None?)
          && var from := if start.Some? then start.value else category.value;
             && category.value <= from < end
             && (forall k :: from < k < end ==> StyleLabel(Key(grid[k])).None?)
             && (start.Some? ==> category.value < from && StyleLabel(Key(grid[from])).Some?))
  }

  /** Under those labels a row is in a block exactly when one is open, and then in that one. */
  lemma OpenBlockOfRow(grid: Grid, end: nat, category: Option<nat>, start: Option<nat>, c: nat, s: nat, r: nat)
    requires 1 <= end <= |grid| && LabelsAre(grid, end, category, start)
    requires r < end
    ensures start.Some? && start.value <= r ==> (InBlock(grid, c, s, r) <==> category == Some(c) && start == Some(s))
    ensures start.None? && category.Some? && category.value <= r ==> !InBlock(grid, c, s, r)
    ensures category.None? ==> !InBlock(grid, c, s, r)
    ensures start.Some? && InBlock(grid, c, s, r) && s == start.value ==> category == Some(c)
  {
    hide Key, CategoryLabel, StyleLabel;
  }

  /** Closing the open block at `end` completes the first `end` rows. */
  lemma CloseCompletes(grid: Grid, end: nat, category: Option<nat>, start: Option<nat>, cells: seq<Cell>, more: seq<Cell>)
    requires 1 <= end <= |grid| && LabelsAre(grid, end, category, start)
    requires Closed(grid, cells, end, start) && Ordered(cells)
    requires if start.None? then more == [] else
               Ordered(more) && forall c :: c in more <==>
                 c.category == category.value && c.start == start.value && start.value <= c.row < end && Filled(grid, c)
    ensures Closed(grid, cells + more, end, None) && Ordered(cells + more)
  {
    if start.Some? {
      forall c: Cell | c.row < end
        ensures c in more <==> IsVariantCell(grid, c) && c.start == start.value
        ensures c in cells ==> c.start < start.value
      {
        OpenBlockOfRow(grid, end, category, start, c.category, c.start, c.row);
        assert c in cells ==> IsVariantCell(grid, c) && c.start != start.value;
      }
      AppendBlock(cells, more, start.value);
      hide Ordered, IsVariantCell, LabelsAre, Filled;
    } else {
      assert cells + more == cells;
    }
  }

  lemma AppendBlock(cells: seq<Cell>, more: seq<Cell>, start: nat)
    requires Ordered(cells) && Ordered(more)
    requires forall c :: c in cells ==> c.start < start
    requires forall c :: c in more ==> c.start == start
    ensures Ordered(cells + more)
  {
    assert forall i :: 0 <= i < |cells| ==> cells[i] in cells;
    assert forall i :: 0 <= i < |more| ==> more[i] in more;
  }

  /** A row after the label rows: which block, if any, the rows so far leave open. */
  lemma NextRow(grid: Grid, i: nat, category: Option<nat>, start: Option<nat>, cells: seq<Cell>)
    requires 1 <= i < |grid| && LabelsAre(grid, i, category, start)
    requires CategoryLabel(Key(grid[i])).None? && StyleLabel(Key(grid[i])).None?
    requires Closed(grid, cells, i, start)
    ensures LabelsAre(grid, i + 1, category, start) && Closed(grid, cells, i + 1, start)
    ensures UnresolvedLabel(grid, i) <==> ColumnA(grid[i]) != ""
  {
    hide Key, CategoryLabel, StyleLabel, Filled;
    assert LabelsAre(grid, i + 1, category, start);
    forall c: Cell | c.row == i ensures IsVariantCell(grid, c) ==> start == Some(c.start) {
      OpenBlockOfRow(grid, i + 1, category, start, c.category, c.start, c.row);
    }
  }

  lemma CategoryRow(grid: Grid, i: nat, cells: seq<Cell>)
    requires 1 <= i < |grid| && CategoryLabel(Key(grid[i])).Some? && Closed(grid, cells, i, None)
    ensures LabelsAre(grid, i + 1, Some(i), None) && Closed(grid, cells, i + 1, None)
    ensures !UnresolvedLabel(grid, i)
  {
    hide Key, CategoryLabel, StyleLabel, Filled;
  }

  lemma StyleRow(grid: Grid, i: nat, category: Option<nat>, start: Option<nat>, cells: seq<Cell>)
    requires 1 <= i < |grid| && LabelsAre(grid, i, category, start) && Closed(grid, cells, i, None)
    requires CategoryLabel(Key(grid[i])).None? && StyleLabel(Key(grid[i])).Some?
    ensures var open := if category.Some? then Some(i) else None;
            LabelsAre(grid, i + 1, category, open) && Closed(grid, cells, i + 1, open)
    ensures UnresolvedLabel(grid, i) <==> category.None?
  {
    hide Key, CategoryLabel, StyleLabel, Filled;
  }

  /** The variants, for some list of cells, are the ones the per-cell definition gives. */
  ghost predicate Emitted(grid: Grid, cells: seq<Cell>, variants: seq<Variant>) {
    && grid != [] && |cells| == |variants|
    && forall i :: 0 <= i < |cells| ==>
         cells[i].category < |grid| && cells[i].start < |grid| && cells[i].row < |grid|
         && variants[i] == VariantOf(grid, cells[i])
  }

  method CloseOpenBlock(grid: Grid, columns: seq<nat>, category: Option<string>, style: Option<string>, blockStart: Option<nat>,
                        end: nat, ghost categoryRow: Option<nat>, variants: seq<Variant>, ghost cells: seq<Cell>)
    returns (allVariants: seq<Variant>, ghost allCells: seq<Cell>)
    requires 1 <= end <= |grid| && ColumnsOf(grid[0], columns, |grid[0]|)
    requires LabelsAre(grid, end, categoryRow, blockStart) && style.Some? == blockStart.Some?
    requires categoryRow.Some? ==> category == CategoryLabel(Key(grid[categoryRow.value]))
    requires blockStart.Some? ==> style == StyleLabel(Key(grid[blockStart.value]))
    requires category.Some? == categoryRow.Some?
    requires Closed(grid, cells, end, blockStart) && Ordered(cells) && Emitted(grid, cells, variants)
    ensures Closed(grid, allCells, end, None) && Ordered(allCells) && Emitted(grid, allCells, allVariants)
  {
    hide Key, CategoryLabel, StyleLabel, Filled, VariantOf, Closed, Ordered, InBlock, IsVariantCell;
    if blockStart.None? || category.None? || style.None? {
      CloseCompletes(grid, end, categoryRow, blockStart, cells, []);
      assert cells + [] == cells;
      return variants, cells;
    }
    var service := category.value + "_" + style.value;
    var more, moreCells := CloseBlock(grid, columns, service, categoryRow.value, blockStart.value, end);
    CloseCompletes(grid, end, categoryRow, blockStart, cells, moreCells);
    return variants + more, cells + moreCells;
  }

  /**
   * parse_pivot_matrix. The variants are exactly those of the per-cell definition, in its order; the
   * two lists of complaints are exactly the header names and labels that resolve to nothing.
   */
  method ParsePivotMatrix(grid: Grid)
    returns (header: Row, unresolvedHeaders: seq<string>, variants: seq<Variant>, unresolvedLabels: seq<(nat, string)>,
             ghost cells: seq<Cell>)
    ensures grid == [] ==> header == [] && unresolvedHeaders == [] && variants == [] && unresolvedLabels == []
    ensures grid != [] ==>
              && header == grid[0] && unresolvedHeaders == UnresolvedHeaders(header, |header|)
              && unresolvedLabels == UnresolvedLabels(grid, |grid|)
              && ParseOf(grid, cells, variants)
  {
    hide Key, ColumnA, CategoryLabel, StyleLabel, LabelsAre, UnresolvedLabel, UnresolvedHeaders, ColumnsOf;
    hide Closed, Ordered, Emitted, ParseOf, Strip, Lower;
    if grid == [] {
      return [], [], [], [], [];
    }
    header := grid[0];
    var columns: seq<nat>;
    columns, unresolvedHeaders := ReadHeader(header);
    variants, unresolvedLabels, cells := [], [], [];

    var currentCategory: Option<string> := None;
    var currentStyle: Option<string> := None;
    var blockStart: Option<nat> := None;
    ghost var categoryRow: Option<nat> := None;

    NothingYet(grid);
    for i := 1 to |grid|
      invariant LabelsAre(grid, i, categoryRow, blockStart) && currentStyle.Some? == blockStart.Some?
      invariant categoryRow.Some? ==> categoryRow.value < i && currentCategory == CategoryLabel(Key(grid[categoryRow.value]))
      invariant blockStart.Some? ==> blockStart.value < i && currentStyle == StyleLabel(Key(grid[blockStart.value]))
      invariant currentCategory.Some? == categoryRow.Some?
      invariant Closed(grid, cells, i, blockStart) && Ordered(cells) && Emitted(grid, cells, variants)
      invariant unresolvedLabels == UnresolvedLabels(grid, i)
    {
      var columnA := ColumnA(grid[i]);
      var key := Key(grid[i]);

      if CategoryLabel(key).Some? {
        variants, cells := CloseOpenBlock(grid, columns, currentCategory, currentStyle, blockStart, i, categoryRow, variants, cells);
        CategoryRow(grid, i, cells);
        currentCategory := CategoryLabel(key);
        currentStyle, blockStart := None, None;
        categoryRow := Some(i);
      } else if StyleLabel(key).Some? {
        variants, cells := CloseOpenBlock(grid, columns, currentCategory, currentStyle, blockStart, i, categoryRow, variants, cells);
        StyleRow(grid, i, categoryRow, blockStart, cells);
        if currentCategory.None? {
          unresolvedLabels := unresolvedLabels + [(i + 1, columnA)];
          currentStyle, blockStart := None, None;
        } else {
          currentStyle, blockStart := StyleLabel(key), Some(i);
        }
      } else {
        if columnA != "" {
          unresolvedLabels := unresolvedLabels + [(i + 1, columnA)];
        }
        NextRow(grid, i, categoryRow, blockStart, cells);
      }
    }
    variants, cells := CloseOpenBlock(grid, columns, currentCategory, currentStyle, blockStart, |grid|, categoryRow, variants, cells);
    ClosedIsParse(grid, cells, variants);
  }

  lemma NothingYet(grid: Grid)
    requires grid != []
    ensures LabelsAre(grid, 1, None, None) && Closed(grid, [], 1, None) && Ordered([]) && Emitted(grid, [], [])
  {
    hide Key, CategoryLabel, StyleLabel, Filled;
  }

  lemma ClosedIsParse(grid: Grid, cells: seq<Cell>, variants: seq<Variant>)
    requires grid != [] && Closed(grid, cells, |grid|, None) && Ordered(cells) && Emitted(grid, cells, variants)
    ensures ParseOf(grid, cells, variants)
  {
    hide Key, CategoryLabel, StyleLabel, Filled, VariantOf, Ordered;
    assert forall i :: 0 <= i < |cells| ==> cells[i] in cells;
  }
}
