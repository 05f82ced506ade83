/** What the parser's tables, blocks and complaints mean: which service a block asks for, and which rows have one. */
module PivotMeaning {
  import opened Enums
  import opened Options
  import opened PivotParser
  import opened Text

  // ---------------------------------------------------------------- the tables

  /** A header names a type exactly by the client's word for it, in any case. */
  lemma HeaderNames(header: Row, col: nat)
    requires 1 <= col < |header|
    ensures var name := Lower(Strip(header[col]));
            && (ColumnType(header, col) == Some(Anklet) <==> name == "anklets")
            && (ColumnType(header, col) == Some(Necklace) <==> name == "necklace")
            && (ColumnType(header, col) == Some(Earring) <==> name == "earrings")
            && (ColumnType(header, col) == Some(Bangle) <==> name == "bangles")
            && (ColumnType(header, col) == Some(Bracelet) <==> name == "bracelets")
            && (ColumnType(header, col) == Some(Hipbelt) <==> name == "hipbelt")
            && (ColumnType(header, col) == Some(Ring) <==> name == "ring")
  {
    hide Lower, Strip;
  }

  lemma LabelNames(key: string)
    ensures CategoryLabel(key) == Some("FEMALE_MODEL") <==> key == "female model"
    ensures CategoryLabel(key) == Some("MALE_MODEL") <==> key == "male model"
    ensures CategoryLabel(key) == Some("MANNEQUIN") <==> key == "mannequin - only in necklace"
    ensures CategoryLabel(key) == Some("PRODUCT_STYLING") <==> key == "product styling"
    ensures StyleLabel(key) == Some("TRADITIONAL") <==> key == "traditional"
    ensures StyleLabel(key) == Some("MODERN") <==> key == "modern"
  {
  }

  /** The service of a block: its category row says who wears the piece, its style row how. */
  function ServiceFor(category: string, style: string): Option<ServiceType> {
    if style == "traditional" then
      if category == "female model" then Some(FemaleModelTraditional)
      else if category == "male model" then Some(MaleModelTraditional)
      else if category == "mannequin - only in necklace" then Some(MannequinTraditional)
      else if category == "product styling" then Some(ProductStylingTraditional)
      else None
    else if style == "modern" then
      if category == "female model" then Some(FemaleModelModern)
      else if category == "male model" then Some(MaleModelModern)
      else if category == "mannequin - only in necklace" then Some(MannequinModern)
      else if category == "product styling" then Some(ProductStylingModern)
      else None
    else None
  }

  lemma FemaleModelServices()
    ensures "FEMALE_MODEL" + "_" + "TRADITIONAL" == ServiceText(FemaleModelTraditional)
    ensures "FEMALE_MODEL" + "_" + "MODERN" == ServiceText(FemaleModelModern)
  {
  }

  lemma MaleModelServices()
    ensures "MALE_MODEL" + "_" + "TRADITIONAL" == ServiceText(MaleModelTraditional)
    ensures "MALE_MODEL" + "_" + "MODERN" == ServiceText(MaleModelModern)
  {
  }

  lemma MannequinServices()
    ensures "MANNEQUIN" + "_" + "TRADITIONAL" == ServiceText(MannequinTraditional)
    ensures "MANNEQUIN" + "_" + "MODERN" == ServiceText(MannequinModern)
  {
  }

  lemma StylingServices()
    ensures "PRODUCT_STYLING" + "_" + "TRADITIONAL" == ServiceText(ProductStylingTraditional)
    ensures "PRODUCT_STYLING" + "_" + "MODERN" == ServiceText(ProductStylingModern)
  {
  }

  lemma BlockService(grid: Grid, category: nat, start: nat)
    requires category < |grid| && start < |grid|
    requires CategoryLabel(Key(grid[category])).Some? && StyleLabel(Key(grid[start])).Some?
    ensures var s := ServiceFor(Key(grid[category]), Key(grid[start]));
            s.Some? && ServiceName(grid, category, start) == ServiceText(s.value)
  {
    hide Key, ServiceText;
    FemaleModelServices();
    MaleModelServices();
    MannequinServices();
    StylingServices();
  }

  /** Every variant the parser makes is for one type and one service, those of its column and its block: a request can ask for it. */
  lemma VariantCanBeAskedFor(grid: Grid, cells: seq<Cell>, variants: seq<Variant>, i: nat)
    requires ParseOf(grid, cells, variants) && i < |variants|
    ensures var c, v := cells[i], variants[i];
            && c.category < |grid| && c.start < |grid|
            && var t, s := ColumnType(grid[0], c.col), ServiceFor(Key(grid[c.category]), Key(grid[c.start]));
               t.Some? && s.Some? && v.jewelryType == TypeText(t.value) && v.service == ServiceText(s.value)
  {
    hide Key, CellText, SplitPromptAndUrl, HeaderType, CategoryLabel, StyleLabel, ServiceFor, ServiceText, TypeText;
    assert IsVariantCell(grid, cells[i]) && InBlock(grid, cells[i].category, cells[i].start, cells[i].row);
    BlockService(grid, cells[i].category, cells[i].start);
  }

  // ---------------------------------------------------------------- the blocks

  lemma {:induction false} LastCategory(grid: Grid, c: nat, s: nat) returns (last: nat)
    requires 1 <= c <= s < |grid| && CategoryLabel(Key(grid[c])).Some?
    ensures c <= last <= s && CategoryLabel(Key(grid[last])).Some?
    ensures forall k :: last < k <= s ==> CategoryLabel(Key(grid[k])).None?
    decreases s - c
  {
    hide Key, CategoryLabel;
    if k :| c < k <= s && CategoryLabel(Key(grid[k])).Some? {
      last := LastCategory(grid, k, s);
    } else {
      last := c;
    }
  }

  lemma {:induction false} LastStyle(grid: Grid, s: nat, r: nat) returns (last: nat)
    requires 1 <= s <= r < |grid| && StyleLabel(Key(grid[s])).Some?
    ensures s <= last <= r && StyleLabel(Key(grid[last])).Some?
    ensures forall k :: last < k <= r ==> StyleLabel(Key(grid[k])).None?
    decreases r - s
  {
    hide Key, StyleLabel;
    if k :| s < k <= r && StyleLabel(Key(grid[k])).Some? {
      last := LastStyle(grid, k, r);
    } else {
      last := s;
    }
  }

  /** A style label from which on no category comes any more, up to row r, with a category somewhere above it. */
  ghost predicate StyledSince(grid: Grid, r: nat, c: nat, s: nat)
    requires r < |grid|
  {
    && 1 <= c < s <= r && CategoryLabel(Key(grid[c])).Some? && StyleLabel(Key(grid[s])).Some?
    && forall k :: s <= k <= r ==> CategoryLabel(Key(grid[k])).None?
  }

  /** A row is in a block, and then in one only, exactly when the labels above it say so. */
  lemma RowsOfBlocks(grid: Grid, r: nat)
    requires 1 <= r < |grid|
    ensures (exists c, s :: InBlock(grid, c, s, r)) <==> exists c, s :: StyledSince(grid, r, c, s)
    ensures forall c, s, c', s' :: InBlock(grid, c, s, r) && InBlock(grid, c', s', r) ==> c == c' && s == s'
  {
    hide Key, CategoryLabel, StyleLabel;
    if c, s :| InBlock(grid, c, s, r) {
      assert StyledSince(grid, r, c, s);
    }
    if c, s :| StyledSince(grid, r, c, s) {
      var last := LastStyle(grid, s, r);
      var category := LastCategory(grid, c, last);
      assert InBlock(grid, category, last, r);
    }
  }

  /** The cells of a parse: the filled cells of typed columns, in rows of blocks, by block, then column, then row. */
  lemma CellsOfParse(grid: Grid, cells: seq<Cell>, variants: seq<Variant>, c: Cell)
    requires ParseOf(grid, cells, variants)
    ensures c in cells <==>
              && InBlock(grid, c.category, c.start, c.row)
              && 1 <= c.col < |grid[0]| && ColumnType(grid[0], c.col) != None
              && c.col < |grid[c.row]| && Strip(grid[c.row][c.col]) != ""
    ensures forall i, j :: 0 <= i < j < |cells| ==>
              || cells[i].start < cells[j].start
              || (cells[i].start == cells[j].start && cells[i].col < cells[j].col)
              || (cells[i].start == cells[j].start && cells[i].col == cells[j].col && cells[i].row < cells[j].row)
  {
    hide Strip, HeaderType, Lower, VariantOf, Key, CategoryLabel, StyleLabel;
    assert c in cells <==> IsVariantCell(grid, c);
    assert forall i, j :: 0 <= i < j < |cells| ==> Before(cells[i], cells[j]);
  }

  // ---------------------------------------------------------------- the complaints

  /** A header is reported exactly when it is neither blank nor a type; headers come in column order. */
  lemma {:induction false} ReportedHeaders(header: Row, n: nat, name: string)
    requires n <= |header|
    ensures name in UnresolvedHeaders(header, n) <==>
              exists col :: 1 <= col < n && name == Strip(header[col]) && name != "" && ColumnType(header, col).None?
  {
    hide HeaderType, Lower, Strip;
    if n > 1 {
      ReportedHeaders(header, n - 1, name);
      var last := Strip(header[n - 1]);
      assert ColumnType(header, n - 1) == HeaderType(Lower(last));
    }
  }

  /**
   * A label is reported, with its row number, exactly when it is no category and either a style before
   * any category or no style at all and not blank.
   */
  lemma {:induction false} ReportedLabels(grid: Grid, n: nat, number: nat, text: string)
    requires n <= |grid|
    ensures (number, text) in UnresolvedLabels(grid, n) <==>
              && 2 <= number <= n && text == ColumnA(grid[number - 1]) && text != ""
              && CategoryLabel(Lower(text)).None?
              && (StyleLabel(Lower(text)).Some? ==> forall k :: 1 <= k < number - 1 ==> CategoryLabel(Key(grid[k])).None?)
  {
    hide ColumnA, CategoryLabel, StyleLabel, Lower;
    if n > 1 {
      ReportedLabels(grid, n - 1, number, text);
      BlankLabel();
      var one := if UnresolvedLabel(grid, n - 1) then [(n, ColumnA(grid[n - 1]))] else [];
      assert UnresolvedLabels(grid, n) == UnresolvedLabels(grid, n - 1) + one;
      hide UnresolvedLabels;
    }
  }

  lemma BlankLabel()
    ensures CategoryLabel(Lower("")).None? && StyleLabel(Lower("")).None?
  {
    assert Lower("") == "";
  }
}
