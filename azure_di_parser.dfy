/** The structured layout adapter (backend/app/services/azure_di_parser.py):
    paragraph roles, page attribution, the table grid and its Markdown
    rendering, the page-coverage guard and the section builder. The layout
    analysis service and its response objects are modelled by the raw
    datatypes below; the service call itself is not part of this model. */
module AzureDiParser {
  import opened Wrappers
  import opened Seqs
  import opened Text
  import opened Sorting
  import opened Markdown

  // ---------------------------------------------------------------------
  // Data model
  // ---------------------------------------------------------------------

  datatype ParagraphRole =
    | Title | SectionHeading | PageHeader | PageFooter | PageNumber | Footnote | Body

  /** The string value of each role, as the layout service spells it. */
  function RoleValue(role: ParagraphRole): string
  {
    match role
    case Title => "title"
    case SectionHeading => "sectionHeading"
    case PageHeader => "pageHeader"
    case PageFooter => "pageFooter"
    case PageNumber => "pageNumber"
    case Footnote => "footnote"
    case Body => "body"
  }

  /** FILTERED_ROLES: page furniture, dropped before sections are built. */
  predicate IsFiltered(role: ParagraphRole)
  {
    role == PageHeader || role == PageFooter || role == PageNumber
  }

  datatype Paragraph = Paragraph(text: string, role: ParagraphRole, page: int)

  datatype Table = Table(
    markdown: string,
    pageStart: int,
    pageEnd: int,
    rowCount: nat,
    columnCount: nat,
    caption: string)

  datatype KeyValuePair = KeyValuePair(key: string, value: string, page: int)

  /** A section element is either a paragraph or a table. */
  datatype Element = Para(para: Paragraph) | Tab(table: Table)

  datatype Section = Section(
    heading: string,
    level: int,
    pageStart: int,
    pageEnd: int,
    elements: seq<Element>)

  datatype StructuredDocument = StructuredDocument(
    paragraphs: seq<Paragraph>,
    tables: seq<Table>,
    keyValuePairs: seq<KeyValuePair>,
    sections: seq<Section>,
    pageCount: int)

  /** One table cell of the layout response. A missing span is `None`. */
  datatype Cell = Cell(
    rowIndex: nat,
    columnIndex: nat,
    content: Option<string>,
    rowSpan: Option<int>,
    columnSpan: Option<int>)

  // ---------------------------------------------------------------------
  // Roles and pages
  // ---------------------------------------------------------------------

  /** `_map_role`: the role a string names; `None`, the empty string and any
      unknown string give Body. */
  function MapRole(role: Option<string>): (r: ParagraphRole)
    ensures (role.Some? && role.value == RoleValue(r))
         || (r == Body && forall k :: role != Some(RoleValue(k)))
  {
    if role.None? then Body
    else if role.value == "title" then Title
    else if role.value == "sectionHeading" then SectionHeading
    else if role.value == "pageHeader" then PageHeader
    else if role.value == "pageFooter" then PageFooter
    else if role.value == "pageNumber" then PageNumber
    else if role.value == "footnote" then Footnote
    else Body
  }

  /** Mapping is the inverse of the role's string value. */
  lemma {:induction false} MapRoleInvertsRoleValue(role: ParagraphRole)
    ensures MapRole(Some(RoleValue(role))) == role
  {
  }

  /** `_get_page_number`: the page of the first bounding region, or page 1
      when there is none. */
  function PageOf(regionPages: seq<int>): (page: int)
    ensures regionPages != [] ==> page == regionPages[0]
    ensures regionPages == [] ==> page == 1
  {
    if regionPages != [] then regionPages[0] else 1
  }

  /** The pages of a table: the least and greatest bounding-region page, or
      page 1 when the table has no regions. */
  function TablePageRange(regionPages: seq<int>): (range: (int, int))
    ensures range.0 <= range.1
    ensures forall p :: p in regionPages ==> range.0 <= p <= range.1
    ensures regionPages == [] ==> range == (1, 1)
    ensures regionPages != [] ==> range.0 in regionPages && range.1 in regionPages
  {
    var pages := if regionPages != [] then regionPages else [1];
    (MinOf(pages), MaxOf(pages))
  }

  // ---------------------------------------------------------------------
  // Table grid and Markdown
  // ---------------------------------------------------------------------

  /** `getattr(cell, "row_span", 1) or 1`: a missing or zero span counts as 1. */
  function Span(span: Option<int>): (n: int)
    ensures n != 0
  {
    match span
    case None => 1
    case Some(n) => if n == 0 then 1 else n
  }

  /** A cell's text: newlines become spaces, then surrounding whitespace goes. */
  function CellText(cell: Cell): (text: string)
    ensures '\n' !in text
  {
    var t := NewlinesToSpaces(cell.content.GetOr(""));
    StripChars(t);
    Strip(t)
  }

  /** The cell's span reaches grid position (r, c). */
  predicate Covers(cell: Cell, r: int, c: int)
  {
    && cell.rowIndex <= r < cell.rowIndex + Span(cell.rowSpan)
    && cell.columnIndex <= c < cell.columnIndex + Span(cell.columnSpan)
  }

  /** The content of grid position (r, c) once `cells` have been written in
      order: the text of the last cell that covers it, or "". */
  function GridCell(cells: seq<Cell>, r: int, c: int): (text: string)
    ensures '\n' !in text
  {
    if cells == [] then ""
    else if Covers(cells[|cells| - 1], r, c) then CellText(cells[|cells| - 1])
    else GridCell(cells[..|cells| - 1], r, c)
  }

  function GridRow(cells: seq<Cell>, columns: nat, r: int): seq<string>
  {
    seq(columns, c => GridCell(cells, r, c))
  }

  /** The rendered lines: header row 0, separator, then rows 1 .. rows-1. */
  function TableLines(rows: nat, columns: nat, cells: seq<Cell>): (lines: seq<string>)
    requires rows >= 1
    ensures |lines| == rows + 1
  {
    [RowLine(GridRow(cells, columns, 0)), SeparatorLine(columns)]
      + seq(rows - 1, i => RowLine(GridRow(cells, columns, i + 1)))
  }

  /** The Markdown text of a table with the given dimensions and cells. */
  function TableText(rows: nat, columns: nat, cells: seq<Cell>): string
  {
    if rows == 0 || columns == 0 then "" else Join("\n", TableLines(rows, columns, cells))
  }

  /** A grid position that no cell's spans reach holds "". */
  lemma {:induction false} GridCellUncovered(cells: seq<Cell>, r: int, c: int)
    requires forall k | 0 <= k < |cells| :: !Covers(cells[k], r, c)
    ensures GridCell(cells, r, c) == ""
    decreases |cells|
  {
    if cells != [] {
      var init := cells[..|cells| - 1];
      assert forall k | 0 <= k < |init| :: init[k] == cells[k];
      GridCellUncovered(init, r, c);
    }
  }

  /** A grid position holds the text of the last cell whose spans reach it:
      later cells overwrite earlier ones. */
  lemma {:induction false} GridCellLastCover(cells: seq<Cell>, r: int, c: int, k: nat)
    requires k < |cells| && Covers(cells[k], r, c)
    requires forall l | k < l < |cells| :: !Covers(cells[l], r, c)
    ensures GridCell(cells, r, c) == CellText(cells[k])
    decreases |cells|
  {
    var n := |cells| - 1;
    if k < n {
      var init := cells[..n];
      assert !Covers(cells[n], r, c);
      assert forall l | 0 <= l < |init| :: init[l] == cells[l];
      GridCellLastCover(init, r, c, k);
    }
  }

  /** Every rendered line is newline-free, so splitting the Markdown text on
      newlines gives back exactly the row_count + 1 lines: header, separator
      and the remaining rows. */
  lemma {:induction false} TableTextSplitsIntoLines(rows: nat, columns: nat, cells: seq<Cell>)
    requires rows >= 1 && columns >= 1
    ensures SplitLines(TableText(rows, columns, cells)) == TableLines(rows, columns, cells)
    ensures |SplitLines(TableText(rows, columns, cells))| == rows + 1
  {
    var lines := TableLines(rows, columns, cells);
    forall k | 0 <= k < |lines|
      ensures '\n' !in lines[k]
    {
      if k == 1 {
        RowLineWithoutNewline(seq(columns, _ => "---"));
      } else {
        var row := if k == 0 then 0 else k - 1;
        RowLineWithoutNewline(GridRow(cells, columns, row));
      }
    }
    SplitJoinedLines(lines);
  }

  function RowOf(grid: array2<string>, i: nat): seq<string>
    reads grid
    requires i < grid.Length0
  {
    seq(grid.Length1, j requires 0 <= j < grid.Length1 reads grid => grid[i, j])
  }

  /** One pass of the span loops: writes the cell's text into every grid
      position its spans reach that lies inside the grid. */
  method PaintCell(grid: array2<string>, cell: Cell)
    modifies grid
    ensures forall i, j :: 0 <= i < grid.Length0 && 0 <= j < grid.Length1 ==>
      grid[i, j] == (if Covers(cell, i, j) then CellText(cell) else old(grid[i, j]))
  {
    var content := CellText(cell);
    var rowSpan := Span(cell.rowSpan);
    var colSpan := Span(cell.columnSpan);
    var r := 0;
    while r < rowSpan
      invariant 0 <= r <= (if rowSpan < 0 then 0 else rowSpan)
      invariant forall i, j :: 0 <= i < grid.Length0 && 0 <= j < grid.Length1 ==>
        grid[i, j] == (if cell.rowIndex <= i < cell.rowIndex + r
                          && cell.columnIndex <= j < cell.columnIndex + colSpan
                       then content else old(grid[i, j]))
    {
      var c := 0;
      while c < colSpan
        invariant 0 <= c <= (if colSpan < 0 then 0 else colSpan)
        invariant forall i, j :: 0 <= i < grid.Length0 && 0 <= j < grid.Length1 ==>
          grid[i, j] == (if (cell.rowIndex <= i < cell.rowIndex + r
                             && cell.columnIndex <= j < cell.columnIndex + colSpan)
                            || (i == cell.rowIndex + r
                                && cell.columnIndex <= j < cell.columnIndex + c)
                         then content else old(grid[i, j]))
      {
        var targetR := cell.rowIndex + r;
        var targetC := cell.columnIndex + c;
        if targetR < grid.Length0 && targetC < grid.Length1 {
          grid[targetR, targetC] := content;
        }
        c := c + 1;
      }
      r := r + 1;
    }
  }

  /** The grid-filling half of `_table_to_markdown`: every position holds
      the text of the last cell whose spans reach it, or "". */
  method FillGrid(rowCount: nat, columnCount: nat, cells: seq<Cell>) returns (grid: array2<string>)
    ensures fresh(grid) && grid.Length0 == rowCount && grid.Length1 == columnCount
    ensures forall i, j :: 0 <= i < rowCount && 0 <= j < columnCount ==>
      grid[i, j] == GridCell(cells, i, j)
  {
    grid := new string[rowCount, columnCount]((_, _) => "");
    for k := 0 to |cells|
      invariant forall i, j :: 0 <= i < rowCount && 0 <= j < columnCount ==>
        grid[i, j] == GridCell(cells[..k], i, j)
    {
      assert cells[..k + 1][..k] == cells[..k];
      PaintCell(grid, cells[k]);
    }
    assert cells[..|cells|] == cells;
  }

  /** The lines the rendering loop emits for a grid: header, separator, body rows. */
  function GridLines(grid: array2<string>): (lines: seq<string>)
    reads grid
    requires grid.Length0 >= 1
    ensures |lines| == grid.Length0 + 1
  {
    [RowLine(RowOf(grid, 0)), SeparatorLine(grid.Length1)]
      + seq(grid.Length0 - 1, i requires 0 <= i < grid.Length0 - 1 reads grid => RowLine(RowOf(grid, i + 1)))
  }

  lemma {:induction false} GridLinesAreRows(grid: array2<string>)
    requires grid.Length0 >= 1
    ensures RowLines(GridLines(grid))
  {
  }

  /** Line 0 is the header row and line `i + 1` is row `i` for every later row. */
  lemma {:induction false} GridLineAt(grid: array2<string>, i: nat)
    requires 1 <= grid.Length0 && i < grid.Length0
    ensures GridLines(grid)[if i == 0 then 0 else i + 1] == RowLine(RowOf(grid, i))
    ensures GridLines(grid)[1] == SeparatorLine(grid.Length1)
  {
  }

  /** The rendering half: one line per grid row after the separator, each
      followed by a newline, and the whole text stripped at the end. */
  method RenderGrid(grid: array2<string>) returns (md: string)
    requires grid.Length0 >= 1
    ensures md == Join("\n", GridLines(grid))
  {
    ghost var lines := GridLines(grid);
    md := RowLine(RowOf(grid, 0)) + "\n";
    GridLineAt(grid, 0);
    AccumulatedFirst(lines);
    md := md + SeparatorLine(grid.Length1) + "\n";
    AccumulatedPrefix(lines, 1);
    for i := 1 to grid.Length0
      invariant md == Accumulated(lines[..i + 1])
    {
      var line := RowLine(RowOf(grid, i));
      GridLineAt(grid, i);
      AccumulatedPrefix(lines, i + 1);
      md := md + line + "\n";
    }
    AccumulatedWhole(lines);
    GridLinesAreRows(grid);
    StripAccumulatedRows(lines);
    md := Strip(md);
  }

  /** `_table_to_markdown`: fills a dense grid from the sparse, spanned cells
      and renders it; an empty dimension gives "". */
  method TableToMarkdown(rowCount: nat, columnCount: nat, cells: seq<Cell>) returns (md: string)
    ensures md == TableText(rowCount, columnCount, cells)
  {
    if rowCount == 0 || columnCount == 0 {
      return "";
    }
    var grid := FillGrid(rowCount, columnCount, cells);
    md := RenderGrid(grid);
    GridLinesMatch(grid, rowCount, columnCount, cells);
  }

  /** A grid filled from the cells renders to the lines of the cells. */
  lemma {:induction false} GridLinesMatch(grid: array2<string>, rows: nat, columns: nat, cells: seq<Cell>)
    requires rows >= 1 && grid.Length0 == rows && grid.Length1 == columns
    requires forall i, j :: 0 <= i < rows && 0 <= j < columns ==> grid[i, j] == GridCell(cells, i, j)
    ensures GridLines(grid) == TableLines(rows, columns, cells)
  {
    var g, t := GridLines(grid), TableLines(rows, columns, cells);
    forall k | 0 <= k < |g|
      ensures g[k] == t[k]
    {
      if k != 1 {
        var i := if k == 0 then 0 else k - 1;
        assert RowOf(grid, i) == GridRow(cells, columns, i);
      }
    }
  }

  // ---------------------------------------------------------------------
  // Section building
  // ---------------------------------------------------------------------

  /** Paragraphs that become section elements: body text and footnotes. */
  predicate IsContent(role: ParagraphRole)
  {
    role == Body || role == Footnote
  }

  predicate IsContentParagraph(p: Paragraph)
  {
    IsContent(p.role)
  }

  predicate IsKept(p: Paragraph)
  {
    !IsFiltered(p.role)
  }

  /** The last page an element reaches. */
  function EndPage(e: Element): int
  {
    match e
    case Para(p) => p.page
    case Tab(t) => t.pageEnd
  }

  /** The sort key `(page_start, page_end)` as a comparison. */
  function TableLe(a: Table, b: Table): bool
  {
    a.pageStart < b.pageStart || (a.pageStart == b.pageStart && a.pageEnd <= b.pageEnd)
  }

  /** The tables with the sort key `(start, end)`. */
  function HasKey(start: int, end: int): Table -> bool
  {
    (t: Table) => t.pageStart == start && t.pageEnd == end
  }

  /** Tables are drained in key order: sorted by (page start, page end), a
      permutation of the input, and tables with equal keys keep their input
      order. */
  lemma {:induction false} TablesSortedByPages(tables: seq<Table>)
    ensures SortedBy(SortBy(tables, TableLe), TableLe)
    ensures multiset(SortBy(tables, TableLe)) == multiset(tables)
    ensures forall start, end ::
      Filter(SortBy(tables, TableLe), HasKey(start, end)) == Filter(tables, HasKey(start, end))
  {
    assert TotalPreorder(TableLe);
    SortBySorted(tables, TableLe);
    forall start, end
      ensures Filter(SortBy(tables, TableLe), HasKey(start, end)) == Filter(tables, HasKey(start, end))
    {
      SortByStable(tables, TableLe, HasKey(start, end));
    }
  }

  /** The section open before the first heading. */
  const Introduction := Section("Introduction", 1, 1, 1, [])

  /** Appends an element and extends the section's last page to it. */
  function Append(s: Section, e: Element): Section
  {
    s.(elements := s.elements + [e], pageEnd := Max(s.pageEnd, EndPage(e)))
  }

  /** How many leading pending tables start on or before `page`. */
  function DueCount(pending: seq<Table>, page: int): (k: nat)
    ensures k <= |pending|
  {
    if pending != [] && pending[0].pageStart <= page then 1 + DueCount(pending[1..], page) else 0
  }

  /** The inner while loop: moves pending tables that start on or before
      `page` into the current section, stopping at the first that does not. */
  function Drain(current: Section, pending: seq<Table>, page: int): (Section, seq<Table>)
    decreases |pending|
  {
    if pending != [] && pending[0].pageStart <= page then
      Drain(Append(current, Tab(pending[0])), pending[1..], page)
    else (current, pending)
  }

  /** The final while loop: every remaining table goes to the current section. */
  function DrainAll(current: Section, pending: seq<Table>): Section
    decreases |pending|
  {
    if pending == [] then current else DrainAll(Append(current, Tab(pending[0])), pending[1..])
  }

  /** `if current_section.elements: sections.append(current_section)`. */
  function Close(done: seq<Section>, current: Section): seq<Section>
  {
    if current.elements != [] then done + [current] else done
  }

  /** The state of the fold: closed sections, the open section, and the
      sorted tables not yet placed. */
  datatype Builder = Builder(done: seq<Section>, current: Section, pending: seq<Table>)

  /** One iteration of the paragraph loop. */
  function Step(b: Builder, p: Paragraph): Builder
  {
    if IsFiltered(p.role) then b
    else
      var drained := Drain(b.current, b.pending, p.page);
      if p.role == Title then
        Builder(Close(b.done, drained.0), Section(p.text, 1, p.page, p.page, []), drained.1)
      else if p.role == SectionHeading then
        Builder(Close(b.done, drained.0), Section(p.text, 2, p.page, p.page, []), drained.1)
      else
        Builder(b.done, Append(drained.0, Para(p)), drained.1)
  }

  function Run(b: Builder, paras: seq<Paragraph>): Builder
    decreases |paras|
  {
    if paras == [] then b else Run(Step(b, paras[0]), paras[1..])
  }

  /** After the paragraph loop: drain the rest and close the open section. */
  function Finish(b: Builder): seq<Section>
  {
    Close(b.done, DrainAll(b.current, b.pending))
  }

  function Start(tables: seq<Table>): Builder
  {
    Builder([], Introduction, SortBy(tables, TableLe))
  }

  /** The sections `_build_sections` returns. */
  function SectionsOf(paras: seq<Paragraph>, tables: seq<Table>): seq<Section>
  {
    Finish(Run(Start(tables), paras))
  }

  /** The inner while loop of `_build_sections`, over the sorted tables
      from `tableIdx` on. */
  method DrainDue(current: Section, tablesSorted: seq<Table>, tableIdx: nat, page: int)
    returns (next: Section, nextIdx: nat)
    requires tableIdx <= |tablesSorted|
    ensures tableIdx <= nextIdx <= |tablesSorted|
    ensures (next, tablesSorted[nextIdx..]) == Drain(current, tablesSorted[tableIdx..], page)
  {
    next, nextIdx := current, tableIdx;
    while nextIdx < |tablesSorted|
      invariant tableIdx <= nextIdx <= |tablesSorted|
      invariant Drain(next, tablesSorted[nextIdx..], page) == Drain(current, tablesSorted[tableIdx..], page)
    {
      var t := tablesSorted[nextIdx];
      if t.pageStart <= page {
        assert tablesSorted[nextIdx..][1..] == tablesSorted[nextIdx + 1..];
        next := next.(elements := next.elements + [Tab(t)], pageEnd := Max(next.pageEnd, t.pageEnd));
        nextIdx := nextIdx + 1;
      } else {
        break;
      }
    }
  }

  /** The while loop after the paragraph loop. */
  method DrainRest(current: Section, tablesSorted: seq<Table>, tableIdx: nat) returns (next: Section)
    requires tableIdx <= |tablesSorted|
    ensures next == DrainAll(current, tablesSorted[tableIdx..])
  {
    next := current;
    var idx := tableIdx;
    while idx < |tablesSorted|
      invariant tableIdx <= idx <= |tablesSorted|
      invariant DrainAll(next, tablesSorted[idx..]) == DrainAll(current, tablesSorted[tableIdx..])
    {
      var t := tablesSorted[idx];
      assert tablesSorted[idx..][1..] == tablesSorted[idx + 1..];
      next := next.(elements := next.elements + [Tab(t)], pageEnd := Max(next.pageEnd, t.pageEnd));
      idx := idx + 1;
    }
  }

  /** `_build_sections`, as the loops of the source run it. */
  method BuildSections(paragraphs: seq<Paragraph>, tables: seq<Table>) returns (sections: seq<Section>)
    ensures sections == SectionsOf(paragraphs, tables)
  {
    sections := [];
    var current := Introduction;
    var tablesSorted := SortBy(tables, TableLe);
    var tableIdx := 0;
    for i := 0 to |paragraphs|
      invariant tableIdx <= |tablesSorted|
      invariant Run(Builder(sections, current, tablesSorted[tableIdx..]), paragraphs[i..])
             == Run(Start(tables), paragraphs)
    {
      assert paragraphs[i..][1..] == paragraphs[i + 1..];
      var para := paragraphs[i];
      if IsFiltered(para.role) {
        continue;
      }
      current, tableIdx := DrainDue(current, tablesSorted, tableIdx, para.page);
      if para.role == Title {
        if current.elements != [] {
          sections := sections + [current];
        }
        current := Section(para.text, 1, para.page, para.page, []);
      } else if para.role == SectionHeading {
        if current.elements != [] {
          sections := sections + [current];
        }
        current := Section(para.text, 2, para.page, para.page, []);
      } else {
        current := current.(elements := current.elements + [Para(para)],
                            pageEnd := Max(current.pageEnd, para.page));
      }
    }
    current := DrainRest(current, tablesSorted, tableIdx);
    if current.elements != [] {
      sections := sections + [current];
    }
  }

  // ---------------------------------------------------------------------
  // Where elements go
  // ---------------------------------------------------------------------

  /** The elements of the sections, section after section. */
  function Flatten(sections: seq<Section>): seq<Element>
  {
    if sections == [] then [] else Flatten(sections[..|sections| - 1]) + sections[|sections| - 1].elements
  }

  function Tabs(tables: seq<Table>): seq<Element>
  {
    if tables == [] then [] else [Tab(tables[0])] + Tabs(tables[1..])
  }

  /** The tables among the elements, in order. */
  function TablesOf(es: seq<Element>): seq<Table>
  {
    if es == [] then [] else (if es[0].Tab? then [es[0].table] else []) + TablesOf(es[1..])
  }

  /** The paragraphs among the elements, in order. */
  function ParasOf(es: seq<Element>): seq<Paragraph>
  {
    if es == [] then [] else (if es[0].Para? then [es[0].para] else []) + ParasOf(es[1..])
  }

  /** The element order `_build_sections` produces, without the section
      breaks: before each kept paragraph, the pending tables that start on or
      before its page; then the paragraph itself unless it is a heading; at
      the end, every table still pending. */
  function Merge(paras: seq<Paragraph>, pending: seq<Table>): seq<Element>
    decreases |paras|
  {
    if paras == [] then Tabs(pending)
    else if IsFiltered(paras[0].role) then Merge(paras[1..], pending)
    else
      var k := DueCount(pending, paras[0].page);
      Tabs(pending[..k]) + (if IsContent(paras[0].role) then [Para(paras[0])] else [])
        + Merge(paras[1..], pending[k..])
  }

  lemma {:induction false} TablesOfAppend(a: seq<Element>, b: seq<Element>)
    ensures TablesOf(a + b) == TablesOf(a) + TablesOf(b)
    decreases |a|
  {
    if a == [] {
      assert a + b == b;
    } else {
      var h := if a[0].Tab? then [a[0].table] else [];
      assert (a + b)[0] == a[0];
      assert (a + b)[1..] == a[1..] + b;
      TablesOfAppend(a[1..], b);
      assert TablesOf(a + b) == h + (TablesOf(a[1..]) + TablesOf(b));
      AppendAssoc(h, TablesOf(a[1..]), TablesOf(b));
    }
  }

  lemma {:induction false} ParasOfAppend(a: seq<Element>, b: seq<Element>)
    ensures ParasOf(a + b) == ParasOf(a) + ParasOf(b)
    decreases |a|
  {
    if a == [] {
      assert a + b == b;
    } else {
      var h := if a[0].Para? then [a[0].para] else [];
      assert (a + b)[0] == a[0];
      assert (a + b)[1..] == a[1..] + b;
      ParasOfAppend(a[1..], b);
      assert ParasOf(a + b) == h + (ParasOf(a[1..]) + ParasOf(b));
      AppendAssoc(h, ParasOf(a[1..]), ParasOf(b));
    }
  }

  /** The tables and the paragraphs of three consecutive runs of elements. */
  lemma {:induction false} OfAppend3(x: seq<Element>, y: seq<Element>, z: seq<Element>)
    ensures TablesOf(x + y + z) == TablesOf(x) + TablesOf(y) + TablesOf(z)
    ensures ParasOf(x + y + z) == ParasOf(x) + ParasOf(y) + ParasOf(z)
  {
    TablesOfAppend(x, y);
    TablesOfAppend(x + y, z);
    ParasOfAppend(x, y);
    ParasOfAppend(x + y, z);
  }

  lemma {:induction false} TablesOfTabs(tables: seq<Table>)
    ensures TablesOf(Tabs(tables)) == tables
    ensures ParasOf(Tabs(tables)) == []
    decreases |tables|
  {
    if tables != [] {
      TablesOfTabs(tables[1..]);
      TablesOfAppend([Tab(tables[0])], Tabs(tables[1..]));
      ParasOfAppend([Tab(tables[0])], Tabs(tables[1..]));
    }
  }

  lemma {:induction false} TabsAppend(a: seq<Table>, b: seq<Table>)
    ensures Tabs(a + b) == Tabs(a) + Tabs(b)
    decreases |a|
  {
    if a == [] {
      assert a + b == b;
    } else {
      assert (a + b)[0] == a[0];
      assert (a + b)[1..] == a[1..] + b;
      TabsAppend(a[1..], b);
      assert Tabs(a + b) == [Tab(a[0])] + (Tabs(a[1..]) + Tabs(b));
      AppendAssoc([Tab(a[0])], Tabs(a[1..]), Tabs(b));
    }
  }

  lemma {:induction false} FlattenClose(done: seq<Section>, current: Section)
    ensures Flatten(Close(done, current)) == Flatten(done) + current.elements
  {
    if current.elements != [] {
      assert (done + [current])[..|done|] == done;
    } else {
      assert Flatten(done) + current.elements == Flatten(done);
    }
  }

  /** Draining moves exactly the due prefix of the pending tables, in order,
      and keeps the section's heading, level and first page. */
  lemma {:induction false} DrainMovesDuePrefix(current: Section, pending: seq<Table>, page: int)
    ensures Drain(current, pending, page).0.elements
         == current.elements + Tabs(pending[..DueCount(pending, page)])
    ensures Drain(current, pending, page).1 == pending[DueCount(pending, page)..]
    ensures Drain(current, pending, page).0.heading == current.heading
    ensures Drain(current, pending, page).0.level == current.level
    ensures Drain(current, pending, page).0.pageStart == current.pageStart
    decreases |pending|
  {
    var k := DueCount(pending, page);
    if pending != [] && pending[0].pageStart <= page {
      DrainMovesDuePrefix(Append(current, Tab(pending[0])), pending[1..], page);
      assert pending[..k] == [pending[0]] + pending[1..][..k - 1];
      assert pending[1..][k - 1..] == pending[k..];
      TabsAppend([pending[0]], pending[1..][..k - 1]);
    } else {
      assert pending[..0] == [];
    }
  }

  lemma {:induction false} DrainAllMovesAll(current: Section, pending: seq<Table>)
    ensures DrainAll(current, pending).elements == current.elements + Tabs(pending)
    ensures DrainAll(current, pending).heading == current.heading
    ensures DrainAll(current, pending).level == current.level
    ensures DrainAll(current, pending).pageStart == current.pageStart
    decreases |pending|
  {
    if pending != [] {
      DrainAllMovesAll(Append(current, Tab(pending[0])), pending[1..]);
      TabsAppend([pending[0]], pending[1..]);
      assert [pending[0]] + pending[1..] == pending;
    }
  }

  /** One kept paragraph: what the step adds to the flattened sections is
      the due tables and, unless it is a heading, the paragraph. */
  lemma {:induction false} StepEmits(b: Builder, p: Paragraph)
    requires !IsFiltered(p.role)
    ensures var k := DueCount(b.pending, p.page);
      && Flatten(Step(b, p).done) + Step(b, p).current.elements
         == Flatten(b.done) + b.current.elements + Tabs(b.pending[..k])
            + (if IsContent(p.role) then [Para(p)] else [])
      && Step(b, p).pending == b.pending[k..]
  {
    var drained := Drain(b.current, b.pending, p.page);
    DrainMovesDuePrefix(b.current, b.pending, p.page);
    if p.role == Title || p.role == SectionHeading {
      FlattenClose(b.done, drained.0);
    }
  }

  lemma {:induction false} FlattenRun(b: Builder, paras: seq<Paragraph>)
    ensures Flatten(Finish(Run(b, paras))) == Flatten(b.done) + b.current.elements + Merge(paras, b.pending)
    decreases |paras|
  {
    if paras == [] {
      DrainAllMovesAll(b.current, b.pending);
      FlattenClose(b.done, DrainAll(b.current, b.pending));
    } else {
      var next := Step(b, paras[0]);
      assert Run(b, paras) == Run(next, paras[1..]);
      FlattenRun(next, paras[1..]);
      if !IsFiltered(paras[0].role) {
        FlattenRunKept(b, paras);
      } else {
        assert Merge(paras, b.pending) == Merge(paras[1..], b.pending);
      }
    }
  }

  /** The step for a kept paragraph, glued onto the rest of the run. */
  lemma {:induction false} FlattenRunKept(b: Builder, paras: seq<Paragraph>)
    requires paras != [] && !IsFiltered(paras[0].role)
    requires var next := Step(b, paras[0]);
      Flatten(Finish(Run(next, paras[1..])))
      == Flatten(next.done) + next.current.elements + Merge(paras[1..], next.pending)
    ensures Flatten(Finish(Run(Step(b, paras[0]), paras[1..])))
         == Flatten(b.done) + b.current.elements + Merge(paras, b.pending)
  {
    var p, next := paras[0], Step(b, paras[0]);
    var k := DueCount(b.pending, p.page);
    var mid: seq<Element> := if IsContent(p.role) then [Para(p)] else [];
    MergeKept(paras, b.pending);
    StepEmits(b, p);
    Glue(Flatten(b.done) + b.current.elements, Tabs(b.pending[..k]), mid, Merge(paras[1..], b.pending[k..]));
  }

  lemma Glue<T>(a: seq<T>, b: seq<T>, c: seq<T>, d: seq<T>)
    ensures a + b + c + d == a + (b + c + d)
  {
  }

  /** Ignoring section breaks, the sections hold exactly the merged order of
      kept paragraphs and sorted tables. */
  lemma {:induction false} SectionsFlattenToMerge(paras: seq<Paragraph>, tables: seq<Table>)
    ensures Flatten(SectionsOf(paras, tables)) == Merge(paras, SortBy(tables, TableLe))
  {
    var b := Start(tables);
    var m := Merge(paras, b.pending);
    FlattenRun(b, paras);
    assert Flatten(b.done) + b.current.elements + m == m;
  }

  /** The first kept paragraph of a merge: its due tables, itself unless it
      is a heading, then the merge of the rest. */
  lemma {:induction false} MergeKept(paras: seq<Paragraph>, pending: seq<Table>)
    requires paras != [] && !IsFiltered(paras[0].role)
    ensures var k := DueCount(pending, paras[0].page);
      Merge(paras, pending)
      == Tabs(pending[..k]) + (if IsContent(paras[0].role) then [Para(paras[0])] else [])
         + Merge(paras[1..], pending[k..])
  {
  }

  /** Gluing a run of due tables and a table-free element before the rest. */
  lemma {:induction false} TablesOfGlue(due: seq<Table>, mid: seq<Element>, rest: seq<Element>)
    requires TablesOf(mid) == []
    ensures TablesOf(Tabs(due) + mid + rest) == due + TablesOf(rest)
  {
    TablesOfTabs(due);
    OfAppend3(Tabs(due), mid, rest);
    AppendNil(due);
  }

  lemma {:induction false} MergeTables(paras: seq<Paragraph>, pending: seq<Table>)
    ensures TablesOf(Merge(paras, pending)) == pending
    decreases |paras|
  {
    if paras == [] {
      TablesOfTabs(pending);
    } else if !IsFiltered(paras[0].role) {
      var k := DueCount(pending, paras[0].page);
      var mid: seq<Element> := if IsContent(paras[0].role) then [Para(paras[0])] else [];
      var rest := Merge(paras[1..], pending[k..]);
      MergeKept(paras, pending);
      MergeTables(paras[1..], pending[k..]);
      TablesOfGlue(pending[..k], mid, rest);
      assert pending[..k] + pending[k..] == pending;
    } else {
      MergeTables(paras[1..], pending);
    }
  }

  lemma {:induction false} MergeParas(paras: seq<Paragraph>, pending: seq<Table>)
    ensures ParasOf(Merge(paras, pending)) == Filter(paras, IsContentParagraph)
    decreases |paras|
  {
    if paras == [] {
      TablesOfTabs(pending);
    } else if !IsFiltered(paras[0].role) {
      var k := DueCount(pending, paras[0].page);
      MergeParas(paras[1..], pending[k..]);
      MergeParasKept(paras, pending);
    } else {
      MergeParas(paras[1..], pending);
      assert Filter(paras, IsContentParagraph) == Filter(paras[1..], IsContentParagraph);
    }
  }

  lemma {:induction false} MergeParasKept(paras: seq<Paragraph>, pending: seq<Table>)
    requires paras != [] && !IsFiltered(paras[0].role)
    requires ParasOf(Merge(paras[1..], pending[DueCount(pending, paras[0].page)..]))
             == Filter(paras[1..], IsContentParagraph)
    ensures ParasOf(Merge(paras, pending)) == Filter(paras, IsContentParagraph)
  {
    var p, k := paras[0], DueCount(pending, paras[0].page);
    var head := if IsContent(p.role) then [p] else [];
    var mid: seq<Element> := if IsContent(p.role) then [Para(p)] else [];
    assert Filter(paras, IsContentParagraph) == head + Filter(paras[1..], IsContentParagraph);
    MergeKept(paras, pending);
    ParasOfGlue(pending[..k], mid, Merge(paras[1..], pending[k..]));
    assert ParasOf(mid) == head;
  }

  /** Gluing a run of due tables and one element before the rest. */
  lemma {:induction false} ParasOfGlue(due: seq<Table>, mid: seq<Element>, rest: seq<Element>)
    ensures ParasOf(Tabs(due) + mid + rest) == ParasOf(mid) + ParasOf(rest)
  {
    TablesOfTabs(due);
    OfAppend3(Tabs(due), mid, rest);
    AppendNil(ParasOf(mid));
  }

  /** Every table in the sections comes once, in (page start, page end)
      order: the tables read off the sections are the sorted input tables. */
  lemma {:induction false} SectionTablesAreSortedInput(paras: seq<Paragraph>, tables: seq<Table>)
    ensures TablesOf(Flatten(SectionsOf(paras, tables))) == SortBy(tables, TableLe)
  {
    SectionsFlattenToMerge(paras, tables);
    MergeTables(paras, SortBy(tables, TableLe));
  }

  /** Every body and footnote paragraph comes once, in input order, and no
      other paragraph appears in a section. */
  lemma {:induction false} SectionParagraphsAreContent(paras: seq<Paragraph>, tables: seq<Table>)
    ensures ParasOf(Flatten(SectionsOf(paras, tables))) == Filter(paras, IsContentParagraph)
  {
    SectionsFlattenToMerge(paras, tables);
    MergeParas(paras, SortBy(tables, TableLe));
  }

  // ---------------------------------------------------------------------
  // Table placement
  // ---------------------------------------------------------------------

  /** In element order, a paragraph that comes before a table lies on a page
      before the table's first page; so a table comes before every body or
      footnote paragraph on or after its first page. */
  predicate TablesBeforeLaterParas(es: seq<Element>)
  {
    forall i, j :: 0 <= i < j < |es| && es[i].Para? && es[j].Tab? ==> es[i].para.page < es[j].table.pageStart
  }

  lemma {:induction false} TabsAreTables(tables: seq<Table>)
    ensures |Tabs(tables)| == |tables|
    ensures forall i :: 0 <= i < |tables| ==> Tabs(tables)[i] == Tab(tables[i])
    decreases |tables|
  {
    if tables != [] {
      TabsAreTables(tables[1..]);
    }
  }

  lemma {:induction false} TableElementsListed(es: seq<Element>)
    ensures forall j :: 0 <= j < |es| && es[j].Tab? ==> es[j].table in TablesOf(es)
    decreases |es|
  {
    if es != [] {
      TableElementsListed(es[1..]);
      forall j | 0 <= j < |es| && es[j].Tab?
        ensures es[j].table in TablesOf(es)
      {
        if j > 0 {
          assert es[j] == es[1..][j - 1];
        }
      }
    }
  }

  /** The tables left pending after a paragraph all start after its page. */
  lemma {:induction false} DueCountStops(pending: seq<Table>, page: int)
    requires SortedBy(pending, TableLe)
    ensures forall t | t in pending[DueCount(pending, page)..] :: page < t.pageStart
    decreases |pending|
  {
    var k := DueCount(pending, page);
    if pending != [] && pending[0].pageStart <= page {
      assert SortedBy(pending[1..], TableLe);
      DueCountStops(pending[1..], page);
      assert pending[1..][k - 1..] == pending[k..];
    } else if pending != [] {
      forall t | t in pending
        ensures page < t.pageStart
      {
        var j :| 0 <= j < |pending| && pending[j] == t;
        if j > 0 {
          assert TableLe(pending[0], pending[j]);
        }
      }
    }
  }

  lemma {:induction false} PlacementAppend(xs: seq<Element>, ys: seq<Element>)
    requires TablesBeforeLaterParas(xs) && TablesBeforeLaterParas(ys)
    requires forall i, j :: 0 <= i < |xs| && 0 <= j < |ys| && xs[i].Para? && ys[j].Tab? ==>
      xs[i].para.page < ys[j].table.pageStart
    ensures TablesBeforeLaterParas(xs + ys)
  {
    var es := xs + ys;
    forall i, j | 0 <= i < j < |es| && es[i].Para? && es[j].Tab?
      ensures es[i].para.page < es[j].table.pageStart
    {
      if j < |xs| {
        assert es[i] == xs[i] && es[j] == xs[j];
      } else if i >= |xs| {
        assert es[i] == ys[i - |xs|] && es[j] == ys[j - |xs|];
      } else {
        assert es[i] == xs[i] && es[j] == ys[j - |xs|];
      }
    }
  }

  lemma {:induction false} MergePlacement(paras: seq<Paragraph>, pending: seq<Table>)
    requires SortedBy(pending, TableLe)
    ensures TablesBeforeLaterParas(Merge(paras, pending))
    decreases |paras|
  {
    if paras == [] {
      TabsAreTables(pending);
    } else {
      var p, rest := paras[0], paras[1..];
      if !IsFiltered(p.role) {
        var k := DueCount(pending, p.page);
        var mid: seq<Element> := if IsContent(p.role) then [Para(p)] else [];
        var head := Tabs(pending[..k]) + mid;
        var tail := Merge(rest, pending[k..]);
        assert Merge(paras, pending) == head + tail;
        assert SortedBy(pending[k..], TableLe);
        MergePlacement(rest, pending[k..]);
        TabsAreTables(pending[..k]);
        assert forall i :: 0 <= i < |head| && head[i].Para? ==> head[i] == Para(p) && i == |head| - 1;
        DueCountStops(pending, p.page);
        MergeTables(rest, pending[k..]);
        TableElementsListed(tail);
        PlacementAppend(head, tail);
      } else {
        MergePlacement(rest, pending);
      }
    }
  }

  /** Within and across sections, every body or footnote paragraph placed
      before a table lies on a page before that table's first page. */
  lemma {:induction false} SectionTablesPlacedEarly(paras: seq<Paragraph>, tables: seq<Table>)
    ensures TablesBeforeLaterParas(Flatten(SectionsOf(paras, tables)))
  {
    SectionsFlattenToMerge(paras, tables);
    TablesSortedByPages(tables);
    MergePlacement(paras, SortBy(tables, TableLe));
  }

  // ---------------------------------------------------------------------
  // Section headings and pages
  // ---------------------------------------------------------------------

  /** Paragraph `p` opens a section with this heading, level and first page:
      a title opens level 1, a section heading level 2. */
  predicate Opens(p: Paragraph, heading: string, level: int, pageStart: int)
  {
    && heading == p.text
    && pageStart == p.page
    && ((p.role == Title && level == 1) || (p.role == SectionHeading && level == 2))
  }

  /** The section is the introduction (level 1 from page 1) or was opened by
      one of the paragraphs. */
  predicate HeadedFrom(s: Section, paras: seq<Paragraph>)
  {
    || (s.heading == "Introduction" && s.level == 1 && s.pageStart == 1)
    || exists p | p in paras :: Opens(p, s.heading, s.level, s.pageStart)
  }

  /** The section's last page is its first page or the furthest page one of
      its elements reaches, whichever is greater. */
  predicate PagesSpanned(s: Section)
  {
    && s.pageStart <= s.pageEnd
    && (forall e | e in s.elements :: EndPage(e) <= s.pageEnd)
    && (s.pageEnd == s.pageStart || exists e | e in s.elements :: EndPage(e) == s.pageEnd)
  }

  predicate WellBuilt(s: Section, paras: seq<Paragraph>)
  {
    HeadedFrom(s, paras) && PagesSpanned(s)
  }

  predicate ClosedWell(done: seq<Section>, paras: seq<Paragraph>)
  {
    forall s | s in done :: s.elements != [] && WellBuilt(s, paras)
  }

  lemma {:induction false} AppendSpans(s: Section, e: Element)
    requires PagesSpanned(s)
    ensures PagesSpanned(Append(s, e))
    ensures s.pageEnd <= Append(s, e).pageEnd
  {
    var t := Append(s, e);
    assert e in t.elements;
    forall x | x in t.elements
      ensures EndPage(x) <= t.pageEnd
    {
      if x != e {
        assert x in s.elements;
      }
    }
    if t.pageEnd != t.pageStart && t.pageEnd == s.pageEnd && s.pageEnd != s.pageStart {
      var w :| w in s.elements && EndPage(w) == s.pageEnd;
      assert w in t.elements;
    }
  }

  lemma {:induction false} DrainKeepsWellBuilt(current: Section, pending: seq<Table>, page: int, paras: seq<Paragraph>)
    requires WellBuilt(current, paras)
    ensures WellBuilt(Drain(current, pending, page).0, paras)
    decreases |pending|
  {
    if pending != [] && pending[0].pageStart <= page {
      AppendSpans(current, Tab(pending[0]));
      DrainKeepsWellBuilt(Append(current, Tab(pending[0])), pending[1..], page, paras);
    }
  }

  lemma {:induction false} DrainAllKeepsWellBuilt(current: Section, pending: seq<Table>, paras: seq<Paragraph>)
    requires WellBuilt(current, paras)
    ensures WellBuilt(DrainAll(current, pending), paras)
    decreases |pending|
  {
    if pending != [] {
      AppendSpans(current, Tab(pending[0]));
      DrainAllKeepsWellBuilt(Append(current, Tab(pending[0])), pending[1..], paras);
    }
  }

  lemma {:induction false} CloseKeeps(done: seq<Section>, current: Section, paras: seq<Paragraph>)
    requires ClosedWell(done, paras) && WellBuilt(current, paras)
    ensures ClosedWell(Close(done, current), paras)
  {
  }

  lemma {:induction false} StepKeepsWellBuilt(b: Builder, p: Paragraph, paras: seq<Paragraph>)
    requires p in paras
    requires ClosedWell(b.done, paras) && WellBuilt(b.current, paras)
    ensures ClosedWell(Step(b, p).done, paras) && WellBuilt(Step(b, p).current, paras)
  {
    if !IsFiltered(p.role) {
      var drained := Drain(b.current, b.pending, p.page);
      DrainKeepsWellBuilt(b.current, b.pending, p.page, paras);
      if p.role == Title || p.role == SectionHeading {
        CloseKeeps(b.done, drained.0, paras);
        assert Opens(p, Step(b, p).current.heading, Step(b, p).current.level, Step(b, p).current.pageStart);
      } else {
        AppendSpans(drained.0, Para(p));
      }
    }
  }

  lemma {:induction false} RunKeepsWellBuilt(b: Builder, rest: seq<Paragraph>, paras: seq<Paragraph>)
    requires forall p | p in rest :: p in paras
    requires ClosedWell(b.done, paras) && WellBuilt(b.current, paras)
    ensures ClosedWell(Run(b, rest).done, paras) && WellBuilt(Run(b, rest).current, paras)
    decreases |rest|
  {
    if rest != [] {
      StepKeepsWellBuilt(b, rest[0], paras);
      RunKeepsWellBuilt(Step(b, rest[0]), rest[1..], paras);
    }
  }

  /** Every section has elements, is the introduction or is headed by the
      text of a title (level 1) or section heading (level 2) paragraph from
      that paragraph's page, and ends on the later of its first page and
      the furthest page its elements reach. */
  lemma {:induction false} SectionsWellBuilt(paras: seq<Paragraph>, tables: seq<Table>)
    ensures forall s | s in SectionsOf(paras, tables) :: s.elements != [] && WellBuilt(s, paras)
  {
    var b := Run(Start(tables), paras);
    RunKeepsWellBuilt(Start(tables), paras, paras);
    DrainAllKeepsWellBuilt(b.current, b.pending, paras);
    CloseKeeps(b.done, DrainAll(b.current, b.pending), paras);
  }

  lemma {:induction false} FlattenNonEmpty(sections: seq<Section>)
    requires forall s | s in sections :: s.elements != []
    ensures Flatten(sections) == [] <==> sections == []
    decreases |sections|
  {
    if sections != [] {
      var last := sections[|sections| - 1];
      assert last in sections;
    }
  }

  lemma {:induction false} ElementsNonEmpty(es: seq<Element>)
    ensures es == [] <==> TablesOf(es) == [] && ParasOf(es) == []
  {
    if es != [] {
      assert es == [es[0]] + es[1..];
      TablesOfAppend([es[0]], es[1..]);
      ParasOfAppend([es[0]], es[1..]);
    }
  }

  /** No sections exactly when there is no body or footnote paragraph and no
      table; in particular empty input gives no sections. */
  lemma {:induction false} SectionsEmptyIff(paras: seq<Paragraph>, tables: seq<Table>)
    ensures SectionsOf(paras, tables) == [] <==> Filter(paras, IsContentParagraph) == [] && tables == []
  {
    var sections := SectionsOf(paras, tables);
    SectionsWellBuilt(paras, tables);
    FlattenNonEmpty(sections);
    SectionTablesAreSortedInput(paras, tables);
    SectionParagraphsAreContent(paras, tables);
    ElementsNonEmpty(Flatten(sections));
  }

  lemma {:induction false} RunIgnoresFurniture(b: Builder, paras: seq<Paragraph>)
    ensures Run(b, paras) == Run(b, Filter(paras, IsKept))
    decreases |paras|
  {
    if paras != [] {
      RunIgnoresFurniture(Step(b, paras[0]), paras[1..]);
      if IsKept(paras[0]) {
        assert Filter(paras, IsKept) == [paras[0]] + Filter(paras[1..], IsKept);
        assert Filter(paras, IsKept)[1..] == Filter(paras[1..], IsKept);
      } else {
        RunIgnoresFurniture(b, paras[1..]);
      }
    }
  }

  /** Page headers, footers and numbers have no effect at all: not even on
      when tables are drained. */
  lemma {:induction false} SectionsIgnoreFurniture(paras: seq<Paragraph>, tables: seq<Table>)
    ensures SectionsOf(paras, tables) == SectionsOf(Filter(paras, IsKept), tables)
  {
    RunIgnoresFurniture(Start(tables), paras);
  }

  // ---------------------------------------------------------------------
  // Sections cut at headings
  // ---------------------------------------------------------------------

  /** The merged order with the section breaks kept: an element placed in
      the open section, or a title or section-heading paragraph that starts
      a new one. */
  datatype Mark = Put(element: Element) | Break(heading: Paragraph)

  function PutTabs(tables: seq<Table>): seq<Mark>
  {
    if tables == [] then [] else [Put(Tab(tables[0]))] + PutTabs(tables[1..])
  }

  /** The mark a kept paragraph places: the paragraph itself when it is
      body text or a footnote, a break when it is a heading. */
  function MarkOf(p: Paragraph): Mark
  {
    if IsContent(p.role) then Put(Para(p)) else Break(p)
  }

  /** `Merge` with a break where each title or section heading is kept. */
  function MarkedMerge(paras: seq<Paragraph>, pending: seq<Table>): seq<Mark>
    decreases |paras|
  {
    if paras == [] then PutTabs(pending)
    else if IsFiltered(paras[0].role) then MarkedMerge(paras[1..], pending)
    else
      var k := DueCount(pending, paras[0].page);
      PutTabs(pending[..k])
        + [MarkOf(paras[0])]
        + MarkedMerge(paras[1..], pending[k..])
  }

  /** The elements of a marked sequence, breaks left out. */
  function Placed(marks: seq<Mark>): seq<Element>
  {
    if marks == [] then [] else (if marks[0].Put? then [marks[0].element] else []) + Placed(marks[1..])
  }

  /** The empty section a heading paragraph opens: its text, level 1 for a
      title and 2 for a section heading, on its page. */
  function OpenedBy(p: Paragraph): Section
  {
    Section(p.text, if p.role == Title then 1 else 2, p.page, p.page, [])
  }

  /** The open section with `es` appended in order. */
  function AppendAll(s: Section, es: seq<Element>): Section
    decreases |es|
  {
    if es == [] then s else AppendAll(Append(s, es[0]), es[1..])
  }

  /** The index of the first break, or `|marks|` when there is none. */
  function FirstBreak(marks: seq<Mark>): (k: nat)
    ensures k <= |marks|
    ensures forall i | 0 <= i < k :: marks[i].Put?
    ensures k < |marks| ==> marks[k].Break?
  {
    if marks == [] || marks[0].Break? then 0 else 1 + FirstBreak(marks[1..])
  }

  /** Cuts a marked sequence into sections, mark by mark: an element goes
      to the open section; a break closes it (dropped when it has no
      elements) and opens the heading's section. */
  function Split(marks: seq<Mark>, open: Section): seq<Section>
    decreases |marks|
  {
    if marks == [] then Close([], open)
    else match marks[0]
      case Put(e) => Split(marks[1..], Append(open, e))
      case Break(p) => Close([], open) + Split(marks[1..], OpenedBy(p))
  }

  /** Appending elements keeps heading, level and first page, adds them
      after the section's own, and ends on the later of its previous last
      page and the furthest page the new elements reach. */
  lemma {:induction false} AppendAllShape(s: Section, es: seq<Element>)
    ensures var t := AppendAll(s, es);
      && t.heading == s.heading && t.level == s.level && t.pageStart == s.pageStart
      && t.elements == s.elements + es
      && s.pageEnd <= t.pageEnd && (forall e | e in es :: EndPage(e) <= t.pageEnd)
      && (t.pageEnd == s.pageEnd || exists e | e in es :: EndPage(e) == t.pageEnd)
    decreases |es|
  {
    if es != [] {
      var s' := Append(s, es[0]);
      AppendAllShape(s', es[1..]);
      AppendAssoc(s.elements, [es[0]], es[1..]);
      assert [es[0]] + es[1..] == es;
      var t := AppendAll(s, es);
      forall e | e in es
        ensures EndPage(e) <= t.pageEnd
      {
        if e != es[0] {
          assert e in es[1..];
        }
      }
      if t.pageEnd != s'.pageEnd {
        var e :| e in es[1..] && EndPage(e) == t.pageEnd;
        assert e in es;
      }
    }
  }

  /** The marked sequence cut at its first break: the open section takes
      exactly the elements before that break, and the break's heading opens
      the section that the rest is cut into. */
  lemma {:induction false} SplitCutsAtBreaks(marks: seq<Mark>, open: Section)
    ensures var k := FirstBreak(marks);
      Split(marks, open)
      == Close([], AppendAll(open, Placed(marks[..k])))
         + (if k < |marks| then Split(marks[k + 1..], OpenedBy(marks[k].heading)) else [])
    decreases |marks|
  {
    var k := FirstBreak(marks);
    if marks == [] || marks[0].Break? {
      assert marks[..0] == [];
    } else {
      var e := marks[0].element;
      SplitCutsAtBreaks(marks[1..], Append(open, e));
      assert marks[..k] == [marks[0]] + marks[1..][..k - 1];
      assert Placed(marks[..k]) == [e] + Placed(marks[1..][..k - 1]);
      if k < |marks| {
        assert marks[1..][k..] == marks[k + 1..];
      }
    }
  }

  lemma {:induction false} PlacedAppend(a: seq<Mark>, b: seq<Mark>)
    ensures Placed(a + b) == Placed(a) + Placed(b)
    decreases |a|
  {
    if a == [] {
      assert a + b == b;
    } else {
      assert (a + b)[1..] == a[1..] + b;
      PlacedAppend(a[1..], b);
    }
  }

  lemma {:induction false} PlacedPutTabs(tables: seq<Table>)
    ensures Placed(PutTabs(tables)) == Tabs(tables)
    decreases |tables|
  {
    if tables != [] {
      PlacedPutTabs(tables[1..]);
    }
  }

  /** Leaving the breaks out of the marked merge gives `Merge`. */
  lemma {:induction false} MarkedMergePlaces(paras: seq<Paragraph>, pending: seq<Table>)
    ensures Placed(MarkedMerge(paras, pending)) == Merge(paras, pending)
    decreases |paras|
  {
    if paras == [] {
      PlacedPutTabs(pending);
    } else if !IsFiltered(paras[0].role) {
      var p := paras[0];
      var k := DueCount(pending, p.page);
      var m := MarkOf(p);
      MarkedMergePlaces(paras[1..], pending[k..]);
      PlacedAppend(PutTabs(pending[..k]) + [m], MarkedMerge(paras[1..], pending[k..]));
      PlacedAppend(PutTabs(pending[..k]), [m]);
      PlacedPutTabs(pending[..k]);
      assert Placed([m]) == if IsContent(p.role) then [Para(p)] else [];
      MergeKept(paras, pending);
    } else {
      MarkedMergePlaces(paras[1..], pending);
    }
  }

  /** Placing a run of tables is draining them all into the open section. */
  lemma {:induction false} SplitPutTabs(tables: seq<Table>, rest: seq<Mark>, open: Section)
    ensures Split(PutTabs(tables) + rest, open) == Split(rest, DrainAll(open, tables))
    decreases |tables|
  {
    if tables == [] {
      assert PutTabs(tables) + rest == rest;
    } else {
      assert (PutTabs(tables) + rest)[1..] == PutTabs(tables[1..]) + rest;
      SplitPutTabs(tables[1..], rest, Append(open, Tab(tables[0])));
    }
  }

  /** Draining for a paragraph's page drains its due prefix completely. */
  lemma {:induction false} DrainIsDrainAllOfDue(current: Section, pending: seq<Table>, page: int)
    ensures var k := DueCount(pending, page);
      Drain(current, pending, page) == (DrainAll(current, pending[..k]), pending[k..])
    decreases |pending|
  {
    var k := DueCount(pending, page);
    if pending != [] && pending[0].pageStart <= page {
      DrainIsDrainAllOfDue(Append(current, Tab(pending[0])), pending[1..], page);
      assert pending[..k][1..] == pending[1..][..k - 1];
      assert pending[1..][k - 1..] == pending[k..];
    } else {
      assert pending[..0] == [];
    }
  }

  /** A kept paragraph, as a step of the loop: the due tables are drained,
      then a heading closes the section and opens its own, and any other
      paragraph is appended. */
  lemma {:induction false} StepKept(b: Builder, p: Paragraph)
    requires !IsFiltered(p.role)
    ensures var k := DueCount(b.pending, p.page);
      var d := DrainAll(b.current, b.pending[..k]);
      Step(b, p) == if IsContent(p.role) then Builder(b.done, Append(d, Para(p)), b.pending[k..])
                    else Builder(Close(b.done, d), OpenedBy(p), b.pending[k..])
  {
    DrainIsDrainAllOfDue(b.current, b.pending, p.page);
  }

  /** The same kept paragraph, as marks to be split. */
  lemma {:induction false} SplitKept(due: seq<Table>, p: Paragraph, rest: seq<Mark>, current: Section)
    requires !IsFiltered(p.role)
    ensures var d := DrainAll(current, due);
      Split(PutTabs(due) + [MarkOf(p)] + rest, current)
      == if IsContent(p.role) then Split(rest, Append(d, Para(p)))
         else Close([], d) + Split(rest, OpenedBy(p))
  {
    var m := MarkOf(p);
    assert PutTabs(due) + [m] + rest == PutTabs(due) + ([m] + rest);
    SplitPutTabs(due, [m] + rest, current);
    assert ([m] + rest)[1..] == rest;
  }

  /** One kept paragraph of the run, glued onto the rest. */
  lemma {:induction false} RunSplitsKept(b: Builder, paras: seq<Paragraph>)
    requires paras != [] && !IsFiltered(paras[0].role)
    requires var next := Step(b, paras[0]);
      Finish(Run(next, paras[1..])) == next.done + Split(MarkedMerge(paras[1..], next.pending), next.current)
    ensures Finish(Run(b, paras)) == b.done + Split(MarkedMerge(paras, b.pending), b.current)
  {
    var p := paras[0];
    var k := DueCount(b.pending, p.page);
    var rest := MarkedMerge(paras[1..], b.pending[k..]);
    var d := DrainAll(b.current, b.pending[..k]);
    StepKept(b, p);
    SplitKept(b.pending[..k], p, rest, b.current);
    assert MarkedMerge(paras, b.pending) == PutTabs(b.pending[..k]) + [MarkOf(p)] + rest;
    if !IsContent(p.role) {
      assert Close(b.done, d) == b.done + Close([], d);
    }
  }

  lemma {:induction false} RunSplits(b: Builder, paras: seq<Paragraph>)
    ensures Finish(Run(b, paras)) == b.done + Split(MarkedMerge(paras, b.pending), b.current)
    decreases |paras|
  {
    if paras == [] {
      SplitPutTabs(b.pending, [], b.current);
      assert PutTabs(b.pending) + [] == PutTabs(b.pending);
    } else {
      RunSplits(Step(b, paras[0]), paras[1..]);
      if !IsFiltered(paras[0].role) {
        RunSplitsKept(b, paras);
      }
    }
  }

  /** The sections are the marked merge of the kept paragraphs and the
      sorted tables cut at its breaks, starting in the Introduction: only
      the first section can be the Introduction, and every kept title or
      section heading opens the section that holds exactly the elements
      placed after it up to the next heading; sections without elements are
      dropped. Leaving the breaks out of the marked merge gives `Merge`. */
  lemma {:induction false} SectionsSplitAtHeadings(paras: seq<Paragraph>, tables: seq<Table>)
    ensures SectionsOf(paras, tables) == Split(MarkedMerge(paras, SortBy(tables, TableLe)), Introduction)
    ensures Placed(MarkedMerge(paras, SortBy(tables, TableLe))) == Merge(paras, SortBy(tables, TableLe))
  {
    RunSplits(Start(tables), paras);
    assert Start(tables).done == [];
    MarkedMergePlaces(paras, SortBy(tables, TableLe));
  }

  // ---------------------------------------------------------------------
  // Page coverage and document assembly
  // ---------------------------------------------------------------------

  /** The furthest page any paragraph or table reaches, or 0 when there are
      none: the `max_parsed_page` loops. */
  function MaxParsedPage(paras: seq<Paragraph>, tables: seq<Table>): (m: int)
    ensures m >= 0
  {
    if tables != [] then Max(MaxParsedPage(paras, tables[..|tables| - 1]), tables[|tables| - 1].pageEnd)
    else if paras != [] then Max(MaxParsedPage(paras[..|paras| - 1], []), paras[|paras| - 1].page)
    else 0
  }

  /** The furthest parsed page bounds every paragraph page and every table
      end page, and is one of them unless it is 0. */
  lemma {:induction false} MaxParsedPageIsMax(paras: seq<Paragraph>, tables: seq<Table>)
    ensures var m := MaxParsedPage(paras, tables);
      && (forall p | p in paras :: p.page <= m)
      && (forall t | t in tables :: t.pageEnd <= m)
      && (m == 0 || (exists p | p in paras :: p.page == m) || (exists t | t in tables :: t.pageEnd == m))
    decreases |paras| + |tables|
  {
    if tables != [] {
      var init, last := tables[..|tables| - 1], tables[|tables| - 1];
      MaxParsedPageIsMax(paras, init);
      assert forall t | t in tables :: t in init || t == last;
    } else if paras != [] {
      var init, last := paras[..|paras| - 1], paras[|paras| - 1];
      MaxParsedPageIsMax(init, []);
      assert forall p | p in paras :: p in init || p == last;
    }
  }

  method ComputeMaxParsedPage(paras: seq<Paragraph>, tables: seq<Table>) returns (maxParsed: int)
    ensures maxParsed == MaxParsedPage(paras, tables)
  {
    maxParsed := 0;
    for i := 0 to |paras|
      invariant maxParsed == MaxParsedPage(paras[..i], [])
    {
      TakeSnoc(paras, i + 1);
      maxParsed := Max(maxParsed, paras[i].page);
    }
    TakeAll(paras);
    for j := 0 to |tables|
      invariant maxParsed == MaxParsedPage(paras, tables[..j])
    {
      TakeSnoc(tables, j + 1);
      maxParsed := Max(maxParsed, tables[j].pageEnd);
    }
    TakeAll(tables);
  }

  /** The guard `actual > 2 and max_parsed < actual * 0.5`, evaluated on
      reals: it fails exactly when the document has more than two pages and
      twice the furthest parsed page is below the page count. */
  function CoverageTooLow(actualPageCount: int, maxParsed: int): (tooLow: bool)
    ensures tooLow <==> actualPageCount > 2 && 2 * maxParsed < actualPageCount
  {
    actualPageCount > 2 && (maxParsed as real) < (actualPageCount as real) * 0.5
  }

  /** The layout service's response, reduced to what the adapter reads. */
  datatype RawParagraph = RawParagraph(content: string, role: Option<string>, regionPages: seq<int>)

  datatype RawTable = RawTable(
    rowCount: nat,
    columnCount: nat,
    cells: seq<Cell>,
    regionPages: seq<int>,
    caption: Option<string>)

  datatype RawField = RawField(content: string, regionPages: seq<int>)

  datatype RawKeyValue = RawKeyValue(key: Option<RawField>, value: Option<RawField>)

  datatype AnalyzeResult = AnalyzeResult(
    paragraphs: seq<RawParagraph>,
    tables: seq<RawTable>,
    keyValuePairs: seq<RawKeyValue>)

  /** The guard's error: content reached only `maxParsed` of `actual` pages. */
  datatype CoverageError = CoverageError(maxParsed: int, actual: int)

  function ParagraphOf(raw: RawParagraph): Paragraph
  {
    Paragraph(raw.content, MapRole(raw.role), PageOf(raw.regionPages))
  }

  function TableOf(raw: RawTable): (t: Table)
    ensures t.pageStart <= t.pageEnd
  {
    var range := TablePageRange(raw.regionPages);
    Table(TableText(raw.rowCount, raw.columnCount, raw.cells), range.0, range.1,
          raw.rowCount, raw.columnCount, raw.caption.GetOr(""))
  }

  /** A missing key or value reads as ""; the page comes from the key's
      regions, or is 1 without a key. */
  function KeyValueOf(raw: RawKeyValue): KeyValuePair
  {
    KeyValuePair(
      if raw.key.Some? then raw.key.value.content else "",
      if raw.value.Some? then raw.value.value.content else "",
      if raw.key.Some? then PageOf(raw.key.value.regionPages) else 1)
  }

  function ParagraphsOf(raws: seq<RawParagraph>): (ps: seq<Paragraph>)
    ensures |ps| == |raws|
  {
    seq(|raws|, i requires 0 <= i < |raws| => ParagraphOf(raws[i]))
  }

  function TablesFrom(raws: seq<RawTable>): (ts: seq<Table>)
    ensures |ts| == |raws|
  {
    seq(|raws|, i requires 0 <= i < |raws| => TableOf(raws[i]))
  }

  function KeyValuesOf(raws: seq<RawKeyValue>): (kvs: seq<KeyValuePair>)
    ensures |kvs| == |raws|
  {
    seq(|raws|, i requires 0 <= i < |raws| => KeyValueOf(raws[i]))
  }

  /** The paragraph loop: one paragraph per response paragraph, in order. */
  method ConvertParagraphs(raws: seq<RawParagraph>) returns (paras: seq<Paragraph>)
    ensures paras == ParagraphsOf(raws)
  {
    paras := [];
    for i := 0 to |raws|
      invariant paras == ParagraphsOf(raws[..i])
    {
      var p := raws[i];
      assert raws[..i + 1][..i] == raws[..i];
      paras := paras + [Paragraph(p.content, MapRole(p.role), PageOf(p.regionPages))];
    }
    assert raws[..|raws|] == raws;
  }

  /** The table loop: renders each table and takes its page range. */
  method ConvertTables(raws: seq<RawTable>) returns (tables: seq<Table>)
    ensures tables == TablesFrom(raws)
  {
    tables := [];
    for i := 0 to |raws|
      invariant tables == TablesFrom(raws[..i])
    {
      var t := raws[i];
      assert raws[..i + 1][..i] == raws[..i];
      var md := TableToMarkdown(t.rowCount, t.columnCount, t.cells);
      var range := TablePageRange(t.regionPages);
      tables := tables + [Table(md, range.0, range.1, t.rowCount, t.columnCount, t.caption.GetOr(""))];
    }
    assert raws[..|raws|] == raws;
  }

  /** The key-value loop. */
  method ConvertKeyValues(raws: seq<RawKeyValue>) returns (kvs: seq<KeyValuePair>)
    ensures kvs == KeyValuesOf(raws)
  {
    kvs := [];
    for i := 0 to |raws|
      invariant kvs == KeyValuesOf(raws[..i])
    {
      assert raws[..i + 1][..i] == raws[..i];
      kvs := kvs + [KeyValueOf(raws[i])];
    }
    assert raws[..|raws|] == raws;
  }

  /** `parse_pdf_with_azure_di` after the service call: converts the
      response, applies the coverage guard and builds the sections. The page
      count is the one computed independently of the service. */
  method ParseLayout(actualPageCount: nat, result: AnalyzeResult)
    returns (r: Result<StructuredDocument, CoverageError>)
    ensures var paras := ParagraphsOf(result.paragraphs);
            var tables := TablesFrom(result.tables);
            && (r.Failure? <==> CoverageTooLow(actualPageCount, MaxParsedPage(paras, tables)))
            && (r.Failure? ==> r.error == CoverageError(MaxParsedPage(paras, tables), actualPageCount))
            && (r.Success? ==> r.value == StructuredDocument(paras, tables, KeyValuesOf(result.keyValuePairs),
                                                             SectionsOf(paras, tables), actualPageCount))
  {
    var paras := ConvertParagraphs(result.paragraphs);
    var tables := ConvertTables(result.tables);
    var kvs := ConvertKeyValues(result.keyValuePairs);
    var maxParsed := ComputeMaxParsedPage(paras, tables);
    if actualPageCount > 2 && (maxParsed as real) < (actualPageCount as real) * 0.5 {
      return Failure(CoverageError(maxParsed, actualPageCount));
    }
    var sections := BuildSections(paras, tables);
    r := Success(StructuredDocument(paras, tables, kvs, sections, actualPageCount));
  }
}
