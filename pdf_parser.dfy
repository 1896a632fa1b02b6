/** The heuristic extractor's pure parts (backend/app/services/pdf_parser.py):
    Markdown rendering of a row-list table, the font-size heading threshold,
    and the per-line classification into text blocks and headings. Reading
    the PDF, grouping characters into lines and averaging their sizes are not
    part of this model: a line arrives with its raw text, its average font
    size and whether any of its characters is bold. */
module PdfParser {
  import opened Wrappers
  import opened Seqs
  import opened Text
  import opened Sorting
  import opened Markdown

  datatype TextBlock = TextBlock(text: string, page: int, fontSize: real, isBold: bool)

  datatype TableBlock = TableBlock(markdown: string, page: int)

  datatype HeadingBlock = HeadingBlock(text: string, level: int, page: int)

  datatype ParsedDocument = ParsedDocument(
    textBlocks: seq<TextBlock>,
    tables: seq<TableBlock>,
    headings: seq<HeadingBlock>,
    pageCount: nat)

  /** A line of characters sharing a vertical position on a page. */
  datatype Line = Line(text: string, avgSize: real, isBold: bool)

  /** One page as the extractor sees it: its tables as rows of optional cell
      strings, and its lines from top to bottom. */
  datatype Page = Page(tables: seq<seq<seq<Option<string>>>>, lines: seq<Line>)

  // ---------------------------------------------------------------------
  // Table rendering
  // ---------------------------------------------------------------------

  /** `[cell or "" for cell in row]`. */
  function CellsOf(row: seq<Option<string>>): (cells: seq<string>)
    ensures |cells| == |row|
    ensures forall k :: 0 <= k < |row| ==> cells[k] == row[k].GetOr("")
  {
    seq(|row|, k requires 0 <= k < |row| => row[k].GetOr(""))
  }

  /** The lines of a non-empty table: header, one `---` per header cell, then
      every further row as it is, without padding to the header's width. */
  function PdfTableLines(table: seq<seq<Option<string>>>): (lines: seq<string>)
    requires table != []
    ensures |lines| == |table| + 1
  {
    [RowLine(CellsOf(table[0])), SeparatorLine(|table[0]|)]
      + seq(|table| - 1, i requires 0 <= i < |table| - 1 => RowLine(CellsOf(table[i + 1])))
  }

  /** The Markdown text of a table; "" for no rows or an empty first row. */
  function PdfTableText(table: seq<seq<Option<string>>>): string
  {
    if table == [] || table[0] == [] then "" else Join("\n", PdfTableLines(table))
  }

  lemma {:induction false} PdfTableLinesAreRows(table: seq<seq<Option<string>>>)
    requires table != []
    ensures RowLines(PdfTableLines(table))
  {
  }

  /** `_table_to_markdown` of the heuristic extractor. */
  method PdfTableToMarkdown(table: seq<seq<Option<string>>>) returns (md: string)
    ensures md == PdfTableText(table)
  {
    if table == [] || table[0] == [] {
      return "";
    }
    ghost var lines := PdfTableLines(table);
    var headers := CellsOf(table[0]);
    md := RowLine(headers) + "\n";
    AccumulatedPrefix(lines, 0);
    md := md + SeparatorLine(|headers|) + "\n";
    AccumulatedPrefix(lines, 1);
    for i := 1 to |table|
      invariant md == Accumulated(lines[..i + 1])
    {
      var line := RowLine(CellsOf(table[i]));
      assert lines[i + 1] == line;
      AccumulatedPrefix(lines, i + 1);
      md := md + line + "\n";
    }
    assert lines[..|table| + 1] == lines;
    PdfTableLinesAreRows(table);
    StripAccumulatedRows(lines);
    md := Strip(md);
  }

  /** A table renders to "" exactly when it has no rows or an empty first
      row; such tables are the ones the extractor drops. */
  lemma {:induction false} PdfTableTextEmptyIff(table: seq<seq<Option<string>>>)
    ensures PdfTableText(table) == "" <==> table == [] || table[0] == []
  {
    if table != [] && table[0] != [] {
      var lines := PdfTableLines(table);
      JoinFirstLast(lines);
    }
  }

  /** When no cell contains a newline, the text splits back into exactly
      len(table) + 1 lines: header, separator, then the other rows in order. */
  lemma {:induction false} PdfTableTextSplitsIntoLines(table: seq<seq<Option<string>>>)
    requires table != [] && table[0] != []
    requires forall i, k :: 0 <= i < |table| && 0 <= k < |table[i]| ==> '\n' !in table[i][k].GetOr("")
    ensures SplitLines(PdfTableText(table)) == PdfTableLines(table)
    ensures |SplitLines(PdfTableText(table))| == |table| + 1
  {
    var lines := PdfTableLines(table);
    forall j | 0 <= j < |lines|
      ensures '\n' !in lines[j]
    {
      if j == 1 {
        RowLineWithoutNewline(seq(|table[0]|, _ => "---"));
      } else {
        var row := if j == 0 then 0 else j - 1;
        RowLineWithoutNewline(CellsOf(table[row]));
      }
    }
    SplitJoinedLines(lines);
  }

  // ---------------------------------------------------------------------
  // Heading threshold
  // ---------------------------------------------------------------------

  function RealLe(a: real, b: real): bool
  {
    a <= b
  }

  /** `statistics.median`: the middle of the sorted sizes, or the mean of the
      two middle ones when their number is even. */
  function Median(xs: seq<real>): real
    requires xs != []
  {
    Middle(SortBy(xs, RealLe))
  }

  /** The middle of a sorted, non-empty list. */
  function Middle(s: seq<real>): real
    requires s != []
  {
    var n := |s|;
    if n % 2 == 1 then s[n / 2] else (s[n / 2 - 1] + s[n / 2]) / 2.0
  }

  /** `x <= m`, as a test on sizes. */
  function AtMost(m: real): real -> bool
  {
    (x: real) => x <= m
  }

  /** `x >= m`, as a test on sizes. */
  function AtLeast(m: real): real -> bool
  {
    (x: real) => x >= m
  }

  /** A filtered list holds each element as often as the list does when it
      passes the test, and never otherwise. */
  lemma {:induction false} FilterCounts<T>(s: seq<T>, p: T -> bool)
    ensures forall x :: multiset(Filter(s, p))[x] == if p(x) then multiset(s)[x] else 0
  {
    if s != [] {
      FilterCounts(s[1..], p);
      assert s == [s[0]] + s[1..];
      assert multiset(s) == multiset{s[0]} + multiset(s[1..]);
    }
  }

  lemma {:induction false} SameCounts<T>(m: multiset<T>, n: multiset<T>)
    requires forall x :: m[x] == n[x]
    ensures m == n
  {
  }

  /** Reordering a list does not change how many of its elements pass a test. */
  lemma {:induction false} FilterLengthPermutation<T>(a: seq<T>, b: seq<T>, p: T -> bool)
    requires multiset(a) == multiset(b)
    ensures |Filter(a, p)| == |Filter(b, p)|
  {
    FilterCounts(a, p);
    FilterCounts(b, p);
    SameCounts(multiset(Filter(a, p)), multiset(Filter(b, p)));
    assert |multiset(Filter(a, p))| == |Filter(a, p)|;
    assert |multiset(Filter(b, p))| == |Filter(b, p)|;
  }

  /** When the positions `lo..hi` all pass a test, at least `hi - lo`
      elements pass it. */
  lemma {:induction false} FilterCountsRange<T>(s: seq<T>, p: T -> bool, lo: nat, hi: nat)
    requires lo <= hi <= |s|
    requires forall i :: lo <= i < hi ==> p(s[i])
    ensures |Filter(s, p)| >= hi - lo
  {
    if hi > 0 {
      if lo > 0 {
        FilterCountsRange(s[1..], p, lo - 1, hi - 1);
      } else {
        FilterCountsRange(s[1..], p, 0, hi - 1);
      }
    }
  }

  /** In a sorted list of odd length the middle element has at least half
      the list on each side. */
  lemma {:induction false} MiddleHalvesOdd(s: seq<real>)
    requires |s| % 2 == 1 && SortedBy(s, RealLe)
    ensures 2 * |Filter(s, AtMost(Middle(s)))| >= |s|
    ensures 2 * |Filter(s, AtLeast(Middle(s)))| >= |s|
  {
    var n := |s|;
    var m := Middle(s);
    assert m == s[n / 2];
    forall i | 0 <= i < n / 2 + 1
      ensures AtMost(m)(s[i])
    {
      if i < n / 2 { assert RealLe(s[i], s[n / 2]); }
    }
    forall i | n / 2 <= i < n
      ensures AtLeast(m)(s[i])
    {
      if i > n / 2 { assert RealLe(s[n / 2], s[i]); }
    }
    FilterCountsRange(s, AtMost(m), 0, n / 2 + 1);
    FilterCountsRange(s, AtLeast(m), n / 2, n);
  }

  /** In a sorted list of even length the mean of the two middle elements
      has half the list on each side. */
  lemma {:induction false} MiddleHalvesEven(s: seq<real>)
    requires s != [] && |s| % 2 == 0 && SortedBy(s, RealLe)
    ensures 2 * |Filter(s, AtMost(Middle(s)))| >= |s|
    ensures 2 * |Filter(s, AtLeast(Middle(s)))| >= |s|
  {
    var n := |s|;
    var m := Middle(s);
    assert RealLe(s[n / 2 - 1], s[n / 2]);
    assert s[n / 2 - 1] <= m <= s[n / 2];
    forall i | 0 <= i < n / 2
      ensures AtMost(m)(s[i])
    {
      if i < n / 2 - 1 { assert RealLe(s[i], s[n / 2 - 1]); }
    }
    forall i | n / 2 <= i < n
      ensures AtLeast(m)(s[i])
    {
      if i > n / 2 { assert RealLe(s[n / 2], s[i]); }
    }
    FilterCountsRange(s, AtMost(m), 0, n / 2);
    FilterCountsRange(s, AtLeast(m), n / 2, n);
  }

  /** The middle of a sorted list lies between two of its elements. */
  lemma {:induction false} MiddleBetween(s: seq<real>)
    requires s != [] && SortedBy(s, RealLe)
    ensures exists i :: 0 <= i < |s| && s[i] <= Middle(s)
    ensures exists i :: 0 <= i < |s| && Middle(s) <= s[i]
  {
    var n := |s|;
    if n % 2 == 0 {
      assert RealLe(s[n / 2 - 1], s[n / 2]);
      assert s[n / 2 - 1] <= Middle(s) <= s[n / 2];
    } else {
      assert s[n / 2] == Middle(s);
    }
  }

  /** The sizes sorted for the median are in order. */
  lemma {:induction false} SortedSizes(xs: seq<real>)
    ensures SortedBy(SortBy(xs, RealLe), RealLe)
  {
    assert TotalPreorder(RealLe);
    SortBySorted(xs, RealLe);
  }

  /** `statistics.median` is a median: at least half of the sizes are at
      most it and at least half are at least it. */
  lemma {:induction false} MedianHalves(xs: seq<real>)
    requires xs != []
    ensures 2 * |Filter(xs, AtMost(Median(xs)))| >= |xs|
    ensures 2 * |Filter(xs, AtLeast(Median(xs)))| >= |xs|
  {
    var s := SortBy(xs, RealLe);
    SortedSizes(xs);
    if |s| % 2 == 1 { MiddleHalvesOdd(s); } else { MiddleHalvesEven(s); }
    FilterLengthPermutation(s, xs, AtMost(Middle(s)));
    FilterLengthPermutation(s, xs, AtLeast(Middle(s)));
  }

  /** The median lies between two of the sizes. */
  lemma {:induction false} MedianBetweenSizes(xs: seq<real>)
    requires xs != []
    ensures exists lo | lo in xs :: lo <= Median(xs)
    ensures exists hi | hi in xs :: Median(xs) <= hi
  {
    var s := SortBy(xs, RealLe);
    SortedSizes(xs);
    MiddleBetween(s);
    var i :| 0 <= i < |s| && s[i] <= Middle(s);
    var j :| 0 <= j < |s| && Middle(s) <= s[j];
    assert s[i] in multiset(s) && s[j] in multiset(s);
    assert s[i] in xs && s[j] in xs;
  }

  /** `_detect_heading_threshold`: 14.0 without sizes, otherwise 1.3 times
      the median size. */
  function HeadingThreshold(fontSizes: seq<real>): (threshold: real)
  {
    if fontSizes == [] then 14.0 else Median(fontSizes) * 1.3
  }

  /** Without sizes the threshold is 14.0; with sizes it is 1.3 times a
      median of them: at least half of the sizes lie at or below the
      threshold divided by 1.3, and at least half at or above it. */
  lemma {:induction false} HeadingThresholdBounds(fontSizes: seq<real>)
    ensures fontSizes == [] ==> HeadingThreshold(fontSizes) == 14.0
    ensures fontSizes != [] ==>
      && 2 * |Filter(fontSizes, AtMost(HeadingThreshold(fontSizes) / 1.3))| >= |fontSizes|
      && 2 * |Filter(fontSizes, AtLeast(HeadingThreshold(fontSizes) / 1.3))| >= |fontSizes|
      && (exists lo | lo in fontSizes :: lo * 1.3 <= HeadingThreshold(fontSizes))
      && (exists hi | hi in fontSizes :: HeadingThreshold(fontSizes) <= hi * 1.3)
  {
    if fontSizes != [] {
      MedianHalves(fontSizes);
      MedianBetweenSizes(fontSizes);
      var m := Median(fontSizes);
      assert HeadingThreshold(fontSizes) / 1.3 == m;
      var lo :| lo in fontSizes && lo <= m;
      var hi :| hi in fontSizes && m <= hi;
      assert lo * 1.3 <= m * 1.3 <= hi * 1.3;
    }
  }

  // ---------------------------------------------------------------------
  // Line classification
  // ---------------------------------------------------------------------

  /** The heading rule: at least the threshold, or bold and at least 90% of it. */
  predicate IsHeadingSize(avgSize: real, isBold: bool, threshold: real)
  {
    avgSize >= threshold || (isBold && avgSize >= threshold * 0.9)
  }

  /** Level 1 from 115% of the threshold, level 2 below. */
  function HeadingLevel(avgSize: real, threshold: real): (level: int)
    ensures level == 1 || level == 2
  {
    if avgSize >= threshold * 1.15 then 1 else 2
  }

  /** With a non-negative threshold a level-1 size always passes the heading
      rule, and a non-bold line is a heading exactly when it reaches the
      threshold. */
  lemma {:induction false} HeadingRuleFacts(avgSize: real, isBold: bool, threshold: real)
    requires threshold >= 0.0
    ensures HeadingLevel(avgSize, threshold) == 1 <==> avgSize >= threshold * 1.15
    ensures HeadingLevel(avgSize, threshold) == 1 ==> IsHeadingSize(avgSize, isBold, threshold)
    ensures !isBold ==> (IsHeadingSize(avgSize, isBold, threshold) <==> avgSize >= threshold)
    ensures isBold ==> (IsHeadingSize(avgSize, isBold, threshold) <==> avgSize >= threshold * 0.9)
  {
  }

  predicate IsTextLine(line: Line)
  {
    Strip(line.text) != []
  }

  /** The text blocks and headings a page's lines give, in line order. */
  function ClassifyLines(page: int, lines: seq<Line>, threshold: real): (seq<TextBlock>, seq<HeadingBlock>)
  {
    if lines == [] then ([], [])
    else
      var rest := ClassifyLines(page, lines[1..], threshold);
      var line := lines[0];
      var text := Strip(line.text);
      if text == [] then rest
      else
        var block := TextBlock(text, page, line.avgSize, line.isBold);
        var heading := if IsHeadingSize(line.avgSize, line.isBold, threshold)
                       then [HeadingBlock(text, HeadingLevel(line.avgSize, threshold), page)] else [];
        ([block] + rest.0, heading + rest.1)
  }

  /** The headings among text blocks: a reference definition over blocks. */
  function HeadingsAmong(blocks: seq<TextBlock>, threshold: real): seq<HeadingBlock>
  {
    if blocks == [] then []
    else
      var b := blocks[0];
      (if IsHeadingSize(b.fontSize, b.isBold, threshold)
       then [HeadingBlock(b.text, HeadingLevel(b.fontSize, threshold), b.page)] else [])
        + HeadingsAmong(blocks[1..], threshold)
  }

  /** The text block a line gives on a page. */
  function BlockOf(page: int, line: Line): TextBlock
  {
    TextBlock(Strip(line.text), page, line.avgSize, line.isBold)
  }

  function BlocksOf(page: int, lines: seq<Line>): (blocks: seq<TextBlock>)
    ensures |blocks| == |lines|
  {
    if lines == [] then [] else [BlockOf(page, lines[0])] + BlocksOf(page, lines[1..])
  }

  /** Every non-blank line becomes one text block, stripped, on this page,
      whether or not it is a heading, and blank lines give nothing. */
  lemma {:induction false} ClassifyLinesKeepsTextLines(page: int, lines: seq<Line>, threshold: real)
    ensures ClassifyLines(page, lines, threshold).0 == BlocksOf(page, Filter(lines, IsTextLine))
    decreases |lines|
  {
    if lines != [] {
      ClassifyLinesKeepsTextLines(page, lines[1..], threshold);
      if IsTextLine(lines[0]) {
        var f := Filter(lines, IsTextLine);
        assert f == [lines[0]] + Filter(lines[1..], IsTextLine);
        assert f[0] == lines[0] && f[1..] == Filter(lines[1..], IsTextLine);
      }
    }
  }

  /** The headings are exactly the text blocks that pass the heading rule,
      in order, with the level their size gives. */
  lemma {:induction false} ClassifyLinesHeadings(page: int, lines: seq<Line>, threshold: real)
    ensures ClassifyLines(page, lines, threshold).1 == HeadingsAmong(ClassifyLines(page, lines, threshold).0, threshold)
    decreases |lines|
  {
    if lines != [] {
      ClassifyLinesHeadings(page, lines[1..], threshold);
      var blocks := ClassifyLines(page, lines, threshold).0;
      var rest := ClassifyLines(page, lines[1..], threshold).0;
      if IsTextLine(lines[0]) {
        assert blocks[1..] == rest;
      }
    }
  }

  /** Every block's text is non-blank and already stripped. */
  lemma {:induction false} ClassifiedTextIsStripped(page: int, lines: seq<Line>, threshold: real)
    ensures forall b | b in ClassifyLines(page, lines, threshold).0 :: b.text != [] && Strip(b.text) == b.text
    ensures forall h | h in ClassifyLines(page, lines, threshold).1 :: h.text != [] && h.page == page
    decreases |lines|
  {
    if lines != [] {
      ClassifiedTextIsStripped(page, lines[1..], threshold);
      StripIdempotent(lines[0].text);
    }
  }

  /** `[md for md in rendered tables if md]` with the page number. */
  function PageTables(page: int, tables: seq<seq<seq<Option<string>>>>): seq<TableBlock>
  {
    if tables == [] then []
    else
      var md := PdfTableText(tables[0]);
      (if md != "" then [TableBlock(md, page)] else []) + PageTables(page, tables[1..])
  }

  /** The document the extractor builds from its pages, numbered from 1. */
  function ParsePages(pages: seq<Page>, threshold: real): (doc: ParsedDocument)
    ensures doc.pageCount == |pages|
  {
    if pages == [] then ParsedDocument([], [], [], 0)
    else
      var n := |pages|;
      var prev := ParsePages(pages[..n - 1], threshold);
      var lines := ClassifyLines(n, pages[n - 1].lines, threshold);
      ParsedDocument(prev.textBlocks + lines.0,
                     prev.tables + PageTables(n, pages[n - 1].tables),
                     prev.headings + lines.1,
                     n)
  }

  /** `parse_pdf`, with the document's character font sizes given. */
  function ParsePdf(pages: seq<Page>, fontSizes: seq<real>): ParsedDocument
  {
    ParsePages(pages, HeadingThreshold(fontSizes))
  }

  /** No kept table renders to "", and every text block lies on a page of the
      document. */
  lemma {:induction false} ParsePagesShape(pages: seq<Page>, threshold: real)
    ensures forall t | t in ParsePages(pages, threshold).tables :: t.markdown != "" && 1 <= t.page <= |pages|
    ensures forall b | b in ParsePages(pages, threshold).textBlocks :: 1 <= b.page <= |pages|
    decreases |pages|
  {
    if pages != [] {
      var n := |pages|;
      ParsePagesShape(pages[..n - 1], threshold);
      PageTablesShape(n, pages[n - 1].tables);
      ClassifiedPages(n, pages[n - 1].lines, threshold);
    }
  }

  lemma {:induction false} PageTablesShape(page: int, tables: seq<seq<seq<Option<string>>>>)
    ensures forall t | t in PageTables(page, tables) :: t.markdown != "" && t.page == page
    ensures |PageTables(page, tables)| == |Filter(tables, NonEmptyTable)|
    decreases |tables|
  {
    if tables != [] {
      PageTablesShape(page, tables[1..]);
      PdfTableTextEmptyIff(tables[0]);
    }
  }

  predicate NonEmptyTable(table: seq<seq<Option<string>>>)
  {
    table != [] && table[0] != []
  }

  lemma {:induction false} ClassifiedPages(page: int, lines: seq<Line>, threshold: real)
    ensures forall b | b in ClassifyLines(page, lines, threshold).0 :: b.page == page
    decreases |lines|
  {
    if lines != [] {
      ClassifiedPages(page, lines[1..], threshold);
    }
  }
}
