/** The chunker (backend/app/services/chunker.py): turns a structured
    document (sections of paragraphs and tables, plus key/value pairs) or a
    heuristically parsed one (text blocks and headings) into an ordered list
    of retrieval chunks under a token budget. The tokenizer is the `tokens`
    field of the budget. */
module Chunker {
  import opened Seqs
  import opened Text
  import opened Sentences
  import opened AzureDiParser
  import Pdf = PdfParser

  /** `settings.chunk_max_tokens` and `settings.chunk_overlap_tokens`. */
  const DefaultMaxTokens: nat := 512
  const DefaultOverlapTokens: nat := 64

  // ---------------------------------------------------------------------
  // Data model
  // ---------------------------------------------------------------------

  /** The two values the chunker writes into `content_type`. */
  datatype ContentType = TextContent | TableContent

  datatype Chunk = Chunk(
    text: string,
    index: nat,
    sectionHeading: string,
    sectionLevel: int,
    parentSection: string,
    contentType: ContentType,
    pageStart: int,
    pageEnd: int,
    tokenCount: nat,
    embeddingText: string)

  /** The section a chunk comes from: its heading, level and breadcrumb. */
  datatype Origin = Origin(heading: string, level: int, parent: string)

  // ---------------------------------------------------------------------
  // Embedding text
  // ---------------------------------------------------------------------

  /** `_build_embedding_text`: a table is prefixed with its breadcrumb, the
      non-empty parts of `parent > heading`, and a blank line; anything else,
      or a table with no breadcrumb, is its text. */
  function EmbeddingText(text: string, heading: string, parent: string, contentType: ContentType): string
  {
    if contentType == TableContent then
      var prefix := (if parent != "" then [parent] else []) + (if heading != "" then [heading] else []);
      if prefix != [] then Join(" > ", prefix) + "\n\n" + text else text
    else text
  }

  /** The embedding text in each case of content type and breadcrumb. */
  lemma {:induction false} EmbeddingTextCases(text: string, heading: string, parent: string, contentType: ContentType)
    ensures var r := EmbeddingText(text, heading, parent, contentType);
      && (contentType == TextContent ==> r == text)
      && (contentType == TableContent && parent == "" && heading == "" ==> r == text)
      && (contentType == TableContent && parent != "" && heading != "" ==> r == parent + " > " + heading + "\n\n" + text)
      && (contentType == TableContent && parent == "" && heading != "" ==> r == heading + "\n\n" + text)
      && (contentType == TableContent && parent != "" && heading == "" ==> r == parent + "\n\n" + text)
  {
    if parent != "" && heading != "" {
      assert Join(" > ", [parent, heading]) == parent + " > " + Join(" > ", [heading]);
    }
  }

  // ---------------------------------------------------------------------
  // Text chunks of one run of text
  // ---------------------------------------------------------------------

  /** A text chunk; text chunks keep an empty embedding text. */
  function TextChunk(text: string, index: nat, origin: Origin, pageStart: int, pageEnd: int, tokens: string -> nat): Chunk
  {
    Chunk(text, index, origin.heading, origin.level, origin.parent, TextContent, pageStart, pageEnd, tokens(text), "")
  }

  /** `max(1, (page_end - page_start + 1) // max(1, len(sub_chunks)))`; the
      divisor is positive, so the floor division of the source and the
      division here agree. */
  function PagesPerChunk(pageStart: int, pageEnd: int, count: nat): (ppc: int)
    ensures ppc >= 1
  {
    Max(1, (pageEnd - pageStart + 1) / Max(1, count))
  }

  /** With at least as many pages as sub-chunks, the steps of all sub-chunks
      fit in the pages. */
  lemma {:induction false} PagesPerChunkFits(pageStart: int, pageEnd: int, count: nat)
    requires count >= 1 && pageEnd - pageStart + 1 >= count
    ensures PagesPerChunk(pageStart, pageEnd, count) * count <= pageEnd - pageStart + 1
  {
    DivTimesDivisor(pageEnd - pageStart + 1, count);
  }

  lemma {:induction false} DivTimesDivisor(a: int, b: int)
    requires b >= 1 && a >= b
    ensures a / b >= 1 && (a / b) * b <= a
  {
    var q, r := a / b, a % b;
    assert a == q * b + r && 0 <= r < b;
  }

  /** The sub-chunks of a split run: sub-chunk `i` starts `i` times the
      pages-per-chunk after the first page and ends one step later, cut at
      the last page. */
  function SubChunks(texts: seq<string>, start: nat, origin: Origin, pageStart: int, pageEnd: int, tokens: string -> nat)
    : (cs: seq<Chunk>)
    ensures |cs| == |texts|
  {
    var ppc := PagesPerChunk(pageStart, pageEnd, |texts|);
    seq(|texts|, i requires 0 <= i < |texts| =>
      TextChunk(texts[i], start + i, origin, pageStart + i * ppc, Min(pageEnd, pageStart + i * ppc + ppc), tokens))
  }

  /** The pages of sub-chunks: each starts a whole number of steps of at
      least one page after the first page, and none ends after the last
      page; when there are at least as many pages as sub-chunks, each
      sub-chunk's pages are a non-empty range within the first and last. */
  lemma {:induction false} SubChunkPages(texts: seq<string>, start: nat, origin: Origin, pageStart: int, pageEnd: int, tokens: string -> nat)
    ensures var cs := SubChunks(texts, start, origin, pageStart, pageEnd, tokens);
      var ppc := PagesPerChunk(pageStart, pageEnd, |texts|);
      && ppc >= 1
      && (forall i :: 0 <= i < |cs| ==> cs[i].pageStart == pageStart + i * ppc && cs[i].pageEnd <= pageEnd)
      && (pageEnd - pageStart + 1 >= |texts| ==>
            forall i :: 0 <= i < |cs| ==> pageStart <= cs[i].pageStart <= cs[i].pageEnd <= pageEnd)
  {
    var cs := SubChunks(texts, start, origin, pageStart, pageEnd, tokens);
    var ppc := PagesPerChunk(pageStart, pageEnd, |texts|);
    if pageEnd - pageStart + 1 >= |texts| {
      if texts != [] {
        PagesPerChunkFits(pageStart, pageEnd, |texts|);
      }
      forall i | 0 <= i < |cs|
        ensures pageStart <= cs[i].pageStart <= cs[i].pageEnd <= pageEnd
      {
        StepWithinSpan(i, |texts|, ppc, pageEnd - pageStart + 1);
      }
    }
  }

  lemma {:induction false} StepWithinSpan(i: int, count: int, ppc: int, span: int)
    requires 0 <= i < count && ppc >= 1 && ppc * count <= span
    ensures 0 <= i * ppc && i * ppc + ppc <= span
  {
    assert i * ppc + ppc == (i + 1) * ppc;
    assert (i + 1) * ppc <= count * ppc;
  }

  /** The chunks of one run of text starting at chunk index `start`: one
      chunk when the whole text fits the budget (none when it is blank),
      otherwise one per sentence group of the splitter. The pages of a
      fitting chunk and of split sub-chunks are passed separately, since the
      two paths of the source take them from different places. */
  function TextChunks(text: string, start: nat, origin: Origin, fitStart: int, fitEnd: int,
                      splitStart: int, splitEnd: int, budget: Budget): seq<Chunk>
  {
    if budget.tokens(text) <= budget.maxTokens then
      if Strip(text) != [] then [TextChunk(text, start, origin, fitStart, fitEnd, budget.tokens)] else []
    else
      SubChunks(SplitText(text, budget), start, origin, splitStart, splitEnd, budget.tokens)
  }

  /** Indices run on from `start`, and every chunk is a text chunk of the
      origin with an empty embedding text and the token count of its text. */
  lemma {:induction false} TextChunksShape(text: string, start: nat, origin: Origin, fitStart: int, fitEnd: int,
                        splitStart: int, splitEnd: int, budget: Budget)
    ensures var cs := TextChunks(text, start, origin, fitStart, fitEnd, splitStart, splitEnd, budget);
      && IndexedFrom(cs, start)
      && forall i :: 0 <= i < |cs| ==>
           FromOrigin(cs[i], origin) && cs[i].contentType == TextContent && Consistent(cs[i], budget.tokens)
  {
    if budget.tokens(text) > budget.maxTokens {
      SubChunksShape(SplitText(text, budget), start, origin, splitStart, splitEnd, budget.tokens);
    }
  }

  /** A run that fits yields exactly its text, once, on the fitting pages,
      unless it is blank, when it yields nothing. */
  lemma {:induction false} TextChunksFit(text: string, start: nat, origin: Origin, fitStart: int, fitEnd: int,
                      splitStart: int, splitEnd: int, budget: Budget)
    requires budget.tokens(text) <= budget.maxTokens
    ensures var cs := TextChunks(text, start, origin, fitStart, fitEnd, splitStart, splitEnd, budget);
      && (cs == [] <==> IsBlank(text))
      && (cs != [] ==> |cs| == 1 && cs[0].text == text && cs[0].pageStart == fitStart && cs[0].pageEnd == fitEnd)
  {
    StripEmptyIffBlank(text);
  }

  /** A run that does not fit yields one chunk per sentence group of the
      splitter, in order. */
  lemma {:induction false} TextChunksSplit(text: string, start: nat, origin: Origin, fitStart: int, fitEnd: int,
                        splitStart: int, splitEnd: int, budget: Budget)
    requires budget.tokens(text) > budget.maxTokens
    ensures var cs := TextChunks(text, start, origin, fitStart, fitEnd, splitStart, splitEnd, budget);
      && |cs| == |SplitText(text, budget)|
      && forall i :: 0 <= i < |cs| ==> cs[i].text == SplitText(text, budget)[i]
  {
    SubChunksShape(SplitText(text, budget), start, origin, splitStart, splitEnd, budget.tokens);
  }

  lemma {:induction false} SubChunksShape(texts: seq<string>, start: nat, origin: Origin, pageStart: int, pageEnd: int, tokens: string -> nat)
    ensures var cs := SubChunks(texts, start, origin, pageStart, pageEnd, tokens);
      && IndexedFrom(cs, start)
      && forall i :: 0 <= i < |cs| ==>
           cs[i].text == texts[i] && FromOrigin(cs[i], origin) && cs[i].contentType == TextContent && Consistent(cs[i], tokens)
  {
  }

  // ---------------------------------------------------------------------
  // Chunk list invariants
  // ---------------------------------------------------------------------

  predicate IndexedFrom(cs: seq<Chunk>, start: nat)
  {
    forall i :: 0 <= i < |cs| ==> cs[i].index == start + i
  }

  predicate FromOrigin(c: Chunk, origin: Origin)
  {
    c.sectionHeading == origin.heading && c.sectionLevel == origin.level && c.parentSection == origin.parent
  }

  /** A chunk's token count is its text's, a text chunk's embedding text is
      empty and a table chunk's is its text under its breadcrumb. */
  predicate Consistent(c: Chunk, tokens: string -> nat)
  {
    && c.tokenCount == tokens(c.text)
    && (c.contentType == TextContent ==> c.embeddingText == "")
    && (c.contentType == TableContent ==>
          c.embeddingText == EmbeddingText(c.text, c.sectionHeading, c.parentSection, TableContent))
  }

  /** Chunk indices are exactly 0..N-1 in order, and every chunk is
      consistent. */
  predicate WellIndexed(cs: seq<Chunk>, tokens: string -> nat)
  {
    IndexedFrom(cs, 0) && forall i :: 0 <= i < |cs| ==> Consistent(cs[i], tokens)
  }

  lemma {:induction false} WellIndexedAppend(cs: seq<Chunk>, more: seq<Chunk>, tokens: string -> nat)
    requires WellIndexed(cs, tokens)
    requires IndexedFrom(more, |cs|)
    requires forall i :: 0 <= i < |more| ==> Consistent(more[i], tokens)
    ensures WellIndexed(cs + more, tokens)
  {
    var all := cs + more;
    forall i | 0 <= i < |all|
      ensures all[i].index == i && Consistent(all[i], tokens)
    {
      if i >= |cs| {
        assert all[i] == more[i - |cs|];
      }
    }
  }

  // ---------------------------------------------------------------------
  // Structured path
  // ---------------------------------------------------------------------

  /** A paragraph's contribution to its run: footnotes are marked. */
  function PartText(p: Paragraph): (t: string)
    ensures (t == p.text) == (p.role != Footnote)
    ensures p.role == Footnote ==> t == "[Footnote: " + p.text + "]"
  {
    if p.role == Footnote then
      var t := "[Footnote: " + p.text + "]";
      assert |t| != |p.text|;
      t
    else p.text
  }

  function PartTexts(run: seq<Paragraph>): (parts: seq<string>)
    ensures |parts| == |run|
  {
    seq(|run|, i requires 0 <= i < |run| => PartText(run[i]))
  }

  function PagesOf(run: seq<Paragraph>): (pages: seq<int>)
    ensures |pages| == |run|
  {
    seq(|run|, i requires 0 <= i < |run| => run[i].page)
  }

  /** The chunk of a table element: its caption, when it has one, above the
      table text, with the section's breadcrumb in its embedding text. */
  function TableChunk(t: Table, origin: Origin, index: nat, tokens: string -> nat): (c: Chunk)
  {
    var text := if t.caption != "" then t.caption + "\n\n" + t.markdown else t.markdown;
    Chunk(text, index, origin.heading, origin.level, origin.parent, TableContent, t.pageStart, t.pageEnd,
          tokens(text), EmbeddingText(text, origin.heading, origin.parent, TableContent))
  }

  /** `_flush_text_parts`: the run's parts joined by blank lines, between the
      lowest and highest page of the run (the section's pages when there are
      none). */
  function FlushChunks(start: nat, parts: seq<string>, pages: seq<int>, s: Section, parent: string, budget: Budget)
    : seq<Chunk>
  {
    var full := Join("\n\n", parts);
    var pageStart := if pages != [] then MinOf(pages) else s.pageStart;
    var pageEnd := if pages != [] then MaxOf(pages) else s.pageEnd;
    TextChunks(full, start, Origin(s.heading, s.level, parent), pageStart, pageEnd, pageStart, pageEnd, budget)
  }

  /** The element loop's state: the chunks so far and the open run. */
  datatype Emit = Emit(chunks: seq<Chunk>, parts: seq<string>, pages: seq<int>)

  /** The chunks once the open run, if any, is flushed. */
  function Flushed(st: Emit, s: Section, parent: string, budget: Budget): seq<Chunk>
  {
    if st.parts != [] then st.chunks + FlushChunks(|st.chunks|, st.parts, st.pages, s, parent, budget) else st.chunks
  }

  /** One element: a table flushes the open run and follows it; a paragraph
      joins the run. */
  function ElementStep(st: Emit, e: Element, s: Section, parent: string, budget: Budget): Emit
  {
    match e
    case Tab(t) =>
      var flushed := Flushed(st, s, parent, budget);
      Emit(flushed + [TableChunk(t, Origin(s.heading, s.level, parent), |flushed|, budget.tokens)], [], [])
    case Para(p) =>
      Emit(st.chunks, st.parts + [PartText(p)], st.pages + [p.page])
  }

  /** The state after the first `k` elements of the section. */
  function ElementsUpTo(chunks: seq<Chunk>, s: Section, parent: string, k: nat, budget: Budget): Emit
    requires k <= |s.elements|
  {
    if k == 0 then Emit(chunks, [], [])
    else ElementStep(ElementsUpTo(chunks, s, parent, k - 1, budget), s.elements[k - 1], s, parent, budget)
  }

  /** The chunk list after one section: its elements, then the final run. */
  function SectionChunks(chunks: seq<Chunk>, s: Section, parent: string, budget: Budget): seq<Chunk>
  {
    Flushed(ElementsUpTo(chunks, s, parent, |s.elements|, budget), s, parent, budget)
  }

  /** The section loop's state: the chunks so far and the latest level-1
      heading. */
  datatype Walk = Walk(chunks: seq<Chunk>, lastLevel1: string)

  function ParentFor(lastLevel1: string, level: int): string
  {
    if level == 2 then lastLevel1 else ""
  }

  function SectionStep(w: Walk, s: Section, budget: Budget): Walk
  {
    var l1 := if s.level == 1 then s.heading else w.lastLevel1;
    Walk(SectionChunks(w.chunks, s, ParentFor(l1, s.level), budget), l1)
  }

  function SectionsUpTo(sections: seq<Section>, k: nat, budget: Budget): Walk
    requires k <= |sections|
  {
    if k == 0 then Walk([], "")
    else SectionStep(SectionsUpTo(sections, k - 1, budget), sections[k - 1], budget)
  }

  /** The "Key Information" lines, one per pair, in order. */
  function KeyValueLines(kvs: seq<KeyValuePair>): (lines: seq<string>)
    ensures |lines| == |kvs|
  {
    seq(|kvs|, i requires 0 <= i < |kvs| => "- " + kvs[i].key + ": " + kvs[i].value)
  }

  function KeyValuePages(kvs: seq<KeyValuePair>): (pages: seq<int>)
    ensures |pages| == |kvs|
  {
    seq(|kvs|, i requires 0 <= i < |kvs| => kvs[i].page)
  }

  /** The trailing chunk of the key/value pairs. */
  function KeyValueChunk(kvs: seq<KeyValuePair>, index: nat, tokens: string -> nat): (c: Chunk)
    requires kvs != []
  {
    var text := Join("\n", ["Key Information:"] + KeyValueLines(kvs));
    Chunk(text, index, "Key Information", 1, "", TextContent,
          MinOf(KeyValuePages(kvs)), MaxOf(KeyValuePages(kvs)), tokens(text), "")
  }

  /** `chunk_structured_document`. */
  function StructuredChunks(doc: StructuredDocument, budget: Budget): seq<Chunk>
  {
    var cs := SectionsUpTo(doc.sections, |doc.sections|, budget).chunks;
    if doc.keyValuePairs != [] then cs + [KeyValueChunk(doc.keyValuePairs, |cs|, budget.tokens)] else cs
  }

  // ---------------------------------------------------------------------
  // Structured path: indices, consistency and origin
  // ---------------------------------------------------------------------

  /** `after` keeps `before` as a prefix and every chunk it adds carries its
      own position as index, comes from `origin` and is consistent. */
  predicate IsPrefix(a: seq<Chunk>, b: seq<Chunk>)
  {
    |a| <= |b| && b[..|a|] == a
  }

  /** `after` keeps `before` as a prefix, and every chunk it adds carries its
      own position as index and is consistent. */
  predicate Extends(before: seq<Chunk>, after: seq<Chunk>, tokens: string -> nat)
  {
    && IsPrefix(before, after)
    && forall i :: |before| <= i < |after| ==> after[i].index == i && Consistent(after[i], tokens)
  }

  /** ... and every chunk it adds comes from `origin`. */
  predicate Grows(before: seq<Chunk>, after: seq<Chunk>, origin: Origin, tokens: string -> nat)
  {
    Extends(before, after, tokens) && forall i :: |before| <= i < |after| ==> FromOrigin(after[i], origin)
  }

  lemma {:induction false} GrowsTrans(a: seq<Chunk>, b: seq<Chunk>, c: seq<Chunk>, origin: Origin, tokens: string -> nat)
    requires Grows(a, b, origin, tokens) && Grows(b, c, origin, tokens)
    ensures Grows(a, c, origin, tokens)
  {
    assert c[..|a|] == c[..|b|][..|a|];
    forall i | |a| <= i < |c|
      ensures c[i].index == i && FromOrigin(c[i], origin) && Consistent(c[i], tokens)
    {
      if i < |b| {
        assert c[i] == c[..|b|][i];
      }
    }
  }

  lemma {:induction false} GrowsByRun(chunks: seq<Chunk>, more: seq<Chunk>, origin: Origin, tokens: string -> nat)
    requires IndexedFrom(more, |chunks|)
    requires forall i :: 0 <= i < |more| ==> FromOrigin(more[i], origin) && Consistent(more[i], tokens)
    ensures Grows(chunks, chunks + more, origin, tokens)
  {
    var all := chunks + more;
    assert all[..|chunks|] == chunks;
    forall i | |chunks| <= i < |all|
      ensures all[i].index == i && FromOrigin(all[i], origin) && Consistent(all[i], tokens)
    {
      assert all[i] == more[i - |chunks|];
    }
  }

  lemma {:induction false} ExtendsKeepsWellIndexed(before: seq<Chunk>, after: seq<Chunk>, tokens: string -> nat)
    requires WellIndexed(before, tokens) && Extends(before, after, tokens)
    ensures WellIndexed(after, tokens)
  {
    forall i | 0 <= i < |before|
      ensures after[i] == before[i]
    {
      assert after[i] == after[..|before|][i];
    }
  }

  /** In a list of chunk lists each extending the one before, starting from
      a well-indexed list, every list is well indexed. */
  lemma {:induction false} ChainWellIndexed(lists: seq<seq<Chunk>>, k: nat, tokens: string -> nat)
    requires forall i :: 0 <= i < |lists| - 1 ==> Extends(lists[i], lists[i + 1], tokens)
    requires k < |lists| && WellIndexed(lists[0], tokens)
    ensures WellIndexed(lists[k], tokens)
  {
    if k > 0 {
      ChainWellIndexed(lists, k - 1, tokens);
      ExtendsKeepsWellIndexed(lists[k - 1], lists[k], tokens);
    }
  }

  lemma {:induction false} FlushChunksShape(start: nat, parts: seq<string>, pages: seq<int>, s: Section, parent: string, budget: Budget)
    ensures var cs := FlushChunks(start, parts, pages, s, parent, budget);
      && IndexedFrom(cs, start)
      && forall i :: 0 <= i < |cs| ==>
           FromOrigin(cs[i], Origin(s.heading, s.level, parent)) && Consistent(cs[i], budget.tokens)
  {
    var pageStart := if pages != [] then MinOf(pages) else s.pageStart;
    var pageEnd := if pages != [] then MaxOf(pages) else s.pageEnd;
    TextChunksShape(Join("\n\n", parts), start, Origin(s.heading, s.level, parent), pageStart, pageEnd, pageStart, pageEnd, budget);
  }

  lemma {:induction false} ElementStepGrows(st: Emit, e: Element, s: Section, parent: string, budget: Budget)
    ensures Grows(st.chunks, ElementStep(st, e, s, parent, budget).chunks, Origin(s.heading, s.level, parent), budget.tokens)
  {
    var origin := Origin(s.heading, s.level, parent);
    if e.Tab? {
      var flushed := Flushed(st, s, parent, budget);
      if st.parts != [] {
        FlushChunksShape(|st.chunks|, st.parts, st.pages, s, parent, budget);
        GrowsByRun(st.chunks, FlushChunks(|st.chunks|, st.parts, st.pages, s, parent, budget), origin, budget.tokens);
      } else {
        GrowsByRun(st.chunks, [], origin, budget.tokens);
      }
      GrowsByRun(flushed, [TableChunk(e.table, origin, |flushed|, budget.tokens)], origin, budget.tokens);
      GrowsTrans(st.chunks, flushed, ElementStep(st, e, s, parent, budget).chunks, origin, budget.tokens);
    } else {
      GrowsByRun(st.chunks, [], origin, budget.tokens);
      AppendNil(st.chunks);
    }
  }

  lemma {:induction false} ElementsUpToGrows(chunks: seq<Chunk>, s: Section, parent: string, k: nat, budget: Budget)
    requires k <= |s.elements|
    ensures Grows(chunks, ElementsUpTo(chunks, s, parent, k, budget).chunks, Origin(s.heading, s.level, parent), budget.tokens)
  {
    var origin := Origin(s.heading, s.level, parent);
    if k == 0 {
      GrowsByRun(chunks, [], origin, budget.tokens);
      AppendNil(chunks);
    } else {
      var prev := ElementsUpTo(chunks, s, parent, k - 1, budget);
      ElementsUpToGrows(chunks, s, parent, k - 1, budget);
      ElementStepGrows(prev, s.elements[k - 1], s, parent, budget);
      GrowsTrans(chunks, prev.chunks, ElementsUpTo(chunks, s, parent, k, budget).chunks, origin, budget.tokens);
    }
  }

  /** A section only appends chunks, each carrying its position as index, the
      section's heading and level and the given parent. */
  lemma {:induction false} SectionChunksGrow(chunks: seq<Chunk>, s: Section, parent: string, budget: Budget)
    ensures Grows(chunks, SectionChunks(chunks, s, parent, budget), Origin(s.heading, s.level, parent), budget.tokens)
  {
    var origin := Origin(s.heading, s.level, parent);
    var st := ElementsUpTo(chunks, s, parent, |s.elements|, budget);
    ElementsUpToGrows(chunks, s, parent, |s.elements|, budget);
    if st.parts != [] {
      FlushChunksShape(|st.chunks|, st.parts, st.pages, s, parent, budget);
      GrowsByRun(st.chunks, FlushChunks(|st.chunks|, st.parts, st.pages, s, parent, budget), origin, budget.tokens);
      GrowsTrans(chunks, st.chunks, SectionChunks(chunks, s, parent, budget), origin, budget.tokens);
    }
  }

  /** The section loop run from walk `w` over `ss`, front to back. */
  function WalkFrom(w: Walk, ss: seq<Section>, budget: Budget): Walk
    decreases |ss|
  {
    if ss == [] then w else WalkFrom(SectionStep(w, ss[0], budget), ss[1..], budget)
  }

  lemma {:induction false} WalkFromSnoc(w: Walk, ss: seq<Section>, s: Section, budget: Budget)
    ensures WalkFrom(w, ss + [s], budget) == SectionStep(WalkFrom(w, ss, budget), s, budget)
    decreases |ss|
  {
    if ss == [] {
      AppendEmpty(ss, [s]);
    } else {
      AppendTail(ss, [s]);
      WalkFromSnoc(SectionStep(w, ss[0], budget), ss[1..], s, budget);
    }
  }

  lemma {:induction false} SectionsUpToIsWalkFrom(sections: seq<Section>, k: nat, budget: Budget)
    requires k <= |sections|
    ensures SectionsUpTo(sections, k, budget) == WalkFrom(Walk([], ""), sections[..k], budget)
  {
    if k == 0 {
      TakeNone(sections);
    } else {
      TakeSnoc(sections, k);
      SectionsUpToIsWalkFrom(sections, k - 1, budget);
      WalkFromSnoc(Walk([], ""), sections[..k - 1], sections[k - 1], budget);
    }
  }

  lemma {:induction false} WalkFromWellIndexed(w: Walk, ss: seq<Section>, budget: Budget)
    requires WellIndexed(w.chunks, budget.tokens)
    ensures WellIndexed(WalkFrom(w, ss, budget).chunks, budget.tokens)
    decreases |ss|
  {
    if ss != [] {
      SectionStepKeepsWellIndexed(w, ss[0], budget);
      WalkFromWellIndexed(SectionStep(w, ss[0], budget), ss[1..], budget);
    }
  }

  lemma {:induction false} SectionsUpToWellIndexed(sections: seq<Section>, k: nat, budget: Budget)
    requires k <= |sections|
    ensures WellIndexed(SectionsUpTo(sections, k, budget).chunks, budget.tokens)
  {
    SectionsUpToIsWalkFrom(sections, k, budget);
    WalkFromWellIndexed(Walk([], ""), sections[..k], budget);
  }

  lemma {:induction false} SectionStepKeepsWellIndexed(w: Walk, s: Section, budget: Budget)
    requires WellIndexed(w.chunks, budget.tokens)
    ensures WellIndexed(SectionStep(w, s, budget).chunks, budget.tokens)
  {
    var l1 := if s.level == 1 then s.heading else w.lastLevel1;
    SectionChunksGrow(w.chunks, s, ParentFor(l1, s.level), budget);
    ExtendsKeepsWellIndexed(w.chunks, SectionStep(w, s, budget).chunks, budget.tokens);
  }

  /** Chunk indices of a structured document are exactly 0..N-1 in emission
      order; every chunk's token count is its text's; text chunks have an
      empty embedding text and table chunks their breadcrumbed one; and the
      key/value chunk, when there are pairs, is last. */
  lemma {:induction false} StructuredChunksIndexed(doc: StructuredDocument, budget: Budget)
    ensures var out := StructuredChunks(doc, budget);
      && WellIndexed(out, budget.tokens)
      && (doc.keyValuePairs != [] ==> out != [] && out[|out| - 1] == KeyValueChunk(doc.keyValuePairs, |out| - 1, budget.tokens))
  {
    var cs := SectionsUpTo(doc.sections, |doc.sections|, budget).chunks;
    SectionsUpToWellIndexed(doc.sections, |doc.sections|, budget);
    if doc.keyValuePairs != [] {
      var kv := KeyValueChunk(doc.keyValuePairs, |cs|, budget.tokens);
      WellIndexedAppend(cs, [kv], budget.tokens);
    }
  }

  /** The key/value chunk: heading "Key Information" at level 1 with no
      parent, the line "Key Information:" then one "- key: value" line per
      pair in order, between the lowest and highest page of the pairs. */
  lemma {:induction false} KeyValueChunkShape(kvs: seq<KeyValuePair>, index: nat, tokens: string -> nat)
    requires kvs != []
    ensures var c := KeyValueChunk(kvs, index, tokens);
      && c.sectionHeading == "Key Information" && c.sectionLevel == 1 && c.parentSection == ""
      && c.contentType == TextContent && c.embeddingText == ""
      && c.text == Join("\n", ["Key Information:"] + KeyValueLines(kvs))
      && (forall i :: 0 <= i < |kvs| ==> KeyValueLines(kvs)[i] == "- " + kvs[i].key + ": " + kvs[i].value)
      && (forall i :: 0 <= i < |kvs| ==> c.pageStart <= kvs[i].page <= c.pageEnd)
      && (exists i :: 0 <= i < |kvs| && kvs[i].page == c.pageStart)
      && (exists i :: 0 <= i < |kvs| && kvs[i].page == c.pageEnd)
  {
    var pages := KeyValuePages(kvs);
    var c := KeyValueChunk(kvs, index, tokens);
    forall i | 0 <= i < |kvs|
      ensures c.pageStart <= kvs[i].page <= c.pageEnd
    {
      assert pages[i] == kvs[i].page && pages[i] in pages;
    }
    var lo :| 0 <= lo < |pages| && pages[lo] == MinOf(pages);
    var hi :| 0 <= hi < |pages| && pages[hi] == MaxOf(pages);
    assert kvs[lo].page == c.pageStart && kvs[hi].page == c.pageEnd;
  }

  /** A document with no sections and no pairs gives no chunks. */
  lemma {:induction false} EmptyStructuredDocument(doc: StructuredDocument, budget: Budget)
    requires doc.sections == [] && doc.keyValuePairs == []
    ensures StructuredChunks(doc, budget) == []
  {
  }

  // ---------------------------------------------------------------------
  // Structured path: parents
  // ---------------------------------------------------------------------

  /** `h` is the heading of the last level-1 section among the first `k`,
      or empty when there is none. */
  predicate IsLastLevel1(sections: seq<Section>, k: nat, h: string)
    requires k <= |sections|
  {
    || (h == "" && forall j :: 0 <= j < k ==> sections[j].level != 1)
    || (exists j :: 0 <= j < k && sections[j].level == 1 && sections[j].heading == h &&
          forall i :: j < i < k ==> sections[i].level != 1)
  }

  /** `hs[i]` is the latest level-1 heading after the first `i` sections,
      as the section loop updates it. */
  predicate TracksLevel1(sections: seq<Section>, hs: seq<string>)
  {
    && |hs| == |sections| + 1
    && hs[0] == ""
    && forall i :: 0 <= i < |sections| ==>
         hs[i + 1] == if sections[i].level == 1 then sections[i].heading else hs[i]
  }

  lemma {:induction false} TrackedIsLastLevel1(sections: seq<Section>, hs: seq<string>, k: nat)
    requires TracksLevel1(sections, hs) && k <= |sections|
    ensures IsLastLevel1(sections, k, hs[k])
  {
    if k > 0 {
      TrackedIsLastLevel1(sections, hs, k - 1);
      var h := hs[k - 1];
      if sections[k - 1].level != 1 {
        assert hs[k] == h;
        if h != "" || exists j :: 0 <= j < k - 1 && sections[j].level == 1 {
          var j :| 0 <= j < k - 1 && sections[j].level == 1 && sections[j].heading == h &&
                   forall i :: j < i < k - 1 ==> sections[i].level != 1;
          assert forall i :: j < i < k ==> sections[i].level != 1;
        }
      }
    }
  }

  lemma {:induction false} WalkTracksLevel1(sections: seq<Section>, k: nat, budget: Budget)
    requires k <= |sections|
    ensures IsLastLevel1(sections, k, SectionsUpTo(sections, k, budget).lastLevel1)
  {
    var hs := seq(|sections| + 1, i requires 0 <= i <= |sections| => SectionsUpTo(sections, i, budget).lastLevel1);
    TrackedIsLastLevel1(sections, hs, k);
  }

  /** One section step appends chunks from that section, with the parent
      the step computes. */
  lemma {:induction false} SectionStepGrows(w: Walk, s: Section, budget: Budget)
    ensures var l1 := if s.level == 1 then s.heading else w.lastLevel1;
      Grows(w.chunks, SectionStep(w, s, budget).chunks, Origin(s.heading, s.level, ParentFor(l1, s.level)), budget.tokens)
  {
    var l1 := if s.level == 1 then s.heading else w.lastLevel1;
    SectionChunksGrow(w.chunks, s, ParentFor(l1, s.level), budget);
  }

  lemma {:induction false} SectionStepPrefix(w: Walk, s: Section, budget: Budget)
    ensures IsPrefix(w.chunks, SectionStep(w, s, budget).chunks)
  {
    SectionStepGrows(w, s, budget);
  }

  lemma {:induction false} PrefixTrans(a: seq<Chunk>, b: seq<Chunk>, c: seq<Chunk>)
    requires IsPrefix(a, b) && IsPrefix(b, c)
    ensures IsPrefix(a, c)
  {
    assert c[..|a|] == c[..|b|][..|a|];
  }

  lemma {:induction false} SectionsUpToStepPrefix(sections: seq<Section>, k: nat, budget: Budget)
    requires 0 < k <= |sections|
    ensures IsPrefix(SectionsUpTo(sections, k - 1, budget).chunks, SectionsUpTo(sections, k, budget).chunks)
  {
    SectionStepPrefix(SectionsUpTo(sections, k - 1, budget), sections[k - 1], budget);
  }

  /** In a list of chunk lists each extending the one before, every list
      extends every earlier one. */
  lemma {:induction false} ChainPrefix(lists: seq<seq<Chunk>>, j: nat, k: nat)
    requires forall i :: 0 <= i < |lists| - 1 ==> IsPrefix(lists[i], lists[i + 1])
    requires j <= k < |lists|
    ensures IsPrefix(lists[j], lists[k])
    decreases k
  {
    if j == k {
      assert lists[j][..|lists[j]|] == lists[j];
    } else {
      ChainPrefix(lists, j, k - 1);
      PrefixTrans(lists[j], lists[k - 1], lists[k]);
    }
  }

  lemma {:induction false} SectionsUpToPrefix(sections: seq<Section>, j: nat, k: nat, budget: Budget)
    requires j <= k <= |sections|
    ensures IsPrefix(SectionsUpTo(sections, j, budget).chunks, SectionsUpTo(sections, k, budget).chunks)
  {
    var lists := seq(|sections| + 1, i requires 0 <= i <= |sections| => SectionsUpTo(sections, i, budget).chunks);
    forall i | 0 <= i < |lists| - 1
      ensures IsPrefix(lists[i], lists[i + 1])
    {
      SectionsUpToStepPrefix(sections, i + 1, budget);
    }
    ChainPrefix(lists, j, k);
  }

  /** Chunk `c` belongs to section `k`: it carries the section's heading
      and level; a level-2 section's chunk carries the heading of the last
      level-1 section before it (empty when there is none), and the chunk of
      any other section carries an empty parent. */
  predicate CarriesSection(sections: seq<Section>, k: nat, c: Chunk)
    requires k < |sections|
  {
    && c.sectionHeading == sections[k].heading && c.sectionLevel == sections[k].level
    && (sections[k].level == 2 ==> IsLastLevel1(sections, k, c.parentSection))
    && (sections[k].level != 2 ==> c.parentSection == "")
  }

  /** The chunks one section step adds, given the latest level-1 heading
      before it, belong to that section. */
  lemma {:induction false} CarriedBy(sections: seq<Section>, k: nat, l1: string, before: seq<Chunk>, after: seq<Chunk>, tokens: string -> nat)
    requires k < |sections| && IsLastLevel1(sections, k, l1)
    requires var s := sections[k];
      Grows(before, after, Origin(s.heading, s.level, ParentFor(if s.level == 1 then s.heading else l1, s.level)), tokens)
    ensures IsPrefix(before, after)
    ensures forall i :: |before| <= i < |after| ==> CarriesSection(sections, k, after[i])
  {
  }

  /** The chunks of section `k` follow those of the sections before it, and
      each belongs to that section. */
  lemma {:induction false} SectionChunksCarrySection(sections: seq<Section>, k: nat, budget: Budget)
    requires k < |sections|
    ensures var before := SectionsUpTo(sections, k, budget).chunks;
      var after := SectionsUpTo(sections, k + 1, budget).chunks;
      IsPrefix(before, after) && forall i :: |before| <= i < |after| ==> CarriesSection(sections, k, after[i])
  {
    var w := SectionsUpTo(sections, k, budget);
    SectionsUpToStepGrows(sections, k, budget);
    WalkTracksLevel1(sections, k, budget);
    CarriedBy(sections, k, w.lastLevel1, w.chunks, SectionsUpTo(sections, k + 1, budget).chunks, budget.tokens);
  }

  lemma {:induction false} SectionsUpToStepGrows(sections: seq<Section>, k: nat, budget: Budget)
    requires k < |sections|
    ensures var s := sections[k];
      var l1 := if s.level == 1 then s.heading else SectionsUpTo(sections, k, budget).lastLevel1;
      Grows(SectionsUpTo(sections, k, budget).chunks, SectionsUpTo(sections, k + 1, budget).chunks,
            Origin(s.heading, s.level, ParentFor(l1, s.level)), budget.tokens)
  {
    SectionStepGrows(SectionsUpTo(sections, k, budget), sections[k], budget);
  }

  lemma {:induction false} PrefixAgrees(a: seq<Chunk>, b: seq<Chunk>)
    requires IsPrefix(a, b)
    ensures forall i :: 0 <= i < |a| ==> b[i] == a[i]
  {
    forall i | 0 <= i < |a|
      ensures b[i] == a[i]
    {
      assert b[i] == b[..|a|][i];
    }
  }

  /** The chunks of the first `k` sections begin the document's chunks. */
  lemma {:induction false} StructuredExtends(doc: StructuredDocument, budget: Budget, k: nat)
    requires k <= |doc.sections|
    ensures IsPrefix(SectionsUpTo(doc.sections, k, budget).chunks, StructuredChunks(doc, budget))
  {
    var all := SectionsUpTo(doc.sections, |doc.sections|, budget).chunks;
    SectionsUpToPrefix(doc.sections, k, |doc.sections|, budget);
    if doc.keyValuePairs != [] {
      var out := StructuredChunks(doc, budget);
      assert out[..|all|] == all;
      PrefixTrans(SectionsUpTo(doc.sections, k, budget).chunks, all, out);
    }
  }

  // ---------------------------------------------------------------------
  // Structured path: runs and tables
  // ---------------------------------------------------------------------

  /** The paragraphs after the last table among the first `k` elements. */
  function TrailingParas(es: seq<Element>, k: nat): seq<Paragraph>
    requires k <= |es|
  {
    if k == 0 then []
    else if es[k - 1].Tab? then []
    else TrailingParas(es, k - 1) + [es[k - 1].para]
  }

  /** The text chunks of a run of paragraphs: none for an empty run. */
  function RunChunks(start: nat, run: seq<Paragraph>, s: Section, parent: string, budget: Budget): seq<Chunk>
  {
    if run == [] then [] else FlushChunks(start, PartTexts(run), PagesOf(run), s, parent, budget)
  }

  /** `st`'s open run is the paragraphs after the last table among the
      first `k` elements, footnotes marked, with their pages. */
  predicate OpenRun(st: Emit, es: seq<Element>, k: nat)
    requires k <= |es|
  {
    st.parts == PartTexts(TrailingParas(es, k)) && st.pages == PagesOf(TrailingParas(es, k))
  }

  /** The open run of the element loop is the paragraphs since the last
      table, footnotes marked, with their pages. */
  lemma {:induction false} OpenRunIsTrailingParas(chunks: seq<Chunk>, s: Section, parent: string, k: nat, budget: Budget)
    requires k <= |s.elements|
    ensures OpenRun(ElementsUpTo(chunks, s, parent, k, budget), s.elements, k)
  {
    if k == 0 {
      RunNil();
    } else {
      OpenRunIsTrailingParas(chunks, s, parent, k - 1, budget);
      OpenRunStep(ElementsUpTo(chunks, s, parent, k - 1, budget), s, k - 1, parent, budget);
    }
  }

  lemma {:induction false} OpenRunStep(st: Emit, s: Section, k: nat, parent: string, budget: Budget)
    requires k < |s.elements| && OpenRun(st, s.elements, k)
    ensures OpenRun(ElementStep(st, s.elements[k], s, parent, budget), s.elements, k + 1)
  {
    var run := TrailingParas(s.elements, k);
    ElementStepRun(st, s.elements[k], s, parent, budget);
    if s.elements[k].Para? {
      RunSnoc(run, s.elements[k].para);
    } else {
      RunNil();
    }
  }

  /** A table closes the open run; a paragraph extends it. */
  lemma {:induction false} ElementStepRun(st: Emit, e: Element, s: Section, parent: string, budget: Budget)
    ensures var next := ElementStep(st, e, s, parent, budget);
      && (e.Tab? ==> next.parts == [] && next.pages == [])
      && (e.Para? ==> next.parts == st.parts + [PartText(e.para)] && next.pages == st.pages + [e.para.page])
  {
  }

  lemma RunNil()
    ensures PartTexts([]) == [] && PagesOf([]) == []
  {
  }

  lemma RunSnoc(run: seq<Paragraph>, p: Paragraph)
    ensures PartTexts(run + [p]) == PartTexts(run) + [PartText(p)]
    ensures PagesOf(run + [p]) == PagesOf(run) + [p.page]
  {
  }

  /** A table element flushes the open run, then adds its own chunk with
      the next index. */
  lemma {:induction false} TableStep(st: Emit, e: Element, run: seq<Paragraph>, s: Section, parent: string, budget: Budget)
    requires e.Tab? && st.parts == PartTexts(run) && st.pages == PagesOf(run)
    ensures var flushed := st.chunks + RunChunks(|st.chunks|, run, s, parent, budget);
      ElementStep(st, e, s, parent, budget).chunks
      == flushed + [TableChunk(e.table, Origin(s.heading, s.level, parent), |flushed|, budget.tokens)]
  {
    if run == [] {
      AppendNil(st.chunks);
    }
  }

  /** After the last element, the open run is flushed. */
  lemma {:induction false} SectionEndsWithItsRun(chunks: seq<Chunk>, s: Section, parent: string, budget: Budget)
    ensures var st := ElementsUpTo(chunks, s, parent, |s.elements|, budget);
      SectionChunks(chunks, s, parent, budget)
        == st.chunks + RunChunks(|st.chunks|, TrailingParas(s.elements, |s.elements|), s, parent, budget)
  {
    OpenRunIsTrailingParas(chunks, s, parent, |s.elements|, budget);
    var st := ElementsUpTo(chunks, s, parent, |s.elements|, budget);
    if st.parts == [] {
      AppendNil(st.chunks);
    }
  }

  lemma {:induction false} NoTablesNoChunks(chunks: seq<Chunk>, s: Section, parent: string, k: nat, budget: Budget)
    requires k <= |s.elements|
    requires forall i :: 0 <= i < |s.elements| ==> s.elements[i].Para?
    ensures ElementsUpTo(chunks, s, parent, k, budget).chunks == chunks
    ensures TrailingParas(s.elements, k) == ParasOf(s.elements[..k])
  {
    if k > 0 {
      NoTablesNoChunks(chunks, s, parent, k - 1, budget);
      var es := s.elements;
      assert es[..k] == es[..k - 1] + [es[k - 1]];
      ParasOfAppend(es[..k - 1], [es[k - 1]]);
      assert ParasOf([es[k - 1]]) == [es[k - 1].para];
    }
  }

  /** A section without tables yields the chunks of all its paragraphs as
      one run. */
  lemma {:induction false} TablelessSection(chunks: seq<Chunk>, s: Section, parent: string, budget: Budget)
    requires forall i :: 0 <= i < |s.elements| ==> s.elements[i].Para?
    ensures SectionChunks(chunks, s, parent, budget) == chunks + RunChunks(|chunks|, ParasOf(s.elements), s, parent, budget)
  {
    assert s.elements[..|s.elements|] == s.elements;
    NoTablesNoChunks(chunks, s, parent, |s.elements|, budget);
    SectionEndsWithItsRun(chunks, s, parent, budget);
  }

  /** A run whose blank-line-joined text (footnotes marked) fits the budget
      yields exactly one text chunk with that text, between the lowest and
      highest page of its paragraphs, unless the text is blank, when it
      yields none. */
  lemma {:induction false} FittingRun(start: nat, run: seq<Paragraph>, s: Section, parent: string, budget: Budget)
    requires budget.tokens(Join("\n\n", PartTexts(run))) <= budget.maxTokens
    ensures var text := Join("\n\n", PartTexts(run));
      var cs := RunChunks(start, run, s, parent, budget);
      && (IsBlank(text) ==> cs == [])
      && (!IsBlank(text) ==>
            && |cs| == 1 && cs[0].text == text && cs[0].contentType == TextContent
            && cs[0].pageStart == MinOf(PagesOf(run)) && cs[0].pageEnd == MaxOf(PagesOf(run)))
  {
    var text := Join("\n\n", PartTexts(run));
    if run == [] {
      assert PartTexts(run) == [];
      StripEmptyIffBlank(text);
    } else {
      var pages := PagesOf(run);
      var origin := Origin(s.heading, s.level, parent);
      TextChunksFit(text, start, origin, MinOf(pages), MaxOf(pages), MinOf(pages), MaxOf(pages), budget);
      TextChunksShape(text, start, origin, MinOf(pages), MaxOf(pages), MinOf(pages), MaxOf(pages), budget);
    }
  }

  /** A section of paragraphs only whose text fits the budget adds one text
      chunk with exactly that text, or none when the text is blank. */
  lemma {:induction false} FittingSectionOneChunk(chunks: seq<Chunk>, s: Section, parent: string, budget: Budget)
    requires forall i :: 0 <= i < |s.elements| ==> s.elements[i].Para?
    requires budget.tokens(Join("\n\n", PartTexts(ParasOf(s.elements)))) <= budget.maxTokens
    ensures var paras := ParasOf(s.elements);
      var text := Join("\n\n", PartTexts(paras));
      var out := SectionChunks(chunks, s, parent, budget);
      && (IsBlank(text) ==> out == chunks)
      && (!IsBlank(text) ==>
            && |out| == |chunks| + 1 && IsPrefix(chunks, out)
            && out[|chunks|].text == text && out[|chunks|].contentType == TextContent
            && out[|chunks|].pageStart == MinOf(PagesOf(paras)) && out[|chunks|].pageEnd == MaxOf(PagesOf(paras)))
  {
    var run := RunChunks(|chunks|, ParasOf(s.elements), s, parent, budget);
    TablelessSection(chunks, s, parent, budget);
    FittingRun(|chunks|, ParasOf(s.elements), s, parent, budget);
    assert (chunks + run)[..|chunks|] == chunks;
    if run == [] {
      assert chunks + run == chunks;
    }
  }

  // ---------------------------------------------------------------------
  // Structured path: the loops of the source
  // ---------------------------------------------------------------------

  /** The sub-chunk loop shared by both paths: sub-chunk `i` gets index
      `start + i` and its interpolated pages. */
  method EmitSubChunks(chunks: seq<Chunk>, texts: seq<string>, start: nat, origin: Origin, pageStart: int, pageEnd: int,
                       tokens: string -> nat)
    returns (chunks': seq<Chunk>)
    ensures chunks' == chunks + SubChunks(texts, start, origin, pageStart, pageEnd, tokens)
  {
    var pagesPerChunk := Max(1, (pageEnd - pageStart + 1) / Max(1, |texts|));
    ghost var all := SubChunks(texts, start, origin, pageStart, pageEnd, tokens);
    chunks' := chunks;
    for i := 0 to |texts|
      invariant chunks' == chunks + all[..i]
    {
      var pStart := pageStart + i * pagesPerChunk;
      var pEnd := Min(pageEnd, pStart + pagesPerChunk);
      TakeSnoc(all, i + 1);
      AppendAssoc(chunks, all[..i], [all[i]]);
      chunks' := chunks' + [TextChunk(texts[i], start + i, origin, pStart, pEnd, tokens)];
    }
    TakeAll(all);
  }

  /** `_flush_text_parts`: appends the chunks of one run and returns the
      next chunk index. */
  method FlushTextParts(parts: seq<string>, pages: seq<int>, s: Section, parent: string, budget: Budget,
                        chunks: seq<Chunk>, chunkIndex: nat)
    returns (chunks': seq<Chunk>, chunkIndex': nat)
    ensures chunks' == chunks + FlushChunks(chunkIndex, parts, pages, s, parent, budget)
    ensures chunkIndex' == chunkIndex + |FlushChunks(chunkIndex, parts, pages, s, parent, budget)|
  {
    var fullText := Join("\n\n", parts);
    var totalTokens := budget.tokens(fullText);
    var pageStart := if pages != [] then MinOf(pages) else s.pageStart;
    var pageEnd := if pages != [] then MaxOf(pages) else s.pageEnd;
    var origin := Origin(s.heading, s.level, parent);
    chunks', chunkIndex' := chunks, chunkIndex;
    if totalTokens <= budget.maxTokens {
      if Strip(fullText) != [] {
        chunks' := chunks + [TextChunk(fullText, chunkIndex, origin, pageStart, pageEnd, budget.tokens)];
        chunkIndex' := chunkIndex + 1;
      } else {
        AppendNil(chunks);
      }
    } else {
      var subChunks := SplitOnSentences(fullText, budget);
      chunks' := EmitSubChunks(chunks, subChunks, chunkIndex, origin, pageStart, pageEnd, budget.tokens);
      chunkIndex' := chunkIndex + |subChunks|;
    }
  }

  /** One element of the element loop: a table flushes the open run and
      adds its chunk, a paragraph joins the run. */
  method EmitElement(e: Element, s: Section, parent: string, budget: Budget,
                     chunks: seq<Chunk>, chunkIndex: nat, parts: seq<string>, pages: seq<int>)
    returns (chunks': seq<Chunk>, chunkIndex': nat, parts': seq<string>, pages': seq<int>)
    requires chunkIndex == |chunks|
    ensures Emit(chunks', parts', pages') == ElementStep(Emit(chunks, parts, pages), e, s, parent, budget)
    ensures chunkIndex' == |chunks'|
  {
    match e
    case Tab(t) =>
      chunks', chunkIndex' := EmitTable(t, s, parent, budget, chunks, chunkIndex, parts, pages);
      parts', pages' := [], [];
    case Para(p) =>
      chunks', chunkIndex' := chunks, chunkIndex;
      if p.role == Footnote {
        parts' := parts + ["[Footnote: " + p.text + "]"];
      } else {
        parts' := parts + [p.text];
      }
      pages' := pages + [p.page];
  }

  /** A table element: the open run is flushed, then the table's chunk,
      its caption above its text, is appended. */
  method EmitTable(t: Table, s: Section, parent: string, budget: Budget,
                   chunks: seq<Chunk>, chunkIndex: nat, parts: seq<string>, pages: seq<int>)
    returns (chunks': seq<Chunk>, chunkIndex': nat)
    requires chunkIndex == |chunks|
    ensures var flushed := Flushed(Emit(chunks, parts, pages), s, parent, budget);
      chunks' == flushed + [TableChunk(t, Origin(s.heading, s.level, parent), |flushed|, budget.tokens)]
    ensures chunkIndex' == |chunks'|
  {
    chunks', chunkIndex' := FlushOpenRun(s, parent, budget, chunks, chunkIndex, parts, pages);
    var tableText := t.markdown;
    if t.caption != "" {
      tableText := t.caption + "\n\n" + t.markdown;
    }
    chunks' := chunks' + [Chunk(tableText, chunkIndex', s.heading, s.level, parent, TableContent, t.pageStart, t.pageEnd,
                                budget.tokens(tableText), EmbeddingText(tableText, s.heading, parent, TableContent))];
    chunkIndex' := chunkIndex' + 1;
  }

  /** `if text_parts: chunk_index = _flush_text_parts(...)`. */
  method FlushOpenRun(s: Section, parent: string, budget: Budget,
                      chunks: seq<Chunk>, chunkIndex: nat, parts: seq<string>, pages: seq<int>)
    returns (chunks': seq<Chunk>, chunkIndex': nat)
    requires chunkIndex == |chunks|
    ensures chunks' == Flushed(Emit(chunks, parts, pages), s, parent, budget)
    ensures chunkIndex' == |chunks'|
  {
    chunks', chunkIndex' := chunks, chunkIndex;
    if parts != [] {
      chunks', chunkIndex' := FlushTextParts(parts, pages, s, parent, budget, chunks, chunkIndex);
    }
  }

  /** The body of the section loop: the element loop, then the final flush. */
  method ChunkSection(s: Section, parent: string, budget: Budget, chunks: seq<Chunk>, chunkIndex: nat)
    returns (chunks': seq<Chunk>, chunkIndex': nat)
    requires chunkIndex == |chunks|
    ensures chunks' == SectionChunks(chunks, s, parent, budget)
    ensures chunkIndex' == |chunks'|
  {
    chunks', chunkIndex' := chunks, chunkIndex;
    var textParts: seq<string> := [];
    var textPages: seq<int> := [];
    for k := 0 to |s.elements|
      invariant Emit(chunks', textParts, textPages) == ElementsUpTo(chunks, s, parent, k, budget)
      invariant chunkIndex' == |chunks'|
    {
      chunks', chunkIndex', textParts, textPages :=
        EmitElement(s.elements[k], s, parent, budget, chunks', chunkIndex', textParts, textPages);
    }
    chunks', chunkIndex' := FlushOpenRun(s, parent, budget, chunks', chunkIndex', textParts, textPages);
  }

  /** The "Key Information:" lines and the pages of the pairs, as the pair
      loop collects them. */
  method CollectKeyValues(kvs: seq<KeyValuePair>) returns (kvLines: seq<string>, kvPages: seq<int>)
    ensures kvLines == ["Key Information:"] + KeyValueLines(kvs)
    ensures kvPages == KeyValuePages(kvs)
  {
    kvLines, kvPages := ["Key Information:"], [];
    for i := 0 to |kvs|
      invariant |kvLines| == i + 1 && kvLines[0] == "Key Information:" && |kvPages| == i
      invariant forall j :: 0 <= j < i ==> kvLines[j + 1] == KeyValueLines(kvs)[j] && kvPages[j] == kvs[j].page
    {
      kvLines := kvLines + ["- " + kvs[i].key + ": " + kvs[i].value];
      kvPages := kvPages + [kvs[i].page];
    }
  }

  /** The section loop of `chunk_structured_document`: the latest level-1
      heading is the parent of each level-2 section. */
  method ChunkSections(sections: seq<Section>, budget: Budget) returns (chunks: seq<Chunk>, chunkIndex: nat)
    ensures chunks == SectionsUpTo(sections, |sections|, budget).chunks
    ensures chunkIndex == |chunks|
  {
    chunks, chunkIndex := [], 0;
    var currentLevel1 := "";
    for k := 0 to |sections|
      invariant Walk(chunks, currentLevel1) == SectionsUpTo(sections, k, budget)
      invariant chunkIndex == |chunks|
    {
      var section := sections[k];
      if section.level == 1 {
        currentLevel1 := section.heading;
      }
      var parent := if section.level == 2 then currentLevel1 else "";
      chunks, chunkIndex := ChunkSection(section, parent, budget, chunks, chunkIndex);
    }
  }

  /** `chunk_structured_document`, as the loops of the source run it; its
      chunk indices are 0..N-1 in order and every chunk is consistent. */
  method ChunkStructuredDocument(doc: StructuredDocument, budget: Budget) returns (chunks: seq<Chunk>)
    ensures chunks == StructuredChunks(doc, budget)
    ensures WellIndexed(chunks, budget.tokens)
  {
    var chunkIndex;
    chunks, chunkIndex := ChunkSections(doc.sections, budget);
    if doc.keyValuePairs != [] {
      var kvLines, kvPages := CollectKeyValues(doc.keyValuePairs);
      var kvText := Join("\n", kvLines);
      chunks := chunks + [Chunk(kvText, chunkIndex, "Key Information", 1, "", TextContent,
                                MinOf(kvPages), MaxOf(kvPages), budget.tokens(kvText), "")];
    }
    StructuredChunksIndexed(doc, budget);
  }
}
