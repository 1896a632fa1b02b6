/** The heuristic path of the chunker (`_group_blocks_by_heading` and
    `chunk_document` in backend/app/services/chunker.py): the text blocks of
    the heuristic extractor are grouped under the headings it detected, and
    the document becomes its table chunks followed by the text chunks of
    each group. */
module HeuristicChunker {
  import opened Wrappers
  import opened Seqs
  import opened Text
  import opened Sentences
  import opened Chunker
  import opened PdfParser

  // ---------------------------------------------------------------------
  // Grouping blocks by heading
  // ---------------------------------------------------------------------

  /** A group of text blocks under one heading. */
  datatype BlockSection = BlockSection(
    heading: string,
    level: int,
    parent: string,
    blocks: seq<TextBlock>,
    pageStart: int,
    pageEnd: int)

  /** The group that is open before the first heading. */
  const Introduction := BlockSection("Introduction", 1, "", [], 1, 1)

  /** `next(h for h in doc.headings if h.text == text)`, when there is one. */
  function FirstHeading(headings: seq<HeadingBlock>, text: string): Option<HeadingBlock>
  {
    if headings == [] then None
    else if headings[0].text == text then Some(headings[0])
    else FirstHeading(headings[1..], text)
  }

  /** `{h.text for h in doc.headings}`. */
  function HeadingTexts(headings: seq<HeadingBlock>): set<string>
  {
    set h | h in headings :: h.text
  }

  /** A block's text is a heading text exactly when some heading has that
      text, and then the first such heading is found. */
  lemma {:induction false} FirstHeadingFound(headings: seq<HeadingBlock>, text: string)
    ensures FirstHeading(headings, text).Some? <==> text in HeadingTexts(headings)
    ensures match FirstHeading(headings, text)
      case Some(h) => exists i :: 0 <= i < |headings| && headings[i] == h && h.text == text &&
                        forall j :: 0 <= j < i ==> headings[j].text != text
      case None => forall i :: 0 <= i < |headings| ==> headings[i].text != text
    decreases |headings|
  {
    if headings != [] {
      FirstHeadingFound(headings[1..], text);
      assert forall h :: h in headings <==> h == headings[0] || h in headings[1..];
      match FirstHeading(headings[1..], text)
      case Some(h) =>
        if headings[0].text != text {
          var i :| 0 <= i < |headings[1..]| && headings[1..][i] == h && h.text == text &&
                   forall j :: 0 <= j < i ==> headings[1..][j].text != text;
          assert headings[i + 1] == h;
          assert forall j :: 0 <= j < i + 1 ==> headings[j].text != text by {
            forall j | 0 < j < i + 1
              ensures headings[j].text != text
            {
              assert headings[j] == headings[1..][j - 1];
            }
          }
        }
      case None =>
        if headings[0].text != text {
          forall i | 0 < i < |headings|
            ensures headings[i].text != text
          {
            assert headings[i] == headings[1..][i - 1];
          }
        }
    }
  }

  /** The grouping loop's state: the closed groups, the open one and the
      latest level-1 heading. */
  datatype Grouping = Grouping(sections: seq<BlockSection>, current: BlockSection, lastLevel1: string)

  /** The closed groups, and the open one when it has blocks. */
  function Close(g: Grouping): seq<BlockSection>
  {
    if g.current.blocks != [] then g.sections + [g.current] else g.sections
  }

  /** One block: a heading block closes the open group and opens its own,
      on its page, a level-2 heading under the latest level-1 heading; any
      other block joins the open group and moves its last page. */
  function GroupStep(g: Grouping, b: TextBlock, headings: seq<HeadingBlock>): Grouping
  {
    match FirstHeading(headings, b.text)
    case Some(h) =>
      Grouping(Close(g),
               BlockSection(h.text, h.level, if h.level == 2 then g.lastLevel1 else "", [], b.page, b.page),
               if h.level == 1 then h.text else g.lastLevel1)
    case None =>
      Grouping(g.sections, g.current.(blocks := g.current.blocks + [b], pageEnd := b.page), g.lastLevel1)
  }

  function GroupUpTo(blocks: seq<TextBlock>, k: nat, headings: seq<HeadingBlock>): Grouping
    requires k <= |blocks|
  {
    if k == 0 then Grouping([], Introduction, "")
    else GroupStep(GroupUpTo(blocks, k - 1, headings), blocks[k - 1], headings)
  }

  /** `_group_blocks_by_heading`. */
  function GroupSections(doc: ParsedDocument): seq<BlockSection>
  {
    Close(GroupUpTo(doc.textBlocks, |doc.textBlocks|, doc.headings))
  }

  /** A block that is not a heading. */
  predicate IsContent(headings: seq<HeadingBlock>, b: TextBlock)
  {
    FirstHeading(headings, b.text).None?
  }

  function BlocksOf(ss: seq<BlockSection>): (bs: seq<seq<TextBlock>>)
    ensures |bs| == |ss|
  {
    seq(|ss|, i requires 0 <= i < |ss| => ss[i].blocks)
  }

  /** A group as the grouping builds it: it holds blocks unless it is the
      open one, it ends on the page of its last block, it is the
      introduction or is headed by a detected heading of its level, and
      only a level-2 group has a parent, which is empty or a level-1
      heading. */
  predicate GroupShape(s: BlockSection, headings: seq<HeadingBlock>)
  {
    && (s.blocks != [] ==> s.pageEnd == s.blocks[|s.blocks| - 1].page)
    && (IsIntroduction(s) || exists h | h in headings :: h.text == s.heading && h.level == s.level)
    && (s.level != 2 ==> s.parent == "")
    && (s.parent == "" || exists h | h in headings :: h.level == 1 && h.text == s.parent)
  }

  /** The introduction group: "Introduction" at level 1 from page 1. */
  predicate IsIntroduction(s: BlockSection)
  {
    s.heading == "Introduction" && s.level == 1 && s.parent == "" && s.pageStart == 1
  }

  predicate GroupInvariant(g: Grouping, done: seq<TextBlock>, headings: seq<HeadingBlock>)
  {
    && Concat(BlocksOf(g.sections)) + g.current.blocks == Filter(done, b => IsContent(headings, b))
    && (forall i :: 0 <= i < |g.sections| ==> g.sections[i].blocks != [] && GroupShape(g.sections[i], headings))
    && GroupShape(g.current, headings)
    && (g.lastLevel1 == "" || exists h | h in headings :: h.level == 1 && h.text == g.lastLevel1)
  }

  lemma {:induction false} BlocksOfSnoc(ss: seq<BlockSection>, s: BlockSection)
    ensures Concat(BlocksOf(ss + [s])) == Concat(BlocksOf(ss)) + s.blocks
  {
    assert BlocksOf(ss + [s]) == BlocksOf(ss) + [s.blocks];
    ConcatAppend(BlocksOf(ss), [s.blocks]);
    assert Concat([s.blocks]) == s.blocks + Concat([s.blocks][1..]);
    assert [s.blocks][1..] == [];
    AppendNil(s.blocks);
  }

  lemma {:induction false} FilterSnoc<T>(done: seq<T>, x: T, p: T -> bool)
    ensures Filter(done + [x], p) == Filter(done, p) + (if p(x) then [x] else [])
  {
    FilterAppend(done, [x], p);
    assert [x][1..] == [];
    AppendNil(Filter(done, p));
  }

  /** Closing the open group keeps the invariant's block order. */
  lemma {:induction false} CloseKeeps(g: Grouping)
    ensures Concat(BlocksOf(Close(g))) == Concat(BlocksOf(g.sections)) + g.current.blocks
  {
    if g.current.blocks != [] {
      BlocksOfSnoc(g.sections, g.current);
    } else {
      AppendNil(Concat(BlocksOf(g.sections)));
    }
  }

  lemma {:induction false} GroupStepKeeps(g: Grouping, done: seq<TextBlock>, b: TextBlock, headings: seq<HeadingBlock>)
    requires GroupInvariant(g, done, headings)
    ensures GroupInvariant(GroupStep(g, b, headings), done + [b], headings)
  {
    var p := (x: TextBlock) => IsContent(headings, x);
    FilterSnoc(done, b, p);
    FirstHeadingFound(headings, b.text);
    var next := GroupStep(g, b, headings);
    match FirstHeading(headings, b.text)
    case Some(h) =>
      assert h in headings;
      CloseKeeps(g);
      AppendNil(Concat(BlocksOf(Close(g))));
      AppendNil(Filter(done, p));
      assert forall i :: 0 <= i < |Close(g)| ==> Close(g)[i].blocks != [] && GroupShape(Close(g)[i], headings) by {
        forall i | 0 <= i < |Close(g)|
          ensures Close(g)[i].blocks != [] && GroupShape(Close(g)[i], headings)
        {
          if i == |g.sections| {
            assert Close(g)[i] == g.current;
          } else {
            assert Close(g)[i] == g.sections[i];
          }
        }
      }
    case None =>
      AppendAssoc(Concat(BlocksOf(g.sections)), g.current.blocks, [b]);
      var c := next.current;
      assert c.blocks[|c.blocks| - 1] == b;
  }

  lemma {:induction false} GroupUpToKeeps(blocks: seq<TextBlock>, k: nat, headings: seq<HeadingBlock>)
    requires k <= |blocks|
    ensures GroupInvariant(GroupUpTo(blocks, k, headings), blocks[..k], headings)
  {
    if k == 0 {
      TakeNone(blocks);
      assert Concat(BlocksOf([])) == [];
    } else {
      GroupUpToKeeps(blocks, k - 1, headings);
      TakeSnoc(blocks, k);
      GroupStepKeeps(GroupUpTo(blocks, k - 1, headings), blocks[..k - 1], blocks[k - 1], headings);
    }
  }

  /** The groups hold every block that is not a heading exactly once, in
      document order; every group has blocks and ends on the page of its
      last block; every group is the introduction or is headed by a detected
      heading of its level; only level-2 groups have a parent, and a parent
      is a level-1 heading. */
  lemma {:induction false} GroupSectionsShape(doc: ParsedDocument)
    ensures var groups := GroupSections(doc);
      && Concat(BlocksOf(groups)) == Filter(doc.textBlocks, b => IsContent(doc.headings, b))
      && forall i :: 0 <= i < |groups| ==> groups[i].blocks != [] && GroupShape(groups[i], doc.headings)
  {
    var g := GroupUpTo(doc.textBlocks, |doc.textBlocks|, doc.headings);
    GroupUpToKeeps(doc.textBlocks, |doc.textBlocks|, doc.headings);
    TakeAll(doc.textBlocks);
    CloseKeeps(g);
    forall i | 0 <= i < |Close(g)|
      ensures Close(g)[i].blocks != [] && GroupShape(Close(g)[i], doc.headings)
    {
      if i == |g.sections| {
        assert Close(g)[i] == g.current;
      } else {
        assert Close(g)[i] == g.sections[i];
      }
    }
  }

  /** A document without text blocks has no groups. */
  lemma {:induction false} NoBlocksNoGroups(doc: ParsedDocument)
    requires doc.textBlocks == []
    ensures GroupSections(doc) == []
  {
  }

  // ---------------------------------------------------------------------
  // Groups cut at heading blocks
  // ---------------------------------------------------------------------

  /** The first heading block at or after `i`, or `|blocks|` when there is
      none. */
  function NextHeadingBlock(blocks: seq<TextBlock>, headings: seq<HeadingBlock>, i: nat): (k: nat)
    requires i <= |blocks|
    ensures i <= k <= |blocks|
    ensures k < |blocks| ==> !IsContent(headings, blocks[k])
    decreases |blocks| - i
  {
    if i == |blocks| || !IsContent(headings, blocks[i]) then i else NextHeadingBlock(blocks, headings, i + 1)
  }

  /** Every block from `i` up to the next heading block is a non-heading
      block. */
  lemma {:induction false} NextHeadingBlockSkipsContent(blocks: seq<TextBlock>, headings: seq<HeadingBlock>, i: nat)
    requires i <= |blocks|
    ensures forall j | i <= j < NextHeadingBlock(blocks, headings, i) :: IsContent(headings, blocks[j])
    decreases |blocks| - i
  {
    if i < |blocks| && IsContent(headings, blocks[i]) {
      NextHeadingBlockSkipsContent(blocks, headings, i + 1);
    }
  }

  /** A block whose text is a detected level-1 heading. */
  predicate IsLevel1Block(headings: seq<HeadingBlock>, b: TextBlock)
  {
    FirstHeading(headings, b.text).Some? && FirstHeading(headings, b.text).value.level == 1
  }

  /** The text of the latest level-1 heading among the first `k` blocks, or
      "" when there is none. */
  function LastLevel1(blocks: seq<TextBlock>, headings: seq<HeadingBlock>, k: nat): string
    requires k <= |blocks|
  {
    if k == 0 then ""
    else if IsLevel1Block(headings, blocks[k - 1]) then FirstHeading(headings, blocks[k - 1].text).value.text
    else LastLevel1(blocks, headings, k - 1)
  }

  /** `LastLevel1` is the heading of the latest level-1 heading block before
      `k`, or "" when there is no level-1 heading block before `k`. */
  lemma {:induction false} LastLevel1IsLatest(blocks: seq<TextBlock>, headings: seq<HeadingBlock>, k: nat)
    requires k <= |blocks|
    ensures || (&& LastLevel1(blocks, headings, k) == ""
                && forall j | 0 <= j < k :: !IsLevel1Block(headings, blocks[j]))
            || exists j | 0 <= j < k ::
                 && IsLevel1Block(headings, blocks[j])
                 && LastLevel1(blocks, headings, k) == FirstHeading(headings, blocks[j].text).value.text
                 && forall j' | j < j' < k :: !IsLevel1Block(headings, blocks[j'])
  {
    if k > 0 && !IsLevel1Block(headings, blocks[k - 1]) {
      LastLevel1IsLatest(blocks, headings, k - 1);
    }
  }

  /** The empty group heading block `k` opens: the heading's text and level,
      starting on the block's page, and for a level-2 heading the latest
      level-1 heading before the block as its parent. */
  function OpenedAt(blocks: seq<TextBlock>, headings: seq<HeadingBlock>, k: nat): BlockSection
    requires k < |blocks| && !IsContent(headings, blocks[k])
  {
    var h := FirstHeading(headings, blocks[k].text).value;
    BlockSection(h.text, h.level, if h.level == 2 then LastLevel1(blocks, headings, k) else "",
                 [], blocks[k].page, blocks[k].page)
  }

  /** The group with `run` appended, ending on the page of its last block. */
  function Extend(s: BlockSection, run: seq<TextBlock>): BlockSection
  {
    s.(blocks := s.blocks + run, pageEnd := if run == [] then s.pageEnd else run[|run| - 1].page)
  }

  /** A reference grouping of the blocks from `i` on, with `open` the group
      open so far: a non-heading block joins the open group and moves its
      last page; a heading block closes it, kept when it has blocks, and
      opens the group `OpenedAt` describes; at the end the open group is
      kept when it has blocks. */
  function GroupsFrom(blocks: seq<TextBlock>, headings: seq<HeadingBlock>, i: nat, open: BlockSection): seq<BlockSection>
    requires i <= |blocks|
    decreases |blocks| - i
  {
    if i == |blocks| then (if open.blocks != [] then [open] else [])
    else if IsContent(headings, blocks[i]) then
      GroupsFrom(blocks, headings, i + 1, open.(blocks := open.blocks + [blocks[i]], pageEnd := blocks[i].page))
    else (if open.blocks != [] then [open] else []) + GroupsFrom(blocks, headings, i + 1, OpenedAt(blocks, headings, i))
  }

  /** The reference grouping cut at the next heading block: the open group
      takes exactly the run of non-heading blocks from `i` up to the next
      heading block and ends on the page of the last of them; that heading
      block opens the group the rest is cut into. */
  lemma {:induction false} GroupsFromCuts(blocks: seq<TextBlock>, headings: seq<HeadingBlock>, i: nat, open: BlockSection)
    requires i <= |blocks|
    ensures var k := NextHeadingBlock(blocks, headings, i);
      var s := Extend(open, blocks[i..k]);
      GroupsFrom(blocks, headings, i, open)
      == (if s.blocks != [] then [s] else [])
         + (if k == |blocks| then [] else GroupsFrom(blocks, headings, k + 1, OpenedAt(blocks, headings, k)))
    decreases |blocks| - i
  {
    var k := NextHeadingBlock(blocks, headings, i);
    if i < |blocks| && IsContent(headings, blocks[i]) {
      var open' := open.(blocks := open.blocks + [blocks[i]], pageEnd := blocks[i].page);
      GroupsFromCuts(blocks, headings, i + 1, open');
      assert k == NextHeadingBlock(blocks, headings, i + 1);
      var run, run' := blocks[i..k], blocks[i + 1..k];
      assert run == [blocks[i]] + run';
      AppendAssoc(open.blocks, [blocks[i]], run');
      assert Extend(open, run) == Extend(open', run');
    } else {
      assert blocks[i..k] == [];
      AppendNil(open.blocks);
      assert Extend(open, []) == open;
    }
  }

  /** The loop's latest level-1 heading is the last level-1 heading block
      seen so far. */
  lemma {:induction false} GroupUpToTracksLevel1(blocks: seq<TextBlock>, k: nat, headings: seq<HeadingBlock>)
    requires k <= |blocks|
    ensures GroupUpTo(blocks, k, headings).lastLevel1 == LastLevel1(blocks, headings, k)
  {
    if k > 0 {
      GroupUpToTracksLevel1(blocks, k - 1, headings);
    }
  }

  /** The loop's step on a non-heading block. */
  lemma {:induction false} GroupStepContent(g: Grouping, b: TextBlock, headings: seq<HeadingBlock>)
    requires IsContent(headings, b)
    ensures GroupStep(g, b, headings)
         == Grouping(g.sections, g.current.(blocks := g.current.blocks + [b], pageEnd := b.page), g.lastLevel1)
  {
  }

  /** The loop's step on heading block `i`, when the state tracks the latest
      level-1 heading before it. */
  lemma {:induction false} GroupStepHeading(blocks: seq<TextBlock>, headings: seq<HeadingBlock>, i: nat, g: Grouping)
    requires i < |blocks| && !IsContent(headings, blocks[i])
    requires g.lastLevel1 == LastLevel1(blocks, headings, i)
    ensures GroupStep(g, blocks[i], headings).sections == Close(g)
    ensures GroupStep(g, blocks[i], headings).current == OpenedAt(blocks, headings, i)
  {
  }

  /** One block of the loop changes the state but not what the state and
      the reference grouping of the remaining blocks produce. */
  lemma {:induction false} GroupStepCuts(blocks: seq<TextBlock>, headings: seq<HeadingBlock>, i: nat, g: Grouping)
    requires i < |blocks|
    requires g.lastLevel1 == LastLevel1(blocks, headings, i)
    ensures var next := GroupStep(g, blocks[i], headings);
      g.sections + GroupsFrom(blocks, headings, i, g.current)
      == next.sections + GroupsFrom(blocks, headings, i + 1, next.current)
  {
    if IsContent(headings, blocks[i]) {
      GroupStepContent(g, blocks[i], headings);
    } else {
      GroupStepHeading(blocks, headings, i, g);
    }
  }

  /** After `i` blocks, the loop's state and the cut-at-headings grouping
      of the remaining blocks still give the reference grouping of all
      blocks. */
  lemma {:induction false} GroupUpToCuts(blocks: seq<TextBlock>, headings: seq<HeadingBlock>, i: nat)
    requires i <= |blocks|
    ensures var g := GroupUpTo(blocks, i, headings);
      GroupsFrom(blocks, headings, 0, Introduction) == g.sections + GroupsFrom(blocks, headings, i, g.current)
  {
    if i > 0 {
      GroupUpToCuts(blocks, headings, i - 1);
      GroupUpToTracksLevel1(blocks, i - 1, headings);
      GroupStepCuts(blocks, headings, i - 1, GroupUpTo(blocks, i - 1, headings));
    }
  }

  /** The groups are the blocks cut at heading blocks: the blocks before the
      first heading block form the Introduction, and every heading block
      opens a group on its own page holding exactly the non-heading blocks
      up to the next heading block, whose parent (for a level-2 heading) is
      the latest level-1 heading block before it; groups without blocks are
      dropped. */
  lemma {:induction false} GroupsCutAtHeadings(doc: ParsedDocument)
    ensures GroupSections(doc) == GroupsFrom(doc.textBlocks, doc.headings, 0, Introduction)
  {
    var g := GroupUpTo(doc.textBlocks, |doc.textBlocks|, doc.headings);
    GroupUpToCuts(doc.textBlocks, doc.headings, |doc.textBlocks|);
  }

  /** `_group_blocks_by_heading`, as its loop runs. */
  method GroupBlocksByHeading(doc: ParsedDocument) returns (sections: seq<BlockSection>)
    ensures sections == GroupSections(doc)
  {
    sections := [];
    var current := Introduction;
    var headingTexts := HeadingTexts(doc.headings);
    var currentLevel1 := "";
    for k := 0 to |doc.textBlocks|
      invariant Grouping(sections, current, currentLevel1) == GroupUpTo(doc.textBlocks, k, doc.headings)
    {
      var block := doc.textBlocks[k];
      FirstHeadingFound(doc.headings, block.text);
      if block.text in headingTexts {
        var heading := FirstHeading(doc.headings, block.text).value;
        if current.blocks != [] {
          sections := sections + [current];
        }
        var parent := if heading.level == 2 then currentLevel1 else "";
        if heading.level == 1 {
          currentLevel1 := heading.text;
        }
        current := BlockSection(heading.text, heading.level, parent, [], block.page, block.page);
      } else {
        current := current.(blocks := current.blocks + [block], pageEnd := block.page);
      }
    }
    if current.blocks != [] {
      sections := sections + [current];
    }
  }

  // ---------------------------------------------------------------------
  // Chunks of the heuristic path
  // ---------------------------------------------------------------------

  /** The chunk of a detected table: heading "Table" at level 2, no parent,
      on the table's page. */
  function TableBlockChunk(t: TableBlock, index: nat, tokens: string -> nat): Chunk
  {
    Chunk(t.markdown, index, "Table", 2, "", TableContent, t.page, t.page, tokens(t.markdown),
          EmbeddingText(t.markdown, "Table", "", TableContent))
  }

  function TableChunks(tables: seq<TableBlock>, tokens: string -> nat): (cs: seq<Chunk>)
    ensures |cs| == |tables|
  {
    seq(|tables|, i requires 0 <= i < |tables| => TableBlockChunk(tables[i], i, tokens))
  }

  function BlockTexts(blocks: seq<TextBlock>): (texts: seq<string>)
    ensures |texts| == |blocks|
  {
    seq(|blocks|, i requires 0 <= i < |blocks| => blocks[i].text)
  }

  function BlockPages(blocks: seq<TextBlock>): (pages: seq<int>)
    ensures |pages| == |blocks|
  {
    seq(|blocks|, i requires 0 <= i < |blocks| => blocks[i].page)
  }

  /** The chunks of one group: its blocks joined by spaces, one chunk on the
      group's pages when it fits, otherwise sub-chunks interpolated between
      the lowest and highest page of its blocks. */
  function GroupChunks(start: nat, s: BlockSection, budget: Budget): seq<Chunk>
  {
    var fullText := Join(" ", BlockTexts(s.blocks));
    var pages := BlockPages(s.blocks);
    var pageStart := if pages != [] then MinOf(pages) else s.pageStart;
    var pageEnd := if pages != [] then MaxOf(pages) else s.pageEnd;
    TextChunks(fullText, start, Origin(s.heading, s.level, s.parent), s.pageStart, s.pageEnd, pageStart, pageEnd, budget)
  }

  /** The section loop of `chunk_document` from chunk list `chunks`. */
  function ChunksFrom(chunks: seq<Chunk>, groups: seq<BlockSection>, budget: Budget): seq<Chunk>
    decreases |groups|
  {
    if groups == [] then chunks
    else ChunksFrom(chunks + GroupChunks(|chunks|, groups[0], budget), groups[1..], budget)
  }

  /** `chunk_document`: the table chunks first, then the chunks of each group. */
  function DocumentChunks(doc: ParsedDocument, budget: Budget): seq<Chunk>
  {
    ChunksFrom(TableChunks(doc.tables, budget.tokens), GroupSections(doc), budget)
  }

  /** A table chunk of the heuristic path: its text is the table's
      Markdown, under heading "Table" at level 2 with no parent, on the
      table's page, and its embedding text is "Table", a blank line and the
      Markdown. */
  lemma {:induction false} TableBlockChunkShape(t: TableBlock, index: nat, tokens: string -> nat)
    ensures var c := TableBlockChunk(t, index, tokens);
      && c.text == t.markdown && c.index == index
      && c.sectionHeading == "Table" && c.sectionLevel == 2 && c.parentSection == ""
      && c.contentType == TableContent && c.pageStart == t.page && c.pageEnd == t.page
      && c.tokenCount == tokens(t.markdown)
      && c.embeddingText == "Table" + "\n\n" + t.markdown
  {
    EmbeddingTextCases(t.markdown, "Table", "", TableContent);
  }

  /** Every chunk added from `from` on is a text chunk. */
  predicate TextFrom(cs: seq<Chunk>, from: nat)
  {
    forall i :: from <= i < |cs| ==> cs[i].contentType == TextContent
  }

  /** The section loop only appends text chunks that carry their position
      as index and are consistent. */
  lemma {:induction false} ChunksFromShape(chunks: seq<Chunk>, groups: seq<BlockSection>, budget: Budget)
    requires WellIndexed(chunks, budget.tokens)
    ensures var out := ChunksFrom(chunks, groups, budget);
      WellIndexed(out, budget.tokens) && IsPrefix(chunks, out) && TextFrom(out, |chunks|)
    decreases |groups|
  {
    if groups == [] {
      TakeAll(chunks);
    } else {
      var g := groups[0];
      var origin := Origin(g.heading, g.level, g.parent);
      var more := GroupChunks(|chunks|, g, budget);
      var pages := BlockPages(g.blocks);
      TextChunksShape(Join(" ", BlockTexts(g.blocks)), |chunks|, origin, g.pageStart, g.pageEnd,
                      if pages != [] then MinOf(pages) else g.pageStart, if pages != [] then MaxOf(pages) else g.pageEnd,
                      budget);
      GrowsByRun(chunks, more, origin, budget.tokens);
      ExtendsKeepsWellIndexed(chunks, chunks + more, budget.tokens);
      ChunksFromShape(chunks + more, groups[1..], budget);
      var out := ChunksFrom(chunks, groups, budget);
      PrefixTrans(chunks, chunks + more, out);
      forall i | |chunks| <= i < |out|
        ensures out[i].contentType == TextContent
      {
        if i < |chunks + more| {
          PrefixAgrees(chunks + more, out);
          assert out[i] == more[i - |chunks|];
        }
      }
    }
  }

  lemma {:induction false} TableChunksIndexed(tables: seq<TableBlock>, tokens: string -> nat)
    ensures WellIndexed(TableChunks(tables, tokens), tokens)
  {
  }

  /** The heuristic path's chunks are indexed 0..N-1 in order and each is
      consistent; the tables come first, one chunk each in order, and every
      later chunk is a text chunk. */
  lemma {:induction false} DocumentChunksShape(doc: ParsedDocument, budget: Budget)
    ensures var out := DocumentChunks(doc, budget);
      && WellIndexed(out, budget.tokens)
      && |doc.tables| <= |out|
      && (forall i :: 0 <= i < |doc.tables| ==> out[i] == TableBlockChunk(doc.tables[i], i, budget.tokens))
      && TextFrom(out, |doc.tables|)
  {
    var tcs := TableChunks(doc.tables, budget.tokens);
    TableChunksIndexed(doc.tables, budget.tokens);
    ChunksFromShape(tcs, GroupSections(doc), budget);
    PrefixAgrees(tcs, DocumentChunks(doc, budget));
  }

  /** A group whose space-joined text fits the budget yields one text chunk
      with exactly that text on the group's own pages, or none when the text
      is blank. */
  lemma {:induction false} FittingGroup(start: nat, s: BlockSection, budget: Budget)
    requires budget.tokens(Join(" ", BlockTexts(s.blocks))) <= budget.maxTokens
    ensures var text := Join(" ", BlockTexts(s.blocks));
      var cs := GroupChunks(start, s, budget);
      && (cs == [] <==> IsBlank(text))
      && (cs != [] ==> |cs| == 1 && cs[0].text == text && cs[0].pageStart == s.pageStart && cs[0].pageEnd == s.pageEnd
                       && cs[0].sectionHeading == s.heading && cs[0].sectionLevel == s.level
                       && cs[0].parentSection == s.parent && cs[0].contentType == TextContent)
  {
    var pages := BlockPages(s.blocks);
    TextChunksFit(Join(" ", BlockTexts(s.blocks)), start, Origin(s.heading, s.level, s.parent), s.pageStart, s.pageEnd,
                  if pages != [] then MinOf(pages) else s.pageStart, if pages != [] then MaxOf(pages) else s.pageEnd, budget);
  }

  /** The body of `chunk_document`'s section loop. */
  method ChunkGroup(s: BlockSection, budget: Budget, chunks: seq<Chunk>, chunkIndex: nat)
    returns (chunks': seq<Chunk>, chunkIndex': nat)
    requires chunkIndex == |chunks|
    ensures chunks' == chunks + GroupChunks(chunkIndex, s, budget)
    ensures chunkIndex' == |chunks'|
  {
    var fullText := Join(" ", BlockTexts(s.blocks));
    var totalTokens := budget.tokens(fullText);
    var origin := Origin(s.heading, s.level, s.parent);
    chunks', chunkIndex' := chunks, chunkIndex;
    if totalTokens <= budget.maxTokens {
      if Strip(fullText) != [] {
        chunks' := chunks + [TextChunk(fullText, chunkIndex, origin, s.pageStart, s.pageEnd, budget.tokens)];
        chunkIndex' := chunkIndex + 1;
      } else {
        AppendNil(chunks);
      }
    } else {
      var subChunks := SplitOnSentences(fullText, budget);
      var pages := BlockPages(s.blocks);
      var pageStart := if pages != [] then MinOf(pages) else s.pageStart;
      var pageEnd := if pages != [] then MaxOf(pages) else s.pageEnd;
      chunks' := EmitSubChunks(chunks, subChunks, chunkIndex, origin, pageStart, pageEnd, budget.tokens);
      chunkIndex' := chunkIndex + |subChunks|;
    }
  }

  /** `chunk_document`, as its loops run; its chunk indices are 0..N-1 in
      order and every chunk is consistent. */
  method ChunkDocument(doc: ParsedDocument, budget: Budget) returns (chunks: seq<Chunk>)
    ensures chunks == DocumentChunks(doc, budget)
    ensures WellIndexed(chunks, budget.tokens)
  {
    ghost var tableChunks := TableChunks(doc.tables, budget.tokens);
    chunks := [];
    var chunkIndex := 0;
    for i := 0 to |doc.tables|
      invariant chunks == tableChunks[..i] && chunkIndex == i
    {
      var table := doc.tables[i];
      TakeSnoc(tableChunks, i + 1);
      chunks := chunks + [Chunk(table.markdown, chunkIndex, "Table", 2, "", TableContent, table.page, table.page,
                                budget.tokens(table.markdown), EmbeddingText(table.markdown, "Table", "", TableContent))];
      chunkIndex := chunkIndex + 1;
    }
    TakeAll(tableChunks);
    var sections := GroupBlocksByHeading(doc);
    assert sections[0..] == sections;
    for k := 0 to |sections|
      invariant ChunksFrom(chunks, sections[k..], budget) == DocumentChunks(doc, budget)
      invariant chunkIndex == |chunks|
    {
      DropOne(sections, k);
      chunks, chunkIndex := ChunkGroup(sections[k], budget, chunks, chunkIndex);
    }
    assert sections[|sections|..] == [];
    DocumentChunksShape(doc, budget);
  }
}
