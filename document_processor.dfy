/** The document pipeline's decisions (backend/app/services/document_processor.py):
    the section summaries stored beside a document's chunks, the choice
    between the structured parse and the heuristic fallback, the rule that a
    document without chunks fails, and what each chunk's embedding is
    computed from. Storage, the embedding service and the vector store are
    not part of this model. */
module DocumentProcessor {
  import opened Wrappers
  import opened Seqs
  import opened Sentences
  import opened AzureDiParser
  import opened PdfParser
  import opened Chunker
  import opened HeuristicChunker

  // ---------------------------------------------------------------------
  // Section maps
  // ---------------------------------------------------------------------

  /** One entry of a section map: `{heading, level, start_page, end_page}`. */
  datatype SectionInfo = SectionInfo(heading: string, level: int, startPage: int, endPage: int)

  /** How an entry's end page changes when its heading occurs again: the
      structured map keeps the largest end page, the fallback map the end
      page of the last occurrence. */
  datatype EndRule = KeepMax | KeepLast

  /** The position of the entry for heading `h` (`h in section_map`). */
  function Find(m: seq<SectionInfo>, h: string): (r: Option<nat>)
    ensures r.Some? ==> r.value < |m| && m[r.value].heading == h
    ensures r.None? ==> forall i :: 0 <= i < |m| ==> m[i].heading != h
  {
    if m == [] then None
    else if m[0].heading == h then Some(0)
    else match Find(m[1..], h)
      case None => None
      case Some(i) => Some(i + 1)
  }

  /** One occurrence: a new heading appends its entry (dictionaries keep
      insertion order), a known one only moves its entry's end page. */
  function Upsert(m: seq<SectionInfo>, x: SectionInfo, rule: EndRule): seq<SectionInfo>
  {
    match Find(m, x.heading)
    case None => m + [x]
    case Some(i) => m[i := m[i].(endPage := if rule == KeepMax then Max(m[i].endPage, x.endPage) else x.endPage)]
  }

  /** The map after all occurrences, in order. */
  function Summarize(occs: seq<SectionInfo>, rule: EndRule): seq<SectionInfo>
  {
    if occs == [] then [] else Upsert(Summarize(occs[..|occs| - 1], rule), occs[|occs| - 1], rule)
  }

  /** The position of the first occurrence of heading `h`, or `|occs|`. */
  function FirstAt(occs: seq<SectionInfo>, h: string): (r: nat)
    ensures r <= |occs|
    ensures r < |occs| ==> occs[r].heading == h
    ensures forall j :: 0 <= j < r ==> occs[j].heading != h
  {
    if occs == [] then 0
    else
      var n := |occs| - 1;
      var p := FirstAt(occs[..n], h);
      if p < n then p else if occs[n].heading == h then n else n + 1
  }

  predicate HasEntry(m: seq<SectionInfo>, h: string)
  {
    exists i :: 0 <= i < |m| && m[i].heading == h
  }

  /** `m` is the map of `occs`: one entry per distinct heading, in order of
      first occurrence, with the level and start page of the first
      occurrence and the end page its rule gives. */
  predicate SummaryOf(m: seq<SectionInfo>, occs: seq<SectionInfo>, rule: EndRule)
  {
    && Distinct(m)
    && Covers(m, occs)
    && OpenedByFirst(m, occs)
    && InFirstOrder(m, occs)
    && (forall i :: 0 <= i < |m| ==> EndOf(m[i], occs, rule))
  }

  predicate Distinct(m: seq<SectionInfo>)
  {
    forall i, j :: 0 <= i < j < |m| ==> m[i].heading != m[j].heading
  }

  /** Every occurring heading has an entry. */
  predicate Covers(m: seq<SectionInfo>, occs: seq<SectionInfo>)
  {
    forall j :: 0 <= j < |occs| ==> HasEntry(m, occs[j].heading)
  }

  /** Every entry's heading occurs, and the entry has the level and start
      page of its first occurrence. */
  predicate OpenedByFirst(m: seq<SectionInfo>, occs: seq<SectionInfo>)
  {
    forall i :: 0 <= i < |m| ==> FirstOpens(m[i], occs)
  }

  predicate FirstOpens(e: SectionInfo, occs: seq<SectionInfo>)
  {
    var f := FirstAt(occs, e.heading);
    f < |occs| && occs[f].level == e.level && occs[f].startPage == e.startPage
  }

  /** Entries are in order of their headings' first occurrences. */
  predicate InFirstOrder(m: seq<SectionInfo>, occs: seq<SectionInfo>)
  {
    forall i, j :: 0 <= i < j < |m| ==> FirstAt(occs, m[i].heading) < FirstAt(occs, m[j].heading)
  }

  /** The end page an entry has under its rule: the largest end page among
      the occurrences of its heading, or the end page of the last one. */
  predicate EndOf(e: SectionInfo, occs: seq<SectionInfo>, rule: EndRule)
  {
    match rule
    case KeepMax =>
      && (forall j :: 0 <= j < |occs| && occs[j].heading == e.heading ==> occs[j].endPage <= e.endPage)
      && (exists j :: 0 <= j < |occs| && occs[j].heading == e.heading && occs[j].endPage == e.endPage)
    case KeepLast =>
      exists j :: 0 <= j < |occs| && occs[j].heading == e.heading && occs[j].endPage == e.endPage &&
        forall k :: j < k < |occs| ==> occs[k].heading != e.heading
  }

  lemma SnocParts(occs: seq<SectionInfo>, x: SectionInfo)
    ensures (occs + [x])[..|occs|] == occs && (occs + [x])[|occs|] == x
    ensures forall j :: 0 <= j < |occs| ==> (occs + [x])[j] == occs[j]
  {
  }

  /** A later occurrence does not move the first occurrence of a heading
      that already occurred. */
  lemma {:induction false} FirstAtSnoc(occs: seq<SectionInfo>, x: SectionInfo, h: string)
    ensures FirstAt(occs + [x], h) ==
      if FirstAt(occs, h) < |occs| then FirstAt(occs, h) else if x.heading == h then |occs| else |occs| + 1
  {
    SnocParts(occs, x);
  }

  lemma {:induction false} UpsertKeeps(m: seq<SectionInfo>, occs: seq<SectionInfo>, x: SectionInfo, rule: EndRule)
    requires SummaryOf(m, occs, rule)
    ensures SummaryOf(Upsert(m, x, rule), occs + [x], rule)
  {
    match Find(m, x.heading)
    case None =>
      AppendKeeps(m, occs, x, rule);
    case Some(k) =>
      UpdateKeeps(m, occs, x, k, rule);
  }

  /** A new heading: its entry is appended, and it is its own first
      occurrence. */
  lemma {:induction false} AppendKeeps(m: seq<SectionInfo>, occs: seq<SectionInfo>, x: SectionInfo, rule: EndRule)
    requires SummaryOf(m, occs, rule) && Find(m, x.heading).None?
    ensures SummaryOf(m + [x], occs + [x], rule)
  {
    assert FirstAt(occs, x.heading) == |occs| by {
      if FirstAt(occs, x.heading) < |occs| {
        assert false;
      }
    }
    AppendDistinct(m, x);
    AppendCovers(m, occs, x);
    AppendOpened(m, occs, x);
    AppendOrdered(m, occs, x);
    AppendEnds(m, occs, x, rule);
  }

  lemma {:induction false} AppendDistinct(m: seq<SectionInfo>, x: SectionInfo)
    requires Distinct(m) && Find(m, x.heading).None?
    ensures Distinct(m + [x])
  {
    SnocParts(m, x);
  }

  lemma {:induction false} AppendCovers(m: seq<SectionInfo>, occs: seq<SectionInfo>, x: SectionInfo)
    requires Covers(m, occs)
    ensures Covers(m + [x], occs + [x])
  {
    var all, m' := occs + [x], m + [x];
    SnocParts(occs, x);
    SnocParts(m, x);
    forall j | 0 <= j < |all|
      ensures HasEntry(m', all[j].heading)
    {
      if j < |occs| {
        var i :| 0 <= i < |m| && m[i].heading == occs[j].heading;
        assert m'[i].heading == all[j].heading;
      } else {
        assert m'[|m|].heading == all[j].heading;
      }
    }
  }

  lemma {:induction false} AppendOpened(m: seq<SectionInfo>, occs: seq<SectionInfo>, x: SectionInfo)
    requires OpenedByFirst(m, occs) && FirstAt(occs, x.heading) == |occs|
    ensures OpenedByFirst(m + [x], occs + [x])
  {
    var all, m' := occs + [x], m + [x];
    SnocParts(occs, x);
    SnocParts(m, x);
    forall i | 0 <= i < |m'|
      ensures FirstOpens(m'[i], all)
    {
      FirstAtSnoc(occs, x, m'[i].heading);
    }
  }

  lemma {:induction false} AppendOrdered(m: seq<SectionInfo>, occs: seq<SectionInfo>, x: SectionInfo)
    requires InFirstOrder(m, occs) && OpenedByFirst(m, occs) && FirstAt(occs, x.heading) == |occs|
    ensures InFirstOrder(m + [x], occs + [x])
  {
    var all, m' := occs + [x], m + [x];
    SnocParts(m, x);
    forall i | 0 <= i < |m'|
      ensures FirstAt(all, m'[i].heading) == FirstAt(occs, m'[i].heading)
    {
      FirstAtSnoc(occs, x, m'[i].heading);
      if i < |m| {
        assert FirstOpens(m[i], occs);
      }
    }
  }

  lemma {:induction false} AppendEnds(m: seq<SectionInfo>, occs: seq<SectionInfo>, x: SectionInfo, rule: EndRule)
    requires (forall i :: 0 <= i < |m| ==> EndOf(m[i], occs, rule)) && Find(m, x.heading).None?
    requires FirstAt(occs, x.heading) == |occs|
    ensures forall i :: 0 <= i < |m + [x]| ==> EndOf((m + [x])[i], occs + [x], rule)
  {
    SnocParts(m, x);
    forall i | 0 <= i < |m + [x]|
      ensures EndOf((m + [x])[i], occs + [x], rule)
    {
      if i < |m| {
        EndOfSnoc(m[i], occs, x, rule);
      } else {
        EndOfNew(occs, x, rule);
      }
    }
  }

  /** A known heading: only its entry's end page moves. */
  lemma {:induction false} UpdateKeeps(m: seq<SectionInfo>, occs: seq<SectionInfo>, x: SectionInfo, k: nat, rule: EndRule)
    requires SummaryOf(m, occs, rule) && Find(m, x.heading) == Some(k)
    ensures SummaryOf(m[k := m[k].(endPage := if rule == KeepMax then Max(m[k].endPage, x.endPage) else x.endPage)],
                      occs + [x], rule)
  {
    var m' := m[k := m[k].(endPage := if rule == KeepMax then Max(m[k].endPage, x.endPage) else x.endPage)];
    assert FirstAt(occs, x.heading) < |occs| by {
      assert FirstOpens(m[k], occs);
    }
    UpdateCovers(m, occs, x, k, m'[k]);
    UpdateOpened(m, occs, x, k, m'[k]);
    UpdateOrdered(m, occs, x, k, m'[k]);
    UpdateEnds(m, occs, x, k, rule);
  }

  lemma {:induction false} UpdateCovers(m: seq<SectionInfo>, occs: seq<SectionInfo>, x: SectionInfo, k: nat, e: SectionInfo)
    requires Covers(m, occs) && k < |m| && m[k].heading == x.heading && e.heading == x.heading
    ensures Covers(m[k := e], occs + [x])
  {
    var all, m' := occs + [x], m[k := e];
    SnocParts(occs, x);
    forall j | 0 <= j < |all|
      ensures HasEntry(m', all[j].heading)
    {
      if j < |occs| {
        var i :| 0 <= i < |m| && m[i].heading == occs[j].heading;
        assert m'[i].heading == all[j].heading;
      } else {
        assert m'[k].heading == all[j].heading;
      }
    }
  }

  lemma {:induction false} UpdateOpened(m: seq<SectionInfo>, occs: seq<SectionInfo>, x: SectionInfo, k: nat, e: SectionInfo)
    requires OpenedByFirst(m, occs) && k < |m| && m[k].heading == x.heading
    requires e == m[k].(endPage := e.endPage)
    ensures OpenedByFirst(m[k := e], occs + [x])
  {
    var all, m' := occs + [x], m[k := e];
    SnocParts(occs, x);
    forall i | 0 <= i < |m'|
      ensures FirstOpens(m'[i], all)
    {
      assert FirstOpens(m[i], occs);
      FirstAtSnoc(occs, x, m'[i].heading);
    }
  }

  lemma {:induction false} UpdateOrdered(m: seq<SectionInfo>, occs: seq<SectionInfo>, x: SectionInfo, k: nat, e: SectionInfo)
    requires InFirstOrder(m, occs) && OpenedByFirst(m, occs) && k < |m| && m[k].heading == x.heading
    requires e.heading == x.heading
    ensures InFirstOrder(m[k := e], occs + [x])
  {
    var all, m' := occs + [x], m[k := e];
    forall i | 0 <= i < |m'|
      ensures FirstAt(all, m'[i].heading) == FirstAt(occs, m[i].heading)
    {
      assert m'[i].heading == m[i].heading;
      assert FirstOpens(m[i], occs);
      FirstAtSnoc(occs, x, m'[i].heading);
    }
  }

  lemma {:induction false} UpdateEnds(m: seq<SectionInfo>, occs: seq<SectionInfo>, x: SectionInfo, k: nat, rule: EndRule)
    requires (forall i :: 0 <= i < |m| ==> EndOf(m[i], occs, rule)) && Distinct(m)
    requires k < |m| && m[k].heading == x.heading
    ensures var m' := m[k := m[k].(endPage := if rule == KeepMax then Max(m[k].endPage, x.endPage) else x.endPage)];
      forall i :: 0 <= i < |m'| ==> EndOf(m'[i], occs + [x], rule)
  {
    var m' := m[k := m[k].(endPage := if rule == KeepMax then Max(m[k].endPage, x.endPage) else x.endPage)];
    forall i | 0 <= i < |m'|
      ensures EndOf(m'[i], occs + [x], rule)
    {
      if i != k {
        EndOfSnoc(m[i], occs, x, rule);
      } else {
        EndOfUpdate(m[k], occs, x, rule);
      }
    }
  }

  /** The only occurrence of a new heading gives its end page. */
  lemma {:induction false} EndOfNew(occs: seq<SectionInfo>, x: SectionInfo, rule: EndRule)
    requires FirstAt(occs, x.heading) == |occs|
    ensures EndOf(x, occs + [x], rule)
  {
    var all := occs + [x];
    SnocParts(occs, x);
    assert all[|occs|] == x;
  }

  /** An entry whose heading is not `x`'s keeps its end page. */
  lemma {:induction false} EndOfSnoc(e: SectionInfo, occs: seq<SectionInfo>, x: SectionInfo, rule: EndRule)
    requires EndOf(e, occs, rule) && x.heading != e.heading
    ensures EndOf(e, occs + [x], rule)
  {
    var all := occs + [x];
    SnocParts(occs, x);
    match rule
    case KeepMax =>
      var j :| 0 <= j < |occs| && occs[j].heading == e.heading && occs[j].endPage == e.endPage;
      assert all[j] == occs[j];
    case KeepLast =>
      var j :| 0 <= j < |occs| && occs[j].heading == e.heading && occs[j].endPage == e.endPage &&
        forall k :: j < k < |occs| ==> occs[k].heading != e.heading;
      assert all[j] == occs[j];
      assert forall k :: j < k < |all| ==> all[k].heading != e.heading;
  }

  /** The entry of `x`'s heading takes its end page under the rule. */
  lemma {:induction false} EndOfUpdate(e: SectionInfo, occs: seq<SectionInfo>, x: SectionInfo, rule: EndRule)
    requires EndOf(e, occs, rule) && x.heading == e.heading
    ensures EndOf(e.(endPage := if rule == KeepMax then Max(e.endPage, x.endPage) else x.endPage), occs + [x], rule)
  {
    var all := occs + [x];
    SnocParts(occs, x);
    match rule
    case KeepMax =>
      var j :| 0 <= j < |occs| && occs[j].heading == e.heading && occs[j].endPage == e.endPage;
      assert all[j] == occs[j];
      assert forall k :: 0 <= k < |occs| ==> all[k] == occs[k];
    case KeepLast =>
  }

  /** The map of a list of occurrences has its properties. */
  lemma {:induction false} SummarizeIsSummary(occs: seq<SectionInfo>, rule: EndRule)
    ensures SummaryOf(Summarize(occs, rule), occs, rule)
  {
    if occs != [] {
      var n := |occs| - 1;
      SummarizeIsSummary(occs[..n], rule);
      UpsertKeeps(Summarize(occs[..n], rule), occs[..n], occs[n], rule);
      TakeSnoc(occs, |occs|);
      TakeAll(occs);
    }
  }

  // ---------------------------------------------------------------------
  // The structured section map
  // ---------------------------------------------------------------------

  /** Each section as an occurrence of its heading. */
  function SectionOccurrences(sections: seq<Section>): (occs: seq<SectionInfo>)
    ensures |occs| == |sections|
  {
    seq(|sections|, i requires 0 <= i < |sections| =>
      SectionInfo(sections[i].heading, sections[i].level, sections[i].pageStart, sections[i].pageEnd))
  }

  /** `_extract_sections_from_structured`. */
  function StructuredSectionMap(doc: StructuredDocument): seq<SectionInfo>
  {
    Summarize(SectionOccurrences(doc.sections), KeepMax)
  }

  /** One entry per distinct section heading, in order of first
      occurrence, with the level and start page of the first section of that
      heading and the largest end page among all of them. */
  lemma {:induction false} StructuredSectionMapShape(doc: StructuredDocument)
    ensures SummaryOf(StructuredSectionMap(doc), SectionOccurrences(doc.sections), KeepMax)
  {
    SummarizeIsSummary(SectionOccurrences(doc.sections), KeepMax);
  }

  /** `_extract_sections_from_structured`, as its loop runs. */
  method ExtractSectionsFromStructured(doc: StructuredDocument) returns (sectionMap: seq<SectionInfo>)
    ensures sectionMap == StructuredSectionMap(doc)
    ensures SummaryOf(sectionMap, SectionOccurrences(doc.sections), KeepMax)
  {
    ghost var occs := SectionOccurrences(doc.sections);
    sectionMap := [];
    for k := 0 to |doc.sections|
      invariant sectionMap == Summarize(occs[..k], KeepMax)
    {
      var section := doc.sections[k];
      TakeTake(occs, k);
      match Find(sectionMap, section.heading)
      case None =>
        sectionMap := sectionMap + [SectionInfo(section.heading, section.level, section.pageStart, section.pageEnd)];
      case Some(i) =>
        sectionMap := sectionMap[i := sectionMap[i].(endPage := Max(sectionMap[i].endPage, section.pageEnd))];
    }
    TakeAll(occs);
    StructuredSectionMapShape(doc);
  }

  // ---------------------------------------------------------------------
  // The fallback section map
  // ---------------------------------------------------------------------

  /** Each detected heading as an occurrence on its page. */
  function HeadingOccurrences(headings: seq<HeadingBlock>): (occs: seq<SectionInfo>)
    ensures |occs| == |headings|
  {
    seq(|headings|, i requires 0 <= i < |headings| =>
      SectionInfo(headings[i].text, headings[i].level, headings[i].page, headings[i].page))
  }

  /** The chunk loop: an entry whose heading is a chunk's section heading
      is widened to the chunk's last page. */
  function Widen(m: seq<SectionInfo>, chunks: seq<Chunk>): (r: seq<SectionInfo>)
    ensures |r| == |m|
  {
    if chunks == [] then m
    else
      var w := Widen(m, chunks[..|chunks| - 1]);
      var c := chunks[|chunks| - 1];
      match Find(w, c.sectionHeading)
      case None => w
      case Some(i) => w[i := w[i].(endPage := Max(w[i].endPage, c.pageEnd))]
  }

  /** The section map of `_fallback_parse`. */
  function FallbackSectionMap(doc: ParsedDocument, chunks: seq<Chunk>): seq<SectionInfo>
  {
    Widen(Summarize(HeadingOccurrences(doc.headings), KeepLast), chunks)
  }

  /** `e` is `e0` widened by the chunks of its heading: same heading, level
      and start page, an end page no smaller, at least every such chunk's
      last page, and either `e0`'s or one of those chunks'. */
  predicate WidenedBy(e: SectionInfo, e0: SectionInfo, chunks: seq<Chunk>)
  {
    && e.heading == e0.heading && e.level == e0.level && e.startPage == e0.startPage
    && e.endPage >= e0.endPage
    && (forall j :: 0 <= j < |chunks| && chunks[j].sectionHeading == e.heading ==> chunks[j].pageEnd <= e.endPage)
    && (e.endPage == e0.endPage ||
        exists j :: 0 <= j < |chunks| && chunks[j].sectionHeading == e.heading && chunks[j].pageEnd == e.endPage)
  }

  /** Widening moves only end pages, each by the chunks of its heading. */
  lemma {:induction false} WidenShape(m: seq<SectionInfo>, chunks: seq<Chunk>)
    requires Distinct(m)
    ensures var r := Widen(m, chunks);
      forall i :: 0 <= i < |m| ==> WidenedBy(r[i], m[i], chunks)
  {
    if chunks != [] {
      var n := |chunks| - 1;
      var w := Widen(m, chunks[..n]);
      var c := chunks[n];
      WidenShape(m, chunks[..n]);
      assert forall j :: 0 <= j < n ==> chunks[..n][j] == chunks[j];
      assert Distinct(w) by {
        assert forall i :: 0 <= i < |m| ==> w[i].heading == m[i].heading;
      }
      var r := Widen(m, chunks);
      forall i | 0 <= i < |m|
        ensures WidenedBy(r[i], m[i], chunks)
      {
        WidenStep(w[i], r[i], m[i], chunks, (Find(w, c.sectionHeading) == Some(i)));
      }
    }
  }

  lemma {:induction false} WidenStep(w: SectionInfo, r: SectionInfo, e0: SectionInfo, chunks: seq<Chunk>, hit: bool)
    requires chunks != []
    requires WidenedBy(w, e0, chunks[..|chunks| - 1])
    requires var c := chunks[|chunks| - 1];
      if hit then c.sectionHeading == w.heading && r == w.(endPage := Max(w.endPage, c.pageEnd))
      else c.sectionHeading != w.heading && r == w
    ensures WidenedBy(r, e0, chunks)
  {
    var n := |chunks| - 1;
    assert forall j :: 0 <= j < n ==> chunks[..n][j] == chunks[j];
    if r.endPage != e0.endPage && r.endPage != w.endPage {
      assert chunks[n].pageEnd == r.endPage;
    } else if r.endPage != e0.endPage {
      var j :| 0 <= j < n && chunks[..n][j].sectionHeading == w.heading && chunks[..n][j].pageEnd == w.endPage;
      assert chunks[j] == chunks[..n][j];
    }
  }

  /** The fallback map: one entry per distinct heading text, in order of
      first occurrence, with the level and page of the first heading of that
      text, and as end page the page of its last heading widened to the last
      page of every chunk under that heading. */
  lemma {:induction false} FallbackSectionMapShape(doc: ParsedDocument, chunks: seq<Chunk>)
    ensures var base := Summarize(HeadingOccurrences(doc.headings), KeepLast);
      var r := FallbackSectionMap(doc, chunks);
      && SummaryOf(base, HeadingOccurrences(doc.headings), KeepLast)
      && |r| == |base|
      && forall i :: 0 <= i < |r| ==> WidenedBy(r[i], base[i], chunks)
  {
    var base := Summarize(HeadingOccurrences(doc.headings), KeepLast);
    SummarizeIsSummary(HeadingOccurrences(doc.headings), KeepLast);
    WidenShape(base, chunks);
  }

  /** The section-map part of `_fallback_parse`, as its two loops run. */
  method BuildFallbackSectionMap(doc: ParsedDocument, chunks: seq<Chunk>) returns (sectionMap: seq<SectionInfo>)
    ensures sectionMap == FallbackSectionMap(doc, chunks)
  {
    ghost var occs := HeadingOccurrences(doc.headings);
    sectionMap := [];
    for k := 0 to |doc.headings|
      invariant sectionMap == Summarize(occs[..k], KeepLast)
    {
      var heading := doc.headings[k];
      TakeTake(occs, k);
      match Find(sectionMap, heading.text)
      case None =>
        sectionMap := sectionMap + [SectionInfo(heading.text, heading.level, heading.page, heading.page)];
      case Some(i) =>
        sectionMap := sectionMap[i := sectionMap[i].(endPage := heading.page)];
    }
    TakeAll(occs);
    ghost var base := sectionMap;
    for k := 0 to |chunks|
      invariant sectionMap == Widen(base, chunks[..k])
    {
      var chunk := chunks[k];
      TakeTake(chunks, k);
      match Find(sectionMap, chunk.sectionHeading)
      case None =>
      case Some(i) =>
        sectionMap := sectionMap[i := sectionMap[i].(endPage := Max(sectionMap[i].endPage, chunk.pageEnd))];
    }
    TakeAll(chunks);
  }

  // ---------------------------------------------------------------------
  // Embedding input
  // ---------------------------------------------------------------------

  /** `c.embedding_text or c.text`. */
  function EmbeddingInput(c: Chunk): string
  {
    if c.embeddingText != "" then c.embeddingText else c.text
  }

  function EmbeddingInputs(chunks: seq<Chunk>): (texts: seq<string>)
    ensures |texts| == |chunks|
  {
    seq(|chunks|, i requires 0 <= i < |chunks| => EmbeddingInput(chunks[i]))
  }

  /** A consistent chunk is embedded from its text, with its breadcrumb in
      front when it is a table: text chunks from their text alone. */
  lemma {:induction false} EmbeddingInputOfConsistent(c: Chunk, tokens: string -> nat)
    requires Consistent(c, tokens)
    ensures EmbeddingInput(c) == EmbeddingText(c.text, c.sectionHeading, c.parentSection, c.contentType)
    ensures c.contentType == TextContent ==> EmbeddingInput(c) == c.text
  {
    EmbeddingTextCases(c.text, c.sectionHeading, c.parentSection, c.contentType);
  }

  // ---------------------------------------------------------------------
  // Parse paths and the processing outcome
  // ---------------------------------------------------------------------

  /** A parse: its chunks, its section map and the parser's page count. */
  datatype Parse = Parse(chunks: seq<Chunk>, sections: seq<SectionInfo>, pageCount: nat)

  /** The structured document, unless the layout service raised (`None`)
      or the coverage guard rejected its response. */
  function StructuredDocumentOf(actualPageCount: nat, service: Option<AnalyzeResult>): Option<StructuredDocument>
  {
    match service
    case None => None
    case Some(result) =>
      var paras := ParagraphsOf(result.paragraphs);
      var tables := TablesFrom(result.tables);
      if CoverageTooLow(actualPageCount, MaxParsedPage(paras, tables)) then None
      else Some(StructuredDocument(paras, tables, KeyValuesOf(result.keyValuePairs), SectionsOf(paras, tables), actualPageCount))
  }

  /** `_azure_di_parse`: `None` when it raises. */
  method AzureDiParse(actualPageCount: nat, service: Option<AnalyzeResult>, budget: Budget) returns (r: Option<Parse>)
    ensures r.None? <==> StructuredDocumentOf(actualPageCount, service).None?
    ensures r.Some? ==> var doc := StructuredDocumentOf(actualPageCount, service).value;
      r.value == Parse(StructuredChunks(doc, budget), StructuredSectionMap(doc), doc.pageCount)
  {
    if service.None? {
      return None;
    }
    var structured := ParseLayout(actualPageCount, service.value);
    if structured.Failure? {
      return None;
    }
    var chunks := ChunkStructuredDocument(structured.value, budget);
    var sections := ExtractSectionsFromStructured(structured.value);
    r := Some(Parse(chunks, sections, structured.value.pageCount));
  }

  /** `_fallback_parse`, with the extractor's pages and font sizes given. */
  method FallbackParse(pages: seq<Page>, fontSizes: seq<real>, budget: Budget) returns (r: Parse)
    ensures var doc := ParsePdf(pages, fontSizes);
      r == Parse(DocumentChunks(doc, budget), FallbackSectionMap(doc, DocumentChunks(doc, budget)), |pages|)
  {
    var parsed := ParsePdf(pages, fontSizes);
    var chunks := ChunkDocument(parsed, budget);
    var sections := BuildFallbackSectionMap(parsed, chunks);
    r := Parse(chunks, sections, parsed.pageCount);
  }

  /** `DocumentStatus`. */
  datatype DocumentStatus = Pending | Processing | Ready | Failed

  /** What processing a document does: the status writes in order, the
      page count it reports, the chunks and sections it keeps, the texts it
      sends to the embedder (`None` when the embedder is not called), whether
      the section rows are written, and how
      many times each parser ran. */
  datatype Outcome = Outcome(
    statusWrites: seq<DocumentStatus>,
    pageCount: nat,
    chunks: seq<Chunk>,
    sections: seq<SectionInfo>,
    embedded: Option<seq<string>>,
    sectionsCreated: bool,
    structuredRuns: nat,
    fallbackRuns: nat)

  /** The parse `process_document` keeps: the structured one when it is
      enabled and succeeds, the fallback otherwise. */
  function ChosenParse(enabled: bool, actualPageCount: nat, service: Option<AnalyzeResult>,
                       pages: seq<Page>, fontSizes: seq<real>, budget: Budget): Parse
  {
    var structured := StructuredDocumentOf(actualPageCount, service);
    if enabled && structured.Some? then
      var doc := structured.value;
      Parse(StructuredChunks(doc, budget), StructuredSectionMap(doc), doc.pageCount)
    else
      var doc := ParsePdf(pages, fontSizes);
      Parse(DocumentChunks(doc, budget), FallbackSectionMap(doc, DocumentChunks(doc, budget)), |pages|)
  }

  /** Lines 116-126 of `process_document`: the structured parser when it
      is enabled, the fallback when it is disabled or raised. */
  method SelectParse(enabled: bool, actualPageCount: nat, service: Option<AnalyzeResult>,
                     pages: seq<Page>, fontSizes: seq<real>, budget: Budget)
    returns (parse: Parse, structuredRuns: nat, fallbackRuns: nat)
    ensures structuredRuns == (if enabled then 1 else 0)
    ensures fallbackRuns == (if enabled && StructuredDocumentOf(actualPageCount, service).Some? then 0 else 1)
    ensures parse.chunks == ChosenParse(enabled, actualPageCount, service, pages, fontSizes, budget).chunks
    ensures parse.sections == ChosenParse(enabled, actualPageCount, service, pages, fontSizes, budget).sections
  {
    structuredRuns, fallbackRuns := 0, 0;
    if enabled {
      structuredRuns := 1;
      var structured := AzureDiParse(actualPageCount, service, budget);
      if structured.Some? {
        return structured.value, structuredRuns, fallbackRuns;
      }
    }
    fallbackRuns := 1;
    parse := FallbackParse(pages, fontSizes, budget);
  }

  /** Lines 128-151 of `process_document`, once a parse is chosen: an
      empty parse fails the document without embedding; otherwise every
      chunk is embedded, the section rows are written when there are any and
      the document is ready. The page count is the one counted from the
      file, whatever the parser reports. */
  method Finish(parse: Parse, actualPageCount: nat, structuredRuns: nat, fallbackRuns: nat)
    returns (out: Outcome)
    ensures out.chunks == parse.chunks && out.sections == parse.sections
    ensures out.pageCount == actualPageCount
    ensures out.structuredRuns == structuredRuns && out.fallbackRuns == fallbackRuns
    ensures out.chunks == [] ==> out.statusWrites == [Processing, Processing, Failed] && out.embedded.None? && !out.sectionsCreated
    ensures out.chunks != [] ==> out.statusWrites == [Processing, Processing, Ready] &&
                                 out.embedded == Some(EmbeddingInputs(out.chunks)) &&
                                 out.sectionsCreated == (out.sections != [])
  {
    var statusWrites := [Processing, Processing];
    if parse.chunks == [] {
      statusWrites := statusWrites + [Failed];
      return Outcome(statusWrites, actualPageCount, parse.chunks, parse.sections, None, false, structuredRuns, fallbackRuns);
    }
    var texts := EmbeddingInputs(parse.chunks);
    statusWrites := statusWrites + [Ready];
    out := Outcome(statusWrites, actualPageCount, parse.chunks, parse.sections, Some(texts), parse.sections != [], structuredRuns, fallbackRuns);
  }

  /** `process_document` without storage, logging and the vector store:
      the path choice and the empty-result rule. */
  method ProcessDocument(enabled: bool, actualPageCount: nat, service: Option<AnalyzeResult>,
                         pages: seq<Page>, fontSizes: seq<real>, budget: Budget)
    returns (out: Outcome)
    ensures out.structuredRuns == (if enabled then 1 else 0)
    ensures out.fallbackRuns == (if enabled && StructuredDocumentOf(actualPageCount, service).Some? then 0 else 1)
    ensures out.chunks == ChosenParse(enabled, actualPageCount, service, pages, fontSizes, budget).chunks
    ensures out.sections == ChosenParse(enabled, actualPageCount, service, pages, fontSizes, budget).sections
    ensures out.pageCount == actualPageCount
    ensures out.chunks == [] ==> out.statusWrites == [Processing, Processing, Failed] && out.embedded.None? && !out.sectionsCreated
    ensures out.chunks != [] ==> out.statusWrites == [Processing, Processing, Ready] &&
                                 out.embedded == Some(EmbeddingInputs(out.chunks)) &&
                                 out.sectionsCreated == (out.sections != [])
  {
    var parse, structuredRuns, fallbackRuns := SelectParse(enabled, actualPageCount, service, pages, fontSizes, budget);
    out := Finish(parse, actualPageCount, structuredRuns, fallbackRuns);
  }

  /** Whichever path runs, the kept chunks are indexed 0..N-1 in order and
      are embedded from their text, tables with their breadcrumb in front. */
  lemma {:induction false} ChosenChunksEmbedding(enabled: bool, actualPageCount: nat, service: Option<AnalyzeResult>,
                                                 pages: seq<Page>, fontSizes: seq<real>, budget: Budget)
    ensures var cs := ChosenParse(enabled, actualPageCount, service, pages, fontSizes, budget).chunks;
      && WellIndexed(cs, budget.tokens)
      && forall i :: 0 <= i < |cs| ==>
           EmbeddingInputs(cs)[i] == EmbeddingText(cs[i].text, cs[i].sectionHeading, cs[i].parentSection, cs[i].contentType)
  {
    var structured := StructuredDocumentOf(actualPageCount, service);
    if enabled && structured.Some? {
      StructuredChunksIndexed(structured.value, budget);
    } else {
      DocumentChunksShape(ParsePdf(pages, fontSizes), budget);
    }
    var cs := ChosenParse(enabled, actualPageCount, service, pages, fontSizes, budget).chunks;
    forall i | 0 <= i < |cs|
      ensures EmbeddingInputs(cs)[i] == EmbeddingText(cs[i].text, cs[i].sectionHeading, cs[i].parentSection, cs[i].contentType)
    {
      EmbeddingInputOfConsistent(cs[i], budget.tokens);
    }
  }
}
