# Document structuring and chunking in finrag-backend

finrag-backend answers questions about uploaded financial PDFs. Before a
document can be searched it goes through a pipeline:

- **Layout parsing.** A layout-analysis service returns paragraphs with
  roles, tables with spanned cells, and key/value pairs. A heuristic
  extractor is the fallback. It reads lines of characters, uses font size
  to detect headings, and reads tables as rows of cells.
- **Sections.** The parsed content is grouped into sections.
- **Chunking.** The sections are cut into retrieval chunks under a token
  budget: 512 tokens, with a 64-token overlap between the sub-chunks of a
  long run of text.
- **Section map.** A per-document map of section headings and page ranges
  is built.
- **Embedding.** The chunks are embedded.

When a question is ambiguous, the document's sections are ranked against
the query and offered as clarification chips.

This project models that core in Dafny and proves what it promises.

| file | models |
|---|---|
| `azure_di_parser.dfy` | `_map_role`, `_get_page_number`, the spanned-cell grid of `_table_to_markdown`, `_build_sections`, table page ranges and the page-coverage guard |
| `pdf_parser.dfy` | the extractor's `_table_to_markdown`, `_detect_heading_threshold` and line classification |
| `sentences.dfy` | `_split_on_sentences`: the sentence scan and greedy packing with overlap |
| `chunker.dfy` | `_build_embedding_text`, `chunk_structured_document`, `_flush_text_parts` |
| `heuristic_chunker.dfy` | `_group_blocks_by_heading`, `chunk_document` |
| `document_processor.dfy` | both section maps, path selection, the empty-result rule, the embedding input |
| `clarification.dfy` | `generate_clarification_chips` |
| `markdown.dfy`, `text.dfy`, `seqs.dfy`, `sorting.dfy`, `wrappers.dfy` | shared helpers |

The helpers cover:

- Markdown rows;
- Python string operations (`strip`, `split`, `join`, `lower`, `in`);
- folds over sequences;
- the stable sort behind `sorted` and `list.sort`;
- Option and Result.

**Modelling choices.**

- The tokenizer is a parameter: `Budget.tokens`, a function from text to a
  natural number. Nothing is assumed about how the count of joined text
  relates to the counts of its parts.
- Source loops that build lists become methods with loops. Each method is
  proved equal to a fold-style specification function, and the source's
  promises are proved as lemmas about that function.
- The one in-place array is the table grid, which stays an `array2`.
- Python dictionaries keep insertion order, so a section map is a sequence
  of entries with distinct headings.

## Model

| member | source | states |
|---|---|---|
| AzureDiParser.MapRole | backend/app/services/azure_di_parser.py:67-73 | the role is the one whose string value the input names; a missing, empty or unknown string gives Body |
| AzureDiParser.MapRoleInvertsRoleValue | backend/app/services/azure_di_parser.py:12-19 | mapping a role's own string value gives that role back, for all seven roles |
| AzureDiParser.PageOf | backend/app/services/azure_di_parser.py:76-79 | the page is the first bounding region's page, or 1 when there are no regions |
| AzureDiParser.TablePageRange | backend/app/services/azure_di_parser.py:221-229 | the range is (least, greatest) region page; both ends are region pages and every region page lies between them; no regions gives (1, 1) |
| AzureDiParser.Span | backend/app/services/azure_di_parser.py:94-95 | a missing or zero span counts as 1, so a span is never 0 |
| AzureDiParser.CellText | backend/app/services/azure_di_parser.py:93 | a cell's text has no newline left in it |
| AzureDiParser.GridCellUncovered | backend/app/services/azure_di_parser.py:96-101 | a grid position that no cell's spans reach keeps "" |
| AzureDiParser.GridCellLastCover | backend/app/services/azure_di_parser.py:90-101 | a grid position holds the text of the last cell whose spans reach it: later cells overwrite earlier ones |
| AzureDiParser.PaintCell | backend/app/services/azure_di_parser.py:96-101 | the span loops write the cell's text exactly into the covered in-bounds positions; every other position is unchanged |
| AzureDiParser.FillGrid | backend/app/services/azure_di_parser.py:88-101 | the filled `rowCount` × `columnCount` grid holds `GridCell` at every position |
| AzureDiParser.RenderGrid | backend/app/services/azure_di_parser.py:103-108 | the rendered text is the grid's lines (header row, separator, remaining rows) joined by newlines, the form the stripped accumulated text takes |
| AzureDiParser.GridLineAt | backend/app/services/azure_di_parser.py:103-107 | line 0 is the header row, line 1 is one `---` per column, and line i+1 is grid row i |
| AzureDiParser.GridLinesMatch | backend/app/services/azure_di_parser.py:88-107 | a grid filled from the cells renders to the lines computed from the cells alone |
| AzureDiParser.TableToMarkdown | backend/app/services/azure_di_parser.py:82-108 | `_table_to_markdown` returns the table text; a zero dimension gives "" |
| AzureDiParser.TableTextSplitsIntoLines | backend/app/services/azure_di_parser.py:103-108 | the text splits on newlines into exactly row_count + 1 lines: header, separator, then the remaining rows |
| AzureDiParser.TablesSortedByPages | backend/app/services/azure_di_parser.py:125 | tables are ordered by (page start, page end); the ordering is a permutation of the input, and tables with equal keys keep their input order |
| AzureDiParser.DrainDue | backend/app/services/azure_di_parser.py:131-138 | the inner loop moves exactly the pending tables that start on or before the paragraph's page, stopping at the first that does not |
| AzureDiParser.DrainRest | backend/app/services/azure_di_parser.py:163-167 | every table still pending goes to the open section |
| AzureDiParser.BuildSections | backend/app/services/azure_di_parser.py:111-172 | `_build_sections`, run as its loops, returns `SectionsOf` |
| AzureDiParser.DrainMovesDuePrefix | backend/app/services/azure_di_parser.py:131-138 | draining appends exactly the due prefix of the pending tables, in order; the section keeps its heading, level and first page |
| AzureDiParser.SectionsFlattenToMerge | backend/app/services/azure_di_parser.py:127-170 | read without section breaks, the sections are the merged order: due tables before each kept paragraph, the paragraph unless it is a heading, then the remaining tables |
| AzureDiParser.SectionTablesAreSortedInput | backend/app/services/azure_di_parser.py:124-167 | every input table appears exactly once across the sections, in (page start, page end) order |
| AzureDiParser.SectionParagraphsAreContent | backend/app/services/azure_di_parser.py:127-161 | every body or footnote paragraph appears exactly once, in input order; no title, heading or page-furniture paragraph appears |
| AzureDiParser.SectionTablesPlacedEarly | backend/app/services/azure_di_parser.py:131-138 | every paragraph placed before a table lies on a page before that table's first page |
| AzureDiParser.SectionsWellBuilt | backend/app/services/azure_di_parser.py:115-170 | every section has elements; it is the Introduction (level 1, page 1) or is headed by a title (level 1) or section-heading (level 2) paragraph from that paragraph's page; it ends on the later of its first page and the furthest page its elements reach |
| AzureDiParser.SectionsSplitAtHeadings | backend/app/services/azure_di_parser.py:111-172 | the sections are the merged order with a break at each kept title or section heading, cut at those breaks starting in the Introduction; leaving the breaks out gives exactly the merged order of `SectionsFlattenToMerge` |
| AzureDiParser.SplitCutsAtBreaks | backend/app/services/azure_di_parser.py:140-161 | the open section takes exactly the elements before the first break and is kept only when it has some; the break's heading then opens the section that the rest is cut into, so only the first section can be the Introduction |
| AzureDiParser.AppendAllShape | backend/app/services/azure_di_parser.py:134-166 | appending elements keeps heading, level and first page, puts them after the section's own, and ends the section on the later of its previous last page and the furthest page the new elements reach |
| AzureDiParser.SectionsEmptyIff | backend/app/services/azure_di_parser.py:169-172 | there are no sections exactly when there is no body or footnote paragraph and no table |
| AzureDiParser.SectionsIgnoreFurniture | backend/app/services/azure_di_parser.py:128-129 | page headers, footers and numbers have no effect on the sections, including on when tables are drained |
| AzureDiParser.MaxParsedPageIsMax | backend/app/services/azure_di_parser.py:246-250 | the furthest parsed page bounds every paragraph page and table end page, and is one of them unless it is 0 |
| AzureDiParser.ComputeMaxParsedPage | backend/app/services/azure_di_parser.py:246-250 | the two loops compute `MaxParsedPage` |
| AzureDiParser.CoverageTooLow | backend/app/services/azure_di_parser.py:252 | the guard fires exactly when there are more than two pages and twice the furthest parsed page is below the page count |
| AzureDiParser.TableOf | backend/app/services/azure_di_parser.py:220-233 | a converted table's first page is never after its last page |
| AzureDiParser.ConvertParagraphs | backend/app/services/azure_di_parser.py:209-217 | one paragraph per response paragraph, in order, with mapped role and page |
| AzureDiParser.ConvertTables | backend/app/services/azure_di_parser.py:219-233 | one table per response table, in order, with Markdown, page range and caption |
| AzureDiParser.ConvertKeyValues | backend/app/services/azure_di_parser.py:235-244 | one pair per response pair, in order; a missing key or value reads "", and the page comes from the key |
| AzureDiParser.ParseLayout | backend/app/services/azure_di_parser.py:197-258 | it fails exactly when the coverage guard fires, reporting the furthest page and the page count; otherwise the document holds the converted content, its sections and the independently counted page count |
| PdfParser.CellsOf | backend/app/services/pdf_parser.py:41-45 | a missing cell reads "" and every other cell is kept, position by position |
| PdfParser.PdfTableToMarkdown | backend/app/services/pdf_parser.py:38-47 | the extractor's `_table_to_markdown` returns `PdfTableText` |
| PdfParser.PdfTableTextEmptyIff | backend/app/services/pdf_parser.py:38-40 | the text is "" exactly when the table has no rows or an empty first row, which are the tables the extractor drops |
| PdfParser.PdfTableTextSplitsIntoLines | backend/app/services/pdf_parser.py:41-47 | when no cell contains a newline, the text splits into exactly len(table) + 1 lines: header, separator, then the other rows |
| PdfParser.MedianHalves | backend/app/services/pdf_parser.py:62 | the median of the sizes has at least half of them at or below it and at least half at or above it |
| PdfParser.MedianBetweenSizes | backend/app/services/pdf_parser.py:62 | the median lies between two of the sizes |
| PdfParser.HeadingThresholdBounds | backend/app/services/pdf_parser.py:59-63 | no sizes gives 14.0; otherwise the threshold is 1.3 times a median of the sizes: at least half of them lie at or below threshold / 1.3 and at least half at or above it |
| PdfParser.HeadingLevel | backend/app/services/pdf_parser.py:104 | a heading's level is 1 or 2 |
| PdfParser.HeadingRuleFacts | backend/app/services/pdf_parser.py:103-104 | a non-bold line is a heading exactly when it reaches the threshold, a bold one when it reaches 90% of it; the level is 1 exactly when the size reaches 115% of it, and such a size always passes the rule |
| PdfParser.ClassifyLinesKeepsTextLines | backend/app/services/pdf_parser.py:86-101 | every non-blank line becomes one stripped text block on its page, in line order, heading or not; blank lines give nothing |
| PdfParser.ClassifyLinesHeadings | backend/app/services/pdf_parser.py:103-105 | the headings are exactly the text blocks that pass the heading rule, in order, with the level their size gives |
| PdfParser.ClassifiedTextIsStripped | backend/app/services/pdf_parser.py:88-90 | every block's text is non-empty and already stripped, and every heading lies on the page being read |
| PdfParser.ParsePagesShape | backend/app/services/pdf_parser.py:74-79 | no kept table renders to ""; every table and text block lies on a page of the document |
| PdfParser.PageTablesShape | backend/app/services/pdf_parser.py:75-79 | one table block per table with a non-empty rendering, on the page being read |
| PdfParser.ParsePages | backend/app/services/pdf_parser.py:66-107 | the document's page count is its number of pages |
| Sentences.SentencesShape | backend/app/services/chunker.py:48-56 | every sentence is non-empty and already stripped, and every sentence but the last ends in `.`, `!` or `?` |
| Sentences.ScanKeepsText | backend/app/services/chunker.py:50-54 | the raw pieces cut by the scan, with the unfinished rest, spell the text out exactly, and each sentence is its piece stripped |
| Sentences.ScanSentences | backend/app/services/chunker.py:48-56 | the character loop computes `SentencesOf` |
| Sentences.OverlapTailShape | backend/app/services/chunker.py:66-75 | the overlap is the longest suffix of the closed sub-chunk's sentences, possibly empty, whose token total is within the overlap budget: it is the whole sub-chunk or one more sentence would exceed the budget |
| Sentences.TakeOverlap | backend/app/services/chunker.py:66-75 | the reversed loop with `insert(0, s)` builds `OverlapTail`, and its count is that overlap's token total |
| Sentences.GroupsPartitionSentences | backend/app/services/chunker.py:58-81 | no sub-chunk is empty; each starts with the previous one's overlap and adds at least one sentence; a sub-chunk closes only when the next sentence would take it over the limit, and every later sentence of a sub-chunk was added because it still fitted; reading each sentence once gives back the input |
| Sentences.GroupsFitGreedily | backend/app/services/chunker.py:62-78 | packing is greedy: each sentence after a sub-chunk's first fresh one fitted when added, so a sub-chunk that adds two or more sentences beyond its overlap is within `max_tokens` |
| Sentences.GroupsEmptyIff | backend/app/services/chunker.py:62-81 | there are no sub-chunks exactly when there are no sentences |
| Sentences.PackStep | backend/app/services/chunker.py:63-78 | one turn of the packing loop is one `PackSentence` step, keeping the closed texts joined by spaces and the running token count |
| Sentences.SplitOnSentences | backend/app/services/chunker.py:47-83 | `_split_on_sentences`, run as its loops, returns `SplitText` |
| Chunker.EmbeddingTextCases | backend/app/services/chunker.py:35-44 | text chunks embed their text; a table embeds `parent > heading`, skipping empty parts, then a blank line and its text; a table with neither part embeds its text unchanged |
| Chunker.PagesPerChunk | backend/app/services/chunker.py:308 | the pages per sub-chunk is at least 1 |
| Chunker.SubChunkPages | backend/app/services/chunker.py:308-311 | sub-chunk i starts i steps after the first page and never ends after the last; when there are at least as many pages as sub-chunks, every sub-chunk's range is non-empty and within the span |
| Chunker.TextChunksShape | backend/app/services/chunker.py:287-323 | the chunks of a run carry consecutive indices from the next index; all are text chunks of the section, with an empty embedding text and the token count of their own text |
| Chunker.TextChunksFit | backend/app/services/chunker.py:292-305 | a run that fits the budget yields exactly its text once, on the fitting pages, or nothing when it is blank |
| Chunker.TextChunksSplit | backend/app/services/chunker.py:306-323 | a run over the budget yields one chunk per sub-chunk of the splitter, in order |
| Chunker.PartText | backend/app/services/chunker.py:241-244 | a footnote's part is `[Footnote: text]`; any other paragraph's part is its text |
| Chunker.EmitSubChunks | backend/app/services/chunker.py:309-323 | the sub-chunk loop appends exactly `SubChunks` |
| Chunker.FlushTextParts | backend/app/services/chunker.py:276-325 | `_flush_text_parts` appends exactly the run's chunks and returns the index after them |
| Chunker.EmitElement | backend/app/services/chunker.py:213-245 | one element of the element loop is one `ElementStep`, and the running index stays the number of chunks |
| Chunker.EmitTable | backend/app/services/chunker.py:214-238 | a table flushes the open run, then appends its own chunk with the next index |
| Chunker.FlushOpenRun | backend/app/services/chunker.py:247-251 | after the element loop, a non-empty open run is flushed |
| Chunker.ChunkSection | backend/app/services/chunker.py:210-251 | the body of the section loop appends `SectionChunks` |
| Chunker.CollectKeyValues | backend/app/services/chunker.py:254-258 | the lines are "Key Information:" and then one line per pair; the pages are the pairs' pages |
| Chunker.ChunkSections | backend/app/services/chunker.py:203-251 | the section loop, tracking the latest level-1 heading, computes the walk over all sections |
| Chunker.ChunkStructuredDocument | backend/app/services/chunker.py:196-273 | `chunk_structured_document`, run as its loops, returns `StructuredChunks`, whose indices are 0..N-1 in order |
| Chunker.StructuredChunksIndexed | backend/app/services/chunker.py:200-271 | indices are exactly 0..N-1 in emission order; every token count is that of the chunk's text; text chunks have an empty embedding text and tables their breadcrumbed one; the key/value chunk, when there are pairs, is last |
| Chunker.KeyValueChunkShape | backend/app/services/chunker.py:253-271 | the key/value chunk has heading "Key Information", level 1 and no parent; its text is "Key Information:" then one "- key: value" line per pair in order; its pages are the least and greatest page of the pairs |
| Chunker.EmptyStructuredDocument | backend/app/services/chunker.py:205-273 | no sections and no pairs give no chunks |
| Chunker.WalkTracksLevel1 | backend/app/services/chunker.py:203-208 | after k sections, the tracked heading is that of the last level-1 section among them, or "" |
| Chunker.SectionChunksCarrySection | backend/app/services/chunker.py:205-251 | the chunks of section k follow those of earlier sections; each carries the section's heading and level, and a level-2 section's chunks carry the latest earlier level-1 heading as parent while others carry "" |
| Chunker.StructuredExtends | backend/app/services/chunker.py:205-273 | the chunks of the first k sections begin the document's chunk list |
| Chunker.TableStep | backend/app/services/chunker.py:214-238 | a table element appends the open run's chunks and then its own chunk, indexed after them |
| Chunker.OpenRunIsTrailingParas | backend/app/services/chunker.py:210-245 | the open run is the paragraphs since the last table, footnotes marked, with their pages |
| Chunker.ElementStepRun | backend/app/services/chunker.py:213-245 | a table empties the open run; a paragraph appends its part and its page |
| Chunker.SectionEndsWithItsRun | backend/app/services/chunker.py:247-251 | a section ends by flushing the paragraphs after its last table |
| Chunker.TablelessSection | backend/app/services/chunker.py:210-251 | a section without tables yields the chunks of all its paragraphs as one run |
| Chunker.FittingRun | backend/app/services/chunker.py:287-305 | a run whose joined text fits yields one text chunk with that text, between the least and greatest page of its paragraphs, or nothing when the text is blank |
| Chunker.FittingSectionOneChunk | backend/app/services/chunker.py:240-305 | a section of paragraphs whose text fits adds exactly one chunk with that text and page range, or none when the text is blank |
| HeuristicChunker.FirstHeadingFound | backend/app/services/chunker.py:96-101 | a block's text is in the heading set exactly when some heading has that text, and then the first such heading is found |
| HeuristicChunker.GroupSectionsShape | backend/app/services/chunker.py:86-124 | the groups hold every non-heading block exactly once, in order; every group has blocks, ends on its last block's page and is the Introduction or headed by a detected heading of its level; only level-2 groups have a parent, which is a level-1 heading or "" |
| HeuristicChunker.GroupsCutAtHeadings | backend/app/services/chunker.py:86-124 | the groups equal a reference grouping in which each heading block closes the open group and opens its own, on that block's page, with the heading's text and level; a level-2 group's parent is the latest level-1 heading block before it |
| HeuristicChunker.GroupsFromCuts | backend/app/services/chunker.py:99-122 | a group holds exactly the non-heading blocks from its heading block up to the next heading block and ends on the last one's page; groups without blocks are dropped |
| HeuristicChunker.LastLevel1IsLatest | backend/app/services/chunker.py:105-107 | the parent a level-2 heading block gets is the heading of the latest level-1 heading block before it, or "" when there is none |
| HeuristicChunker.NoBlocksNoGroups | backend/app/services/chunker.py:121-124 | a document without text blocks has no groups |
| HeuristicChunker.GroupBlocksByHeading | backend/app/services/chunker.py:86-124 | `_group_blocks_by_heading`, run as its loop, returns `GroupSections` |
| HeuristicChunker.TableBlockChunkShape | backend/app/services/chunker.py:134-147 | a table chunk holds the table's Markdown under heading "Table", level 2, no parent, on the table's page; it embeds "Table", a blank line and the Markdown |
| HeuristicChunker.DocumentChunksShape | backend/app/services/chunker.py:127-193 | indices are 0..N-1 in order and every chunk is consistent; the tables come first, one chunk each, in order; every later chunk is a text chunk |
| HeuristicChunker.FittingGroup | backend/app/services/chunker.py:153-169 | a group whose space-joined text fits yields one text chunk with that text on the group's own pages and origin, or none when it is blank |
| HeuristicChunker.ChunkGroup | backend/app/services/chunker.py:151-191 | the body of the section loop appends exactly `GroupChunks` |
| HeuristicChunker.ChunkDocument | backend/app/services/chunker.py:127-193 | `chunk_document`, run as its loops, returns `DocumentChunks`, whose indices are 0..N-1 in order |
| DocumentProcessor.Find | backend/app/services/document_processor.py:48-58 | the lookup finds an entry with the heading, or says that none has it |
| DocumentProcessor.SummarizeIsSummary | backend/app/services/document_processor.py:70-84 | the map has one entry per distinct heading, in order of first occurrence, with the first occurrence's level and start page; the end page is the largest or the last end page of that heading's occurrences, as the rule says |
| DocumentProcessor.UpsertKeeps | backend/app/services/document_processor.py:71-83 | one more occurrence keeps the map a summary of the longer list |
| DocumentProcessor.StructuredSectionMapShape | backend/app/services/document_processor.py:70-84 | one entry per distinct section heading, in first-occurrence order, with the first section's level and start page and the largest end page of all sections with that heading |
| DocumentProcessor.ExtractSectionsFromStructured | backend/app/services/document_processor.py:70-84 | `_extract_sections_from_structured`, run as its loop, returns the structured map, and that map has the summary's properties |
| DocumentProcessor.WidenShape | backend/app/services/document_processor.py:60-65 | widening changes only end pages: each entry's end page becomes the largest of its own and the last pages of the chunks under its heading |
| DocumentProcessor.FallbackSectionMapShape | backend/app/services/document_processor.py:48-65 | one entry per distinct heading text, in first-occurrence order, with the first heading's level and page; the end page starts at the page of the last heading with that text and is widened by every chunk under that heading |
| DocumentProcessor.BuildFallbackSectionMap | backend/app/services/document_processor.py:48-67 | the two loops of `_fallback_parse` compute `FallbackSectionMap` |
| DocumentProcessor.EmbeddingInputOfConsistent | backend/app/services/document_processor.py:138 | `embedding_text or text` of a chunk the chunkers produce is its `_build_embedding_text`: the text itself for a text chunk |
| DocumentProcessor.AzureDiParse | backend/app/services/document_processor.py:94-100 | the structured path fails exactly when the service raises or the coverage guard fires; otherwise it returns the structured chunks and section map |
| DocumentProcessor.FallbackParse | backend/app/services/document_processor.py:40-67 | the fallback returns the heuristic chunks, their section map and the extractor's page count |
| DocumentProcessor.SelectParse | backend/app/services/document_processor.py:116-126 | the structured parser runs once exactly when enabled; the fallback runs once exactly when it is disabled or the structured parse failed; the kept chunks and sections are those of the path that succeeded |
| DocumentProcessor.Finish | backend/app/services/document_processor.py:128-151 | no chunks writes Processing, Processing, Failed with nothing embedded; otherwise every chunk's embedding input is embedded, the section rows are written when there are any, and the last status is Ready; the page count is always the one counted from the file |
| DocumentProcessor.ProcessDocument | backend/app/services/document_processor.py:103-151 | the path choice and the empty-result rule together, as `SelectParse` and `Finish` state them |
| DocumentProcessor.ChosenChunksEmbedding | backend/app/services/document_processor.py:116-138 | whichever path runs, the kept chunks are indexed 0..N-1, and each is embedded from its `_build_embedding_text` |
| Clarification.ScoreShape | backend/app/services/clarification.py:17-21 | a section is scored exactly when some query word occurs in its lowercased heading, since a whole-word match is such an occurrence; a scored section's score lies between 0.5 and 1.5 per occurring word |
| Clarification.RateShape | backend/app/services/clarification.py:15-22 | the scored list is exactly the matching sections, in original order, each with its score; it is empty exactly when no section matches |
| Clarification.ScoreSections | backend/app/services/clarification.py:15-22 | the scoring loop appends exactly the matching sections with score overlap + 0.5 × occurring words |
| Clarification.RankingShape | backend/app/services/clarification.py:27-28 | the ranking holds the same entries, in descending score order; entries with equal scores keep their original order; each of the first five scores at least as high as every later entry |
| Clarification.RankedTopFive | backend/app/services/clarification.py:26-28 | when some section matches, the chips are for the first five of the ranking, and all of them are matching sections |
| Clarification.FallbackToTopLevel | backend/app/services/clarification.py:24-25 | when no section matches, the chips are for the first five level-1 sections, in original order |
| Clarification.ChipOf | backend/app/services/clarification.py:31-36 | a chip copies the section's id, heading and level; its label is the first min(50, len) characters of the heading |
| Clarification.ClarificationChips | backend/app/services/clarification.py:7-38 | there are at most five chips, and no sections give no chips |
| Clarification.ChipsFromSections | backend/app/services/clarification.py:30-38 | every chip copies the id, heading and level of one of the sections |
| Clarification.GenerateClarificationChips | backend/app/services/clarification.py:7-38 | `generate_clarification_chips`, run as its loops and its in-place sort, returns `ClarificationChips` |

## Left out

- Input and output are not modelled. This covers:
  - reading PDF bytes and temporary files;
  - character extraction and grouping characters into lines by rounded
    position;
  - `_extract_font_sizes` and `_get_pdf_page_count`;
  - the layout service call and its poller;
  - storage upload;
  - the database and vector-store writes;
  - logging.

  In the model these are parameters: the pages with their lines and
  tables, the font sizes, the service response (`None` when the call
  raises), the page count and the section rows.
- `_count_tokens` and the tiktoken encoding are the uninterpreted `Budget.tokens`.
- The embedder is not modelled. `Outcome.embedded` records the texts that
  would be sent to it.
- `process_document` is asynchronous. The model runs it as one sequential
  call. The service error and the coverage guard are modelled: both are
  caught, and the fallback runs.
- DocumentProcessor.FallbackParse, DocumentProcessor.ProcessDocument: the heuristic path never fails in the model, so the outcome where `_fallback_parse` raises is not modelled. That outcome is a single Processing write, then Failed from the outer `except`, and the exception is re-raised. It happens, for example, when `statistics.mean` meets a non-blank line without any sized character, or when pdfplumber fails. The reason is that `Line.avgSize` is given as a number, since character extraction is not part of this model.
- Floating point: font sizes, the median, the 1.3, 1.15 and 0.9 factors,
  the 0.5 coverage factor and the clarification scores are exact reals.
  The scores are sums of halves, so floats hold them exactly.
- `sorted` and `list.sort` are modelled by a stable insertion sort. The
  result is the same as Timsort's, because a stable sort's result is
  unique; the comparison count is not.
- `str.lower` lowers ASCII letters only. `str.split` and `str.strip` use
  the ASCII and common Unicode whitespace characters that `Text.IsSpace`
  lists.
- Clarification.ClarificationChips: the section rows are a parameter; `get_sections` is not part of this model.
- `DocumentStatus.PENDING` is set on upload, outside the modelled code.
- `_generate_title`, the routers, the answer pipeline and the query router
  are not part of this model.
- Chunker.SubChunkPages: does not state that every sub-chunk's pages are ordered or within the span when there are fewer pages than sub-chunks, because the source does not guarantee it.
- Sentences.GroupsPartitionSentences: does not bound every sub-chunk's tokens by `max_tokens`, because one long sentence, or an overlap followed by a sentence, can exceed it. The conditional bound is proved in `GroupsFitGreedily`.
