/** Clarification chips (`generate_clarification_chips`): when a question is
    ambiguous, the document's sections are ranked against the query by
    keyword overlap and the best five are offered as chips; when no heading
    shares anything with the query, the first five top-level sections are
    offered instead. The section rows, read from the database in the
    source, are a parameter here. */
module Clarification {
  import opened Seqs
  import opened Text
  import opened Sorting

  /** A row of the `sections` table, as `get_sections` returns it. */
  datatype SectionRow = SectionRow(id: string, heading: string, level: int)

  /** `ClarificationChip`. */
  datatype Chip = Chip(sectionId: string, heading: string, level: int, labelText: string)

  /** An entry of `scored`: a section with its score. */
  datatype ScoredSection = ScoredSection(score: real, section: SectionRow)

  /** The number of chips offered at most. */
  const MaxChips: nat := 5

  /** The number of heading characters a chip label keeps. */
  const LabelLength: nat := 50

  // ---------------------------------------------------------------------
  // Scoring
  // ---------------------------------------------------------------------

  /** `set(s.split())`. */
  function WordSet(s: string): (words: set<string>)
    ensures forall w :: w in words <==> w in Split(s)
  {
    set w | w in Split(s)
  }

  /** `set(query.lower().split())`. */
  function QueryWords(query: string): set<string>
  {
    WordSet(Lower(query))
  }

  /** `len(query_words & heading_words)`: the query words that are whole
      words of the lowercased heading. */
  function Overlap(words: set<string>, heading: string): nat
  {
    |words * WordSet(Lower(heading))|
  }

  /** The query words that occur anywhere in the lowercased heading. */
  function Contained(words: set<string>, heading: string): set<string>
  {
    set w | w in words && IsSubstring(w, Lower(heading))
  }

  /** The condition on line 20 under which a section is scored. */
  predicate Matches(words: set<string>, heading: string)
  {
    Overlap(words, heading) > 0 || exists w | w in words :: IsSubstring(w, Lower(heading))
  }

  /** Whole-word overlap plus one half per query word that occurs in the
      heading. */
  function Score(words: set<string>, heading: string): real
  {
    Overlap(words, heading) as real + 0.5 * |Contained(words, heading)| as real
  }

  lemma SubsetCard<T>(a: set<T>, b: set<T>)
    requires a <= b
    ensures |a| <= |b|
  {
    assert b == a + (b - a);
  }

  /** A section is scored exactly when some query word occurs in its
      heading (a whole-word match is such an occurrence), and then its
      score lies between one half and three halves per such word. */
  lemma {:induction false} ScoreShape(words: set<string>, heading: string)
    ensures words * WordSet(Lower(heading)) <= Contained(words, heading)
    ensures Matches(words, heading) <==> Contained(words, heading) != {}
    ensures Overlap(words, heading) <= |Contained(words, heading)|
    ensures 0.5 * |Contained(words, heading)| as real <= Score(words, heading) <= 1.5 * |Contained(words, heading)| as real
    ensures Matches(words, heading) ==> Score(words, heading) >= 0.5
  {
    var lower := Lower(heading);
    forall w | w in words * WordSet(lower)
      ensures w in Contained(words, heading)
    {
      SplitWordsOccur(lower, w);
    }
    SubsetCard(words * WordSet(lower), Contained(words, heading));
    if Matches(words, heading) {
      if Overlap(words, heading) > 0 {
        var w :| w in words * WordSet(lower);
        assert w in Contained(words, heading);
      } else {
        var w :| w in words && IsSubstring(w, lower);
        assert w in Contained(words, heading);
      }
    }
    if Contained(words, heading) != {} {
      var w :| w in Contained(words, heading);
      assert w in words && IsSubstring(w, lower);
    }
  }

  /** Whether `generate_clarification_chips` scores a section. */
  function Matcher(words: set<string>): SectionRow -> bool
  {
    (s: SectionRow) => Matches(words, s.heading)
  }

  /** The score a section gets. */
  function Scorer(words: set<string>): SectionRow -> real
  {
    (s: SectionRow) => Score(words, s.heading)
  }

  /** The sections `keep` accepts, in their original order, each with its
      `score`. */
  function Rate(sections: seq<SectionRow>, keep: SectionRow -> bool, score: SectionRow -> real): seq<ScoredSection>
  {
    if sections == [] then []
    else
      var s := sections[|sections| - 1];
      Rate(sections[..|sections| - 1], keep, score) + (if keep(s) then [ScoredSection(score(s), s)] else [])
  }

  /** `scored` after the loop of lines 16-22. */
  function ScoredOf(words: set<string>, sections: seq<SectionRow>): seq<ScoredSection>
  {
    Rate(sections, Matcher(words), Scorer(words))
  }

  /** The sections of a list of scored entries. */
  function SectionsOf(scored: seq<ScoredSection>): (ss: seq<SectionRow>)
    ensures |ss| == |scored|
    ensures forall i :: 0 <= i < |scored| ==> ss[i] == scored[i].section
  {
    seq(|scored|, i requires 0 <= i < |scored| => scored[i].section)
  }

  lemma SectionsOfAppend(a: seq<ScoredSection>, b: seq<ScoredSection>)
    ensures SectionsOf(a + b) == SectionsOf(a) + SectionsOf(b)
  {
  }

  /** The rated entries are exactly the accepted sections in their original
      order, each with its score; there are none exactly when no section is
      accepted. */
  lemma {:induction false} RateShape(sections: seq<SectionRow>, keep: SectionRow -> bool, score: SectionRow -> real)
    ensures SectionsOf(Rate(sections, keep, score)) == Filter(sections, keep)
    ensures forall e :: e in Rate(sections, keep, score) ==> e.score == score(e.section) && e.section in sections && keep(e.section)
    ensures Rate(sections, keep, score) == [] <==> forall s :: s in sections ==> !keep(s)
    decreases |sections|
  {
    if sections != [] {
      var init, s := sections[..|sections| - 1], sections[|sections| - 1];
      assert sections == init + [s];
      RateShape(init, keep, score);
      FilterAppend(init, [s], keep);
      var tail := if keep(s) then [ScoredSection(score(s), s)] else [];
      SectionsOfAppend(Rate(init, keep, score), tail);
      FilterShape(sections, keep);
      var r := Rate(sections, keep, score);
      if r == [] {
        assert Filter(sections, keep) == SectionsOf(r) == [];
      }
      if forall x :: x in sections ==> !keep(x) {
        assert !keep(s);
        assert forall x :: x in init ==> x in sections;
      }
    }
  }

  // ---------------------------------------------------------------------
  // Ranking and the fallback
  // ---------------------------------------------------------------------

  /** The key order of `scored.sort(key=score, reverse=True)`: higher
      scores first. */
  predicate ScoreGe(a: ScoredSection, b: ScoredSection)
  {
    a.score >= b.score
  }

  /** The entries scoring exactly `v`: one tie class of the sort. */
  function ScoreIs(v: real): ScoredSection -> bool
  {
    (e: ScoredSection) => e.score == v
  }

  predicate IsLevel1(s: SectionRow)
  {
    s.level == 1
  }

  /** `xs[:5]`. */
  function FirstFive<T>(xs: seq<T>): (r: seq<T>)
    ensures |r| == Min(MaxChips, |xs|) && r == xs[..|r|]
  {
    xs[..Min(MaxChips, |xs|)]
  }

  /** `top_sections` on lines 24-28, for a given scoring rule: the five
      best-ranked scored sections, or the first five level-1 sections when
      none is scored. */
  function Top(sections: seq<SectionRow>, keep: SectionRow -> bool, score: SectionRow -> real): seq<SectionRow>
  {
    var scored := Rate(sections, keep, score);
    if scored == [] then FirstFive(Filter(sections, IsLevel1))
    else SectionsOf(FirstFive(SortBy(scored, ScoreGe)))
  }

  /** `top_sections` for a query's words. */
  function TopSections(words: set<string>, sections: seq<SectionRow>): seq<SectionRow>
  {
    Top(sections, Matcher(words), Scorer(words))
  }

  /** The chip for one section: its id, heading and level, and the first
      50 characters of its heading as the label. */
  function ChipOf(s: SectionRow): (c: Chip)
    ensures |c.labelText| == Min(LabelLength, |s.heading|) && c.labelText == s.heading[..|c.labelText|]
    ensures c.sectionId == s.id && c.heading == s.heading && c.level == s.level
  {
    Chip(s.id, s.heading, s.level, Take(s.heading, LabelLength))
  }

  function ChipsOf(sections: seq<SectionRow>): (chips: seq<Chip>)
    ensures |chips| == |sections|
    ensures forall i :: 0 <= i < |sections| ==> chips[i] == ChipOf(sections[i])
  {
    seq(|sections|, i requires 0 <= i < |sections| => ChipOf(sections[i]))
  }

  /** `generate_clarification_chips` on a given list of section rows. */
  function ClarificationChips(sections: seq<SectionRow>, query: string): (chips: seq<Chip>)
    ensures |chips| <= MaxChips
    ensures sections == [] ==> chips == []
  {
    if sections == [] then [] else ChipsOf(TopSections(QueryWords(query), sections))
  }

  lemma ScoreGeTotal()
    ensures TotalPreorder(ScoreGe)
  {
  }

  /** The ranking is a stable sort by descending score: it holds the same
      entries, in descending score order, entries of equal score keep their
      order, and each of the first five scores at least as high as every
      entry after them. */
  lemma {:induction false} RankingShape(scored: seq<ScoredSection>)
    ensures var ranked := SortBy(scored, ScoreGe);
      && multiset(ranked) == multiset(scored)
      && (forall i, j :: 0 <= i < j < |ranked| ==> ranked[i].score >= ranked[j].score)
      && (forall v: real :: Filter(ranked, ScoreIs(v)) == Filter(scored, ScoreIs(v)))
      && (forall i, j :: 0 <= i < Min(MaxChips, |ranked|) <= j < |ranked| ==> FirstFive(ranked)[i].score >= ranked[j].score)
  {
    var ranked := SortBy(scored, ScoreGe);
    ScoreGeTotal();
    SortBySorted(scored, ScoreGe);
    assert forall i, j :: 0 <= i < j < |ranked| ==> ScoreGe(ranked[i], ranked[j]);
    forall v: real
      ensures Filter(ranked, ScoreIs(v)) == Filter(scored, ScoreIs(v))
    {
      SortByStable(scored, ScoreGe, ScoreIs(v));
    }
  }

  /** When some section is scored, the top sections are the first five of
      the ranking, and every one of them is a scored section. */
  lemma {:induction false} RankedTopFive(sections: seq<SectionRow>, keep: SectionRow -> bool, score: SectionRow -> real)
    requires exists s :: s in sections && keep(s)
    ensures Rate(sections, keep, score) != []
    ensures Top(sections, keep, score) == SectionsOf(FirstFive(SortBy(Rate(sections, keep, score), ScoreGe)))
    ensures forall s :: s in Top(sections, keep, score) ==> s in sections && keep(s)
  {
    var scored := Rate(sections, keep, score);
    RateShape(sections, keep, score);
    var ranked := SortBy(scored, ScoreGe);
    var top := FirstFive(ranked);
    forall s | s in SectionsOf(top)
      ensures s in sections && keep(s)
    {
      var i :| 0 <= i < |top| && SectionsOf(top)[i] == s;
      assert top[i] == ranked[i];
      assert ranked[i] in multiset(scored);
      assert top[i] in scored;
    }
  }

  /** When no section is scored, the top sections are the first five
      level-1 sections in their original order. */
  lemma {:induction false} FallbackToTopLevel(sections: seq<SectionRow>, keep: SectionRow -> bool, score: SectionRow -> real)
    requires forall s :: s in sections ==> !keep(s)
    ensures Top(sections, keep, score) == FirstFive(Filter(sections, IsLevel1))
    ensures forall s :: s in Top(sections, keep, score) ==> s in sections && s.level == 1
  {
    RateShape(sections, keep, score);
    FilterShape(sections, IsLevel1);
  }

  /** Whichever path is taken, the top sections are among the sections. */
  lemma {:induction false} TopFromSections(sections: seq<SectionRow>, keep: SectionRow -> bool, score: SectionRow -> real)
    ensures forall s :: s in Top(sections, keep, score) ==> s in sections
  {
    if exists s :: s in sections && keep(s) {
      RankedTopFive(sections, keep, score);
    } else {
      FallbackToTopLevel(sections, keep, score);
    }
  }

  /** Every chip is the chip of one of the sections (`ChipOf`: it copies
      the section's id, heading and level, and its label is the heading cut
      to 50 characters). */
  lemma {:induction false} ChipsFromSections(sections: seq<SectionRow>, query: string)
    ensures forall c :: c in ClarificationChips(sections, query) ==> exists s :: s in sections && c == ChipOf(s)
  {
    if sections != [] {
      var words := QueryWords(query);
      var top := TopSections(words, sections);
      TopFromSections(sections, Matcher(words), Scorer(words));
      forall c | c in ClarificationChips(sections, query)
        ensures exists s :: s in sections && c == ChipOf(s)
      {
        var i :| 0 <= i < |top| && ChipsOf(top)[i] == c;
        assert top[i] in sections;
      }
    }
  }

  // ---------------------------------------------------------------------
  // The procedure
  // ---------------------------------------------------------------------

  /** The scoring loop of lines 16-22, appending to `scored`. */
  method ScoreSections(queryWords: set<string>, sections: seq<SectionRow>) returns (scored: seq<ScoredSection>)
    ensures scored == ScoredOf(queryWords, sections)
  {
    scored := [];
    for k := 0 to |sections|
      invariant scored == ScoredOf(queryWords, sections[..k])
    {
      TakeSnoc(sections, k + 1);
      var section := sections[k];
      var headingLower := Lower(section.heading);
      var overlap := |queryWords * WordSet(headingLower)|;
      if overlap > 0 || exists w | w in queryWords :: IsSubstring(w, headingLower) {
        var substrings := set w | w in queryWords && IsSubstring(w, headingLower);
        var score := overlap as real + 0.5 * |substrings| as real;
        assert Matcher(queryWords)(section) && Scorer(queryWords)(section) == score;
        scored := scored + [ScoredSection(score, section)];
      } else {
        assert !Matcher(queryWords)(section);
      }
    }
    TakeAll(sections);
  }

  /** The chip list of lines 30-38, built one chip at a time. */
  method MakeChips(top: seq<SectionRow>) returns (chips: seq<Chip>)
    ensures chips == ChipsOf(top)
  {
    chips := [];
    for i := 0 to |top|
      invariant chips == ChipsOf(top[..i])
    {
      chips := chips + [Chip(top[i].id, top[i].heading, top[i].level, Take(top[i].heading, LabelLength))];
    }
    TakeAll(top);
  }

  /** `generate_clarification_chips`, with the scoring loop and the
      in-place sort of `scored`. */
  method GenerateClarificationChips(sections: seq<SectionRow>, query: string) returns (chips: seq<Chip>)
    ensures chips == ClarificationChips(sections, query)
  {
    if sections == [] {
      return [];
    }
    var queryWords := QueryWords(query);
    var scored := ScoreSections(queryWords, sections);
    var top: seq<SectionRow>;
    if scored == [] {
      top := FirstFive(Filter(sections, IsLevel1));
    } else {
      scored := SortBy(scored, ScoreGe);
      top := SectionsOf(FirstFive(scored));
    }
    chips := MakeChips(top);
  }
}
