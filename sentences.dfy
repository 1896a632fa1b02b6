/** `_split_on_sentences` (backend/app/services/chunker.py): a character scan
    that cuts the text after `.`, `!` and `?`, then a greedy packing of the
    sentences into sub-chunks under a token budget, each new sub-chunk seeded
    with a whole-sentence overlap from the end of the previous one. The
    tokenizer is a parameter: nothing is assumed about how token counts of
    joined text relate to the counts of its parts. */
module Sentences {
  import opened Seqs
  import opened Text

  /** The tokenizer and the two limits of the chunker's settings. */
  datatype Budget = Budget(tokens: string -> nat, maxTokens: nat, overlapTokens: nat)

  // ---------------------------------------------------------------------
  // Sentence scan
  // ---------------------------------------------------------------------

  predicate IsTerminator(c: char)
  {
    c == '.' || c == '!' || c == '?'
  }

  /** The scan's state: the sentences so far, the raw pieces they were
      stripped from, and the characters read since the last cut. */
  datatype Scan = Scan(sentences: seq<string>, pieces: seq<string>, current: string)

  /** One character: it joins `current`; after a terminator, once `current`
      strips to more than one character, the stripped text is a sentence. */
  function ScanChar(st: Scan, c: char): Scan
  {
    var current := st.current + [c];
    if IsTerminator(c) && |Strip(current)| > 1 then
      Scan(st.sentences + [Strip(current)], st.pieces + [current], "")
    else
      Scan(st.sentences, st.pieces, current)
  }

  /** The scan state after the first `k` characters. */
  function ScanUpTo(text: string, k: nat): Scan
    requires k <= |text|
  {
    if k == 0 then Scan([], [], "")
    else ScanChar(ScanUpTo(text, k - 1), text[k - 1])
  }

  /** The sentences: the cut ones, then what is left if it is not blank. */
  function SentencesOf(text: string): seq<string>
  {
    var st := ScanUpTo(text, |text|);
    if Strip(st.current) != [] then st.sentences + [Strip(st.current)] else st.sentences
  }

  /** Stripping a string that ends in a non-space character keeps that
      character last. */
  lemma {:induction false} StripKeepsLast(s: string)
    requires s != [] && !IsSpace(s[|s| - 1])
    ensures Strip(s) != [] && Strip(s)[|Strip(s)| - 1] == s[|s| - 1]
  {
    var t := TrimStart(s);
    TrimStartShape(s);
    TrimEndShape(t);
    assert t != [];
    assert t[|t| - 1] == s[|s| - 1];
  }

  /** A cut sentence: its piece stripped, longer than one character, ending
      in its terminator. */
  predicate IsCut(sentence: string, piece: string)
  {
    sentence == Strip(piece) && |sentence| > 1 && IsTerminator(sentence[|sentence| - 1])
  }

  /** Each sentence is the cut of the piece at the same position. */
  predicate AllCut(sentences: seq<string>, pieces: seq<string>)
  {
    && |sentences| == |pieces|
    && forall i :: 0 <= i < |sentences| ==> IsCut(sentences[i], pieces[i])
  }

  /** What the scan keeps: the pieces and the unfinished rest spell the text
      out exactly, and each sentence is the cut of its piece. */
  predicate ScanKeeps(st: Scan, text: string)
  {
    AllCut(st.sentences, st.pieces) && Concat(st.pieces) + st.current == text
  }

  lemma {:induction false} AllCutSnoc(sentences: seq<string>, pieces: seq<string>, sentence: string, piece: string)
    requires AllCut(sentences, pieces) && IsCut(sentence, piece)
    ensures AllCut(sentences + [sentence], pieces + [piece])
  {
    var ss, ps := sentences + [sentence], pieces + [piece];
    forall i | 0 <= i < |ss|
      ensures IsCut(ss[i], ps[i])
    {
      if i < |sentences| {
        assert ss[i] == sentences[i] && ps[i] == pieces[i];
      }
    }
  }

  lemma {:induction false} ConcatSnoc(pieces: seq<string>, piece: string)
    ensures Concat(pieces + [piece]) == Concat(pieces) + piece
  {
    ConcatAppend(pieces, [piece]);
    assert [piece][1..] == [];
  }

  /** A cut keeps what the scan keeps. */
  lemma {:induction false} CutKeeps(st: Scan, text: string, c: char, sentence: string)
    requires ScanKeeps(st, text) && IsCut(sentence, st.current + [c])
    ensures ScanKeeps(Scan(st.sentences + [sentence], st.pieces + [st.current + [c]], ""), text + [c])
  {
    var current := st.current + [c];
    AllCutSnoc(st.sentences, st.pieces, sentence, current);
    ConcatSnoc(st.pieces, current);
    assert Concat(st.pieces) + current == (Concat(st.pieces) + st.current) + [c];
  }

  lemma {:induction false} ScanCharKeeps(st: Scan, text: string, c: char)
    requires ScanKeeps(st, text)
    ensures ScanKeeps(ScanChar(st, c), text + [c])
  {
    var current := st.current + [c];
    if IsTerminator(c) && |Strip(current)| > 1 {
      StripKeepsLast(current);
      CutKeeps(st, text, c, Strip(current));
    } else {
      assert Concat(st.pieces) + current == text + [c];
    }
  }

  lemma {:induction false} ScanUpToKeeps(text: string, k: nat)
    requires k <= |text|
    ensures ScanKeeps(ScanUpTo(text, k), text[..k])
  {
    if k > 0 {
      assert text[..k - 1] + [text[k - 1]] == text[..k];
      ScanUpToKeeps(text, k - 1);
      ScanCharKeeps(ScanUpTo(text, k - 1), text[..k - 1], text[k - 1]);
    }
  }

  /** The scan of the whole text keeps the text. */
  lemma {:induction false} ScanKeepsText(text: string)
    ensures ScanKeeps(ScanUpTo(text, |text|), text)
  {
    assert text[..|text|] == text;
    ScanUpToKeeps(text, |text|);
  }

  /** The sentences of a scan that keeps its cuts, with the stripped rest
      when it is not empty, are non-empty and stripped, and all but the last
      end in a terminator. */
  lemma {:induction false} CutsShape(st: Scan, ss: seq<string>)
    requires AllCut(st.sentences, st.pieces)
    requires ss == st.sentences || (Strip(st.current) != [] && ss == st.sentences + [Strip(st.current)])
    ensures forall i :: 0 <= i < |ss| ==> ss[i] != [] && Strip(ss[i]) == ss[i]
    ensures forall i :: 0 <= i < |ss| - 1 ==> IsTerminator(ss[i][|ss[i]| - 1])
  {
    forall i | 0 <= i < |ss|
      ensures ss[i] != [] && Strip(ss[i]) == ss[i]
    {
      if i < |st.sentences| {
        assert ss[i] == st.sentences[i] && IsCut(st.sentences[i], st.pieces[i]);
        StripIdempotent(st.pieces[i]);
      } else {
        StripIdempotent(st.current);
      }
    }
    forall i | 0 <= i < |ss| - 1
      ensures IsTerminator(ss[i][|ss[i]| - 1])
    {
      assert ss[i] == st.sentences[i] && IsCut(st.sentences[i], st.pieces[i]);
    }
  }

  /** Every sentence is non-empty and already stripped, and every sentence
      but the last ends in `.`, `!` or `?`. */
  lemma {:induction false} SentencesShape(text: string)
    ensures var ss := SentencesOf(text);
      && (forall i :: 0 <= i < |ss| ==> ss[i] != [] && Strip(ss[i]) == ss[i])
      && (forall i :: 0 <= i < |ss| - 1 ==> IsTerminator(ss[i][|ss[i]| - 1]))
  {
    ScanKeepsText(text);
    CutsShape(ScanUpTo(text, |text|), SentencesOf(text));
  }

  /** The scan loop of `_split_on_sentences`. */
  method ScanSentences(text: string) returns (sentences: seq<string>)
    ensures sentences == SentencesOf(text)
  {
    sentences := [];
    var current := "";
    for i := 0 to |text|
      invariant ScanUpTo(text, i).sentences == sentences
      invariant ScanUpTo(text, i).current == current
    {
      var c := text[i];
      current := current + [c];
      if IsTerminator(c) && |Strip(current)| > 1 {
        sentences := sentences + [Strip(current)];
        current := "";
      }
    }
    if Strip(current) != [] {
      sentences := sentences + [Strip(current)];
    }
  }

  // ---------------------------------------------------------------------
  // Packing
  // ---------------------------------------------------------------------

  /** The overlap taken from the first `j` sentences of `group`: walking back
      from sentence `j`, whole sentences while their token total stays within
      `budget`, stopping at the first that would exceed it. */
  function TailFrom(group: seq<string>, j: nat, tokens: string -> nat, budget: nat): seq<string>
    requires j <= |group|
  {
    if j == 0 then []
    else if tokens(group[j - 1]) > budget then []
    else TailFrom(group, j - 1, tokens, budget - tokens(group[j - 1])) + [group[j - 1]]
  }

  lemma {:induction false} TailFromSuffix(group: seq<string>, j: nat, tokens: string -> nat, budget: nat)
    requires j <= |group|
    ensures var tail := TailFrom(group, j, tokens, budget);
      |tail| <= j && tail == group[j - |tail|..j]
  {
    if j > 0 && tokens(group[j - 1]) <= budget {
      var init := TailFrom(group, j - 1, tokens, budget - tokens(group[j - 1]));
      TailFromSuffix(group, j - 1, tokens, budget - tokens(group[j - 1]));
      assert group[j - 1 - |init|..j] == group[j - 1 - |init|..j - 1] + [group[j - 1]];
    }
  }

  lemma {:induction false} TailFromWithin(group: seq<string>, j: nat, tokens: string -> nat, budget: nat)
    requires j <= |group|
    ensures SumOf(TailFrom(group, j, tokens, budget), tokens) <= budget
  {
    if j > 0 && tokens(group[j - 1]) <= budget {
      var init := TailFrom(group, j - 1, tokens, budget - tokens(group[j - 1]));
      TailFromWithin(group, j - 1, tokens, budget - tokens(group[j - 1]));
      SumOfAppend(init, [group[j - 1]], tokens);
    }
  }

  /** The walk back stops only at the first sentence that would take the
      total over `budget`, or at the start of the group. */
  lemma {:induction false} TailFromLongest(group: seq<string>, j: nat, tokens: string -> nat, budget: nat)
    requires j <= |group|
    ensures var tail := TailFrom(group, j, tokens, budget);
      |tail| <= j && (|tail| == j || SumOf(group[j - |tail| - 1..j], tokens) > budget)
  {
    if j > 0 {
      var t := tokens(group[j - 1]);
      if t > budget {
        assert group[j - 1..j] == [group[j - 1]];
        assert SumOf(group[j - 1..j], tokens) == t + SumOf(group[j..j], tokens);
      } else {
        var init := TailFrom(group, j - 1, tokens, budget - t);
        TailFromLongest(group, j - 1, tokens, budget - t);
        if |init| < j - 1 {
          var lo := j - 1 - |init| - 1;
          assert group[lo..j] == group[lo..j - 1] + [group[j - 1]];
          SumOfAppend(group[lo..j - 1], [group[j - 1]], tokens);
        }
      }
    }
  }

  /** The overlap carried from a closed sub-chunk into the next. */
  function OverlapTail(group: seq<string>, tokens: string -> nat, budget: nat): seq<string>
  {
    TailFrom(group, |group|, tokens, budget)
  }

  /** The overlap is the longest suffix of the sub-chunk's sentences
      (possibly none) whose token total is within the overlap budget: it is
      the whole group, or one more sentence would take it over. */
  lemma {:induction false} OverlapTailShape(group: seq<string>, tokens: string -> nat, budget: nat)
    ensures var tail := OverlapTail(group, tokens, budget);
      && |tail| <= |group| && tail == group[|group| - |tail|..] && SumOf(tail, tokens) <= budget
      && (|tail| == |group| || SumOf(group[|group| - |tail| - 1..], tokens) > budget)
  {
    TailFromSuffix(group, |group|, tokens, budget);
    TailFromWithin(group, |group|, tokens, budget);
    TailFromLongest(group, |group|, tokens, budget);
    assert group[..|group|] == group;
  }

  /** The packing state: closed sub-chunks and the sentences of the open one. */
  datatype Packing = Packing(groups: seq<seq<string>>, current: seq<string>)

  /** One sentence: when it would take the open sub-chunk over the limit and
      the sub-chunk is not empty, close it and start again from its overlap;
      then add the sentence. */
  function PackSentence(st: Packing, sentence: string, budget: Budget): Packing
  {
    if SumOf(st.current, budget.tokens) + budget.tokens(sentence) > budget.maxTokens && st.current != [] then
      Packing(st.groups + [st.current], OverlapTail(st.current, budget.tokens, budget.overlapTokens) + [sentence])
    else
      Packing(st.groups, st.current + [sentence])
  }

  function PackAll(sentences: seq<string>, budget: Budget): Packing
  {
    PackUpTo(sentences, |sentences|, budget)
  }

  /** The packing state after the first `k` sentences. */
  function PackUpTo(sentences: seq<string>, k: nat, budget: Budget): Packing
    requires k <= |sentences|
  {
    if k == 0 then Packing([], [])
    else PackSentence(PackUpTo(sentences, k - 1, budget), sentences[k - 1], budget)
  }

  /** The sentence groups of the sub-chunks, in order. */
  function Groups(sentences: seq<string>, budget: Budget): seq<seq<string>>
  {
    var st := PackAll(sentences, budget);
    if st.current != [] then st.groups + [st.current] else st.groups
  }

  /** Each group's sentences joined by single spaces. */
  function Joined(groups: seq<seq<string>>): (texts: seq<string>)
    ensures |texts| == |groups|
  {
    seq(|groups|, i requires 0 <= i < |groups| => Join(" ", groups[i]))
  }

  /** `_split_on_sentences`. */
  function SplitText(text: string, budget: Budget): seq<string>
  {
    Joined(Groups(SentencesOf(text), budget))
  }

  /** The sentences of `next` that `prev` did not already carry. */
  function FreshAfter(prev: seq<string>, next: seq<string>, budget: Budget): seq<string>
  {
    var k := |OverlapTail(prev, budget.tokens, budget.overlapTokens)|;
    if k <= |next| then next[k..] else []
  }

  /** Every sentence of the groups once: the whole first group, then what
      each later group adds beyond its overlap. */
  function Fresh(groups: seq<seq<string>>, budget: Budget): seq<string>
  {
    FreshUpTo(groups, |groups|, budget)
  }

  function FreshUpTo(groups: seq<seq<string>>, n: nat, budget: Budget): seq<string>
    requires n <= |groups|
  {
    if n == 0 then []
    else if n == 1 then groups[0]
    else FreshUpTo(groups, n - 1, budget) + FreshAfter(groups[n - 2], groups[n - 1], budget)
  }

  lemma {:induction false} FreshUpToPrefix(groups: seq<seq<string>>, more: seq<seq<string>>, n: nat, budget: Budget)
    requires n <= |groups|
    ensures FreshUpTo(groups + more, n, budget) == FreshUpTo(groups, n, budget)
  {
    if n > 1 {
      FreshUpToPrefix(groups, more, n - 1, budget);
      assert (groups + more)[n - 2] == groups[n - 2] && (groups + more)[n - 1] == groups[n - 1];
    } else if n == 1 {
      assert (groups + more)[0] == groups[0];
    }
  }

  /** `next` follows `prev` as the packing makes it: it starts with the
      overlap of `prev`, adds at least one sentence, and the first sentence
      it adds would have taken `prev` over the limit. */
  predicate Link(prev: seq<string>, next: seq<string>, budget: Budget)
  {
    var tail := OverlapTail(prev, budget.tokens, budget.overlapTokens);
    && |tail| < |next|
    && next[..|tail|] == tail
    && SumOf(prev, budget.tokens) + budget.tokens(next[|tail|]) > budget.maxTokens
  }

  predicate Chained(groups: seq<seq<string>>, budget: Budget)
  {
    forall i :: 0 <= i < |groups| - 1 ==> Link(groups[i], groups[i + 1], budget)
  }

  predicate PackInvariant(st: Packing, processed: seq<string>, budget: Budget)
  {
    && (forall k :: 0 <= k < |st.groups| ==> st.groups[k] != [])
    && (st.current == [] ==> st.groups == [] && processed == [])
    && (st.current != [] ==>
          Chained(st.groups + [st.current], budget) && Fresh(st.groups + [st.current], budget) == processed)
  }

  lemma {:induction false} ChainedSnoc(groups: seq<seq<string>>, next: seq<string>, budget: Budget)
    requires Chained(groups, budget)
    requires groups != [] ==> Link(groups[|groups| - 1], next, budget)
    ensures Chained(groups + [next], budget)
  {
    var all := groups + [next];
    forall i | 0 <= i < |all| - 1
      ensures Link(all[i], all[i + 1], budget)
    {
      assert all[i] == groups[i];
      if i < |groups| - 1 {
        assert all[i + 1] == groups[i + 1];
      }
    }
  }

  lemma {:induction false} ChainedInit(groups: seq<seq<string>>, last: seq<string>, budget: Budget)
    requires Chained(groups + [last], budget)
    ensures Chained(groups, budget)
    ensures groups != [] ==> Link(groups[|groups| - 1], last, budget)
  {
    var all := groups + [last];
    forall i | 0 <= i < |groups| - 1
      ensures Link(groups[i], groups[i + 1], budget)
    {
      assert all[i] == groups[i] && all[i + 1] == groups[i + 1];
    }
    if groups != [] {
      assert all[|groups| - 1] == groups[|groups| - 1] && all[|groups|] == last;
    }
  }

  lemma {:induction false} FreshSnoc(groups: seq<seq<string>>, next: seq<string>, budget: Budget)
    requires groups != []
    ensures Fresh(groups + [next], budget) == Fresh(groups, budget) + FreshAfter(groups[|groups| - 1], next, budget)
  {
    var all := groups + [next];
    FreshUpToPrefix(groups, [next], |groups|, budget);
    assert all[|groups| - 1] == groups[|groups| - 1] && all[|groups|] == next;
  }

  lemma {:induction false} LinkExtend(prev: seq<string>, next: seq<string>, sentence: string, budget: Budget)
    requires Link(prev, next, budget)
    ensures Link(prev, next + [sentence], budget)
    ensures FreshAfter(prev, next + [sentence], budget) == FreshAfter(prev, next, budget) + [sentence]
  {
    var tail := OverlapTail(prev, budget.tokens, budget.overlapTokens);
    assert (next + [sentence])[..|tail|] == next[..|tail|];
    assert (next + [sentence])[|tail|] == next[|tail|];
    assert (next + [sentence])[|tail|..] == next[|tail|..] + [sentence];
  }

  /** Closing the open group and starting again from its overlap. */
  lemma {:induction false} FlushKeeps(st: Packing, processed: seq<string>, sentence: string, budget: Budget)
    requires PackInvariant(st, processed, budget)
    requires st.current != []
    requires SumOf(st.current, budget.tokens) + budget.tokens(sentence) > budget.maxTokens
    ensures var tail := OverlapTail(st.current, budget.tokens, budget.overlapTokens);
      PackInvariant(Packing(st.groups + [st.current], tail + [sentence]), processed + [sentence], budget)
  {
    var all := st.groups + [st.current];
    var tail := OverlapTail(st.current, budget.tokens, budget.overlapTokens);
    var next := tail + [sentence];
    assert next[..|tail|] == tail && next[|tail|] == sentence;
    assert Link(st.current, next, budget);
    ChainedSnoc(all, next, budget);
    FreshSnoc(all, next, budget);
    assert next[|tail|..] == [sentence];
  }

  /** Adding the sentence to the open group. */
  lemma {:induction false} ExtendKeeps(st: Packing, processed: seq<string>, sentence: string, budget: Budget)
    requires PackInvariant(st, processed, budget)
    ensures PackInvariant(Packing(st.groups, st.current + [sentence]), processed + [sentence], budget)
  {
    var next := st.current + [sentence];
    if st.current == [] {
      StartKeeps(sentence, budget);
      assert next == [sentence] && processed == [] && st.groups == [];
    } else if st.groups == [] {
      SingleKeeps(st.current, sentence, budget);
      assert st.groups + [next] == [next];
      assert st.groups + [st.current] == [st.current];
    } else {
      LinkedKeeps(st, processed, sentence, budget);
    }
  }

  /** Adding the sentence to an open group that follows closed ones. */
  lemma {:induction false} LinkedKeeps(st: Packing, processed: seq<string>, sentence: string, budget: Budget)
    requires PackInvariant(st, processed, budget)
    requires st.groups != [] && st.current != []
    ensures PackInvariant(Packing(st.groups, st.current + [sentence]), processed + [sentence], budget)
  {
    ChainedInit(st.groups, st.current, budget);
    LinkedChained(st.groups, st.current, sentence, budget);
    LinkedFresh(st.groups, st.current, sentence, budget);
  }

  lemma {:induction false} LinkedChained(groups: seq<seq<string>>, current: seq<string>, sentence: string, budget: Budget)
    requires groups != [] && Chained(groups, budget) && Link(groups[|groups| - 1], current, budget)
    ensures Chained(groups + [current + [sentence]], budget)
  {
    LinkExtend(groups[|groups| - 1], current, sentence, budget);
    ChainedSnoc(groups, current + [sentence], budget);
  }

  lemma {:induction false} LinkedFresh(groups: seq<seq<string>>, current: seq<string>, sentence: string, budget: Budget)
    requires groups != [] && Link(groups[|groups| - 1], current, budget)
    ensures Fresh(groups + [current + [sentence]], budget) == Fresh(groups + [current], budget) + [sentence]
  {
    LinkExtend(groups[|groups| - 1], current, sentence, budget);
    FreshSnoc(groups, current, budget);
    FreshSnoc(groups, current + [sentence], budget);
  }

  lemma {:induction false} StartKeeps(sentence: string, budget: Budget)
    ensures PackInvariant(Packing([], [sentence]), [sentence], budget)
  {
    assert [] + [[sentence]] == [[sentence]];
    assert Fresh([[sentence]], budget) == [sentence];
  }

  lemma {:induction false} SingleKeeps(current: seq<string>, sentence: string, budget: Budget)
    ensures Chained([current + [sentence]], budget)
    ensures Fresh([current], budget) == current
    ensures Fresh([current + [sentence]], budget) == current + [sentence]
  {
  }

  lemma {:induction false} PackSentenceKeeps(st: Packing, processed: seq<string>, sentence: string, budget: Budget)
    requires PackInvariant(st, processed, budget)
    ensures PackInvariant(PackSentence(st, sentence, budget), processed + [sentence], budget)
  {
    if SumOf(st.current, budget.tokens) + budget.tokens(sentence) > budget.maxTokens && st.current != [] {
      FlushKeeps(st, processed, sentence, budget);
    } else {
      ExtendKeeps(st, processed, sentence, budget);
    }
  }

  lemma {:induction false} PackUpToKeeps(sentences: seq<string>, k: nat, budget: Budget)
    requires k <= |sentences|
    ensures PackInvariant(PackUpTo(sentences, k, budget), sentences[..k], budget)
  {
    if k > 0 {
      var before := sentences[..k - 1];
      assert before + [sentences[k - 1]] == sentences[..k];
      PackUpToKeeps(sentences, k - 1, budget);
      PackSentenceKeeps(PackUpTo(sentences, k - 1, budget), before, sentences[k - 1], budget);
    }
  }

  lemma {:induction false} PackAllKeeps(sentences: seq<string>, budget: Budget)
    ensures PackInvariant(PackAll(sentences, budget), sentences, budget)
  {
    PackUpToKeeps(sentences, |sentences|, budget);
    assert sentences[..|sentences|] == sentences;
  }

  /** The sentences a group starts with before its first fresh one: none
      for the first group, the previous group's overlap for the others. */
  function OverlapLen(groups: seq<seq<string>>, i: nat, budget: Budget): nat
    requires i < |groups|
  {
    if i == 0 then 0 else |OverlapTail(groups[i - 1], budget.tokens, budget.overlapTokens)|
  }

  /** Every sentence of `g` after its first fresh one (position `k`) was
      added because it still fitted: the sentences before it plus its own
      count stay within the limit. */
  predicate Fitted(g: seq<string>, k: nat, budget: Budget)
  {
    forall p :: k < p < |g| ==> SumOf(g[..p], budget.tokens) + budget.tokens(g[p]) <= budget.maxTokens
  }

  /** The packing is greedy: in every group, every sentence after the first
      fresh one fitted when it was added. */
  predicate Greedy(groups: seq<seq<string>>, budget: Budget)
  {
    forall i :: 0 <= i < |groups| ==> Fitted(groups[i], OverlapLen(groups, i, budget), budget)
  }

  predicate GreedyInvariant(st: Packing, budget: Budget)
  {
    && (st.current == [] ==> st.groups == [])
    && (st.current != [] ==> Greedy(st.groups + [st.current], budget))
  }

  lemma {:induction false} GreedySnoc(groups: seq<seq<string>>, next: seq<string>, budget: Budget)
    requires Greedy(groups, budget)
    requires Fitted(next, if groups == [] then 0 else |OverlapTail(groups[|groups| - 1], budget.tokens, budget.overlapTokens)|, budget)
    ensures Greedy(groups + [next], budget)
  {
    var all := groups + [next];
    forall i | 0 <= i < |all|
      ensures Fitted(all[i], OverlapLen(all, i, budget), budget)
    {
      if i < |groups| {
        assert all[i] == groups[i];
        if i > 0 { assert all[i - 1] == groups[i - 1]; }
        assert OverlapLen(all, i, budget) == OverlapLen(groups, i, budget);
      } else {
        assert all[i] == next;
        if i > 0 { assert all[i - 1] == groups[|groups| - 1]; }
      }
    }
  }

  lemma {:induction false} GreedyInit(groups: seq<seq<string>>, last: seq<string>, budget: Budget)
    requires Greedy(groups + [last], budget)
    ensures Greedy(groups, budget)
    ensures Fitted(last, if groups == [] then 0 else |OverlapTail(groups[|groups| - 1], budget.tokens, budget.overlapTokens)|, budget)
  {
    var all := groups + [last];
    forall i | 0 <= i < |groups|
      ensures Fitted(groups[i], OverlapLen(groups, i, budget), budget)
    {
      assert all[i] == groups[i];
      if i > 0 { assert all[i - 1] == groups[i - 1]; }
      assert OverlapLen(all, i, budget) == OverlapLen(groups, i, budget);
    }
    assert all[|groups|] == last;
    if groups != [] { assert all[|groups| - 1] == groups[|groups| - 1]; }
    assert Fitted(all[|groups|], OverlapLen(all, |groups|, budget), budget);
  }

  /** A sentence added to the open group because it fits keeps it fitted. */
  lemma {:induction false} FittedSnoc(g: seq<string>, k: nat, sentence: string, budget: Budget)
    requires Fitted(g, k, budget)
    requires SumOf(g, budget.tokens) + budget.tokens(sentence) <= budget.maxTokens
    ensures Fitted(g + [sentence], k, budget)
  {
    var h := g + [sentence];
    forall p | k < p < |h|
      ensures SumOf(h[..p], budget.tokens) + budget.tokens(h[p]) <= budget.maxTokens
    {
      if p < |g| {
        assert h[..p] == g[..p] && h[p] == g[p];
      } else {
        assert h[..p] == g && h[p] == sentence;
      }
    }
  }

  lemma {:induction false} PackSentenceGreedy(st: Packing, sentence: string, budget: Budget)
    requires GreedyInvariant(st, budget)
    ensures GreedyInvariant(PackSentence(st, sentence, budget), budget)
  {
    var tokens := budget.tokens;
    if SumOf(st.current, tokens) + tokens(sentence) > budget.maxTokens && st.current != [] {
      var tail := OverlapTail(st.current, tokens, budget.overlapTokens);
      var all := st.groups + [st.current];
      assert all[|all| - 1] == st.current;
      GreedySnoc(all, tail + [sentence], budget);
    } else if st.current == [] {
      assert st.groups + [[sentence]] == [[sentence]];
      GreedySnoc([], [sentence], budget);
      assert st.current + [sentence] == [sentence];
    } else {
      GreedyInit(st.groups, st.current, budget);
      var k := if st.groups == [] then 0 else |OverlapTail(st.groups[|st.groups| - 1], tokens, budget.overlapTokens)|;
      FittedSnoc(st.current, k, sentence, budget);
      GreedySnoc(st.groups, st.current + [sentence], budget);
    }
  }

  lemma {:induction false} PackUpToGreedy(sentences: seq<string>, k: nat, budget: Budget)
    requires k <= |sentences|
    ensures GreedyInvariant(PackUpTo(sentences, k, budget), budget)
  {
    if k > 0 {
      PackUpToGreedy(sentences, k - 1, budget);
      PackSentenceGreedy(PackUpTo(sentences, k - 1, budget), sentences[k - 1], budget);
    }
  }

  /** A group that adds more than one fresh sentence fits the limit as a
      whole. */
  lemma {:induction false} FittedWithin(g: seq<string>, k: nat, budget: Budget)
    requires Fitted(g, k, budget) && |g| > k + 1
    ensures SumOf(g, budget.tokens) <= budget.maxTokens
  {
    var p := |g| - 1;
    assert g == g[..p] + [g[p]];
    SumOfAppend(g[..p], [g[p]], budget.tokens);
  }

  /** The packing is greedy: every sentence after a sub-chunk's first fresh
      one was added because it still fitted, so a sub-chunk that adds two
      or more sentences beyond its overlap is within the limit. Together
      with `Chained`, a sub-chunk closes exactly when the next sentence
      would not fit. */
  lemma {:induction false} GroupsFitGreedily(sentences: seq<string>, budget: Budget)
    ensures Greedy(Groups(sentences, budget), budget)
    ensures var gs := Groups(sentences, budget);
      forall i :: 0 <= i < |gs| && |gs[i]| > OverlapLen(gs, i, budget) + 1 ==>
        SumOf(gs[i], budget.tokens) <= budget.maxTokens
  {
    PackUpToGreedy(sentences, |sentences|, budget);
    var gs := Groups(sentences, budget);
    forall i | 0 <= i < |gs| && |gs[i]| > OverlapLen(gs, i, budget) + 1
      ensures SumOf(gs[i], budget.tokens) <= budget.maxTokens
    {
      FittedWithin(gs[i], OverlapLen(gs, i, budget), budget);
    }
  }

  /** The packing's promises: no group is empty; consecutive groups overlap
      by the previous group's overlap tail (whose token total is within the
      overlap budget, and which may be empty), each adds at least one
      sentence, and a group closes only when the next sentence would have
      taken it over the limit, while every later sentence of a group was
      added because it still fitted; reading each sentence once gives back
      the input. */
  lemma {:induction false} GroupsPartitionSentences(sentences: seq<string>, budget: Budget)
    ensures forall k :: 0 <= k < |Groups(sentences, budget)| ==> Groups(sentences, budget)[k] != []
    ensures Chained(Groups(sentences, budget), budget)
    ensures Greedy(Groups(sentences, budget), budget)
    ensures Fresh(Groups(sentences, budget), budget) == sentences
  {
    PackAllKeeps(sentences, budget);
    GroupsFitGreedily(sentences, budget);
  }

  /** Text with no sentences gives no sub-chunk, and text with some gives at
      least one. */
  lemma {:induction false} GroupsEmptyIff(sentences: seq<string>, budget: Budget)
    ensures Groups(sentences, budget) == [] <==> sentences == []
  {
    PackAllKeeps(sentences, budget);
  }

  /** The reversed loop that rebuilds the overlap with `insert(0, s)`. */
  method TakeOverlap(group: seq<string>, tokens: string -> nat, budget: nat)
    returns (overlap: seq<string>, count: nat)
    ensures overlap == OverlapTail(group, tokens, budget)
    ensures count == SumOf(overlap, tokens)
  {
    overlap, count := [], 0;
    var j := |group|;
    while j > 0
      invariant 0 <= j <= |group|
      invariant count == SumOf(overlap, tokens) && count <= budget
      invariant TailFrom(group, |group|, tokens, budget) == TailFrom(group, j, tokens, budget - count) + overlap
    {
      var s := group[j - 1];
      var t := tokens(s);
      if count + t > budget {
        break;
      }
      overlap, count := PrependSentence(group, j, tokens, budget, overlap, count);
      j := j - 1;
    }
  }

  /** One turn of the overlap loop that keeps the sentence before `j`. */
  method PrependSentence(group: seq<string>, j: nat, tokens: string -> nat, budget: nat, overlap: seq<string>, count: nat)
    returns (overlap': seq<string>, count': nat)
    requires 0 < j <= |group| && count + tokens(group[j - 1]) <= budget
    requires count == SumOf(overlap, tokens)
    requires TailFrom(group, |group|, tokens, budget) == TailFrom(group, j, tokens, budget - count) + overlap
    ensures count' == SumOf(overlap', tokens) && count' <= budget
    ensures TailFrom(group, |group|, tokens, budget) == TailFrom(group, j - 1, tokens, budget - count') + overlap'
  {
    var s := group[j - 1];
    overlap' := [s] + overlap;
    count' := count + tokens(s);
    assert TailFrom(group, j, tokens, budget - count) == TailFrom(group, j - 1, tokens, budget - count') + [s];
    assert ([s] + overlap)[1..] == overlap;
  }

  /** One turn of the packing loop: close the open sub-chunk into `chunks`
      when the sentence does not fit, carrying its overlap, then add the
      sentence. */
  method PackStep(ghost groups: seq<seq<string>>, chunks: seq<string>, current: seq<string>, currentTokens: nat,
                  sentence: string, budget: Budget)
    returns (ghost groups': seq<seq<string>>, chunks': seq<string>, current': seq<string>, currentTokens': nat)
    requires currentTokens == SumOf(current, budget.tokens) && chunks == Joined(groups)
    ensures Packing(groups', current') == PackSentence(Packing(groups, current), sentence, budget)
    ensures chunks' == Joined(groups') && currentTokens' == SumOf(current', budget.tokens)
  {
    var sentenceTokens := budget.tokens(sentence);
    groups', chunks', current', currentTokens' := groups, chunks, current, currentTokens;
    if currentTokens + sentenceTokens > budget.maxTokens && current != [] {
      groups' := groups + [current];
      chunks' := chunks + [Join(" ", current)];
      JoinedSnoc(groups, current);
      current', currentTokens' := TakeOverlap(current, budget.tokens, budget.overlapTokens);
    }
    SumOfAppend(current', [sentence], budget.tokens);
    current' := current' + [sentence];
    currentTokens' := currentTokens' + sentenceTokens;
  }

  lemma {:induction false} JoinedSnoc(groups: seq<seq<string>>, group: seq<string>)
    ensures Joined(groups + [group]) == Joined(groups) + [Join(" ", group)]
  {
    var all := groups + [group];
    assert forall i :: 0 <= i < |groups| ==> all[i] == groups[i];
  }

  /** `_split_on_sentences`, as the loops of the source run it. */
  method SplitOnSentences(text: string, budget: Budget) returns (chunks: seq<string>)
    ensures chunks == SplitText(text, budget)
  {
    var sentences := ScanSentences(text);
    chunks := [];
    var currentChunk: seq<string> := [];
    var currentTokens := 0;
    ghost var groups: seq<seq<string>> := [];
    for k := 0 to |sentences|
      invariant Packing(groups, currentChunk) == PackUpTo(sentences, k, budget)
      invariant currentTokens == SumOf(currentChunk, budget.tokens)
      invariant chunks == Joined(groups)
    {
      groups, chunks, currentChunk, currentTokens := PackStep(groups, chunks, currentChunk, currentTokens, sentences[k], budget);
    }
    if currentChunk != [] {
      JoinedSnoc(groups, currentChunk);
      chunks := chunks + [Join(" ", currentChunk)];
      groups := groups + [currentChunk];
    }
  }
}
