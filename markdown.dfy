/** Markdown table text as both table renderers build it: one line per row,
    `"| a | b |"`, a separator line of `---` cells under the header, each line
    followed by a newline while the text is accumulated, and the whole text
    stripped at the end. */
module Markdown {
  import opened Text

  /** `"| " + " | ".join(cells) + " |"`. */
  function RowLine(cells: seq<string>): (line: string)
    ensures |line| >= 4 && line[0] == '|' && line[|line| - 1] == '|'
  {
    "| " + Join(" | ", cells) + " |"
  }

  /** The header separator: one `---` cell per column. */
  function SeparatorLine(columns: nat): string
  {
    RowLine(seq(columns, _ => "---"))
  }

  /** The text accumulated by `md += line + "\n"` over `lines`. */
  function Accumulated(lines: seq<string>): string
  {
    if lines == [] then "" else Accumulated(lines[..|lines| - 1]) + lines[|lines| - 1] + "\n"
  }

  /** One more loop iteration appends one line and a newline. */
  lemma {:induction false} AccumulatedPrefix(lines: seq<string>, i: nat)
    requires i < |lines|
    ensures Accumulated(lines[..i + 1]) == Accumulated(lines[..i]) + lines[i] + "\n"
  {
    assert lines[..i + 1][..i] == lines[..i];
  }

  /** Every line is a rendered table row: it starts and ends with `|`. */
  predicate RowLines(lines: seq<string>)
  {
    forall k :: 0 <= k < |lines| ==> |lines[k]| >= 1 && lines[k][0] == '|' && lines[k][|lines[k]| - 1] == '|'
  }

  /** `text.split("\n")`. */
  function SplitLines(text: string): (lines: seq<string>)
    ensures |lines| >= 1
  {
    if text == [] then [""]
    else if text[0] == '\n' then [""] + SplitLines(text[1..])
    else
      var rest := SplitLines(text[1..]);
      [[text[0]] + rest[0]] + rest[1..]
  }

  lemma {:induction false} AccumulatedFirst(lines: seq<string>)
    requires lines != []
    ensures Accumulated(lines[..1]) == lines[0] + "\n"
  {
    assert lines[..1][..0] == [];
  }

  lemma {:induction false} AccumulatedWhole(lines: seq<string>)
    ensures Accumulated(lines[..|lines|]) == Accumulated(lines)
  {
    assert lines[..|lines|] == lines;
  }

  lemma {:induction false} AccumulatedIsJoin(lines: seq<string>)
    requires lines != []
    ensures Accumulated(lines) == Join("\n", lines) + "\n"
    decreases |lines|
  {
    var init := lines[..|lines| - 1];
    if |lines| == 1 {
      assert init == [];
    } else {
      AccumulatedIsJoin(init);
      JoinSnoc("\n", init, lines[|lines| - 1]);
      assert init + [lines[|lines| - 1]] == lines;
    }
  }

  lemma {:induction false} JoinSnoc(sep: string, parts: seq<string>, last: string)
    requires parts != []
    ensures Join(sep, parts + [last]) == Join(sep, parts) + sep + last
    decreases |parts|
  {
    if |parts| > 1 {
      JoinSnoc(sep, parts[1..], last);
      assert (parts + [last])[1..] == parts[1..] + [last];
    }
  }

  lemma {:induction false} JoinFirstLast(lines: seq<string>)
    requires lines != []
    requires forall k :: 0 <= k < |lines| ==> lines[k] != []
    ensures Join("\n", lines) != [] && Join("\n", lines)[0] == lines[0][0]
    ensures Join("\n", lines)[|Join("\n", lines)| - 1] == lines[|lines| - 1][|lines[|lines| - 1]| - 1]
    decreases |lines|
  {
    if |lines| > 1 {
      JoinFirstLast(lines[1..]);
    }
  }

  /** Stripping the accumulated text of non-empty rendered lines removes the
      final newline and nothing else, so the result is the lines joined by
      newlines. */
  lemma {:induction false} StripAccumulatedRows(lines: seq<string>)
    requires lines != []
    requires RowLines(lines)
    ensures Strip(Accumulated(lines)) == Join("\n", lines)
  {
    var j := Join("\n", lines);
    AccumulatedIsJoin(lines);
    JoinFirstLast(lines);
    var text := j + "\n";
    assert TrimStart(text) == text;
    assert text[..|text| - 1] == j;
    assert TrimEnd(text) == TrimEnd(j) == j;
  }

  /** A newline-free prefix before a newline is one line of the split. */
  lemma {:induction false} SplitLinesCons(a: string, b: string)
    requires '\n' !in a
    ensures SplitLines(a + "\n" + b) == [a] + SplitLines(b)
    decreases |a|
  {
    if a == [] {
      assert a + "\n" + b == "\n" + b;
      assert ("\n" + b)[1..] == b;
    } else {
      SplitLinesCons(a[1..], b);
      assert (a + "\n" + b)[1..] == a[1..] + "\n" + b;
      assert [a[0]] + a[1..] == a;
    }
  }

  lemma {:induction false} SplitLinesSingle(a: string)
    requires '\n' !in a
    ensures SplitLines(a) == [a]
    decreases |a|
  {
    if a != [] {
      SplitLinesSingle(a[1..]);
      assert [a[0]] + a[1..] == a;
    }
  }

  /** Splitting newline-joined lines that contain no newline gives the lines
      back. */
  lemma {:induction false} SplitJoinedLines(lines: seq<string>)
    requires lines != []
    requires forall k :: 0 <= k < |lines| ==> '\n' !in lines[k]
    ensures SplitLines(Join("\n", lines)) == lines
    decreases |lines|
  {
    if |lines| == 1 {
      SplitLinesSingle(lines[0]);
    } else {
      SplitJoinedLines(lines[1..]);
      SplitLinesCons(lines[0], Join("\n", lines[1..]));
    }
  }

  lemma {:induction false} JoinWithout(sep: string, parts: seq<string>, ch: char)
    requires ch !in sep
    requires forall k :: 0 <= k < |parts| ==> ch !in parts[k]
    ensures ch !in Join(sep, parts)
    decreases |parts|
  {
    if |parts| > 1 {
      JoinWithout(sep, parts[1..], ch);
    }
  }

  /** A row of newline-free cells renders to one line. */
  lemma {:induction false} RowLineWithoutNewline(cells: seq<string>)
    requires forall k :: 0 <= k < |cells| ==> '\n' !in cells[k]
    ensures '\n' !in RowLine(cells)
  {
    JoinWithout(" | ", cells, '\n');
  }
}
