/** The parts of Python's `str` that the modelled code relies on: `isspace`,
    `strip`, `split()`, `join`, `lower`, `replace("\n", " ")`, slicing with
    `[:n]` and the substring test `a in b`. Strings are sequences of
    characters. */
module Text {

  /** `c.isspace()`: the characters Python treats as whitespace. */
  predicate IsSpace(c: char)
  {
    var n := c as int;
    (9 <= n <= 13) || (0x1C <= n <= 0x20) || n == 0x85 || n == 0xA0 || n == 0x1680
    || (0x2000 <= n <= 0x200A) || n == 0x2028 || n == 0x2029 || n == 0x202F
    || n == 0x205F || n == 0x3000
  }

  /** True when `s` has no non-whitespace character (`not s.strip()`). */
  predicate IsBlank(s: string)
  {
    forall i :: 0 <= i < |s| ==> IsSpace(s[i])
  }

  /** `s.lstrip()`. */
  function TrimStart(s: string): string
  {
    if s != [] && IsSpace(s[0]) then TrimStart(s[1..]) else s
  }

  /** `s.lstrip()` is the suffix of `s` after its leading whitespace. */
  lemma {:induction false} TrimStartShape(s: string)
    ensures var r := TrimStart(s);
      && |r| <= |s| && r == s[|s| - |r|..]
      && (r != [] ==> !IsSpace(r[0]))
      && (forall i :: 0 <= i < |s| - |r| ==> IsSpace(s[i]))
  {
    if s != [] && IsSpace(s[0]) {
      var t := s[1..];
      TrimStartShape(t);
      var r := TrimStart(t);
      assert s[|s| - |r|..] == t[|t| - |r|..];
      forall i | 0 <= i < |s| - |r|
        ensures IsSpace(s[i])
      {
        if i > 0 {
          assert s[i] == t[i - 1];
        }
      }
    }
  }

  /** `s.rstrip()`. */
  function TrimEnd(s: string): string
  {
    if s != [] && IsSpace(s[|s| - 1]) then TrimEnd(s[..|s| - 1]) else s
  }

  /** `s.rstrip()` is the prefix of `s` before its trailing whitespace. */
  lemma {:induction false} TrimEndShape(s: string)
    ensures var r := TrimEnd(s);
      && |r| <= |s| && r == s[..|r|]
      && (r != [] ==> !IsSpace(r[|r| - 1]))
      && (forall i :: |r| <= i < |s| ==> IsSpace(s[i]))
  {
    if s != [] && IsSpace(s[|s| - 1]) {
      TrimEndShape(s[..|s| - 1]);
    }
  }

  /** `s.strip()`: `s` without its leading and trailing whitespace. */
  function Strip(s: string): string
  {
    TrimEnd(TrimStart(s))
  }

  /** `s.strip()` is a part of `s` that neither starts nor ends with
      whitespace. */
  lemma {:induction false} StripShape(s: string)
    ensures var r := Strip(s);
      && |r| <= |s|
      && (r != [] ==> !IsSpace(r[0]) && !IsSpace(r[|r| - 1]))
  {
    var t := TrimStart(s);
    TrimStartShape(s);
    TrimEndShape(t);
  }

  /** Every character of `s.strip()` comes from `s`. */
  lemma {:induction false} StripChars(s: string)
    ensures forall c :: c in Strip(s) ==> c in s
  {
    var t := TrimStart(s);
    var r := TrimEnd(t);
    TrimStartShape(s);
    TrimEndShape(t);
    forall c | c in r
      ensures c in s
    {
      var i :| 0 <= i < |r| && r[i] == c;
      assert c == t[i] == s[|s| - |t| + i];
    }
  }

  /** A string without surrounding whitespace is its own strip. */
  lemma {:induction false} StripUnchanged(s: string)
    requires s == [] || (!IsSpace(s[0]) && !IsSpace(s[|s| - 1]))
    ensures Strip(s) == s
  {
  }

  /** Stripping twice is stripping once. */
  lemma {:induction false} StripIdempotent(s: string)
    ensures Strip(Strip(s)) == Strip(s)
  {
    StripShape(s);
    StripUnchanged(Strip(s));
  }

  /** `s.strip()` is empty exactly when `s` is blank. */
  lemma {:induction false} StripEmptyIffBlank(s: string)
    ensures Strip(s) == [] <==> IsBlank(s)
  {
    var t := TrimStart(s);
    TrimStartShape(s);
    TrimEndShape(t);
    if t != [] {
      assert !IsSpace(s[|s| - |t|]);
    }
  }

  /** `sep.join(parts)`. */
  function Join(sep: string, parts: seq<string>): string
  {
    if parts == [] then ""
    else if |parts| == 1 then parts[0]
    else parts[0] + sep + Join(sep, parts[1..])
  }

  /** `s[:n]` for `n >= 0`. */
  function Take(s: string, n: nat): (r: string)
    ensures |r| == if |s| <= n then |s| else n
    ensures r == s[..|r|]
  {
    if |s| <= n then s else s[..n]
  }

  /** `c.lower()` for the ASCII letters. */
  function LowerChar(c: char): char
  {
    if 'A' <= c <= 'Z' then (c as int + 32) as char else c
  }

  /** `s.lower()` for text whose only cased letters are ASCII. */
  function Lower(s: string): (r: string)
    ensures |r| == |s|
    ensures forall i :: 0 <= i < |s| ==> r[i] == LowerChar(s[i])
  {
    seq(|s|, i requires 0 <= i < |s| => LowerChar(s[i]))
  }

  /** `s.replace("\n", " ")`. */
  function NewlinesToSpaces(s: string): (r: string)
    ensures |r| == |s|
    ensures '\n' !in r
    ensures forall i :: 0 <= i < |s| ==> r[i] == (if s[i] == '\n' then ' ' else s[i])
  {
    seq(|s|, i requires 0 <= i < |s| => if s[i] == '\n' then ' ' else s[i])
  }

  /** `needle` occurs in `hay` starting at position `i`. */
  predicate OccursAt(needle: string, hay: string, i: int)
  {
    0 <= i <= |hay| - |needle| && hay[i..i + |needle|] == needle
  }

  /** `needle in hay` for strings. */
  predicate IsSubstring(needle: string, hay: string)
  {
    exists i | 0 <= i <= |hay| - |needle| :: OccursAt(needle, hay, i)
  }

  /** The first word of `s`: its leading run of non-space characters. */
  function FirstWord(s: string): string
  {
    if s == [] || IsSpace(s[0]) then [] else [s[0]] + FirstWord(s[1..])
  }

  lemma {:induction false} FirstWordShape(s: string)
    ensures var w := FirstWord(s);
      && |w| <= |s| && w == s[..|w|]
      && (forall i :: 0 <= i < |w| ==> !IsSpace(w[i]))
      && (|w| < |s| ==> IsSpace(s[|w|]))
  {
    if s != [] && !IsSpace(s[0]) {
      FirstWordShape(s[1..]);
    }
  }

  /** `s.split()`: the maximal runs of non-whitespace characters, in order. */
  function Split(s: string): (words: seq<string>)
    ensures forall k :: 0 <= k < |words| ==> words[k] != []
    decreases |s|
  {
    var t := TrimStart(s);
    TrimStartShape(s);
    if t == [] then []
    else
      var w := FirstWord(t);
      FirstWordShape(t);
      [w] + Split(t[|w|..])
  }

  /** A prefix of the suffix of `s` from `start` occurs in `s` at `start`. */
  lemma {:induction false} OccursInSuffix(s: string, start: int, w: string)
    requires 0 <= start <= |s| && |w| <= |s| - start && w == s[start..][..|w|]
    ensures OccursAt(w, s, start)
  {
  }

  /** An occurrence in a suffix of `s` is an occurrence in `s`. */
  lemma {:induction false} OccursShift(s: string, off: int, rest: string, w: string, i: int)
    requires 0 <= off <= |s| && rest == s[off..] && OccursAt(w, rest, i)
    ensures OccursAt(w, s, off + i)
  {
    forall k | 0 <= k < |w|
      ensures s[off + i + k] == w[k]
    {
      assert rest[i + k] == w[k];
    }
  }

  /** One step of `s.split()` on text that is not blank: its first word,
      which occurs in `s` and ends at `next`, then the split of `s[next..]`. */
  lemma {:induction false} SplitStep(s: string) returns (first: string, next: nat)
    requires TrimStart(s) != []
    ensures 1 <= |first| <= next <= |s|
    ensures OccursAt(first, s, next - |first|)
    ensures Split(s) == [first] + Split(s[next..])
  {
    var t := TrimStart(s);
    TrimStartShape(s);
    FirstWordShape(t);
    first := FirstWord(t);
    assert !IsSpace(t[0]);
    next := |s| - |t| + |first|;
    OccursInSuffix(s, |s| - |t|, first);
    assert t[|first|..] == s[next..];
  }

  /** Every word `s.split()` returns is a substring of `s`. */
  lemma {:induction false} SplitWordsOccur(s: string, w: string)
    requires w in Split(s)
    ensures IsSubstring(w, s)
    decreases |s|
  {
    if TrimStart(s) != [] {
      var first, next := SplitStep(s);
      if w == first {
        assert OccursAt(w, s, next - |first|);
      } else {
        var rest := s[next..];
        assert w in Split(rest);
        SplitWordsOccur(rest, w);
        var i :| 0 <= i <= |rest| - |w| && OccursAt(w, rest, i);
        OccursShift(s, next, rest, w, i);
      }
    }
  }
}
