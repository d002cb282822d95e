// whitespaceTokenizer of src/lib/tokenizer.ts: `text.trim().split(/\s+/)
// .filter(Boolean)`, written as the three string steps it chains, and
// proved equal to the maximal non-whitespace runs of the text.

module Tokenizer {
  import opened Text

  predicate NoWhitespace(s: string) { forall i :: 0 <= i < |s| ==> !IsWhitespace(s[i]) }

  predicate AllWhitespace(s: string) { forall i :: 0 <= i < |s| ==> IsWhitespace(s[i]) }

  /** String.prototype.trimEnd. */
  function TrimEnd(s: string): (t: string)
    ensures |t| <= |s| && t == s[..|t|]
    ensures |t| > 0 ==> !IsWhitespace(t[|t| - 1])
    ensures AllWhitespace(s[|t|..])
  {
    if |s| > 0 && IsWhitespace(s[|s| - 1]) then
      var t := TrimEnd(s[..|s| - 1]);
      assert s[|t|..] == s[..|s| - 1][|t|..] + [s[|s| - 1]];
      t
    else s
  }

  /** String.prototype.trim: white space and line terminators off both ends. */
  function Trim(s: string): string { TrimEnd(TrimStart(s)) }

  /** What trimStart removes is white space. */
  lemma {:induction false} TrimStartDropsWhitespace(s: string)
    ensures AllWhitespace(s[..|s| - |TrimStart(s)|])
  {
    if |s| > 0 && IsWhitespace(s[0]) {
      var r := s[1..];
      TrimStartDropsWhitespace(r);
      assert TrimStart(s) == TrimStart(r);
      WhitespaceCons(s, |s| - |TrimStart(r)|);
    }
  }

  lemma {:induction false} WhitespaceCons(s: string, n: nat)
    requires 1 <= n <= |s| && IsWhitespace(s[0]) && AllWhitespace(s[1..][..n - 1])
    ensures AllWhitespace(s[..n])
  {
    forall i | 1 <= i < n
      ensures IsWhitespace(s[i])
    {
      assert s[i] == s[1..][..n - 1][i - 1];
    }
  }

  /** The longest prefix holding no white space. */
  function Run(s: string): (w: string)
    ensures |w| <= |s| && w == s[..|w|] && NoWhitespace(w)
    ensures |w| < |s| ==> IsWhitespace(s[|w|])
  {
    if |s| > 0 && !IsWhitespace(s[0]) then [s[0]] + Run(s[1..]) else ""
  }

  /**
   * `split(/\s+/)`: every maximal run of white space separates two pieces,
   * so a leading or trailing run leaves an empty piece at that end, and the
   * empty string splits into one empty piece.
   */
  function SplitWs(s: string): (parts: seq<string>)
    ensures |parts| >= 1
    decreases |s|
  {
    var w := Run(s);
    if |w| == |s| then [s]
    else
      var rest := s[|w|..];
      assert rest[0] == s[|w|] && IsWhitespace(rest[0]);
      var t := TrimStart(rest);
      assert t == TrimStart(rest[1..]);
      [w] + SplitWs(t)
  }

  /** `filter(Boolean)`: the empty string is the only falsy string. */
  function NonEmpty(parts: seq<string>): (r: seq<string>)
    ensures forall k :: 0 <= k < |r| ==> |r[k]| > 0
  {
    if |parts| == 0 then []
    else if |parts[0]| == 0 then NonEmpty(parts[1..])
    else [parts[0]] + NonEmpty(parts[1..])
  }

  /** whitespaceTokenizer. */
  function WhitespaceTokenizer(text: string): (r: seq<string>)
    ensures forall k :: 0 <= k < |r| ==> |r[k]| > 0
  {
    NonEmpty(SplitWs(Trim(text)))
  }

  // ----- the reference: maximal runs -----

  /** The maximal non-whitespace runs of s, left to right. */
  function Words(s: string): (r: seq<string>)
    ensures forall k :: 0 <= k < |r| ==> |r[k]| > 0 && NoWhitespace(r[k])
    decreases |s|
  {
    if |s| == 0 then []
    else if IsWhitespace(s[0]) then Words(s[1..])
    else
      var w := Run(s);
      [w] + Words(s[|w|..])
  }

  /** The white space before, between and after the runs (the first and last may be empty). */
  function Gaps(s: string): (g: seq<string>)
    ensures |g| == |Words(s)| + 1
    decreases |s|
  {
    if |s| == 0 then [""]
    else if IsWhitespace(s[0]) then
      var g := Gaps(s[1..]);
      [[s[0]] + g[0]] + g[1..]
    else
      var w := Run(s);
      [""] + Gaps(s[|w|..])
  }

  /** gaps[0] + words[0] + gaps[1] + … + words[n-1] + gaps[n]. */
  function Interleave(gaps: seq<string>, words: seq<string>): string
    requires |gaps| == |words| + 1
  {
    if |words| == 0 then gaps[0]
    else gaps[0] + words[0] + Interleave(gaps[1..], words[1..])
  }

  // ----- the tokenizer is the maximal runs -----

  /** Leading white space adds no run. */
  lemma {:induction false} WordsSkipWhitespace(a: string, b: string)
    requires AllWhitespace(a)
    ensures Words(a + b) == Words(b)
    decreases |a|
  {
    if |a| > 0 {
      assert (a + b)[0] == a[0];
      assert (a + b)[1..] == a[1..] + b;
      WordsSkipWhitespace(a[1..], b);
    } else {
      assert a + b == b;
    }
  }

  lemma {:induction false} WordsAfterTrimStart(s: string)
    ensures Words(TrimStart(s)) == Words(s)
  {
    TrimStartDropsWhitespace(s);
    var t := TrimStart(s);
    assert s == s[..|s| - |t|] + t;
    WordsSkipWhitespace(s[..|s| - |t|], t);
  }

  lemma {:induction false} NonEmptyCons(p: string, rest: seq<string>)
    ensures NonEmpty([p] + rest) == if |p| == 0 then NonEmpty(rest) else [p] + NonEmpty(rest)
  {
    assert ([p] + rest)[1..] == rest;
  }

  /** Splitting on white space runs and dropping the empty pieces gives the runs, whatever the ends hold. */
  lemma {:induction false} FilterSplitIsWords(x: string)
    ensures NonEmpty(SplitWs(x)) == Words(x)
    decreases |x|
  {
    var w := Run(x);
    if |w| == |x| {
      assert SplitWs(x) == [x];
      NonEmptyCons(x, []);
      assert [x] + [] == [x];
      if |x| > 0 {
        assert w == x && x[|w|..] == "";
      }
    } else {
      var rest := TrimStart(x[|w|..]);
      assert SplitWs(x) == [w] + SplitWs(rest);
      FilterSplitIsWords(rest);
      NonEmptyCons(w, SplitWs(rest));
      WordsAfterTrimStart(x[|w|..]);
      if |w| == 0 {
        assert x[|w|..] == x;
      }
    }
  }

  lemma {:induction false} AllWhitespaceNoWords(b: string)
    requires AllWhitespace(b)
    ensures Words(b) == []
    decreases |b|
  {
    if |b| > 0 {
      AllWhitespaceNoWords(b[1..]);
    }
  }

  /** A run of t + b, with b all white space, ends where the run of t ends. */
  lemma {:induction false} RunOfAppend(t: string, b: string)
    requires AllWhitespace(b)
    ensures Run(t + b) == Run(t)
  {
    if |t| > 0 {
      assert (t + b)[0] == t[0];
      assert (t + b)[1..] == t[1..] + b;
      RunOfAppend(t[1..], b);
    } else {
      assert t + b == b;
    }
  }

  /** Trailing white space adds no run. */
  lemma {:induction false} WordsDropTrailing(a: string, b: string)
    requires AllWhitespace(b)
    ensures Words(a + b) == Words(a)
    decreases |a|
  {
    if |a| == 0 {
      assert a + b == b;
      AllWhitespaceNoWords(b);
    } else {
      assert (a + b)[0] == a[0];
      if IsWhitespace(a[0]) {
        assert (a + b)[1..] == a[1..] + b;
        WordsDropTrailing(a[1..], b);
      } else {
        var w := Run(a);
        RunOfAppend(a, b);
        assert (a + b)[|w|..] == a[|w|..] + b;
        WordsDropTrailing(a[|w|..], b);
      }
    }
  }

  /** The tokenizer returns exactly the maximal non-whitespace runs, in order. */
  lemma {:induction false} TokensAreRuns(text: string)
    ensures WhitespaceTokenizer(text) == Words(text)
  {
    var t := TrimStart(text);
    FilterSplitIsWords(TrimEnd(t));
    WordsAfterTrimEnd(t);
    WordsAfterTrimStart(text);
  }

  /** trimEnd keeps the runs. */
  lemma {:induction false} WordsAfterTrimEnd(t: string)
    ensures Words(TrimEnd(t)) == Words(t)
  {
    var u := TrimEnd(t);
    assert t == u + t[|u|..];
    WordsDropTrailing(u, t[|u|..]);
  }

  /** No token is empty and none holds white space. */
  lemma {:induction false} TokensNonEmptyNoWhitespace(text: string)
    ensures forall k :: 0 <= k < |WhitespaceTokenizer(text)| ==>
      |WhitespaceTokenizer(text)[k]| > 0 && NoWhitespace(WhitespaceTokenizer(text)[k])
  {
    TokensAreRuns(text);
  }

  lemma {:induction false} NoWordsIffBlank(s: string)
    ensures Words(s) == [] <==> AllWhitespace(s)
    decreases |s|
  {
    if |s| > 0 {
      NoWordsIffBlank(s[1..]);
      if IsWhitespace(s[0]) {
        assert AllWhitespace(s) <==> AllWhitespace(s[1..]);
      }
    }
  }

  /** The tokenizer returns [] exactly for empty or all-whitespace text. */
  lemma {:induction false} NoTokensIffBlank(text: string)
    ensures WhitespaceTokenizer(text) == [] <==> AllWhitespace(text)
  {
    TokensAreRuns(text);
    NoWordsIffBlank(text);
  }

  /** A character put in front of the first gap comes first in the interleaving. */
  lemma {:induction false} InterleavePrepend(c: char, g: seq<string>, ws: seq<string>)
    requires |g| == |ws| + 1
    ensures Interleave([[c] + g[0]] + g[1..], ws) == [c] + Interleave(g, ws)
  {
    var g2 := [[c] + g[0]] + g[1..];
    if |ws| > 0 {
      assert g2[1..] == g[1..];
      var tail := Interleave(g[1..], ws[1..]);
      calc {
        Interleave(g2, ws);
        g2[0] + ws[0] + tail;
        ([c] + g[0]) + ws[0] + tail;
        [c] + (g[0] + ws[0] + tail);
      }
    }
  }

  /** Gaps and runs of text starting with white space: the character joins the first gap. */
  lemma {:induction false} LeadingSpaceJoinsGap(s: string)
    requires |s| > 0 && IsWhitespace(s[0])
    ensures var g := Gaps(s[1..]);
      Gaps(s) == [[s[0]] + g[0]] + g[1..] && Words(s) == Words(s[1..])
      && Interleave(Gaps(s), Words(s)) == [s[0]] + Interleave(g, Words(s[1..]))
  {
    InterleavePrepend(s[0], Gaps(s[1..]), Words(s[1..]));
  }

  /** Gaps and runs of text starting with a run: an empty gap, the run, then the rest. */
  lemma {:induction false} RunStartsWithEmptyGap(s: string)
    requires |s| > 0 && !IsWhitespace(s[0])
    ensures var w := Run(s); var g := Gaps(s[|w|..]); var ws := Words(s[|w|..]);
      Gaps(s) == [""] + g && Words(s) == [w] + ws
      && Interleave(Gaps(s), Words(s)) == w + Interleave(g, ws)
  {
    var w := Run(s);
    var g := Gaps(s[|w|..]);
    var ws := Words(s[|w|..]);
    assert Gaps(s) == [""] + g;
    assert Words(s) == [w] + ws;
    assert ([""] + g)[1..] == g;
    assert ([w] + ws)[1..] == ws;
    calc {
      Interleave([""] + g, [w] + ws);
      "" + w + Interleave(g, ws);
      w + Interleave(g, ws);
    }
  }

  /** Interleaving the gaps with the runs gives the text back. */
  lemma {:induction false} InterleaveRestores(s: string)
    ensures Interleave(Gaps(s), Words(s)) == s
    decreases |s|
  {
    if |s| > 0 {
      if IsWhitespace(s[0]) {
        InterleaveRestores(s[1..]);
        LeadingSpaceJoinsGap(s);
      } else {
        var w := Run(s);
        InterleaveRestores(s[|w|..]);
        RunStartsWithEmptyGap(s);
      }
    }
  }

  /** Every gap is white space. */
  lemma {:induction false} GapsAreWhitespace(s: string)
    ensures forall k :: 0 <= k < |Gaps(s)| ==> AllWhitespace(Gaps(s)[k])
    decreases |s|
  {
    if |s| > 0 {
      if IsWhitespace(s[0]) {
        GapsAreWhitespace(s[1..]);
        LeadingSpaceJoinsGap(s);
        var g := Gaps(s[1..]);
        assert AllWhitespace([s[0]] + g[0]);
        forall k | 1 <= k < |Gaps(s)|
          ensures AllWhitespace(Gaps(s)[k])
        {
          assert Gaps(s)[k] == g[k];
        }
      } else {
        var w := Run(s);
        GapsAreWhitespace(s[|w|..]);
        RunStartsWithEmptyGap(s);
        forall k | 1 <= k < |Gaps(s)|
          ensures AllWhitespace(Gaps(s)[k])
        {
          assert Gaps(s)[k] == Gaps(s[|w|..])[k - 1];
        }
      }
    }
  }

  /** Text starting with white space has a non-empty first gap. */
  lemma {:induction false} FirstGapOfSpace(s: string)
    requires |s| > 0 && IsWhitespace(s[0])
    ensures |Gaps(s)[0]| > 0
  {
    LeadingSpaceJoinsGap(s);
  }

  /** Only the first and the last gap can be empty. */
  lemma {:induction false} InnerGapsNonEmpty(s: string)
    ensures forall k :: 0 < k < |Gaps(s)| - 1 ==> |Gaps(s)[k]| > 0
    decreases |s|
  {
    if |s| > 0 {
      if IsWhitespace(s[0]) {
        InnerGapsNonEmpty(s[1..]);
        LeadingSpaceJoinsGap(s);
        var g := Gaps(s[1..]);
        forall k | 0 < k < |Gaps(s)| - 1
          ensures |Gaps(s)[k]| > 0
        {
          assert Gaps(s)[k] == g[k];
        }
      } else {
        var w := Run(s);
        var rest := s[|w|..];
        InnerGapsNonEmpty(rest);
        RunStartsWithEmptyGap(s);
        if |rest| > 0 {
          FirstGapOfSpace(rest);
        }
        forall k | 0 < k < |Gaps(s)| - 1
          ensures |Gaps(s)[k]| > 0
        {
          assert Gaps(s)[k] == Gaps(rest)[k - 1];
        }
      }
    }
  }

  /**
   * The text is its gaps and runs interleaved, every gap is white space, and
   * the inner gaps are not empty: the runs are maximal.
   */
  lemma {:induction false} RunsAndGaps(s: string)
    ensures Interleave(Gaps(s), Words(s)) == s
    ensures forall k :: 0 <= k < |Gaps(s)| ==> AllWhitespace(Gaps(s)[k])
    ensures forall k :: 0 < k < |Gaps(s)| - 1 ==> |Gaps(s)[k]| > 0
  {
    InterleaveRestores(s);
    GapsAreWhitespace(s);
    InnerGapsNonEmpty(s);
  }
}
