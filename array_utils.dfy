// getVisibleIndices of src/components/utils/array.ts: which rows or columns
// of a large matrix are drawn, as ascending indices with an ellipsis marker
// in every gap.

module ArrayUtils {
  /** One entry of the returned list: an index, or the ELLIPSIS string. */
  datatype Entry = Index(i: int) | Ellipsis

  /** MIN_SIZE_FOR_TRUNCATION: smaller sizes are shown in full. */
  const MinSizeForTruncation: int := 12

  function Min(a: int, b: int): int { if a < b then a else b }
  function Max(a: int, b: int): int { if a < b then b else a }

  /** `Array.from({ length: totalSize }, (_, i) => i)`; a negative length counts as 0. */
  function Identity(totalSize: int): (r: seq<Entry>)
    ensures |r| == Max(totalSize, 0)
    ensures forall k :: 0 <= k < |r| ==> r[k] == Index(k)
  {
    seq(Max(totalSize, 0), k => Index(k))
  }

  /**
   * The indices the Set collects for a matrix of at least twelve: the first
   * and the last min(alwaysShowCount, totalSize), then the middle one when
   * there is no focus, else the focus window clipped to the matrix.
   */
  predicate Shown(x: int, totalSize: int, focusIndex: int, alwaysShowCount: int, windowSize: int) {
    var edge := Min(alwaysShowCount, totalSize);
    (0 <= x < edge)
    || (totalSize - edge <= x <= totalSize - 1 && x >= 0)
    || (focusIndex == -1 && x == (totalSize - 1) / 2)
    || (focusIndex != -1 && Max(0, focusIndex - windowSize / 2) <= x <= Min(totalSize - 1, focusIndex + windowSize / 2))
  }

  /** The members of s in [lo, hi), ascending: what sorting the Set's numbers yields. */
  function Ascending(s: set<int>, lo: int, hi: int): (r: seq<int>)
    ensures forall x :: x in r <==> x in s && lo <= x < hi
    ensures forall j, k :: 0 <= j < k < |r| ==> r[j] < r[k]
    decreases hi - lo
  {
    if lo >= hi then []
    else
      var rest := Ascending(s, lo + 1, hi);
      assert forall k :: 0 <= k < |rest| ==> rest[k] in rest;
      if lo in s then [lo] + rest else rest
  }

  predicate Increasing(s: seq<int>) {
    forall j, k :: 0 <= j < k < |s| ==> s[j] < s[k]
  }

  /** The result loop: each number after the first is preceded by ELLIPSIS when it skips over a gap. */
  function Gapped(s: seq<int>): seq<Entry>
  {
    if |s| == 0 then []
    else if |s| == 1 then [Index(s[0])]
    else
      Gapped(s[..|s| - 1]) + (if s[|s| - 1] > s[|s| - 2] + 1 then [Ellipsis] else []) + [Index(s[|s| - 1])]
  }

  /** The numeric entries of a result, in order. */
  function Numbers(r: seq<Entry>): (ns: seq<int>)
    ensures |ns| <= |r|
  {
    if |r| == 0 then []
    else (if r[0].Index? then [r[0].i] else []) + Numbers(r[1..])
  }

  /** getVisibleIndices as a value: the identity below twelve, else the gapped ascending Set members. */
  function VisibleIndices(totalSize: int, focusIndex: int, alwaysShowCount: int, windowSize: int): seq<Entry> {
    if totalSize < MinSizeForTruncation then Identity(totalSize)
    else Gapped(Ascending(VisibleSet(totalSize, focusIndex, alwaysShowCount, windowSize), 0, totalSize))
  }

  function VisibleSet(totalSize: int, focusIndex: int, alwaysShowCount: int, windowSize: int): (v: set<int>)
    ensures forall x :: x in v <==> 0 <= x < totalSize && Shown(x, totalSize, focusIndex, alwaysShowCount, windowSize)
  {
    set x | 0 <= x < totalSize && Shown(x, totalSize, focusIndex, alwaysShowCount, windowSize)
  }

  // ----- the imperative function -----

  /** Steps 1-3: the Set of visible indices, filled by the source's loops. */
  method CollectVisible(totalSize: int, focusIndex: int, alwaysShowCount: int, windowSize: int)
    returns (visible: set<int>)
    requires totalSize >= MinSizeForTruncation
    ensures visible == VisibleSet(totalSize, focusIndex, alwaysShowCount, windowSize)
  {
    visible := {};
    var edge := Min(alwaysShowCount, totalSize);
    var i := 0;
    while i < edge
      invariant 0 <= i <= Max(edge, 0)
      invariant forall x :: x in visible <==> 0 <= x < i
    {
      visible := visible + {i};
      i := i + 1;
    }
    i := 0;
    while i < edge
      invariant 0 <= i <= Max(edge, 0)
      invariant forall x :: x in visible <==> 0 <= x < edge || totalSize - i <= x <= totalSize - 1
    {
      visible := visible + {totalSize - 1 - i};
      i := i + 1;
    }
    if focusIndex == -1 {
      visible := visible + {(totalSize - 1) / 2};
    }
    if focusIndex != -1 {
      var windowStart := Max(0, focusIndex - windowSize / 2);
      var windowEnd := Min(totalSize - 1, focusIndex + windowSize / 2);
      ghost var before := visible;
      i := windowStart;
      while i <= windowEnd
        invariant windowStart <= i <= Max(windowStart, windowEnd + 1)
        invariant forall x :: x in visible <==> x in before || windowStart <= x < i
      {
        visible := visible + {i};
        i := i + 1;
      }
    }
  }

  /** Step 4's push loop over the sorted numbers. */
  method InsertEllipses(sorted: seq<int>) returns (result: seq<Entry>)
    ensures result == Gapped(sorted)
  {
    result := [];
    if |sorted| > 0 {
      result := result + [Index(sorted[0])];
      var i := 1;
      while i < |sorted|
        invariant 1 <= i <= |sorted|
        invariant result == Gapped(sorted[..i])
      {
        assert sorted[..i + 1][..i] == sorted[..i];
        if sorted[i] > sorted[i - 1] + 1 {
          result := result + [Ellipsis];
        }
        result := result + [Index(sorted[i])];
        i := i + 1;
      }
      assert sorted[..i] == sorted;
    }
  }

  /** getVisibleIndices (array.ts). */
  method GetVisibleIndices(totalSize: int, focusIndex: int, alwaysShowCount: int, windowSize: int)
    returns (result: seq<Entry>)
    ensures result == VisibleIndices(totalSize, focusIndex, alwaysShowCount, windowSize)
  {
    if totalSize < MinSizeForTruncation {
      return Identity(totalSize);
    }
    var visible := CollectVisible(totalSize, focusIndex, alwaysShowCount, windowSize);
    var sorted := Ascending(visible, 0, totalSize);
    result := InsertEllipses(sorted);
  }

  // ----- what the result promises -----

  lemma {:induction false} NumbersAppend(a: seq<Entry>, b: seq<Entry>)
    ensures Numbers(a + b) == Numbers(a) + Numbers(b)
    decreases |a|
  {
    if |a| > 0 {
      var h: seq<int> := if a[0].Index? then [a[0].i] else [];
      assert (a + b)[0] == a[0] && (a + b)[1..] == a[1..] + b;
      NumbersAppend(a[1..], b);
      calc {
        Numbers(a + b);
        h + Numbers(a[1..] + b);
        h + (Numbers(a[1..]) + Numbers(b));
        (h + Numbers(a[1..])) + Numbers(b);
        Numbers(a) + Numbers(b);
      }
    } else {
      assert a + b == b;
    }
  }

  /** Removing the ellipses from a gapped list gives back the numbers. */
  lemma {:induction false} NumbersOfGapped(s: seq<int>)
    ensures Numbers(Gapped(s)) == s
    decreases |s|
  {
    if |s| > 1 {
      var p := s[..|s| - 1];
      var gap: seq<Entry> := if s[|s| - 1] > s[|s| - 2] + 1 then [Ellipsis] else [];
      NumbersOfGapped(p);
      assert Gapped(s) == Gapped(p) + gap + [Index(s[|s| - 1])];
      NumbersAppend(Gapped(p) + gap, [Index(s[|s| - 1])]);
      NumbersAppend(Gapped(p), gap);
      assert Numbers(gap) == [];
      assert Numbers([Index(s[|s| - 1])]) == [s[|s| - 1]];
      assert p + [s[|s| - 1]] == s;
    }
  }

  /**
   * Where ELLIPSIS can stand in a gapped list of increasing numbers: never
   * first or last, always between two numbers that differ by more than 1;
   * two numbers side by side differ by exactly 1.
   */
  predicate WellGapped(r: seq<Entry>) {
    (forall j :: 0 <= j < |r| && r[j].Ellipsis? ==>
       0 < j < |r| - 1 && r[j - 1].Index? && r[j + 1].Index? && r[j + 1].i > r[j - 1].i + 1)
    && (forall j :: 0 <= j < |r| - 1 && r[j].Index? && r[j + 1].Index? ==> r[j + 1].i == r[j].i + 1)
  }

  lemma {:induction false} GappedShape(s: seq<int>)
    requires Increasing(s)
    ensures var r := Gapped(s);
      (|s| > 0 ==> |r| > 0 && r[0] == Index(s[0]) && r[|r| - 1] == Index(s[|s| - 1]))
      && WellGapped(r)
    decreases |s|
  {
    if |s| > 1 {
      var p := s[..|s| - 1];
      var gap: seq<Entry> := if s[|s| - 1] > s[|s| - 2] + 1 then [Ellipsis] else [];
      GappedShape(p);
      var q := Gapped(p);
      assert Gapped(s) == q + gap + [Index(s[|s| - 1])];
      assert q[|q| - 1] == Index(s[|s| - 2]);
      WellGappedSnoc(q, gap, s[|s| - 2], s[|s| - 1]);
    }
  }

  /** One more number, after an ellipsis exactly when it leaves a gap, keeps a list well gapped. */
  lemma {:induction false} WellGappedSnoc(q: seq<Entry>, gap: seq<Entry>, last: int, x: int)
    requires WellGapped(q) && |q| > 0 && q[0].Index? && q[|q| - 1] == Index(last) && x > last
    requires gap == if x > last + 1 then [Ellipsis] else []
    ensures var r := q + gap + [Index(x)];
      r[0] == q[0] && r[|r| - 1] == Index(x) && WellGapped(r)
  {
    var r := q + gap + [Index(x)];
    assert forall j :: 0 <= j < |q| ==> r[j] == q[j];
    assert r[|q| - 1] == Index(last);
    if x > last + 1 {
      assert r[|q|] == Ellipsis && r[|q| + 1] == Index(x) && |r| == |q| + 2;
    } else {
      assert r[|q|] == Index(x) && |r| == |q| + 1;
    }
  }

  /** Below twelve the result is every index in order, with no ellipsis. */
  lemma SmallShowsEverything(totalSize: int, focusIndex: int, alwaysShowCount: int, windowSize: int)
    requires totalSize < MinSizeForTruncation
    ensures var r := VisibleIndices(totalSize, focusIndex, alwaysShowCount, windowSize);
      |r| == Max(totalSize, 0) && forall k :: 0 <= k < |r| ==> r[k] == Index(k)
  {
  }

  lemma {:induction false} NumbersOfIdentity(n: nat)
    ensures Numbers(Identity(n)) == seq(n, k => k)
  {
    if n > 0 {
      NumbersOfIdentity(n - 1);
      assert Identity(n) == Identity(n - 1) + [Index(n - 1)];
      NumbersAppend(Identity(n - 1), [Index(n - 1)]);
      assert seq(n, k => k) == seq(n - 1, k => k) + [n - 1];
    }
  }

  /**
   * For every input, the numeric entries strictly increase, lie in
   * [0, totalSize), and ellipses stand exactly in the gaps between them.
   */
  lemma ResultWellFormed(totalSize: int, focusIndex: int, alwaysShowCount: int, windowSize: int)
    ensures var r := VisibleIndices(totalSize, focusIndex, alwaysShowCount, windowSize);
      var ns := Numbers(r);
      Increasing(ns) && (forall k :: 0 <= k < |ns| ==> 0 <= ns[k] < totalSize) && WellGapped(r)
  {
    if totalSize < MinSizeForTruncation {
      NumbersOfIdentity(Max(totalSize, 0));
    } else {
      var s := Ascending(VisibleSet(totalSize, focusIndex, alwaysShowCount, windowSize), 0, totalSize);
      NumbersOfGapped(s);
      GappedShape(s);
      assert forall k :: 0 <= k < |s| ==> s[k] in s;
    }
  }

  /**
   * From twelve on, an index is drawn exactly when it is one of the first or
   * last min(alwaysShowCount, totalSize), the middle one without a focus, or
   * in the clipped focus window.
   */
  lemma ShownIff(totalSize: int, focusIndex: int, alwaysShowCount: int, windowSize: int, x: int)
    requires totalSize >= MinSizeForTruncation
    ensures x in Numbers(VisibleIndices(totalSize, focusIndex, alwaysShowCount, windowSize))
            <==> 0 <= x < totalSize && Shown(x, totalSize, focusIndex, alwaysShowCount, windowSize)
  {
    NumbersOfGapped(Ascending(VisibleSet(totalSize, focusIndex, alwaysShowCount, windowSize), 0, totalSize));
  }

  /** In particular the first and last edge indices, and the middle one or the focus window, are always drawn. */
  lemma AlwaysShown(totalSize: int, focusIndex: int, alwaysShowCount: int, windowSize: int, k: int)
    requires totalSize >= MinSizeForTruncation && 0 <= k < Min(alwaysShowCount, totalSize)
    ensures var ns := Numbers(VisibleIndices(totalSize, focusIndex, alwaysShowCount, windowSize));
      k in ns && totalSize - 1 - k in ns
      && (focusIndex == -1 ==> (totalSize - 1) / 2 in ns)
  {
    ShownIff(totalSize, focusIndex, alwaysShowCount, windowSize, k);
    ShownIff(totalSize, focusIndex, alwaysShowCount, windowSize, totalSize - 1 - k);
    ShownIff(totalSize, focusIndex, alwaysShowCount, windowSize, (totalSize - 1) / 2);
  }
}
