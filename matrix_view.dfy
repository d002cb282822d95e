// getVisibleIndices of src/topics/attention-variants/utils/matrixView.ts:
// the attention-variants copy, whose middle-index rule also tests
// totalSize >= 12, which the early return has already made true.

module MatrixView {
  import opened ArrayUtils

  /** The Set's membership rule of this copy: the middle index needs no focus and a size of at least twelve. */
  predicate ViewShown(x: int, totalSize: int, focusIndex: int, alwaysShowCount: int, windowSize: int) {
    var edge := Min(alwaysShowCount, totalSize);
    (0 <= x < edge)
    || (totalSize - edge <= x <= totalSize - 1 && x >= 0)
    || (focusIndex == -1 && totalSize >= MinSizeForTruncation && x == (totalSize - 1) / 2)
    || (focusIndex != -1 && Max(0, focusIndex - windowSize / 2) <= x <= Min(totalSize - 1, focusIndex + windowSize / 2))
  }

  function ViewVisibleSet(totalSize: int, focusIndex: int, alwaysShowCount: int, windowSize: int): (v: set<int>)
    ensures forall x :: x in v <==> 0 <= x < totalSize && ViewShown(x, totalSize, focusIndex, alwaysShowCount, windowSize)
  {
    set x | 0 <= x < totalSize && ViewShown(x, totalSize, focusIndex, alwaysShowCount, windowSize)
  }

  function ViewVisibleIndices(totalSize: int, focusIndex: int, alwaysShowCount: int, windowSize: int): seq<Entry> {
    if totalSize < MinSizeForTruncation then Identity(totalSize)
    else Gapped(Ascending(ViewVisibleSet(totalSize, focusIndex, alwaysShowCount, windowSize), 0, totalSize))
  }

  /** The Set-filling loops of this copy. */
  method CollectViewVisible(totalSize: int, focusIndex: int, alwaysShowCount: int, windowSize: int)
    returns (visible: set<int>)
    requires totalSize >= MinSizeForTruncation
    ensures visible == ViewVisibleSet(totalSize, focusIndex, alwaysShowCount, windowSize)
  {
    visible := {};
    var edge := Min(alwaysShowCount, totalSize);
    var i := 0;
    while i < edge
      invariant 0 <= i <= Max(edge, 0)
      invariant forall x :: x in visible <==> 0 <= x < i
    {
      visible := visible + {i};
      i := i + 1;
    }
    i := 0;
    while i < edge
      invariant 0 <= i <= Max(edge, 0)
      invariant forall x :: x in visible <==> 0 <= x < edge || totalSize - i <= x <= totalSize - 1
    {
      visible := visible + {totalSize - 1 - i};
      i := i + 1;
    }
    if focusIndex == -1 && totalSize >= MinSizeForTruncation {
      visible := visible + {(totalSize - 1) / 2};
    }
    if focusIndex != -1 {
      var windowStart := Max(0, focusIndex - windowSize / 2);
      var windowEnd := Min(totalSize - 1, focusIndex + windowSize / 2);
      ghost var before := visible;
      i := windowStart;
      while i <= windowEnd
        invariant windowStart <= i <= Max(windowStart, windowEnd + 1)
        invariant forall x :: x in visible <==> x in before || windowStart <= x < i
      {
        visible := visible + {i};
        i := i + 1;
      }
    }
  }

  /** getVisibleIndices (matrixView.ts). */
  method GetVisibleIndices(totalSize: int, focusIndex: int, alwaysShowCount: int, windowSize: int)
    returns (result: seq<Entry>)
    ensures result == ViewVisibleIndices(totalSize, focusIndex, alwaysShowCount, windowSize)
  {
    if totalSize < MinSizeForTruncation {
      return Identity(totalSize);
    }
    var visible := CollectViewVisible(totalSize, focusIndex, alwaysShowCount, windowSize);
    var sorted := Ascending(visible, 0, totalSize);
    result := InsertEllipses(sorted);
  }

  /** The extra guard changes nothing: this copy returns what array.ts returns, for every input. */
  lemma SameAsArrayCopy(totalSize: int, focusIndex: int, alwaysShowCount: int, windowSize: int)
    ensures ViewVisibleIndices(totalSize, focusIndex, alwaysShowCount, windowSize)
            == VisibleIndices(totalSize, focusIndex, alwaysShowCount, windowSize)
  {
    if totalSize >= MinSizeForTruncation {
      assert ViewVisibleSet(totalSize, focusIndex, alwaysShowCount, windowSize)
             == VisibleSet(totalSize, focusIndex, alwaysShowCount, windowSize);
    }
  }
}
