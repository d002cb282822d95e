// The explorer's highlighting hook: whether a cell (name, row, col) is the
// highlight's target, one of its sources or one of its destinations, and how
// the records the tracer builds light the cells a reader sees.

module ExplorerHighlighting {
  import opened Text
  import opened MatrixNames
  import opened ExplorerTracing

  /**
   * One record of the `sources.some(...)` / `destinations.some(...)` test:
   * same name, not internal, then both flags light the whole matrix, a row
   * flag the row, a column flag the column, and no flag the one cell.
   */
  function Lights(s: Source, name: string, row: int, col: int): (r: bool)
    ensures r <==> s.name == name && !s.isInternal
                   && (s.highlightCol || s.row == row) && (s.highlightRow || s.col == col)
  {
    if s.name != name || s.isInternal then false
    else if s.highlightRow && s.highlightCol then true
    else if s.highlightRow then s.row == row
    else if s.highlightCol then s.col == col
    else s.row == row && s.col == col
  }

  /** `records.some(...)`, scanning left to right. */
  function AnyLights(records: seq<Source>, name: string, row: int, col: int): (r: bool)
    ensures r <==> exists i :: 0 <= i < |records| && Lights(records[i], name, row, col)
  {
    if |records| == 0 then false
    else if Lights(records[0], name, row, col) then true
    else
      var rest := AnyLights(records[1..], name, row, col);
      assert forall i :: 1 <= i < |records| ==> records[i] == records[1..][i - 1];
      rest
  }

  /** isTarget: a target is present, at this very cell, and not internal. */
  function IsTarget(h: Highlight, name: string, row: int, col: int): (r: bool)
    ensures r <==> exists el :: h.target == Some(el) && el.name == name && el.row == row && el.col == col
                                 && !el.isInternal
  {
    h.target.Some? && h.target.value.name == name && h.target.value.row == row
    && h.target.value.col == col && !h.target.value.isInternal
  }

  function IsSource(h: Highlight, name: string, row: int, col: int): bool {
    AnyLights(h.sources, name, row, col)
  }

  /** isDestination; an absent destination list is the empty one. */
  function IsDestination(h: Highlight, name: string, row: int, col: int): bool {
    AnyLights(h.destinations, name, row, col)
  }

  /** A whole-matrix record lights every cell of its matrix and nothing else. */
  lemma WholeMatrixLights(s: Source, name: string, row: int, col: int)
    requires s.highlightRow && s.highlightCol && !s.isInternal
    ensures Lights(s, name, row, col) <==> name == s.name
  {
  }

  /** An empty record list lights nothing; in particular absent destinations never light a cell. */
  lemma NoRecordsLightNothing(name: string, row: int, col: int)
    ensures !AnyLights([], name, row, col)
  {
  }

  /** What each request shape of the tracer lights once addSource has turned it into a record. */
  lemma RequestShapesLight(el: Element, m: string, r: int, c: int, name: string, row: int, col: int)
    ensures Lights(AddSource(el, RowOf(m, r)), name, row, col) <==> !el.isInternal && name == m && row == r
    ensures Lights(AddSource(el, ColOf(m, c)), name, row, col) <==> !el.isInternal && name == m && col == c
    ensures Lights(AddSource(el, CellOf(m, r, c)), name, row, col)
            <==> !el.isInternal && name == m && row == r && col == c
    ensures Lights(AddSource(el, WholeOf(m)), name, row, col) <==> !el.isInternal && name == m
  {
  }

  /** The records traced from an internal element carry its isInternal flag, so none of them lights a cell. */
  lemma InternalSourcesLightNothing(el: Element, reqs: seq<Request>, name: string, row: int, col: int)
    requires el.isInternal
    ensures !AnyLights(SourcesOf(el, reqs), name, row, col)
  {
    forall i | 0 <= i < |reqs|
      ensures !Lights(SourcesOf(el, reqs)[i], name, row, col)
    {
      SourcesOfFields(el, reqs, i);
    }
  }

  /** The tracer never lists destinations, so no cell is ever lit as one. */
  lemma TraceLightsNoDestination(element: Element, tokenizedInput: seq<int>, heads: int, nLayers: int,
                                 concatKeys: bool, name: string, row: int, col: int)
    requires TraceRequires(element, tokenizedInput)
    ensures var r := Trace(element, tokenizedInput, heads, nLayers, concatKeys);
      r.Traced? ==> !IsDestination(r.highlight, name, row, col)
  {
  }

  /**
   * After a traced click on a non-residual cell, the lit target is exactly
   * the clicked cell, unless the click was on an internal element.
   */
  lemma TraceTargetsClickedCell(element: Element, tokenizedInput: seq<int>, heads: int, nLayers: int,
                                concatKeys: bool, name: string, row: int, col: int)
    requires TraceRequires(element, tokenizedInput) && !StartsWith(element.name, "residual.")
    ensures var r := Trace(element, tokenizedInput, heads, nLayers, concatKeys);
      r.Traced? ==>
        (IsTarget(r.highlight, name, row, col)
         <==> !element.isInternal && name == element.name && row == element.row && col == element.col)
  {
  }

  /** A click on a residual connection lights no target cell at all. */
  lemma ResidualTargetsNothing(element: Element, tokenizedInput: seq<int>, heads: int, nLayers: int,
                               concatKeys: bool, name: string, row: int, col: int)
    requires TraceRequires(element, tokenizedInput) && StartsWith(element.name, "residual.")
    ensures var r := Trace(element, tokenizedInput, heads, nLayers, concatKeys);
      r.Traced? && !IsTarget(r.highlight, name, row, col)
  {
  }

  /**
   * A click on a layer-0 ConcatOutput cell lights, in head j's output, the
   * clicked row for every real head and nothing for any other index.
   */
  lemma ConcatLightsHeadRows(b: Block, element: Element, tokenizedInput: seq<int>, heads: int, nLayers: int,
                             j: int, row: int, col: int)
    requires element.name == Nm(ConcatOutput(b, 0)) && !element.isInternal && TraceRequires(element, tokenizedInput)
    ensures var r := Trace(element, tokenizedInput, heads, nLayers, true);
      r.Traced? && (IsSource(r.highlight, Hd(b, 0, j, HeadOutput), row, col) <==> 0 <= j < heads && row == element.row)
  {
    ConcatReadsEveryHead(b, 0, element, tokenizedInput, heads, nLayers);
    var r := Trace(element, tokenizedInput, heads, nLayers, true);
    HeadRowsLight(r.highlight.sources, b, heads, element.row, j, row, col);
  }

  /** Records reading one row of each head's output, in head order, light exactly that row of those heads. */
  lemma HeadRowsLight(srcs: seq<Source>, b: Block, heads: int, clicked: int, j: int, row: int, col: int)
    requires |srcs| == (if heads > 0 then heads else 0)
    requires forall k :: 0 <= k < |srcs| ==>
               srcs[k].name == Hd(b, 0, k, HeadOutput) && srcs[k].row == clicked && !srcs[k].isInternal
               && srcs[k].highlightRow && !srcs[k].highlightCol
    ensures AnyLights(srcs, Hd(b, 0, j, HeadOutput), row, col) <==> 0 <= j < heads && row == clicked
  {
    if AnyLights(srcs, Hd(b, 0, j, HeadOutput), row, col) {
      var i :| 0 <= i < |srcs| && Lights(srcs[i], Hd(b, 0, j, HeadOutput), row, col);
      NmInjective(Head(b, 0, i, HeadOutput), Head(b, 0, j, HeadOutput));
    }
    if 0 <= j < heads && row == clicked {
      assert Lights(srcs[j], Hd(b, 0, j, HeadOutput), row, col);
    }
  }

  /**
   * A click on either end of decoder residual connection `part` of a layer
   * marks that connection and lights, over their whole extent, exactly the
   * two summands of the add-norm output it feeds, whatever the cell.
   */
  lemma ResidualLightsSummands(layer: nat, part: nat, end: string, element: Element, tokenizedInput: seq<int>,
                               heads: int, nLayers: int, concatKeys: bool, name: string, row: int, col: int)
    requires 1 <= part <= 3
    requires element.name == "residual." + DecoderResidualId(layer, part) + "." + end && !element.isInternal
    ensures var r := Trace(element, tokenizedInput, heads, nLayers, concatKeys);
      var sum := DecoderProvenance(layer, DecoderSumKey(part), element.row, element.col, concatKeys);
      r.Traced? && r.highlight.activeResidual == Some(DecoderResidualId(layer, part))
      && r.highlight.activeComponent == Some(DecoderSumComponent(part)) && sum.Emit? && |sum.reqs| == 2
      && (IsSource(r.highlight, name, row, col) <==> name == sum.reqs[0].name || name == sum.reqs[1].name)
  {
    var id := DecoderResidualId(layer, part);
    DecoderIdDotFree(layer, part);
    ResidualClick(id, end, element, tokenizedInput, heads, nLayers, concatKeys);
    ResidualOfDecoderId(layer, part);
    var sum := DecoderProvenance(layer, DecoderSumKey(part), element.row, element.col, concatKeys);
    DecoderResidualWholes(layer, part, element.row, element.col, concatKeys);
    var ix := LayerAndHeadIndices(element.name);
    WholePairLights(element.(layerIndex := Some(ix.0), headIndex := Some(ix.1)),
                    sum.reqs[0].name, sum.reqs[1].name, name, row, col);
  }

  lemma DecoderResidualWholes(layer: nat, part: nat, row: int, col: int, concatKeys: bool)
    requires 1 <= part <= 3
    ensures var sum := DecoderProvenance(layer, DecoderSumKey(part), row, col, concatKeys);
      var rr := DecoderResidualRule(layer, part);
      rr.0 == Some(DecoderSumComponent(part)) && sum.Emit? && |sum.reqs| == 2
      && rr.1 == [WholeOf(sum.reqs[0].name), WholeOf(sum.reqs[1].name)]
  {
    DecoderResidualReadsSummands(layer, part, row, col, concatKeys);
  }

  /** Two whole-matrix records of a non-internal click light every cell of the two matrices and nothing else. */
  lemma WholePairLights(el: Element, a: string, b: string, name: string, row: int, col: int)
    requires !el.isInternal
    ensures AnyLights(SourcesOf(el, [WholeOf(a), WholeOf(b)]), name, row, col) <==> name == a || name == b
  {
    SourcesOfPair(el, WholeOf(a), WholeOf(b));
    RequestShapesLight(el, a, 0, 0, name, row, col);
    RequestShapesLight(el, b, 0, 0, name, row, col);
  }

  /** Decoder residual ids are dot-free, so they survive the split on '.'. */
  lemma DecoderIdDotFree(layer: nat, part: nat)
    ensures NoChar(DecoderResidualId(layer, part), '.')
  {
    var a := NatToString(layer);
    var b := NatToString(part);
    assert DecoderResidualId(layer, part) == "res-l" + a + "-d" + b;
    assert forall i :: 0 <= i < |a| ==> IsDigit(a[i]);
    assert forall i :: 0 <= i < |b| ==> IsDigit(b[i]);
  }
}
