// The attention-variants highlighting hook
// (src/topics/attention-variants/hooks/useHighlighting.ts): isTarget and
// isSource, with highlightRow taking precedence over highlightCol, and the
// cells each rule of the variants tracer lights through it.

module VariantsHighlighting {
  import opened Text
  import opened VariantsTracing
  import ET = ExplorerTracing
  import EH = ExplorerHighlighting

  /**
   * One record of `sources.some(...)`: same name, then a row flag compares
   * only the row (whatever highlightCol says), a column flag only the column,
   * and no flag the exact cell. isInternal is not consulted.
   */
  function Lights(s: Source, name: string, row: int, col: int): (r: bool)
    ensures r ==> s.name == name
    ensures s.highlightRow ==> (r <==> s.name == name && s.row == row)
    ensures !s.highlightRow && s.highlightCol ==> (r <==> s.name == name && s.col == col)
    ensures !s.highlightRow && !s.highlightCol ==> (r <==> s.name == name && s.row == row && s.col == col)
  {
    if s.name != name then false
    else if s.highlightRow then s.row == row
    else if s.highlightCol then s.col == col
    else s.row == row && s.col == col
  }

  /** `sources.some(...)`, scanning left to right. */
  function AnyLights(records: seq<Source>, name: string, row: int, col: int): (r: bool)
    ensures r <==> exists i :: 0 <= i < |records| && Lights(records[i], name, row, col)
  {
    if |records| == 0 then false
    else if Lights(records[0], name, row, col) then true
    else
      var rest := AnyLights(records[1..], name, row, col);
      assert forall i :: 1 <= i < |records| ==> records[i] == records[1..][i - 1];
      rest
  }

  /** isTarget: a target is present and sits at this very cell; an internal target counts too. */
  function IsTarget(h: Highlight, name: string, row: int, col: int): (r: bool)
    ensures r <==> exists el :: h.target == Some(el) && el.name == name && el.row == row && el.col == col
  {
    h.target.Some? && h.target.value.name == name && h.target.value.row == row && h.target.value.col == col
  }

  function IsSource(h: Highlight, name: string, row: int, col: int): bool {
    AnyLights(h.sources, name, row, col)
  }

  /** The same record read by the explorer's rule, which checks isInternal and lights a whole matrix for both flags. */
  function AsExplorerSource(s: Source): ET.Source {
    ET.Source(s.name, s.row, s.col, s.isInternal, ET.Display(None, None, None, None, None, s.symbol), s.highlightRow, s.highlightCol, false, 0, 0)
  }

  /**
   * The two hooks agree on non-internal records except with both flags set:
   * there the explorer lights the whole matrix and this hook only the row.
   */
  lemma PrecedenceVersusExplorer(s: Source, name: string, row: int, col: int)
    requires !s.isInternal
    ensures !(s.highlightRow && s.highlightCol) ==>
              (Lights(s, name, row, col) <==> EH.Lights(AsExplorerSource(s), name, row, col))
    ensures s.highlightRow && s.highlightCol ==>
              (Lights(s, name, row, col) <==> EH.Lights(AsExplorerSource(s), name, row, col) && s.row == row)
  {
  }

  /** An internal record lights its cells here, where the explorer's rule never lights it. */
  lemma InternalStillLights(s: Source, name: string, row: int, col: int)
    requires s.isInternal
    ensures !EH.Lights(AsExplorerSource(s), name, row, col)
    ensures Lights(s, name, row, col) == Lights(s.(isInternal := false), name, row, col)
  {
  }

  // ----- what each rule of the tracer lights -----

  /** A row record of `a` at row r and a column record of `b` at column c light that row and that column. */
  lemma RowThenColumnLights(el: Element, a: string, r: int, b: string, c: int, name: string, row: int, col: int)
    ensures AnyLights([Spread(el, a, r, -1, true, false), Spread(el, b, -1, c, false, true)], name, row, col)
            <==> (name == a && row == r) || (name == b && col == c)
  {
    var srcs := [Spread(el, a, r, -1, true, false), Spread(el, b, -1, c, false, true)];
    assert Lights(srcs[0], name, row, col) <==> name == a && row == r;
    assert Lights(srcs[1], name, row, col) <==> name == b && col == c;
  }

  /** An mla click is its own target and lights no source. */
  lemma MlaLightsNothing(element: Element, headWidth: Option<nat>, dims: Dims, name: string, row: int, col: int)
    requires element.variant == Mla && headWidth != Some(0)
    ensures var o := Backward(element, headWidth, dims);
      o.Lit? && !IsSource(o.highlight, name, row, col)
      && (IsTarget(o.highlight, name, row, col) <==> name == element.name && row == element.row && col == element.col)
  {
    MlaTracesNothing(element, headWidth, dims);
  }

  /** `output` at (r, c) lights row r of the combined matrix and column c of Wo. */
  lemma OutputLights(element: Element, headWidth: Option<nat>, dims: Dims, name: string, row: int, col: int)
    requires Plain(element) && ConceptualName(element.name) == "output" && headWidth != Some(0)
    ensures var v := element.variant;
      var o := Backward(element, headWidth, dims);
      o.Lit? && (IsSource(o.highlight, name, row, col)
                 <==> (name == Path(v, OfVariant(v, CombinedM)) && row == element.row)
                      || (name == Path(v, Shared(WoM)) && col == element.col))
  {
    var v := element.variant;
    OutputReadsCombinedAndWo(element, headWidth, dims);
    RowThenColumnLights(element, Path(v, OfVariant(v, CombinedM)), element.row, Path(v, Shared(WoM)), element.col,
                        name, row, col);
  }

  /** A head's `Output` at (r, c) lights row r of its Weights and column c of its V. */
  lemma HeadOutputLights(element: Element, headWidth: Option<nat>, dims: Dims, name: string, row: int, col: int)
    requires Plain(element) && ConceptualName(element.name) == "Output" && headWidth != Some(0)
    ensures var v := element.variant;
      var h := HeadIndex(element.name);
      var o := Backward(element, headWidth, dims);
      o.Lit? && (IsSource(o.highlight, name, row, col)
                 <==> (name == Path(v, OfVariant(v, HeadM(h, Weights))) && row == element.row)
                      || (name == Path(v, OfVariant(v, HeadM(h, V))) && col == element.col))
  {
    var v := element.variant;
    var h := HeadIndex(element.name);
    HeadOutputReadsWeightsAndV(element, headWidth, dims);
    RowThenColumnLights(element, Path(v, OfVariant(v, HeadM(h, Weights))), element.row,
                        Path(v, OfVariant(v, HeadM(h, V))), element.col, name, row, col);
  }

  /** A head's `Weights` at (r, c) lights all of row r of its Scores and nothing else. */
  lemma WeightsLight(element: Element, headWidth: Option<nat>, dims: Dims, name: string, row: int, col: int)
    requires Plain(element) && ConceptualName(element.name) == "Weights" && headWidth != Some(0)
    ensures var v := element.variant;
      var o := Backward(element, headWidth, dims);
      o.Lit? && (IsSource(o.highlight, name, row, col)
                 <==> name == Path(v, OfVariant(v, HeadM(HeadIndex(element.name), Scores))) && row == element.row)
  {
    WeightsReadScores(element, headWidth, dims);
    var o := Backward(element, headWidth, dims);
    assert Lights(o.highlight.sources[0], name, row, col) <==> name == o.highlight.sources[0].name && row == element.row;
  }

  /** A head's `Scores` at (r, c) lights row r of its Q and row c of its K. */
  lemma ScoresLight(element: Element, headWidth: Option<nat>, dims: Dims, name: string, row: int, col: int)
    requires Plain(element) && ConceptualName(element.name) == "Scores" && headWidth != Some(0)
    ensures var v := element.variant;
      var h := HeadIndex(element.name);
      var o := Backward(element, headWidth, dims);
      o.Lit? && (IsSource(o.highlight, name, row, col)
                 <==> (name == Path(v, OfVariant(v, HeadM(h, Q))) && row == element.row)
                      || (name == Path(v, OfVariant(v, HeadM(h, K))) && row == element.col))
  {
    ScoresReadQAndK(element, headWidth, dims);
    var o := Backward(element, headWidth, dims);
    var srcs := o.highlight.sources;
    assert Lights(srcs[0], name, row, col) <==> name == srcs[0].name && row == element.row;
    assert Lights(srcs[1], name, row, col) <==> name == srcs[1].name && row == element.col;
  }

  /**
   * A head's Q, K or V at (r, c) lights row r of the input and column c of
   * the weight its group selects.
   */
  lemma ProjectionLights(element: Element, headWidth: Option<nat>, dims: Dims, name: string, row: int, col: int)
    requires Plain(element) && ConceptualName(element.name) in ["Q", "K", "V"] && headWidth != Some(0)
    requires dims.nq > 0 && dims.nkv > 0
    ensures var v := element.variant;
      var kind := KindOf(ConceptualName(element.name));
      var w := WeightM(kind, WeightIndex(kind, v, HeadIndex(element.name), dims));
      var o := Backward(element, headWidth, dims);
      o.Lit? && (IsSource(o.highlight, name, row, col)
                 <==> (name == Path(v, Shared(InputM)) && row == element.row)
                      || (name == Path(v, Shared(w)) && col == element.col))
  {
    var v := element.variant;
    var kind := KindOf(ConceptualName(element.name));
    var w := WeightM(kind, WeightIndex(kind, v, HeadIndex(element.name), dims));
    ProjectionReadsInputAndWeight(element, headWidth, dims);
    RowThenColumnLights(element, Path(v, Shared(InputM)), element.row, Path(v, Shared(w)), element.col, name, row, col);
  }

  /** `combined` at (r, c) lights exactly one cell: head ⌊c/d⌋'s Output at (r, c mod d). */
  lemma CombinedLightsOneCell(element: Element, d: nat, dims: Dims, name: string, row: int, col: int)
    requires Plain(element) && ConceptualName(element.name) == "combined" && d > 0 && element.col >= 0
    ensures var v := element.variant;
      var o := Backward(element, Some(d), dims);
      o.Lit? && (IsSource(o.highlight, name, row, col)
                 <==> name == Path(v, OfVariant(v, HeadM(element.col / d, Output))) && row == element.row
                      && col == element.col % d)
  {
    CombinedReadsHeadOutput(element, d, dims);
  }

  /**
   * A softmax breakdown cell lights row r of its head's Scores (the whole
   * row for the sum column -1, else the same cell), although the record is
   * internal.
   */
  lemma InternalLightsScores(element: Element, i: nat, k: HeadKey, headWidth: Option<nat>, dims: Dims,
                             name: string, row: int, col: int)
    requires element.variant != Mla && element.isInternal && headWidth != Some(0)
    requires element.name == Path(element.variant, OfVariant(element.variant, HeadM(i, k))) + ".internal"
    ensures var v := element.variant;
      var o := Backward(element, headWidth, dims);
      o.Lit? && (IsSource(o.highlight, name, row, col)
                 <==> name == Path(v, OfVariant(v, HeadM(i, Scores))) && row == element.row
                      && (element.col == -1 || col == element.col))
  {
    InternalReadsScores(element, i, k, headWidth, dims);
  }
}
