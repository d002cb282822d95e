// The encoder-only click handler of the application shell (src/App.tsx,
// handleElementClick). From the clicked cell's dotted name it derives the
// explanation block to activate and the ordered list of cells the clicked
// value is computed from, and stores both, with the clicked cell as target,
// as the new highlight state.
//
// Names are split on '.': the component type is the third segment when there
// are more than two, else the first; the layer is the second segment when the
// first is "encoder", else 0; the matrix is the last segment. The inner
// dimension d_k = d_model / h is a JavaScript number: the loop `k < d_k` runs
// ⌈d_model / h⌉ times and ⌊k / d_k⌋ is ⌊k·h / d_model⌋, both computed here in
// exact arithmetic.

module AppTrace {
  import opened Text
  import opened Arith

  datatype Element = Element(name: string, row: int, col: int)

  /** A highlight source; an absent highlightRow or highlightCol is false. */
  datatype Source = Source(name: string, row: int, col: int, highlightRow: bool, highlightCol: bool)

  /** The explanation block a click activates. */
  datatype Component = InputEmbed | Mha | AddNorm | Ffn

  datatype HighlightState = HighlightState(target: Option<Element>, sources: seq<Source>,
                                           activeComponent: Option<Component>)

  /** The model dimensions the application holds. */
  datatype Dims = Dims(dModel: nat, h: nat, seqLen: nat, nLayers: nat, dFf: nat)

  /** The id suffix of the explanation block (`math_<text>`). */
  function ComponentText(c: Component): string {
    match c
    case InputEmbed => "input_embed"
    case Mha => "mha"
    case AddNorm => "add_norm"
    case Ffn => "ffn"
  }

  function Cell(m: string, r: int, c: int): Source { Source(m, r, c, false, false) }

  function RowOf(m: string, r: int, c: int): Source { Source(m, r, c, true, false) }

  function ColOf(m: string, r: int, c: int): Source { Source(m, r, c, false, true) }

  // ----- reading the clicked name -----

  function Last(parts: seq<string>): string
    requires |parts| >= 1
  {
    parts[|parts| - 1]
  }

  function ComponentType(parts: seq<string>): string
    requires |parts| >= 1
  {
    if |parts| > 2 then parts[2] else parts[0]
  }

  function ActiveOf(t: string): Option<Component> {
    if t in ["inputEmbeddings", "posEncodings", "encoderInput"] then Some(InputEmbed)
    else if t == "mha" then Some(Mha)
    else if t == "add_norm_1" || t == "add_norm_2" then Some(AddNorm)
    else if t == "ffn" then Some(Ffn)
    else None
  }

  /** parseInt of the second segment for encoder names (None is NaN), else 0. */
  function LayerOf(parts: seq<string>): Option<int>
    requires |parts| >= 1
  {
    if |parts| > 1 && parts[0] == "encoder" then ParseInt(parts[1]) else Some(0)
  }

  /** A number inside a template literal; NaN renders as "NaN". */
  function NumText(n: Option<int>): string {
    match n
    case None => "NaN"
    case Some(v) => IntToString(v)
  }

  // ----- the names the sources are given -----

  /** `encoder.${layerIdx}.<tail>`. */
  function LayerPath(l: Option<int>, tail: seq<string>): string {
    Join(["encoder", NumText(l)] + tail, '.')
  }

  /** `encoder.${layerIdx}.mha.h${headIdx}.<key>`. */
  function HeadPath(l: Option<int>, head: Option<int>, key: string): string {
    LayerPath(l, ["mha", "h" + NumText(head), key])
  }

  /** The previous layer's output, or the encoder input for layer 0 (and for NaN). */
  function PrevLayerOutput(l: Option<int>): string {
    if l.Some? && l.value > 0 then LayerPath(Some(l.value - 1), ["add_norm_2_out"]) else "encoderInput"
  }

  /** toLowerCase on the three keys the projection branch admits. */
  function LowerKey(m: string): string {
    if m == "Q" then "q" else if m == "K" then "k" else "v"
  }

  // ----- the lists the loops push -----

  /** For k = 0 .. n-1: row `row` of `a` (row flag) at column k, then column `col` of `b` (column flag) at row k. */
  function Alternating(a: string, row: int, b: string, col: int, n: nat): seq<Source> {
    if n == 0 then [] else Alternating(a, row, b, col, n - 1) + [RowOf(a, row, n - 1), ColOf(b, n - 1, col)]
  }

  /** For k = 0 .. n-1: row `row` of `m` at column k, with the row flag. */
  function RowSweep(m: string, row: int, n: nat): seq<Source> {
    if n == 0 then [] else RowSweep(m, row, n - 1) + [RowOf(m, row, n - 1)]
  }

  /** For k = 0 .. n-1: column k of `m` at row -1, with the column flag. */
  function ColSweep(m: string, n: nat): seq<Source> {
    if n == 0 then [] else ColSweep(m, n - 1) + [ColOf(m, -1, n - 1)]
  }

  /** ⌊k / d_k⌋ for d_k = d_model / h, in exact arithmetic. */
  function HeadOfColumn(k: nat, dModel: nat, h: nat): nat
    requires dModel > 0
  {
    k * h / dModel
  }

  /** For k = 0 .. n-1: row `row` of head ⌊k / d_k⌋'s HeadOutput, then column `col` of Wo at row k. */
  function OutputPairs(l: Option<int>, row: int, col: int, dModel: nat, h: nat, n: nat): seq<Source>
    requires n <= dModel
  {
    if n == 0 then []
    else
      OutputPairs(l, row, col, dModel, h, n - 1)
      + [RowOf(HeadPath(l, Some(HeadOfColumn(n - 1, dModel, h) as int), "HeadOutput"), row, -1),
         ColOf(LayerPath(l, ["mha", "Wo"]), n - 1, col)]
  }

  // ----- the handler as a function of the click -----

  /** The matrix branches inside multi-head attention. */
  function MhaBody(m: string, l: Option<int>, head: Option<int>, row: int, col: int, dims: Dims): seq<Source>
    requires dims.h > 0
  {
    if m in ["Q", "K", "V"] then
      Alternating(LayerPath(l, ["add_norm_1_in_residual"]), row, HeadPath(l, head, "W" + LowerKey(m)), col, dims.dModel)
    else if m == "Scores" then
      [RowOf(HeadPath(l, head, "Q"), row, -1), RowOf(HeadPath(l, head, "K"), col, -1)]
    else if m == "AttentionWeights" then
      RowSweep(HeadPath(l, head, "Scores"), row, dims.seqLen)
    else if m == "HeadOutput" then
      RowSweep(HeadPath(l, head, "AttentionWeights"), row, dims.seqLen)
      + ColSweep(HeadPath(l, head, "V"), CeilDiv(dims.dModel, dims.h))
    else if m == "Output" then
      OutputPairs(l, row, col, dims.dModel, dims.h, dims.dModel)
    else []
  }

  /** Multi-head attention; None when the fourth segment is missing and reading it throws. */
  function MhaSources(name: string, parts: seq<string>, row: int, col: int, dims: Dims): Option<seq<Source>>
    requires |parts| >= 1 && dims.h > 0
  {
    if |parts| < 4 then None
    else
      var l := LayerOf(parts);
      var head := ParseInt(ReplaceFirst(parts[3], "h", ""));
      var body := MhaBody(Last(parts), l, head, row, col, dims);
      if EndsWith(name, "add_norm_1_in_residual") && StartsWith(name, LayerPath(l, ["mha"]))
      then Some([Cell(PrevLayerOutput(l), row, col)] + body)
      else Some(body)
  }

  /** Add & norm: an `out` cell reads the same cell of `<first three segments>_in_residual` and `_in_sublayer`. */
  function AddNormSources(parts: seq<string>, row: int, col: int): seq<Source>
    requires |parts| >= 1
  {
    if Last(parts) == "out" then
      var base := Join(parts[..if |parts| < 3 then |parts| else 3], '.');
      [Cell(base + "_in_residual", row, col), Cell(base + "_in_sublayer", row, col)]
    else []
  }

  function FfnSources(l: Option<int>, m: string, row: int, col: int, dims: Dims): seq<Source> {
    if m == "Intermediate" || m == "Activated" then
      Alternating(LayerPath(l, ["add_norm_1_out"]), row, LayerPath(l, ["ffn", "W1"]), col, dims.dModel)
    else if m == "Output" then
      Alternating(LayerPath(l, ["ffn", "Activated"]), row, LayerPath(l, ["ffn", "W2"]), col, dims.dFf)
    else []
  }

  /** The sources of a click, in push order; None when the handler throws. */
  function TraceSources(e: Element, dims: Dims): Option<seq<Source>>
    requires dims.h > 0
  {
    var parts := Split(e.name, '.');
    var t := ComponentType(parts);
    if e.name == "encoderInput" then Some([Cell("inputEmbeddings", e.row, e.col), Cell("posEncodings", e.row, e.col)])
    else if t == "mha" then MhaSources(e.name, parts, e.row, e.col, dims)
    else if t == "add_norm_1" || t == "add_norm_2" then Some(AddNormSources(parts, e.row, e.col))
    else if t == "ffn" then Some(FfnSources(LayerOf(parts), Last(parts), e.row, e.col, dims))
    else Some([])
  }

  /** The highlight state a click stores; None when the handler throws. */
  function Resolve(e: Element, dims: Dims): Option<HighlightState>
    requires dims.h > 0
  {
    match TraceSources(e, dims)
    case None => None
    case Some(s) => Some(HighlightState(Some(e), s, ActiveOf(ComponentType(Split(e.name, '.')))))
  }

  /** The matrix branches of multi-head attention, pushing what MhaBody lists. */
  method MhaBodySources(m: string, l: Option<int>, head: Option<int>, row: int, col: int, dims: Dims)
    returns (newSources: seq<Source>)
    requires dims.h > 0
    ensures newSources == MhaBody(m, l, head, row, col, dims)
  {
    newSources := [];
    if m in ["Q", "K", "V"] {
      var weightName := HeadPath(l, head, "W" + LowerKey(m));
      var mhaInput := LayerPath(l, ["add_norm_1_in_residual"]);
      for k := 0 to dims.dModel
        invariant newSources == Alternating(mhaInput, row, weightName, col, k)
      {
        newSources := newSources + [RowOf(mhaInput, row, k)];
        newSources := newSources + [ColOf(weightName, k, col)];
      }
    } else if m == "Scores" {
      newSources := newSources + [RowOf(HeadPath(l, head, "Q"), row, -1)];
      newSources := newSources + [RowOf(HeadPath(l, head, "K"), col, -1)];
    } else if m == "AttentionWeights" {
      for k := 0 to dims.seqLen
        invariant newSources == RowSweep(HeadPath(l, head, "Scores"), row, k)
      {
        newSources := newSources + [RowOf(HeadPath(l, head, "Scores"), row, k)];
      }
    } else if m == "HeadOutput" {
      var weights := HeadPath(l, head, "AttentionWeights");
      var v := HeadPath(l, head, "V");
      for k := 0 to dims.seqLen
        invariant newSources == RowSweep(weights, row, k)
      {
        newSources := newSources + [RowOf(weights, row, k)];
      }
      ghost var mid := newSources;
      var k := 0;
      // k < d_k, multiplied out by h > 0
      while k * dims.h < dims.dModel
        invariant k <= CeilDiv(dims.dModel, dims.h)
        invariant newSources == mid + ColSweep(v, k)
        decreases dims.dModel - k * dims.h
      {
        CeilDivCounts(dims.dModel, dims.h, k);
        newSources := newSources + [ColOf(v, -1, k)];
        k := k + 1;
        assert k * dims.h == (k - 1) * dims.h + dims.h;
      }
      CeilDivCounts(dims.dModel, dims.h, k);
      assert newSources == (RowSweep(weights, row, dims.seqLen) + ColSweep(v, k));
    } else if m == "Output" {
      var woName := LayerPath(l, ["mha", "Wo"]);
      for k := 0 to dims.dModel
        invariant newSources == OutputPairs(l, row, col, dims.dModel, dims.h, k)
      {
        var head := HeadOfColumn(k, dims.dModel, dims.h);
        newSources := newSources + [RowOf(HeadPath(l, Some(head as int), "HeadOutput"), row, -1)];
        newSources := newSources + [ColOf(woName, k, col)];
      }
    }
  }

  /** The feed-forward branches, pushing what FfnSources lists. */
  method FfnBodySources(m: string, l: Option<int>, row: int, col: int, dims: Dims) returns (newSources: seq<Source>)
    ensures newSources == FfnSources(l, m, row, col, dims)
  {
    newSources := [];
    var ffnInputName := LayerPath(l, ["add_norm_1_out"]);
    if m == "Intermediate" || m == "Activated" {
      var w1Name := LayerPath(l, ["ffn", "W1"]);
      for k := 0 to dims.dModel
        invariant newSources == Alternating(ffnInputName, row, w1Name, col, k)
      {
        newSources := newSources + [RowOf(ffnInputName, row, k)];
        newSources := newSources + [ColOf(w1Name, k, col)];
      }
    } else if m == "Output" {
      var activatedName := LayerPath(l, ["ffn", "Activated"]);
      var w2Name := LayerPath(l, ["ffn", "W2"]);
      for k := 0 to dims.dFf
        invariant newSources == Alternating(activatedName, row, w2Name, col, k)
      {
        newSources := newSources + [RowOf(activatedName, row, k)];
        newSources := newSources + [ColOf(w2Name, k, col)];
      }
    }
  }

  // ----- what the pushed lists hold -----

  lemma {:induction false} AlternatingShape(a: string, row: int, b: string, col: int, n: nat)
    ensures var s := Alternating(a, row, b, col, n);
      |s| == 2 * n
      && forall k :: 0 <= k < n ==> s[2 * k] == RowOf(a, row, k) && s[2 * k + 1] == ColOf(b, k, col)
  {
    if n > 0 {
      AlternatingShape(a, row, b, col, n - 1);
    }
  }

  lemma {:induction false} RowSweepShape(m: string, row: int, n: nat)
    ensures var s := RowSweep(m, row, n);
      |s| == n && forall k :: 0 <= k < n ==> s[k] == RowOf(m, row, k)
  {
    if n > 0 {
      RowSweepShape(m, row, n - 1);
    }
  }

  lemma {:induction false} ColSweepShape(m: string, n: nat)
    ensures var s := ColSweep(m, n);
      |s| == n && forall k :: 0 <= k < n ==> s[k] == ColOf(m, -1, k)
  {
    if n > 0 {
      ColSweepShape(m, n - 1);
    }
  }

  lemma {:induction false} OutputPairsShape(l: Option<int>, row: int, col: int, dModel: nat, h: nat, n: nat)
    requires n <= dModel
    ensures var s := OutputPairs(l, row, col, dModel, h, n);
      |s| == 2 * n
      && forall k :: 0 <= k < n ==>
           s[2 * k] == RowOf(HeadPath(l, Some(HeadOfColumn(k, dModel, h) as int), "HeadOutput"), row, -1)
           && s[2 * k + 1] == ColOf(LayerPath(l, ["mha", "Wo"]), k, col)
  {
    if n > 0 {
      OutputPairsShape(l, row, col, dModel, h, n - 1);
    }
  }

  /** Every column of the attention output belongs to one of the h heads. */
  lemma HeadOfColumnInRange(k: nat, dModel: nat, h: nat)
    requires k < dModel && h > 0
    ensures HeadOfColumn(k, dModel, h) < h
  {
    var q := HeadOfColumn(k, dModel, h);
    assert q * dModel <= k * h;
    MulLt(k, dModel, h);
    if q >= h {
      MulLeq(h, q, dModel);
    }
  }

  /** With d_model = h·d_k, column k belongs to head ⌊k / d_k⌋. */
  lemma HeadOfColumnDivides(k: nat, dk: nat, h: nat)
    requires dk > 0 && h > 0
    ensures HeadOfColumn(k, h * dk, h) == k / dk
  {
    var q := k / dk;
    assert q * dk <= k < (q + 1) * dk;
    MulLeq(q * dk, k, h);
    MulLt(k, (q + 1) * dk, h);
    assert q * (h * dk) == q * dk * h;
    assert (q + 1) * (h * dk) == (q + 1) * dk * h;
    DivUnique(k * h, h * dk, q);
  }

  // ----- what a click traces -----

  /** A name of several segments is not `encoderInput`. */
  lemma {:induction false} NotEncoderInput(name: string)
    requires |Split(name, '.')| >= 2 || Split(name, '.')[0] != "encoderInput"
    ensures name != "encoderInput"
  {
    EncoderInputWord();
  }

  lemma EncoderInputWord()
    ensures Split("encoderInput", '.') == ["encoderInput"]
  {
    SplitOfPlain("encoderInput", '.');
  }

  /** The list each matrix branch of multi-head attention builds. */
  lemma MhaBodyCases(l: Option<int>, head: Option<int>, row: int, col: int, dims: Dims)
    requires dims.h > 0
    ensures forall key :: key in ["Q", "K", "V"] ==>
              MhaBody(key, l, head, row, col, dims)
              == Alternating(LayerPath(l, ["add_norm_1_in_residual"]), row, HeadPath(l, head, "W" + LowerKey(key)), col,
                             dims.dModel)
    ensures MhaBody("Scores", l, head, row, col, dims)
            == [RowOf(HeadPath(l, head, "Q"), row, -1), RowOf(HeadPath(l, head, "K"), col, -1)]
    ensures MhaBody("AttentionWeights", l, head, row, col, dims) == RowSweep(HeadPath(l, head, "Scores"), row, dims.seqLen)
    ensures MhaBody("HeadOutput", l, head, row, col, dims)
            == RowSweep(HeadPath(l, head, "AttentionWeights"), row, dims.seqLen)
               + ColSweep(HeadPath(l, head, "V"), CeilDiv(dims.dModel, dims.h))
    ensures MhaBody("Output", l, head, row, col, dims) == OutputPairs(l, row, col, dims.dModel, dims.h, dims.dModel)
  {
  }

  /** No matrix branch of multi-head attention has a name as long as `add_norm_1_in_residual`. */
  lemma MhaBodyLongKey(m: string, l: Option<int>, head: Option<int>, row: int, col: int, dims: Dims)
    requires dims.h > 0 && |m| >= 22
    ensures MhaBody(m, l, head, row, col, dims) == []
  {
  }

  /** A layer segment written by String(l) reads back as l. */
  lemma LayerSegment(l: nat)
    ensures ParseInt(NatToString(l)) == Some(l)
  {
    ParseIntOfNatToString(l, "");
    assert NatToString(l) + "" == NatToString(l);
  }

  /** A head segment `h<h>` reads back as h once its 'h' is replaced away. */
  lemma HeadSegment(h: nat)
    ensures ParseInt(ReplaceFirst("h" + NatToString(h), "h", "")) == Some(h)
  {
    var s := "h" + NatToString(h);
    assert StartsWith(s, "h");
    assert s[..0] + "" + s[1..] == NatToString(h);
    LayerSegment(h);
  }

  /**
   * A click in multi-head attention of encoder layer l whose matrix segment
   * is shorter than `add_norm_1_in_residual` goes straight to the matrix
   * branches, with the head parsed from the fourth segment.
   */
  lemma MhaClickOf(e: Element, l: nat, dims: Dims)
    requires dims.h > 0
    requires var parts := Split(e.name, '.');
      |parts| >= 4 && parts[0] == "encoder" && parts[1] == NatToString(l) && parts[2] == "mha"
      && |Last(parts)| < 22
    ensures var parts := Split(e.name, '.');
      Resolve(e, dims)
      == Some(HighlightState(Some(e), MhaBody(Last(parts), Some(l), ParseInt(ReplaceFirst(parts[3], "h", "")),
                                              e.row, e.col, dims), Some(Mha)))
  {
    ResolveMha(e, dims);
    MhaPlainSources(e, l, dims);
  }

  lemma {:induction false} MhaPlainSources(e: Element, l: nat, dims: Dims)
    requires dims.h > 0
    requires var parts := Split(e.name, '.');
      |parts| >= 4 && parts[0] == "encoder" && parts[1] == NatToString(l) && |Last(parts)| < 22
    ensures var parts := Split(e.name, '.');
      MhaSources(e.name, parts, e.row, e.col, dims)
      == Some(MhaBody(Last(parts), Some(l), ParseInt(ReplaceFirst(parts[3], "h", "")), e.row, e.col, dims))
  {
    var parts := Split(e.name, '.');
    ResidualKeyDotFree();
    NotEndsWithLonger(e.name, "add_norm_1_in_residual", '.');
    LayerSegment(l);
    assert LayerOf(parts) == Some(l);
  }

  lemma ResidualKeyDotFree()
    ensures NoChar("add_norm_1_in_residual", '.') && |"add_norm_1_in_residual"| == 22
  {
  }

  /** A click whose third segment is `mha`, with at least four segments, stores what MhaSources lists. */
  lemma {:induction false} ResolveMha(e: Element, dims: Dims)
    requires dims.h > 0
    requires var parts := Split(e.name, '.'); |parts| >= 4 && parts[2] == "mha"
    ensures var parts := Split(e.name, '.');
      MhaSources(e.name, parts, e.row, e.col, dims).Some?
      && Resolve(e, dims) == Some(HighlightState(Some(e), MhaSources(e.name, parts, e.row, e.col, dims).value, Some(Mha)))
  {
    NotEncoderInput(e.name);
  }

  /** A click on encoderInput reads the same cell of the embeddings and then of the positional encodings. */
  lemma EncoderInputSources(row: int, col: int, dims: Dims)
    requires dims.h > 0
    ensures var e := Element("encoderInput", row, col);
      Resolve(e, dims) == Some(HighlightState(Some(e), [Cell("inputEmbeddings", row, col), Cell("posEncodings", row, col)],
                                              Some(InputEmbed)))
  {
    EncoderInputWord();
    assert ActiveOf("encoderInput") == Some(InputEmbed);
  }

  /** The embeddings and positional encodings activate the input block and read nothing. */
  lemma InputMatricesTraceNothing(name: string, row: int, col: int, dims: Dims)
    requires name == "inputEmbeddings" || name == "posEncodings"
    requires dims.h > 0
    ensures var e := Element(name, row, col);
      Resolve(e, dims) == Some(HighlightState(Some(e), [], Some(InputEmbed)))
  {
    assert NoChar(name, '.');
    PlainNameTracesNothing(Element(name, row, col), dims);
  }

  /** A dot-free name that no branch of the handler knows reads nothing and activates what its own name says. */
  lemma PlainNameTracesNothing(e: Element, dims: Dims)
    requires dims.h > 0 && NoChar(e.name, '.')
    requires e.name !in ["encoderInput", "mha", "add_norm_1", "add_norm_2", "ffn"]
    ensures Resolve(e, dims) == Some(HighlightState(Some(e), [], ActiveOf(e.name)))
  {
    SplitOfPlain(e.name, '.');
  }

  /**
   * Q, K or V of head h in layer l at (r, c): 2·d_model sources, for k
   * ascending the row r of the layer's attention input at column k (row
   * flag), then row k of the head's weight at column c (column flag).
   */
  lemma MhaProjectionSources(e: Element, l: nat, h: nat, key: string, dims: Dims)
    requires dims.h > 0 && key in ["Q", "K", "V"]
    requires var parts := Split(e.name, '.');
      |parts| >= 4 && parts[0] == "encoder" && parts[1] == NatToString(l) && parts[2] == "mha"
      && parts[3] == "h" + NatToString(h) && Last(parts) == key
    ensures var r := Resolve(e, dims);
      r.Some? && r.value.target == Some(e) && r.value.activeComponent == Some(Mha)
      && |r.value.sources| == 2 * dims.dModel
      && forall k :: 0 <= k < dims.dModel ==>
           r.value.sources[2 * k] == RowOf(LayerPath(Some(l), ["add_norm_1_in_residual"]), e.row, k)
           && r.value.sources[2 * k + 1] == ColOf(HeadPath(Some(l), Some(h), "W" + LowerKey(key)), k, e.col)
  {
    MhaClickOf(e, l, dims);
    HeadSegment(h);
    MhaBodyCases(Some(l), Some(h), e.row, e.col, dims);
    AlternatingShape(LayerPath(Some(l), ["add_norm_1_in_residual"]), e.row,
                     HeadPath(Some(l), Some(h), "W" + LowerKey(key)), e.col, dims.dModel);
  }

  /** Scores of head h at (r, c): exactly row r of its Q and row c of its K, both as whole rows. */
  lemma MhaScoresSources(e: Element, l: nat, h: nat, dims: Dims)
    requires dims.h > 0
    requires var parts := Split(e.name, '.');
      |parts| >= 4 && parts[0] == "encoder" && parts[1] == NatToString(l) && parts[2] == "mha"
      && parts[3] == "h" + NatToString(h) && Last(parts) == "Scores"
    ensures Resolve(e, dims)
            == Some(HighlightState(Some(e), [RowOf(HeadPath(Some(l), Some(h), "Q"), e.row, -1),
                                             RowOf(HeadPath(Some(l), Some(h), "K"), e.col, -1)], Some(Mha)))
  {
    MhaClickOf(e, l, dims);
    HeadSegment(h);
    MhaBodyCases(Some(l), Some(h), e.row, e.col, dims);
  }

  /** AttentionWeights of head h at (r, c): row r of its Scores at every column k < seq_len, in order. */
  lemma MhaWeightsSources(e: Element, l: nat, h: nat, dims: Dims)
    requires dims.h > 0
    requires var parts := Split(e.name, '.');
      |parts| >= 4 && parts[0] == "encoder" && parts[1] == NatToString(l) && parts[2] == "mha"
      && parts[3] == "h" + NatToString(h) && Last(parts) == "AttentionWeights"
    ensures var r := Resolve(e, dims);
      r.Some? && r.value.target == Some(e) && r.value.activeComponent == Some(Mha)
      && |r.value.sources| == dims.seqLen
      && forall k :: 0 <= k < dims.seqLen ==> r.value.sources[k] == RowOf(HeadPath(Some(l), Some(h), "Scores"), e.row, k)
  {
    MhaClickOf(e, l, dims);
    HeadSegment(h);
    MhaBodyCases(Some(l), Some(h), e.row, e.col, dims);
    RowSweepShape(HeadPath(Some(l), Some(h), "Scores"), e.row, dims.seqLen);
  }

  /** A row sweep of n entries followed by a column sweep of d entries, entry by entry. */
  lemma SweepsShape(a: string, row: int, n: nat, b: string, d: nat)
    ensures var s := RowSweep(a, row, n) + ColSweep(b, d);
      |s| == n + d
      && (forall k :: 0 <= k < n ==> s[k] == RowOf(a, row, k))
      && (forall k :: 0 <= k < d ==> s[n + k] == ColOf(b, -1, k))
  {
    RowSweepShape(a, row, n);
    ColSweepShape(b, d);
  }

  /**
   * HeadOutput of head h at (r, c): seq_len entries of row r of its
   * attention weights, then one whole column k of V for every k < d_k —
   * d_model / h of them when h divides d_model.
   */
  lemma MhaHeadOutputSources(e: Element, l: nat, h: nat, dims: Dims)
    requires dims.h > 0
    requires var parts := Split(e.name, '.');
      |parts| >= 4 && parts[0] == "encoder" && parts[1] == NatToString(l) && parts[2] == "mha"
      && parts[3] == "h" + NatToString(h) && Last(parts) == "HeadOutput"
    ensures var r := Resolve(e, dims);
      var n := CeilDiv(dims.dModel, dims.h);
      r.Some? && r.value.target == Some(e) && r.value.activeComponent == Some(Mha)
      && |r.value.sources| == dims.seqLen + n
      && (forall k :: 0 <= k < dims.seqLen ==>
            r.value.sources[k] == RowOf(HeadPath(Some(l), Some(h), "AttentionWeights"), e.row, k))
      && (forall k :: 0 <= k < n ==> r.value.sources[dims.seqLen + k] == ColOf(HeadPath(Some(l), Some(h), "V"), -1, k))
      && (dims.dModel % dims.h == 0 ==> n == dims.dModel / dims.h)
  {
    MhaClickOf(e, l, dims);
    HeadSegment(h);
    MhaBodyCases(Some(l), Some(h), e.row, e.col, dims);
    SweepsShape(HeadPath(Some(l), Some(h), "AttentionWeights"), e.row, dims.seqLen, HeadPath(Some(l), Some(h), "V"),
                CeilDiv(dims.dModel, dims.h));
    if dims.dModel % dims.h == 0 {
      CeilDivExact(dims.dModel, dims.h);
    }
  }

  /**
   * The attention output at (r, c): for each k < d_model, row r of head
   * ⌊k / d_k⌋'s HeadOutput (a head below h), then row k of Wo at column c.
   */
  lemma MhaOutputSources(e: Element, l: nat, dims: Dims)
    requires dims.h > 0
    requires var parts := Split(e.name, '.');
      |parts| >= 4 && parts[0] == "encoder" && parts[1] == NatToString(l) && parts[2] == "mha" && Last(parts) == "Output"
    ensures var r := Resolve(e, dims);
      r.Some? && r.value.target == Some(e) && r.value.activeComponent == Some(Mha)
      && |r.value.sources| == 2 * dims.dModel
      && forall k :: 0 <= k < dims.dModel ==>
           HeadOfColumn(k, dims.dModel, dims.h) < dims.h
           && r.value.sources[2 * k]
              == RowOf(HeadPath(Some(l), Some(HeadOfColumn(k, dims.dModel, dims.h) as int), "HeadOutput"), e.row, -1)
           && r.value.sources[2 * k + 1] == ColOf(LayerPath(Some(l), ["mha", "Wo"]), k, e.col)
  {
    MhaClickOf(e, l, dims);
    var parts := Split(e.name, '.');
    MhaBodyCases(Some(l), ParseInt(ReplaceFirst(parts[3], "h", "")), e.row, e.col, dims);
    OutputPairsShape(Some(l), e.row, e.col, dims.dModel, dims.h, dims.dModel);
    forall k | 0 <= k < dims.dModel
      ensures HeadOfColumn(k, dims.dModel, dims.h) < dims.h
    {
      HeadOfColumnInRange(k, dims.dModel, dims.h);
    }
  }

  /** A multi-head-attention name with fewer than four segments makes the handler throw. */
  lemma MhaShortNameThrows(e: Element, dims: Dims)
    requires dims.h > 0
    requires var parts := Split(e.name, '.'); ComponentType(parts) == "mha" && |parts| < 4
    ensures Resolve(e, dims).None?
  {
    NotEncoderInput(e.name);
  }

  /**
   * A multi-head-attention name ending in `add_norm_1_in_residual` under its
   * own layer's `encoder.<l>.mha` prefix reads exactly the same cell of the
   * previous layer's output, or of the encoder input in layer 0.
   */
  lemma MhaResidualInputSources(e: Element, dims: Dims)
    requires dims.h > 0
    requires var parts := Split(e.name, '.');
      |parts| >= 4 && parts[2] == "mha" && EndsWith(e.name, "add_norm_1_in_residual")
      && StartsWith(e.name, LayerPath(LayerOf(parts), ["mha"]))
    ensures var l := LayerOf(Split(e.name, '.'));
      Resolve(e, dims) == Some(HighlightState(Some(e), [Cell(PrevLayerOutput(l), e.row, e.col)], Some(Mha)))
  {
    ResolveMha(e, dims);
    ResidualKeyDotFree();
    EndsWithinLast(e.name, "add_norm_1_in_residual", '.');
    MhaResidualOf(e.name, Split(e.name, '.'), e.row, e.col, dims);
  }

  lemma MhaResidualOf(name: string, parts: seq<string>, row: int, col: int, dims: Dims)
    requires dims.h > 0 && |parts| >= 4 && |Last(parts)| >= 22
    requires EndsWith(name, "add_norm_1_in_residual") && StartsWith(name, LayerPath(LayerOf(parts), ["mha"]))
    ensures MhaSources(name, parts, row, col, dims) == Some([Cell(PrevLayerOutput(LayerOf(parts)), row, col)])
  {
    MhaBodyLongKey(Last(parts), LayerOf(parts), ParseInt(ReplaceFirst(parts[3], "h", "")), row, col, dims);
    assert [Cell(PrevLayerOutput(LayerOf(parts)), row, col)] + [] == [Cell(PrevLayerOutput(LayerOf(parts)), row, col)];
  }

  /**
   * An add & norm `out` cell of a name whose third segment is add_norm_1 or
   * add_norm_2 reads the same cell of `<first three segments>_in_residual`
   * and then of `_in_sublayer`.
   */
  lemma AddNormOutSources(e: Element, dims: Dims)
    requires dims.h > 0
    requires var parts := Split(e.name, '.');
      |parts| >= 3 && (parts[2] == "add_norm_1" || parts[2] == "add_norm_2") && Last(parts) == "out"
    ensures var base := Join(Split(e.name, '.')[..3], '.');
      Resolve(e, dims) == Some(HighlightState(Some(e), [Cell(base + "_in_residual", e.row, e.col),
                                                        Cell(base + "_in_sublayer", e.row, e.col)], Some(AddNorm)))
  {
    NotEncoderInput(e.name);
  }

  /**
   * The add & norm outputs as rendered, `encoder.<l>.add_norm_1_out` and
   * `encoder.<l>.add_norm_2_out`, have a component type that no branch
   * knows: no explanation block and no sources.
   */
  lemma AddNormOutputNamesTraceNothing(l: nat, seg: string, row: int, col: int, dims: Dims)
    requires dims.h > 0 && (seg == "add_norm_1_out" || seg == "add_norm_2_out")
    ensures var e := Element(LayerPath(Some(l), [seg]), row, col);
      Resolve(e, dims) == Some(HighlightState(Some(e), [], None))
  {
    var segs := ["encoder", NatToString(l), seg];
    assert ["encoder", NumText(Some(l))] + [seg] == segs;
    assert forall i :: 0 <= i < |segs[1]| ==> IsDigit(segs[1][i]);
    SplitJoin(segs, '.');
    NotEncoderInput(LayerPath(Some(l), [seg]));
  }

  /**
   * The feed-forward hidden matrices (Intermediate, Activated) at (r, c):
   * 2·d_model sources alternating row r of the layer's add_norm_1_out at
   * column k and row k of W1 at column c.
   */
  lemma FfnHiddenSources(e: Element, l: nat, dims: Dims)
    requires dims.h > 0
    requires var parts := Split(e.name, '.');
      |parts| >= 3 && parts[0] == "encoder" && parts[1] == NatToString(l) && parts[2] == "ffn"
      && (Last(parts) == "Intermediate" || Last(parts) == "Activated")
    ensures var r := Resolve(e, dims);
      r.Some? && r.value.target == Some(e) && r.value.activeComponent == Some(Ffn)
      && |r.value.sources| == 2 * dims.dModel
      && forall k :: 0 <= k < dims.dModel ==>
           r.value.sources[2 * k] == RowOf(LayerPath(Some(l), ["add_norm_1_out"]), e.row, k)
           && r.value.sources[2 * k + 1] == ColOf(LayerPath(Some(l), ["ffn", "W1"]), k, e.col)
  {
    NotEncoderInput(e.name);
    LayerSegment(l);
    AlternatingShape(LayerPath(Some(l), ["add_norm_1_out"]), e.row, LayerPath(Some(l), ["ffn", "W1"]), e.col, dims.dModel);
  }

  /**
   * The feed-forward output at (r, c): 2·d_ff sources alternating row r of
   * Activated at column k and row k of W2 at column c.
   */
  lemma FfnOutputSources(e: Element, l: nat, dims: Dims)
    requires dims.h > 0
    requires var parts := Split(e.name, '.');
      |parts| >= 3 && parts[0] == "encoder" && parts[1] == NatToString(l) && parts[2] == "ffn" && Last(parts) == "Output"
    ensures var r := Resolve(e, dims);
      r.Some? && r.value.target == Some(e) && r.value.activeComponent == Some(Ffn)
      && |r.value.sources| == 2 * dims.dFf
      && forall k :: 0 <= k < dims.dFf ==>
           r.value.sources[2 * k] == RowOf(LayerPath(Some(l), ["ffn", "Activated"]), e.row, k)
           && r.value.sources[2 * k + 1] == ColOf(LayerPath(Some(l), ["ffn", "W2"]), k, e.col)
  {
    NotEncoderInput(e.name);
    LayerSegment(l);
    AlternatingShape(LayerPath(Some(l), ["ffn", "Activated"]), e.row, LayerPath(Some(l), ["ffn", "W2"]), e.col, dims.dFf);
  }

  /** A name of no traced component reads nothing; the target is still the clicked cell. */
  lemma OtherNamesTraceNothing(e: Element, dims: Dims)
    requires dims.h > 0 && e.name != "encoderInput"
    requires ComponentType(Split(e.name, '.')) !in ["mha", "add_norm_1", "add_norm_2", "ffn"]
    ensures Resolve(e, dims) == Some(HighlightState(Some(e), [], ActiveOf(ComponentType(Split(e.name, '.')))))
  {
  }

  /** Whenever the handler completes, the stored target is the clicked element, unchanged. */
  lemma ClickKeepsTarget(e: Element, dims: Dims)
    requires dims.h > 0
    ensures Resolve(e, dims).Some? ==> Resolve(e, dims).value.target == Some(e)
  {
  }

  /** The multi-head-attention branch of handleElementClick, on the split name. */
  method MhaClickSources(name: string, parts: seq<string>, row: int, col: int, dims: Dims)
    returns (r: Option<seq<Source>>)
    requires |parts| >= 1 && dims.h > 0
    ensures r == MhaSources(name, parts, row, col, dims)
  {
    if |parts| < 4 {
      // parts[3] is undefined and calling replace on it throws
      return None;
    }
    var newSources: seq<Source> := [];
    var layerIdx := if |parts| > 1 && parts[0] == "encoder" then ParseInt(parts[1]) else Some(0);
    var matrixName := parts[|parts| - 1];
    var headIdx := ParseInt(ReplaceFirst(parts[3], "h", ""));
    var residual := EndsWith(name, "add_norm_1_in_residual") && StartsWith(name, LayerPath(layerIdx, ["mha"]));
    if residual {
      newSources := newSources + [Cell(PrevLayerOutput(layerIdx), row, col)];
      assert newSources == [Cell(PrevLayerOutput(layerIdx), row, col)];
    }
    var body := MhaBodySources(matrixName, layerIdx, headIdx, row, col, dims);
    newSources := newSources + body;
    assert !residual ==> newSources == body;
    return Some(newSources);
  }

  /**
   * The backward-tracing part of handleElementClick: the sources pushed for
   * a click, or None where the handler throws.
   */
  method ClickSources(element: Element, dims: Dims) returns (r: Option<seq<Source>>)
    requires dims.h > 0
    ensures r == TraceSources(element, dims)
  {
    var name, row, col := element.name, element.row, element.col;
    var parts := Split(name, '.');
    var newSources: seq<Source> := [];
    var componentType := if |parts| > 2 then parts[2] else parts[0];
    var layerIdx := if |parts| > 1 && parts[0] == "encoder" then ParseInt(parts[1]) else Some(0);
    var matrixName := parts[|parts| - 1];

    if name == "encoderInput" {
      newSources := newSources + [Cell("inputEmbeddings", row, col)];
      newSources := newSources + [Cell("posEncodings", row, col)];
      assert newSources == [Cell("inputEmbeddings", row, col), Cell("posEncodings", row, col)];
    } else if componentType == "mha" {
      r := MhaClickSources(name, parts, row, col, dims);
      return;
    } else if componentType == "add_norm_1" || componentType == "add_norm_2" {
      if matrixName == "out" {
        var baseName := Join(parts[..if |parts| < 3 then |parts| else 3], '.');
        newSources := newSources + [Cell(baseName + "_in_residual", row, col)];
        newSources := newSources + [Cell(baseName + "_in_sublayer", row, col)];
        assert newSources == [Cell(baseName + "_in_residual", row, col), Cell(baseName + "_in_sublayer", row, col)];
      }
    } else if componentType == "ffn" {
      newSources := FfnBodySources(matrixName, layerIdx, row, col, dims);
    }
    return Some(newSources);
  }

  // ----- the application state and its click handler -----

  class App {
    var dims: Dims
    /** Whether the forward pass produced data for `dims`. */
    var hasData: bool
    var highlight: HighlightState

    constructor (dims: Dims, hasData: bool)
      ensures this.dims == dims && this.hasData == hasData
      ensures highlight == HighlightState(None, [], None)
    {
      this.dims := dims;
      this.hasData := hasData;
      highlight := HighlightState(None, [], None);
    }

    /**
     * handleElementClick: without data nothing happens; a click that throws
     * leaves the state as it was; otherwise the state becomes Resolve's, with
     * the clicked element as target.
     */
    method HandleElementClick(element: Element)
      requires hasData ==> dims.h > 0
      modifies this`highlight
      ensures !hasData ==> highlight == old(highlight)
      ensures hasData ==> var r := Resolve(element, dims);
        highlight == if r.Some? then r.value else old(highlight)
    {
      if !hasData {
        return;
      }
      var parts := Split(element.name, '.');
      var activeComponent := ActiveOf(if |parts| > 2 then parts[2] else parts[0]);
      var newSources := ClickSources(element, dims);
      if newSources.None? {
        return;
      }
      highlight := HighlightState(Some(element), newSources.value, activeComponent);
    }
  }
}
