// useTransformer of src/hooks/useTransformer.ts: the App's randomly
// initialised encoder. Its own copies of addMatrices, multiplyMatrices,
// scaleMatrix, softmaxByRow, layerNorm and addBias round every entry they
// produce with parseFloat(x.toFixed(2)); applyReLU does not. Every weight
// is drawn afresh from Math.random, multiplyMatrices reads A[0] and B[0]
// without a guard, and the hook turns every exception into null.
// Math.random, the rounding, the row-wise softmax and layer norm, √d_k and
// the rounded sine/cosine table are parameters: the model states the
// shapes and the wiring, not the values.

module UseTransformer {
  import opened Arith
  import opened Matrices
  import EC = ExplorerControls

  /** The floating-point parts of the hook. posEntry(pos, i) is the rounded sine/cosine entry. */
  datatype HookNumerics = HookNumerics(softmaxRow: seq<real> -> seq<real>, normRow: seq<real> -> seq<real>,
                                       rootDk: real, posEntry: (nat, nat) -> real, round: real -> real)

  /** softmax and layer norm of a row keep its length, and √d_k is positive. */
  ghost predicate ValidHookNumerics(hn: HookNumerics) {
    KeepsLength(hn.softmaxRow) && KeepsLength(hn.normRow) && hn.rootDk > 0.0
  }

  // ----- Math.random -----

  /** Math.random as a stream: the k-th call returns draw(k). */
  class MathRandom {
    const draw: nat -> real
    var calls: nat

    constructor (draw: nat -> real)
      ensures this.draw == draw && calls == 0
    {
      this.draw := draw;
      calls := 0;
    }

    method Next() returns (v: real)
      modifies this
      ensures calls == old(calls) + 1 && v == draw(old(calls))
    {
      v := draw(calls);
      calls := calls + 1;
    }
  }

  /** `parseFloat((Math.random() * 2 - 1).toFixed(2))` at call k. */
  function RandomValue(draw: nat -> real, k: nat, round: real -> real): real {
    round(draw(k) * 2.0 - 1.0)
  }

  /** What createRandomMatrix draws from call start on: entry (r, c) comes from call start + r·cols + c. */
  function RandomBlock(draw: nat -> real, start: nat, rows: nat, cols: nat, round: real -> real): (m: Matrix)
    ensures Shaped(m, rows, cols)
    ensures forall r, c :: 0 <= r < rows && 0 <= c < cols ==> m[r][c] == RandomValue(draw, start + r * cols + c, round)
  {
    seq(rows, r requires 0 <= r < rows => seq(cols, c requires 0 <= c < cols => RandomValue(draw, start + r * cols + c, round)))
  }

  /** createRandomVector: `Array.from({ length: size })`, one call per entry, in order. */
  method CreateRandomVector(rnd: MathRandom, size: int, round: real -> real) returns (v: Vector)
    modifies rnd
    ensures rnd.calls == old(rnd.calls) + Count(size)
    ensures |v| == Count(size)
    ensures forall j :: 0 <= j < |v| ==> v[j] == RandomValue(rnd.draw, old(rnd.calls) + j, round)
  {
    v := [];
    var j := 0;
    while j < Count(size)
      invariant 0 <= j <= Count(size) && |v| == j
      invariant rnd.calls == old(rnd.calls) + j
      invariant forall k :: 0 <= k < j ==> v[k] == RandomValue(rnd.draw, old(rnd.calls) + k, round)
    {
      var x := rnd.Next();
      v := v + [round(x * 2.0 - 1.0)];
      j := j + 1;
    }
  }

  /** createRandomMatrix: the rows are drawn one after another. */
  method CreateRandomMatrix(rnd: MathRandom, rows: int, cols: int, round: real -> real) returns (m: Matrix)
    modifies rnd
    ensures rnd.calls == old(rnd.calls) + Count(rows) * Count(cols)
    ensures m == RandomBlock(rnd.draw, old(rnd.calls), Count(rows), Count(cols), round)
  {
    var nr, nc := Count(rows), Count(cols);
    ghost var start := rnd.calls;
    m := [];
    var r := 0;
    while r < nr
      invariant 0 <= r <= nr && |m| == r
      invariant rnd.calls == start + r * nc
      invariant forall i :: 0 <= i < r ==> m[i] == RandomBlock(rnd.draw, start, nr, nc, round)[i]
    {
      var row := CreateRandomVector(rnd, nc, round);
      assert r * nc + nc == (r + 1) * nc;
      m := m + [row];
      r := r + 1;
    }
  }

  // ----- the rounded helpers -----

  /** addMatrices: A's shape, entries A[i][j] + B[i][j], rounded. */
  function RoundedSum(A: Matrix, B: Matrix, round: real -> real): (r: Matrix)
    requires Covers(B, A)
    ensures |r| == |A| && forall i :: 0 <= i < |A| ==> |r[i]| == |A[i]|
    ensures forall i, j :: 0 <= i < |A| && 0 <= j < |A[i]| ==> r[i][j] == round(A[i][j] + B[i][j])
  {
    MapEntries(AddMatrices(A, B), round)
  }

  /** multiplyMatrices: the triple loop with each finished sum rounded. */
  function RoundedProduct(A: Matrix, B: Matrix, round: real -> real): (r: Matrix)
    requires |A| > 0 && |B| > 0 && Fits(A, B)
    ensures Shaped(r, |A|, Width(B))
    ensures forall i, j :: 0 <= i < |A| && 0 <= j < Width(B) ==> r[i][j] == round(Dot(A, B, i, j, Width(A)))
  {
    MapEntries(PlainProduct(A, B), round)
  }

  /** scaleMatrix: every entry divided by the scalar, rounded. */
  function RoundedScale(A: Matrix, s: real, round: real -> real): (r: Matrix)
    requires s > 0.0
    ensures |r| == |A| && forall i :: 0 <= i < |A| ==> |r[i]| == |A[i]|
    ensures forall i, j :: 0 <= i < |A| && 0 <= j < |A[i]| ==> r[i][j] == round(A[i][j] / s)
  {
    MapEntries(A, v => round(v / s))
  }

  /** addBias: b[j] added to column j, rounded. */
  function RoundedBias(A: Matrix, b: Vector, round: real -> real): (r: Matrix)
    requires BiasCovers(b, A)
    ensures |r| == |A| && forall i :: 0 <= i < |A| ==> |r[i]| == |A[i]|
    ensures forall i, j :: 0 <= i < |A| && 0 <= j < |A[i]| ==> r[i][j] == round(A[i][j] + b[j])
  {
    MapEntries(AddBias(A, b), round)
  }

  /** Without the rounding, this copy of multiplyMatrices computes the product of the guarded copy in transformer.ts. */
  lemma UnroundedProductAgrees(A: Matrix, B: Matrix)
    requires |A| > 0 && |B| > 0 && Width(A) > 0 && Fits(A, B)
    ensures CanMultiply(A, B) && RoundedProduct(A, B, x => x) == Product(A, B)
  {
    ProductsAgree(A, B);
    var r := RoundedProduct(A, B, x => x);
    assert |r| == |PlainProduct(A, B)|;
    forall i | 0 <= i < |r|
      ensures r[i] == PlainProduct(A, B)[i]
    {
    }
  }

  /** The shapes multiplyMatrices needs: n × m times m × p, with n, m >= 1, gives n × p. */
  lemma RoundedProductShaped(A: Matrix, B: Matrix, n: nat, m: nat, p: nat, round: real -> real)
    requires Shaped(A, n, m) && Shaped(B, m, p) && n >= 1 && m >= 1
    ensures |A| > 0 && |B| > 0 && Fits(A, B) && Shaped(RoundedProduct(A, B, round), n, p)
  {
  }

  // ----- one attention head -----

  datatype HookHead = HookHead(wq: Matrix, wk: Matrix, wv: Matrix, q: Matrix, k: Matrix, v: Matrix,
                               scores: Matrix, scaledScores: Matrix, attentionWeights: Matrix, headOutput: Matrix)

  /** A head gets an n × d_model input (n >= 1) and three d_model × d_k weights. */
  predicate HeadInputs(x: Matrix, wq: Matrix, wk: Matrix, wv: Matrix, dModel: nat, dk: nat) {
    |x| >= 1 && dModel >= 1 && dk >= 1 && Shaped(x, |x|, dModel)
    && Shaped(wq, dModel, dk) && Shaped(wk, dModel, dk) && Shaped(wv, dModel, dk)
  }

  /**
   * The head loop's body: Q, K and V are x times the weights, K_T is K
   * transposed (`K_T[r][c] = K[c][r]`), Scores = Q·K_T is n × n, scaled by
   * √d_k and softmaxed by rows, and the output AttentionWeights·V is n × d_k.
   */
  function HeadFrom(x: Matrix, wq: Matrix, wk: Matrix, wv: Matrix, dModel: nat, dk: nat, hn: HookNumerics): (hd: HookHead)
    requires HeadInputs(x, wq, wk, wv, dModel, dk) && ValidHookNumerics(hn)
    ensures hd.wq == wq && hd.wk == wk && hd.wv == wv
    ensures Shaped(hd.q, |x|, dk) && Shaped(hd.k, |x|, dk) && Shaped(hd.v, |x|, dk)
    ensures Shaped(hd.scores, |x|, |x|) && Shaped(hd.scaledScores, |x|, |x|) && Shaped(hd.attentionWeights, |x|, |x|)
    ensures Shaped(hd.headOutput, |x|, dk)
  {
    var n := |x|;
    var q := RoundedProduct(x, wq, hn.round);
    var k := RoundedProduct(x, wk, hn.round);
    var v := RoundedProduct(x, wv, hn.round);
    var kT := Transpose(k, dk, n);
    RoundedProductShaped(q, kT, n, dk, n, hn.round);
    var scores := RoundedProduct(q, kT, hn.round);
    var scaled := RoundedScale(scores, hn.rootDk, hn.round);
    var weights := MapRows(scaled, hn.softmaxRow);
    MapRowsShape(scaled, hn.softmaxRow, n, n);
    RoundedProductShaped(weights, v, n, n, dk, hn.round);
    HookHead(wq, wk, wv, q, k, v, scores, scaled, weights, RoundedProduct(weights, v, hn.round))
  }

  /** Scores[i][j] is query i against key j, Σ_k Q[i][k]·K[j][k], rounded; ScaledScores divides it by √d_k. */
  lemma HeadScores(x: Matrix, wq: Matrix, wk: Matrix, wv: Matrix, dModel: nat, dk: nat, hn: HookNumerics, i: nat, j: nat)
    requires HeadInputs(x, wq, wk, wv, dModel, dk) && ValidHookNumerics(hn)
    requires i < |x| && j < |x|
    ensures var hd := HeadFrom(x, wq, wk, wv, dModel, dk, hn);
      hd.scores[i][j] == hn.round(RowDot(hd.q, hd.k, i, j, dk))
      && hd.scaledScores[i][j] == hn.round(hd.scores[i][j] / hn.rootDk)
  {
    var hd := HeadFrom(x, wq, wk, wv, dModel, dk, hn);
    DotOfTranspose(hd.q, hd.k, dk, |x|, i, j, dk);
  }

  /** Draws Wq, Wk and Wv, in that order, and computes the head with them. */
  method AttentionHead(x: Matrix, rnd: MathRandom, dModel: nat, dk: nat, hn: HookNumerics) returns (hd: HookHead)
    requires |x| >= 1 && dModel >= 1 && dk >= 1 && Shaped(x, |x|, dModel) && ValidHookNumerics(hn)
    modifies rnd
    ensures HeadInputs(x, hd.wq, hd.wk, hd.wv, dModel, dk) && hd == HeadFrom(x, hd.wq, hd.wk, hd.wv, dModel, dk, hn)
    ensures hd.wq == RandomBlock(rnd.draw, old(rnd.calls), dModel, dk, hn.round)
    ensures hd.wk == RandomBlock(rnd.draw, old(rnd.calls) + dModel * dk, dModel, dk, hn.round)
    ensures hd.wv == RandomBlock(rnd.draw, old(rnd.calls) + 2 * (dModel * dk), dModel, dk, hn.round)
    ensures rnd.calls == old(rnd.calls) + 3 * (dModel * dk)
  {
    ghost var c0, s := rnd.calls, dModel * dk;
    assert Count(dModel) == dModel && Count(dk) == dk;
    var wq := CreateRandomMatrix(rnd, dModel, dk, hn.round);
    ghost var c1 := rnd.calls;
    assert c1 == c0 + s;
    var wk := CreateRandomMatrix(rnd, dModel, dk, hn.round);
    ghost var c2 := rnd.calls;
    assert c2 == c0 + 2 * s;
    assert wk == RandomBlock(rnd.draw, c1, dModel, dk, hn.round);
    var wv := CreateRandomMatrix(rnd, dModel, dk, hn.round);
    assert rnd.calls == c0 + 3 * s;
    assert wv == RandomBlock(rnd.draw, c2, dModel, dk, hn.round);
    assert HeadInputs(x, wq, wk, wv, dModel, dk);
    hd := HeadFrom(x, wq, wk, wv, dModel, dk, hn);
  }

  // ----- multi-head attention -----

  datatype HookMha = HookMha(heads: seq<HookHead>, wo: Matrix, output: Matrix)

  function HeadOutputs(hs: seq<HookHead>): (os: seq<Matrix>)
    ensures |os| == |hs| && forall j :: 0 <= j < |hs| ==> os[j] == hs[j].headOutput
  {
    seq(|hs|, j requires 0 <= j < |hs| => hs[j].headOutput)
  }

  /** Every head is the loop body on x with its own weights. */
  ghost predicate HeadsOf(hs: seq<HookHead>, x: Matrix, dModel: nat, dk: nat, hn: HookNumerics) {
    ValidHookNumerics(hn)
    && forall j :: 0 <= j < |hs| ==>
      HeadInputs(x, hs[j].wq, hs[j].wk, hs[j].wv, dModel, dk) && hs[j] == HeadFrom(x, hs[j].wq, hs[j].wk, hs[j].wv, dModel, dk, hn)
  }

  /** Heads computed on x all output |x| × d_k. */
  lemma HeadOutputsShaped(hs: seq<HookHead>, x: Matrix, dModel: nat, dk: nat, hn: HookNumerics)
    requires HeadsOf(hs, x, dModel, dk, hn)
    ensures AllShaped(HeadOutputs(hs), |x|, dk)
  {
    forall j | 0 <= j < |hs|
      ensures |HeadOutputs(hs)[j]| == |x| && forall i :: 0 <= i < |x| ==> |HeadOutputs(hs)[j][i]| == dk
    {
      var hd := hs[j];
      assert hd == HeadFrom(x, hd.wq, hd.wk, hd.wv, dModel, dk, hn);
    }
  }

  /** ConcatOutput · Wo, where ConcatOutput is the reduce that joins the head outputs row by row. */
  function MhaOutput(hs: seq<HookHead>, wo: Matrix, n: nat, dk: nat, dModel: nat, round: real -> real): (o: Matrix)
    requires AllShaped(HeadOutputs(hs), n, dk) && |hs| * dk == dModel && dModel >= 1 && n >= 1 && Shaped(wo, dModel, dModel)
    ensures Shaped(o, n, dModel)
  {
    ConcatRowsShape(HeadOutputs(hs), n, dk);
    RoundedProductShaped(ConcatRows(HeadOutputs(hs), n), wo, n, dModel, dModel, round);
    RoundedProduct(ConcatRows(HeadOutputs(hs), n), wo, round)
  }

  /** The dimensions every layer shares: d_model = h · d_k. */
  predicate LayerDims(h: nat, dModel: nat, dk: nat, dFf: nat) {
    h * dk == dModel && dModel >= 1 && dk >= 1 && dFf >= 1
  }

  /** One multi-head block on x: h heads, a d_model × d_model Wo, and Output = ConcatOutput · Wo. */
  ghost predicate MhaOf(mha: HookMha, x: Matrix, h: nat, dModel: nat, dk: nat, hn: HookNumerics) {
    |x| >= 1 && h * dk == dModel && dModel >= 1
    && |mha.heads| == h && HeadsOf(mha.heads, x, dModel, dk, hn) && AllShaped(HeadOutputs(mha.heads), |x|, dk)
    && Shaped(mha.wo, dModel, dModel)
    && mha.output == MhaOutput(mha.heads, mha.wo, |x|, dk, dModel, hn.round)
  }

  /** The `for (j < h)` loop, then Wo drawn and Output computed. */
  method MultiHeadAttention(x: Matrix, rnd: MathRandom, h: nat, dModel: nat, dk: nat, hn: HookNumerics)
    returns (mha: HookMha)
    requires |x| >= 1 && h * dk == dModel && dModel >= 1 && dk >= 1 && Shaped(x, |x|, dModel) && ValidHookNumerics(hn)
    modifies rnd
    ensures MhaOf(mha, x, h, dModel, dk, hn) && Shaped(mha.output, |x|, dModel)
  {
    var heads: seq<HookHead> := [];
    var headOutputs: seq<Matrix> := [];
    var j := 0;
    while j < h
      invariant 0 <= j <= h && |heads| == j && headOutputs == HeadOutputs(heads)
      invariant HeadsOf(heads, x, dModel, dk, hn)
    {
      var hd := AttentionHead(x, rnd, dModel, dk, hn);
      heads := heads + [hd];
      headOutputs := headOutputs + [hd.headOutput];
      j := j + 1;
    }
    HeadOutputsShaped(heads, x, dModel, dk, hn);
    var wo := CreateRandomMatrix(rnd, dModel, dModel, hn.round);
    mha := HookMha(heads, wo, MhaOutput(heads, wo, |x|, dk, dModel, hn.round));
  }

  // ----- the feed-forward block -----

  datatype HookFfn = HookFfn(w1: Matrix, b1: Vector, intermediate: Matrix, activated: Matrix,
                             w2: Matrix, b2: Vector, output: Matrix)

  /** The weights of a feed-forward block: W1 d_model × d_ff, b1 of d_ff, W2 d_ff × d_model, b2 of d_model. */
  predicate FfnWeights(w1: Matrix, b1: Vector, w2: Matrix, b2: Vector, dModel: nat, dFf: nat) {
    dModel >= 1 && dFf >= 1 && Shaped(w1, dModel, dFf) && |b1| == dFf && Shaped(w2, dFf, dModel) && |b2| == dModel
  }

  /**
   * Intermediate = x·W1 + b1 is n × d_ff, Activated = ReLU(Intermediate)
   * has no negative entry, and Output = Activated·W2 + b2 is n × d_model.
   */
  function FfnFrom(x: Matrix, w1: Matrix, b1: Vector, w2: Matrix, b2: Vector, dModel: nat, dFf: nat, round: real -> real)
    : (f: HookFfn)
    requires |x| >= 1 && Shaped(x, |x|, dModel) && FfnWeights(w1, b1, w2, b2, dModel, dFf)
    ensures f.w1 == w1 && f.b1 == b1 && f.w2 == w2 && f.b2 == b2
    ensures Shaped(f.intermediate, |x|, dFf) && Shaped(f.activated, |x|, dFf) && Shaped(f.output, |x|, dModel)
    ensures f.activated == ApplyReLU(f.intermediate)
    ensures forall i, j :: 0 <= i < |x| && 0 <= j < dFf ==> f.activated[i][j] >= 0.0
  {
    RoundedProductShaped(x, w1, |x|, dModel, dFf, round);
    var intermediate := RoundedBias(RoundedProduct(x, w1, round), b1, round);
    var activated := ApplyReLU(intermediate);
    RoundedProductShaped(activated, w2, |x|, dFf, dModel, round);
    HookFfn(w1, b1, intermediate, activated, w2, b2, RoundedBias(RoundedProduct(activated, w2, round), b2, round))
  }

  /** Draws W1, b1, W2 and b2, in that order, around the two products. */
  method FeedForward(x: Matrix, rnd: MathRandom, dModel: nat, dFf: nat, round: real -> real) returns (f: HookFfn)
    requires |x| >= 1 && Shaped(x, |x|, dModel) && dModel >= 1 && dFf >= 1
    modifies rnd
    ensures FfnWeights(f.w1, f.b1, f.w2, f.b2, dModel, dFf) && f == FfnFrom(x, f.w1, f.b1, f.w2, f.b2, dModel, dFf, round)
  {
    var w1 := CreateRandomMatrix(rnd, dModel, dFf, round);
    var b1 := CreateRandomVector(rnd, dFf, round);
    var w2 := CreateRandomMatrix(rnd, dFf, dModel, round);
    var b2 := CreateRandomVector(rnd, dModel, round);
    f := FfnFrom(x, w1, b1, w2, b2, dModel, dFf, round);
  }

  // ----- the encoder layer -----

  datatype HookLayer = HookLayer(mha: HookMha, addNorm1InResidual: Matrix, addNorm1InSublayer: Matrix, addNorm1Out: Matrix,
                                 ffn: HookFfn, addNorm2InResidual: Matrix, addNorm2InSublayer: Matrix, addNorm2Out: Matrix)

  /** layerNorm: the row normalisation applied to every row. */
  function NormRows(A: Matrix, hn: HookNumerics): (r: Matrix)
    requires ValidHookNumerics(hn)
    ensures |r| == |A| && forall i :: 0 <= i < |A| ==> |r[i]| == |A[i]|
  {
    MapRows(A, hn.normRow)
  }

  /**
   * One pass of the layer loop on x: the block's residual input is x and
   * its sublayer input is the attention output; the second Add & Norm takes
   * the first one's output as residual and the feed-forward output as
   * sublayer; both norms stay |x| × d_model.
   */
  ghost predicate LayerOf(layer: HookLayer, x: Matrix, h: nat, dModel: nat, dk: nat, dFf: nat, hn: HookNumerics) {
    |x| >= 1 && LayerDims(h, dModel, dk, dFf) && Shaped(x, |x|, dModel) && ValidHookNumerics(hn)
    && MhaOf(layer.mha, x, h, dModel, dk, hn) && Shaped(layer.mha.output, |x|, dModel)
    && layer.addNorm1InResidual == x && layer.addNorm1InSublayer == layer.mha.output
    && layer.addNorm1Out == NormRows(RoundedSum(x, layer.mha.output, hn.round), hn)
    && Shaped(layer.addNorm1Out, |x|, dModel)
    && FfnWeights(layer.ffn.w1, layer.ffn.b1, layer.ffn.w2, layer.ffn.b2, dModel, dFf)
    && layer.ffn == FfnFrom(layer.addNorm1Out, layer.ffn.w1, layer.ffn.b1, layer.ffn.w2, layer.ffn.b2, dModel, dFf, hn.round)
    && layer.addNorm2InResidual == layer.addNorm1Out && layer.addNorm2InSublayer == layer.ffn.output
    && layer.addNorm2Out == NormRows(RoundedSum(layer.addNorm1Out, layer.ffn.output, hn.round), hn)
    && Shaped(layer.addNorm2Out, |x|, dModel)
  }

  /** The body of the layer loop on currentInput x. */
  method EncoderLayer(x: Matrix, rnd: MathRandom, h: nat, dModel: nat, dk: nat, dFf: nat, hn: HookNumerics)
    returns (layer: HookLayer)
    requires |x| >= 1 && LayerDims(h, dModel, dk, dFf) && Shaped(x, |x|, dModel) && ValidHookNumerics(hn)
    modifies rnd
    ensures LayerOf(layer, x, h, dModel, dk, dFf, hn)
  {
    var mha := MultiHeadAttention(x, rnd, h, dModel, dk, hn);
    var addNorm1 := NormRows(RoundedSum(x, mha.output, hn.round), hn);
    var ffn := FeedForward(addNorm1, rnd, dModel, dFf, hn.round);
    var addNorm2 := NormRows(RoundedSum(addNorm1, ffn.output, hn.round), hn);
    layer := HookLayer(mha, x, mha.output, addNorm1, ffn, addNorm1, ffn.output, addNorm2);
  }

  // ----- the hook -----

  datatype HookData = HookData(inputEmbeddings: Matrix, posEncodings: Matrix, encoderInput: Matrix,
                               encoderLayers: seq<HookLayer>)

  /** What useTransformer returns: null, or the data. */
  datatype HookResult = Null | Data(data: HookData)

  /** currentInput after the given layers: the encoder input, then each layer's add_norm_2_out. */
  function CurrentInput(layers: seq<HookLayer>, x: Matrix): Matrix {
    if |layers| == 0 then x else layers[|layers| - 1].addNorm2Out
  }

  /** Every layer is the loop body on the currentInput the layers before it leave. */
  ghost predicate Chain(layers: seq<HookLayer>, x: Matrix, h: nat, dModel: nat, dk: nat, dFf: nat, hn: HookNumerics)
    decreases |layers|
  {
    |layers| == 0
    || (var k := |layers| - 1;
        Chain(layers[..k], x, h, dModel, dk, dFf, hn)
        && LayerOf(layers[k], CurrentInput(layers[..k], x), h, dModel, dk, dFf, hn))
  }

  /** Pushing the next layer built on currentInput keeps the chain. */
  lemma {:induction false} ChainStep(layers: seq<HookLayer>, x: Matrix, h: nat, dModel: nat, dk: nat, dFf: nat,
                                     hn: HookNumerics, layer: HookLayer)
    requires Chain(layers, x, h, dModel, dk, dFf, hn)
    requires LayerOf(layer, CurrentInput(layers, x), h, dModel, dk, dFf, hn)
    ensures Chain(layers + [layer], x, h, dModel, dk, dFf, hn)
    ensures CurrentInput(layers + [layer], x) == layer.addNorm2Out
  {
    var next := layers + [layer];
    assert next[..|layers|] == layers && next[|layers|] == layer;
  }

  /** The wiring alone: each layer's residual input is the currentInput the layers before it leave. */
  ghost predicate Wired(layers: seq<HookLayer>, x: Matrix)
    decreases |layers|
  {
    |layers| == 0
    || (var k := |layers| - 1;
        Wired(layers[..k], x) && layers[k].addNorm1InResidual == CurrentInput(layers[..k], x))
  }

  /** A chain of layers is wired. */
  lemma {:induction false} ChainWired(layers: seq<HookLayer>, x: Matrix, h: nat, dModel: nat, dk: nat, dFf: nat,
                                      hn: HookNumerics)
    requires Chain(layers, x, h, dModel, dk, dFf, hn)
    ensures Wired(layers, x)
    decreases |layers|
  {
    if |layers| > 0 {
      ChainWired(layers[..|layers| - 1], x, h, dModel, dk, dFf, hn);
    }
  }

  /** Layer 0's residual input is the encoder input, and layer i + 1's is layer i's add_norm_2_out. */
  lemma {:induction false} ResidualWiring(layers: seq<HookLayer>, x: Matrix, i: nat)
    requires Wired(layers, x) && i < |layers|
    ensures layers[i].addNorm1InResidual == (if i == 0 then x else layers[i - 1].addNorm2Out)
    decreases |layers|
  {
    var k := |layers| - 1;
    if i < k {
      ResidualWiring(layers[..k], x, i);
      assert layers[..k][i] == layers[i];
      if i > 0 {
        assert layers[..k][i - 1] == layers[i - 1];
      }
    } else if k > 0 {
      assert layers[..k][k - 1] == layers[k - 1];
    }
  }

  /** What every built layer shows on n input rows: h heads, and every intermediate with the shape of the source's comments. */
  ghost predicate LayerFacts(layer: HookLayer, n: nat, h: nat, dModel: nat, dk: nat, dFf: nat) {
    |layer.mha.heads| == h
    && (forall j :: 0 <= j < h ==>
          Shaped(layer.mha.heads[j].q, n, dk) && Shaped(layer.mha.heads[j].k, n, dk) && Shaped(layer.mha.heads[j].v, n, dk)
          && Shaped(layer.mha.heads[j].scores, n, n) && Shaped(layer.mha.heads[j].attentionWeights, n, n)
          && Shaped(layer.mha.heads[j].headOutput, n, dk))
    && Shaped(layer.mha.output, n, dModel) && Shaped(layer.addNorm1Out, n, dModel)
    && Shaped(layer.ffn.intermediate, n, dFf) && Shaped(layer.ffn.activated, n, dFf)
    && (forall r, c :: 0 <= r < n && 0 <= c < dFf ==> layer.ffn.activated[r][c] >= 0.0)
    && Shaped(layer.ffn.output, n, dModel) && Shaped(layer.addNorm2Out, n, dModel)
    && layer.addNorm1InSublayer == layer.mha.output
    && layer.addNorm2InResidual == layer.addNorm1Out && layer.addNorm2InSublayer == layer.ffn.output
  }

  /** One layer built on x has those facts. */
  lemma LayerFactsOf(layer: HookLayer, x: Matrix, h: nat, dModel: nat, dk: nat, dFf: nat, hn: HookNumerics)
    requires LayerOf(layer, x, h, dModel, dk, dFf, hn)
    ensures LayerFacts(layer, |x|, h, dModel, dk, dFf)
  {
    var hs := layer.mha.heads;
    forall j | 0 <= j < h
      ensures Shaped(hs[j].q, |x|, dk) && Shaped(hs[j].k, |x|, dk) && Shaped(hs[j].v, |x|, dk)
          && Shaped(hs[j].scores, |x|, |x|) && Shaped(hs[j].attentionWeights, |x|, |x|) && Shaped(hs[j].headOutput, |x|, dk)
    {
      assert hs[j] == HeadFrom(x, hs[j].wq, hs[j].wk, hs[j].wv, dModel, dk, hn);
    }
  }

  /** Every layer has those facts on n rows. */
  ghost predicate AllFacts(layers: seq<HookLayer>, n: nat, h: nat, dModel: nat, dk: nat, dFf: nat)
    decreases |layers|
  {
    |layers| == 0
    || (AllFacts(layers[..|layers| - 1], n, h, dModel, dk, dFf) && LayerFacts(layers[|layers| - 1], n, h, dModel, dk, dFf))
  }

  /** A chain on n × d_model input has those facts on n rows and leaves n rows. */
  lemma {:induction false} ChainFacts(layers: seq<HookLayer>, x: Matrix, h: nat, dModel: nat, dk: nat, dFf: nat,
                                      hn: HookNumerics)
    requires Chain(layers, x, h, dModel, dk, dFf, hn)
    ensures AllFacts(layers, |x|, h, dModel, dk, dFf) && |CurrentInput(layers, x)| == |x|
    decreases |layers|
  {
    if |layers| > 0 {
      var k := |layers| - 1;
      ChainFacts(layers[..k], x, h, dModel, dk, dFf, hn);
      LayerFactsOf(layers[k], CurrentInput(layers[..k], x), h, dModel, dk, dFf, hn);
    }
  }

  /** So does each layer on its own. */
  lemma {:induction false} FactsAt(layers: seq<HookLayer>, n: nat, h: nat, dModel: nat, dk: nat, dFf: nat, i: nat)
    requires AllFacts(layers, n, h, dModel, dk, dFf) && i < |layers|
    ensures LayerFacts(layers[i], n, h, dModel, dk, dFf)
    decreases |layers|
  {
    var k := |layers| - 1;
    if i < k {
      FactsAt(layers[..k], n, h, dModel, dk, dFf, i);
      assert layers[..k][i] == layers[i];
    }
  }

  /** The table of lines 91-97: seq_len rows of d_model rounded sine/cosine values. */
  function PosEncodings(n: nat, dModel: nat, hn: HookNumerics): (p: Matrix)
    ensures Shaped(p, n, dModel)
    ensures forall pos, i :: 0 <= pos < n && 0 <= i < dModel ==> p[pos][i] == hn.posEntry(pos, i)
  {
    seq(n, pos requires 0 <= pos < n => seq(dModel, i requires 0 <= i < dModel => hn.posEntry(pos, i)))
  }

  /**
   * What a successful call holds: seq_len × d_model embeddings, the
   * positional table, their rounded sum as encoder input, and n_layers
   * layers chained from it.
   */
  ghost predicate HookDataOf(d: HookData, dims: EC.ModelDims, hn: HookNumerics) {
    dims.dModel >= 1 && dims.h >= 1 && dims.dFf >= 1 && ValidHookNumerics(hn)
    && dims.dModel % dims.h == 0
    && (var n := Count(dims.seqLen);
        Shaped(d.inputEmbeddings, n, dims.dModel)
        && d.posEncodings == PosEncodings(n, dims.dModel, hn)
        && d.encoderInput == RoundedSum(d.inputEmbeddings, d.posEncodings, hn.round)
        && |d.encoderLayers| == Count(dims.nLayers)
        && Chain(d.encoderLayers, d.encoderInput, dims.h, dims.dModel, dims.dModel / dims.h, dims.dFf, hn))
  }

  /**
   * useTransformer for positive d_model, h and d_ff: null when h does not
   * divide d_model, and null (the exception caught) when there is a layer
   * to build on an empty input; otherwise the data.
   */
  method UseTransformer(dims: EC.ModelDims, rnd: MathRandom, hn: HookNumerics) returns (r: HookResult)
    requires dims.dModel >= 1 && dims.h >= 1 && dims.dFf >= 1 && ValidHookNumerics(hn)
    modifies rnd
    ensures r.Null? <==> JsRem(dims.dModel, dims.h) != 0 || (dims.nLayers >= 1 && dims.seqLen <= 0)
    ensures r.Data? ==> HookDataOf(r.data, dims, hn)
  {
    JsRemZero(dims.dModel, dims.h);
    if JsRem(dims.dModel, dims.h) != 0 {
      return Null;
    }
    var dModel: nat, h: nat, dFf: nat := dims.dModel, dims.h, dims.dFf;
    var dk: nat := dModel / h;
    assert h * dk == dModel;
    MulLeq(1, dk, h);
    var n := Count(dims.seqLen);
    var inputEmbeddings := CreateRandomMatrix(rnd, dims.seqLen, dModel, hn.round);
    var posEncodings := PosEncodings(n, dModel, hn);
    var encoderInput := RoundedSum(inputEmbeddings, posEncodings, hn.round);
    if dims.nLayers >= 1 && n == 0 {
      // the first head draws Wq, Wk and Wv, then multiplyMatrices reads
      // A[0].length of the empty currentInput: a TypeError, caught
      var wq := CreateRandomMatrix(rnd, dModel, dk, hn.round);
      var wk := CreateRandomMatrix(rnd, dModel, dk, hn.round);
      var wv := CreateRandomMatrix(rnd, dModel, dk, hn.round);
      return Null;
    }
    var layers := EncoderLayers(encoderInput, rnd, dims.nLayers, h, dModel, dk, dFf, hn);
    return Data(HookData(inputEmbeddings, posEncodings, encoderInput, layers));
  }

  /** The layer loop: n_layers encoder layers, each on the previous one's add_norm_2_out. */
  method EncoderLayers(encoderInput: Matrix, rnd: MathRandom, nLayers: int, h: nat, dModel: nat, dk: nat, dFf: nat,
                       hn: HookNumerics) returns (layers: seq<HookLayer>)
    requires (nLayers >= 1 ==> |encoderInput| >= 1) && h >= 1 && dk >= 1 && dFf >= 1 && h * dk == dModel
    requires Shaped(encoderInput, |encoderInput|, dModel) && ValidHookNumerics(hn)
    modifies rnd
    ensures |layers| == Count(nLayers) && Chain(layers, encoderInput, h, dModel, dk, dFf, hn)
  {
    var n := |encoderInput|;
    var currentInput := encoderInput;
    layers := [];
    var i := 0;
    while i < nLayers
      invariant 0 <= i <= Count(nLayers) && |layers| == i
      invariant Chain(layers, encoderInput, h, dModel, dk, dFf, hn) && currentInput == CurrentInput(layers, encoderInput)
      invariant Shaped(currentInput, n, dModel)
    {
      var layer := EncoderLayer(currentInput, rnd, h, dModel, dk, dFf, hn);
      ChainStep(layers, encoderInput, h, dModel, dk, dFf, hn, layer);
      layers := layers + [layer];
      currentInput := layer.addNorm2Out;
      i := i + 1;
    }
  }

  /**
   * In what a successful call returns, layer i holds h heads and the shapes
   * of seq_len rows throughout, its Activated has no negative entry, and its
   * residual input is the encoder input (i = 0) or layer i - 1's add_norm_2_out.
   */
  lemma HookLayers(d: HookData, dims: EC.ModelDims, hn: HookNumerics, i: nat)
    requires HookDataOf(d, dims, hn) && i < |d.encoderLayers|
    ensures LayerFacts(d.encoderLayers[i], Count(dims.seqLen), dims.h, dims.dModel, dims.dModel / dims.h, dims.dFf)
    ensures d.encoderLayers[i].addNorm1InResidual == (if i == 0 then d.encoderInput else d.encoderLayers[i - 1].addNorm2Out)
  {
    var dk := dims.dModel / dims.h;
    ChainFacts(d.encoderLayers, d.encoderInput, dims.h, dims.dModel, dk, dims.dFf, hn);
    FactsAt(d.encoderLayers, |d.encoderInput|, dims.h, dims.dModel, dk, dims.dFf, i);
    ChainWired(d.encoderLayers, d.encoderInput, dims.h, dims.dModel, dk, dims.dFf, hn);
    ResidualWiring(d.encoderLayers, d.encoderInput, i);
  }
}
