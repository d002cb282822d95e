// calculateTransformer of src/topics/transformer-explorer/lib/transformer.ts:
// tokenise, look the words up, add the position table, run n_layers encoder
// layers and n_layers decoder layers over the fixed weights, project to the
// vocabulary and read off the most likely word per decoder position.
// Softmax, layer normalisation, √d_k and the sine/cosine position table are
// floating-point steps the model takes as parameters (Numerics); shapes,
// wiring, the null results and the inputs that make the code throw are modelled.
// transformer.ts imports whitespaceTokenizer from its own `./tokenizer`
// (src/topics/transformer-explorer/lib/tokenizer.ts), which is not part of
// this model; the pass assumes it behaves as src/lib/tokenizer.ts and
// tokenises with Tokenizer.WhitespaceTokenizer.

module Transformer {
  import opened Text
  import opened Arith
  import opened Matrices
  import opened Tokenizer
  import FW = FixedWeights
  import EC = ExplorerControls

  /** An attention score: a number, or the -Infinity that applyMask writes. */
  datatype Score = Finite(v: real) | NegInf

  /**
   * The floating-point parts: softmax of one row (which ignores -Infinity
   * entries), layer normalisation of one row, the scalar √d_k, and the
   * 10 × d_model sine/cosine position table of fixedWeights.
   */
  datatype Numerics = Numerics(softmaxRow: seq<Score> -> seq<real>, normRow: seq<real> -> seq<real>,
                               rootDk: real, posTable: Matrix)

  /** Both row maps keep the row length, √d_k is positive, and the table is 10 × d_model. */
  ghost predicate ValidNumerics(nm: Numerics, dModel: int) {
    (forall row :: |nm.softmaxRow(row)| == |row|)
    && (forall row :: |nm.normRow(row)| == |row|)
    && nm.rootDk > 0.0 && Shaped(nm.posTable, 10, dModel)
  }

  // ----- the row-wise helpers -----

  function Lift(M: Matrix): (S: seq<seq<Score>>)
    ensures |S| == |M| && forall i :: 0 <= i < |M| ==> |S[i]| == |M[i]|
  {
    seq(|M|, i requires 0 <= i < |M| => seq(|M[i]|, j requires 0 <= j < |M[i]| => Finite(M[i][j])))
  }

  /** scaleMatrix: every score divided by s; -Infinity stays -Infinity. */
  function ScaleScores(S: seq<seq<Score>>, s: real): (r: seq<seq<Score>>)
    requires s > 0.0
    ensures |r| == |S| && forall i :: 0 <= i < |S| ==> |r[i]| == |S[i]|
  {
    seq(|S|, i requires 0 <= i < |S| => seq(|S[i]|, j requires 0 <= j < |S[i]| =>
      match S[i][j] case Finite(v) => Finite(v / s) case NegInf => NegInf))
  }

  /** softmaxByRow */
  function SoftmaxByRow(S: seq<seq<Score>>, nm: Numerics): (r: Matrix)
    requires forall row :: |nm.softmaxRow(row)| == |row|
    ensures |r| == |S| && forall i :: 0 <= i < |S| ==> |r[i]| == |S[i]|
  {
    seq(|S|, i requires 0 <= i < |S| => nm.softmaxRow(S[i]))
  }

  /** layerNorm: [] for no rows or an empty first row, else each row normalised. */
  function LayerNorm(A: Matrix, nm: Numerics): (r: Matrix)
    requires forall row :: |nm.normRow(row)| == |row|
    ensures |A| > 0 && |A[0]| > 0 ==> |r| == |A| && forall i :: 0 <= i < |A| ==> |r[i]| == |A[i]|
    ensures |A| == 0 || |A[0]| == 0 ==> r == []
  {
    if |A| == 0 || |A[0]| == 0 then [] else seq(|A|, i requires 0 <= i < |A| => nm.normRow(A[i]))
  }

  /** Layer normalisation of an n × d matrix with d >= 1 is n × d. */
  lemma {:induction false} LayerNormShape(A: Matrix, nm: Numerics, n: nat, d: nat)
    requires forall row :: |nm.normRow(row)| == |row|
    requires Shaped(A, n, d) && d >= 1
    ensures Shaped(LayerNorm(A, nm), n, d)
  {
  }

  // ----- one attention head -----

  datatype HeadData = HeadData(wq: Matrix, wk: Matrix, wv: Matrix, q: Matrix, k: Matrix, v: Matrix,
                               scores: seq<seq<Score>>, scaledScores: seq<seq<Score>>,
                               attentionWeights: Matrix, headOutput: Matrix)

  /**
   * The head's inputs have the shapes the loop body needs: queries from an
   * n × d_model matrix, keys and values from an m × d_model one (m is the
   * sequence length the transposition loops over), d_model × d_k weights.
   */
  predicate HeadInputs(xq: Matrix, xkv: Matrix, w: FW.HeadWeights, dModel: nat, dk: nat) {
    dModel >= 1 && dk >= 1 && Shaped(xq, |xq|, dModel) && Shaped(xkv, |xkv|, dModel) && (|xq| == 0 || |xkv| >= 1)
    && Shaped(w.wq, dModel, dk) && Shaped(w.wk, dModel, dk) && Shaped(w.wv, dModel, dk)
  }

  /**
   * The body of a head loop: Q, K, V projections, Scores = Q·Kᵀ (masked above
   * the diagonal in the decoder's self-attention), scaled by √d_k,
   * softmaxed, and multiplied by V.
   */
  function AttentionHead(xq: Matrix, xkv: Matrix, w: FW.HeadWeights, dModel: nat, dk: nat, masked: bool, nm: Numerics): (hd: HeadData)
    requires HeadInputs(xq, xkv, w, dModel, dk) && ValidNumerics(nm, dModel)
    ensures hd.wq == w.wq && hd.wk == w.wk && hd.wv == w.wv
    ensures Shaped(hd.q, |xq|, dk) && Shaped(hd.k, |xkv|, dk) && Shaped(hd.v, |xkv|, dk)
    ensures |hd.scores| == |xq| && forall i :: 0 <= i < |xq| ==> |hd.scores[i]| == |xkv|
    ensures Shaped(hd.attentionWeights, |xq|, |xkv|) && Shaped(hd.headOutput, |xq|, dk)
  {
    var n, m := |xq|, |xkv|;
    ProductShaped(xq, w.wq, n, dModel, dk);
    ProductShaped(xkv, w.wk, m, dModel, dk);
    ProductShaped(xkv, w.wv, m, dModel, dk);
    var Q := Product(xq, w.wq);
    var K := Product(xkv, w.wk);
    var V := Product(xkv, w.wv);
    var KT := Transpose(K, dk, m);
    ProductShaped(Q, KT, n, dk, m);
    var raw := Lift(Product(Q, KT));
    var scores := if masked then ApplyMask(raw, NegInf) else raw;
    var scaled := ScaleScores(scores, nm.rootDk);
    var weights := SoftmaxByRow(scaled, nm);
    ProductShaped(weights, V, n, m, dk);
    HeadData(w.wq, w.wk, w.wv, Q, K, V, scores, scaled, weights, Product(weights, V))
  }

  /** Through K_T[r][c] = K[c][r], Scores[i][j] is query i against key j: Σ_k Q[i][k]·K[j][k]. */
  lemma {:induction false} ScoresAreQueryKeyProducts(xq: Matrix, xkv: Matrix, w: FW.HeadWeights, dModel: nat, dk: nat, nm: Numerics, i: nat, j: nat)
    requires HeadInputs(xq, xkv, w, dModel, dk) && ValidNumerics(nm, dModel)
    requires i < |xq| && j < |xkv|
    ensures var hd := AttentionHead(xq, xkv, w, dModel, dk, false, nm);
      hd.scores[i][j] == Finite(RowDot(hd.q, hd.k, i, j, dk))
  {
    var hd := AttentionHead(xq, xkv, w, dModel, dk, false, nm);
    DotOfTranspose(hd.q, hd.k, dk, |xkv|, i, j, dk);
  }

  /** In the decoder's self-attention a query sees only itself and earlier positions: later scores are -Infinity. */
  lemma {:induction false} MaskedScores(xq: Matrix, xkv: Matrix, w: FW.HeadWeights, dModel: nat, dk: nat, nm: Numerics, i: nat, j: nat)
    requires HeadInputs(xq, xkv, w, dModel, dk) && ValidNumerics(nm, dModel)
    requires i < |xq| && j < |xkv|
    ensures var hd := AttentionHead(xq, xkv, w, dModel, dk, true, nm);
      var open := AttentionHead(xq, xkv, w, dModel, dk, false, nm);
      (j > i ==> hd.scores[i][j] == NegInf && hd.scaledScores[i][j] == NegInf)
      && (j <= i ==> hd.scores[i][j] == open.scores[i][j] && hd.scaledScores[i][j] == open.scaledScores[i][j])
  {
  }

  // ----- the feed-forward block -----

  datatype FfnData = FfnData(w1: Matrix, b1: Vector, intermediate: Matrix, activated: Matrix,
                             w2: Matrix, b2: Vector, output: Matrix)

  /** Intermediate = x·W1 + b1, Activated = ReLU(Intermediate), Output = Activated·W2 + b2. */
  function Ffn(x: Matrix, w: FW.FfnWeights, dModel: nat, dFf: nat): (f: FfnData)
    requires dModel >= 1 && dFf >= 1 && Shaped(x, |x|, dModel) && FW.FfnShaped(w, dModel, dFf)
    ensures f.w1 == w.w1 && f.b1 == w.b1 && f.w2 == w.w2 && f.b2 == w.b2
    ensures Shaped(f.intermediate, |x|, dFf) && Shaped(f.activated, |x|, dFf) && Shaped(f.output, |x|, dModel)
    ensures forall i, j :: 0 <= i < |x| && 0 <= j < dFf ==> f.activated[i][j] >= 0.0
    ensures f.activated == ApplyReLU(f.intermediate)
  {
    ProductShaped(x, w.w1, |x|, dModel, dFf);
    var intermediate := AddBias(Product(x, w.w1), w.b1);
    var activated := ApplyReLU(intermediate);
    ProductShaped(activated, w.w2, |x|, dFf, dModel);
    FfnData(w.w1, w.b1, intermediate, activated, w.w2, w.b2, AddBias(Product(activated, w.w2), w.b2))
  }

  // ----- multi-head attention -----

  datatype MhaData = MhaData(heads: seq<HeadData>, wo: Matrix, output: Matrix)

  function HeadOutputs(hs: seq<HeadData>): (os: seq<Matrix>)
    ensures |os| == |hs| && forall j :: 0 <= j < |hs| ==> os[j] == hs[j].headOutput
  {
    seq(|hs|, j requires 0 <= j < |hs| => hs[j].headOutput)
  }

  /** ConcatOutput: the reduce over the head outputs, from `Array(n)` empty rows. */
  function ConcatOutput(hs: seq<HeadData>, n: nat, dk: nat): (c: Matrix)
    requires AllShaped(HeadOutputs(hs), n, dk)
    ensures Shaped(c, n, |hs| * dk)
  {
    ConcatRowsShape(HeadOutputs(hs), n, dk);
    ConcatRows(HeadOutputs(hs), n)
  }

  /** ConcatOutput · Wo. */
  function MhaOutput(hs: seq<HeadData>, wo: Matrix, n: nat, dk: nat, dModel: nat): (o: Matrix)
    requires AllShaped(HeadOutputs(hs), n, dk) && |hs| * dk == dModel && dModel >= 1 && Shaped(wo, dModel, dModel)
    ensures Shaped(o, n, dModel)
  {
    ProductShaped(ConcatOutput(hs, n, dk), wo, n, dModel, dModel);
    Product(ConcatOutput(hs, n, dk), wo)
  }

  /** Every head of the weights gets inputs of the shapes it needs. */
  predicate MhaInputs(xq: Matrix, xkv: Matrix, w: FW.MhaWeights, h: nat, dModel: nat, dk: nat) {
    FW.MhaShaped(w, h, dModel, dk) && h * dk == dModel && dModel >= 1 && dk >= 1
    && Shaped(xq, |xq|, dModel) && Shaped(xkv, |xkv|, dModel) && (|xq| == 0 || |xkv| >= 1)
  }

  /** What a multi-head block holds: head j is the loop body on weights j, and the output is Concat·Wo. */
  ghost predicate MhaOf(mha: MhaData, xq: Matrix, xkv: Matrix, w: FW.MhaWeights, h: nat, dModel: nat, dk: nat,
                        masked: bool, nm: Numerics)
  {
    MhaInputs(xq, xkv, w, h, dModel, dk) && ValidNumerics(nm, dModel)
    && |mha.heads| == h
    && (forall j :: 0 <= j < h ==> mha.heads[j] == AttentionHead(xq, xkv, w.heads[j], dModel, dk, masked, nm))
    && mha.wo == w.wo
    && mha.output == MhaOutput(mha.heads, w.wo, |xq|, dk, dModel)
  }

  /** Each head of well-shaped multi-head weights gets inputs of the shapes it needs. */
  lemma {:induction false} HeadFits(xq: Matrix, xkv: Matrix, w: FW.MhaWeights, h: nat, dModel: nat, dk: nat, j: nat)
    requires MhaInputs(xq, xkv, w, h, dModel, dk) && j < h
    ensures HeadInputs(xq, xkv, w.heads[j], dModel, dk)
  {
  }

  /** Heads computed on queries xq all output |xq| × d_k. */
  lemma {:induction false} HeadOutputsShaped(heads: seq<HeadData>, xq: Matrix, xkv: Matrix, w: FW.MhaWeights,
                                             h: nat, dModel: nat, dk: nat, masked: bool, nm: Numerics)
    requires MhaInputs(xq, xkv, w, h, dModel, dk) && ValidNumerics(nm, dModel)
    requires |heads| <= h
    requires forall i :: 0 <= i < |heads| ==>
      (HeadInputs(xq, xkv, w.heads[i], dModel, dk) && heads[i] == AttentionHead(xq, xkv, w.heads[i], dModel, dk, masked, nm))
    ensures AllShaped(HeadOutputs(heads), |xq|, dk)
  {
  }

  /** The loop's record: the heads pushed so far are the loop body on the first weights, in order. */
  ghost predicate HeadsBuilt(heads: seq<HeadData>, xq: Matrix, xkv: Matrix, w: FW.MhaWeights, dModel: nat, dk: nat,
                             masked: bool, nm: Numerics)
  {
    ValidNumerics(nm, dModel) && |heads| <= |w.heads|
    && forall i :: 0 <= i < |heads| ==>
      (HeadInputs(xq, xkv, w.heads[i], dModel, dk) && heads[i] == AttentionHead(xq, xkv, w.heads[i], dModel, dk, masked, nm))
  }

  /** Pushing the next head keeps the record. */
  lemma {:induction false} HeadsBuiltStep(heads: seq<HeadData>, hd: HeadData, xq: Matrix, xkv: Matrix, w: FW.MhaWeights,
                                          dModel: nat, dk: nat, masked: bool, nm: Numerics)
    requires HeadsBuilt(heads, xq, xkv, w, dModel, dk, masked, nm) && |heads| < |w.heads|
    requires HeadInputs(xq, xkv, w.heads[|heads|], dModel, dk)
    requires hd == AttentionHead(xq, xkv, w.heads[|heads|], dModel, dk, masked, nm)
    ensures HeadsBuilt(heads + [hd], xq, xkv, w, dModel, dk, masked, nm)
  {
    var hs := heads + [hd];
    forall i | 0 <= i < |hs|
      ensures HeadInputs(xq, xkv, w.heads[i], dModel, dk) && hs[i] == AttentionHead(xq, xkv, w.heads[i], dModel, dk, masked, nm)
    {
      if i < |heads| { assert hs[i] == heads[i]; }
    }
  }

  /** Pushing a head pushes its output. */
  lemma {:induction false} HeadOutputsPush(heads: seq<HeadData>, hd: HeadData)
    ensures HeadOutputs(heads + [hd]) == HeadOutputs(heads) + [hd.headOutput]
  {
    var a, b := HeadOutputs(heads + [hd]), HeadOutputs(heads) + [hd.headOutput];
    assert |a| == |b|;
    forall i | 0 <= i < |a| ensures a[i] == b[i] {
      if i < |heads| { assert (heads + [hd])[i] == heads[i]; }
    }
  }

  /** The `for (j < h)` loop: each head is computed and pushed, with its output, in head order. */
  method MultiHeadAttention(xq: Matrix, xkv: Matrix, w: FW.MhaWeights, h: nat, dModel: nat, dk: nat,
                            masked: bool, nm: Numerics) returns (mha: MhaData)
    requires MhaInputs(xq, xkv, w, h, dModel, dk) && ValidNumerics(nm, dModel)
    ensures MhaOf(mha, xq, xkv, w, h, dModel, dk, masked, nm)
    ensures Shaped(mha.output, |xq|, dModel)
  {
    var heads: seq<HeadData> := [];
    var headOutputs: seq<Matrix> := [];
    var j := 0;
    while j < h
      invariant 0 <= j <= h && |heads| == j && headOutputs == HeadOutputs(heads)
      invariant HeadsBuilt(heads, xq, xkv, w, dModel, dk, masked, nm)
    {
      HeadFits(xq, xkv, w, h, dModel, dk, j);
      var hd := AttentionHead(xq, xkv, w.heads[j], dModel, dk, masked, nm);
      HeadsBuiltStep(heads, hd, xq, xkv, w, dModel, dk, masked, nm);
      HeadOutputsPush(heads, hd);
      heads := heads + [hd];
      headOutputs := headOutputs + [hd.headOutput];
      j := j + 1;
    }
    HeadOutputsShaped(heads, xq, xkv, w, h, dModel, dk, masked, nm);
    mha := MhaData(heads, w.wo, MhaOutput(heads, w.wo, |xq|, dk, dModel));
  }

  // ----- encoder and decoder layers -----

  datatype EncoderLayerData = EncoderLayerData(encoderInput: Matrix, mha: MhaData, mhaOutput: Matrix,
                                               addNorm1Output: Matrix, ffn: FfnData, ffnOutput: Matrix,
                                               addNorm2Output: Matrix)

  datatype DecoderLayerData = DecoderLayerData(decoderInput: Matrix, maskedMha: MhaData, maskedMhaOutput: Matrix,
                                               addNorm1Output: Matrix, encDecMha: MhaData, encDecMhaOutput: Matrix,
                                               addNorm2Output: Matrix, ffn: FfnData, ffnOutput: Matrix,
                                               addNorm3Output: Matrix)

  /** The dimensions every layer shares. */
  predicate LayerDims(h: nat, dModel: nat, dk: nat, dFf: nat) {
    h * dk == dModel && dModel >= 1 && dk >= 1 && dFf >= 1
  }

  /**
   * Encoder layer: self-attention over x, Add & Norm with x as the residual,
   * the feed-forward block, Add & Norm with the first norm as the residual.
   */
  ghost predicate EncoderLayerOf(layer: EncoderLayerData, x: Matrix, w: FW.EncoderLayerWeights,
                                 h: nat, dModel: nat, dk: nat, dFf: nat, nm: Numerics)
  {
    LayerDims(h, dModel, dk, dFf) && FW.MhaShaped(w.mha, h, dModel, dk) && FW.FfnShaped(w.ffn, dModel, dFf)
    && Shaped(x, |x|, dModel) && ValidNumerics(nm, dModel)
    && layer.encoderInput == x
    && MhaOf(layer.mha, x, x, w.mha, h, dModel, dk, false, nm) && layer.mhaOutput == layer.mha.output
    && Shaped(layer.mhaOutput, |x|, dModel)
    && layer.addNorm1Output == LayerNorm(AddMatrices(x, layer.mhaOutput), nm)
    && Shaped(layer.addNorm1Output, |x|, dModel)
    && layer.ffn == Ffn(layer.addNorm1Output, w.ffn, dModel, dFf) && layer.ffnOutput == layer.ffn.output
    && layer.addNorm2Output == LayerNorm(AddMatrices(layer.addNorm1Output, layer.ffnOutput), nm)
    && Shaped(layer.addNorm2Output, |x|, dModel)
  }

  /** The body of the encoder's layer loop. */
  method EncoderLayer(x: Matrix, w: FW.EncoderLayerWeights, h: nat, dModel: nat, dk: nat, dFf: nat, nm: Numerics)
    returns (layer: EncoderLayerData)
    requires LayerDims(h, dModel, dk, dFf) && FW.MhaShaped(w.mha, h, dModel, dk) && FW.FfnShaped(w.ffn, dModel, dFf)
    requires Shaped(x, |x|, dModel) && ValidNumerics(nm, dModel)
    ensures EncoderLayerOf(layer, x, w, h, dModel, dk, dFf, nm)
  {
    var n := |x|;
    var mha := MultiHeadAttention(x, x, w.mha, h, dModel, dk, false, nm);
    var addNorm1 := LayerNorm(AddMatrices(x, mha.output), nm);
    LayerNormShape(AddMatrices(x, mha.output), nm, n, dModel);
    var ffn := Ffn(addNorm1, w.ffn, dModel, dFf);
    var addNorm2 := LayerNorm(AddMatrices(addNorm1, ffn.output), nm);
    LayerNormShape(AddMatrices(addNorm1, ffn.output), nm, n, dModel);
    layer := EncoderLayerData(x, mha, mha.output, addNorm1, ffn, ffn.output, addNorm2);
  }

  /**
   * Decoder layer: masked self-attention over y, Add & Norm, attention with
   * queries from the first norm and keys and values from the encoder output,
   * Add & Norm, the feed-forward block, Add & Norm.
   */
  ghost predicate DecoderLayerOf(layer: DecoderLayerData, y: Matrix, enc: Matrix, w: FW.DecoderLayerWeights,
                                 h: nat, dModel: nat, dk: nat, dFf: nat, nm: Numerics)
  {
    LayerDims(h, dModel, dk, dFf) && FW.MhaShaped(w.maskedMha, h, dModel, dk)
    && FW.MhaShaped(w.encDecMha, h, dModel, dk) && FW.FfnShaped(w.ffn, dModel, dFf)
    && Shaped(y, |y|, dModel) && Shaped(enc, |enc|, dModel) && |enc| >= 1 && ValidNumerics(nm, dModel)
    && layer.decoderInput == y
    && MhaOf(layer.maskedMha, y, y, w.maskedMha, h, dModel, dk, true, nm) && layer.maskedMhaOutput == layer.maskedMha.output
    && Shaped(layer.maskedMhaOutput, |y|, dModel)
    && layer.addNorm1Output == LayerNorm(AddMatrices(y, layer.maskedMhaOutput), nm)
    && Shaped(layer.addNorm1Output, |y|, dModel)
    && MhaOf(layer.encDecMha, layer.addNorm1Output, enc, w.encDecMha, h, dModel, dk, false, nm)
    && layer.encDecMhaOutput == layer.encDecMha.output
    && Shaped(layer.encDecMhaOutput, |y|, dModel)
    && layer.addNorm2Output == LayerNorm(AddMatrices(layer.addNorm1Output, layer.encDecMhaOutput), nm)
    && Shaped(layer.addNorm2Output, |y|, dModel)
    && layer.ffn == Ffn(layer.addNorm2Output, w.ffn, dModel, dFf) && layer.ffnOutput == layer.ffn.output
    && layer.addNorm3Output == LayerNorm(AddMatrices(layer.addNorm2Output, layer.ffnOutput), nm)
    && Shaped(layer.addNorm3Output, |y|, dModel)
  }

  /** The body of the decoder's layer loop. */
  method DecoderLayer(y: Matrix, enc: Matrix, w: FW.DecoderLayerWeights, h: nat, dModel: nat, dk: nat, dFf: nat,
                      nm: Numerics) returns (layer: DecoderLayerData)
    requires LayerDims(h, dModel, dk, dFf) && FW.MhaShaped(w.maskedMha, h, dModel, dk)
    requires FW.MhaShaped(w.encDecMha, h, dModel, dk) && FW.FfnShaped(w.ffn, dModel, dFf)
    requires Shaped(y, |y|, dModel) && Shaped(enc, |enc|, dModel) && |enc| >= 1 && ValidNumerics(nm, dModel)
    ensures DecoderLayerOf(layer, y, enc, w, h, dModel, dk, dFf, nm)
  {
    var n := |y|;
    var masked, addNorm1, encDec, addNorm2 := DecoderAttentions(y, enc, w, h, dModel, dk, dFf, nm);
    var ffn := Ffn(addNorm2, w.ffn, dModel, dFf);
    var addNorm3 := LayerNorm(AddMatrices(addNorm2, ffn.output), nm);
    LayerNormShape(AddMatrices(addNorm2, ffn.output), nm, n, dModel);
    layer := DecoderLayerData(y, masked, masked.output, addNorm1, encDec, encDec.output, addNorm2, ffn, ffn.output, addNorm3);
  }

  /** The decoder layer's two attention blocks, each followed by its Add & Norm. */
  method DecoderAttentions(y: Matrix, enc: Matrix, w: FW.DecoderLayerWeights, h: nat, dModel: nat, dk: nat, dFf: nat,
                           nm: Numerics) returns (masked: MhaData, addNorm1: Matrix, encDec: MhaData, addNorm2: Matrix)
    requires LayerDims(h, dModel, dk, dFf) && FW.MhaShaped(w.maskedMha, h, dModel, dk)
    requires FW.MhaShaped(w.encDecMha, h, dModel, dk)
    requires Shaped(y, |y|, dModel) && Shaped(enc, |enc|, dModel) && |enc| >= 1 && ValidNumerics(nm, dModel)
    ensures MhaOf(masked, y, y, w.maskedMha, h, dModel, dk, true, nm) && Shaped(masked.output, |y|, dModel)
    ensures addNorm1 == LayerNorm(AddMatrices(y, masked.output), nm) && Shaped(addNorm1, |y|, dModel)
    ensures MhaOf(encDec, addNorm1, enc, w.encDecMha, h, dModel, dk, false, nm) && Shaped(encDec.output, |y|, dModel)
    ensures addNorm2 == LayerNorm(AddMatrices(addNorm1, encDec.output), nm) && Shaped(addNorm2, |y|, dModel)
  {
    var n := |y|;
    masked := MultiHeadAttention(y, y, w.maskedMha, h, dModel, dk, true, nm);
    addNorm1 := LayerNorm(AddMatrices(y, masked.output), nm);
    LayerNormShape(AddMatrices(y, masked.output), nm, n, dModel);
    encDec := MultiHeadAttention(addNorm1, enc, w.encDecMha, h, dModel, dk, false, nm);
    addNorm2 := LayerNorm(AddMatrices(addNorm1, encDec.output), nm);
    LayerNormShape(AddMatrices(addNorm1, encDec.output), nm, n, dModel);
  }

  // ----- layer stacks -----

  /** Every encoder layer's weights have the shapes its products need. */
  predicate EncoderWeightsShaped(ws: seq<FW.EncoderLayerWeights>, h: nat, dModel: nat, dk: nat, dFf: nat) {
    forall l :: 0 <= l < |ws| ==> FW.MhaShaped(ws[l].mha, h, dModel, dk) && FW.FfnShaped(ws[l].ffn, dModel, dFf)
  }

  /** Every decoder layer's weights have the shapes its products need. */
  predicate DecoderWeightsShaped(ws: seq<FW.DecoderLayerWeights>, h: nat, dModel: nat, dk: nat, dFf: nat) {
    forall l :: 0 <= l < |ws| ==>
      FW.MhaShaped(ws[l].maskedMha, h, dModel, dk) && FW.MhaShaped(ws[l].encDecMha, h, dModel, dk)
      && FW.FfnShaped(ws[l].ffn, dModel, dFf)
  }

  /**
   * What the encoder's layer loop leaves after |layers| rounds: layer l on
   * weights l, the first on x, each later one on its predecessor's second
   * Add & Norm, and out the latest output (x itself before any layer).
   */
  ghost predicate EncoderPrefix(layers: seq<EncoderLayerData>, x: Matrix, out: Matrix, ws: seq<FW.EncoderLayerWeights>,
                                h: nat, dModel: nat, dk: nat, dFf: nat, nm: Numerics)
    decreases |layers|
  {
    if |layers| == 0 then out == x
    else
      var k := |layers| - 1;
      k < |ws| && |layers[k].encoderInput| == |x|
      && EncoderPrefix(layers[..k], x, layers[k].encoderInput, ws, h, dModel, dk, dFf, nm)
      && EncoderLayerOf(layers[k], layers[k].encoderInput, ws[k], h, dModel, dk, dFf, nm)
      && out == layers[k].addNorm2Output
  }

  /** One more layer on the latest output extends the prefix. */
  lemma {:induction false} EncoderPrefixStep(layers: seq<EncoderLayerData>, x: Matrix, out: Matrix,
                                             ws: seq<FW.EncoderLayerWeights>, h: nat, dModel: nat, dk: nat, dFf: nat,
                                             nm: Numerics, layer: EncoderLayerData)
    requires EncoderPrefix(layers, x, out, ws, h, dModel, dk, dFf, nm) && |layers| < |ws| && |out| == |x|
    requires EncoderLayerOf(layer, out, ws[|layers|], h, dModel, dk, dFf, nm)
    ensures EncoderPrefix(layers + [layer], x, layer.addNorm2Output, ws, h, dModel, dk, dFf, nm)
  {
    assert (layers + [layer])[..|layers|] == layers;
  }

  /** The encoder's `for (i < n_layers)` loop. */
  method EncoderStack(x: Matrix, ws: seq<FW.EncoderLayerWeights>, h: nat, dModel: nat, dk: nat, dFf: nat, nm: Numerics)
    returns (layers: seq<EncoderLayerData>, out: Matrix)
    requires LayerDims(h, dModel, dk, dFf) && EncoderWeightsShaped(ws, h, dModel, dk, dFf)
    requires Shaped(x, |x|, dModel) && ValidNumerics(nm, dModel)
    ensures |layers| == |ws| && EncoderPrefix(layers, x, out, ws, h, dModel, dk, dFf, nm)
    ensures Shaped(out, |x|, dModel)
  {
    layers := [];
    out := x;
    var i := 0;
    while i < |ws|
      invariant 0 <= i <= |ws| && Shaped(out, |x|, dModel)
      invariant |layers| == i && EncoderPrefix(layers, x, out, ws, h, dModel, dk, dFf, nm)
    {
      var layer := EncoderLayer(out, ws[i], h, dModel, dk, dFf, nm);
      EncoderPrefixStep(layers, x, out, ws, h, dModel, dk, dFf, nm, layer);
      layers := layers + [layer];
      out := layer.addNorm2Output;
      i := i + 1;
    }
  }

  /** What the decoder's layer loop leaves after |layers| rounds, every layer attending to the encoder output enc. */
  ghost predicate DecoderPrefix(layers: seq<DecoderLayerData>, y: Matrix, enc: Matrix, out: Matrix,
                                ws: seq<FW.DecoderLayerWeights>, h: nat, dModel: nat, dk: nat, dFf: nat, nm: Numerics)
    decreases |layers|
  {
    if |layers| == 0 then out == y
    else
      var k := |layers| - 1;
      k < |ws| && |layers[k].decoderInput| == |y|
      && DecoderPrefix(layers[..k], y, enc, layers[k].decoderInput, ws, h, dModel, dk, dFf, nm)
      && DecoderLayerOf(layers[k], layers[k].decoderInput, enc, ws[k], h, dModel, dk, dFf, nm)
      && out == layers[k].addNorm3Output
  }

  /** One more layer on the latest output extends the prefix. */
  lemma {:induction false} DecoderPrefixStep(layers: seq<DecoderLayerData>, y: Matrix, enc: Matrix, out: Matrix,
                                             ws: seq<FW.DecoderLayerWeights>, h: nat, dModel: nat, dk: nat, dFf: nat,
                                             nm: Numerics, layer: DecoderLayerData)
    requires DecoderPrefix(layers, y, enc, out, ws, h, dModel, dk, dFf, nm) && |layers| < |ws| && |out| == |y|
    requires DecoderLayerOf(layer, out, enc, ws[|layers|], h, dModel, dk, dFf, nm)
    ensures DecoderPrefix(layers + [layer], y, enc, layer.addNorm3Output, ws, h, dModel, dk, dFf, nm)
  {
    assert (layers + [layer])[..|layers|] == layers;
  }

  /** The decoder's `for (i < n_layers)` loop. */
  method DecoderStack(y: Matrix, enc: Matrix, ws: seq<FW.DecoderLayerWeights>, h: nat, dModel: nat, dk: nat, dFf: nat,
                      nm: Numerics) returns (layers: seq<DecoderLayerData>, out: Matrix)
    requires LayerDims(h, dModel, dk, dFf) && DecoderWeightsShaped(ws, h, dModel, dk, dFf)
    requires Shaped(y, |y|, dModel) && Shaped(enc, |enc|, dModel) && |enc| >= 1 && ValidNumerics(nm, dModel)
    ensures |layers| == |ws| && DecoderPrefix(layers, y, enc, out, ws, h, dModel, dk, dFf, nm)
    ensures Shaped(out, |y|, dModel)
  {
    layers := [];
    out := y;
    var i := 0;
    while i < |ws|
      invariant 0 <= i <= |ws| && Shaped(out, |y|, dModel)
      invariant |layers| == i && DecoderPrefix(layers, y, enc, out, ws, h, dModel, dk, dFf, nm)
    {
      var layer := DecoderLayer(out, enc, ws[i], h, dModel, dk, dFf, nm);
      DecoderPrefixStep(layers, y, enc, out, ws, h, dModel, dk, dFf, nm, layer);
      layers := layers + [layer];
      out := layer.addNorm3Output;
      i := i + 1;
    }
  }

  // ----- token ids, decoding -----

  /** The ids from i on: the first one whose vocabulary word is t, or 15 when none is. */
  function FindFrom(t: string, i: nat): (id: int)
    requires i <= |FW.Vocab|
    ensures 0 <= id < |FW.Vocab|
    ensures FW.Vocab[id] == t || (id == FW.UnkId && forall k :: i <= k < |FW.Vocab| ==> FW.Vocab[k] != t)
    ensures forall k :: i <= k < id ==> FW.Vocab[k] != t
    decreases |FW.Vocab| - i
  {
    if i == |FW.Vocab| then FW.UnkId
    else if FW.Vocab[i] == t then i
    else FindFrom(t, i + 1)
  }

  /**
   * The id a word looks up: `Object.entries(vocab).find(word === t)`, whose
   * entries come in ascending id order, or UNK_TOKEN_ID 15.
   */
  function TokenId(t: string): (id: int)
    ensures 0 <= id < FW.VocabSize
    ensures FW.Vocab[id] == t || (id == FW.UnkId && forall k :: 0 <= k < |FW.Vocab| ==> FW.Vocab[k] != t)
  {
    FindFrom(t, 0)
  }

  function TokenIds(ts: seq<string>): (ids: seq<int>)
    ensures |ids| == |ts| && forall i :: 0 <= i < |ts| ==> ids[i] == TokenId(ts[i]) && 0 <= ids[i] < FW.VocabSize
  {
    seq(|ts|, i requires 0 <= i < |ts| => TokenId(ts[i]))
  }

  /** Looking up a vocabulary word gives back its own id; any other word gives 15. */
  lemma {:induction false} TokenIdOfWord(t: string, id: int)
    requires 0 <= id < FW.VocabSize && FW.Vocab[id] == t
    ensures TokenId(t) == id
  {
    FW.VocabFacts();
  }

  /** The decoder's fixed target sentence. */
  const DecoderWords: seq<string> := ["<SOS>", "我", "是", "学生"]

  /** The decoder's words are ids 1, 7, 8 and 10. */
  lemma {:induction false} DecoderIds()
    ensures TokenIds(DecoderWords) == [1, 7, 8, 10]
  {
    TokenIdOfWord("<SOS>", 1);
    TokenIdOfWord("我", 7);
    TokenIdOfWord("是", 8);
    TokenIdOfWord("学生", 10);
  }

  /** `Math.max(...row)` of a non-empty row. */
  function MaxOf(row: seq<real>): (m: real)
    requires |row| > 0
    ensures m in row && forall j :: 0 <= j < |row| ==> row[j] <= m
  {
    if |row| == 1 then row[0]
    else
      var rest := MaxOf(row[1..]);
      assert rest in row;
      if row[0] < rest then rest else row[0]
  }

  /** `row.indexOf(x)`: the first position holding x, -1 when none does. */
  function IndexOf(row: seq<real>, x: real): (k: int)
    ensures -1 <= k < |row|
    ensures k >= 0 ==> row[k] == x && forall j :: 0 <= j < k ==> row[j] != x
    ensures k == -1 <==> x !in row
  {
    if |row| == 0 then -1
    else if row[0] == x then 0
    else
      var k := IndexOf(row[1..], x);
      if k == -1 then -1 else k + 1
  }

  /**
   * `row.indexOf(Math.max(...row))`: the first position of the largest
   * entry; -1 for an empty row, whose maximum is -Infinity.
   */
  function ArgMax(row: seq<real>): (k: int)
    ensures |row| == 0 ==> k == -1
    ensures |row| > 0 ==> 0 <= k < |row| && (forall j :: 0 <= j < |row| ==> row[j] <= row[k])
                          && (forall j :: 0 <= j < k ==> row[j] < row[k])
  {
    if |row| == 0 then -1 else IndexOf(row, MaxOf(row))
  }

  /** `vocab[id] || "[UNK]"`: no id outside 0..15 has a word. */
  function VocabWord(id: int): string {
    if 0 <= id < |FW.Vocab| then FW.Vocab[id] else "[UNK]"
  }

  /** `tokenIds.map(id => E[id])`. */
  function Rows(E: Matrix, ids: seq<int>): (r: Matrix)
    requires forall i :: 0 <= i < |ids| ==> 0 <= ids[i] < |E|
    ensures |r| == |ids| && forall i :: 0 <= i < |ids| ==> r[i] == E[ids[i]]
  {
    seq(|ids|, i requires 0 <= i < |ids| => E[ids[i]])
  }

  // ----- calculateTransformer -----

  datatype TransformerData = TransformerData(
    inputText: seq<string>, tokenizedInput: seq<int>, embeddingMatrix: Matrix,
    inputEmbeddings: Matrix, posEncodings: Matrix, encoderInput: Matrix,
    encoderLayers: seq<EncoderLayerData>, finalEncoderOutput: Matrix,
    outputEmbeddings: Matrix, decoderPosEncodings: Matrix, decoderInput: Matrix,
    decoderLayers: seq<DecoderLayerData>, finalDecoderOutput: Matrix,
    finalLinear: Matrix, logits: Matrix, outputProbabilities: Matrix,
    decodedTokens: seq<int>, outputText: seq<string>)

  /** What a call does: return null, throw, or return the data. */
  datatype Outcome = Null | Throws | Data(data: TransformerData)

  /** The two early `return null`s: h does not divide d_model, or the text has no words. */
  predicate ReturnsNull(text: string, dims: EC.ModelDims)
    requires dims.h != 0
  {
    JsRem(dims.dModel, dims.h) != 0 || |Words(text)| == 0
  }

  /**
   * The inputs that make the code throw: more than ten words (addMatrices
   * reads a position row the ten-row table lacks), or at least one layer
   * with a decoder length above 4 (K_T reads a key row the four decoder
   * words do not give) or below 0 (`Array(decoder_seq_len)` rejects the
   * negative length).
   */
  predicate Raises(text: string, dims: EC.ModelDims)
    requires dims.h != 0
  {
    !ReturnsNull(text, dims)
    && (|Words(text)| > 10 || (dims.nLayers >= 1 && (dims.seqLen > 4 || dims.seqLen < 0)))
  }

  /** Each position's input row is its token's embedding row plus that position's encoding row. */
  ghost predicate EmbeddedAt(X: Matrix, E: Matrix, ids: seq<int>, P: Matrix, dModel: nat) {
    Shaped(X, |ids|, dModel) && |ids| <= |P|
    && (forall i :: 0 <= i < |ids| ==> 0 <= ids[i] < |E| && |E[ids[i]]| >= dModel && |P[i]| >= dModel)
    && forall i, j :: 0 <= i < |ids| && 0 <= j < dModel ==> X[i][j] == E[ids[i]][j] + P[i][j]
  }

  /** The shapes of the weights the forward pass reads, d_k being d_model / h. */
  predicate WeightsFit(w: FW.Weights, dims: EC.ModelDims, dk: nat) {
    dims.dModel >= 1 && dims.h >= 1 && dims.dFf >= 1 && LayerDims(dims.h, dims.dModel, dk, dims.dFf)
    && Shaped(w.embedding, FW.VocabSize, dims.dModel) && Shaped(w.finalLinear, dims.dModel, FW.VocabSize)
    && |w.encoderLayers| == Count(dims.nLayers) && |w.decoderLayers| == Count(dims.nLayers)
    && EncoderWeightsShaped(w.encoderLayers, dims.h, dims.dModel, dk, dims.dFf)
    && DecoderWeightsShaped(w.decoderLayers, dims.h, dims.dModel, dk, dims.dFf)
  }

  /**
   * The decoding stage on the decoder output: logits = output · finalLinear
   * (one row of 16 per position), their softmax, and per row the first
   * most likely id and that id's word.
   */
  ghost predicate DecodedFrom(logits: Matrix, probs: Matrix, tokens: seq<int>, text: seq<string>, out: Matrix,
                              finalLinear: Matrix, nm: Numerics)
    requires forall row :: |nm.softmaxRow(row)| == |row|
  {
    CanMultiply(out, finalLinear) && logits == Product(out, finalLinear) && Shaped(logits, |out|, FW.VocabSize)
    && probs == SoftmaxByRow(Lift(logits), nm)
    && |tokens| == |out| && |text| == |out|
    && forall i :: 0 <= i < |out| ==>
         (tokens[i] == ArgMax(probs[i]) && 0 <= tokens[i] < FW.VocabSize && text[i] == FW.Vocab[tokens[i]])
  }

  /**
   * The data returned for the words of the text, with weights w: the ids,
   * the embedded inputs, the encoder stack, the decoder stack over the
   * decoder words, attending to the encoder's output, and the decoding.
   */
  ghost predicate ForwardPassOf(d: TransformerData, words: seq<string>, dims: EC.ModelDims, w: FW.Weights, nm: Numerics) {
    dims.h >= 1 && dims.dModel >= 1 && ValidNumerics(nm, dims.dModel) && WeightsFit(w, dims, dims.dModel / dims.h)
    && d.inputText == words && d.embeddingMatrix == w.embedding && d.finalLinear == w.finalLinear
    && EncoderPassOf(words, d.tokenizedInput, d.inputEmbeddings, d.posEncodings, d.encoderInput, d.encoderLayers,
                     d.finalEncoderOutput, dims, w, nm)
    && DecoderPassOf(d.finalEncoderOutput, d.outputEmbeddings, d.decoderPosEncodings, d.decoderInput, d.decoderLayers,
                     d.finalDecoderOutput, d.logits, d.outputProbabilities, d.decodedTokens, d.outputText, dims, w, nm)
  }

  /** The encoder half of the pass: token ids, embeddings plus positions, then the encoder layers. */
  ghost predicate EncoderPassOf(words: seq<string>, tokenizedInput: seq<int>, inputEmbeddings: Matrix, posEncodings: Matrix,
                                encoderInput: Matrix, encoderLayers: seq<EncoderLayerData>, finalEncoderOutput: Matrix,
                                dims: EC.ModelDims, w: FW.Weights, nm: Numerics)
  {
    dims.h >= 1 && dims.dModel >= 1 && ValidNumerics(nm, dims.dModel) && WeightsFit(w, dims, dims.dModel / dims.h)
    && 1 <= |words| <= 10 && tokenizedInput == TokenIds(words)
    && inputEmbeddings == Rows(w.embedding, tokenizedInput)
    && posEncodings == SliceTo(nm.posTable, |words|)
    && EmbeddedAt(encoderInput, w.embedding, tokenizedInput, posEncodings, dims.dModel)
    && |encoderLayers| == |w.encoderLayers|
    && EncoderPrefix(encoderLayers, encoderInput, finalEncoderOutput, w.encoderLayers,
                     dims.h, dims.dModel, dims.dModel / dims.h, dims.dFf, nm)
    && Shaped(finalEncoderOutput, |words|, dims.dModel)
  }

  /** The first dims.seqLen of the fixed decoder words, embedded and added to their positions. */
  ghost predicate DecoderEmbedded(outputEmbeddings: Matrix, decoderPosEncodings: Matrix, decoderInput: Matrix,
                                  dims: EC.ModelDims, w: FW.Weights, nm: Numerics)
  {
    var decIds := TokenIds(SliceTo(DecoderWords, dims.seqLen));
    dims.dModel >= 1 && |w.embedding| == FW.VocabSize
    && outputEmbeddings == Rows(w.embedding, decIds)
    && decoderPosEncodings == SliceTo(nm.posTable, dims.seqLen)
    && EmbeddedAt(decoderInput, w.embedding, decIds, decoderPosEncodings, dims.dModel)
  }

  /** The decoder half: the fixed decoder words embedded, the decoder layers over the encoder output, the decoding. */
  ghost predicate DecoderPassOf(finalEncoderOutput: Matrix, outputEmbeddings: Matrix, decoderPosEncodings: Matrix,
                                decoderInput: Matrix, decoderLayers: seq<DecoderLayerData>, finalDecoderOutput: Matrix,
                                logits: Matrix, probs: Matrix, tokens: seq<int>, text: seq<string>,
                                dims: EC.ModelDims, w: FW.Weights, nm: Numerics)
  {
    dims.h >= 1 && dims.dModel >= 1 && ValidNumerics(nm, dims.dModel) && WeightsFit(w, dims, dims.dModel / dims.h)
    && DecoderEmbedded(outputEmbeddings, decoderPosEncodings, decoderInput, dims, w, nm)
    && (var decIds := TokenIds(SliceTo(DecoderWords, dims.seqLen));
        |decoderLayers| == |w.decoderLayers|
        && DecoderPrefix(decoderLayers, decoderInput, finalEncoderOutput, finalDecoderOutput,
                         w.decoderLayers, dims.h, dims.dModel, dims.dModel / dims.h, dims.dFf, nm)
        && Shaped(finalDecoderOutput, |decIds|, dims.dModel)
        && DecodedFrom(logits, probs, tokens, text, finalDecoderOutput, w.finalLinear, nm))
  }

  /** `ids.map(id => E[id])` plus the position rows, as addMatrices adds them. */
  method EmbedTokens(E: Matrix, ids: seq<int>, pos: Matrix, dModel: nat) returns (embeddings: Matrix, X: Matrix)
    requires Shaped(E, FW.VocabSize, dModel) && Shaped(pos, |pos|, dModel) && |ids| <= |pos|
    requires forall i :: 0 <= i < |ids| ==> 0 <= ids[i] < FW.VocabSize
    ensures embeddings == Rows(E, ids)
    ensures EmbeddedAt(X, E, ids, pos, dModel)
  {
    embeddings := Rows(E, ids);
    X := AddMatrices(embeddings, pos);
  }

  /** The decoding stage. */
  method DecodeOutput(out: Matrix, finalLinear: Matrix, dModel: nat, nm: Numerics)
    returns (logits: Matrix, probs: Matrix, tokens: seq<int>, text: seq<string>)
    requires ValidNumerics(nm, dModel) && dModel >= 1 && Shaped(out, |out|, dModel)
    requires Shaped(finalLinear, dModel, FW.VocabSize)
    ensures DecodedFrom(logits, probs, tokens, text, out, finalLinear, nm)
  {
    ProductShaped(out, finalLinear, |out|, dModel, FW.VocabSize);
    logits := Product(out, finalLinear);
    probs := SoftmaxByRow(Lift(logits), nm);
    tokens := seq(|probs|, i requires 0 <= i < |probs| => ArgMax(probs[i]));
    text := seq(|tokens|, i requires 0 <= i < |tokens| => VocabWord(tokens[i]));
  }

  /**
   * Everything after the empty-input check, on the words of the text:
   * throws exactly for more than ten words or, with a layer, a decoder
   * length outside 0..4; otherwise returns the data.
   */
  method RunModel(words: seq<string>, dims: EC.ModelDims, w: FW.Weights, nm: Numerics) returns (r: Outcome)
    requires |words| >= 1 && dims.h >= 1 && dims.dModel >= 1 && ValidNumerics(nm, dims.dModel) && WeightsFit(w, dims, dims.dModel / dims.h)
    ensures !r.Null?
    ensures r.Throws? <==> |words| > 10 || (dims.nLayers >= 1 && (dims.seqLen > 4 || dims.seqLen < 0))
    ensures r.Data? ==> ForwardPassOf(r.data, words, dims, w, nm)
  {
    var tokenizedInput := TokenIds(words);
    var posEncodings := SliceTo(nm.posTable, |tokenizedInput|);
    if |tokenizedInput| > 10 {
      // posEncodings keeps the table's ten rows, and addMatrices reads B[10][0]: a TypeError
      return Throws;
    }
    var inputEmbeddings, encoderInput, encoderLayers, finalEncoderOutput := RunEncoder(words, tokenizedInput, posEncodings, dims, w, nm);
    var outputEmbeddings, decoderPosEncodings, decoderInput := EmbedDecoderWords(dims, w, nm);
    if |w.decoderLayers| >= 1 && dims.seqLen > 4 {
      // K_T reads K[4][0], and the four decoder words give K four rows: a TypeError
      return Throws;
    }
    if |w.decoderLayers| >= 1 && dims.seqLen < 0 {
      // the masked heads' reduce starts from Array(decoder_seq_len): a RangeError
      return Throws;
    }
    var decoderLayers, finalDecoderOutput, logits, outputProbabilities, decodedTokens, outputText :=
      RunDecoder(finalEncoderOutput, outputEmbeddings, decoderPosEncodings, decoderInput, dims, w, nm);
    r := Data(TransformerData(words, tokenizedInput, w.embedding, inputEmbeddings, posEncodings, encoderInput,
                              encoderLayers, finalEncoderOutput, outputEmbeddings, decoderPosEncodings, decoderInput,
                              decoderLayers, finalDecoderOutput, w.finalLinear, logits, outputProbabilities,
                              decodedTokens, outputText));
  }

  /** The encoder half of RunModel: embeddings plus positions, then the encoder's layer loop. */
  method RunEncoder(words: seq<string>, tokenizedInput: seq<int>, posEncodings: Matrix, dims: EC.ModelDims, w: FW.Weights,
                    nm: Numerics)
    returns (inputEmbeddings: Matrix, encoderInput: Matrix, encoderLayers: seq<EncoderLayerData>, finalEncoderOutput: Matrix)
    requires 1 <= |words| <= 10 && tokenizedInput == TokenIds(words) && posEncodings == SliceTo(nm.posTable, |words|)
    requires dims.h >= 1 && dims.dModel >= 1 && ValidNumerics(nm, dims.dModel) && WeightsFit(w, dims, dims.dModel / dims.h)
    ensures EncoderPassOf(words, tokenizedInput, inputEmbeddings, posEncodings, encoderInput, encoderLayers,
                          finalEncoderOutput, dims, w, nm)
  {
    var dk := dims.dModel / dims.h;
    inputEmbeddings, encoderInput := EmbedTokens(w.embedding, tokenizedInput, posEncodings, dims.dModel);
    encoderLayers, finalEncoderOutput := EncoderStack(encoderInput, w.encoderLayers, dims.h, dims.dModel, dk, dims.dFf, nm);
  }

  /** The decoder's input: `decoder_seq_len` of the fixed decoder words, embedded, plus their positions. */
  method EmbedDecoderWords(dims: EC.ModelDims, w: FW.Weights, nm: Numerics)
    returns (outputEmbeddings: Matrix, decoderPosEncodings: Matrix, decoderInput: Matrix)
    requires dims.h >= 1 && dims.dModel >= 1 && ValidNumerics(nm, dims.dModel) && WeightsFit(w, dims, dims.dModel / dims.h)
    ensures DecoderEmbedded(outputEmbeddings, decoderPosEncodings, decoderInput, dims, w, nm)
  {
    var decoderIds := TokenIds(SliceTo(DecoderWords, dims.seqLen));
    decoderPosEncodings := SliceTo(nm.posTable, dims.seqLen);
    outputEmbeddings, decoderInput := EmbedTokens(w.embedding, decoderIds, decoderPosEncodings, dims.dModel);
  }

  /** The decoder half of RunModel, once the lengths have passed: the decoder's layer loop, then the decoding. */
  method RunDecoder(finalEncoderOutput: Matrix, outputEmbeddings: Matrix, decoderPosEncodings: Matrix, decoderInput: Matrix,
                    dims: EC.ModelDims, w: FW.Weights, nm: Numerics)
    returns (decoderLayers: seq<DecoderLayerData>, finalDecoderOutput: Matrix, logits: Matrix, probs: Matrix,
             tokens: seq<int>, text: seq<string>)
    requires dims.h >= 1 && dims.dModel >= 1 && ValidNumerics(nm, dims.dModel) && WeightsFit(w, dims, dims.dModel / dims.h)
    requires Shaped(finalEncoderOutput, |finalEncoderOutput|, dims.dModel) && |finalEncoderOutput| >= 1
    requires DecoderEmbedded(outputEmbeddings, decoderPosEncodings, decoderInput, dims, w, nm)
    ensures DecoderPassOf(finalEncoderOutput, outputEmbeddings, decoderPosEncodings, decoderInput, decoderLayers,
                          finalDecoderOutput, logits, probs, tokens, text, dims, w, nm)
  {
    var dk := dims.dModel / dims.h;
    decoderLayers, finalDecoderOutput := DecoderStack(decoderInput, finalEncoderOutput, w.decoderLayers,
                                                      dims.h, dims.dModel, dk, dims.dFf, nm);
    logits, probs, tokens, text := DecodeOutput(finalDecoderOutput, w.finalLinear, dims.dModel, nm);
  }

  /**
   * calculateTransformer(inputText, dims), for d_model, h and d_ff of at
   * least 1: null exactly when ReturnsNull, a throw exactly when Raises,
   * and otherwise the data ForwardPassOf describes for the fixed weights.
   */
  method CalculateTransformer(inputText: string, dims: EC.ModelDims, nm: Numerics) returns (r: Outcome)
    requires dims.dModel >= 1 && dims.h >= 1 && dims.dFf >= 1 && ValidNumerics(nm, dims.dModel)
    ensures r.Null? <==> ReturnsNull(inputText, dims)
    ensures r.Throws? <==> Raises(inputText, dims)
    ensures r.Data? ==> JsRem(dims.dModel, dims.h) == 0
                        && ForwardPassOf(r.data, Words(inputText), dims, FW.FixedWeightsOf(dims), nm)
  {
    if JsRem(dims.dModel, dims.h) != 0 {
      return Null;
    }
    FW.WeightShapes(dims);
    var weights := FW.FixedWeightsOf(dims);
    var tokenizedText := WhitespaceTokenizer(inputText);
    TokensAreRuns(inputText);
    if |tokenizedText| == 0 {
      return Null;
    }
    r := RunModel(tokenizedText, dims, weights, nm);
  }

  // ----- what the forward pass promises -----

  /** The decoder reads the first dsl of <SOS> 我 是 学生, ids 1, 7, 8, 10, for a length dsl in 0..4. */
  lemma {:induction false} DecoderTokens(dsl: int)
    requires 0 <= dsl <= 4
    ensures TokenIds(SliceTo(DecoderWords, dsl)) == [1, 7, 8, 10][..dsl]
  {
    DecoderIds();
    var ids := TokenIds(SliceTo(DecoderWords, dsl));
    assert forall i :: 0 <= i < dsl ==> ids[i] == TokenIds(DecoderWords)[i];
  }

  /** A word followed by a space: the word is the first run. */
  lemma {:induction false} WordThenSpace(c: char, rest: string)
    requires !IsWhitespace(c)
    ensures Words([c, ' '] + rest) == [[c]] + Words(rest)
  {
    var s := [c, ' '] + rest;
    assert s[1..][0] == ' ';
    assert Run(s[1..]) == "";
    assert Run(s) == [c];
    assert s[1..] == [' '] + rest;
    assert s[1..][1..] == rest;
  }

  /** n one-letter words "I I … I". */
  function Spaced(n: nat): (s: string)
    requires n >= 1
    decreases n
  {
    if n == 1 then "I" else ['I', ' '] + Spaced(n - 1)
  }

  /** "I I … I" has n words. */
  lemma {:induction false} SpacedWords(n: nat)
    requires n >= 1
    ensures Words(Spaced(n)) == seq(n, i => "I")
  {
    if n == 1 {
      assert Run("I") == "I";
    } else {
      SpacedWords(n - 1);
      WordThenSpace('I', Spaced(n - 1));
    }
  }

  /**
   * calculateTransformer on eleven or more words throws for every d_model
   * that h divides: the position table has ten rows and addMatrices reads
   * row 10.
   */
  lemma {:induction false} ManyWordsRaise(dims: EC.ModelDims, n: nat)
    requires dims.h >= 1 && JsRem(dims.dModel, dims.h) == 0 && n > 10
    ensures |Words(Spaced(n))| == n && Raises(Spaced(n), dims)
  {
    SpacedWords(n);
  }

  /**
   * calculateTransformer with a word limit: texts of more than ten words
   * return null, as the position table has ten rows; every other text
   * behaves as before, so only the decoder length can make it throw.
   */
  method CalculateTransformerBounded(inputText: string, dims: EC.ModelDims, nm: Numerics) returns (r: Outcome)
    requires dims.dModel >= 1 && dims.h >= 1 && dims.dFf >= 1 && ValidNumerics(nm, dims.dModel)
    ensures r.Null? <==> ReturnsNull(inputText, dims) || |Words(inputText)| > 10
    ensures r.Throws? <==> !r.Null? && dims.nLayers >= 1 && (dims.seqLen > 4 || dims.seqLen < 0)
    ensures r.Data? ==> JsRem(dims.dModel, dims.h) == 0
                        && ForwardPassOf(r.data, Words(inputText), dims, FW.FixedWeightsOf(dims), nm)
  {
    var tokenizedText := WhitespaceTokenizer(inputText);
    TokensAreRuns(inputText);
    if JsRem(dims.dModel, dims.h) == 0 && |tokenizedText| > 10 {
      return Null;
    }
    r := CalculateTransformer(inputText, dims, nm);
  }
}
