// src/topics/transformer-explorer/lib/fixedWeights.ts: a linear congruential
// generator (state := (state·9301 + 49297) mod 233280, draw = state/233280·2 − 1),
// matrices and vectors filled row-major from one generator per seed, the
// 16-word vocabulary, and the per-layer weights of the explorer's model.
// The sinusoidal position table is left to the forward pass as a parameter.

module FixedWeights {
  import opened Arith
  import opened Matrices
  import EC = ExplorerControls

  const Modulus: int := 233280
  const Multiplier: int := 9301
  const Increment: int := 49297

  /** One update of the closure's state; `%` is JavaScript's remainder. */
  function Step(s: int): int { JsRem(s * Multiplier + Increment, Modulus) }

  /** The state after n calls of a generator seeded with seed. */
  function StateAfter(seed: int, n: nat): int {
    if n == 0 then seed else Step(StateAfter(seed, n - 1))
  }

  /** `(state / 233280.0) * 2 - 1`, as an exact rational. */
  function Draw(state: int): real { (state as real / 233280.0) * 2.0 - 1.0 }

  /** From a non-negative state the next state is in [0, 233280). */
  lemma {:induction false} StepInRange(s: int)
    requires s >= 0
    ensures 0 <= Step(s) < Modulus
  {
  }

  /** For a seed >= 0, every state after at least one call is in [0, 233280). */
  lemma {:induction false} StateInRange(seed: int, n: nat)
    requires seed >= 0 && n >= 1
    ensures 0 <= StateAfter(seed, n) < Modulus
  {
    if n > 1 {
      StateInRange(seed, n - 1);
    }
    StepInRange(StateAfter(seed, n - 1));
  }

  /** A state in [0, 233280) draws a value in [-1, 1). */
  lemma {:induction false} DrawInRange(s: int)
    requires 0 <= s < Modulus
    ensures -1.0 <= Draw(s) < 1.0
  {
  }

  /** The closure returned by createSeededRandom: its captured state is a field. */
  class SeededRandom {
    var state: int

    constructor (seed: int)
      ensures state == seed
    {
      state := seed;
    }

    /** One call: advance the state and draw from the new state. */
    method Next() returns (v: real)
      modifies this
      ensures state == Step(old(state)) && v == Draw(state)
    {
      state := JsRem(state * Multiplier + Increment, Modulus);
      v := (state as real / 233280.0) * 2.0 - 1.0;
    }
  }

  /** createFixedVector: the first size draws of the generator. */
  function FixedVector(size: int, seed: int): (v: Vector)
    ensures |v| == Count(size)
  {
    seq(Count(size), k requires 0 <= k => Draw(StateAfter(seed, k + 1)))
  }

  /** createFixedMatrix: rows × cols, entry (r, c) the draw number r·cols + c + 1. */
  function FixedMatrix(rows: int, cols: int, seed: int): (m: Matrix)
    ensures Shaped(m, Count(rows), Count(cols))
  {
    seq(Count(rows), r requires 0 <= r =>
      seq(Count(cols), c requires 0 <= c => Draw(StateAfter(seed, r * Count(cols) + c + 1))))
  }

  /** n calls of the generator, collected in order: draws start + 1 .. start + n. */
  method DrawRun(random: SeededRandom, n: nat, ghost seed: int, ghost start: nat) returns (row: Vector)
    requires random.state == StateAfter(seed, start)
    modifies random
    ensures random.state == StateAfter(seed, start + n)
    ensures |row| == n && forall j :: 0 <= j < n ==> row[j] == Draw(StateAfter(seed, start + j + 1))
  {
    row := [];
    var c := 0;
    while c < n
      invariant 0 <= c <= n && |row| == c
      invariant random.state == StateAfter(seed, start + c)
      invariant forall j :: 0 <= j < c ==> row[j] == Draw(StateAfter(seed, start + j + 1))
    {
      var v := random.Next();
      row := row + [v];
      c := c + 1;
    }
  }

  /** createFixedMatrix: one generator, rows filled one after another, entries left to right. */
  method CreateFixedMatrix(rows: int, cols: int, seed: int) returns (m: Matrix)
    ensures m == FixedMatrix(rows, cols, seed)
  {
    var random := new SeededRandom(seed);
    var nr, nc := Count(rows), Count(cols);
    m := [];
    var r := 0;
    while r < nr
      invariant 0 <= r <= nr && |m| == r
      invariant random.state == StateAfter(seed, r * nc)
      invariant forall i :: 0 <= i < r ==> m[i] == FixedMatrix(rows, cols, seed)[i]
    {
      var row := DrawRun(random, nc, seed, r * nc);
      assert r * nc + nc == (r + 1) * nc;
      m := m + [row];
      r := r + 1;
    }
  }

  /** createFixedVector: one generator, size draws in order. */
  method CreateFixedVector(size: int, seed: int) returns (v: Vector)
    ensures v == FixedVector(size, seed)
  {
    var random := new SeededRandom(seed);
    v := DrawRun(random, Count(size), seed, 0);
  }

  /** The matrix is the vector of rows·cols draws cut into rows of cols. */
  lemma {:induction false} MatrixIsRowMajorVector(rows: nat, cols: nat, seed: int, r: nat, c: nat)
    requires r < rows && c < cols
    ensures r * cols + c < rows * cols
    ensures FixedMatrix(rows, cols, seed)[r][c] == FixedVector(rows * cols, seed)[r * cols + c]
  {
    MulLeq(r + 1, rows, cols);
    assert (r + 1) * cols == r * cols + cols;
  }

  /** For a seed >= 0 every entry of a fixed matrix is in [-1, 1). */
  lemma {:induction false} FixedMatrixInRange(rows: int, cols: int, seed: int, r: nat, c: nat)
    requires seed >= 0 && r < Count(rows) && c < Count(cols)
    ensures -1.0 <= FixedMatrix(rows, cols, seed)[r][c] < 1.0
  {
    StateInRange(seed, r * Count(cols) + c + 1);
    DrawInRange(StateAfter(seed, r * Count(cols) + c + 1));
  }

  /** A generator is shared by the rows: a shorter matrix from the same seed is a prefix of a taller one. */
  lemma {:induction false} FewerRowsArePrefix(rows: nat, more: nat, cols: int, seed: int)
    requires rows <= more
    ensures FixedMatrix(rows, cols, seed) == FixedMatrix(more, cols, seed)[..rows]
  {
  }

  // ----- the vocabulary -----

  const VocabSize: int := 16
  const UnkId: int := 15

  /** `vocab`: the word of each id 0..15. */
  const Vocab: seq<string> := ["<PAD>", "<SOS>", "<EOS>", "I", "am", "a", "student",
                                "我", "是", "一个", "学生", "he", "she", "is", "good", "[UNK]"]

  /** The vocabulary holds 16 distinct, non-empty words, id 15 being "[UNK]". */
  lemma {:induction false} VocabFacts()
    ensures |Vocab| == VocabSize && Vocab[UnkId] == "[UNK]"
    ensures forall i :: 0 <= i < |Vocab| ==> |Vocab[i]| > 0
    ensures forall i, j :: 0 <= i < j < |Vocab| ==> Vocab[i] != Vocab[j]
  {
    forall i, j | 0 <= i < j < |Vocab|
      ensures Vocab[i] != Vocab[j]
    {
      assert Vocab[i][0] != Vocab[j][0] || |Vocab[i]| != |Vocab[j]| || Vocab[i][1] != Vocab[j][1]
        || Vocab[i][|Vocab[i]| - 1] != Vocab[j][|Vocab[j]| - 1];
    }
  }

  // ----- the model's weights -----

  datatype HeadWeights = HeadWeights(wq: Matrix, wk: Matrix, wv: Matrix)
  datatype MhaWeights = MhaWeights(heads: seq<HeadWeights>, wo: Matrix)
  datatype FfnWeights = FfnWeights(w1: Matrix, b1: Vector, w2: Matrix, b2: Vector)
  datatype EncoderLayerWeights = EncoderLayerWeights(mha: MhaWeights, ffn: FfnWeights)
  datatype DecoderLayerWeights = DecoderLayerWeights(maskedMha: MhaWeights, encDecMha: MhaWeights, ffn: FfnWeights)
  datatype Weights = Weights(embedding: Matrix, encoderLayers: seq<EncoderLayerWeights>,
                             decoderLayers: seq<DecoderLayerWeights>, finalLinear: Matrix)

  /** `d_model / h`, exact because the caller has checked that h divides d_model. */
  function Dk(dims: EC.ModelDims): int
    requires dims.h != 0 && JsRem(dims.dModel, dims.h) == 0
  {
    JsRemZero(dims.dModel, dims.h);
    dims.dModel / dims.h
  }

  /** h heads whose seeds are base + 3·head + 0, 1, 2. */
  function Heads(dModel: int, dk: int, h: int, base: int): (hs: seq<HeadWeights>)
    ensures |hs| == Count(h)
  {
    seq(Count(h), head => HeadWeights(FixedMatrix(dModel, dk, base + head * 3 + 0),
                                      FixedMatrix(dModel, dk, base + head * 3 + 1),
                                      FixedMatrix(dModel, dk, base + head * 3 + 2)))
  }

  /** W1 and W2 from seeds s + 0 and s + 1, b1 and b2 from s + 1 and s + 2. */
  function Ffn(dModel: int, dFf: int, s: int): FfnWeights {
    FfnWeights(FixedMatrix(dModel, dFf, s), FixedVector(dFf, s + 1),
               FixedMatrix(dFf, dModel, s + 1), FixedVector(dModel, s + 2))
  }

  function EncoderLayer(dims: EC.ModelDims, dk: int, l: int): EncoderLayerWeights {
    EncoderLayerWeights(MhaWeights(Heads(dims.dModel, dk, dims.h, 100 + l * 10), FixedMatrix(dims.dModel, dims.dModel, 150 + l)),
                        Ffn(dims.dModel, dims.dFf, 200 + l * 2))
  }

  function DecoderLayer(dims: EC.ModelDims, dk: int, l: int): DecoderLayerWeights {
    DecoderLayerWeights(MhaWeights(Heads(dims.dModel, dk, dims.h, 300 + l * 20), FixedMatrix(dims.dModel, dims.dModel, 350 + l)),
                        MhaWeights(Heads(dims.dModel, dk, dims.h, 400 + l * 20), FixedMatrix(dims.dModel, dims.dModel, 450 + l)),
                        Ffn(dims.dModel, dims.dFf, 500 + l * 2))
  }

  /** fixedWeights without the position table. */
  function FixedWeightsOf(dims: EC.ModelDims): (w: Weights)
    requires dims.h != 0 && JsRem(dims.dModel, dims.h) == 0
    ensures |w.encoderLayers| == Count(dims.nLayers) && |w.decoderLayers| == Count(dims.nLayers)
    ensures Shaped(w.embedding, VocabSize, Count(dims.dModel)) && Shaped(w.finalLinear, Count(dims.dModel), VocabSize)
  {
    var dk := Dk(dims);
    Weights(FixedMatrix(VocabSize, dims.dModel, 1),
            seq(Count(dims.nLayers), l => EncoderLayer(dims, dk, l)),
            seq(Count(dims.nLayers), l => DecoderLayer(dims, dk, l)),
            FixedMatrix(dims.dModel, VocabSize, 999))
  }

  /** Every weight has the shape its product needs. */
  predicate MhaShaped(w: MhaWeights, h: nat, dModel: nat, dk: nat) {
    |w.heads| == h && Shaped(w.wo, dModel, dModel)
    && forall j :: 0 <= j < h ==>
         Shaped(w.heads[j].wq, dModel, dk) && Shaped(w.heads[j].wk, dModel, dk) && Shaped(w.heads[j].wv, dModel, dk)
  }

  predicate FfnShaped(w: FfnWeights, dModel: nat, dFf: nat) {
    Shaped(w.w1, dModel, dFf) && |w.b1| == dFf && Shaped(w.w2, dFf, dModel) && |w.b2| == dModel
  }

  /**
   * With d_model, h and d_ff positive: embedding 16 × d_model, n_layers
   * encoder and decoder layers of h heads with d_model × d_k projections,
   * d_model × d_model output weights, a d_model × d_ff and a d_ff × d_model
   * feed-forward pair, and finalLinear d_model × 16.
   */
  lemma {:induction false} WeightShapes(dims: EC.ModelDims)
    requires dims.dModel >= 1 && dims.h >= 1 && dims.dFf >= 1 && JsRem(dims.dModel, dims.h) == 0
    ensures var w := FixedWeightsOf(dims);
      var dk := dims.dModel / dims.h;
      dk >= 1 && dk * dims.h == dims.dModel
      && Shaped(w.embedding, VocabSize, dims.dModel) && Shaped(w.finalLinear, dims.dModel, VocabSize)
      && |w.encoderLayers| == Count(dims.nLayers) && |w.decoderLayers| == Count(dims.nLayers)
      && (forall l :: 0 <= l < |w.encoderLayers| ==>
            MhaShaped(w.encoderLayers[l].mha, dims.h, dims.dModel, dk)
            && FfnShaped(w.encoderLayers[l].ffn, dims.dModel, dims.dFf))
      && (forall l :: 0 <= l < |w.decoderLayers| ==>
            MhaShaped(w.decoderLayers[l].maskedMha, dims.h, dims.dModel, dk)
            && MhaShaped(w.decoderLayers[l].encDecMha, dims.h, dims.dModel, dk)
            && FfnShaped(w.decoderLayers[l].ffn, dims.dModel, dims.dFf))
  {
    JsRemZero(dims.dModel, dims.h);
    var dk := dims.dModel / dims.h;
    assert dk * dims.h == dims.dModel;
  }

  /** The seeds of encoder layer l: head j's Wq, Wk, Wv use 100 + 10l + 3j + 0, 1, 2, and Wo 150 + l. */
  lemma {:induction false} EncoderSeeds(dims: EC.ModelDims, l: nat, j: nat)
    requires dims.h != 0 && JsRem(dims.dModel, dims.h) == 0
    requires l < Count(dims.nLayers) && j < Count(dims.h)
    ensures var w := FixedWeightsOf(dims).encoderLayers[l];
      var dk := Dk(dims);
      w.mha.heads[j] == HeadWeights(FixedMatrix(dims.dModel, dk, 100 + 10 * l + 3 * j),
                                    FixedMatrix(dims.dModel, dk, 100 + 10 * l + 3 * j + 1),
                                    FixedMatrix(dims.dModel, dk, 100 + 10 * l + 3 * j + 2))
      && w.mha.wo == FixedMatrix(dims.dModel, dims.dModel, 150 + l)
      && w.ffn == FfnWeights(FixedMatrix(dims.dModel, dims.dFf, 200 + 2 * l), FixedVector(dims.dFf, 201 + 2 * l),
                             FixedMatrix(dims.dFf, dims.dModel, 201 + 2 * l), FixedVector(dims.dModel, 202 + 2 * l))
  {
  }

  /** Decoder layer l mirrors the encoder with seeds 300 + 20l, 400 + 20l and 500 + 2l; finalLinear uses 999 and the embedding 1. */
  lemma {:induction false} DecoderSeeds(dims: EC.ModelDims, l: nat, j: nat)
    requires dims.h != 0 && JsRem(dims.dModel, dims.h) == 0
    requires l < Count(dims.nLayers) && j < Count(dims.h)
    ensures var w := FixedWeightsOf(dims).decoderLayers[l];
      var dk := Dk(dims);
      w.maskedMha.heads[j].wq == FixedMatrix(dims.dModel, dk, 300 + 20 * l + 3 * j)
      && w.maskedMha.wo == FixedMatrix(dims.dModel, dims.dModel, 350 + l)
      && w.encDecMha.heads[j].wq == FixedMatrix(dims.dModel, dk, 400 + 20 * l + 3 * j)
      && w.encDecMha.wo == FixedMatrix(dims.dModel, dims.dModel, 450 + l)
      && w.ffn.w1 == FixedMatrix(dims.dModel, dims.dFf, 500 + 2 * l)
      && FixedWeightsOf(dims).finalLinear == FixedMatrix(dims.dModel, VocabSize, 999)
      && FixedWeightsOf(dims).embedding == FixedMatrix(VocabSize, dims.dModel, 1)
  {
  }

  // ----- seeds that coincide -----

  /** A vector and a matrix from one seed hold the same draws: entry j of the vector is entry j of the matrix read row-major. */
  lemma {:induction false} SharedSeed(size: nat, rows: nat, cols: nat, seed: int, j: nat)
    requires j < size && j < rows * cols
    ensures cols > 0 && j / cols < rows
    ensures FixedVector(size, seed)[j] == FixedMatrix(rows, cols, seed)[j / cols][j % cols]
  {
    var r, c := j / cols, j % cols;
    assert j == r * cols + c;
    if r >= rows {
      MulLeq(rows, r, cols);
    }
  }

  /**
   * b1 and W2 of an encoder layer are both seeded 201 + 2l, so b1 repeats
   * the leading entries of W2 read row-major.
   */
  lemma {:induction false} BiasRepeatsW2(dims: EC.ModelDims, l: nat, j: nat)
    requires dims.h != 0 && JsRem(dims.dModel, dims.h) == 0 && dims.dModel >= 1
    requires l < Count(dims.nLayers) && j < Count(dims.dFf)
    ensures var f := FixedWeightsOf(dims).encoderLayers[l].ffn;
      j < |f.b1| && j / dims.dModel < |f.w2| && j % dims.dModel < |f.w2[j / dims.dModel]|
      && f.b1[j] == f.w2[j / dims.dModel][j % dims.dModel]
  {
    MulLeq(1, dims.dModel, Count(dims.dFf));
    SharedSeed(Count(dims.dFf), Count(dims.dFf), dims.dModel, 201 + 2 * l, j);
  }

  /**
   * b2 of encoder layer l is seeded 202 + 2l, the seed of W1 in layer l + 1,
   * so b2 repeats the leading entries of the next layer's W1.
   */
  lemma {:induction false} BiasRepeatsNextW1(dims: EC.ModelDims, l: nat, j: nat)
    requires dims.h != 0 && JsRem(dims.dModel, dims.h) == 0 && dims.dFf >= 1
    requires l + 1 < Count(dims.nLayers) && j < Count(dims.dModel)
    ensures var w := FixedWeightsOf(dims).encoderLayers;
      j < |w[l].ffn.b2| && j / dims.dFf < |w[l + 1].ffn.w1| && j % dims.dFf < |w[l + 1].ffn.w1[j / dims.dFf]|
      && w[l].ffn.b2[j] == w[l + 1].ffn.w1[j / dims.dFf][j % dims.dFf]
  {
    MulLeq(1, dims.dFf, Count(dims.dModel));
    SharedSeed(Count(dims.dModel), Count(dims.dModel), dims.dFf, 202 + 2 * l, j);
  }

  /** With four or more heads, head 3's Wk of encoder layer l is seeded 110 + 10l, the seed of head 0's Wq in layer l + 1. */
  lemma {:induction false} HeadSeedsOverlap(dims: EC.ModelDims, l: nat)
    requires dims.h >= 4 && JsRem(dims.dModel, dims.h) == 0
    requires l + 1 < Count(dims.nLayers)
    ensures var w := FixedWeightsOf(dims).encoderLayers;
      w[l].mha.heads[3].wk == w[l + 1].mha.heads[0].wq
  {
  }
}
