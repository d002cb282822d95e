// calculateAttentionVariants of src/topics/attention-variants/lib/attention.ts:
// a seeded input and seeded weights, then multi-head, multi-query and
// grouped-query attention computed by one routine that differs only in the
// number of key/value heads, and four seeded stand-in matrices for the
// latent-attention panel. The softmax and the scale 1 / √d_head are
// parameters, and toFixed(2) is a rounding function; entries are reals.

module Attention {
  import opened Arith
  import opened Matrices
  import FW = FixedWeights
  import VT = VariantsTracing
  import VC = VariantsControls
  import Text

  // ----- createMatrix -----

  /** createMatrix: the explorer's generator (same constants), every draw rounded by `parseFloat(x.toFixed(2))`. */
  function SeededMatrix(rows: int, cols: int, seed: int, round: real -> real): (m: Matrix)
    ensures Shaped(m, Count(rows), Count(cols))
    ensures forall r, c :: 0 <= r < Count(rows) && 0 <= c < Count(cols) ==>
      m[r][c] == round(FW.Draw(FW.StateAfter(seed, r * Count(cols) + c + 1)))
  {
    MapEntries(FW.FixedMatrix(rows, cols, seed), round)
  }

  /** Without the rounding, createMatrix is the explorer's createFixedMatrix. */
  lemma UnroundedIsFixedMatrix(rows: int, cols: int, seed: int)
    ensures SeededMatrix(rows, cols, seed, x => x) == FW.FixedMatrix(rows, cols, seed)
  {
    var m := SeededMatrix(rows, cols, seed, x => x);
    forall r | 0 <= r < |m|
      ensures m[r] == FW.FixedMatrix(rows, cols, seed)[r]
    {
    }
  }

  /** n calls of the generator, each draw rounded as it is taken. */
  method RoundedRun(random: FW.SeededRandom, n: nat, round: real -> real, ghost seed: int, ghost start: nat)
    returns (row: Vector)
    requires random.state == FW.StateAfter(seed, start)
    modifies random
    ensures random.state == FW.StateAfter(seed, start + n)
    ensures |row| == n && forall j :: 0 <= j < n ==> row[j] == round(FW.Draw(FW.StateAfter(seed, start + j + 1)))
  {
    row := [];
    var c := 0;
    while c < n
      invariant 0 <= c <= n && |row| == c
      invariant random.state == FW.StateAfter(seed, start + c)
      invariant forall j :: 0 <= j < c ==> row[j] == round(FW.Draw(FW.StateAfter(seed, start + j + 1)))
    {
      var v := random.Next();
      row := row + [round(v)];
      c := c + 1;
    }
  }

  /** createMatrix: one generator for the matrix, rows filled one after another. */
  method CreateMatrix(rows: int, cols: int, seed: int, round: real -> real) returns (m: Matrix)
    ensures m == SeededMatrix(rows, cols, seed, round)
  {
    var random := new FW.SeededRandom(seed);
    var nr, nc := Count(rows), Count(cols);
    m := [];
    var r := 0;
    while r < nr
      invariant 0 <= r <= nr && |m| == r
      invariant random.state == FW.StateAfter(seed, r * nc)
      invariant forall i :: 0 <= i < r ==> m[i] == SeededMatrix(rows, cols, seed, round)[i]
    {
      var row := RoundedRun(random, nc, round, seed, r * nc);
      assert r * nc + nc == (r + 1) * nc;
      m := m + [row];
      r := r + 1;
    }
  }

  /** `Array.from({ length: n }, (_, i) => createMatrix(rows, cols, base + i))`. */
  method CreateMatrices(n: int, rows: int, cols: int, base: int, round: real -> real) returns (ms: seq<Matrix>)
    ensures |ms| == Count(n) && forall i :: 0 <= i < |ms| ==> ms[i] == SeededMatrix(rows, cols, base + i, round)
  {
    ms := [];
    var i := 0;
    while i < Count(n)
      invariant 0 <= i <= Count(n) && |ms| == i
      invariant forall j :: 0 <= j < i ==> ms[j] == SeededMatrix(rows, cols, base + j, round)
    {
      var m := CreateMatrix(rows, cols, base + i, round);
      ms := ms + [m];
      i := i + 1;
    }
  }

  // ----- slicing and the KV group -----

  /** A slice bound: negative counts from the end, then clamped to [0, n]. */
  function Clamp(b: int, n: nat): (c: nat)
    ensures c <= n
  {
    if b < 0 then (if n + b < 0 then 0 else n + b) else if b > n then n else b
  }

  /** `row.slice(lo, hi)`. */
  function JsSlice(row: seq<real>, lo: int, hi: int): (r: seq<real>)
    ensures |r| <= |row|
  {
    var a := Clamp(lo, |row|);
    var b := Clamp(hi, |row|);
    if a < b then row[a..b] else []
  }

  /** `M.map(row => row.slice(lo, hi))`. */
  function JsColumns(M: Matrix, lo: int, hi: int): (r: Matrix)
    ensures |r| == |M| && forall i :: 0 <= i < |M| ==> r[i] == JsSlice(M[i], lo, hi)
  {
    seq(|M|, i requires 0 <= i < |M| => JsSlice(M[i], lo, hi))
  }

  /**
   * Group g's columns of a projection with kvc groups of d_head columns:
   * d_head columns for a group that exists, none for g = -1 or a group past
   * the end.
   */
  lemma GroupSlice(M: Matrix, g: int, dHead: nat, kvc: nat)
    requires Shaped(M, |M|, kvc * dHead) && dHead >= 1 && g >= -1
    ensures 0 <= g < kvc ==> JsColumns(M, g * dHead, (g + 1) * dHead) == Columns(M, g * dHead, (g + 1) * dHead)
    ensures !(0 <= g < kvc) ==> forall i :: 0 <= i < |M| ==> JsSlice(M[i], g * dHead, (g + 1) * dHead) == []
    ensures |M| >= 1 ==> (0 <= g < kvc <==> JsSlice(M[0], g * dHead, (g + 1) * dHead) != [])
  {
    var w := kvc * dHead;
    if 0 <= g < kvc {
      MulLeq(g + 1, kvc, dHead);
      if |M| >= 1 {
        assert Clamp(g * dHead, w) == g * dHead && Clamp((g + 1) * dHead, w) == g * dHead + dHead;
      }
    } else if g >= kvc {
      MulLeq(kvc, g, dHead);
      forall i | 0 <= i < |M|
        ensures JsSlice(M[i], g * dHead, (g + 1) * dHead) == []
      {
        assert Clamp(g * dHead, w) == w;
      }
    } else {
      assert g * dHead == -(dHead as int) && (g + 1) * dHead == 0;
      forall i | 0 <= i < |M|
        ensures JsSlice(M[i], g * dHead, (g + 1) * dHead) == []
      {
        assert Clamp(0, w) == 0;
      }
    }
  }

  /** `Math.floor(i / (n_q / v))`, computed exactly, for v != 0. */
  function KvGroup(i: nat, nQ: int, v: int): int
    requires nQ >= 1 && v != 0
  {
    ((i as real) / ((nQ as real) / (v as real))).Floor
  }

  /** For v >= 1 the builder's group is the tracer's: ⌊i·v / n_q⌋. */
  lemma KvGroupIsTracerGroup(i: nat, nQ: int, v: int)
    requires nQ >= 1 && v >= 1
    ensures KvGroup(i, nQ, v) == VT.GqaGroup(i, nQ, v)
  {
    var x := QuotientTimes(i, nQ, v);
    var g := VT.GqaGroup(i, nQ, v);
    FloorFrom(x, nQ, i * v, g);
  }

  /** i / (n / v), multiplied back by n, is i·v. */
  lemma QuotientTimes(i: int, n: int, v: int) returns (x: real)
    requires n >= 1 && v != 0
    ensures x == (i as real) / ((n as real) / (v as real))
    ensures x * (n as real) == (i * v) as real
  {
    var y := (n as real) / (v as real);
    assert y * (v as real) == n as real;
    assert y != 0.0;
    x := (i as real) / y;
    assert x * y == i as real;
    calc {
      x * (n as real);
      x * (y * (v as real));
      (x * y) * (v as real);
      (i as real) * (v as real);
    }
  }

  /** A real x with x·n = a, n > 0, and k·n <= a < (k+1)·n has floor k. */
  lemma FloorFrom(x: real, n: int, a: int, k: int)
    requires n >= 1 && x * (n as real) == a as real && k * n <= a < (k + 1) * n
    ensures x.Floor == k
  {
    var nr := n as real;
    assert (k * n) as real == (k as real) * nr;
    assert ((k + 1) * n) as real == (k as real + 1.0) * nr;
    RealCancelLeq(k as real, x, nr);
    RealCancelLess(x, k as real + 1.0, nr);
    FloorBetween(x, k);
  }

  lemma RealCancelLeq(a: real, b: real, c: real)
    requires c > 0.0 && a * c <= b * c
    ensures a <= b
  {
    if a > b {
      RealMulLess(b, a, c);
    }
  }

  lemma RealCancelLess(a: real, b: real, c: real)
    requires c > 0.0 && a * c < b * c
    ensures a < b
  {
    if a >= b {
      RealMulLeq(b, a, c);
    }
  }

  lemma FloorBetween(x: real, k: int)
    requires k as real <= x < k as real + 1.0
    ensures x.Floor == k
  {
    var f := x.Floor;
    assert f as real <= x < f as real + 1.0;
    assert f as real < k as real + 1.0 && (k as real) < f as real + 1.0;
  }

  lemma RealMulLess(a: real, b: real, c: real)
    requires a < b && c > 0.0
    ensures a * c < b * c
  {
  }

  lemma RealMulLeq(a: real, b: real, c: real)
    requires a <= b && c > 0.0
    ensures a * c <= b * c
  {
  }

  /** With a negative v (and a key head left), head 0 gets group 0 and head 1 group -1. */
  lemma KvGroupNegative(nQ: int, v: int)
    requires nQ >= 1 && v < 0 && nQ + v >= 1
    ensures KvGroup(0, nQ, v) == 0 && KvGroup(1, nQ, v) == -1
  {
    var x0 := QuotientTimes(0, nQ, v);
    FloorFrom(x0, nQ, 0, 0);
    var x1 := QuotientTimes(1, nQ, v);
    FloorFrom(x1, nQ, v, -1);
  }

  /** MHA (v = n_q) reads group i, MQA (v = 1) group 0, and any 1 <= v <= n_q a group below v. */
  lemma KvGroupRules(i: nat, nQ: int, v: int)
    requires nQ >= 1 && 1 <= v <= nQ && i < nQ
    ensures 0 <= KvGroup(i, nQ, v) < v
    ensures KvGroup(i, nQ, nQ) == i && KvGroup(i, nQ, 1) == 0
  {
    KvGroupInRange(i, nQ, v);
    KvGroupOfMha(i, nQ);
    KvGroupOfMqa(i, nQ);
  }

  lemma KvGroupInRange(i: nat, nQ: int, v: int)
    requires nQ >= 1 && 1 <= v <= nQ && i < nQ
    ensures 0 <= KvGroup(i, nQ, v) < v
  {
    KvGroupIsTracerGroup(i, nQ, v);
    VT.GqaGroupInRange(i, nQ, v);
  }

  lemma KvGroupOfMha(i: nat, nQ: int)
    requires nQ >= 1 && i < nQ
    ensures KvGroup(i, nQ, nQ) == i
  {
    KvGroupIsTracerGroup(i, nQ, nQ);
    DivUnique(i * nQ, nQ, i);
  }

  lemma KvGroupOfMqa(i: nat, nQ: int)
    requires nQ >= 1 && i < nQ
    ensures KvGroup(i, nQ, 1) == 0
  {
    KvGroupIsTracerGroup(i, nQ, 1);
    DivUnique(i, nQ, 0);
  }

  // ----- calculateAttention -----

  /** The floating-point parts: the row softmax and the factor `1 / Math.sqrt(d_head)`. */
  datatype Numerics = Numerics(softmaxRow: seq<real> -> seq<real>, scale: real)

  ghost predicate ValidNumerics(nm: Numerics) {
    KeepsLength(nm.softmaxRow)
  }

  datatype HeadData = HeadData(q: Matrix, k: Matrix, v: Matrix, scores: Matrix, weights: Matrix, output: Matrix)

  datatype VariantData = VariantData(qProj: Matrix, kProj: Matrix, vProj: Matrix, heads: seq<HeadData>,
                                     combinedOutput: Matrix, finalOutput: Matrix)

  /** What calculateAttention does: throw, or return the variant's data. */
  datatype VariantOutcome = Raised | Computed(data: VariantData)

  /** `ws.map(w => multiplyMatrices(input, w))`. */
  function Projections(input: Matrix, ws: seq<Matrix>): (ps: seq<Matrix>)
    requires |input| > 0 && forall k :: 0 <= k < |ws| ==> |ws[k]| > 0 && Fits(input, ws[k])
    ensures |ps| == |ws| && forall k :: 0 <= k < |ws| ==> ps[k] == PlainProduct(input, ws[k])
  {
    seq(|ws|, k requires 0 <= k < |ws| => PlainProduct(input, ws[k]))
  }

  /** The input is n × d_model, there are n_q weights of each kind, d_model × d_head, and Wo is d_model × d_model. */
  predicate AttentionInputs(input: Matrix, wq: seq<Matrix>, wk: seq<Matrix>, wv: seq<Matrix>, wo: Matrix,
                            nQ: nat, dHead: nat) {
    nQ >= 1 && dHead >= 1 && |input| >= 1 && Shaped(input, |input|, nQ * dHead)
    && |wq| == nQ && |wk| == nQ && |wv| == nQ
    && AllShaped(wq, nQ * dHead, dHead) && AllShaped(wk, nQ * dHead, dHead) && AllShaped(wv, nQ * dHead, dHead)
    && Shaped(wo, nQ * dHead, nQ * dHead)
  }

  /** Projections of an n × d_model input by d_model × d_head weights are n × d_head. */
  lemma ProjectionsShaped(input: Matrix, ws: seq<Matrix>, n: nat, dModel: nat, dHead: nat)
    requires n >= 1 && dModel >= 1 && Shaped(input, n, dModel) && AllShaped(ws, dModel, dHead)
    ensures forall k :: 0 <= k < |ws| ==> |ws[k]| > 0 && Fits(input, ws[k])
    ensures AllShaped(Projections(input, ws), n, dHead)
  {
  }

  /**
   * Head i reading KV group g: q is columns [i·d_head, (i+1)·d_head) of
   * Q_proj, k and v group g's columns of K_proj and V_proj, Scores is q
   * times k transposed, scaled, Weights the softmax of each row, and
   * Output = Weights · v.
   */
  function HeadAt(qProj: Matrix, kProj: Matrix, vProj: Matrix, i: nat, g: nat, dHead: nat, nm: Numerics): (hd: HeadData)
    requires |qProj| >= 1 && |kProj| == |qProj| && |vProj| == |qProj| && dHead >= 1 && ValidNumerics(nm)
    requires forall r :: 0 <= r < |qProj| ==> |qProj[r]| >= (i + 1) * dHead
    requires forall r :: 0 <= r < |qProj| ==> |kProj[r]| >= (g + 1) * dHead && |vProj[r]| >= (g + 1) * dHead
    ensures hd.q == Columns(qProj, i * dHead, (i + 1) * dHead)
    ensures hd.k == Columns(kProj, g * dHead, (g + 1) * dHead) && hd.v == Columns(vProj, g * dHead, (g + 1) * dHead)
    ensures Shaped(hd.q, |qProj|, dHead) && Shaped(hd.k, |qProj|, dHead) && Shaped(hd.v, |qProj|, dHead)
    ensures Shaped(hd.scores, |qProj|, |qProj|) && Shaped(hd.weights, |qProj|, |qProj|) && Shaped(hd.output, |qProj|, dHead)
  {
    var n := |qProj|;
    assert (i + 1) * dHead == i * dHead + dHead && (g + 1) * dHead == g * dHead + dHead;
    var q := Columns(qProj, i * dHead, (i + 1) * dHead);
    var k := Columns(kProj, g * dHead, (g + 1) * dHead);
    var v := Columns(vProj, g * dHead, (g + 1) * dHead);
    assert Shaped(q, n, dHead) && Shaped(k, n, dHead) && Shaped(v, n, dHead);
    var kT := Transpose(k, |k[0]|, |k|);
    var scores := MapEntries(PlainProduct(q, kT), x => x * nm.scale);
    var weights := MapRows(scores, nm.softmaxRow);
    MapRowsShape(scores, nm.softmaxRow, n, n);
    HeadData(q, k, v, scores, weights, PlainProduct(weights, v))
  }

  function HeadOutputs(hs: seq<HeadData>): (os: seq<Matrix>)
    ensures |os| == |hs| && forall j :: 0 <= j < |hs| ==> os[j] == hs[j].output
  {
    seq(|hs|, j requires 0 <= j < |hs| => hs[j].output)
  }

  /** P joins the projections of the input by each of ws, n × d_head apiece. */
  predicate ProjectedBy(P: Matrix, input: Matrix, ws: seq<Matrix>, dHead: nat) {
    |input| >= 1 && (forall k :: 0 <= k < |ws| ==> |ws[k]| > 0 && Fits(input, ws[k]))
    && AllShaped(Projections(input, ws), |input|, dHead)
    && P == ConcatRows(Projections(input, ws), |input|)
    && Shaped(P, |input|, |ws| * dHead)
  }

  /** The n_q head outputs joined side by side, then multiplied by Wo. */
  predicate CombinedBy(heads: seq<HeadData>, combined: Matrix, final: Matrix, wo: Matrix, n: nat, nQ: nat, dHead: nat) {
    n >= 1 && nQ * dHead >= 1 && |heads| == nQ
    && AllShaped(HeadOutputs(heads), n, dHead)
    && combined == ConcatRows(HeadOutputs(heads), n) && Shaped(combined, n, nQ * dHead)
    && Shaped(wo, nQ * dHead, nQ * dHead)
    && final == PlainProduct(combined, wo) && Shaped(final, n, nQ * dHead)
  }

  /**
   * What a variant with v key/value heads holds: Q_proj joins the n_q
   * query projections, K_proj and V_proj the first min(v, n_q) key and value
   * projections, head i reads KV group ⌊i·v / n_q⌋ (below min(v, n_q)),
   * the combined output joins the head outputs and is multiplied by Wo.
   */
  ghost predicate VariantOf(d: VariantData, input: Matrix, wq: seq<Matrix>, wk: seq<Matrix>, wv: seq<Matrix>, wo: Matrix,
                            nQ: nat, dHead: nat, v: int, nm: Numerics) {
    AttentionInputs(input, wq, wk, wv, wo, nQ, dHead) && ValidNumerics(nm) && v >= 1
    && |SliceTo(wk, v)| == (if v < nQ then v else nQ) && |SliceTo(wv, v)| == |SliceTo(wk, v)|
    && ProjectedBy(d.qProj, input, wq, dHead)
    && ProjectedBy(d.kProj, input, SliceTo(wk, v), dHead)
    && ProjectedBy(d.vProj, input, SliceTo(wv, v), dHead)
    && |d.heads| == nQ
    && HeadsSoFar(d.heads, d.qProj, d.kProj, d.vProj, nQ, dHead, v, |SliceTo(wk, v)|, nm)
    && CombinedBy(d.heads, d.combinedOutput, d.finalOutput, wo, |input|, nQ, dHead)
  }

  /** The push loop's heads, in order. */
  ghost predicate HeadsSoFar(heads: seq<HeadData>, qProj: Matrix, kProj: Matrix, vProj: Matrix, nQ: nat, dHead: nat,
                             v: int, kvc: nat, nm: Numerics) {
    |qProj| >= 1 && |kProj| == |qProj| && |vProj| == |qProj| && dHead >= 1 && ValidNumerics(nm) && nQ >= 1 && v >= 1
    && Shaped(qProj, |qProj|, nQ * dHead) && Shaped(kProj, |qProj|, kvc * dHead) && Shaped(vProj, |qProj|, kvc * dHead)
    && |heads| <= nQ
    && forall i :: 0 <= i < |heads| ==>
      VT.GqaGroup(i, nQ, v) < kvc && (i + 1) * dHead <= nQ * dHead && (VT.GqaGroup(i, nQ, v) + 1) * dHead <= kvc * dHead
      && heads[i] == HeadAt(qProj, kProj, vProj, i, VT.GqaGroup(i, nQ, v), dHead, nm)
  }

  /** Heads built on n-row projections output n × d_head. */
  lemma HeadOutputsShaped(heads: seq<HeadData>, qProj: Matrix, kProj: Matrix, vProj: Matrix, nQ: nat, dHead: nat,
                          v: int, kvc: nat, nm: Numerics)
    requires HeadsSoFar(heads, qProj, kProj, vProj, nQ, dHead, v, kvc, nm)
    ensures AllShaped(HeadOutputs(heads), |qProj|, dHead)
  {
    forall j | 0 <= j < |heads|
      ensures |HeadOutputs(heads)[j]| == |qProj| && forall r :: 0 <= r < |qProj| ==> |HeadOutputs(heads)[j][r]| == dHead
    {
      assert heads[j] == HeadAt(qProj, kProj, vProj, j, VT.GqaGroup(j, nQ, v), dHead, nm);
    }
  }

  /** (i+1)·d for i < m stays within m·d. */
  lemma NextBlockFits(i: nat, m: nat, d: nat)
    requires i < m
    ensures (i + 1) * d <= m * d
  {
    MulLeq(i + 1, m, d);
  }

  /** `concatMatricesHorizontally(ws.map(w => multiplyMatrices(input, w)))` for at least one weight. */
  method Project(input: Matrix, ws: seq<Matrix>, dModel: nat, dHead: nat) returns (P: Matrix)
    requires |input| >= 1 && dModel >= 1 && Shaped(input, |input|, dModel) && |ws| >= 1 && AllShaped(ws, dModel, dHead)
    ensures ProjectedBy(P, input, ws, dHead)
  {
    var parts := Projections(input, ws);
    P := ConcatMatricesHorizontally(parts);
    ConcatRowsShape(parts, |input|, dHead);
  }

  /**
   * The head loop with v != 0 and kvc >= 1 joined key/value projections:
   * it stops at the first head whose key columns are empty, which is head 1
   * for a negative v and otherwise a head whose group is kvc or more; the
   * groups only grow with i, so that happens exactly when the last head's
   * does.
   */
  method HeadLoop(qProj: Matrix, kProj: Matrix, vProj: Matrix, nQ: nat, dHead: nat, v: int, kvc: nat, nm: Numerics)
    returns (heads: seq<HeadData>, raised: bool)
    requires |qProj| >= 1 && |kProj| == |qProj| && |vProj| == |qProj| && dHead >= 1 && ValidNumerics(nm) && nQ >= 1
    requires Shaped(qProj, |qProj|, nQ * dHead) && Shaped(kProj, |qProj|, kvc * dHead) && Shaped(vProj, |qProj|, kvc * dHead)
    requires v != 0 && kvc >= 1
    requires v >= 1 ==> kvc == (if v < nQ then v else nQ)
    requires v < 0 ==> nQ + v >= 1
    ensures raised <==> v < 0 || (v > nQ && (nQ - 1) * v >= nQ * nQ)
    ensures !raised ==> |heads| == nQ && HeadsSoFar(heads, qProj, kProj, vProj, nQ, dHead, v, kvc, nm)
  {
    if v < 0 {
      KvGroupNegative(nQ, v);
    }
    heads := [];
    var i := 0;
    while i < nQ
      invariant 0 <= i <= nQ && |heads| == i
      invariant v < 0 ==> i <= 1
      invariant v >= 1 ==> HeadsSoFar(heads, qProj, kProj, vProj, nQ, dHead, v, kvc, nm)
    {
      var stop, hd := NextHead(qProj, kProj, vProj, i, nQ, dHead, v, kvc, nm);
      if stop {
        return heads, true;
      }
      if v >= 1 {
        HeadsStep(heads, hd, qProj, kProj, vProj, nQ, dHead, v, kvc, nm);
      }
      heads := heads + [hd];
      i := i + 1;
    }
    assert v >= 1;
    LastGroupFits(nQ, v, kvc);
    raised := false;
  }

  /**
   * One round of the head loop: stop (the throw) when head i's key columns
   * are empty, which for a negative v is head 1 and otherwise a head whose
   * group is kvc or more; else head i on its group.
   */
  method NextHead(qProj: Matrix, kProj: Matrix, vProj: Matrix, i: nat, nQ: nat, dHead: nat, v: int, kvc: nat, nm: Numerics)
    returns (stop: bool, hd: HeadData)
    requires |qProj| >= 1 && |kProj| == |qProj| && |vProj| == |qProj| && dHead >= 1 && ValidNumerics(nm) && nQ >= 1
    requires Shaped(qProj, |qProj|, nQ * dHead) && Shaped(kProj, |qProj|, kvc * dHead) && Shaped(vProj, |qProj|, kvc * dHead)
    requires v != 0 && kvc >= 1
    requires v >= 1 ==> kvc == (if v < nQ then v else nQ)
    requires v < 0 ==> nQ + v >= 1 && i <= 1
    requires i < nQ
    ensures v < 0 ==> (stop <==> i == 1)
    ensures v >= 1 && stop ==> v > nQ && (nQ - 1) * v >= nQ * nQ
    ensures v >= 1 && !stop ==>
      VT.GqaGroup(i, nQ, v) < kvc && (i + 1) * dHead <= nQ * dHead && (VT.GqaGroup(i, nQ, v) + 1) * dHead <= kvc * dHead
      && hd == HeadAt(qProj, kProj, vProj, i, VT.GqaGroup(i, nQ, v), dHead, nm)
  {
    if v < 0 {
      KvGroupNegative(nQ, v);
    }
    var g := KvGroup(i, nQ, v);
    if v >= 1 {
      KvGroupIsTracerGroup(i, nQ, v);
    }
    GroupSlice(kProj, g, dHead, kvc);
    var kHead := JsColumns(kProj, g * dHead, (g + 1) * dHead);
    assert kHead[0] == JsSlice(kProj[0], g * dHead, (g + 1) * dHead);
    if |kHead[0]| == 0 {
      // k_head[0] has no entries, so k_head_T is [] and multiplyMatrices(q_head, k_head_T) reads B[0].length of undefined
      if v >= 1 {
        GroupTooLarge(i, nQ, v, g, kvc);
      }
      return true, HeadData([], [], [], [], [], []);
    }
    NextBlockFits(i, nQ, dHead);
    NextBlockFits(g, kvc, dHead);
    hd := HeadAt(qProj, kProj, vProj, i, g, dHead, nm);
    stop := false;
  }

  /** A head i < n_q with group g >= kvc: only when v > n_q and (n_q - 1)·v >= n_q². */
  lemma GroupTooLarge(i: nat, nQ: nat, v: int, g: int, kvc: nat)
    requires 1 <= v && i < nQ && kvc == (if v < nQ then v else nQ)
    requires g == VT.GqaGroup(i, nQ, v) && g >= kvc
    ensures v > nQ && (nQ - 1) * v >= nQ * nQ
  {
    assert g * nQ <= i * v;
    MulLeq(i, nQ - 1, v);
    MulLeq(kvc, g, nQ);
    MulLt(i, nQ, v);
    MulLtCancel(g, v, nQ);
  }

  /** With every group below kvc, the last head's bound rules the throw out. */
  lemma LastGroupFits(nQ: nat, v: int, kvc: nat)
    requires 1 <= v && 1 <= nQ && kvc == (if v < nQ then v else nQ)
    requires VT.GqaGroup(nQ - 1, nQ, v) < kvc
    ensures !(v > nQ && (nQ - 1) * v >= nQ * nQ)
  {
    if v > nQ {
      var g := VT.GqaGroup(nQ - 1, nQ, v);
      assert (nQ - 1) * v < (g + 1) * nQ;
      MulLeq(g + 1, nQ, nQ);
    }
  }

  /** `concatMatricesHorizontally(head outputs)`, then `multiplyMatrices(combined, Wo)`. */
  method CombineHeads(heads: seq<HeadData>, wo: Matrix, n: nat, nQ: nat, dHead: nat) returns (combined: Matrix, final: Matrix)
    requires n >= 1 && nQ >= 1 && dHead >= 1 && |heads| == nQ && AllShaped(HeadOutputs(heads), n, dHead)
    requires Shaped(wo, nQ * dHead, nQ * dHead)
    ensures CombinedBy(heads, combined, final, wo, n, nQ, dHead)
  {
    var outputs := HeadOutputs(heads);
    combined := ConcatMatricesHorizontally(outputs);
    ConcatRowsShape(outputs, n, dHead);
    MulLeq(1, nQ, dHead);
    final := PlainProduct(combined, wo);
  }

  /** One more head, for group g of head |heads|, keeps the loop's record. */
  lemma HeadsStep(heads: seq<HeadData>, hd: HeadData, qProj: Matrix, kProj: Matrix, vProj: Matrix, nQ: nat, dHead: nat,
                  v: int, kvc: nat, nm: Numerics)
    requires HeadsSoFar(heads, qProj, kProj, vProj, nQ, dHead, v, kvc, nm) && |heads| < nQ
    requires VT.GqaGroup(|heads|, nQ, v) < kvc
    requires (|heads| + 1) * dHead <= nQ * dHead && (VT.GqaGroup(|heads|, nQ, v) + 1) * dHead <= kvc * dHead
    requires hd == HeadAt(qProj, kProj, vProj, |heads|, VT.GqaGroup(|heads|, nQ, v), dHead, nm)
    ensures HeadsSoFar(heads + [hd], qProj, kProj, vProj, nQ, dHead, v, kvc, nm)
  {
    var hs := heads + [hd];
    forall i | 0 <= i < |hs|
      ensures VT.GqaGroup(i, nQ, v) < kvc && (i + 1) * dHead <= nQ * dHead && (VT.GqaGroup(i, nQ, v) + 1) * dHead <= kvc * dHead
      ensures hs[i] == HeadAt(qProj, kProj, vProj, i, VT.GqaGroup(i, nQ, v), dHead, nm)
    {
      if i < |heads| {
        assert hs[i] == heads[i];
      }
    }
  }

  /**
   * calculateAttention with v key/value heads: it throws when v <= 0 (no key
   * weights, or a negative head-1 group) or when some head's group lies past
   * the min(v, n_q) joined key projections, which happens exactly when
   * v > n_q and (n_q - 1)·v >= n_q²; otherwise it returns the variant.
   */
  method CalculateAttention(input: Matrix, wq: seq<Matrix>, wk: seq<Matrix>, wv: seq<Matrix>, wo: Matrix,
                            nQ: nat, dHead: nat, v: int, nm: Numerics) returns (r: VariantOutcome)
    requires AttentionInputs(input, wq, wk, wv, wo, nQ, dHead) && ValidNumerics(nm)
    ensures r.Raised? <==> v <= 0 || (v > nQ && (nQ - 1) * v >= nQ * nQ)
    ensures r.Computed? ==> VariantOf(r.data, input, wq, wk, wv, wo, nQ, dHead, v, nm)
  {
    var n := |input|;
    var dModel := nQ * dHead;
    MulLeq(1, nQ, dHead);
    var qProj := Project(input, wq, dModel, dHead);
    var kWeights := SliceTo(wk, v);
    var vWeights := SliceTo(wv, v);
    var kvc := |kWeights|;
    if kvc == 0 {
      // concatMatricesHorizontally() with no matrices reads matrices[0].length of undefined
      return Raised;
    }
    var kProj := Project(input, kWeights, dModel, dHead);
    var vProj := Project(input, vWeights, dModel, dHead);
    var heads, raised := HeadLoop(qProj, kProj, vProj, nQ, dHead, v, kvc, nm);
    if raised {
      return Raised;
    }
    HeadOutputsShaped(heads, qProj, kProj, vProj, nQ, dHead, v, kvc, nm);
    var combined, final := CombineHeads(heads, wo, n, nQ, dHead);
    r := Computed(VariantData(qProj, kProj, vProj, heads, combined, final));
  }

  /** Head i of the loop reads input · Wq[i], and input · Wk[g], input · Wv[g] of the joined key and value weights. */
  lemma {:induction false} HeadReads(heads: seq<HeadData>, input: Matrix, wq: seq<Matrix>, kw: seq<Matrix>, vw: seq<Matrix>,
                                     qProj: Matrix, kProj: Matrix, vProj: Matrix, nQ: nat, dHead: nat, v: int, nm: Numerics, i: nat)
    requires ProjectedBy(qProj, input, wq, dHead) && ProjectedBy(kProj, input, kw, dHead) && ProjectedBy(vProj, input, vw, dHead)
    requires |wq| == nQ && |vw| == |kw| && HeadsSoFar(heads, qProj, kProj, vProj, nQ, dHead, v, |kw|, nm) && i < |heads|
    ensures VT.GqaGroup(i, nQ, v) < |kw|
    ensures heads[i].q == PlainProduct(input, wq[i])
    ensures heads[i].k == PlainProduct(input, kw[VT.GqaGroup(i, nQ, v)])
    ensures heads[i].v == PlainProduct(input, vw[VT.GqaGroup(i, nQ, v)])
  {
    var n := |input|;
    var g := VT.GqaGroup(i, nQ, v);
    assert heads[i] == HeadAt(qProj, kProj, vProj, i, g, dHead, nm);
    ColumnsOfConcat(Projections(input, wq), n, dHead, i);
    ColumnsOfConcat(Projections(input, kw), n, dHead, g);
    ColumnsOfConcat(Projections(input, vw), n, dHead, g);
  }

  /**
   * In a computed variant, head i's Q is input · Wq[i], and its K and V are
   * input · Wk[g] and input · Wv[g] for its group g = ⌊i·v / n_q⌋, which is
   * below v: only the first v key and value weights are read.
   */
  lemma HeadsReadTheirWeights(d: VariantData, input: Matrix, wq: seq<Matrix>, wk: seq<Matrix>, wv: seq<Matrix>,
                              wo: Matrix, nQ: nat, dHead: nat, v: int, nm: Numerics, i: nat)
    requires VariantOf(d, input, wq, wk, wv, wo, nQ, dHead, v, nm) && i < nQ
    ensures VT.GqaGroup(i, nQ, v) < v && VT.GqaGroup(i, nQ, v) < nQ
    ensures d.heads[i].q == PlainProduct(input, wq[i])
    ensures d.heads[i].k == PlainProduct(input, wk[VT.GqaGroup(i, nQ, v)])
    ensures d.heads[i].v == PlainProduct(input, wv[VT.GqaGroup(i, nQ, v)])
  {
    var kw, vw := SliceTo(wk, v), SliceTo(wv, v);
    HeadReads(d.heads, input, wq, kw, vw, d.qProj, d.kProj, d.vProj, nQ, dHead, v, nm, i);
    var g := VT.GqaGroup(i, nQ, v);
    assert kw[g] == wk[g] && vw[g] == wv[g];
  }

  // ----- calculateAttentionVariants -----

  datatype AttnDims = AttnDims(seqLen: int, dModel: int, dHead: int, nQ: int, nKv: int)

  /** The stand-in matrices of the latent-attention panel. */
  datatype MlaData = MlaData(cKv: Matrix, cQ: Matrix, kRope: Matrix, finalOutput: Matrix)

  datatype AttentionData = AttentionData(input: Matrix, wq: seq<Matrix>, wk: seq<Matrix>, wv: seq<Matrix>, wo: Matrix,
                                         mha: VariantData, mqa: VariantData, gqa: VariantData, mla: MlaData)

  /** What calculateAttentionVariants does: return null, throw, or return the data. */
  datatype Outcome = Null | Throws | Data(data: AttentionData)

  /** The guard: d_model must be n_q_heads · d_head. */
  predicate ReturnsNull(d: AttnDims) {
    d.dModel != d.nQ * d.dHead
  }

  /**
   * Past the guard it throws with no query head, no input row or d_head <= 0
   * (the first multiplyMatrices or concatMatricesHorizontally of the MHA
   * variant), or when the GQA variant with n_kv_heads throws.
   */
  predicate Raises(d: AttnDims) {
    !ReturnsNull(d)
    && (d.nQ <= 0 || d.seqLen <= 0 || d.dHead <= 0
        || d.nKv <= 0 || (d.nKv > d.nQ && (d.nQ - 1) * d.nKv >= d.nQ * d.nQ))
  }

  /** The builder's own weights: `Array.from` n_q times with seeds base + i. */
  ghost predicate SeededList(ws: seq<Matrix>, n: int, rows: int, cols: int, base: int, round: real -> real) {
    |ws| == Count(n) && forall i :: 0 <= i < |ws| ==> ws[i] == SeededMatrix(rows, cols, base + i, round)
  }

  /**
   * A successful call: the input from seed 1, Wq, Wk and Wv from seeds
   * 10 + i, 100 + i and 200 + i, Wo from 999, the three variants with n_q,
   * 1 and n_kv key/value heads, and the panel's matrices from 300 to 600.
   */
  ghost predicate AttentionDataOf(a: AttentionData, d: AttnDims, round: real -> real, nm: Numerics) {
    d.nQ >= 1 && d.dHead >= 1 && d.seqLen >= 1 && d.dModel == d.nQ * d.dHead
    && a.input == SeededMatrix(d.seqLen, d.dModel, 1, round)
    && SeededList(a.wq, d.nQ, d.dModel, d.dHead, 10, round)
    && SeededList(a.wk, d.nQ, d.dModel, d.dHead, 100, round)
    && SeededList(a.wv, d.nQ, d.dModel, d.dHead, 200, round)
    && a.wo == SeededMatrix(d.dModel, d.dModel, 999, round)
    && VariantOf(a.mha, a.input, a.wq, a.wk, a.wv, a.wo, d.nQ, d.dHead, d.nQ, nm)
    && VariantOf(a.mqa, a.input, a.wq, a.wk, a.wv, a.wo, d.nQ, d.dHead, 1, nm)
    && VariantOf(a.gqa, a.input, a.wq, a.wk, a.wv, a.wo, d.nQ, d.dHead, d.nKv, nm)
    && a.mla == MlaData(SeededMatrix(d.seqLen, 32, 300, round), SeededMatrix(d.seqLen, 32, 400, round),
                        SeededMatrix(d.seqLen, 16, 500, round), SeededMatrix(d.seqLen, d.dModel, 600, round))
  }

  /** The seeded weights have the shapes calculateAttention needs. */
  lemma SeededInputs(d: AttnDims, a: AttentionData, round: real -> real)
    requires d.nQ >= 1 && d.dHead >= 1 && d.seqLen >= 1 && d.dModel == d.nQ * d.dHead
    requires a.input == SeededMatrix(d.seqLen, d.dModel, 1, round)
    requires SeededList(a.wq, d.nQ, d.dModel, d.dHead, 10, round)
    requires SeededList(a.wk, d.nQ, d.dModel, d.dHead, 100, round)
    requires SeededList(a.wv, d.nQ, d.dModel, d.dHead, 200, round)
    requires a.wo == SeededMatrix(d.dModel, d.dModel, 999, round)
    ensures AttentionInputs(a.input, a.wq, a.wk, a.wv, a.wo, d.nQ, d.dHead)
  {
    MulLeq(1, d.nQ, d.dHead);
  }

  /** calculateAttentionVariants for the given dims. */
  method CalculateAttentionVariants(d: AttnDims, round: real -> real, nm: Numerics) returns (r: Outcome)
    requires ValidNumerics(nm)
    ensures r.Null? <==> ReturnsNull(d)
    ensures r.Throws? <==> Raises(d)
    ensures r.Data? ==> AttentionDataOf(r.data, d, round, nm)
  {
    if d.dModel != d.nQ * d.dHead {
      return Null;
    }
    var input := CreateMatrix(d.seqLen, d.dModel, 1, round);
    var wq := CreateMatrices(d.nQ, d.dModel, d.dHead, 10, round);
    var wk := CreateMatrices(d.nQ, d.dModel, d.dHead, 100, round);
    var wv := CreateMatrices(d.nQ, d.dModel, d.dHead, 200, round);
    var wo := CreateMatrix(d.dModel, d.dModel, 999, round);
    if d.nQ <= 0 || d.seqLen <= 0 || d.dHead <= 0 {
      // the MHA variant: no query weights leave concatMatricesHorizontally nothing to read,
      // and an empty input or a d_model <= 0 weight leaves multiplyMatrices no A[0] or B[0]
      return Throws;
    }
    var nQ: nat, dHead: nat := d.nQ, d.dHead;
    ghost var shell := AttentionData(input, wq, wk, wv, wo, VariantData([], [], [], [], [], []),
                                     VariantData([], [], [], [], [], []), VariantData([], [], [], [], [], []),
                                     MlaData([], [], [], []));
    SeededInputs(d, shell, round);
    var mha := CalculateAttention(input, wq, wk, wv, wo, nQ, dHead, nQ, nm);
    var mqa := CalculateAttention(input, wq, wk, wv, wo, nQ, dHead, 1, nm);
    var gqa := CalculateAttention(input, wq, wk, wv, wo, nQ, dHead, d.nKv, nm);
    if gqa.Raised? {
      return Throws;
    }
    var cKv := CreateMatrix(d.seqLen, 32, 300, round);
    var cQ := CreateMatrix(d.seqLen, 32, 400, round);
    var kRope := CreateMatrix(d.seqLen, 16, 500, round);
    var mlaOut := CreateMatrix(d.seqLen, d.dModel, 600, round);
    r := Data(AttentionData(input, wq, wk, wv, wo, mha.data, mqa.data, gqa.data, MlaData(cKv, cQ, kRope, mlaOut)));
  }

  /** MHA and MQA never throw past the guard; GQA does not throw when 1 <= n_kv_heads <= n_q_heads. */
  lemma VariantsWithinRange(d: AttnDims)
    requires !ReturnsNull(d) && d.nQ >= 1 && d.seqLen >= 1 && d.dHead >= 1 && 1 <= d.nKv <= d.nQ
    ensures !Raises(d)
  {
  }

  // ----- the n_kv_heads control feeding the builder -----

  /**
   * n_q_heads 1 and n_kv_heads 1, then a new n_kv_heads 4: the control
   * leaves 0 query heads and d_model 0, which pass the builder's guard; the
   * MHA variant then throws joining its Q projections, of which there are none.
   */
  lemma ZeroQueryHeadsThrow(seqLen: int, dHead: int)
    ensures VC.Repair(VC.HeadDims(Text.Some(1), Text.Some(1), Text.Some(dHead), Text.None), VC.NKvId, Text.Some(4))
            == VC.Done(VC.HeadDims(Text.Some(0), Text.Some(4), Text.Some(dHead), Text.Some(0)))
    ensures !ReturnsNull(AttnDims(seqLen, 0, dHead, 0, 4)) && Raises(AttnDims(seqLen, 0, dHead, 0, 4))
  {
    VC.KvChangeCanZeroQueries(Text.Some(dHead));
  }

  /** With the corrected rounding, a new n_kv_heads v >= 1 leaves dims the builder computes for any positive d_head and seq_len. */
  lemma CorrectedQueriesCompute(seqLen: int, dHead: int, q: int, v: int)
    requires v >= 1 && seqLen >= 1 && dHead >= 1
    ensures var nQ := VC.CorrectedQueries(q, v);
      !ReturnsNull(AttnDims(seqLen, nQ * dHead, dHead, nQ, v)) && !Raises(AttnDims(seqLen, nQ * dHead, dHead, nQ, v))
  {
  }
}
