// handleDimChange of src/topics/transformer-explorer/components/Controls.tsx:
// the typed value replaces its field (parseInt, with NaN and 0 read as 1),
// then h and d_model are repaired so that h divides d_model, and d_ff
// follows d_model. Also the d_k read-out under the inputs.

module ExplorerControls {
  import opened Text
  import opened Arith

  datatype ModelDims = ModelDims(dModel: int, h: int, seqLen: int, nLayers: int, dFf: int)

  /** The ids of the number inputs that call the handler. */
  datatype DimId = SeqLenId | DModelId | HId | NLayersId

  /** `parseInt(value, 10) || 1`: NaN and 0 are falsy and become 1. */
  function Typed(value: string): (v: int)
    ensures v != 0
    ensures ParseInt(value).Some? && ParseInt(value).value != 0 ==> v == ParseInt(value).value
    ensures ParseInt(value).None? || ParseInt(value) == Some(0) ==> v == 1
  {
    match ParseInt(value)
    case None => 1
    case Some(n) => if n == 0 then 1 else n
  }

  /** `{ ...dims, [id]: v }` */
  function WithField(dims: ModelDims, id: DimId, v: int): ModelDims {
    match id
    case SeqLenId => dims.(seqLen := v)
    case DModelId => dims.(dModel := v)
    case HId => dims.(h := v)
    case NLayersId => dims.(nLayers := v)
  }

  /** `a % b !== 0` in JavaScript, where a remainder by 0 is NaN and so differs from 0. */
  predicate NotDivisible(a: int, b: int) {
    b == 0 || JsRem(a, b) != 0
  }

  /**
   * best_h after the divisor scan has looked at i = 1..n: the divisor of d
   * in [1, n] nearest h, the smallest one on a tie (a later divisor replaces
   * it only when strictly nearer); 1 when there is none above 1.
   */
  function NearestDivisor(d: int, h: int, n: int): (b: int)
    ensures 1 <= b && (n >= 1 ==> b <= n)
    ensures d % b == 0
    ensures forall j :: 1 <= j <= n && d % j == 0 ==> Abs(b - h) <= Abs(j - h)
    ensures forall j :: 1 <= j < b && d % j == 0 ==> Abs(j - h) > Abs(b - h)
    decreases n
  {
    if n <= 1 then 1
    else
      var b := NearestDivisor(d, h, n - 1);
      if d % n == 0 && Abs(n - h) < Abs(b - h) then n else b
  }

  /** The new dims after one change to the typed number v: the value the handler passes to setDims. */
  function RepairedWith(dims: ModelDims, id: DimId, v: int): ModelDims
    requires v != 0
  {
    var nd := WithField(dims, id, v);
    var afterH := if id == HId && NotDivisible(nd.dModel, nd.h)
                  then nd.(dModel := Max(nd.h, CeilQuot(nd.dModel, nd.h) * nd.h)) else nd;
    var afterD := if id == DModelId && NotDivisible(afterH.dModel, afterH.h)
                  then afterH.(h := NearestDivisor(afterH.dModel, afterH.h, afterH.dModel)) else afterH;
    if id == DModelId then afterD.(dFf := afterD.dModel * 4) else afterD
  }

  function Max(a: int, b: int): int { if a < b then b else a }

  /** The divisor scan of the d_model branch. */
  method BestDivisor(d: int, h: int) returns (bestH: int)
    ensures bestH == NearestDivisor(d, h, d)
  {
    bestH := 1;
    var i := 1;
    while i <= d
      invariant 1 <= i <= Max(d, 0) + 1
      invariant bestH == NearestDivisor(d, h, i - 1)
    {
      JsRemZero(d, i);
      if JsRem(d, i) == 0 {
        if Abs(i - h) < Abs(bestH - h) {
          bestH := i;
        }
      }
      i := i + 1;
    }
  }

  /** handleDimChange: the fields are rewritten one after another, as in the source. */
  method HandleDimChange(dims: ModelDims, id: DimId, value: string) returns (newDims: ModelDims)
    ensures newDims == RepairedWith(dims, id, Typed(value))
  {
    newDims := WithField(dims, id, Typed(value));
    if id == HId {
      if NotDivisible(newDims.dModel, newDims.h) {
        newDims := newDims.(dModel := Max(newDims.h, CeilQuot(newDims.dModel, newDims.h) * newDims.h));
      }
    }
    if id == DModelId {
      if NotDivisible(newDims.dModel, newDims.h) {
        var bestH := BestDivisor(newDims.dModel, newDims.h);
        newDims := newDims.(h := bestH);
      }
    }
    if id == DModelId {
      newDims := newDims.(dFf := newDims.dModel * 4);
    }
  }

  /** The d_k read-out: d_model / h when h divides d_model, else 'N/A' (None). */
  function DkDisplay(dims: ModelDims): (r: Option<int>)
    ensures r.Some? ==> dims.h != 0 && r.value * dims.h == dims.dModel
    ensures dims.h != 0 && dims.dModel % dims.h == 0 ==> r.Some?
  {
    if dims.h == 0 then None
    else
      JsRemZero(dims.dModel, dims.h);
      if JsRem(dims.dModel, dims.h) == 0 then Some(dims.dModel / dims.h) else None
  }

  // ----- what a change does -----

  /** seq_len and n_layers take the typed value and nothing else changes. */
  lemma OtherFieldsOnly(dims: ModelDims, id: DimId, v: int)
    requires v != 0 && (id == SeqLenId || id == NLayersId)
    ensures RepairedWith(dims, id, v) == WithField(dims, id, v)
  {
  }

  /**
   * A new h keeps d_model when it divides it; otherwise d_model becomes
   * max(h, ⌈d_model / h⌉·h). With positive values the result is a multiple
   * of h, at least h, and the least multiple of h at or above the old d_model.
   */
  lemma HChange(dims: ModelDims, h: int)
    requires h != 0
    ensures var r := RepairedWith(dims, HId, h);
      r.h == h && r.seqLen == dims.seqLen && r.nLayers == dims.nLayers && r.dFf == dims.dFf
      && (dims.dModel % h == 0 ==> r.dModel == dims.dModel)
      && (h > 0 && dims.dModel > 0 ==>
            r.dModel % h == 0 && r.dModel >= h && r.dModel >= dims.dModel && r.dModel - h < dims.dModel)
  {
    JsRemZero(dims.dModel, h);
    if h > 0 && dims.dModel > 0 && dims.dModel % h != 0 {
      RoundUpToMultiple(dims.dModel, h);
    }
  }

  /** max(h, ⌈a / h⌉·h) is the least multiple of h at or above a, and at least h. */
  lemma RoundUpToMultiple(a: int, h: int)
    requires a > 0 && h > 0
    ensures var m := Max(h, CeilQuot(a, h) * h);
      m % h == 0 && m >= h && m >= a && m - h < a
  {
    var c := CeilQuot(a, h);
    MultipleMod(c, h);
    assert c * h - h == (c - 1) * h;
    if c * h < h {
      MulLeq(c, 0, h);
    }
  }

  /**
   * A new d_model keeps h when h divides it; otherwise h becomes the divisor
   * of d_model nearest the old h (the smaller on a tie); d_ff becomes
   * 4·d_model.
   */
  lemma DModelChange(dims: ModelDims, d: int)
    requires d != 0
    ensures var r := RepairedWith(dims, DModelId, d);
      r.dModel == d && r.dFf == 4 * d && r.seqLen == dims.seqLen && r.nLayers == dims.nLayers
      && (dims.h != 0 && d % dims.h == 0 ==> r.h == dims.h)
      && (dims.h == 0 || d % dims.h != 0 ==> r.h == NearestDivisor(d, dims.h, d))
  {
    if dims.h != 0 {
      JsRemZero(d, dims.h);
    }
  }

  /** After an h or d_model change with positive values, h divides d_model, so d_k shows a number. */
  lemma RepairDivides(dims: ModelDims, id: DimId, v: int)
    requires id == HId || id == DModelId
    requires v > 0 && dims.dModel > 0 && dims.h > 0
    ensures var r := RepairedWith(dims, id, v);
      r.h > 0 && r.dModel > 0 && r.dModel % r.h == 0 && DkDisplay(r) == Some(r.dModel / r.h)
  {
    var r := RepairedWith(dims, id, v);
    if id == HId {
      HChange(dims, v);
    } else {
      DModelChange(dims, v);
    }
    JsRemZero(r.dModel, r.h);
  }
}
