// handleDimChange of src/topics/attention-variants/components/Controls.tsx:
// the parsed value replaces its field, then a new n_q_heads pulls n_kv_heads
// down to a divisor of it, a new n_kv_heads rounds n_q_heads to a multiple
// of it, and d_model is recomputed as n_q_heads · d_head. Numbers are
// integers or NaN (None), since the value is parseInt's and never repaired.

module VariantsControls {
  import opened Text
  import opened Arith
  import EC = ExplorerControls

  /** A JavaScript number that is an integer, or NaN (None). */
  type Num = Option<int>

  datatype HeadDims = HeadDims(nQ: Num, nKv: Num, dHead: Num, dModel: Num)

  datatype DimId = NQId | NKvId | DHeadId

  /** What the state updater does: returns new dims, or never returns. */
  datatype Outcome = Done(dims: HeadDims) | Hangs

  function WithField(d: HeadDims, id: DimId, v: Num): HeadDims {
    match id
    case NQId => d.(nQ := v)
    case NKvId => d.(nKv := v)
    case DHeadId => d.(dHead := v)
  }

  /** `a % b !== 0`: the remainder is NaN when either side is NaN or b is 0, and NaN differs from 0. */
  predicate RemNonZero(a: Num, b: Num) {
    a.None? || b.None? || b.value == 0 || JsRem(a.value, b.value) != 0
  }

  /** `a * b`, NaN when either side is. */
  function NumMul(a: Num, b: Num): (r: Num)
    ensures r.Some? <==> a.Some? && b.Some?
  {
    if a.Some? && b.Some? then Some(a.value * b.value) else None
  }

  /**
   * `v * Math.round(q / v)`; with v = 0 the quotient is ±Infinity or NaN and
   * the product NaN.
   */
  function RoundedQueries(q: Num, v: Num): (r: Num)
    ensures r.Some? <==> q.Some? && v.Some? && v.value != 0
  {
    if q.Some? && v.Some? && v.value != 0 then Some(v.value * RoundQuot(q.value, v.value)) else None
  }

  /**
   * Whether `while (v % k !== 0) k--` ends: only for numbers, and then when
   * v is 0 or k starts at or above -|v|, itself a divisor of v.
   */
  predicate ScanStops(v: Num, k: Num) {
    v.Some? && k.Some? && (v.value == 0 || k.value >= -Abs(v.value))
  }

  function ScanFloor(v: int): int { if v == 0 then -1 else -Abs(v) }

  /** -|v| divides v, so the loop never passes it. */
  lemma NegAbsDivides(v: int)
    ensures v != 0 ==> !RemNonZero(Some(v), Some(-Abs(v)))
  {
    if v == 0 {
    } else if v > 0 {
      JsRemZero(v, -Abs(v));
      assert v == (-1) * (-Abs(v));
      MultipleMod(-1, -Abs(v));
    } else {
      JsRemZero(v, -Abs(v));
      assert v == 1 * (-Abs(v));
      MultipleMod(1, -Abs(v));
    }
  }

  /** Where the decrement loop stops from k: the largest j <= k that divides v (a remainder of 0). */
  function ScanEnd(v: int, k: int): (r: int)
    requires v == 0 || k >= -Abs(v)
    ensures r <= k && !RemNonZero(Some(v), Some(r))
    ensures forall j :: r < j <= k ==> RemNonZero(Some(v), Some(j))
    decreases k - ScanFloor(v)
  {
    if RemNonZero(Some(v), Some(k)) then
      NegAbsDivides(v);
      ScanEnd(v, k - 1)
    else k
  }

  /** The dims the updater returns for the parsed value numValue. */
  function Repair(prev: HeadDims, id: DimId, numValue: Num): Outcome {
    var nd := WithField(prev, id, numValue);
    if id == NQId && RemNonZero(numValue, nd.nKv) && !ScanStops(numValue, nd.nKv) then Hangs
    else
      var afterQ := if id == NQId && RemNonZero(numValue, nd.nKv)
                    then nd.(nKv := Some(Max(1, ScanEnd(numValue.value, nd.nKv.value)))) else nd;
      var afterKv := if id == NKvId && RemNonZero(afterQ.nQ, numValue)
                     then afterQ.(nQ := RoundedQueries(afterQ.nQ, numValue)) else afterQ;
      Done(afterKv.(dModel := NumMul(afterKv.nQ, afterKv.dHead)))
  }

  function Max(a: int, b: int): int { if a < b then b else a }

  /** handleDimChange's state updater, on the typed string. */
  method HandleDimChange(prev: HeadDims, id: DimId, value: string) returns (r: Outcome)
    ensures r == Repair(prev, id, ParseInt(value))
  {
    var numValue := ParseInt(value);
    var newDims := WithField(prev, id, numValue);
    if id == NQId {
      if RemNonZero(numValue, newDims.nKv) {
        if !ScanStops(numValue, newDims.nKv) {
          // the loop below would never exit (ScanNeverStops)
          return Hangs;
        }
        var v := numValue.value;
        var newKvHeads := newDims.nKv.value;
        while RemNonZero(numValue, Some(newKvHeads))
          invariant v == 0 || newKvHeads >= -Abs(v)
          invariant ScanEnd(v, newKvHeads) == ScanEnd(v, newDims.nKv.value)
          decreases newKvHeads - ScanFloor(v)
        {
          NegAbsDivides(v);
          newKvHeads := newKvHeads - 1;
        }
        newDims := newDims.(nKv := Some(Max(1, newKvHeads)));
      }
    }
    if id == NKvId {
      if RemNonZero(newDims.nQ, numValue) {
        newDims := newDims.(nQ := RoundedQueries(newDims.nQ, numValue));
      }
    }
    newDims := newDims.(dModel := NumMul(newDims.nQ, newDims.dHead));
    return Done(newDims);
  }

  // ----- what a change does -----

  /**
   * A new n_q_heads v, with n_kv_heads k >= 1: n_kv_heads stays when it
   * divides v, else becomes the largest value below k that divides v (at
   * least 1); either way it then divides n_q_heads.
   */
  lemma QueryHeadsChange(prev: HeadDims, v: int, k: int)
    requires prev.nKv == Some(k) && k >= 1
    ensures var r := Repair(prev, NQId, Some(v));
      r.Done? && r.dims.nQ == Some(v) && r.dims.dHead == prev.dHead
      && r.dims.nKv.Some? && 1 <= r.dims.nKv.value <= k && v % r.dims.nKv.value == 0
      && (v % k == 0 ==> r.dims.nKv == Some(k))
      && (forall j :: r.dims.nKv.value < j <= k ==> v % j != 0)
      && r.dims.dModel == NumMul(Some(v), prev.dHead)
  {
    JsRemZero(v, k);
    if v % k != 0 {
      ScanEndDivisor(v, k);
    }
  }

  /** From k >= 1 the loop stops at the largest divisor of v at or below k, which is at least 1. */
  lemma ScanEndDivisor(v: int, k: int)
    requires k >= 1
    ensures var e := ScanEnd(v, k);
      1 <= e <= k && v % e == 0 && forall j :: e < j <= k ==> v % j != 0
  {
    var e := ScanEnd(v, k);
    JsRemZero(v, 1);
    assert e >= 1;
    JsRemZero(v, e);
    forall j | e < j <= k
      ensures v % j != 0
    {
      assert RemNonZero(Some(v), Some(j));
      JsRemZero(v, j);
    }
  }

  /**
   * A new n_kv_heads v != 0: n_q_heads stays when v divides it, else becomes
   * v · round(n_q_heads / v), a multiple of v within |v| / 2 of the old value.
   */
  lemma KvHeadsChange(prev: HeadDims, v: int, q: int)
    requires prev.nQ == Some(q) && v != 0
    ensures var r := Repair(prev, NKvId, Some(v));
      r.Done? && r.dims.nKv == Some(v) && r.dims.dHead == prev.dHead
      && (q % v == 0 ==> r.dims.nQ == Some(q))
      && (q % v != 0 ==> r.dims.nQ == Some(v * RoundQuot(q, v)))
      && r.dims.nQ.Some? && r.dims.nQ.value % v == 0 && 2 * Abs(r.dims.nQ.value - q) <= Abs(v)
      && r.dims.dModel == NumMul(r.dims.nQ, prev.dHead)
  {
    JsRemZero(q, v);
    if q % v != 0 {
      MultipleMod(RoundQuot(q, v), v);
      assert v * RoundQuot(q, v) == RoundQuot(q, v) * v;
    }
  }

  /** The rounding can leave no query heads: n_q_heads 1 and a new n_kv_heads 4 give 4 · round(0.25) = 0. */
  lemma KvChangeCanZeroQueries(dHead: Num)
    ensures Repair(HeadDims(Some(1), Some(1), dHead, None), NKvId, Some(4))
            == Done(HeadDims(Some(0), Some(4), dHead, NumMul(Some(0), dHead)))
  {
    assert RoundQuot(1, 4) == 0;
  }

  /**
   * The evidently intended n_q_heads after a new n_kv_heads v >= 1: the
   * multiple of v nearest the old value, but never below v itself, so at
   * least one query head per key/value head.
   */
  function CorrectedQueries(q: int, v: int): (r: int)
    requires v >= 1
    ensures r >= v && r % v == 0
    ensures 2 * q >= v ==> 2 * Abs(r - q) <= v
    ensures 2 * q < v ==> r == v
  {
    var m := RoundQuot(q, v);
    MultipleMod(m, v);
    assert v * m == m * v;
    if m < 1 then v
    else
      MulLeq(1, m, v);
      v * m
  }

  /** A new d_head changes only d_head and d_model, which is n_q_heads · d_head whatever was edited. */
  lemma DModelRecomputed(prev: HeadDims, id: DimId, numValue: Num)
    ensures var r := Repair(prev, id, numValue);
      (r.Done? ==> r.dims.dModel == NumMul(r.dims.nQ, r.dims.dHead))
      && (id == DHeadId ==> r == Done(prev.(dHead := numValue, dModel := NumMul(prev.nQ, numValue))))
  {
  }

  // ----- the empty n_q_heads box -----

  /**
   * Once the loop cannot stop, its guard holds at every counter value it
   * reaches: NaN stays NaN, and below -|v| no value divides v != 0.
   */
  lemma ScanNeverStops(v: Num, k: Num, j: int)
    requires !ScanStops(v, k)
    ensures k.None? ==> RemNonZero(v, k)
    ensures k.Some? && j <= k.value ==> RemNonZero(v, Some(j))
  {
    if v.Some? && k.Some? && j <= k.value {
      JsRemSmall(v.value, j);
    }
  }

  /** Clearing the n_q_heads box: parseInt('') is NaN, NaN % n_kv is NaN, and the loop runs forever. */
  lemma ClearedQueryHeadsHang(prev: HeadDims)
    ensures ParseInt("") == None
    ensures Repair(prev, NQId, ParseInt("")) == Hangs
  {
    assert TrimStart("") == "";
    assert LeadingDigits("") == "";
  }

  /** The updater with the typed value read as `parseInt(value, 10) || 1`, as the explorer's handler reads it. */
  function RepairOrOne(prev: HeadDims, id: DimId, value: string): Outcome {
    Repair(prev, id, Some(EC.Typed(value)))
  }

  /**
   * Read that way, no string hangs the updater while n_kv_heads is at least
   * 1, and after an n_q_heads change n_kv_heads divides it.
   */
  lemma OrOneNeverHangs(prev: HeadDims, id: DimId, value: string)
    requires prev.nKv.Some? && prev.nKv.value >= 1
    ensures var r := RepairOrOne(prev, id, value);
      r.Done? && (id == NQId ==> r.dims.nQ.Some? && r.dims.nKv.Some? && r.dims.nKv.value >= 1
                                 && r.dims.nQ.value % r.dims.nKv.value == 0)
  {
    var v := EC.Typed(value);
    if id == NQId {
      QueryHeadsChange(prev, v, prev.nKv.value);
    } else if id == NKvId {
      KvHeadsChange(prev.(nQ := if prev.nQ.Some? then prev.nQ else Some(0)), v, if prev.nQ.Some? then prev.nQ.value else 0);
    }
  }
}
