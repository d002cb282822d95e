// The attention-variants backward tracer
// (src/topics/attention-variants/lib/tracing.ts): the matrix lookup by name
// and createBackwardHighlight with its GQA/MQA weight-index rule.
//
// Names are dotted paths such as "gqa.heads.3.Scores" or "mqa.wk.0". The
// lookup is modelled as returning which matrix a name refers to; the values
// themselves are not modelled.

module VariantsTracing {
  import opened Text
  import opened Arith

  datatype Variant = Mha | Mqa | Gqa | Mla

  function VariantText(v: Variant): string {
    match v
    case Mha => "mha"
    case Mqa => "mqa"
    case Gqa => "gqa"
    case Mla => "mla"
  }

  /** The first path segment as a variant that has head data: mha, gqa or mqa. */
  function VariantOf(s: string): Option<Variant> {
    if s == "mha" then Some(Mha)
    else if s == "gqa" then Some(Gqa)
    else if s == "mqa" then Some(Mqa)
    else None
  }

  /** ElementIdentifier; an absent isInternal is false, and `symbol` is the optional tooltip symbol. */
  datatype Element = Element(variant: Variant, name: string, row: int, col: int, isInternal: bool, symbol: Option<string>)

  /** HighlightSource; absent highlightRow/highlightCol are false. */
  datatype Source = Source(variant: Variant, name: string, row: int, col: int, isInternal: bool,
                           highlightRow: bool, highlightCol: bool, symbol: Option<string>)

  datatype Highlight = Highlight(target: Option<Element>, sources: seq<Source>)

  /** A click's outcome: a highlight, or the TypeError of reading the width of a head that is not there. */
  datatype Outcome = Lit(highlight: Highlight) | Crashed

  /** dims.n_q_heads and dims.n_kv_heads. */
  datatype Dims = Dims(nq: nat, nkv: nat)

  // ===== head index and conceptual name =====

  /** An attempt of /heads\.(\d+)/ anchored at the first character of s. */
  function HeadsMatchHere(s: string): Option<nat> {
    if |s| >= 7 && s[..6] == "heads." && IsDigit(s[6]) then Some(DigitsValue(LeadingDigits(s[6..])))
    else None
  }

  /** The captured digits of the leftmost match of /heads\.(\d+)/, as a number. */
  function HeadsMatch(s: string): Option<nat> {
    if |s| == 0 then None
    else if HeadsMatchHere(s).Some? then HeadsMatchHere(s)
    else HeadsMatch(s[1..])
  }

  /** The head index of a name: the match, else 0. */
  function HeadIndex(name: string): nat {
    match HeadsMatch(name)
    case None => 0
    case Some(h) => h
  }

  /** `name.split('.').pop()`: the last dotted segment. */
  function ConceptualName(name: string): string {
    var parts := Split(name, '.');
    parts[|parts| - 1]
  }

  // ===== getMatrixByName =====

  datatype HeadKey = Q | K | V | Scores | Weights | Output

  function HeadKeyText(k: HeadKey): string {
    match k
    case Q => "Q"
    case K => "K"
    case V => "V"
    case Scores => "Scores"
    case Weights => "Weights"
    case Output => "Output"
  }

  /** `headData[conceptualName]` for the six fields of AttentionHeadData. */
  function HeadKeyOf(s: string): (r: Option<HeadKey>)
    ensures r.Some? ==> HeadKeyText(r.value) == s
  {
    if s == "Q" then Some(Q)
    else if s == "K" then Some(K)
    else if s == "V" then Some(V)
    else if s == "Scores" then Some(Scores)
    else if s == "Weights" then Some(Weights)
    else if s == "Output" then Some(Output)
    else None
  }

  datatype WeightKind = Wq | Wk | Wv

  function KindChar(k: WeightKind): char {
    match k
    case Wq => 'q'
    case Wk => 'k'
    case Wv => 'v'
  }

  /** The matrices shared by all variants, and those each variant computes. */
  datatype SharedMatrix = InputM | WoM | WeightM(kind: WeightKind, index: nat)
  datatype VariantMatrix = CombinedM | FinalM | HeadM(head: nat, key: HeadKey)
  datatype MatrixRef = Shared(s: SharedMatrix) | OfVariant(v: Variant, m: VariantMatrix)

  /**
   * getMatrixByName, the lookup only. `heads` is dims.n_q_heads: every
   * variant has that many heads, and Wq, Wk and Wv that many matrices each.
   */
  function GetMatrixByName(name: string, heads: nat): (r: Option<MatrixRef>)
    ensures r.Some? ==> |Split(name, '.')| >= 2 && VariantOf(Split(name, '.')[0]).Some?
    ensures r.Some? && r.value.OfVariant? ==> VariantOf(Split(name, '.')[0]) == Some(r.value.v)
  {
    var parts := Split(name, '.');
    var c := parts[|parts| - 1];
    if |parts| < 2 then None
    else
      match VariantOf(parts[0])
      case None => None
      case Some(v) =>
        var h := HeadIndex(name);
        if Contains(name, ".heads.") then
          if h < heads then
            match HeadKeyOf(c)
            case None => None
            case Some(k) => Some(OfVariant(v, HeadM(h, k)))
          else None
        else if c == "input" then Some(Shared(InputM))
        else if c == "wo" then Some(Shared(WoM))
        else if c == "combined" then Some(OfVariant(v, CombinedM))
        else if c == "output" then Some(OfVariant(v, FinalM))
        else if StartsWith(parts[1], "w") then
          WeightLookup(parts, heads)
        else None
  }

  /** The `w<type>.<index>` branch: charAt(1) picks the list, parseInt(parts[2] || '0') the index. */
  function WeightLookup(parts: seq<string>, heads: nat): Option<MatrixRef>
    requires |parts| >= 2
  {
    var idx := ParseInt(if |parts| > 2 && parts[2] != "" then parts[2] else "0");
    var t := if |parts[1]| >= 2 then parts[1][1] else ' ';
    var kind := if t == 'q' then Some(Wq) else if t == 'k' then Some(Wk) else if t == 'v' then Some(Wv) else None;
    if kind.Some? && idx.Some? && 0 <= idx.value < heads then Some(Shared(WeightM(kind.value, idx.value as nat)))
    else None
  }

  /** The dotted segments naming each matrix, with `v` as the prefix of the shared ones. */
  function PathSegments(v: Variant, r: MatrixRef): seq<string> {
    match r
    case Shared(InputM) => [VariantText(v), "input"]
    case Shared(WoM) => [VariantText(v), "wo"]
    case Shared(WeightM(k, i)) => [VariantText(v), "w" + [KindChar(k)], NatToString(i)]
    case OfVariant(w, CombinedM) => [VariantText(w), "combined"]
    case OfVariant(w, FinalM) => [VariantText(w), "output"]
    case OfVariant(w, HeadM(h, k)) => [VariantText(w), "heads", NatToString(h), HeadKeyText(k)]
  }

  function Path(v: Variant, r: MatrixRef): string {
    Join(PathSegments(v, r), '.')
  }

  /** The data holds a matrix: its variant has head data and its index is below the head count. */
  predicate Stored(v: Variant, r: MatrixRef, heads: nat) {
    v != Mla
    && match r
       case Shared(WeightM(_, i)) => i < heads
       case Shared(_) => true
       case OfVariant(w, HeadM(h, _)) => w == v && h < heads
       case OfVariant(w, _) => w == v
  }

  // ===== createBackwardHighlight =====

  /** `{ ...element, name, row, col, ... }` outside the internal branch. */
  function Spread(el: Element, name: string, row: int, col: int, highlightRow: bool, highlightCol: bool): (s: Source)
    ensures s.variant == el.variant && s.isInternal == el.isInternal && s.symbol == el.symbol
  {
    Source(el.variant, name, row, col, el.isInternal, highlightRow, highlightCol, el.symbol)
  }

  /** JavaScript's `%`: the remainder takes the sign of the dividend. */
  function JsRem(a: int, d: int): (r: int)
    requires d > 0
    ensures a >= 0 ==> 0 <= r < d
    ensures a == (if a >= 0 then a / d else -((-a) / d)) * d + r
  {
    if a >= 0 then a % d else -((-a) % d)
  }

  /** ⌊col / d_head⌋ as Math.floor computes it; Dafny's `/` by a positive divisor rounds down too. */
  function FloorDiv(a: int, d: int): (q: int)
    requires d > 0
    ensures q * d <= a < (q + 1) * d
  {
    a / d
  }

  /** The KV group of query head h: ⌊h / (n_q / n_kv)⌋, computed exactly. */
  function GqaGroup(h: nat, nq: nat, nkv: nat): (g: nat)
    requires nq > 0 && nkv > 0
    ensures g * nq <= h * nkv < (g + 1) * nq
  {
    h * nkv / nq
  }

  /**
   * The text of `Math.floor(headIndex / (n_q / n_kv))`: Infinity and NaN
   * appear when a head count is 0.
   */
  function GqaIndexText(h: nat, nq: nat, nkv: nat): string {
    if nq > 0 && nkv > 0 then NatToString(GqaGroup(h, nq, nkv))
    else if nq > 0 then "0"
    else if h > 0 && nkv > 0 then "Infinity"
    else "NaN"
  }

  /** The weightIndex text: the head for Q and for MHA, the KV group for GQA, 0 for MQA. */
  function WeightIndexText(t: char, v: Variant, h: nat, dims: Dims): string {
    if t == 'q' || v == Mha then NatToString(h)
    else if v == Gqa then GqaIndexText(h, dims.nq, dims.nkv)
    else "0"
  }

  function LowerKind(c: string): char {
    if c == "Q" then 'q' else if c == "K" then 'k' else 'v'
  }

  /**
   * createBackwardHighlight as a function of its inputs. `headWidth` is the
   * width of mha head 0's Output, None when that head or its first row is
   * missing.
   */
  function Backward(element: Element, headWidth: Option<nat>, dims: Dims): Outcome
    requires headWidth != Some(0)
  {
    var name := element.name;
    var row := element.row;
    var col := element.col;
    var v := VariantText(element.variant);
    var c := ConceptualName(name);
    var h := HeadIndex(name);
    var heads := v + ".heads." + NatToString(h) + ".";
    if element.variant == Mla then Lit(Highlight(Some(element), []))
    else if element.isInternal then
      var scores := Split(ReplaceFirst(name, ".internal", ""), '.')[0] + ".heads." + NatToString(h) + ".Scores";
      var s := if col == -1 then Source(element.variant, scores, row, -1, true, true, false, element.symbol)
               else Source(element.variant, scores, row, col, true, false, false, element.symbol);
      Lit(Highlight(Some(element), [s]))
    else if c == "output" then
      Lit(Highlight(Some(element), [Spread(element, v + ".combined", row, -1, true, false),
                                     Spread(element, v + ".wo", -1, col, false, true)]))
    else if c == "combined" then
      match headWidth
      case None => Crashed
      case Some(d) =>
        Lit(Highlight(Some(element), [Spread(element, v + ".heads." + IntToString(FloorDiv(col, d)) + ".Output",
                                             row, JsRem(col, d), false, false)]))
    else if c == "Output" then
      Lit(Highlight(Some(element), [Spread(element, heads + "Weights", row, -1, true, false),
                                     Spread(element, heads + "V", -1, col, false, true)]))
    else if c == "Weights" then
      Lit(Highlight(Some(element), [Spread(element, heads + "Scores", row, -1, true, false)]))
    else if c == "Scores" then
      Lit(Highlight(Some(element), [Spread(element, heads + "Q", row, -1, true, false),
                                     Spread(element, heads + "K", col, -1, true, false)]))
    else if c == "Q" || c == "K" || c == "V" then
      var t := LowerKind(c);
      Lit(Highlight(Some(element), [Spread(element, v + ".input", row, -1, true, false),
                                     Spread(element, v + ".w" + [t] + "." + WeightIndexText(t, element.variant, h, dims),
                                            -1, col, false, true)]))
    else Lit(Highlight(Some(element), []))
  }

  /**
   * createBackwardHighlight: sources are pushed onto a local list and the
   * weight index is reassigned by kind and variant.
   */
  method CreateBackwardHighlight(element: Element, headWidth: Option<nat>, dims: Dims) returns (r: Outcome)
    requires headWidth != Some(0)
    ensures r == Backward(element, headWidth, dims)
  {
    var name := element.name;
    var row := element.row;
    var col := element.col;
    var v := VariantText(element.variant);
    var sources: seq<Source> := [];
    if element.variant == Mla {
      return Lit(Highlight(Some(element), []));
    }
    var c := ConceptualName(name);
    var h := HeadIndex(name);
    if element.isInternal {
      var baseName := ReplaceFirst(name, ".internal", "");
      var scores := Split(baseName, '.')[0] + ".heads." + NatToString(h) + ".Scores";
      if col == -1 {
        sources := sources + [Source(element.variant, scores, row, -1, true, true, false, element.symbol)];
      } else {
        sources := sources + [Source(element.variant, scores, row, col, true, false, false, element.symbol)];
      }
      return Lit(Highlight(Some(element), sources));
    }
    var heads := v + ".heads." + NatToString(h) + ".";
    if c == "output" {
      sources := sources + [Spread(element, v + ".combined", row, -1, true, false)];
      sources := sources + [Spread(element, v + ".wo", -1, col, false, true)];
    } else if c == "combined" {
      if headWidth.None? {
        return Crashed;
      }
      var d := headWidth.value;
      var headIndexForCol := FloorDiv(col, d);
      sources := sources + [Spread(element, v + ".heads." + IntToString(headIndexForCol) + ".Output",
                                   row, JsRem(col, d), false, false)];
    } else if c == "Output" {
      sources := sources + [Spread(element, heads + "Weights", row, -1, true, false)];
      sources := sources + [Spread(element, heads + "V", -1, col, false, true)];
    } else if c == "Weights" {
      sources := sources + [Spread(element, heads + "Scores", row, -1, true, false)];
    } else if c == "Scores" {
      sources := sources + [Spread(element, heads + "Q", row, -1, true, false)];
      sources := sources + [Spread(element, heads + "K", col, -1, true, false)];
    } else if c == "Q" || c == "K" || c == "V" {
      var t := LowerKind(c);
      var weightIndex := "0";
      if t == 'q' {
        weightIndex := NatToString(h);
      } else {
        if element.variant == Mha {
          weightIndex := NatToString(h);
        } else if element.variant == Gqa {
          weightIndex := GqaIndexText(h, dims.nq, dims.nkv);
        }
      }
      sources := sources + [Spread(element, v + ".input", row, -1, true, false)];
      sources := sources + [Spread(element, v + ".w" + [t] + "." + weightIndex, -1, col, false, true)];
    }
    return Lit(Highlight(Some(element), sources));
  }

  /** `...element` copies the clicked element into every source: its variant, isInternal and symbol. */
  lemma BackwardKeepsElement(element: Element, headWidth: Option<nat>, dims: Dims)
    requires headWidth != Some(0)
    ensures var o := Backward(element, headWidth, dims);
      o.Lit? ==> forall s :: s in o.highlight.sources ==>
        s.variant == element.variant && s.isInternal == element.isInternal && s.symbol == element.symbol
  {
  }

  // ----- the lookup on the paths of the stored matrices -----

  lemma SegmentsDotFree(v: Variant, r: MatrixRef)
    ensures forall i :: 0 <= i < |PathSegments(v, r)| ==> NoChar(PathSegments(v, r)[i], '.')
  {
    match r
    case Shared(WeightM(k, i)) =>
      assert AllDigits(NatToString(i));
    case OfVariant(w, HeadM(h, k)) =>
      assert AllDigits(NatToString(h));
    case _ =>
  }

  lemma PathSplit(v: Variant, r: MatrixRef)
    ensures Split(Path(v, r), '.') == PathSegments(v, r)
  {
    SegmentsDotFree(v, r);
    SplitJoin(PathSegments(v, r), '.');
  }

  lemma HeadPathText(w: Variant, h: nat, k: HeadKey)
    ensures Path(w, OfVariant(w, HeadM(h, k))) == VariantText(w) + ".heads." + NatToString(h) + "." + HeadKeyText(k)
  {
    var segs := PathSegments(w, OfVariant(w, HeadM(h, k)));
    assert segs[3..] == [HeadKeyText(k)];
    assert Join(segs[2..], '.') == NatToString(h) + "." + HeadKeyText(k);
    assert Join(segs[1..], '.') == "heads" + "." + (NatToString(h) + "." + HeadKeyText(k));
  }

  /** Only head paths contain ".heads.": in any other path no inner segment is "heads". */
  lemma HeadsInPath(v: Variant, r: MatrixRef)
    ensures Contains(Path(v, r), ".heads.") <==> r.OfVariant? && r.m.HeadM?
  {
    var segs := PathSegments(v, r);
    if r.OfVariant? && r.m.HeadM? {
      var vt := VariantText(r.v);
      HeadPathText(r.v, r.m.head, r.m.key);
      assert Path(v, r)[|vt|..|vt| + 7] == ".heads.";
      assert OccursAt(Path(v, r), ".heads.", |vt|);
    } else if Contains(Path(v, r), ".heads.") {
      SegmentsDotFree(v, r);
      assert ".heads." == ['.'] + "heads" + ['.'];
      SegmentOccurrence(segs, "heads", '.');
    }
  }

  /** /heads\.(\d+)/ cannot start inside a prefix none of whose 'h's is followed by an 'e'. */
  lemma {:induction false} HeadsMatchSkips(a: string, t: string)
    requires forall i :: 0 <= i < |a| && a[i] == 'h' ==> i + 1 < |a| && a[i + 1] != 'e'
    ensures HeadsMatch(a + t) == HeadsMatch(t)
  {
    if |a| > 0 {
      var s := a + t;
      assert s[0] == a[0];
      if a[0] == 'h' {
        assert s[1] == a[1];
        assert |s| >= 7 ==> s[..6][1] == s[1];
      }
      assert HeadsMatchHere(s) == None;
      assert s[1..] == a[1..] + t;
      HeadsMatchSkips(a[1..], t);
    } else {
      assert a + t == t;
    }
  }

  lemma VariantPrefixPlain(v: Variant)
    ensures var a := VariantText(v) + ".";
      forall i :: 0 <= i < |a| && a[i] == 'h' ==> i + 1 < |a| && a[i + 1] != 'e'
  {
  }

  lemma {:induction false} HeadsMatchHereOfDigits(i: nat, rest: string)
    requires |rest| == 0 || !IsDigit(rest[0])
    ensures HeadsMatchHere("heads." + NatToString(i) + rest) == Some(i)
  {
    var d := NatToString(i);
    var s := "heads." + d + rest;
    assert s[..6] == "heads.";
    assert s[6..] == d + rest;
    assert IsDigit(d[0]);
    LeadingDigitsOfDigits(d, rest);
    DigitsOfNatToString(i);
  }

  /** /heads\.(\d+)/ finds the head of a name that starts with a variant and then "heads.<digits>". */
  lemma HeadIndexAfterVariant(v: Variant, i: nat, rest: string)
    requires |rest| == 0 || !IsDigit(rest[0])
    ensures HeadIndex(VariantText(v) + ".heads." + NatToString(i) + rest) == i
  {
    var a := VariantText(v) + ".";
    var t := "heads." + NatToString(i) + rest;
    assert VariantText(v) + ".heads." + NatToString(i) + rest == a + t;
    VariantPrefixPlain(v);
    HeadsMatchSkips(a, t);
    HeadsMatchHereOfDigits(i, rest);
  }

  lemma VariantOfText(v: Variant)
    ensures VariantOf(VariantText(v)) == if v == Mla then None else Some(v)
  {
  }

  lemma HeadKeyOfText(k: HeadKey)
    ensures HeadKeyOf(HeadKeyText(k)) == Some(k)
  {
  }

  lemma LookupOfHeadPath(w: Variant, h: nat, k: HeadKey, heads: nat)
    requires w != Mla
    ensures GetMatrixByName(Path(w, OfVariant(w, HeadM(h, k))), heads)
            == if h < heads then Some(OfVariant(w, HeadM(h, k))) else None
  {
    var r := OfVariant(w, HeadM(h, k));
    PathSplit(w, r);
    HeadsInPath(w, r);
    VariantOfText(w);
    HeadKeyOfText(k);
    HeadPathText(w, h, k);
    HeadIndexAfterVariant(w, h, "." + HeadKeyText(k));
    assert VariantText(w) + ".heads." + NatToString(h) + "." + HeadKeyText(k)
        == VariantText(w) + ".heads." + NatToString(h) + ("." + HeadKeyText(k));
    LookupOfHeadName(Path(w, r), w, h, k, heads);
  }

  /** The heads branch of the lookup, once the name's parts are known. */
  lemma LookupOfHeadName(name: string, w: Variant, h: nat, k: HeadKey, heads: nat)
    requires var parts := Split(name, '.');
      |parts| >= 2 && VariantOf(parts[0]) == Some(w) && HeadKeyOf(parts[|parts| - 1]) == Some(k)
    requires Contains(name, ".heads.") && HeadIndex(name) == h
    ensures GetMatrixByName(name, heads) == if h < heads then Some(OfVariant(w, HeadM(h, k))) else None
  {
  }

  lemma LookupOfWeightPath(v: Variant, kind: WeightKind, i: nat, heads: nat)
    requires v != Mla
    ensures GetMatrixByName(Path(v, Shared(WeightM(kind, i))), heads)
            == if i < heads then Some(Shared(WeightM(kind, i))) else None
  {
    var r := Shared(WeightM(kind, i));
    var segs := PathSegments(v, r);
    PathSplit(v, r);
    HeadsInPath(v, r);
    VariantOfText(v);
    var d := NatToString(i);
    assert IsDigit(d[0]);
    assert d + "" == d;
    ParseIntOfNatToString(i, "");
    assert StartsWith(segs[1], "w");
    LookupOfWeightName(Path(v, r), segs, v, kind, i, heads);
  }

  /** The weight branch of the lookup, once the name's parts are known. */
  lemma LookupOfWeightName(name: string, parts: seq<string>, v: Variant, kind: WeightKind, i: nat, heads: nat)
    requires parts == Split(name, '.') && |parts| == 3
    requires VariantOf(parts[0]) == Some(v) && !Contains(name, ".heads.")
    requires parts[1] == "w" + [KindChar(kind)] && |parts[2]| > 0 && IsDigit(parts[2][0])
    requires ParseInt(parts[2]) == Some(i)
    ensures GetMatrixByName(name, heads) == if i < heads then Some(Shared(WeightM(kind, i))) else None
  {
    assert StartsWith(parts[1], "w");
    var c := parts[2];
    assert c != "input" && c != "wo" && c != "combined" && c != "output" by {
      assert c[0] != 'i' && c[0] != 'w' && c[0] != 'c' && c[0] != 'o';
    }
    WeightBranch(name, heads);
    WeightLookupOf(parts, kind, i, heads);
  }

  /** A name that reaches the `w<type>` test of the lookup is answered by that branch. */
  lemma WeightBranch(name: string, heads: nat)
    requires |Split(name, '.')| >= 2 && VariantOf(Split(name, '.')[0]).Some? && !Contains(name, ".heads.")
    requires var c := Split(name, '.')[|Split(name, '.')| - 1];
      c != "input" && c != "wo" && c != "combined" && c != "output"
    requires StartsWith(Split(name, '.')[1], "w")
    ensures GetMatrixByName(name, heads) == WeightLookup(Split(name, '.'), heads)
  {
  }

  /** The `w<type>.<index>` branch on a kind letter and a parsed index. */
  lemma WeightLookupOf(parts: seq<string>, kind: WeightKind, i: nat, heads: nat)
    requires |parts| == 3 && parts[1] == "w" + [KindChar(kind)] && parts[2] != "" && ParseInt(parts[2]) == Some(i)
    ensures WeightLookup(parts, heads) == if i < heads then Some(Shared(WeightM(kind, i))) else None
  {
  }

  /**
   * getMatrixByName finds every stored matrix by its path, and finds nothing
   * for a path whose variant has no head data or whose index is past the
   * head count.
   */
  lemma LookupOfPath(v: Variant, r: MatrixRef, heads: nat)
    requires r.OfVariant? ==> r.v == v
    ensures GetMatrixByName(Path(v, r), heads) == if Stored(v, r, heads) then Some(r) else None
  {
    if v != Mla {
      match r
      case Shared(WeightM(k, i)) => LookupOfWeightPath(v, k, i, heads);
      case OfVariant(_, HeadM(h, k)) => LookupOfHeadPath(v, h, k, heads);
      case _ => LookupOfShortPath(v, r, heads);
    } else {
      LookupOfMlaPath(r, heads);
    }
  }

  /** The lookup on a path of two segments, neither a weight nor a head path. */
  lemma LookupOfShortPath(v: Variant, r: MatrixRef, heads: nat)
    requires v != Mla && (r.OfVariant? ==> r.v == v)
    requires !(r.Shared? && r.s.WeightM?) && !(r.OfVariant? && r.m.HeadM?)
    ensures GetMatrixByName(Path(v, r), heads) == if Stored(v, r, heads) then Some(r) else None
  {
    VariantOfText(v);
    PathSplit(v, r);
    HeadsInPath(v, r);
    var c := PathSegments(v, r)[1];
    ShortLookup(Path(v, r), v, c, heads);
  }

  /** A two-segment name under a known variant, outside the heads branch, is looked up by its last segment alone. */
  lemma ShortLookup(name: string, v: Variant, c: string, heads: nat)
    requires VariantOf(VariantText(v)) == Some(v) && Split(name, '.') == [VariantText(v), c] && !Contains(name, ".heads.")
    requires c == "input" || c == "wo" || c == "combined" || c == "output"
    ensures GetMatrixByName(name, heads) ==
      if c == "input" then Some(Shared(InputM)) else if c == "wo" then Some(Shared(WoM))
      else if c == "combined" then Some(OfVariant(v, CombinedM)) else Some(OfVariant(v, FinalM))
  {
  }

  /** The lookup on a path under mla, which the lookup does not know. */
  lemma LookupOfMlaPath(r: MatrixRef, heads: nat)
    requires r.OfVariant? ==> r.v == Mla
    ensures GetMatrixByName(Path(Mla, r), heads) == if Stored(Mla, r, heads) then Some(r) else None
  {
    VariantOfText(Mla);
    PathSplit(Mla, r);
  }

  /** Names of fewer than two segments, and names outside mha/gqa/mqa, refer to no matrix. */
  lemma LookupRejects(name: string, heads: nat)
    requires |Split(name, '.')| < 2 || VariantOf(Split(name, '.')[0]).None?
    ensures GetMatrixByName(name, heads) == None
  {
  }

  lemma ShortPathText(v: Variant, r: MatrixRef)
    requires r.Shared? ==> !r.s.WeightM?
    requires r.OfVariant? ==> r.v == v && !r.m.HeadM?
    ensures |PathSegments(v, r)| == 2
    ensures Path(v, r) == VariantText(v) + "." + PathSegments(v, r)[1]
  {
  }

  lemma WeightPathText(v: Variant, k: WeightKind, i: nat)
    ensures Path(v, Shared(WeightM(k, i))) == VariantText(v) + ".w" + [KindChar(k)] + "." + NatToString(i)
  {
    var segs := PathSegments(v, Shared(WeightM(k, i)));
    assert Join(segs[1..], '.') == "w" + [KindChar(k)] + "." + NatToString(i);
  }

  // ----- the rules of createBackwardHighlight -----

  /** The list a Q, K or V cell reads its weight column from. */
  function KindOf(c: string): WeightKind {
    if c == "Q" then Wq else if c == "K" then Wk else Wv
  }

  /** The weight index as a number, for positive head counts. */
  function WeightIndex(kind: WeightKind, v: Variant, h: nat, dims: Dims): nat
    requires dims.nq > 0 && dims.nkv > 0
  {
    if kind == Wq || v == Mha then h else if v == Gqa then GqaGroup(h, dims.nq, dims.nkv) else 0
  }

  lemma WeightIndexTextOf(kind: WeightKind, v: Variant, h: nat, dims: Dims)
    requires dims.nq > 0 && dims.nkv > 0
    ensures WeightIndexText(KindChar(kind), v, h, dims) == NatToString(WeightIndex(kind, v, h, dims))
  {
  }

  /** A query head's KV group is below n_kv. */
  lemma GqaGroupInRange(h: nat, nq: nat, nkv: nat)
    requires nq > 0 && nkv > 0 && h < nq
    ensures GqaGroup(h, nq, nkv) < nkv
  {
  }

  /** When n_kv divides n_q the group is ⌊h / (n_q / n_kv)⌋ with an integer group size. */
  lemma GqaGroupOfDivisor(h: nat, nq: nat, nkv: nat)
    requires nq > 0 && nkv > 0 && nq % nkv == 0
    ensures GqaGroup(h, nq, nkv) == h / (nq / nkv)
  {
    var size := nq / nkv;
    var g := h / size;
    assert nq == size * nkv;
    assert g * size <= h < (g + 1) * size;
    assert g * size * nkv <= h * nkv < (g + 1) * size * nkv by {
      MulLeq(g * size, h, nkv);
      MulLt(h, (g + 1) * size, nkv);
    }
    assert g * nq <= h * nkv < (g + 1) * nq;
    DivUnique(h * nkv, nq, g);
  }

  /**
   * The weight a Q, K or V cell reads is one that is stored: below n_q for
   * its list, below n_kv for a GQA key or value, and 0 for an MQA key or value.
   */
  lemma WeightIndexInRange(kind: WeightKind, v: Variant, h: nat, dims: Dims)
    requires dims.nq > 0 && dims.nkv > 0 && h < dims.nq && dims.nkv <= dims.nq
    ensures WeightIndex(kind, v, h, dims) < dims.nq
    ensures kind != Wq && v == Gqa ==> WeightIndex(kind, v, h, dims) < dims.nkv
    ensures kind != Wq && v == Mqa ==> WeightIndex(kind, v, h, dims) == 0
  {
    if kind != Wq && v == Gqa {
      GqaGroupInRange(h, dims.nq, dims.nkv);
    }
  }

  /** Precondition shared by the rule lemmas: a clicked cell of mha, gqa or mqa that is not internal. */
  predicate Plain(element: Element) {
    element.variant != Mla && !element.isInternal
  }

  lemma MlaTracesNothing(element: Element, headWidth: Option<nat>, dims: Dims)
    requires element.variant == Mla && headWidth != Some(0)
    ensures Backward(element, headWidth, dims) == Lit(Highlight(Some(element), []))
  {
  }

  /** `output` at (r, c): row r of the combined head outputs, then column c of Wo. */
  lemma OutputReadsCombinedAndWo(element: Element, headWidth: Option<nat>, dims: Dims)
    requires Plain(element) && ConceptualName(element.name) == "output" && headWidth != Some(0)
    ensures var v := element.variant;
      Backward(element, headWidth, dims)
      == Lit(Highlight(Some(element), [Spread(element, Path(v, OfVariant(v, CombinedM)), element.row, -1, true, false),
                                       Spread(element, Path(v, Shared(WoM)), -1, element.col, false, true)]))
  {
    var vt := VariantText(element.variant);
    ShortPathText(element.variant, OfVariant(element.variant, CombinedM));
    ShortPathText(element.variant, Shared(WoM));
    assert vt + "." + "combined" == vt + ".combined";
    assert vt + "." + "wo" == vt + ".wo";
  }

  /** A head's `Output` at (r, c): row r of its Weights, then column c of its V. */
  lemma HeadOutputReadsWeightsAndV(element: Element, headWidth: Option<nat>, dims: Dims)
    requires Plain(element) && ConceptualName(element.name) == "Output" && headWidth != Some(0)
    ensures var v := element.variant;
      var h := HeadIndex(element.name);
      Backward(element, headWidth, dims)
      == Lit(Highlight(Some(element), [Spread(element, Path(v, OfVariant(v, HeadM(h, Weights))), element.row, -1, true, false),
                                       Spread(element, Path(v, OfVariant(v, HeadM(h, V))), -1, element.col, false, true)]))
  {
    HeadPathText(element.variant, HeadIndex(element.name), Weights);
    HeadPathText(element.variant, HeadIndex(element.name), V);
  }

  /** A head's `Weights` at (r, c): row r of its Scores, the softmax input. */
  lemma WeightsReadScores(element: Element, headWidth: Option<nat>, dims: Dims)
    requires Plain(element) && ConceptualName(element.name) == "Weights" && headWidth != Some(0)
    ensures var v := element.variant;
      Backward(element, headWidth, dims)
      == Lit(Highlight(Some(element), [Spread(element, Path(v, OfVariant(v, HeadM(HeadIndex(element.name), Scores))),
                                              element.row, -1, true, false)]))
  {
    HeadPathText(element.variant, HeadIndex(element.name), Scores);
  }

  /** A head's `Scores` at (r, c): row r of its Q and row c of its K (column c of K transposed). */
  lemma ScoresReadQAndK(element: Element, headWidth: Option<nat>, dims: Dims)
    requires Plain(element) && ConceptualName(element.name) == "Scores" && headWidth != Some(0)
    ensures var v := element.variant;
      var h := HeadIndex(element.name);
      Backward(element, headWidth, dims)
      == Lit(Highlight(Some(element), [Spread(element, Path(v, OfVariant(v, HeadM(h, Q))), element.row, -1, true, false),
                                       Spread(element, Path(v, OfVariant(v, HeadM(h, K))), element.col, -1, true, false)]))
  {
    HeadPathText(element.variant, HeadIndex(element.name), Q);
    HeadPathText(element.variant, HeadIndex(element.name), K);
  }

  /**
   * A head's Q, K or V at (r, c): row r of the input, then column c of the
   * weight the head's group selects.
   */
  lemma ProjectionReadsInputAndWeight(element: Element, headWidth: Option<nat>, dims: Dims)
    requires Plain(element) && ConceptualName(element.name) in ["Q", "K", "V"] && headWidth != Some(0)
    requires dims.nq > 0 && dims.nkv > 0
    ensures var v := element.variant;
      var w := WeightM(KindOf(ConceptualName(element.name)), WeightIndex(KindOf(ConceptualName(element.name)), v, HeadIndex(element.name), dims));
      Backward(element, headWidth, dims)
      == Lit(Highlight(Some(element), [Spread(element, Path(v, Shared(InputM)), element.row, -1, true, false),
                                       Spread(element, Path(v, Shared(w)), -1, element.col, false, true)]))
  {
    var c := ConceptualName(element.name);
    var kind := KindOf(c);
    var vt := VariantText(element.variant);
    var i := WeightIndex(kind, element.variant, HeadIndex(element.name), dims);
    assert LowerKind(c) == KindChar(kind);
    ShortPathText(element.variant, Shared(InputM));
    assert vt + "." + "input" == vt + ".input";
    WeightIndexTextOf(kind, element.variant, HeadIndex(element.name), dims);
    WeightPathText(element.variant, kind, i);
    assert c == "Q" || c == "K" || c == "V";
  }

  /**
   * `combined` at (r, c), c >= 0: one cell of head ⌊c/d⌋'s Output at column
   * c mod d, which together give back c; a missing head width is a crash.
   */
  lemma CombinedReadsHeadOutput(element: Element, d: nat, dims: Dims)
    requires Plain(element) && ConceptualName(element.name) == "combined" && d > 0 && element.col >= 0
    ensures var v := element.variant;
      var c := element.col;
      Backward(element, Some(d), dims)
      == Lit(Highlight(Some(element), [Spread(element, Path(v, OfVariant(v, HeadM(c / d, Output))), element.row, c % d, false, false)]))
      && (c / d) * d + c % d == c && 0 <= c % d < d
    ensures Backward(element, None, dims) == Crashed
  {
    HeadPathText(element.variant, element.col / d, Output);
    assert IntToString(FloorDiv(element.col, d)) == NatToString(element.col / d);
    assert JsRem(element.col, d) == element.col % d;
    var pre := VariantText(element.variant) + ".heads." + NatToString(element.col / d);
    assert pre + "." + "Output" == pre + ".Output";
  }

  /** Any other name is recorded as the target with no sources. */
  lemma OtherNameReadsNothing(element: Element, headWidth: Option<nat>, dims: Dims)
    requires Plain(element) && headWidth != Some(0)
    requires ConceptualName(element.name) !in ["output", "combined", "Output", "Weights", "Scores", "Q", "K", "V"]
    ensures Backward(element, headWidth, dims) == Lit(Highlight(Some(element), []))
  {
  }

  /** The first segment of a dot-free word, a dot and anything is that word. */
  lemma FirstSegment(a: string, rest: string)
    requires NoChar(a, '.')
    ensures Split(a + "." + rest, '.')[0] == a
  {
    SplitAfterPlainPrefix(a, "." + rest, '.');
    assert a + ("." + rest) == a + "." + rest;
  }

  /** Removing the first ".internal" keeps the leading segment when the rest does not start with "internal". */
  lemma {:induction false} FirstSegmentAfterReplace(a: string, rest: string)
    requires NoChar(a, '.') && !StartsWith(rest, "internal")
    ensures Split(ReplaceFirst(a + "." + rest, ".internal", ""), '.')[0] == a
  {
    var o := IndexOf(a + "." + rest, ".internal");
    if o.Some? {
      FirstSegmentAtOccurrence(a, rest, o.value);
    } else {
      FirstSegment(a, rest);
    }
  }

  /** The replace cuts out the first ".internal", which starts after the leading word's dot. */
  lemma {:induction false} FirstSegmentAtOccurrence(a: string, rest: string, j: nat)
    requires NoChar(a, '.') && !StartsWith(rest, "internal") && IndexOf(a + "." + rest, ".internal") == Some(j)
    ensures Split(ReplaceFirst(a + "." + rest, ".internal", ""), '.')[0] == a
  {
    var s := a + "." + rest;
    assert OccursAt(s, ".internal", j);
    DotOccurrenceAfterWord(a, rest, j);
    assert ReplaceFirst(s, ".internal", "") == s[..j] + "" + s[j + 9..];
    FirstSegmentAfterSplice(a, rest, j, 9);
  }

  /** Cutting m characters out after the dot that ends a dot-free word keeps that word first. */
  lemma {:induction false} FirstSegmentAfterSplice(a: string, rest: string, j: nat, m: nat)
    requires NoChar(a, '.') && |a| < j && j + m <= |a| + 1 + |rest|
    ensures var s := a + "." + rest;
      Split(s[..j] + "" + s[j + m..], '.')[0] == a
  {
    var s := a + "." + rest;
    SpliceAfterWord(a, rest, j, m);
    FirstSegment(a, s[|a| + 1..j] + s[j + m..]);
  }

  /** ".internal" cannot start inside a dot-free word, nor at the dot after it when the rest does not start with "internal". */
  lemma {:induction false} DotOccurrenceAfterWord(a: string, rest: string, j: nat)
    requires NoChar(a, '.') && !StartsWith(rest, "internal")
    ensures OccursAt(a + "." + rest, ".internal", j) ==> j > |a|
  {
    if j < |a| {
      NoDotOccurrenceInWord(a, rest, j);
    } else if j == |a| {
      NoOccurrenceAtDot(a, rest);
    }
  }

  lemma {:induction false} NoDotOccurrenceInWord(a: string, rest: string, j: nat)
    requires NoChar(a, '.') && j < |a|
    ensures !OccursAt(a + "." + rest, ".internal", j)
  {
    var s := a + "." + rest;
    assert s[j] == a[j];
    if j + 9 <= |s| {
      assert s[j..j + 9][0] == s[j];
    }
  }

  lemma {:induction false} NoOccurrenceAtDot(a: string, rest: string)
    requires !StartsWith(rest, "internal")
    ensures !OccursAt(a + "." + rest, ".internal", |a|)
  {
    var s := a + "." + rest;
    if |a| + 9 <= |s| {
      assert s[|a| + 1..|a| + 9] == rest[..8];
      assert s[|a|..|a| + 9][1..] == s[|a| + 1..|a| + 9];
      assert ".internal"[1..] == "internal";
    }
  }

  lemma {:induction false} SpliceAfterWord(a: string, rest: string, j: nat, m: nat)
    requires |a| < j && j + m <= |a| + 1 + |rest|
    ensures var s := a + "." + rest;
      s[..j] + "" + s[j + m..] == a + "." + (s[|a| + 1..j] + s[j + m..])
  {
    var s := a + "." + rest;
    assert s[..j] == a + "." + s[|a| + 1..j];
  }

  /**
   * The cell 'v.heads.i.k.internal' of a softmax breakdown reads row r of
   * the same head's Scores: the whole row for the sum column -1, otherwise
   * the same cell; the record stays internal.
   */
  lemma InternalReadsScores(element: Element, i: nat, k: HeadKey, headWidth: Option<nat>, dims: Dims)
    requires element.variant != Mla && element.isInternal && headWidth != Some(0)
    requires element.name == Path(element.variant, OfVariant(element.variant, HeadM(i, k))) + ".internal"
    ensures var v := element.variant;
      var wholeRow := element.col == -1;
      Backward(element, headWidth, dims)
      == Lit(Highlight(Some(element), [Source(v, Path(v, OfVariant(v, HeadM(i, Scores))), element.row,
                                              element.col, true, wholeRow, false, element.symbol)]))
  {
    var v := element.variant;
    InternalNameParts(v, i, k);
    InternalBackward(element, headWidth, dims);
  }

  /** The internal branch on any name: the first segment after removing ".internal", the head index, Scores. */
  lemma InternalBackward(element: Element, headWidth: Option<nat>, dims: Dims)
    requires element.variant != Mla && element.isInternal && headWidth != Some(0)
    ensures var first := Split(ReplaceFirst(element.name, ".internal", ""), '.')[0];
      Backward(element, headWidth, dims)
      == Lit(Highlight(Some(element), [Source(element.variant, first + ".heads." + NatToString(HeadIndex(element.name)) + ".Scores",
                                              element.row, element.col, true, element.col == -1, false, element.symbol)]))
  {
  }

  lemma InternalNameParts(v: Variant, i: nat, k: HeadKey)
    ensures var name := Path(v, OfVariant(v, HeadM(i, k))) + ".internal";
      HeadIndex(name) == i
      && Split(ReplaceFirst(name, ".internal", ""), '.')[0] + ".heads." + NatToString(i) + ".Scores"
         == Path(v, OfVariant(v, HeadM(i, Scores)))
  {
    var vt := VariantText(v);
    var t := "heads." + NatToString(i) + ("." + HeadKeyText(k) + ".internal");
    InternalNameText(v, i, k);
    HeadIndexAfterVariant(v, i, "." + HeadKeyText(k) + ".internal");
    assert t[0] == 'h';
    FirstSegmentAfterReplace(vt, t);
    HeadPathText(v, i, Scores);
    var pre := vt + ".heads." + NatToString(i);
    assert pre + "." + "Scores" == pre + ".Scores";
  }

  lemma InternalNameText(v: Variant, i: nat, k: HeadKey)
    ensures var rest := "." + HeadKeyText(k) + ".internal";
      var name := Path(v, OfVariant(v, HeadM(i, k))) + ".internal";
      name == VariantText(v) + ".heads." + NatToString(i) + rest
      && name == VariantText(v) + "." + ("heads." + NatToString(i) + rest)
  {
    HeadPathText(v, i, k);
    InternalRegroup(VariantText(v), NatToString(i), HeadKeyText(k));
  }

  lemma {:induction false} InternalRegroup(vt: string, ns: string, kt: string)
    ensures var rest := "." + kt + ".internal";
      vt + ".heads." + ns + "." + kt + ".internal" == vt + ".heads." + ns + rest
      && vt + ".heads." + ns + rest == vt + "." + ("heads." + ns + rest)
  {
    var rest := "." + kt + ".internal";
    assert ".heads." == "." + "heads.";
  }
}
