// The transformer explorer's backward tracer
// (src/topics/transformer-explorer/lib/tracing.ts): the layer/head index
// parser, the matrix lookup by name and createBackwardHighlight with its
// addSource closure.
//
// The regular expressions of getLayerAndHeadIndices are modelled on
// characters (leftmost match, as String.prototype.match without the g flag)
// and then related to the dotted segments of a name.

module ExplorerTracing {
  import opened Text
  import opened MatrixNames

  // ===== getLayerAndHeadIndices =====

  /** An attempt of /\.(encoder|decoder)\.(\d+)/ anchored at the first character of s. */
  function LayerMatchHere(s: string): Option<nat> {
    if |s| >= 10 && s[0] == '.' && (s[1..8] == "encoder" || s[1..8] == "decoder")
       && s[8] == '.' && IsDigit(s[9])
    then Some(DigitsValue(LeadingDigits(s[9..])))
    else None
  }

  /** The captured layer digits of the leftmost match of /\.(encoder|decoder)\.(\d+)/, as a number. */
  function LayerMatch(s: string): Option<nat> {
    if |s| == 0 then None
    else if LayerMatchHere(s).Some? then LayerMatchHere(s)
    else LayerMatch(s[1..])
  }

  /** An attempt of /\.h(\d+)\./ anchored at the first character of s. */
  function HeadMatchHere(s: string): Option<nat> {
    if |s| >= 2 && s[0] == '.' && s[1] == 'h' then
      var d := LeadingDigits(s[2..]);
      if |d| >= 1 && 2 + |d| < |s| && s[2 + |d|] == '.' then Some(DigitsValue(d)) else None
    else None
  }

  /** The captured head digits of the leftmost match of /\.h(\d+)\./, as a number. */
  function HeadMatch(s: string): Option<nat> {
    if |s| == 0 then None
    else if HeadMatchHere(s).Some? then HeadMatchHere(s)
    else HeadMatch(s[1..])
  }

  function OrZero(o: Option<nat>): nat {
    match o
    case None => 0
    case Some(v) => v
  }

  /** getLayerAndHeadIndices: each index defaults to 0 when its pattern does not match. */
  function LayerAndHeadIndices(name: string): (r: (nat, nat))
    ensures LayerMatch(name).None? ==> r.0 == 0
    ensures HeadMatch(name).None? ==> r.1 == 0
  {
    (OrZero(LayerMatch(name)), OrZero(HeadMatch(name)))
  }

  // ----- the same matches, read on the dotted segments of a name -----

  predicate DotFree(segs: seq<string>) {
    forall i :: 0 <= i < |segs| ==> NoChar(segs[i], '.')
  }

  predicate StackWord(s: string) { s == "encoder" || s == "decoder" }

  /** A segment of the form h<digits>. */
  predicate HeadSegment(s: string) {
    |s| >= 2 && s[0] == 'h' && AllDigits(s[1..])
  }

  /** The layer match inside "." + Join(segs): a stack word followed by a segment that starts with a digit. */
  function LayerInSegments(segs: seq<string>): Option<nat> {
    if |segs| == 0 then None
    else if |segs| >= 2 && StackWord(segs[0]) && |segs[1]| > 0 && IsDigit(segs[1][0])
    then Some(DigitsValue(LeadingDigits(segs[1])))
    else LayerInSegments(segs[1..])
  }

  /** The head match inside "." + Join(segs): an h<digits> segment that is not the last one. */
  function HeadInSegments(segs: seq<string>): Option<nat> {
    if |segs| == 0 then None
    else if |segs| >= 2 && HeadSegment(segs[0]) then Some(DigitsValue(segs[0][1..]))
    else HeadInSegments(segs[1..])
  }

  /** Neither pattern can start inside a dot-free prefix. */
  lemma {:induction false} MatchSkipsPlain(a: string, t: string)
    requires NoChar(a, '.')
    ensures LayerMatch(a + t) == LayerMatch(t)
    ensures HeadMatch(a + t) == HeadMatch(t)
  {
    if |a| > 0 {
      assert (a + t)[0] == a[0];
      assert (a + t)[1..] == a[1..] + t;
      MatchSkipsPlain(a[1..], t);
    } else {
      assert a + t == t;
    }
  }

  lemma {:induction false} LeadingDigitsStop(x: string, y: string)
    requires |y| == 0 || y[0] == '.'
    ensures LeadingDigits(x + y) == LeadingDigits(x)
  {
    if |x| == 0 {
      assert x + y == y;
    } else {
      assert (x + y)[0] == x[0];
      assert (x + y)[1..] == x[1..] + y;
      LeadingDigitsStop(x[1..], y);
    }
  }

  /** A dot-free first segment equals a dot-free word exactly when the word is followed by a dot. */
  lemma WordBeforeDot(a: string, tail: string, w: string)
    requires NoChar(a, '.') && NoChar(w, '.')
    requires |tail| == 0 || tail[0] == '.'
    ensures (|a + tail| > |w| && (a + tail)[..|w|] == w && (a + tail)[|w|] == '.')
        <==> (a == w && |tail| > 0)
  {
    var s := a + tail;
    if |s| > |w| && s[..|w|] == w && s[|w|] == '.' {
      var rest := s[|w| + 1..];
      assert s == w + ("." + rest);
      SplitAfterPlainPrefix(w, "." + rest, '.');
      SplitAfterPlainPrefix(a, tail, '.');
      assert Split("." + rest, '.')[0] == "" && Split(tail, '.')[0] == "";
      assert w + "" == w && a + "" == a;
      assert Split(s, '.')[0] == w;
      assert Split(s, '.')[0] == a;
    }
    if a == w && |tail| > 0 {
      assert s[..|w|] == a && s[|w|] == tail[0];
    }
  }

  lemma StackWordsDotFree()
    ensures NoChar("encoder", '.') && NoChar("decoder", '.')
  {
  }

  lemma {:induction false} LayerMatchHereSegments(segs: seq<string>)
    requires |segs| >= 1 && DotFree(segs)
    ensures var tail := if |segs| > 1 then "." + Join(segs[1..], '.') else "";
      LayerMatchHere("." + segs[0] + tail)
      == (if |segs| >= 2 && StackWord(segs[0]) && |segs[1]| > 0 && IsDigit(segs[1][0])
          then Some(DigitsValue(LeadingDigits(segs[1]))) else None)
  {
    var tail := if |segs| > 1 then "." + Join(segs[1..], '.') else "";
    assert NoChar(segs[0], '.');
    LayerTailSegments(segs);
    LayerMatchHereWord(segs[0], tail);
  }

  /** The layer pattern anchored before a dot-free word a and a tail that starts at a dot. */
  lemma {:induction false} LayerMatchHereWord(a: string, tail: string)
    requires NoChar(a, '.') && (|tail| == 0 || tail[0] == '.')
    ensures LayerMatchHere("." + a + tail)
      == (if StackWord(a) && |tail| >= 2 && IsDigit(tail[1]) then Some(DigitsValue(LeadingDigits(tail[1..]))) else None)
  {
    var s := "." + a + tail;
    var t := a + tail;
    assert s[1..] == t;
    StackWordsDotFree();
    WordBeforeDot(a, tail, "encoder");
    WordBeforeDot(a, tail, "decoder");
    if |s| >= 10 {
      assert s[1..8] == t[..7] && s[8] == t[7];
    }
    if StackWord(a) && |tail| >= 1 {
      assert |a| == 7;
      assert s[9..] == tail[1..];
    }
  }

  /** The tail after the first segment starts at a dot and, after it, reads the second segment's digits. */
  lemma {:induction false} LayerTailSegments(segs: seq<string>)
    requires |segs| >= 1 && DotFree(segs)
    ensures var tail := if |segs| > 1 then "." + Join(segs[1..], '.') else "";
      (|tail| == 0 || tail[0] == '.')
      && (|tail| >= 2 && IsDigit(tail[1]) <==> |segs| >= 2 && |segs[1]| > 0 && IsDigit(segs[1][0]))
      && (|segs| >= 2 ==> |tail| >= 1 && LeadingDigits(tail[1..]) == LeadingDigits(segs[1]))
  {
    if |segs| >= 2 {
      var tail := "." + Join(segs[1..], '.');
      var rest := if |segs| > 2 then "." + Join(segs[2..], '.') else "";
      if |segs| > 2 {
        JoinCons(segs[1], segs[2..], '.');
        assert segs[1..] == [segs[1]] + segs[2..];
      }
      assert Join(segs[1..], '.') == segs[1] + rest;
      assert tail[1..] == segs[1] + rest;
      LeadingDigitsStop(segs[1], rest);
      if |segs[1]| > 0 {
        assert tail[1] == segs[1][0];
      } else if |tail| >= 2 {
        assert tail[1] == rest[0];
      }
    }
  }

  lemma HeadMatchHereSegments(segs: seq<string>)
    requires |segs| >= 1 && DotFree(segs)
    ensures var tail := if |segs| > 1 then "." + Join(segs[1..], '.') else "";
      HeadMatchHere("." + segs[0] + tail)
      == (if |segs| >= 2 && HeadSegment(segs[0]) then Some(DigitsValue(segs[0][1..])) else None)
  {
    var a := segs[0];
    var tail := if |segs| > 1 then "." + Join(segs[1..], '.') else "";
    var s := "." + a + tail;
    if |a| >= 1 && a[0] == 'h' {
      assert s[1] == 'h';
      assert s[2..] == a[1..] + tail;
      LeadingDigitsStop(a[1..], tail);
      var d := LeadingDigits(a[1..]);
      if AllDigits(a[1..]) {
        LeadingDigitsOfDigits(a[1..], "");
        assert a[1..] + "" == a[1..];
        assert d == a[1..];
        if |segs| > 1 { assert s[2 + |d|] == '.'; }
      } else {
        assert |d| < |a[1..]|;
        assert s[2 + |d|] == a[1 + |d|];
      }
    } else if |a| == 0 {
      assert |s| >= 2 ==> s[1] == '.';
    } else {
      assert s[1] == a[0];
    }
  }

  lemma {:induction false} MatchAfterDot(segs: seq<string>)
    requires |segs| >= 1 && DotFree(segs)
    ensures LayerMatch("." + Join(segs, '.')) == LayerInSegments(segs)
    ensures HeadMatch("." + Join(segs, '.')) == HeadInSegments(segs)
  {
    var tail := if |segs| > 1 then "." + Join(segs[1..], '.') else "";
    if |segs| > 1 {
      JoinCons(segs[0], segs[1..], '.');
      assert segs == [segs[0]] + segs[1..];
    }
    assert Join(segs, '.') == segs[0] + tail;
    var s := "." + segs[0] + tail;
    assert "." + Join(segs, '.') == s;
    LayerMatchHereSegments(segs);
    HeadMatchHereSegments(segs);
    assert s[1..] == segs[0] + tail;
    MatchSkipsPlain(segs[0], tail);
    if |segs| > 1 {
      MatchAfterDot(segs[1..]);
    }
  }

  /** The layer/head patterns on a dotted name equal the segment-level matches after its first segment. */
  lemma {:induction false} MatchOnJoin(segs: seq<string>)
    requires |segs| >= 1 && DotFree(segs)
    ensures LayerMatch(Join(segs, '.')) == LayerInSegments(segs[1..])
    ensures HeadMatch(Join(segs, '.')) == HeadInSegments(segs[1..])
  {
    if |segs| == 1 {
      MatchSkipsPlain(segs[0], "");
      assert segs[0] + "" == segs[0];
    } else {
      var t := "." + Join(segs[1..], '.');
      JoinCons(segs[0], segs[1..], '.');
      assert segs == [segs[0]] + segs[1..];
      assert Join(segs, '.') == segs[0] + t;
      MatchSkipsPlain(segs[0], t);
      MatchAfterDot(segs[1..]);
    }
  }

  // ----- what the patterns find in the names of MATRIX_NAMES -----

  /** A segment that neither pattern can use: it starts with neither a digit nor 'h'. */
  predicate Plain(s: string) { |s| > 0 && !IsDigit(s[0]) && s[0] != 'h' }

  lemma {:induction false} NoLayerInSegments(segs: seq<string>)
    requires forall i :: 1 <= i < |segs| ==> |segs[i]| > 0 && !IsDigit(segs[i][0])
    ensures LayerInSegments(segs) == None
  {
    if |segs| > 0 {
      NoLayerInSegments(segs[1..]);
    }
  }

  lemma {:induction false} NoHeadInSegments(segs: seq<string>)
    requires forall i :: 0 <= i < |segs| - 1 ==> !HeadSegment(segs[i])
    ensures HeadInSegments(segs) == None
  {
    if |segs| > 0 {
      NoHeadInSegments(segs[1..]);
    }
  }

  lemma HeadKeyTextPlain(k: HeadKey)
    ensures Plain(HeadKeyText(k))
  {
    match k
    case Wq => case Wk => case Wv => case Q => case K => case V =>
    case Scores => case ScaledScores => case AttentionWeights => case HeadOutput =>
  }

  lemma BlockTextPlain(b: Block)
    ensures Plain(BlockText(b)) && Plain("ConcatOutput")
  {
    match b
    case EncoderMha => case MaskedMha => case EncDecMha =>
  }

  lemma EncoderKeyPathPlain(k: EncoderKey)
    ensures forall i :: 0 <= i < |EncoderKeyPath(k)| ==> Plain(EncoderKeyPath(k)[i])
  {
    match k
    case EncoderInput => case MhaOutput => case Wo => case AddNorm1Output =>
    case W1 => case B1 => case Intermediate => case Activated =>
    case W2 => case B2 => case FfnOutput => case AddNorm2Output =>
  }

  lemma DecoderKeyPathPlain(k: DecoderKey)
    ensures forall i :: 0 <= i < |DecoderKeyPath(k)| ==> Plain(DecoderKeyPath(k)[i])
  {
    match k
    case DecoderInput => case MaskedMhaOutput => case WoMasked => case DecAddNorm1Output =>
    case EncDecMhaOutput => case WoEncDec => case DecAddNorm2Output =>
    case DecW1 => case DecB1 => case DecIntermediate => case DecActivated =>
    case DecW2 => case DecB2 => case DecFfnOutput => case AddNorm3Output =>
  }

  /** The head index a name carries, as the head pattern can read it (a negative head has no digit run). */
  function HeadOfName(n: MatrixName): nat {
    if n.Head? && n.h >= 0 then n.h else 0
  }

  lemma HeadSegmentOfInt(h: int)
    ensures HeadSegment("h" + IntToString(h)) <==> h >= 0
    ensures h >= 0 ==> DigitsValue(("h" + IntToString(h))[1..]) == h
  {
    var s := "h" + IntToString(h);
    assert s[1..] == IntToString(h);
    SignOfIntToString(h);
    if h >= 0 {
      DigitsOfNatToString(h);
    } else {
      assert s[1] == '-';
    }
  }

  lemma HeadSegmentsMatch(b: Block, l: int, h: int, k: HeadKey)
    ensures var rest := [IntToString(l), BlockText(b), "h" + IntToString(h), HeadKeyText(k)];
      LayerInSegments(rest) == None && HeadInSegments(rest) == (if h >= 0 then Some(h) else None)
  {
    HeadSegmentsNoLayer(b, l, h, k);
    HeadSegmentsHead(b, l, h, k);
  }

  lemma HeadSegmentsNoLayer(b: Block, l: int, h: int, k: HeadKey)
    ensures LayerInSegments([IntToString(l), BlockText(b), "h" + IntToString(h), HeadKeyText(k)]) == None
  {
    var rest := [IntToString(l), BlockText(b), "h" + IntToString(h), HeadKeyText(k)];
    BlockTextPlain(b);
    HeadKeyTextPlain(k);
    IntToStringNotH(l);
    HeadSegmentOfInt(h);
    NoLayerInSegments(rest);
  }

  lemma HeadSegmentsHead(b: Block, l: int, h: int, k: HeadKey)
    ensures HeadInSegments([IntToString(l), BlockText(b), "h" + IntToString(h), HeadKeyText(k)]) == (if h >= 0 then Some(h) else None)
  {
    var rest := [IntToString(l), BlockText(b), "h" + IntToString(h), HeadKeyText(k)];
    BlockTextPlain(b);
    HeadKeyTextPlain(k);
    IntToStringNotH(l);
    HeadSegmentOfInt(h);
    assert HeadInSegments(rest) == HeadInSegments(rest[1..]);
    assert rest[1..][1..] == ["h" + IntToString(h), HeadKeyText(k)];
    assert HeadInSegments(rest[1..]) == HeadInSegments(rest[1..][1..]);
    var last := rest[1..][1..];
    if h >= 0 {
      assert HeadInSegments(last) == Some(DigitsValue(last[0][1..]));
    } else {
      assert !HeadSegment(last[0]);
      NoHeadInSegments(last);
    }
  }

  /**
   * getLayerAndHeadIndices on any name of the scheme: the layer is always 0,
   * because no name has a '.' before its 'encoder'/'decoder', while the head
   * index of a head name is recovered.
   */
  lemma IndicesOfName(n: MatrixName)
    ensures LayerAndHeadIndices(Nm(n)) == (0, HeadOfName(n))
  {
    var segs := Segments(n);
    SegmentsDotFree(n);
    MatchOnJoin(segs);
    match n
    case Top(t) =>
      assert segs[1..] == [];
    case EncoderLayer(l, k) => EncoderRestIndices(l, k);
    case DecoderLayer(l, k) => DecoderRestIndices(l, k);
    case Head(b, l, h, k) =>
      assert segs[1..] == [IntToString(l), BlockText(b), "h" + IntToString(h), HeadKeyText(k)];
      HeadSegmentsMatch(b, l, h, k);
    case ConcatOutput(b, l) => ConcatRestIndices(b, l);
  }

  /** After "encoder", an encoder layer name holds neither the layer nor the head pattern. */
  lemma EncoderRestIndices(l: int, k: EncoderKey)
    ensures var rest := Segments(EncoderLayer(l, k))[1..];
      LayerInSegments(rest) == None && HeadInSegments(rest) == None
  {
    var rest := Segments(EncoderLayer(l, k))[1..];
    EncoderKeyPathPlain(k);
    IntToStringNotH(l);
    assert rest == [IntToString(l)] + EncoderKeyPath(k);
    NoLayerInSegments(rest);
    NoHeadInSegments(rest);
  }

  /** After "decoder", a decoder layer name holds neither the layer nor the head pattern. */
  lemma DecoderRestIndices(l: int, k: DecoderKey)
    ensures var rest := Segments(DecoderLayer(l, k))[1..];
      LayerInSegments(rest) == None && HeadInSegments(rest) == None
  {
    var rest := Segments(DecoderLayer(l, k))[1..];
    DecoderKeyPathPlain(k);
    IntToStringNotH(l);
    assert rest == [IntToString(l)] + DecoderKeyPath(k);
    NoLayerInSegments(rest);
    NoHeadInSegments(rest);
  }

  /** After its first segment, a ConcatOutput name holds neither the layer nor the head pattern. */
  lemma ConcatRestIndices(b: Block, l: int)
    ensures var rest := Segments(ConcatOutput(b, l))[1..];
      LayerInSegments(rest) == None && HeadInSegments(rest) == None
  {
    var rest := Segments(ConcatOutput(b, l))[1..];
    BlockTextPlain(b);
    IntToStringNotH(l);
    assert rest == [IntToString(l), BlockText(b), "ConcatOutput"];
    NoLayerInSegments(rest);
    NoHeadInSegments(rest);
  }

  // ===== getMatrixByName =====

  /** What getMatrixByName hands back: a stored matrix, or a bias vector wrapped as a one-row matrix. */
  datatype Lookup = Stored(n: MatrixName) | OneRow(n: MatrixName)

  /** The first candidate whose name is `name`, scanning in order. */
  function FirstNamed(name: string, cands: seq<MatrixName>): (r: Option<MatrixName>)
    ensures r.Some? ==> r.value in cands && Nm(r.value) == name
  {
    if |cands| == 0 then None
    else if Nm(cands[0]) == name then Some(cands[0])
    else FirstNamed(name, cands[1..])
  }

  /** The top-level names getMatrixByName knows, in the order it tests them. */
  function TopLookups(): seq<MatrixName> {
    [Top(InputEmbeddings), Top(PosEncodings), Top(OutputEmbeddings), Top(DecoderPosEncodings),
     Top(FinalEncoderOutput), Top(Logits), Top(OutputProbabilities), Top(FinalLinear),
     Top(EmbeddingMatrix)]
  }

  /**
   * The names of one encoder layer in test order. `concatKeys` says whether
   * the layer record has a ConcatOutput entry; MATRIX_NAMES.layer(l) has none.
   */
  function EncoderLookups(l: int, concatKeys: bool): seq<MatrixName> {
    [EncoderLayer(l, EncoderInput), EncoderLayer(l, MhaOutput), EncoderLayer(l, Wo)]
    + (if concatKeys then [ConcatOutput(EncoderMha, l)] else [])
    + [EncoderLayer(l, AddNorm1Output), EncoderLayer(l, FfnOutput), EncoderLayer(l, AddNorm2Output),
       EncoderLayer(l, Intermediate), EncoderLayer(l, Activated), EncoderLayer(l, W1),
       EncoderLayer(l, B1), EncoderLayer(l, W2), EncoderLayer(l, B2)]
  }

  function DecoderLookups(l: int, concatKeys: bool): seq<MatrixName> {
    [DecoderLayer(l, DecoderInput), DecoderLayer(l, MaskedMhaOutput), DecoderLayer(l, WoMasked)]
    + (if concatKeys then [ConcatOutput(MaskedMha, l)] else [])
    + [DecoderLayer(l, DecAddNorm1Output), DecoderLayer(l, EncDecMhaOutput), DecoderLayer(l, WoEncDec)]
    + (if concatKeys then [ConcatOutput(EncDecMha, l)] else [])
    + [DecoderLayer(l, DecAddNorm2Output), DecoderLayer(l, DecFfnOutput), DecoderLayer(l, AddNorm3Output),
       DecoderLayer(l, DecIntermediate), DecoderLayer(l, DecActivated), DecoderLayer(l, DecW1),
       DecoderLayer(l, DecB1), DecoderLayer(l, DecW2), DecoderLayer(l, DecB2)]
  }

  function HeadLookups(b: Block, l: int, h: int): seq<MatrixName> {
    [Head(b, l, h, Wq), Head(b, l, h, Wk), Head(b, l, h, Wv), Head(b, l, h, Q), Head(b, l, h, K),
     Head(b, l, h, V), Head(b, l, h, Scores), Head(b, l, h, ScaledScores),
     Head(b, l, h, AttentionWeights), Head(b, l, h, HeadOutput)]
  }

  /** Everything getMatrixByName tests once `encoderLayers[l]` exists. */
  function EncoderCandidates(l: int, h: int, heads: int, concatKeys: bool): seq<MatrixName> {
    EncoderLookups(l, concatKeys) + (if 0 <= h < heads then HeadLookups(EncoderMha, l, h) else [])
  }

  /** Everything getMatrixByName tests once `decoderLayers[l]` exists. */
  function DecoderCandidates(l: int, h: int, heads: int, concatKeys: bool): seq<MatrixName> {
    DecoderLookups(l, concatKeys)
    + (if 0 <= h < heads then HeadLookups(MaskedMha, l, h) + HeadLookups(EncDecMha, l, h) else [])
  }

  predicate IsBias(n: MatrixName) {
    (n.EncoderLayer? && n.ek in {B1, B2}) || (n.DecoderLayer? && n.dk in {DecB1, DecB2})
  }

  function Wrap(n: MatrixName): Lookup {
    if IsBias(n) then OneRow(n) else Stored(n)
  }

  /**
   * getMatrixByName: the matrix a name denotes in transformer data with
   * `encoderLayers` encoder layers, `decoderLayers` decoder layers and
   * `heads` heads per attention block, looked up at layer l and head h.
   * None is undefined.
   */
  function GetMatrixByName(name: string, encoderLayers: int, decoderLayers: int, heads: int,
                           l: int, h: int, concatKeys: bool): (r: Option<Lookup>)
    ensures r.Some? ==> Nm(r.value.n) == name && r == Some(Wrap(r.value.n))
    ensures (forall n :: Nm(n) != name) ==> r.None?
  {
    var top := FirstNamed(name, TopLookups());
    var enc := if 0 <= l < encoderLayers then FirstNamed(name, EncoderCandidates(l, h, heads, concatKeys)) else None;
    var dec := if 0 <= l < decoderLayers then FirstNamed(name, DecoderCandidates(l, h, heads, concatKeys)) else None;
    var found := FirstFound(top, enc, dec);
    if found.Some? then Some(Wrap(found.value)) else None
  }

  /** The first of three successive lookups that found something. */
  function FirstFound(a: Option<MatrixName>, b: Option<MatrixName>, c: Option<MatrixName>): Option<MatrixName> {
    if a.Some? then a else if b.Some? then b else c
  }

  /** The names getMatrixByName finds when asked at the name's own layer and head. */
  predicate Stores(n: MatrixName, encoderLayers: int, decoderLayers: int, heads: int, concatKeys: bool) {
    match n
    case Top(t) => Top(t) in TopLookups()
    case EncoderLayer(l, _) => 0 <= l < encoderLayers
    case DecoderLayer(l, _) => 0 <= l < decoderLayers
    case Head(b, l, h, _) => 0 <= h < heads && (if b == EncoderMha then 0 <= l < encoderLayers else 0 <= l < decoderLayers)
    case ConcatOutput(b, l) => concatKeys && (if b == EncoderMha then 0 <= l < encoderLayers else 0 <= l < decoderLayers)
  }

  function LayerArg(n: MatrixName): int {
    if n.Top? then 0 else n.l
  }

  function HeadArg(n: MatrixName): int {
    if n.Head? then n.h else 0
  }

  /** A listed name is found, and it is found as itself, since names are distinct. */
  lemma {:induction false} FirstNamedMember(c: MatrixName, cands: seq<MatrixName>)
    requires c in cands
    ensures FirstNamed(Nm(c), cands) == Some(c)
  {
    NmInjective(cands[0], c);
    if cands[0] != c {
      FirstNamedMember(c, cands[1..]);
    }
  }

  lemma {:induction false} FirstNamedAbsent(c: MatrixName, cands: seq<MatrixName>)
    requires c !in cands
    ensures FirstNamed(Nm(c), cands) == None
  {
    if |cands| > 0 {
      NmInjective(cands[0], c);
      FirstNamedAbsent(c, cands[1..]);
    }
  }

  predicate EncoderSide(n: MatrixName) {
    n.EncoderLayer? || (n.Head? && n.block == EncoderMha) || (n.ConcatOutput? && n.block == EncoderMha)
  }

  /** Head and ConcatOutput names are listed only when the head exists and the record has the entry. */
  predicate Listed(n: MatrixName, heads: int, concatKeys: bool) {
    (n.Head? ==> 0 <= n.h < heads) && (n.ConcatOutput? ==> concatKeys)
  }

  lemma HeadListed(b: Block, l: int, h: int, k: HeadKey)
    ensures Head(b, l, h, k) in HeadLookups(b, l, h)
  {
    match k
    case Wq => case Wk => case Wv => case Q => case K => case V =>
    case Scores => case ScaledScores => case AttentionWeights => case HeadOutput =>
  }

  lemma EncoderKeyListed(l: int, k: EncoderKey, concatKeys: bool)
    ensures EncoderLayer(l, k) in EncoderLookups(l, concatKeys)
  {
    match k
    case EncoderInput => case MhaOutput => case Wo => case AddNorm1Output =>
    case W1 => case B1 => case Intermediate => case Activated =>
    case W2 => case B2 => case FfnOutput => case AddNorm2Output =>
  }

  lemma DecoderKeyListed(l: int, k: DecoderKey, concatKeys: bool)
    ensures DecoderLayer(l, k) in DecoderLookups(l, concatKeys)
  {
    match k
    case DecoderInput => case MaskedMhaOutput => case WoMasked => case DecAddNorm1Output =>
    case EncDecMhaOutput => case WoEncDec => case DecAddNorm2Output =>
    case DecW1 => case DecB1 => case DecIntermediate => case DecActivated =>
    case DecW2 => case DecB2 => case DecFfnOutput => case AddNorm3Output =>
  }

  lemma EncoderCandidatesHold(n: MatrixName, heads: int, concatKeys: bool)
    requires !n.Top?
    ensures n in EncoderCandidates(LayerArg(n), HeadArg(n), heads, concatKeys)
        <==> EncoderSide(n) && Listed(n, heads, concatKeys)
  {
    match n
    case EncoderLayer(l, k) => EncoderKeyListed(l, k, concatKeys);
    case DecoderLayer(l, k) => DecoderNotEncoderCandidate(l, k, heads, concatKeys);
    case Head(b, l, h, k) => HeadEncoderCandidate(b, l, h, k, heads, concatKeys);
    case ConcatOutput(b, l) => ConcatEncoderCandidate(b, l, heads, concatKeys);
  }

  lemma DecoderNotEncoderCandidate(l: int, k: DecoderKey, heads: int, concatKeys: bool)
    ensures DecoderLayer(l, k) !in EncoderCandidates(l, 0, heads, concatKeys)
  {
  }

  lemma HeadEncoderCandidate(b: Block, l: int, h: int, k: HeadKey, heads: int, concatKeys: bool)
    ensures Head(b, l, h, k) in EncoderCandidates(l, h, heads, concatKeys) <==> b == EncoderMha && 0 <= h < heads
  {
    assert Head(b, l, h, k) !in EncoderLookups(l, concatKeys);
    if b == EncoderMha && 0 <= h < heads {
      HeadListed(b, l, h, k);
    }
  }

  lemma ConcatEncoderCandidate(b: Block, l: int, heads: int, concatKeys: bool)
    ensures ConcatOutput(b, l) in EncoderCandidates(l, 0, heads, concatKeys) <==> b == EncoderMha && concatKeys
  {
    assert ConcatOutput(b, l) !in HeadLookups(EncoderMha, l, 0);
  }

  lemma DecoderCandidatesHold(n: MatrixName, heads: int, concatKeys: bool)
    requires !n.Top?
    ensures n in DecoderCandidates(LayerArg(n), HeadArg(n), heads, concatKeys)
        <==> !EncoderSide(n) && Listed(n, heads, concatKeys)
  {
    match n
    case EncoderLayer(l, k) => EncoderNotDecoderCandidate(l, k, heads, concatKeys);
    case DecoderLayer(l, k) => DecoderKeyListed(l, k, concatKeys);
    case Head(b, l, h, k) => HeadDecoderCandidate(b, l, h, k, heads, concatKeys);
    case ConcatOutput(b, l) => ConcatDecoderCandidate(b, l, heads, concatKeys);
  }

  lemma EncoderNotDecoderCandidate(l: int, k: EncoderKey, heads: int, concatKeys: bool)
    ensures EncoderLayer(l, k) !in DecoderCandidates(l, 0, heads, concatKeys)
  {
  }

  lemma HeadDecoderCandidate(b: Block, l: int, h: int, k: HeadKey, heads: int, concatKeys: bool)
    ensures Head(b, l, h, k) in DecoderCandidates(l, h, heads, concatKeys) <==> b != EncoderMha && 0 <= h < heads
  {
    HeadNotDecoderLookup(b, l, h, k, concatKeys);
    HeadInLookupsOf(b, MaskedMha, l, h, k);
    HeadInLookupsOf(b, EncDecMha, l, h, k);
  }

  lemma HeadNotDecoderLookup(b: Block, l: int, h: int, k: HeadKey, concatKeys: bool)
    ensures Head(b, l, h, k) !in DecoderLookups(l, concatKeys)
  {
  }

  /** A head's names are listed under their own block only. */
  lemma HeadInLookupsOf(b: Block, c: Block, l: int, h: int, k: HeadKey)
    ensures Head(b, l, h, k) in HeadLookups(c, l, h) <==> b == c
  {
    if b == c {
      HeadListed(b, l, h, k);
    }
  }

  lemma ConcatDecoderCandidate(b: Block, l: int, heads: int, concatKeys: bool)
    ensures ConcatOutput(b, l) in DecoderCandidates(l, 0, heads, concatKeys) <==> b != EncoderMha && concatKeys
  {
    assert ConcatOutput(b, l) !in HeadLookups(MaskedMha, l, 0) + HeadLookups(EncDecMha, l, 0);
  }

  lemma LookupOfTopName(t: TopName, encoderLayers: int, decoderLayers: int, heads: int, concatKeys: bool)
    requires Top(t) in TopLookups()
    ensures GetMatrixByName(Nm(Top(t)), encoderLayers, decoderLayers, heads, 0, 0, concatKeys) == Some(Stored(Top(t)))
  {
    FirstNamedMember(Top(t), TopLookups());
  }

  lemma LookupOfLayerName(n: MatrixName, encoderLayers: int, decoderLayers: int, heads: int, concatKeys: bool)
    requires !n.Top?
    ensures GetMatrixByName(Nm(n), encoderLayers, decoderLayers, heads, LayerArg(n), HeadArg(n), concatKeys)
         == (if Stores(n, encoderLayers, decoderLayers, heads, concatKeys) then Some(Wrap(n)) else None)
  {
    var l, h := LayerArg(n), HeadArg(n);
    var encs := EncoderCandidates(l, h, heads, concatKeys);
    var decs := DecoderCandidates(l, h, heads, concatKeys);
    FirstNamedAbsent(n, TopLookups());
    EncoderCandidatesHold(n, heads, concatKeys);
    DecoderCandidatesHold(n, heads, concatKeys);
    FirstNamedIs(n, encs);
    FirstNamedIs(n, decs);
    StoresBySide(n, encoderLayers, decoderLayers, heads, concatKeys);
  }

  lemma {:induction false} FirstNamedIs(c: MatrixName, cands: seq<MatrixName>)
    ensures FirstNamed(Nm(c), cands) == if c in cands then Some(c) else None
  {
    if c in cands { FirstNamedMember(c, cands); } else { FirstNamedAbsent(c, cands); }
  }

  /** A layer, head or ConcatOutput name is stored when its side's stack has its layer and the name is listed. */
  lemma StoresBySide(n: MatrixName, encoderLayers: int, decoderLayers: int, heads: int, concatKeys: bool)
    requires !n.Top?
    ensures Stores(n, encoderLayers, decoderLayers, heads, concatKeys)
        <==> Listed(n, heads, concatKeys)
             && (if EncoderSide(n) then 0 <= LayerArg(n) < encoderLayers else 0 <= LayerArg(n) < decoderLayers)
  {
  }

  /**
   * getMatrixByName finds every stored name when asked at its own layer and
   * head, wrapping exactly the biases b1/b2 as one-row matrices, and finds
   * no other layer or head name there.
   */
  lemma LookupOfName(n: MatrixName, encoderLayers: int, decoderLayers: int, heads: int, concatKeys: bool)
    ensures Stores(n, encoderLayers, decoderLayers, heads, concatKeys) ==>
      GetMatrixByName(Nm(n), encoderLayers, decoderLayers, heads, LayerArg(n), HeadArg(n), concatKeys) == Some(Wrap(n))
    ensures !n.Top? && !Stores(n, encoderLayers, decoderLayers, heads, concatKeys) ==>
      GetMatrixByName(Nm(n), encoderLayers, decoderLayers, heads, LayerArg(n), HeadArg(n), concatKeys) == None
  {
    if n.Top? {
      if Stores(n, encoderLayers, decoderLayers, heads, concatKeys) {
        LookupOfTopName(n.t, encoderLayers, decoderLayers, heads, concatKeys);
      }
    } else {
      LookupOfLayerName(n, encoderLayers, decoderLayers, heads, concatKeys);
    }
  }

  // ===== createBackwardHighlight =====

  /**
   * The optional tooltip fields of an ElementIdentifier (matrixSymbol,
   * matrixDims, tokenId, tokenStr, probValue, symbol); the tracer only copies them.
   */
  datatype Display = Display(matrixSymbol: Option<string>, matrixDims: Option<string>, tokenId: Option<int>,
                             tokenStr: Option<string>, probValue: Option<real>, symbol: Option<string>)

  /** The clicked cell (ElementIdentifier); the tracer overwrites its layer and head index. */
  datatype Element = Element(name: string, row: int, col: int, isInternal: bool, display: Display,
                             layerIndex: Option<int>, headIndex: Option<int>)

  /** A HighlightSource; absent optional flags are false. */
  datatype Source = Source(name: string, row: int, col: int, isInternal: bool, display: Display,
                           highlightRow: bool, highlightCol: bool, highlightProbCol: bool,
                           layerIndex: nat, headIndex: nat)

  /** The partial record handed to addSource; an absent row or column is None. */
  datatype Request = Request(name: string, row: Option<int>, col: Option<int>,
                             highlightRow: bool, highlightCol: bool, highlightProbCol: bool)

  /** The activeComponent strings ('token_embed', 'mha', 'add_norm_1_dec', ...). */
  datatype Component =
    | TokenEmbed | InputEmbed | OutputEmbed | FinalOutput | Decoding
    | MhaPart | AddNorm1 | AddNorm2 | FfnPart
    | MaskedMhaPart | EncDecMhaPart | AddNorm1Dec | AddNorm2Dec | AddNorm3Dec | FfnDec

  datatype Highlight = Highlight(target: Option<Element>, sources: seq<Source>,
                                 activeComponent: Option<Component>, activeResidual: Option<string>,
                                 destinations: seq<Source>)

  /** The highlight and the mutated element, or the TypeError of reading a field of undefined. */
  datatype Traced = Traced(highlight: Highlight, element: Element) | Crashed

  function En(l: int, k: EncoderKey): string { Nm(EncoderLayer(l, k)) }
  function De(l: int, k: DecoderKey): string { Nm(DecoderLayer(l, k)) }
  function Hd(b: Block, l: int, h: int, k: HeadKey): string { Nm(Head(b, l, h, k)) }
  function Tp(t: TopName): string { Nm(Top(t)) }

  /** The request shapes the tracer uses: a whole row, a whole column, one cell, a whole matrix. */
  function RowOf(name: string, row: int): Request { Request(name, Some(row), Some(-1), true, false, false) }
  function ColOf(name: string, col: int): Request { Request(name, Some(-1), Some(col), false, true, false) }
  function CellOf(name: string, row: int, col: int): Request { Request(name, Some(row), Some(col), false, false, false) }
  function WholeOf(name: string): Request { Request(name, None, None, true, true, false) }

  function OrMinusOne(o: Option<int>): int {
    match o
    case None => -1
    case Some(v) => v
  }

  /**
   * addSource: the element's fields, then row/col -1, then the request, then
   * the indices parsed from the request's own name.
   */
  function AddSource(el: Element, q: Request): (s: Source)
    ensures s.isInternal == el.isInternal && s.display == el.display
    ensures s.row == (if q.row.Some? then q.row.value else -1) && s.col == (if q.col.Some? then q.col.value else -1)
    ensures (s.layerIndex, s.headIndex) == LayerAndHeadIndices(q.name)
  {
    var ix := LayerAndHeadIndices(q.name);
    Source(q.name, OrMinusOne(q.row), OrMinusOne(q.col), el.isInternal, el.display,
           q.highlightRow, q.highlightCol, q.highlightProbCol, ix.0, ix.1)
  }

  function SourcesOf(el: Element, reqs: seq<Request>): (r: seq<Source>)
    ensures |r| == |reqs|
  {
    seq(|reqs|, i requires 0 <= i < |reqs| => AddSource(el, reqs[i]))
  }

  lemma SourcesOfPair(el: Element, p: Request, q: Request)
    ensures SourcesOf(el, [p, q]) == [AddSource(el, p), AddSource(el, q)]
  {
  }

  /**
   * Every source the tracer builds keeps the element's isInternal and tooltip
   * fields, takes name, row, column and flags from its request, and re-reads
   * its indices from its own name.
   */
  lemma SourcesOfFields(el: Element, reqs: seq<Request>, i: int)
    requires 0 <= i < |reqs|
    ensures var s := SourcesOf(el, reqs)[i];
      s.name == reqs[i].name && s.isInternal == el.isInternal && s.display == el.display
      && (s.layerIndex, s.headIndex) == LayerAndHeadIndices(reqs[i].name)
      && s.row == (if reqs[i].row.Some? then reqs[i].row.value else -1)
      && s.col == (if reqs[i].col.Some? then reqs[i].col.value else -1)
      && s.highlightRow == reqs[i].highlightRow && s.highlightCol == reqs[i].highlightCol
      && s.highlightProbCol == reqs[i].highlightProbCol
  {
  }

  // ----- the residual branch -----

  /** /l(\d+)/ on a residual id: the digits after the first 'l' that a digit follows, else 0. */
  function ResidualLayer(s: string): nat {
    if |s| < 2 then 0
    else if s[0] == 'l' && IsDigit(s[1]) then DigitsValue(LeadingDigits(s[1..]))
    else ResidualLayer(s[1..])
  }

  /** /(\d+)$/ on a residual id: the trailing digits, else 1. */
  function ResidualPart(s: string): nat {
    var d := TrailingDigits(s);
    if |d| == 0 then 1 else DigitsValue(d)
  }

  /** The component and the two whole-matrix sources of a residual connection (none for an unknown part). */
  function ResidualRule(resId: string): (Option<Component>, seq<Request>) {
    var l := ResidualLayer(resId);
    var part := ResidualPart(resId);
    if Contains(resId, "-d") then
      if part == 1 then (Some(AddNorm1Dec), [WholeOf(De(l, DecoderInput)), WholeOf(De(l, MaskedMhaOutput))])
      else if part == 2 then (Some(AddNorm2Dec), [WholeOf(De(l, DecAddNorm1Output)), WholeOf(De(l, EncDecMhaOutput))])
      else if part == 3 then (Some(AddNorm3Dec), [WholeOf(De(l, DecAddNorm2Output)), WholeOf(De(l, DecFfnOutput))])
      else (None, [])
    else
      if part == 1 then (Some(AddNorm1), [WholeOf(En(l, EncoderInput)), WholeOf(En(l, MhaOutput))])
      else if part == 2 then (Some(AddNorm2), [WholeOf(En(l, AddNorm1Output)), WholeOf(En(l, FfnOutput))])
      else (None, [])
  }

  lemma ResidualSplit(name: string)
    requires StartsWith(name, "residual.")
    ensures |Split(name, '.')| >= 2 && Split(name, '.')[0] == "residual"
  {
    var rest := name[9..];
    assert name == "residual" + ("." + rest);
    assert NoChar("residual", '.');
    SplitAfterPlainPrefix("residual", "." + rest, '.');
    assert ("." + rest)[1..] == rest;
    assert "residual" + "" == "residual";
  }

  /** No matrix name is a residual id: its first segment is never 'residual'. */
  lemma NotResidual(n: MatrixName)
    ensures !StartsWith(Nm(n), "residual.")
  {
    SplitName(n);
    if StartsWith(Nm(n), "residual.") {
      ResidualSplit(Nm(n));
      match n
      case Top(t) =>
      case EncoderLayer(_, _) =>
      case DecoderLayer(_, _) =>
      case Head(b, _, _, _) =>
      case ConcatOutput(b, _) =>
    }
  }

  // ----- the residual ids the decoder layer draws -----

  /** The id of a decoder layer's residual connection: 'res-l<layer>-d<part>'. */
  function DecoderResidualId(layer: nat, part: nat): string {
    "res-l" + NatToString(layer) + "-d" + NatToString(part)
  }

  /** The add-norm output each decoder residual connection feeds. */
  function DecoderSumKey(part: nat): DecoderKey
    requires 1 <= part <= 3
  {
    if part == 1 then DecAddNorm1Output else if part == 2 then DecAddNorm2Output else AddNorm3Output
  }

  function DecoderSumComponent(part: nat): Component
    requires 1 <= part <= 3
  {
    if part == 1 then AddNorm1Dec else if part == 2 then AddNorm2Dec else AddNorm3Dec
  }

  /** The layer match skips a prefix without the letter 'l'. */
  lemma {:induction false} ResidualLayerAfter(pre: string, t: string)
    requires NoChar(pre, 'l') && |t| >= 1
    ensures ResidualLayer(pre + t) == ResidualLayer(t)
  {
    if |pre| > 0 {
      assert (pre + t)[1..] == pre[1..] + t;
      ResidualLayerAfter(pre[1..], t);
    } else {
      assert pre + t == t;
    }
  }

  lemma ResidualLayerOfId(layer: nat, rest: string)
    requires |rest| == 0 || !IsDigit(rest[0])
    ensures ResidualLayer("res-l" + NatToString(layer) + rest) == layer
  {
    var d := NatToString(layer);
    assert "res-l" + d + rest == "res-" + ("l" + (d + rest));
    ResidualLayerAfter("res-", "l" + (d + rest));
    ResidualLayerAtL(d, rest);
    DigitsOfNatToString(layer);
  }

  lemma ResidualLayerAtL(d: string, rest: string)
    requires |d| >= 1 && AllDigits(d)
    requires |rest| == 0 || !IsDigit(rest[0])
    ensures ResidualLayer("l" + (d + rest)) == DigitsValue(d)
  {
    var t := "l" + (d + rest);
    assert t[1..] == d + rest;
    assert t[1] == d[0];
    LeadingDigitsOfDigits(d, rest);
  }

  lemma ResidualPartOfId(prefix: string, part: nat)
    requires |prefix| == 0 || !IsDigit(prefix[|prefix| - 1])
    ensures ResidualPart(prefix + NatToString(part)) == part
  {
    TrailingDigitsOfDigits(prefix, NatToString(part));
    DigitsOfNatToString(part);
  }

  lemma DecoderIdMarked(layer: nat, part: nat)
    ensures Contains(DecoderResidualId(layer, part), "-d")
  {
    var s := DecoderResidualId(layer, part);
    var i := 5 + |NatToString(layer)|;
    assert s[i..i + 2] == "-d";
    assert OccursAt(s, "-d", i);
  }

  /** The id the decoder layer draws reads back as its layer and its part, and is marked '-d'. */
  lemma DecoderResidualParse(layer: nat, part: nat)
    ensures var id := DecoderResidualId(layer, part);
      ResidualLayer(id) == layer && ResidualPart(id) == part && Contains(id, "-d")
  {
    var id := DecoderResidualId(layer, part);
    ResidualLayerOfId(layer, "-d" + NatToString(part));
    assert id == "res-l" + NatToString(layer) + ("-d" + NatToString(part));
    ResidualPartOfId("res-l" + NatToString(layer) + "-d", part);
    DecoderIdMarked(layer, part);
  }

  /** What a decoder residual connection lights: the add-norm it feeds and its two summands, as whole matrices. */
  function DecoderResidualRule(layer: nat, part: nat): (Option<Component>, seq<Request>) {
    if part == 1 then (Some(AddNorm1Dec), [WholeOf(De(layer, DecoderInput)), WholeOf(De(layer, MaskedMhaOutput))])
    else if part == 2 then (Some(AddNorm2Dec), [WholeOf(De(layer, DecAddNorm1Output)), WholeOf(De(layer, EncDecMhaOutput))])
    else if part == 3 then (Some(AddNorm3Dec), [WholeOf(De(layer, DecAddNorm2Output)), WholeOf(De(layer, DecFfnOutput))])
    else (None, [])
  }

  lemma DecoderResidualRuleBy(id: string, layer: nat, part: nat)
    requires ResidualLayer(id) == layer && ResidualPart(id) == part && Contains(id, "-d")
    ensures ResidualRule(id) == DecoderResidualRule(layer, part)
  {
  }

  /** The residual rule reads the layer and the part back from the id the decoder layer draws. */
  lemma ResidualOfDecoderId(layer: nat, part: nat)
    ensures ResidualRule(DecoderResidualId(layer, part)) == DecoderResidualRule(layer, part)
  {
    DecoderResidualParse(layer, part);
    DecoderResidualRuleBy(DecoderResidualId(layer, part), layer, part);
  }

  /**
   * A decoder residual connection's two sources are, as whole matrices, the
   * two summands the add-norm output it feeds is read from; any other part
   * lights nothing.
   */
  lemma DecoderResidualReadsSummands(layer: nat, part: nat, row: int, col: int, concatKeys: bool)
    ensures var rr := DecoderResidualRule(layer, part);
      if 1 <= part <= 3 then
        var sum := DecoderProvenance(layer, DecoderSumKey(part), row, col, concatKeys);
        rr.0 == Some(DecoderSumComponent(part)) && sum.Emit? && |rr.1| == |sum.reqs| == 2
        && forall i :: 0 <= i < 2 ==> rr.1[i] == WholeOf(sum.reqs[i].name)
      else rr == (None, [])
  {
  }

  /** A click on either end of a residual connection: no target, the connection's id and its rule. */
  lemma ResidualClick(id: string, end: string, element: Element, tokenizedInput: seq<int>, heads: int, nLayers: int,
                      concatKeys: bool)
    requires NoChar(id, '.')
    requires element.name == "residual." + id + "." + end
    ensures var ix := LayerAndHeadIndices(element.name);
      var el := element.(layerIndex := Some(ix.0), headIndex := Some(ix.1));
      var rr := ResidualRule(id);
      TraceRequires(element, tokenizedInput)
      && Trace(element, tokenizedInput, heads, nLayers, concatKeys)
         == Traced(Highlight(None, SourcesOf(el, rr.1), rr.0, Some(id), []), el)
  {
    ResidualIdOf(id, end);
    NotResidual(Top(InputEmbeddings));
  }

  /** `residual.<id>.<end>` is a residual name whose second segment is id. */
  lemma {:induction false} ResidualIdOf(id: string, end: string)
    requires NoChar(id, '.')
    ensures var name := "residual." + id + "." + end;
      StartsWith(name, "residual.") && |Split(name, '.')| >= 2 && Split(name, '.')[1] == id
  {
    ResidualWord();
    ResidualNameShape(id, end);
    SplitAround("residual", id, end, '.');
  }

  lemma {:induction false} ResidualNameShape(id: string, end: string)
    ensures var name := "residual." + id + "." + end;
      name == "residual" + ['.'] + (id + ['.'] + end) && StartsWith(name, "residual.")
  {
    var name := "residual." + id + "." + end;
    assert name[..9] == "residual.";
  }

  lemma ResidualWord()
    ensures Split("residual", '.') == ["residual"]
  {
    assert NoChar("residual", '.');
    SplitOfPlain("residual", '.');
  }

  // ----- activeComponent -----

  /** A block's ConcatOutput name, when the layer records provide one. */
  function ConcatIf(b: Block, l: int, concatKeys: bool): seq<MatrixName> {
    if concatKeys then [ConcatOutput(b, l)] else []
  }

  /** `[...].includes(name)` over a list of matrix names. */
  predicate NamedIn(name: string, cands: seq<MatrixName>) {
    FirstNamed(name, cands).Some?
  }

  /** The names whose click lights each attention block (head names, output, Wo, input, ConcatOutput). */
  function MhaNames(l: int, h: int, concatKeys: bool): seq<MatrixName> {
    HeadLookups(EncoderMha, l, h) + [EncoderLayer(l, MhaOutput), EncoderLayer(l, Wo), EncoderLayer(l, EncoderInput)]
    + ConcatIf(EncoderMha, l, concatKeys)
  }

  function MaskedNames(l: int, h: int, concatKeys: bool): seq<MatrixName> {
    HeadLookups(MaskedMha, l, h) + [DecoderLayer(l, MaskedMhaOutput), DecoderLayer(l, WoMasked), DecoderLayer(l, DecoderInput)]
    + ConcatIf(MaskedMha, l, concatKeys)
  }

  function CrossNames(l: int, h: int, concatKeys: bool): seq<MatrixName> {
    HeadLookups(EncDecMha, l, h)
    + [DecoderLayer(l, EncDecMhaOutput), DecoderLayer(l, WoEncDec), DecoderLayer(l, DecAddNorm1Output), Top(FinalEncoderOutput)]
    + ConcatIf(EncDecMha, l, concatKeys)
  }

  /**
   * The activeComponent chain of createBackwardHighlight: the prefix tests
   * look at `name`, the list tests at `baseName` (the name with '.internal'
   * removed).
   */
  function ActiveComponent(name: string, baseName: string, l: int, h: int, concatKeys: bool): Option<Component> {
    if StartsWith(name, "encoder") then EncoderTests(baseName, l, h, concatKeys)
    else if StartsWith(name, "decoder") then DecoderTests(baseName, l, h, concatKeys)
    else TopTests(name, baseName, l)
  }

  /** The tests for a name starting with 'encoder'. */
  function EncoderTests(baseName: string, l: int, h: int, concatKeys: bool): Option<Component> {
    if NamedIn(baseName, MhaNames(l, h, concatKeys)) then Some(MhaPart)
    else if baseName == En(l, AddNorm1Output) then Some(AddNorm1)
    else if baseName == En(l, AddNorm2Output) then Some(AddNorm2)
    else if Contains(baseName, ".ffn.") then Some(FfnPart)
    else None
  }

  /** The tests for a name starting with 'decoder'. */
  function DecoderTests(baseName: string, l: int, h: int, concatKeys: bool): Option<Component> {
    if NamedIn(baseName, MaskedNames(l, h, concatKeys)) then Some(MaskedMhaPart)
    else if NamedIn(baseName, CrossNames(l, h, concatKeys)) then Some(EncDecMhaPart)
    else if baseName == De(l, DecAddNorm1Output) then Some(AddNorm1Dec)
    else if baseName == De(l, DecAddNorm2Output) then Some(AddNorm2Dec)
    else if baseName == De(l, AddNorm3Output) then Some(AddNorm3Dec)
    else if Contains(baseName, ".ffn.") then Some(FfnDec)
    else None
  }

  /** The tests for every other name. */
  function TopTests(name: string, baseName: string, l: int): Option<Component> {
    if name == Tp(InputToken) || name == Tp(EmbeddingMatrix) || name == Tp(InputEmbeddings) then Some(TokenEmbed)
    else if NamedIn(baseName, [Top(PosEncodings), Top(EncoderInputTop)]) || baseName == En(l, EncoderInput) then Some(InputEmbed)
    else if NamedIn(baseName, [Top(OutputEmbeddings), Top(DecoderPosEncodings), Top(DecoderInputTop)])
            || baseName == De(l, DecoderInput) then Some(OutputEmbed)
    else if NamedIn(baseName, [Top(FinalLinear), Top(Logits)]) then Some(FinalOutput)
    else if name == Tp(OutputProbabilities) || name == Tp(OutputToken) then Some(Decoding)
    else None
  }

  // ----- the source rules -----

  /** What the matched rule does: a fixed list of addSource calls, the loop over heads, or addSource of undefined. */
  datatype Rule = Emit(reqs: seq<Request>) | EachHead(block: Block) | UndefinedSource

  /** The head names the chain tests for one block, in source order. */
  function HeadRuleNames(b: Block, l: int, h: int): seq<MatrixName> {
    [Head(b, l, h, Q), Head(b, l, h, K), Head(b, l, h, V), Head(b, l, h, Scores),
     Head(b, l, h, ScaledScores), Head(b, l, h, AttentionWeights), Head(b, l, h, HeadOutput)]
  }

  /** A block's ConcatOutput name (when the records provide it), then its output name. */
  function BlockTail(b: Block, l: int, concatKeys: bool): seq<MatrixName> {
    (if concatKeys then [ConcatOutput(b, l)] else []) + [BlockOutput(b, l)]
  }

  /**
   * The names the source-rule chain of createBackwardHighlight compares the
   * clicked name with, in source order, at layer l and head h.
   */
  function RuleChain(l: int, h: int, concatKeys: bool): seq<MatrixName> {
    [Top(InputToken), Top(InputEmbeddings), EncoderLayer(l, EncoderInput)]
    + HeadRuleNames(EncoderMha, l, h) + BlockTail(EncoderMha, l, concatKeys)
    + [EncoderLayer(l, AddNorm1Output), EncoderLayer(l, Intermediate), EncoderLayer(l, Activated),
       EncoderLayer(l, FfnOutput), EncoderLayer(l, AddNorm2Output), DecoderLayer(l, DecoderInput)]
    + HeadRuleNames(MaskedMha, l, h) + BlockTail(MaskedMha, l, concatKeys)
    + [DecoderLayer(l, DecAddNorm1Output)]
    + HeadRuleNames(EncDecMha, l, h) + BlockTail(EncDecMha, l, concatKeys)
    + [DecoderLayer(l, DecAddNorm2Output), DecoderLayer(l, DecIntermediate), DecoderLayer(l, DecActivated),
       DecoderLayer(l, DecFfnOutput), DecoderLayer(l, AddNorm3Output),
       Top(Logits), Top(OutputProbabilities), Top(OutputToken)]
  }

  /**
   * The source-rule chain of createBackwardHighlight for a name that is not a
   * residual, at the parsed layer l and head h: the first name of the chain
   * equal to `name` selects its branch; no match adds no source.
   */
  function Dispatch(name: string, row: int, col: int, l: int, h: int, nLayers: int,
                    tokenizedInput: seq<int>, concatKeys: bool): Rule
    requires name == Tp(InputEmbeddings) ==> 0 <= row < |tokenizedInput|
  {
    match FirstNamed(name, RuleChain(l, h, concatKeys))
    case None => Emit([])
    case Some(n) => Provenance(n, row, col, nLayers, tokenizedInput, concatKeys)
  }

  /** The loop of a ConcatOutput rule: HeadOutput row `row` of heads 0, 1, ... in order. */
  function HeadOutputRows(b: Block, l: int, row: int, count: int): (r: seq<Request>)
    ensures |r| == if count > 0 then count else 0
  {
    seq(if count > 0 then count else 0, j => RowOf(Hd(b, l, j, HeadOutput), row))
  }

  /** The requests a rule makes, with `heads` standing for dims.h. */
  function RuleRequests(rule: Rule, l: int, row: int, heads: int): seq<Request> {
    match rule
    case Emit(reqs) => reqs
    case EachHead(b) => HeadOutputRows(b, l, row, heads)
    case UndefinedSource => []
  }

  function BaseName(name: string, isInternal: bool): string {
    if isInternal then ReplaceFirst(name, ".internal", "") else name
  }

  predicate TraceRequires(element: Element, tokenizedInput: seq<int>) {
    element.name == Tp(InputEmbeddings) ==> 0 <= element.row < |tokenizedInput|
  }

  /**
   * createBackwardHighlight as a function of its inputs: `heads` and
   * `nLayers` are dims.h and dims.n_layers, `concatKeys` whether the layer
   * name records carry ConcatOutput names.
   */
  function Trace(element: Element, tokenizedInput: seq<int>, heads: int, nLayers: int, concatKeys: bool): Traced
    requires TraceRequires(element, tokenizedInput)
  {
    var name := element.name;
    var ix := LayerAndHeadIndices(name);
    var el := element.(layerIndex := Some(ix.0), headIndex := Some(ix.1));
    if StartsWith(name, "residual.") then ResidualTrace(el)
    else
      ApplyRule(el, Dispatch(name, element.row, element.col, ix.0, ix.1, nLayers, tokenizedInput, concatKeys),
                ActiveComponent(name, BaseName(name, element.isInternal), ix.0, ix.1, concatKeys), ix.0, heads)
  }

  /** Every source of a completed trace carries the clicked element's isInternal and tooltip fields. */
  lemma TraceKeepsElementFields(element: Element, tokenizedInput: seq<int>, heads: int, nLayers: int, concatKeys: bool)
    requires TraceRequires(element, tokenizedInput)
    ensures var r := Trace(element, tokenizedInput, heads, nLayers, concatKeys);
      r.Traced? ==> forall s :: s in r.highlight.sources ==> s.isInternal == element.isInternal && s.display == element.display
  {
    var name := element.name;
    var ix := LayerAndHeadIndices(name);
    var el := element.(layerIndex := Some(ix.0), headIndex := Some(ix.1));
    if StartsWith(name, "residual.") {
      ResidualSplit(name);
      SourcesKeepElement(el, ResidualRule(Split(name, '.')[1]).1);
    } else {
      var rule := Dispatch(name, element.row, element.col, ix.0, ix.1, nLayers, tokenizedInput, concatKeys);
      if !rule.UndefinedSource? {
        SourcesKeepElement(el, RuleRequests(rule, ix.0, el.row, heads));
      }
    }
  }

  lemma SourcesKeepElement(el: Element, reqs: seq<Request>)
    ensures forall s :: s in SourcesOf(el, reqs) ==> s.isInternal == el.isInternal && s.display == el.display
  {
    forall s | s in SourcesOf(el, reqs)
      ensures s.isInternal == el.isInternal && s.display == el.display
    {
      var i :| 0 <= i < |reqs| && SourcesOf(el, reqs)[i] == s;
      SourcesOfFields(el, reqs, i);
    }
  }

  /** The highlight of a residual connection 'residual.<id>': no target, the component and sources of <id>. */
  function ResidualTrace(el: Element): Traced
    requires StartsWith(el.name, "residual.")
  {
    ResidualSplit(el.name);
    var resId := Split(el.name, '.')[1];
    var rr := ResidualRule(resId);
    Traced(Highlight(None, SourcesOf(el, rr.1), rr.0, Some(resId), []), el)
  }

  /** The highlight of a non-residual element once its rule and component are known. */
  function ApplyRule(el: Element, rule: Rule, comp: Option<Component>, l: int, heads: int): Traced {
    if rule.UndefinedSource? then Crashed
    else Traced(Highlight(Some(el), SourcesOf(el, RuleRequests(rule, l, el.row, heads)), comp, None, []), el)
  }

  /**
   * createBackwardHighlight: the element's indices are overwritten, sources
   * are added in rule order, and the ConcatOutput rule loops over the heads.
   */
  method CreateBackwardHighlight(element: Element, tokenizedInput: seq<int>, heads: int, nLayers: int, concatKeys: bool)
    returns (r: Traced)
    requires TraceRequires(element, tokenizedInput)
    ensures r == Trace(element, tokenizedInput, heads, nLayers, concatKeys)
  {
    var name, row, col := element.name, element.row, element.col;
    var ix := LayerAndHeadIndices(name);
    var layerIdx, headIdx := ix.0, ix.1;
    var el := element.(layerIndex := Some(layerIdx), headIndex := Some(headIdx));

    if StartsWith(name, "residual.") {
      return ResidualTrace(el);
    }

    var activeComponent := ActiveComponent(name, BaseName(name, element.isInternal), layerIdx, headIdx, concatKeys);
    var rule := Dispatch(name, row, col, layerIdx, headIdx, nLayers, tokenizedInput, concatKeys);
    r := RunRule(el, rule, activeComponent, layerIdx, heads);
  }

  /** Carries out a matched rule: its addSource calls in order, or the TypeError of addSource(undefined). */
  method RunRule(el: Element, rule: Rule, activeComponent: Option<Component>, l: int, heads: int) returns (r: Traced)
    ensures r == ApplyRule(el, rule, activeComponent, l, heads)
  {
    var newSources: seq<Source> := [];
    match rule {
      case UndefinedSource =>
        return Crashed;
      case Emit(reqs) =>
        newSources := newSources + SourcesOf(el, reqs);
      case EachHead(b) =>
        newSources := AddHeadOutputs(el, b, l, el.row, heads);
    }
    r := Traced(Highlight(Some(el), newSources, activeComponent, None, []), el);
  }

  /** The loop of the ConcatOutput rules: one HeadOutput row source per head, in head order. */
  method AddHeadOutputs(el: Element, b: Block, l: int, row: int, heads: int) returns (newSources: seq<Source>)
    ensures newSources == SourcesOf(el, HeadOutputRows(b, l, row, heads))
  {
    newSources := [];
    var h := 0;
    while h < heads
      invariant 0 <= h <= (if heads > 0 then heads else 0)
      invariant newSources == SourcesOf(el, HeadOutputRows(b, l, row, h))
    {
      HeadOutputRowsStep(el, b, l, row, h);
      newSources := newSources + [AddSource(el, RowOf(Hd(b, l, h, HeadOutput), row))];
      h := h + 1;
    }
    assert HeadOutputRows(b, l, row, h) == HeadOutputRows(b, l, row, heads);
  }

  lemma HeadOutputRowsStep(el: Element, b: Block, l: int, row: int, h: nat)
    ensures SourcesOf(el, HeadOutputRows(b, l, row, h + 1))
         == SourcesOf(el, HeadOutputRows(b, l, row, h)) + [AddSource(el, RowOf(Hd(b, l, h, HeadOutput), row))]
  {
  }

  // ----- the provenance of each matrix, by structure -----

  /** The row input of a block's Q projection and of its K/V projections. */
  function QInput(b: Block, l: int): MatrixName {
    match b
    case EncoderMha => EncoderLayer(l, EncoderInput)
    case MaskedMha => DecoderLayer(l, DecoderInput)
    case EncDecMha => DecoderLayer(l, DecAddNorm1Output)
  }

  function KvInput(b: Block, l: int): MatrixName {
    match b
    case EncoderMha => EncoderLayer(l, EncoderInput)
    case MaskedMha => DecoderLayer(l, DecoderInput)
    case EncDecMha => Top(FinalEncoderOutput)
  }

  /** The output of a block and its output projection. */
  function BlockOutput(b: Block, l: int): MatrixName {
    match b
    case EncoderMha => EncoderLayer(l, MhaOutput)
    case MaskedMha => DecoderLayer(l, MaskedMhaOutput)
    case EncDecMha => DecoderLayer(l, EncDecMhaOutput)
  }

  function BlockWo(b: Block, l: int): MatrixName {
    match b
    case EncoderMha => EncoderLayer(l, Wo)
    case MaskedMha => DecoderLayer(l, WoMasked)
    case EncDecMha => DecoderLayer(l, WoEncDec)
  }

  /** What each head matrix is computed from: projections, scores, softmax, weighted values. */
  function HeadProvenance(b: Block, l: int, h: int, k: HeadKey, row: int, col: int): seq<Request> {
    match k
    case Q => [RowOf(Nm(QInput(b, l)), row), ColOf(Hd(b, l, h, Wq), col)]
    case K => [RowOf(Nm(KvInput(b, l)), row), ColOf(Hd(b, l, h, Wk), col)]
    case V => [RowOf(Nm(KvInput(b, l)), row), ColOf(Hd(b, l, h, Wv), col)]
    case Scores => [RowOf(Hd(b, l, h, Q), row), RowOf(Hd(b, l, h, K), col)]
    case ScaledScores => [CellOf(Hd(b, l, h, Scores), row, col)]
    case AttentionWeights => [RowOf(Hd(b, l, h, ScaledScores), row)]
    case HeadOutput => [RowOf(Hd(b, l, h, AttentionWeights), row), ColOf(Hd(b, l, h, V), col)]
    case _ => []
  }

  /** A block output reads its ConcatOutput; without ConcatOutput names that read is of undefined. */
  function OutputProvenance(b: Block, l: int, row: int, col: int, concatKeys: bool): Rule {
    if concatKeys then Emit([RowOf(Nm(ConcatOutput(b, l)), row), ColOf(Nm(BlockWo(b, l)), col)])
    else UndefinedSource
  }

  /** A residual sum reads the same cell of its two summands. */
  function SumOf(a: MatrixName, b: MatrixName, row: int, col: int): seq<Request> {
    [CellOf(Nm(a), row, col), CellOf(Nm(b), row, col)]
  }

  function EncoderProvenance(l: int, k: EncoderKey, row: int, col: int, concatKeys: bool): Rule {
    match k
    case EncoderInput =>
      if l == 0 then Emit(SumOf(Top(InputEmbeddings), Top(PosEncodings), row, col))
      else Emit([CellOf(En(l - 1, AddNorm2Output), row, col)])
    case MhaOutput => OutputProvenance(EncoderMha, l, row, col, concatKeys)
    case AddNorm1Output => Emit(SumOf(EncoderLayer(l, EncoderInput), EncoderLayer(l, MhaOutput), row, col))
    case Intermediate => Emit([RowOf(En(l, AddNorm1Output), row), ColOf(En(l, W1), col), CellOf(En(l, B1), 0, col)])
    case Activated => Emit([CellOf(En(l, Intermediate), row, col)])
    case FfnOutput => Emit([RowOf(En(l, Activated), row), ColOf(En(l, W2), col), CellOf(En(l, B2), 0, col)])
    case AddNorm2Output => Emit(SumOf(EncoderLayer(l, AddNorm1Output), EncoderLayer(l, FfnOutput), row, col))
    case _ => Emit([])
  }

  function DecoderProvenance(l: int, k: DecoderKey, row: int, col: int, concatKeys: bool): Rule {
    match k
    case DecoderInput =>
      if l == 0 then Emit(SumOf(Top(OutputEmbeddings), Top(DecoderPosEncodings), row, col))
      else Emit([CellOf(De(l - 1, AddNorm3Output), row, col)])
    case MaskedMhaOutput => OutputProvenance(MaskedMha, l, row, col, concatKeys)
    case DecAddNorm1Output => Emit(SumOf(DecoderLayer(l, DecoderInput), DecoderLayer(l, MaskedMhaOutput), row, col))
    case EncDecMhaOutput => OutputProvenance(EncDecMha, l, row, col, concatKeys)
    case DecAddNorm2Output => Emit(SumOf(DecoderLayer(l, DecAddNorm1Output), DecoderLayer(l, EncDecMhaOutput), row, col))
    case DecIntermediate => Emit([RowOf(De(l, DecAddNorm2Output), row), ColOf(De(l, DecW1), col), CellOf(De(l, DecB1), 0, col)])
    case DecActivated => Emit([CellOf(De(l, DecIntermediate), row, col)])
    case DecFfnOutput => Emit([RowOf(De(l, DecActivated), row), ColOf(De(l, DecW2), col), CellOf(De(l, DecB2), 0, col)])
    case AddNorm3Output => Emit(SumOf(DecoderLayer(l, DecAddNorm2Output), DecoderLayer(l, DecFfnOutput), row, col))
    case _ => Emit([])
  }

  function TopProvenance(t: TopName, row: int, col: int, nLayers: int, tokenizedInput: seq<int>): Rule
    requires t == InputEmbeddings ==> 0 <= row < |tokenizedInput|
  {
    match t
    case InputToken => Emit([RowOf(Tp(InputEmbeddings), row)])
    case InputEmbeddings =>
      Emit([Request(Tp(InputToken), Some(row), None, false, false, false), RowOf(Tp(EmbeddingMatrix), tokenizedInput[row])])
    case Logits => Emit([RowOf(De(nLayers - 1, AddNorm3Output), row), ColOf(Tp(FinalLinear), col)])
    case OutputProbabilities => Emit([RowOf(Tp(Logits), row)])
    case OutputToken => Emit([Request(Tp(OutputProbabilities), Some(row), Some(-1), true, false, true)])
    case _ => Emit([])
  }

  /**
   * What each matrix is computed from: the body of the branch that tests its
   * name, run at the name's own layer and head.  Matrices without a branch
   * (weights, biases, the top-level inputs) get no sources.
   */
  function Provenance(n: MatrixName, row: int, col: int, nLayers: int, tokenizedInput: seq<int>, concatKeys: bool): Rule
    requires n == Top(InputEmbeddings) ==> 0 <= row < |tokenizedInput|
  {
    match n
    case Top(t) => TopProvenance(t, row, col, nLayers, tokenizedInput)
    case EncoderLayer(l, k) => EncoderProvenance(l, k, row, col, concatKeys)
    case DecoderLayer(l, k) => DecoderProvenance(l, k, row, col, concatKeys)
    case Head(b, l, h, k) => Emit(HeadProvenance(b, l, h, k, row, col))
    case ConcatOutput(b, _) => if concatKeys then EachHead(b) else Emit([])
  }

  /** The matrices the chain has a branch for. */
  predicate HasBranch(n: MatrixName, concatKeys: bool) {
    match n
    case Top(t) => t in {InputToken, InputEmbeddings, Logits, OutputProbabilities, OutputToken}
    case EncoderLayer(_, k) => k in {EncoderInput, MhaOutput, AddNorm1Output, Intermediate, Activated, FfnOutput, AddNorm2Output}
    case DecoderLayer(_, k) => !(k in {WoMasked, WoEncDec, DecW1, DecB1, DecW2, DecB2})
    case Head(_, _, _, k) => !(k in {Wq, Wk, Wv})
    case ConcatOutput(_, _) => concatKeys
  }

  /** The chain at (l, h) tests exactly the names with a branch that lie at layer l and, for heads, head h. */
  lemma InRuleChain(n: MatrixName, l: int, h: int, concatKeys: bool)
    ensures n in RuleChain(l, h, concatKeys)
        <==> HasBranch(n, concatKeys) && (n.Top? || n.l == l) && (n.Head? ==> n.h == h)
  {
    match n
    case Top(t) => TopInChain(t, l, h, concatKeys);
    case EncoderLayer(l2, k) => EncoderInChain(l2, k, l, h, concatKeys);
    case DecoderLayer(l2, k) => DecoderInChain(l2, k, l, h, concatKeys);
    case Head(b, l2, h2, k) => HeadInChain(b, l2, h2, k, l, h, concatKeys);
    case ConcatOutput(b, l2) => ConcatInChain(b, l2, l, h, concatKeys);
  }

  lemma TopInChain(t: TopName, l: int, h: int, concatKeys: bool)
    ensures Top(t) in RuleChain(l, h, concatKeys) <==> HasBranch(Top(t), concatKeys)
  {
  }

  lemma EncoderInChain(l2: int, k: EncoderKey, l: int, h: int, concatKeys: bool)
    ensures EncoderLayer(l2, k) in RuleChain(l, h, concatKeys) <==> HasBranch(EncoderLayer(l2, k), concatKeys) && l2 == l
  {
    if HasBranch(EncoderLayer(l2, k), concatKeys) && l2 == l {
      match k
      case EncoderInput => case MhaOutput => case AddNorm1Output => case Intermediate =>
      case Activated => case FfnOutput => case AddNorm2Output =>
    }
  }

  lemma DecoderInChain(l2: int, k: DecoderKey, l: int, h: int, concatKeys: bool)
    ensures DecoderLayer(l2, k) in RuleChain(l, h, concatKeys) <==> HasBranch(DecoderLayer(l2, k), concatKeys) && l2 == l
  {
    if HasBranch(DecoderLayer(l2, k), concatKeys) && l2 == l {
      match k
      case DecoderInput => case MaskedMhaOutput => case DecAddNorm1Output => case EncDecMhaOutput =>
      case DecAddNorm2Output => case DecIntermediate => case DecActivated => case DecFfnOutput =>
      case AddNorm3Output =>
    }
  }

  lemma HeadInChain(b: Block, l2: int, h2: int, k: HeadKey, l: int, h: int, concatKeys: bool)
    ensures Head(b, l2, h2, k) in RuleChain(l, h, concatKeys)
        <==> HasBranch(Head(b, l2, h2, k), concatKeys) && l2 == l && h2 == h
  {
    if HasBranch(Head(b, l2, h2, k), concatKeys) && l2 == l && h2 == h {
      HeadRuleNamed(b, l, h, k);
      match b {
        case EncoderMha => assert Head(b, l2, h2, k) in HeadRuleNames(EncoderMha, l, h);
        case MaskedMha => assert Head(b, l2, h2, k) in HeadRuleNames(MaskedMha, l, h);
        case EncDecMha => assert Head(b, l2, h2, k) in HeadRuleNames(EncDecMha, l, h);
      }
    }
  }

  lemma ConcatInChain(b: Block, l2: int, l: int, h: int, concatKeys: bool)
    ensures ConcatOutput(b, l2) in RuleChain(l, h, concatKeys) <==> concatKeys && l2 == l
  {
  }

  lemma HeadRuleNamed(b: Block, l: int, h: int, k: HeadKey)
    requires !(k in {Wq, Wk, Wv})
    ensures Head(b, l, h, k) in HeadRuleNames(b, l, h)
  {
    match k
    case Q => case K => case V => case Scores => case ScaledScores =>
    case AttentionWeights => case HeadOutput =>
  }

  /** A matrix without a branch has no sources. */
  lemma NoBranchNoSources(n: MatrixName, row: int, col: int, nLayers: int, tokenizedInput: seq<int>, concatKeys: bool)
    requires !HasBranch(n, concatKeys)
    ensures Provenance(n, row, col, nLayers, tokenizedInput, concatKeys) == Emit([])
  {
    match n
    case Top(t) => TopNoBranch(t, row, col, nLayers, tokenizedInput);
    case EncoderLayer(l, k) => EncoderNoBranch(l, k, row, col, concatKeys);
    case DecoderLayer(l, k) => DecoderNoBranch(l, k, row, col, concatKeys);
    case Head(b, l, h, k) => HeadNoBranch(b, l, h, k, row, col);
    case ConcatOutput(b, l) =>
  }

  lemma TopNoBranch(t: TopName, row: int, col: int, nLayers: int, tokenizedInput: seq<int>)
    requires !HasBranch(Top(t), false)
    ensures TopProvenance(t, row, col, nLayers, tokenizedInput) == Emit([])
  {
  }

  lemma EncoderNoBranch(l: int, k: EncoderKey, row: int, col: int, concatKeys: bool)
    requires !HasBranch(EncoderLayer(l, k), concatKeys)
    ensures EncoderProvenance(l, k, row, col, concatKeys) == Emit([])
  {
  }

  lemma DecoderNoBranch(l: int, k: DecoderKey, row: int, col: int, concatKeys: bool)
    requires !HasBranch(DecoderLayer(l, k), concatKeys)
    ensures DecoderProvenance(l, k, row, col, concatKeys) == Emit([])
  {
  }

  lemma HeadNoBranch(b: Block, l: int, h: int, k: HeadKey, row: int, col: int)
    requires !HasBranch(Head(b, l, h, k), false)
    ensures HeadProvenance(b, l, h, k, row, col) == []
  {
  }

  /**
   * The chain never shadows a branch: a matrix's name selects its own
   * branch when the tracer works at its layer and head, and nothing otherwise.
   */
  lemma DispatchOfName(n: MatrixName, row: int, col: int, l: int, h: int, nLayers: int,
                       tokenizedInput: seq<int>, concatKeys: bool)
    requires Nm(n) == Tp(InputEmbeddings) ==> 0 <= row < |tokenizedInput|
    ensures Dispatch(Nm(n), row, col, l, h, nLayers, tokenizedInput, concatKeys)
         == if n in RuleChain(l, h, concatKeys) then Provenance(n, row, col, nLayers, tokenizedInput, concatKeys) else Emit([])
  {
    var chain := RuleChain(l, h, concatKeys);
    if n in chain { FirstNamedMember(n, chain); } else { FirstNamedAbsent(n, chain); }
  }

  /**
   * createBackwardHighlight on any matrix name: the element is marked with
   * layer 0 and the head its name carries, and the sources are that matrix's
   * branch when the chain at (0, head) tests its name, and none otherwise.
   */
  lemma TraceOfName(n: MatrixName, element: Element, tokenizedInput: seq<int>, heads: int, nLayers: int, concatKeys: bool)
    requires element.name == Nm(n) && TraceRequires(element, tokenizedInput)
    ensures var el := element.(layerIndex := Some(0), headIndex := Some(HeadOfName(n)));
      var rule := if n in RuleChain(0, HeadOfName(n), concatKeys)
                  then Provenance(n, element.row, element.col, nLayers, tokenizedInput, concatKeys) else Emit([]);
      Trace(element, tokenizedInput, heads, nLayers, concatKeys)
        == ApplyRule(el, rule, ActiveComponent(Nm(n), BaseName(Nm(n), element.isInternal), 0, HeadOfName(n), concatKeys), 0, heads)
  {
    NotResidual(n);
    IndicesOfName(n);
    DispatchOfName(n, element.row, element.col, 0, HeadOfName(n), nLayers, tokenizedInput, concatKeys);
  }

  // ----- the names activeComponent tests -----

  /** The feed-forward names: their paths run through an 'ffn' segment. */
  predicate IsFfn(n: MatrixName) {
    (n.EncoderLayer? && n.ek in {W1, B1, Intermediate, Activated, W2, B2, FfnOutput})
    || (n.DecoderLayer? && n.dk in {DecW1, DecB1, DecIntermediate, DecActivated, DecW2, DecB2, DecFfnOutput})
  }

  lemma IntToStringNotFfn(i: int)
    ensures IntToString(i) != "ffn"
  {
    SignOfIntToString(i);
    if i >= 0 { assert IsDigit(NatToString(i)[0]); }
  }

  /** Only a feed-forward name has 'ffn' as an inner segment. */
  lemma FfnSegment(n: MatrixName, i: int)
    requires 1 <= i < |Segments(n)| - 1 && Segments(n)[i] == "ffn"
    ensures IsFfn(n)
  {
    match n
    case Top(_) =>
    case EncoderLayer(l, k) =>
      IntToStringNotFfn(l);
      EncoderFfnPath(k);
      assert i >= 2 ==> Segments(n)[i] == EncoderKeyPath(k)[i - 2];
    case DecoderLayer(l, k) =>
      IntToStringNotFfn(l);
      DecoderFfnPath(k);
      assert i >= 2 ==> Segments(n)[i] == DecoderKeyPath(k)[i - 2];
    case Head(b, l, h, k) =>
      HeadSegmentsNotFfn(b, l, h, k, i);
    case ConcatOutput(b, l) =>
      IntToStringNotFfn(l);
  }

  lemma HeadSegmentsNotFfn(b: Block, l: int, h: int, k: HeadKey, i: int)
    requires 1 <= i < 4
    ensures Segments(Head(b, l, h, k))[i] != "ffn"
  {
    var segs := Segments(Head(b, l, h, k));
    assert segs == [StackText(b), IntToString(l), BlockText(b), "h" + IntToString(h), HeadKeyText(k)];
    IntToStringNotFfn(l);
    if i == 3 {
      assert segs[3][0] == 'h';
    }
  }

  lemma EncoderFfnPath(k: EncoderKey)
    ensures 1 <= |EncoderKeyPath(k)| <= 2
    ensures EncoderKeyPath(k)[0] == "ffn" <==> IsFfn(EncoderLayer(0, k))
  {
    match k
    case EncoderInput => case MhaOutput => case Wo => case AddNorm1Output =>
    case W1 => case B1 => case Intermediate => case Activated =>
    case W2 => case B2 => case FfnOutput => case AddNorm2Output =>
  }

  lemma DecoderFfnPath(k: DecoderKey)
    ensures 1 <= |DecoderKeyPath(k)| <= 2
    ensures DecoderKeyPath(k)[0] == "ffn" <==> IsFfn(DecoderLayer(0, k))
  {
    match k
    case DecoderInput => case MaskedMhaOutput => case WoMasked => case DecAddNorm1Output =>
    case EncDecMhaOutput => case WoEncDec => case DecAddNorm2Output =>
    case DecW1 => case DecB1 => case DecIntermediate => case DecActivated =>
    case DecW2 => case DecB2 => case DecFfnOutput => case AddNorm3Output =>
  }

  /** A feed-forward name is `<stack>.<l>.ffn.<key>`. */
  lemma FfnNameLayout(n: MatrixName)
    requires IsFfn(n)
    ensures OccursAt(Nm(n), ".ffn.", |Segments(n)[0]| + 1 + |Segments(n)[1]|)
  {
    var segs := Segments(n);
    assert |segs| == 4 && segs[2] == "ffn";
    assert segs == [segs[0], segs[1], "ffn", segs[3]];
    FfnJoin(segs[0], segs[1], segs[3]);
  }

  lemma FfnJoin(a: string, b: string, x: string)
    ensures OccursAt(Join([a, b, "ffn", x], '.'), ".ffn.", |a| + 1 + |b|)
  {
    JoinCons(a, [b, "ffn", x], '.');
    assert [a, b, "ffn", x] == [a] + [b, "ffn", x];
    JoinCons(b, ["ffn", x], '.');
    assert [b, "ffn", x] == [b] + ["ffn", x];
    JoinCons("ffn", [x], '.');
    assert ["ffn", x] == ["ffn"] + [x];
    var s := Join([a, b, "ffn", x], '.');
    assert s == (a + "." + b) + ".ffn." + x;
  }

  /** `name.includes('.ffn.')` holds exactly for the feed-forward names. */
  lemma FfnContains(n: MatrixName)
    ensures Contains(Nm(n), ".ffn.") <==> IsFfn(n)
  {
    if IsFfn(n) {
      FfnNameLayout(n);
    } else if Contains(Nm(n), ".ffn.") {
      SegmentsDotFree(n);
      assert ".ffn." == ['.'] + "ffn" + ['.'];
      SegmentOccurrence(Segments(n), "ffn", '.');
      var i :| 1 <= i < |Segments(n)| - 1 && Segments(n)[i] == "ffn";
      FfnSegment(n, i);
    }
  }

  /** A layer, head or ConcatOutput name starts with its stack, `encoder` or `decoder`. */
  lemma StackOfName(n: MatrixName)
    requires !n.Top?
    ensures StartsWith(Nm(n), "encoder") <==> EncoderSide(n)
    ensures StartsWith(Nm(n), "decoder") <==> !EncoderSide(n)
  {
    var segs := Segments(n);
    StackSegment(n);
    JoinStartsWithFirst(segs);
    StackWordsDiffer();
  }

  /** A layer, head or ConcatOutput name has several segments, the first its stack word. */
  lemma StackSegment(n: MatrixName)
    requires !n.Top?
    ensures |Segments(n)| >= 2 && Segments(n)[0] == (if EncoderSide(n) then "encoder" else "decoder")
  {
  }

  lemma {:induction false} JoinStartsWithFirst(segs: seq<string>)
    requires |segs| >= 2
    ensures StartsWith(Join(segs, '.'), segs[0])
  {
    JoinCons(segs[0], segs[1..], '.');
    assert [segs[0]] + segs[1..] == segs;
  }

  lemma StackWordsDiffer()
    ensures |"encoder"| == |"decoder"| == 7 && "encoder" != "decoder"
  {
  }

  /** Of the top-level names, `encoderInput` starts with `encoder`, and `decoderInput` and `decoderPosEncodings` with `decoder`. */
  lemma StackOfTop(t: TopName)
    ensures StartsWith(Nm(Top(t)), "encoder") <==> t == EncoderInputTop
    ensures StartsWith(Nm(Top(t)), "decoder") <==> t == DecoderInputTop || t == DecoderPosEncodings
  {
    TopNameDotFree(t);
    var s := TopText(t);
    if StartsWith(s, "encoder") { assert s[0] == 'e' && s[1] == 'n'; }
    if StartsWith(s, "decoder") { assert s[0] == 'd'; }
    match t
    case InputEmbeddings => case PosEncodings => case EncoderInputTop => case FinalEncoderOutput =>
    case OutputEmbeddings => case DecoderPosEncodings => case DecoderInputTop =>
    case FinalLinear => case Logits => case OutputProbabilities =>
    case InputToken => case EmbeddingMatrix => case OutputToken =>
  }

  /** `includes` on a list of names is membership of the matrix, since names are distinct. */
  lemma NamedInIff(c: MatrixName, cands: seq<MatrixName>)
    ensures NamedIn(Nm(c), cands) <==> c in cands
  {
    if c in cands { FirstNamedMember(c, cands); } else { FirstNamedAbsent(c, cands); }
  }

  function BlockComponent(b: Block): Component {
    match b
    case EncoderMha => MhaPart
    case MaskedMha => MaskedMhaPart
    case EncDecMha => EncDecMhaPart
  }

  function TopComponent(t: TopName): Option<Component> {
    match t
    case InputToken | EmbeddingMatrix | InputEmbeddings => Some(TokenEmbed)
    case PosEncodings => Some(InputEmbed)
    case OutputEmbeddings => Some(OutputEmbed)
    case FinalLinear | Logits => Some(FinalOutput)
    case OutputProbabilities | OutputToken => Some(Decoding)
    case EncoderInputTop | DecoderInputTop | DecoderPosEncodings | FinalEncoderOutput => None
  }

  /**
   * The component a click on a matrix lights when the tracer works at layer
   * 0 and the matrix's own head: the block of its layer-0 attention names, the
   * add-and-norm of its sum, 'ffn'/'ffn_dec' for any feed-forward name, and
   * nothing for a later layer's other names.  The top-level names whose text
   * starts with 'encoder'/'decoder' (encoderInput, decoderInput,
   * decoderPosEncodings) get nothing, and the decoder's add_norm_1_output
   * lights the cross-attention block.
   */
  function ComponentOf(n: MatrixName, concatKeys: bool): Option<Component> {
    match n
    case Top(t) => TopComponent(t)
    case EncoderLayer(l, k) =>
      if IsFfn(n) then Some(FfnPart)
      else if l != 0 then None
      else if k == EncoderInput || k == MhaOutput || k == Wo then Some(MhaPart)
      else if k == AddNorm1Output then Some(AddNorm1)
      else Some(AddNorm2)
    case DecoderLayer(l, k) =>
      if IsFfn(n) then Some(FfnDec)
      else if l != 0 then None
      else if k == DecoderInput || k == MaskedMhaOutput || k == WoMasked then Some(MaskedMhaPart)
      else if k == EncDecMhaOutput || k == WoEncDec || k == DecAddNorm1Output then Some(EncDecMhaPart)
      else if k == DecAddNorm2Output then Some(AddNorm2Dec)
      else Some(AddNorm3Dec)
    case Head(b, l, h, _) => if l == 0 && h >= 0 then Some(BlockComponent(b)) else None
    case ConcatOutput(b, l) => if concatKeys && l == 0 then Some(BlockComponent(b)) else None
  }

  /** A head list holds exactly the names of that block, layer and head. */
  lemma HeadLookupsMember(n: MatrixName, b: Block, l: int, h: int)
    ensures n in HeadLookups(b, l, h) <==> n.Head? && n.block == b && n.l == l && n.h == h
  {
    if n.Head? && n.block == b && n.l == l && n.h == h {
      HeadListed(b, l, h, n.hk);
    } else {
      var s := HeadLookups(b, l, h);
      assert forall i :: 0 <= i < |s| ==> s[i].Head? && s[i].block == b && s[i].l == l && s[i].h == h;
    }
  }

  predicate MhaMember(n: MatrixName, l: int, h: int, concatKeys: bool) {
    match n
    case Head(b, nl, nh, _) => b == EncoderMha && nl == l && nh == h
    case ConcatOutput(b, nl) => b == EncoderMha && nl == l && concatKeys
    case EncoderLayer(nl, k) => nl == l && (k == EncoderInput || k == MhaOutput || k == Wo)
    case _ => false
  }

  lemma MhaNamesMember(n: MatrixName, l: int, h: int, concatKeys: bool)
    ensures n in MhaNames(l, h, concatKeys) <==> MhaMember(n, l, h, concatKeys)
  {
    HeadLookupsMember(n, EncoderMha, l, h);
    assert MhaNames(l, h, concatKeys) == HeadLookups(EncoderMha, l, h)
      + ([EncoderLayer(l, MhaOutput), EncoderLayer(l, Wo), EncoderLayer(l, EncoderInput)] + ConcatIf(EncoderMha, l, concatKeys));
  }

  lemma EncoderTestsOfName(n: MatrixName, l: int, concatKeys: bool)
    requires l == 0
    requires EncoderSide(n) || n == Top(EncoderInputTop)
    ensures EncoderTests(Nm(n), l, HeadOfName(n), concatKeys) == ComponentOf(n, concatKeys)
  {
    var h := HeadOfName(n);
    FfnContains(n);
    NamedInIff(n, MhaNames(l, h, concatKeys));
    MhaNamesMember(n, l, h, concatKeys);
    NmInjective(n, EncoderLayer(l, AddNorm1Output));
    NmInjective(n, EncoderLayer(l, AddNorm2Output));
    EncoderComponentOf(n, l, concatKeys);
  }

  /** The encoder tests, read on the datatype, decide ComponentOf. */
  lemma EncoderComponentOf(n: MatrixName, l: int, concatKeys: bool)
    requires l == 0
    requires EncoderSide(n) || n == Top(EncoderInputTop)
    ensures ComponentOf(n, concatKeys)
         == if MhaMember(n, l, HeadOfName(n), concatKeys) then Some(MhaPart)
            else if n == EncoderLayer(l, AddNorm1Output) then Some(AddNorm1)
            else if n == EncoderLayer(l, AddNorm2Output) then Some(AddNorm2)
            else if IsFfn(n) then Some(FfnPart)
            else None
  {
  }

  predicate MaskedMember(n: MatrixName, l: int, h: int, concatKeys: bool) {
    match n
    case Head(b, nl, nh, _) => b == MaskedMha && nl == l && nh == h
    case ConcatOutput(b, nl) => b == MaskedMha && nl == l && concatKeys
    case DecoderLayer(nl, k) => nl == l && (k == DecoderInput || k == MaskedMhaOutput || k == WoMasked)
    case _ => false
  }

  predicate CrossMember(n: MatrixName, l: int, h: int, concatKeys: bool) {
    match n
    case Head(b, nl, nh, _) => b == EncDecMha && nl == l && nh == h
    case ConcatOutput(b, nl) => b == EncDecMha && nl == l && concatKeys
    case DecoderLayer(nl, k) => nl == l && (k == EncDecMhaOutput || k == WoEncDec || k == DecAddNorm1Output)
    case Top(t) => t == FinalEncoderOutput
    case _ => false
  }

  lemma MaskedNamesMember(n: MatrixName, l: int, h: int, concatKeys: bool)
    ensures n in MaskedNames(l, h, concatKeys) <==> MaskedMember(n, l, h, concatKeys)
  {
    HeadLookupsMember(n, MaskedMha, l, h);
    assert MaskedNames(l, h, concatKeys) == HeadLookups(MaskedMha, l, h)
      + ([DecoderLayer(l, MaskedMhaOutput), DecoderLayer(l, WoMasked), DecoderLayer(l, DecoderInput)] + ConcatIf(MaskedMha, l, concatKeys));
  }

  lemma CrossNamesMember(n: MatrixName, l: int, h: int, concatKeys: bool)
    ensures n in CrossNames(l, h, concatKeys) <==> CrossMember(n, l, h, concatKeys)
  {
    HeadLookupsMember(n, EncDecMha, l, h);
    assert CrossNames(l, h, concatKeys) == HeadLookups(EncDecMha, l, h)
      + ([DecoderLayer(l, EncDecMhaOutput), DecoderLayer(l, WoEncDec), DecoderLayer(l, DecAddNorm1Output), Top(FinalEncoderOutput)]
         + ConcatIf(EncDecMha, l, concatKeys));
  }

  lemma DecoderTestsOfName(n: MatrixName, l: int, concatKeys: bool)
    requires l == 0
    requires (!n.Top? && !EncoderSide(n)) || n == Top(DecoderInputTop) || n == Top(DecoderPosEncodings)
    ensures DecoderTests(Nm(n), l, HeadOfName(n), concatKeys) == ComponentOf(n, concatKeys)
  {
    var h := HeadOfName(n);
    FfnContains(n);
    NamedInIff(n, MaskedNames(l, h, concatKeys));
    NamedInIff(n, CrossNames(l, h, concatKeys));
    MaskedNamesMember(n, l, h, concatKeys);
    CrossNamesMember(n, l, h, concatKeys);
    NmInjective(n, DecoderLayer(l, DecAddNorm1Output));
    NmInjective(n, DecoderLayer(l, DecAddNorm2Output));
    NmInjective(n, DecoderLayer(l, AddNorm3Output));
    DecoderComponentOf(n, l, concatKeys);
  }

  /** The decoder tests, read on the datatype, decide ComponentOf. */
  lemma DecoderComponentOf(n: MatrixName, l: int, concatKeys: bool)
    requires l == 0
    requires (!n.Top? && !EncoderSide(n)) || n == Top(DecoderInputTop) || n == Top(DecoderPosEncodings)
    ensures ComponentOf(n, concatKeys)
         == if MaskedMember(n, l, HeadOfName(n), concatKeys) then Some(MaskedMhaPart)
            else if CrossMember(n, l, HeadOfName(n), concatKeys) then Some(EncDecMhaPart)
            else if n == DecoderLayer(l, DecAddNorm1Output) then Some(AddNorm1Dec)
            else if n == DecoderLayer(l, DecAddNorm2Output) then Some(AddNorm2Dec)
            else if n == DecoderLayer(l, AddNorm3Output) then Some(AddNorm3Dec)
            else if IsFfn(n) then Some(FfnDec)
            else None
  {
  }

  lemma TopTestsOfName(t: TopName, l: int)
    requires l == 0
    requires t != EncoderInputTop && t != DecoderInputTop && t != DecoderPosEncodings
    ensures TopTests(Tp(t), Tp(t), l) == TopComponent(t)
  {
    TopTestsAnswers(t, l);
    TopComponentOf(t);
  }

  /** Each test of the top-level chain on a top-level name, answered on the name itself. */
  lemma TopTestsAnswers(t: TopName, l: int)
    ensures var name := Tp(t);
      (name == Tp(InputToken) <==> t == InputToken)
      && (name == Tp(EmbeddingMatrix) <==> t == EmbeddingMatrix)
      && (name == Tp(InputEmbeddings) <==> t == InputEmbeddings)
      && (name == Tp(OutputProbabilities) <==> t == OutputProbabilities)
      && (name == Tp(OutputToken) <==> t == OutputToken)
      && name != En(l, EncoderInput) && name != De(l, DecoderInput)
      && (NamedIn(name, [Top(PosEncodings), Top(EncoderInputTop)]) <==> Top(t) in [Top(PosEncodings), Top(EncoderInputTop)])
      && (NamedIn(name, [Top(OutputEmbeddings), Top(DecoderPosEncodings), Top(DecoderInputTop)])
          <==> Top(t) in [Top(OutputEmbeddings), Top(DecoderPosEncodings), Top(DecoderInputTop)])
      && (NamedIn(name, [Top(FinalLinear), Top(Logits)]) <==> Top(t) in [Top(FinalLinear), Top(Logits)])
  {
    var n := Top(t);
    NmInjective(n, Top(InputToken));
    NmInjective(n, Top(EmbeddingMatrix));
    NmInjective(n, Top(InputEmbeddings));
    NmInjective(n, Top(OutputProbabilities));
    NmInjective(n, Top(OutputToken));
    NmInjective(n, EncoderLayer(l, EncoderInput));
    NmInjective(n, DecoderLayer(l, DecoderInput));
    NamedInIff(n, [Top(PosEncodings), Top(EncoderInputTop)]);
    NamedInIff(n, [Top(OutputEmbeddings), Top(DecoderPosEncodings), Top(DecoderInputTop)]);
    NamedInIff(n, [Top(FinalLinear), Top(Logits)]);
  }

  /** The top-level tests, read on the datatype, decide TopComponent. */
  lemma TopComponentOf(t: TopName)
    requires t != EncoderInputTop && t != DecoderInputTop && t != DecoderPosEncodings
    ensures TopComponent(t)
         == if t == InputToken || t == EmbeddingMatrix || t == InputEmbeddings then Some(TokenEmbed)
            else if Top(t) in [Top(PosEncodings), Top(EncoderInputTop)] then Some(InputEmbed)
            else if Top(t) in [Top(OutputEmbeddings), Top(DecoderPosEncodings), Top(DecoderInputTop)] then Some(OutputEmbed)
            else if Top(t) in [Top(FinalLinear), Top(Logits)] then Some(FinalOutput)
            else if t == OutputProbabilities || t == OutputToken then Some(Decoding)
            else None
  {
  }

  /**
   * The activeComponent chain, for a matrix clicked as itself (not an
   * internal element) with the tracer at layer 0 and the name's head, lights
   * exactly ComponentOf.
   */
  lemma ActiveComponentOfName(n: MatrixName, concatKeys: bool)
    ensures ActiveComponent(Nm(n), Nm(n), 0, HeadOfName(n), concatKeys) == ComponentOf(n, concatKeys)
  {
    if n.Top? {
      StackOfTop(n.t);
      if n.t == EncoderInputTop {
        EncoderTestsOfName(n, 0, concatKeys);
      } else if n.t == DecoderInputTop || n.t == DecoderPosEncodings {
        DecoderTestsOfName(n, 0, concatKeys);
      } else {
        TopTestsOfName(n.t, 0);
      }
    } else {
      StackOfName(n);
      if EncoderSide(n) {
        EncoderTestsOfName(n, 0, concatKeys);
      } else {
        DecoderTestsOfName(n, 0, concatKeys);
      }
    }
  }

  // ----- what a click on a matrix highlights -----

  /**
   * A click on a matrix (not an internal element): the tracer works at layer
   * 0 and the name's head, follows the name's branch when the chain at layer
   * 0 has one, and lights ComponentOf.
   */
  lemma TraceOfMatrix(n: MatrixName, element: Element, tokenizedInput: seq<int>, heads: int, nLayers: int, concatKeys: bool)
    requires element.name == Nm(n) && !element.isInternal && TraceRequires(element, tokenizedInput)
    ensures var el := element.(layerIndex := Some(0), headIndex := Some(HeadOfName(n)));
      var rule := if n in RuleChain(0, HeadOfName(n), concatKeys)
                  then Provenance(n, element.row, element.col, nLayers, tokenizedInput, concatKeys) else Emit([]);
      Trace(element, tokenizedInput, heads, nLayers, concatKeys) == ApplyRule(el, rule, ComponentOf(n, concatKeys), 0, heads)
  {
    TraceOfName(n, element, tokenizedInput, heads, nLayers, concatKeys);
    ActiveComponentOfName(n, concatKeys);
  }

  /**
   * Since every name parses as layer 0, a matrix of any other layer is never
   * reached by the chain: the click targets it and traces nothing back.
   */
  lemma LaterLayerTracesNothing(n: MatrixName, element: Element, tokenizedInput: seq<int>, heads: int, nLayers: int,
                                concatKeys: bool)
    requires element.name == Nm(n) && TraceRequires(element, tokenizedInput)
    requires !n.Top? && n.l != 0
    ensures var r := Trace(element, tokenizedInput, heads, nLayers, concatKeys);
      r.Traced? && r.highlight.target.Some? && r.highlight.sources == [] && r.highlight.destinations == []
  {
    TraceOfName(n, element, tokenizedInput, heads, nLayers, concatKeys);
    InRuleChain(n, 0, HeadOfName(n), concatKeys);
  }

  /**
   * As written, the layer name records have no ConcatOutput entry, so a
   * click on a layer-0 attention output calls addSource with an undefined
   * name, and reading `.match` of it throws.
   */
  lemma BlockOutputCrashes(b: Block, l: int, element: Element, tokenizedInput: seq<int>, heads: int, nLayers: int)
    requires l == 0
    requires element.name == Nm(BlockOutput(b, l)) && TraceRequires(element, tokenizedInput)
    ensures Trace(element, tokenizedInput, heads, nLayers, false) == Crashed
  {
    TraceOfName(BlockOutput(b, l), element, tokenizedInput, heads, nLayers, false);
    BlockOutputRule(b, l, element.row, element.col, nLayers, tokenizedInput, false);
  }

  /** The chain reaches a block output at its own layer, and its branch is OutputProvenance. */
  lemma BlockOutputRule(b: Block, l: int, row: int, col: int, nLayers: int, tokenizedInput: seq<int>, concatKeys: bool)
    ensures BlockOutput(b, l) in RuleChain(l, 0, concatKeys)
    ensures Provenance(BlockOutput(b, l), row, col, nLayers, tokenizedInput, concatKeys) == OutputProvenance(b, l, row, col, concatKeys)
  {
    InRuleChain(BlockOutput(b, l), l, 0, concatKeys);
    match b
    case EncoderMha =>
    case MaskedMha =>
    case EncDecMha =>
  }

  /**
   * With ConcatOutput names in the records, a click on a layer-0 attention
   * output lights its block and traces it to the row of the concatenated
   * heads and the column of the output projection.
   */
  lemma BlockOutputReadsConcat(b: Block, l: int, element: Element, tokenizedInput: seq<int>, heads: int, nLayers: int)
    requires l == 0
    requires element.name == Nm(BlockOutput(b, l)) && !element.isInternal && TraceRequires(element, tokenizedInput)
    ensures var el := element.(layerIndex := Some(0), headIndex := Some(0));
      Trace(element, tokenizedInput, heads, nLayers, true)
        == Traced(Highlight(Some(el), [AddSource(el, RowOf(Nm(ConcatOutput(b, l)), element.row)),
                                       AddSource(el, ColOf(Nm(BlockWo(b, l)), element.col))],
                            Some(BlockComponent(b)), None, []), el)
  {
    TraceOfMatrix(BlockOutput(b, l), element, tokenizedInput, heads, nLayers, true);
    BlockOutputRule(b, l, element.row, element.col, nLayers, tokenizedInput, true);
    BlockOutputComponent(b, l);
    var el := element.(layerIndex := Some(0), headIndex := Some(0));
    SourcesOfPair(el, RowOf(Nm(ConcatOutput(b, l)), element.row), ColOf(Nm(BlockWo(b, l)), element.col));
  }

  lemma BlockOutputComponent(b: Block, l: int)
    requires l == 0
    ensures ComponentOf(BlockOutput(b, l), true) == Some(BlockComponent(b))
  {
    match b
    case EncoderMha =>
    case MaskedMha =>
    case EncDecMha =>
  }

  /**
   * A click on a layer-0 ConcatOutput lights its block and traces it to the
   * same row of every head's output, in head order, each source carrying its
   * own head index.
   */
  lemma ConcatReadsEveryHead(b: Block, l: int, element: Element, tokenizedInput: seq<int>, heads: int, nLayers: int)
    requires l == 0
    requires element.name == Nm(ConcatOutput(b, l)) && !element.isInternal && TraceRequires(element, tokenizedInput)
    ensures var r := Trace(element, tokenizedInput, heads, nLayers, true);
      r.Traced? && r.highlight.activeComponent == Some(BlockComponent(b))
      && |r.highlight.sources| == (if heads > 0 then heads else 0)
      && forall j :: 0 <= j < |r.highlight.sources| ==>
           var src := r.highlight.sources[j];
           src.name == Hd(b, l, j, HeadOutput) && src.row == element.row && src.col == -1
           && src.highlightRow && !src.highlightCol && src.layerIndex == 0 && src.headIndex == j
  {
    TraceOfMatrix(ConcatOutput(b, l), element, tokenizedInput, heads, nLayers, true);
    ConcatRule(b, l, element.row, element.col, nLayers, tokenizedInput);
    var el := element.(layerIndex := Some(0), headIndex := Some(0));
    var reqs := HeadOutputRows(b, l, element.row, heads);
    forall j | 0 <= j < |reqs|
      ensures var src := SourcesOf(el, reqs)[j];
        src.name == Hd(b, l, j, HeadOutput) && src.row == element.row && src.col == -1
        && src.highlightRow && !src.highlightCol && src.layerIndex == 0 && src.headIndex == j
    {
      SourcesOfFields(el, reqs, j);
      IndicesOfName(Head(b, l, j, HeadOutput));
    }
  }

  lemma ConcatRule(b: Block, l: int, row: int, col: int, nLayers: int, tokenizedInput: seq<int>)
    requires l == 0
    ensures ConcatOutput(b, l) in RuleChain(l, 0, true)
    ensures Provenance(ConcatOutput(b, l), row, col, nLayers, tokenizedInput, true) == EachHead(b)
    ensures ComponentOf(ConcatOutput(b, l), true) == Some(BlockComponent(b))
  {
    InRuleChain(ConcatOutput(b, l), l, 0, true);
  }
}
