// The dotted-path naming scheme of the transformer explorer
// (src/topics/transformer-explorer/config/matrixNames.ts), plus the literal
// names the explorer's tracer uses beside it ('inputToken', 'embeddingMatrix',
// 'outputToken') and the per-block ConcatOutput names.
//
// A name is modelled twice: as a closed datatype `MatrixName` and as the
// string `Nm(n)` the application compares against.  `Nm` joins the name's
// dot-free `Segments` with '.', which is how every template string of
// matrixNames.ts is built; `Decode` inverts `Segments`, so `Nm` is injective.

module MatrixNames {
  import opened Text

  /** The keys of generateHeadNames. */
  datatype HeadKey = Wq | Wk | Wv | Q | K | V | Scores | ScaledScores | AttentionWeights | HeadOutput

  /** The three attention blocks that have heads. */
  datatype Block = EncoderMha | MaskedMha | EncDecMha

  /** The keys of MATRIX_NAMES.layer(l). */
  datatype EncoderKey =
    | EncoderInput | MhaOutput | Wo | AddNorm1Output
    | W1 | B1 | Intermediate | Activated | W2 | B2 | FfnOutput | AddNorm2Output

  /** The keys of MATRIX_NAMES.decoderLayer(l). */
  datatype DecoderKey =
    | DecoderInput | MaskedMhaOutput | WoMasked | DecAddNorm1Output
    | EncDecMhaOutput | WoEncDec | DecAddNorm2Output
    | DecW1 | DecB1 | DecIntermediate | DecActivated | DecW2 | DecB2 | DecFfnOutput | AddNorm3Output

  /** Top-level names: the MATRIX_NAMES constants and the tracer's literal names. */
  datatype TopName =
    | InputEmbeddings | PosEncodings | EncoderInputTop | FinalEncoderOutput
    | OutputEmbeddings | DecoderPosEncodings | DecoderInputTop
    | FinalLinear | Logits | OutputProbabilities
    | InputToken | EmbeddingMatrix | OutputToken

  datatype MatrixName =
    | Top(t: TopName)
    | EncoderLayer(l: int, ek: EncoderKey)
    | DecoderLayer(l: int, dk: DecoderKey)
    | Head(block: Block, l: int, h: int, hk: HeadKey)
    | ConcatOutput(block: Block, l: int)

  /** Whether MATRIX_NAMES itself provides the name (the decoder ConcatOutput names it does not). */
  predicate InMatrixNames(n: MatrixName) {
    match n
    case Top(t) => !(t == InputToken || t == EmbeddingMatrix || t == OutputToken)
    case ConcatOutput(b, _) => b == EncoderMha
    case _ => true
  }

  function HeadKeyText(k: HeadKey): string {
    match k
    case Wq => "Wq" case Wk => "Wk" case Wv => "Wv"
    case Q => "Q" case K => "K" case V => "V"
    case Scores => "Scores" case ScaledScores => "ScaledScores"
    case AttentionWeights => "AttentionWeights" case HeadOutput => "HeadOutput"
  }

  function TopText(t: TopName): string {
    match t
    case InputEmbeddings => "inputEmbeddings"
    case PosEncodings => "posEncodings"
    case EncoderInputTop => "encoderInput"
    case FinalEncoderOutput => "finalEncoderOutput"
    case OutputEmbeddings => "outputEmbeddings"
    case DecoderPosEncodings => "decoderPosEncodings"
    case DecoderInputTop => "decoderInput"
    case FinalLinear => "finalLinear"
    case Logits => "logits"
    case OutputProbabilities => "outputProbabilities"
    case InputToken => "inputToken"
    case EmbeddingMatrix => "embeddingMatrix"
    case OutputToken => "outputToken"
  }

  /** The segments after `encoder.<l>` of each MATRIX_NAMES.layer(l) entry. */
  function EncoderKeyPath(k: EncoderKey): seq<string> {
    match k
    case EncoderInput => ["encoder_input"]
    case MhaOutput => ["mha", "output"]
    case Wo => ["mha", "Wo"]
    case AddNorm1Output => ["add_norm_1_output"]
    case W1 => ["ffn", "W1"]
    case B1 => ["ffn", "b1"]
    case Intermediate => ["ffn", "Intermediate"]
    case Activated => ["ffn", "Activated"]
    case W2 => ["ffn", "W2"]
    case B2 => ["ffn", "b2"]
    case FfnOutput => ["ffn", "output"]
    case AddNorm2Output => ["add_norm_2_output"]
  }

  /** The segments after `decoder.<l>` of each MATRIX_NAMES.decoderLayer(l) entry. */
  function DecoderKeyPath(k: DecoderKey): seq<string> {
    match k
    case DecoderInput => ["decoder_input"]
    case MaskedMhaOutput => ["masked_mha", "output"]
    case WoMasked => ["masked_mha", "Wo"]
    case DecAddNorm1Output => ["add_norm_1_output"]
    case EncDecMhaOutput => ["enc_dec_mha", "output"]
    case WoEncDec => ["enc_dec_mha", "Wo"]
    case DecAddNorm2Output => ["add_norm_2_output"]
    case DecW1 => ["ffn", "W1"]
    case DecB1 => ["ffn", "b1"]
    case DecIntermediate => ["ffn", "Intermediate"]
    case DecActivated => ["ffn", "Activated"]
    case DecW2 => ["ffn", "W2"]
    case DecB2 => ["ffn", "b2"]
    case DecFfnOutput => ["ffn", "output"]
    case AddNorm3Output => ["add_norm_3_output"]
  }

  function BlockText(b: Block): string {
    match b
    case EncoderMha => "mha"
    case MaskedMha => "masked_mha"
    case EncDecMha => "enc_dec_mha"
  }

  function StackText(b: Block): string {
    if b == EncoderMha then "encoder" else "decoder"
  }

  /** The segments of a block's base path, e.g. `decoder.<l>.masked_mha`. */
  function BlockPath(b: Block, l: int): seq<string> {
    [StackText(b), IntToString(l), BlockText(b)]
  }

  function Segments(n: MatrixName): (segs: seq<string>) {
    match n
    case Top(t) => [TopText(t)]
    case EncoderLayer(l, k) => ["encoder", IntToString(l)] + EncoderKeyPath(k)
    case DecoderLayer(l, k) => ["decoder", IntToString(l)] + DecoderKeyPath(k)
    case Head(b, l, h, k) => BlockPath(b, l) + ["h" + IntToString(h), HeadKeyText(k)]
    case ConcatOutput(b, l) => BlockPath(b, l) + ["ConcatOutput"]
  }

  /** The string the application uses for a matrix. */
  function Nm(n: MatrixName): string {
    Join(Segments(n), '.')
  }

  /** generateHeadNames: the ten names of one head, in key order. */
  function HeadNames(b: Block, l: int, h: int): (r: seq<string>)
    ensures |r| == 10
  {
    [Nm(Head(b, l, h, Wq)), Nm(Head(b, l, h, Wk)), Nm(Head(b, l, h, Wv)),
     Nm(Head(b, l, h, Q)), Nm(Head(b, l, h, K)), Nm(Head(b, l, h, V)),
     Nm(Head(b, l, h, Scores)), Nm(Head(b, l, h, ScaledScores)),
     Nm(Head(b, l, h, AttentionWeights)), Nm(Head(b, l, h, HeadOutput))]
  }

  // ----- decoding -----

  /** Inverse of IntToString on its range. */
  function DecodeInt(s: string): Option<int> {
    if |s| >= 2 && s[0] == '-' && AllDigits(s[1..]) then Some(-(DigitsValue(s[1..]) as int))
    else if |s| >= 1 && AllDigits(s) then Some(DigitsValue(s) as int)
    else None
  }

  function DecodeTop(s: string): Option<TopName> {
    if s == "inputEmbeddings" then Some(InputEmbeddings)
    else if s == "posEncodings" then Some(PosEncodings)
    else if s == "encoderInput" then Some(EncoderInputTop)
    else if s == "finalEncoderOutput" then Some(FinalEncoderOutput)
    else if s == "outputEmbeddings" then Some(OutputEmbeddings)
    else if s == "decoderPosEncodings" then Some(DecoderPosEncodings)
    else if s == "decoderInput" then Some(DecoderInputTop)
    else if s == "finalLinear" then Some(FinalLinear)
    else if s == "logits" then Some(Logits)
    else if s == "outputProbabilities" then Some(OutputProbabilities)
    else if s == "inputToken" then Some(InputToken)
    else if s == "embeddingMatrix" then Some(EmbeddingMatrix)
    else if s == "outputToken" then Some(OutputToken)
    else None
  }

  function DecodeHeadKey(s: string): Option<HeadKey> {
    if s == "Wq" then Some(Wq) else if s == "Wk" then Some(Wk) else if s == "Wv" then Some(Wv)
    else if s == "Q" then Some(Q) else if s == "K" then Some(K) else if s == "V" then Some(V)
    else if s == "Scores" then Some(Scores) else if s == "ScaledScores" then Some(ScaledScores)
    else if s == "AttentionWeights" then Some(AttentionWeights)
    else if s == "HeadOutput" then Some(HeadOutput)
    else None
  }

  /** The segments of the feed-forward sub-block shared by encoder and decoder layers. */
  function FfnIndex(s: string): Option<nat> {
    if s == "W1" then Some(0) else if s == "b1" then Some(1)
    else if s == "Intermediate" then Some(2) else if s == "Activated" then Some(3)
    else if s == "W2" then Some(4) else if s == "b2" then Some(5)
    else if s == "output" then Some(6) else None
  }

  function DecodeEncoderKey(p: seq<string>): Option<EncoderKey> {
    if p == ["encoder_input"] then Some(EncoderInput)
    else if p == ["add_norm_1_output"] then Some(AddNorm1Output)
    else if p == ["add_norm_2_output"] then Some(AddNorm2Output)
    else if |p| != 2 then None
    else if p[0] == "mha" then
      (if p[1] == "output" then Some(MhaOutput) else if p[1] == "Wo" then Some(Wo) else None)
    else if p[0] == "ffn" then
      match FfnIndex(p[1])
      case None => None
      case Some(i) => Some([W1, B1, Intermediate, Activated, W2, B2, FfnOutput][i])
    else None
  }

  function DecodeDecoderKey(p: seq<string>): Option<DecoderKey> {
    if p == ["decoder_input"] then Some(DecoderInput)
    else if p == ["add_norm_1_output"] then Some(DecAddNorm1Output)
    else if p == ["add_norm_2_output"] then Some(DecAddNorm2Output)
    else if p == ["add_norm_3_output"] then Some(AddNorm3Output)
    else if |p| != 2 then None
    else if p[0] == "masked_mha" then
      (if p[1] == "output" then Some(MaskedMhaOutput) else if p[1] == "Wo" then Some(WoMasked) else None)
    else if p[0] == "enc_dec_mha" then
      (if p[1] == "output" then Some(EncDecMhaOutput) else if p[1] == "Wo" then Some(WoEncDec) else None)
    else if p[0] == "ffn" then
      match FfnIndex(p[1])
      case None => None
      case Some(i) => Some([DecW1, DecB1, DecIntermediate, DecActivated, DecW2, DecB2, DecFfnOutput][i])
    else None
  }

  function DecodeBlock(stack: string, s: string): Option<Block> {
    if stack == "encoder" && s == "mha" then Some(EncoderMha)
    else if stack == "decoder" && s == "masked_mha" then Some(MaskedMha)
    else if stack == "decoder" && s == "enc_dec_mha" then Some(EncDecMha)
    else None
  }

  function Decode(segs: seq<string>): Option<MatrixName> {
    if |segs| == 1 then
      match DecodeTop(segs[0])
      case None => None
      case Some(t) => Some(Top(t))
    else if |segs| < 3 || !(segs[0] == "encoder" || segs[0] == "decoder") then None
    else
      match DecodeInt(segs[1])
      case None => None
      case Some(l) =>
        var rest := segs[2..];
        var block := DecodeBlock(segs[0], rest[0]);
        if block.Some? && |rest| == 3 && |rest[1]| >= 1 && rest[1][0] == 'h' then
          match (DecodeInt(rest[1][1..]), DecodeHeadKey(rest[2]))
          case (Some(h), Some(k)) => Some(Head(block.value, l, h, k))
          case _ => None
        else if block.Some? && |rest| == 2 && rest[1] == "ConcatOutput" then
          Some(ConcatOutput(block.value, l))
        else if segs[0] == "encoder" then
          match DecodeEncoderKey(rest)
          case None => None
          case Some(k) => Some(EncoderLayer(l, k))
        else
          match DecodeDecoderKey(rest)
          case None => None
          case Some(k) => Some(DecoderLayer(l, k))
  }

  // ----- properties -----

  lemma DecodeIntToString(i: int)
    ensures DecodeInt(IntToString(i)) == Some(i)
  {
    var s := IntToString(i);
    if i < 0 {
      var n := NatToString(-i);
      assert s == "-" + n;
      assert s[1..] == n && AllDigits(n);
      DigitsOfNatToString(-i);
    } else {
      var n := NatToString(i);
      assert s == n && IsDigit(n[0]);
      DigitsOfNatToString(i);
    }
  }

  lemma IntToStringNotH(i: int)
    ensures IntToString(i)[0] != 'h'
  {
    SignOfIntToString(i);
    if i >= 0 { assert IsDigit(NatToString(i)[0]); }
  }

  lemma DecodeTopText(t: TopName)
    ensures DecodeTop(TopText(t)) == Some(t)
  {
    match t
    case InputEmbeddings => case PosEncodings => case EncoderInputTop =>
    case FinalEncoderOutput => case OutputEmbeddings => case DecoderPosEncodings =>
    case DecoderInputTop => case FinalLinear => case Logits =>
    case OutputProbabilities => case InputToken => case EmbeddingMatrix =>
    case OutputToken =>
  }

  lemma DecodeHeadKeyText(k: HeadKey)
    ensures DecodeHeadKey(HeadKeyText(k)) == Some(k)
  {
    match k
    case Wq => case Wk => case Wv => case Q => case K => case V =>
    case Scores => case ScaledScores => case AttentionWeights => case HeadOutput =>
  }

  lemma DecodeEncoderKeyPath(k: EncoderKey)
    ensures DecodeEncoderKey(EncoderKeyPath(k)) == Some(k)
  {
    match k
    case EncoderInput => case MhaOutput => case Wo => case AddNorm1Output =>
    case W1 => case B1 => case Intermediate => case Activated =>
    case W2 => case B2 => case FfnOutput => case AddNorm2Output =>
  }

  lemma DecodeDecoderKeyPath(k: DecoderKey)
    ensures DecodeDecoderKey(DecoderKeyPath(k)) == Some(k)
  {
    match k
    case DecoderInput => case MaskedMhaOutput => case WoMasked => case DecAddNorm1Output =>
    case EncDecMhaOutput => case WoEncDec => case DecAddNorm2Output =>
    case DecW1 => case DecB1 => case DecIntermediate => case DecActivated =>
    case DecW2 => case DecB2 => case DecFfnOutput => case AddNorm3Output =>
  }

  lemma DecodeBlockText(b: Block)
    ensures DecodeBlock(StackText(b), BlockText(b)) == Some(b)
  {
  }

  /** A layer key path never starts with a block's own segment followed by a head or ConcatOutput segment. */
  lemma EncoderKeyPathShape(k: EncoderKey)
    ensures |EncoderKeyPath(k)| <= 2
    ensures |EncoderKeyPath(k)| == 2 ==> EncoderKeyPath(k)[1] != "ConcatOutput"
    ensures |EncoderKeyPath(k)| == 1 ==> DecodeBlock("encoder", EncoderKeyPath(k)[0]).None?
  {
    match k
    case EncoderInput => case MhaOutput => case Wo => case AddNorm1Output =>
    case W1 => case B1 => case Intermediate => case Activated =>
    case W2 => case B2 => case FfnOutput => case AddNorm2Output =>
  }

  lemma DecoderKeyPathShape(k: DecoderKey)
    ensures |DecoderKeyPath(k)| <= 2
    ensures |DecoderKeyPath(k)| == 2 ==> DecoderKeyPath(k)[1] != "ConcatOutput"
    ensures |DecoderKeyPath(k)| == 1 ==> DecodeBlock("decoder", DecoderKeyPath(k)[0]).None?
  {
    match k
    case DecoderInput => case MaskedMhaOutput => case WoMasked => case DecAddNorm1Output =>
    case EncDecMhaOutput => case WoEncDec => case DecAddNorm2Output =>
    case DecW1 => case DecB1 => case DecIntermediate => case DecActivated =>
    case DecW2 => case DecB2 => case DecFfnOutput => case AddNorm3Output =>
  }

  lemma DecodeEncoderLayer(l: int, k: EncoderKey)
    ensures Decode(Segments(EncoderLayer(l, k))) == Some(EncoderLayer(l, k))
  {
    var segs := Segments(EncoderLayer(l, k));
    DecodeIntToString(l);
    assert segs[2..] == EncoderKeyPath(k);
    EncoderKeyPathShape(k);
    DecodeEncoderKeyPath(k);
  }

  lemma DecodeDecoderLayer(l: int, k: DecoderKey)
    ensures Decode(Segments(DecoderLayer(l, k))) == Some(DecoderLayer(l, k))
  {
    var segs := Segments(DecoderLayer(l, k));
    DecodeIntToString(l);
    assert segs[2..] == DecoderKeyPath(k);
    DecoderKeyPathShape(k);
    DecodeDecoderKeyPath(k);
  }

  lemma DecodeHead(b: Block, l: int, h: int, k: HeadKey)
    ensures Decode(Segments(Head(b, l, h, k))) == Some(Head(b, l, h, k))
  {
    var segs := Segments(Head(b, l, h, k));
    DecodeIntToString(l);
    DecodeIntToString(h);
    assert segs[2..] == [BlockText(b), "h" + IntToString(h), HeadKeyText(k)];
    assert ("h" + IntToString(h))[1..] == IntToString(h);
    DecodeBlockText(b);
    DecodeHeadKeyText(k);
  }

  lemma DecodeConcat(b: Block, l: int)
    ensures Decode(Segments(ConcatOutput(b, l))) == Some(ConcatOutput(b, l))
  {
    var segs := Segments(ConcatOutput(b, l));
    DecodeIntToString(l);
    assert segs[2..] == [BlockText(b), "ConcatOutput"];
    DecodeBlockText(b);
  }

  lemma DecodeSegments(n: MatrixName)
    ensures Decode(Segments(n)) == Some(n)
  {
    match n
    case Top(t) => DecodeTopText(t);
    case EncoderLayer(l, k) => DecodeEncoderLayer(l, k);
    case DecoderLayer(l, k) => DecodeDecoderLayer(l, k);
    case Head(b, l, h, k) => DecodeHead(b, l, h, k);
    case ConcatOutput(b, l) => DecodeConcat(b, l);
  }

  lemma TopTextDotFree(t: TopName)
    ensures NoChar(TopText(t), '.')
  {
    if t in {InputEmbeddings, PosEncodings, EncoderInputTop, FinalEncoderOutput, OutputEmbeddings, DecoderPosEncodings, DecoderInputTop} {
      InputTopTextDotFree(t);
    } else {
      match t
      case FinalLinear => case Logits => case OutputProbabilities =>
      case InputToken => case EmbeddingMatrix => case OutputToken =>
    }
  }

  lemma InputTopTextDotFree(t: TopName)
    requires t in {InputEmbeddings, PosEncodings, EncoderInputTop, FinalEncoderOutput, OutputEmbeddings, DecoderPosEncodings, DecoderInputTop}
    ensures NoChar(TopText(t), '.')
  {
    match t
    case InputEmbeddings => case PosEncodings => case EncoderInputTop =>
    case FinalEncoderOutput => case OutputEmbeddings => case DecoderPosEncodings =>
    case DecoderInputTop =>
  }

  lemma EncoderKeyPathDotFree(k: EncoderKey)
    ensures forall i :: 0 <= i < |EncoderKeyPath(k)| ==> NoChar(EncoderKeyPath(k)[i], '.')
  {
    match k
    case EncoderInput => case MhaOutput => case Wo => case AddNorm1Output =>
    case W1 => case B1 => case Intermediate => case Activated =>
    case W2 => case B2 => case FfnOutput => case AddNorm2Output =>
  }

  lemma DecoderKeyPathDotFree(k: DecoderKey)
    ensures forall i :: 0 <= i < |DecoderKeyPath(k)| ==> NoChar(DecoderKeyPath(k)[i], '.')
  {
    match k
    case DecoderInput => case MaskedMhaOutput => case WoMasked => case DecAddNorm1Output =>
    case EncDecMhaOutput => case WoEncDec => case DecAddNorm2Output => case AddNorm3Output =>
    case _ => DecoderFfnPathDotFree(k);
  }

  lemma DecoderFfnPathDotFree(k: DecoderKey)
    requires k in {DecW1, DecB1, DecIntermediate, DecActivated, DecW2, DecB2, DecFfnOutput}
    ensures forall i :: 0 <= i < |DecoderKeyPath(k)| ==> NoChar(DecoderKeyPath(k)[i], '.')
  {
    match k
    case DecW1 => case DecB1 => case DecIntermediate => case DecActivated =>
    case DecW2 => case DecB2 => case DecFfnOutput =>
  }

  lemma HeadKeyTextDotFree(k: HeadKey)
    ensures NoChar(HeadKeyText(k), '.')
  {
    match k
    case Wq => case Wk => case Wv => case Q => case K => case V =>
    case Scores => case ScaledScores => case AttentionWeights => case HeadOutput =>
  }

  lemma BlockTextsDotFree(b: Block)
    ensures NoChar(StackText(b), '.') && NoChar(BlockText(b), '.')
  {
    match b
    case EncoderMha => case MaskedMha => case EncDecMha =>
  }

  /** No segment of a name contains a dot, so a name's segments are recovered by Split. */
  lemma SegmentsDotFree(n: MatrixName)
    ensures |Segments(n)| >= 1
    ensures forall i :: 0 <= i < |Segments(n)| ==> NoChar(Segments(n)[i], '.')
  {
    match n
    case Top(t) => TopTextDotFree(t);
    case EncoderLayer(l, k) => IntToStringDotFree(l); EncoderKeyPathDotFree(k);
    case DecoderLayer(l, k) => IntToStringDotFree(l); DecoderKeyPathDotFree(k);
    case Head(b, l, h, k) =>
      BlockTextsDotFree(b);
      HeadKeyTextDotFree(k);
      IntToStringDotFree(l);
      HeadSegmentDotFree(h);
    case ConcatOutput(b, l) => IntToStringDotFree(l); BlockTextsDotFree(b);
  }

  lemma HeadSegmentDotFree(h: int)
    ensures NoChar("h" + IntToString(h), '.')
  {
    IntToStringDotFree(h);
    var hh := "h" + IntToString(h);
    assert forall i :: 1 <= i < |hh| ==> hh[i] == IntToString(h)[i - 1];
  }

  lemma IntToStringDotFree(i: int)
    ensures NoChar(IntToString(i), '.')
  {
    if i < 0 {
      assert forall j :: 1 <= j < |IntToString(i)| ==> IntToString(i)[j] == NatToString(-i)[j - 1];
    }
  }

  lemma SplitName(n: MatrixName)
    ensures Split(Nm(n), '.') == Segments(n)
  {
    SegmentsDotFree(n);
    SplitJoin(Segments(n), '.');
  }

  /** Different matrices never share a name. */
  lemma NmInjective(a: MatrixName, b: MatrixName)
    ensures Nm(a) == Nm(b) <==> a == b
  {
    if Nm(a) == Nm(b) {
      SplitName(a);
      SplitName(b);
      DecodeSegments(a);
      DecodeSegments(b);
    }
  }

  lemma AllNamesInjective()
    ensures forall a, b :: Nm(a) == Nm(b) ==> a == b
  {
    forall a, b ensures Nm(a) == Nm(b) ==> a == b {
      NmInjective(a, b);
    }
  }

  /** The matrix a string names, if any: the inverse of Nm. */
  function NameOf(s: string): Option<MatrixName> {
    Decode(Split(s, '.'))
  }

  lemma NameOfNm(n: MatrixName)
    ensures NameOf(Nm(n)) == Some(n)
  {
    SplitName(n);
    DecodeSegments(n);
  }

  lemma {:induction false} JoinCons(a: string, rest: seq<string>, sep: char)
    requires |rest| >= 1
    ensures Join([a] + rest, sep) == a + [sep] + Join(rest, sep)
  {
    assert ([a] + rest)[1..] == rest;
  }

  /** The base path of a head, `<stack>.<l>.<block>.h<h>`, followed by '.' and the key (generateHeadNames). */
  lemma HeadNameLayout(b: Block, l: int, h: int, k: HeadKey)
    ensures Nm(Head(b, l, h, k))
         == StackText(b) + "." + IntToString(l) + "." + BlockText(b) + ".h" + IntToString(h) + "." + HeadKeyText(k)
    ensures Split(Nm(Head(b, l, h, k)), '.') == [StackText(b), IntToString(l), BlockText(b), "h" + IntToString(h), HeadKeyText(k)]
  {
    var L, H := IntToString(l), IntToString(h);
    assert Segments(Head(b, l, h, k)) == [StackText(b), L, BlockText(b), "h" + H, HeadKeyText(k)];
    JoinFive(StackText(b), L, BlockText(b), "h" + H, HeadKeyText(k), '.');
    HeadRegroup(StackText(b), L, BlockText(b), H, HeadKeyText(k));
    SplitName(Head(b, l, h, k));
  }

  lemma {:induction false} HeadRegroup(s: string, L: string, t: string, H: string, K: string)
    ensures s + ['.'] + L + ['.'] + t + ['.'] + ("h" + H) + ['.'] + K == s + "." + L + "." + t + ".h" + H + "." + K
  {
    assert ['.'] + ("h" + H) == ".h" + H;
  }

  lemma {:induction false} JoinFive(a: string, b: string, c: string, d: string, e: string, sep: char)
    ensures Join([a, b, c, d, e], sep) == a + [sep] + b + [sep] + c + [sep] + d + [sep] + e
  {
    JoinCons(a, [b, c, d, e], sep);
    assert [a, b, c, d, e] == [a] + [b, c, d, e];
    JoinCons(b, [c, d, e], sep);
    assert [b, c, d, e] == [b] + [c, d, e];
    JoinCons(c, [d, e], sep);
    assert [c, d, e] == [c] + [d, e];
    JoinCons(d, [e], sep);
    assert [d, e] == [d] + [e];
  }

  /** A path `<stack>.<L>.<rest>` starts with `<stack>.<L>.`. */
  lemma {:induction false} StackPrefix(stack: string, L: string, p: seq<string>)
    requires |p| >= 1
    ensures StartsWith(Join([stack, L] + p, '.'), stack + "." + L + ".")
  {
    var q := [L] + p;
    assert [stack, L] + p == [stack] + q;
    JoinCons(stack, q, '.');
    JoinCons(L, p, '.');
    var pre := stack + "." + L + ".";
    var s := Join([stack, L] + p, '.');
    assert s == pre + Join(p, '.');
    assert s[..|pre|] == pre;
  }

  /** Every MATRIX_NAMES.layer(l) name starts with `encoder.<l>.`. */
  lemma EncoderLayerPrefix(l: int, k: EncoderKey)
    ensures StartsWith(Nm(EncoderLayer(l, k)), "encoder." + IntToString(l) + ".")
  {
    StackPrefix("encoder", IntToString(l), EncoderKeyPath(k));
    assert "encoder." == "encoder" + ".";
  }

  /** Every MATRIX_NAMES.decoderLayer(l) name starts with `decoder.<l>.`. */
  lemma DecoderLayerPrefix(l: int, k: DecoderKey)
    ensures StartsWith(Nm(DecoderLayer(l, k)), "decoder." + IntToString(l) + ".")
  {
    StackPrefix("decoder", IntToString(l), DecoderKeyPath(k));
    assert "decoder." == "decoder" + ".";
  }

  /** Top-level names are single segments without a dot. */
  lemma TopNameDotFree(t: TopName)
    ensures Nm(Top(t)) == TopText(t) && NoChar(Nm(Top(t)), '.')
  {
    SegmentsDotFree(Top(t));
  }

  /** Distinct (layer, head) pairs give distinct head names, for every block and key. */
  lemma HeadNamesDistinct(b: Block, l1: int, h1: int, l2: int, h2: int, k: HeadKey)
    requires (l1, h1) != (l2, h2)
    ensures Nm(Head(b, l1, h1, k)) != Nm(Head(b, l2, h2, k))
  {
    NmInjective(Head(b, l1, h1, k), Head(b, l2, h2, k));
  }
}
