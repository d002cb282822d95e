# TransformerVisualizer, modelled in Dafny

TransformerVisualizer is an interactive teaching application for transformer models. It draws every intermediate matrix of a small encoder/decoder pass, and of three attention variants (multi-head, multi-query and grouped-query attention). A click on any matrix cell traces the cell back to the cells it was computed from and lights them. This project models the application's integer, string and wiring logic and proves properties of it:

- **Cell provenance.** These are the backward tracers that turn a clicked cell into an ordered list of source records:
  - the application shell's encoder-only click handler (`AppTrace`);
  - the transformer explorer's tracer (`ExplorerTracing`), over the explorer's dotted naming scheme (`MatrixNames`);
  - the attention-variants tracer (`VariantsTracing`).

  Beside them are the two highlighting hooks that decide which cells a highlight lights (`ExplorerHighlighting`, `VariantsHighlighting`).
- **Matrix truncation.** `getVisibleIndices` chooses which rows and columns of a large matrix are drawn and where the ellipsis markers go. It exists in two copies: `ArrayUtils` and `MatrixView`.
- **Animation controllers.** The two step state machines behind the visualisers' play/pause/reset/step controls (`VisualizerAnimation`, `AnimationController`). Each is a class whose methods update `step` and `isPlaying` in place, and the timer is a `Tick` method.
- **Dimension controls.** The two `handleDimChange` repair rules (`ExplorerControls`, `VariantsControls`). They keep h dividing d_model, and n_kv_heads dividing n_q_heads.
- **Tokenizer.** The whitespace tokenizer (`Tokenizer`).
- **Fixed weights.** The seeded linear congruential generator and the fixed weight set of the explorer (`FixedWeights`). The attention-variants builder uses the same generator, with every draw rounded to two decimals.
- **Forward passes.** The forward-pass builders are modelled for their guards, shapes, index arithmetic and wiring, with matrix values as mathematical reals:
  - the explorer's `calculateTransformer` (`Transformer`);
  - the application's randomly initialised `useTransformer` hook (`UseTransformer`);
  - `calculateAttentionVariants` (`Attention`).

  `Matrices` holds the matrix helpers these builders share.

`Text` defines the JavaScript string built-ins the code relies on: split, join, parseInt, String(n), trimStart, indexOf and replace. `Arith` holds the integer facts the index arithmetic needs. JavaScript's truncating `%` is written out as `JsRem`. A NaN from `parseInt` is `None`.

Each imperative routine of the application is a Dafny method with its loop. Examples are the push loops of the tracers, the Set-filling loops of `getVisibleIndices`, the divisor search of the controls, the generator's mutated state and the layer loops of the builders. Each method is proved equal to a reference function, or to a predicate describing its result, and the properties the application relies on are proved about that reference.

The model has four findings, listed below. Each has a member that reproduces the code as written and a corrected member. The code as written is modelled everywhere else, including its quirks:
- the explorer's layer pattern needs a `.` before `encoder`/`decoder`, so every name the explorer builds parses as layer 0;
- the shell reads the third dotted segment as the component type.

## Model

| member | source | states |
|---|---|---|
| Text.NatToString | src/topics/transformer-explorer/config/matrixNames.ts:20 | a number interpolated into a name renders as a non-empty run of decimal digits |
| Text.DigitsOfNatToString | src/topics/transformer-explorer/config/matrixNames.ts:20 | the rendered digits read back as the same number |
| Text.NatToStringInjective | src/topics/transformer-explorer/config/matrixNames.ts:20 | two numbers render alike if and only if they are equal |
| Text.SignOfIntToString | src/topics/transformer-explorer/config/matrixNames.ts:20 | an integer's rendering starts with '-' if and only if it is negative |
| Text.IntToStringInjective | src/topics/transformer-explorer/config/matrixNames.ts:20 | two integers render alike if and only if they are equal |
| Text.LeadingDigits | src/topics/transformer-explorer/lib/tracing.ts:234 | the longest digit prefix: a prefix, all digits, and followed by a non-digit when shorter than the string |
| Text.LeadingDigitsOfDigits | src/topics/transformer-explorer/lib/tracing.ts:234 | digits followed by a non-digit start give exactly those digits |
| Text.TrailingDigits | src/topics/transformer-explorer/lib/tracing.ts:235 | the longest digit suffix, as the pattern anchored at the end captures it: a suffix, all digits, preceded by a non-digit when shorter than the string |
| Text.TrailingDigitsOfDigits | src/topics/transformer-explorer/lib/tracing.ts:235 | digits after a non-digit end are exactly the trailing run |
| Text.TrimStart | src/lib/tokenizer.ts:9 | trimming the start leaves a suffix of the string that does not begin with white space |
| Text.ParseIntOfDigitStart | src/topics/attention-variants/components/Controls.tsx:17 | parseInt of a string starting with a digit is the value of its leading digit run |
| Text.ParseIntOfNatToString | src/topics/transformer-explorer/lib/tracing.ts:10-12 | parseInt reads back a rendered number whatever follows it |
| Text.IndexOf | src/App.tsx:57 | the first occurrence: the pattern occurs there and at no earlier index, and none is reported only when it occurs nowhere |
| Text.Split | src/topics/attention-variants/lib/tracing.ts:7 | split gives at least one segment and no segment contains the separator |
| Text.SplitOfPlain | src/topics/attention-variants/lib/tracing.ts:7 | a string without the separator splits into itself alone |
| Text.SplitLast | src/topics/transformer-explorer/lib/tracing.ts:119 | the last segment, split('.').pop(), is a suffix preceded by the separator unless it is the whole string |
| Text.SplitJoin | src/topics/transformer-explorer/lib/tracing.ts:119 | splitting a name joined from dot-free segments gives the segments back |
| Text.JoinInjective | src/topics/transformer-explorer/config/matrixNames.ts:5-20 | names joined from dot-free segments are equal if and only if their segment lists are |
| Text.SplitConcat | src/topics/attention-variants/lib/tracing.ts:7 | a separator splits its two sides apart |
| Text.SegmentOccurrence | src/topics/transformer-explorer/lib/tracing.ts:146 | a dot-delimited word occurs in a joined name only as one of its inner segments |
| Tokenizer.TrimEnd | src/lib/tokenizer.ts:9 | `trim()`'s right half: drops exactly the trailing white space, leaving a prefix that does not end in white space |
| Tokenizer.TrimStartDropsWhitespace | src/lib/tokenizer.ts:9 | what `trim()`'s left half removes is all white space |
| Tokenizer.SplitWs | src/lib/tokenizer.ts:9 | `split(/\s+/)` always yields at least one piece (the empty string gives one empty piece) |
| Tokenizer.NonEmpty | src/lib/tokenizer.ts:9 | `filter(Boolean)` keeps only non-empty strings |
| Tokenizer.Words | src/lib/tokenizer.ts:9 | the reference: the maximal non-whitespace runs, each non-empty and free of white space |
| Tokenizer.Gaps | src/lib/tokenizer.ts:9 | the white space around the runs: one more gap than runs |
| Tokenizer.WordsAfterTrimStart | src/lib/tokenizer.ts:9 | trimming leading white space does not change the runs |
| Tokenizer.WordsSkipWhitespace | src/lib/tokenizer.ts:9 | leading white space adds no run |
| Tokenizer.WordsDropTrailing | src/lib/tokenizer.ts:9 | trailing white space adds no run |
| Tokenizer.FilterSplitIsWords | src/lib/tokenizer.ts:9 | splitting on white space runs and dropping empty pieces gives exactly the runs, whatever the ends hold |
| Tokenizer.TokensAreRuns | src/lib/tokenizer.ts:8-10 | `whitespaceTokenizer(text)` is exactly the maximal non-whitespace runs of the text, in order |
| Tokenizer.WhitespaceTokenizer | src/lib/tokenizer.ts:8-10 | trim, split on white-space runs, drop empty strings: no token is empty; TokensAreRuns proves the result is exactly the maximal non-whitespace runs |
| Tokenizer.TokensNonEmptyNoWhitespace | src/lib/tokenizer.ts:8-10 | no token is empty and no token contains white space |
| Tokenizer.NoWordsIffBlank | src/lib/tokenizer.ts:9 | there are no runs exactly when the text is all white space (both directions) |
| Tokenizer.NoTokensIffBlank | src/lib/tokenizer.ts:8-10 | the tokenizer returns [] exactly for empty or all-whitespace text (both directions) |
| Tokenizer.LeadingSpaceJoinsGap | src/lib/tokenizer.ts:9 | a leading white-space character joins the first gap and leaves the runs unchanged |
| Tokenizer.RunStartsWithEmptyGap | src/lib/tokenizer.ts:9 | text starting with a run has an empty first gap, then that run, then the rest's runs |
| Tokenizer.InterleaveRestores | src/lib/tokenizer.ts:9 | interleaving the gaps with the runs gives the text back |
| Tokenizer.GapsAreWhitespace | src/lib/tokenizer.ts:9 | every gap is white space |
| Tokenizer.FirstGapOfSpace | src/lib/tokenizer.ts:9 | text starting with white space has a non-empty first gap |
| Tokenizer.InnerGapsNonEmpty | src/lib/tokenizer.ts:9 | only the first and last gap can be empty, so runs are maximal |
| Tokenizer.RunsAndGaps | src/lib/tokenizer.ts:9 | the text is its gaps and runs interleaved, all gaps are white space and the inner ones non-empty: the runs are the maximal ones |
| AppTrace.MhaBodySources | src/App.tsx:69-102 | the multi-head-attention matrix branches push exactly the list MhaBody gives for the matrix segment |
| AppTrace.FfnBodySources | src/App.tsx:110-125 | the feed-forward branches push exactly the list FfnSources gives |
| AppTrace.AlternatingShape | src/App.tsx:73-76 | an alternating push loop over n columns pushes 2·n sources: row sweep entry k at index 2k (row flag), weight entry k at 2k+1 (column flag) |
| AppTrace.RowSweepShape | src/App.tsx:84-86 | a row sweep of n entries is row `row` at columns 0..n-1, in order, with the row flag |
| AppTrace.ColSweepShape | src/App.tsx:91-93 | a column sweep pushes whole column k (row -1, column flag) for k = 0..n-1 |
| AppTrace.OutputPairsShape | src/App.tsx:96-101 | the output loop pushes 2·n sources: the head output row of head ⌊k/d_k⌋, then Wo row k at the clicked column |
| AppTrace.HeadOfColumnInRange | src/App.tsx:97 | ⌊k / d_k⌋ for k < d_model is a head below h |
| AppTrace.HeadOfColumnDivides | src/App.tsx:97 | with d_model = h·d_k the head of column k is ⌊k / d_k⌋ |
| AppTrace.NotEncoderInput | src/App.tsx:53 | a name of several segments never takes the encoderInput branch |
| AppTrace.MhaBodyCases | src/App.tsx:70-102 | what each matrix branch lists: Q/K/V alternate the attention input and the head weight, Scores reads whole rows of Q and K, AttentionWeights and HeadOutput sweep rows, Output pairs head outputs with Wo |
| AppTrace.MhaBodyLongKey | src/App.tsx:70-102 | a matrix segment as long as `add_norm_1_in_residual` matches no matrix branch |
| AppTrace.LayerSegment | src/App.tsx:48 | a layer segment written as String(l) parses back to l |
| AppTrace.HeadSegment | src/App.tsx:57 | a head segment `h<h>` parses back to h once its 'h' is replaced away |
| AppTrace.MhaClickOf | src/App.tsx:56-102 | a click in encoder layer l's attention with a short matrix segment resolves to the matrix branch's list, with layer l and the head from the fourth segment |
| AppTrace.EncoderInputSources | src/App.tsx:53-55 | encoderInput at (r, c) yields exactly two same-cell sources, inputEmbeddings then posEncodings, and activates the input block |
| AppTrace.InputMatricesTraceNothing | src/App.tsx:37-38 | inputEmbeddings and posEncodings activate the input block and yield no sources |
| AppTrace.PlainNameTracesNothing | src/App.tsx:35-45 | a dot-free name that no branch knows yields no sources and activates what its own name says |
| AppTrace.MhaProjectionSources | src/App.tsx:70-76 | Q/K/V at (r, c) yields 2·d_model sources: for each k ascending, `add_norm_1_in_residual` at (r, k) with the row flag, then W{q,k,v} at (k, c) with the column flag |
| AppTrace.MhaScoresSources | src/App.tsx:77-81 | Scores at (r, c) yields exactly row r of Q and row c of K of the same head, col -1, with the row flag |
| AppTrace.MhaWeightsSources | src/App.tsx:82-86 | AttentionWeights at (r, c) yields Scores row r at every column k < seq_len, in order |
| AppTrace.SweepsShape | src/App.tsx:88-93 | a row sweep followed by a column sweep has n + d entries, each as its loop pushes it |
| AppTrace.MhaHeadOutputSources | src/App.tsx:87-93 | HeadOutput yields seq_len AttentionWeights entries of row r, then ⌈d_model / h⌉ whole columns of V (d_model / h when h divides d_model) |
| AppTrace.MhaOutputSources | src/App.tsx:94-101 | the attention Output at (r, c) yields, for each k < d_model, row r of head ⌊k/d_k⌋'s HeadOutput (a head below h), then Wo at (k, c) |
| AppTrace.MhaShortNameThrows | src/App.tsx:57 | an attention name with fewer than four segments makes the handler throw (parts[3] is undefined) |
| AppTrace.MhaResidualInputSources | src/App.tsx:65-68 | an attention name ending in `add_norm_1_in_residual` under its layer's prefix reads the same cell of the previous layer's add_norm_2_out, or of encoderInput in layer 0 |
| AppTrace.MhaResidualOf | src/App.tsx:60-68 | the residual branch's list for such a name is exactly that one cell |
| AppTrace.AddNormOutSources | src/App.tsx:103-109 | an add & norm `out` cell reads the same cell of `<first three segments>_in_residual`, then `_in_sublayer` |
| AppTrace.AddNormOutputNamesTraceNothing | src/App.tsx:35 | the rendered names `encoder.<l>.add_norm_1_out`/`_2_out` have component type `add_norm_1_out`, which no branch knows: no block and no sources (also lines 41-42, 103-109) |
| AppTrace.FfnHiddenSources | src/App.tsx:110-117 | Intermediate/Activated at (r, c) yields 2·d_model sources alternating add_norm_1_out (r, k) and W1 (k, c) |
| AppTrace.FfnOutputSources | src/App.tsx:118-124 | the ffn Output at (r, c) yields 2·d_ff sources alternating Activated (r, k) and W2 (k, c) |
| AppTrace.OtherNamesTraceNothing | src/App.tsx:52-126 | any name of no traced component yields no sources, with the clicked cell as target |
| AppTrace.ClickKeepsTarget | src/App.tsx:30 | whenever the handler completes, the stored target is the clicked element unchanged (also line 128) |
| AppTrace.MhaClickSources | src/App.tsx:56-102 | the attention branch, as a method over the split name, returns MhaSources' list, or None where it throws |
| AppTrace.ClickSources | src/App.tsx:26-126 | the backward-tracing part as a method: the sources pushed, in order, or None where the handler throws |
| AppTrace.App.constructor | src/App.tsx:18 | the application starts with no target, no sources and no active block |
| AppTrace.App.HandleElementClick | src/App.tsx:23-129 | without data nothing changes, whatever the dims; with data a click that throws leaves the state, and otherwise the highlight becomes the resolved state |
| MatrixNames.HeadNames | src/topics/transformer-explorer/config/matrixNames.ts:4-9 | generateHeadNames gives ten names, one per key, in key order |
| MatrixNames.DecodeIntToString | src/topics/transformer-explorer/config/matrixNames.ts:19-32 | a layer or head index rendered in a template literal reads back as itself |
| MatrixNames.IntToStringNotH | src/topics/transformer-explorer/config/matrixNames.ts:32 | a rendered index never starts with 'h', so `h<h>` segments are told apart from layer segments |
| MatrixNames.DecodeTopText | src/topics/transformer-explorer/config/matrixNames.ts:13-16 | every top-level name reads back as its entry (also lines 36-38, 64-66) |
| MatrixNames.DecodeHeadKeyText | src/topics/transformer-explorer/config/matrixNames.ts:4-9 | every head key's text reads back as that key |
| MatrixNames.DecodeEncoderKeyPath | src/topics/transformer-explorer/config/matrixNames.ts:19-29 | every encoder layer key path reads back as its key |
| MatrixNames.DecodeDecoderKeyPath | src/topics/transformer-explorer/config/matrixNames.ts:41-57 | every decoder layer key path reads back as its key |
| MatrixNames.DecodeBlockText | src/topics/transformer-explorer/config/matrixNames.ts:32 | the three attention blocks (`encoder…mha`, `decoder…masked_mha`, `decoder…enc_dec_mha`) read back as themselves (also lines 60-61) |
| MatrixNames.EncoderKeyPathShape | src/topics/transformer-explorer/config/matrixNames.ts:19-29 | a layer key path has at most two segments; a one-segment path is never a block word and a second segment is never `ConcatOutput` |
| MatrixNames.DecoderKeyPathShape | src/topics/transformer-explorer/config/matrixNames.ts:41-57 | likewise for decoder layer key paths |
| MatrixNames.DecodeEncoderLayer | src/topics/transformer-explorer/config/matrixNames.ts:19-29 | every `layer(l)` name decodes to its matrix |
| MatrixNames.DecodeDecoderLayer | src/topics/transformer-explorer/config/matrixNames.ts:41-57 | every `decoderLayer(l)` name decodes to its matrix |
| MatrixNames.DecodeHead | src/topics/transformer-explorer/config/matrixNames.ts:32 | every head name decodes to its (block, layer, head, key) (also lines 60-61) |
| MatrixNames.DecodeConcat | src/topics/transformer-explorer/config/matrixNames.ts:33 | every concatOutput name decodes to its layer |
| MatrixNames.DecodeSegments | src/topics/transformer-explorer/config/matrixNames.ts:11-67 | decoding the segments of any name gives the matrix back (round trip) |
| MatrixNames.TopTextDotFree | src/topics/transformer-explorer/config/matrixNames.ts:13-16 | top-level names contain no '.' (also lines 36-38, 64-66) |
| MatrixNames.InputTopTextDotFree | src/topics/transformer-explorer/config/matrixNames.ts:13-16 | the input-side top-level names contain no '.' (also lines 36-38) |
| MatrixNames.EncoderKeyPathDotFree | src/topics/transformer-explorer/config/matrixNames.ts:19-29 | no segment of an encoder key path contains '.' |
| MatrixNames.DecoderKeyPathDotFree | src/topics/transformer-explorer/config/matrixNames.ts:41-57 | no segment of a decoder key path contains '.' |
| MatrixNames.DecoderFfnPathDotFree | src/topics/transformer-explorer/config/matrixNames.ts:52-55 | the decoder feed-forward segments contain no '.' |
| MatrixNames.HeadKeyTextDotFree | src/topics/transformer-explorer/config/matrixNames.ts:4-9 | head keys contain no '.' |
| MatrixNames.BlockTextsDotFree | src/topics/transformer-explorer/config/matrixNames.ts:32 | stack and block words contain no '.' (also lines 60-61) |
| MatrixNames.SegmentsDotFree | src/topics/transformer-explorer/config/matrixNames.ts:11-67 | every name has at least one segment and no segment contains '.' |
| MatrixNames.HeadSegmentDotFree | src/topics/transformer-explorer/config/matrixNames.ts:32 | a `h<h>` segment contains no '.' |
| MatrixNames.IntToStringDotFree | src/topics/transformer-explorer/config/matrixNames.ts:19-32 | a rendered integer contains no '.' |
| MatrixNames.SplitName | src/topics/transformer-explorer/config/matrixNames.ts:11-67 | splitting a name on '.' gives exactly its segments |
| MatrixNames.NmInjective | src/topics/transformer-explorer/config/matrixNames.ts:11-67 | two matrices share a name exactly when they are the same matrix (both directions) |
| MatrixNames.AllNamesInjective | src/topics/transformer-explorer/config/matrixNames.ts:11-67 | no two different matrices share a name |
| MatrixNames.NameOfNm | src/topics/transformer-explorer/config/matrixNames.ts:11-67 | reading a rendered name back gives its matrix |
| MatrixNames.HeadNameLayout | src/topics/transformer-explorer/config/matrixNames.ts:4-9 | a head name is `<stack>.<l>.<block>.h<h>.<key>`, five segments with the key last (also lines 32, 60-61) |
| MatrixNames.EncoderLayerPrefix | src/topics/transformer-explorer/config/matrixNames.ts:19-29 | every `layer(l)` name starts with `encoder.<l>.` |
| MatrixNames.DecoderLayerPrefix | src/topics/transformer-explorer/config/matrixNames.ts:41-57 | every `decoderLayer(l)` name starts with `decoder.<l>.` |
| MatrixNames.TopNameDotFree | src/topics/transformer-explorer/config/matrixNames.ts:13-16 | a top-level name is its text, a single segment with no '.' (also lines 36-38, 64-66) |
| MatrixNames.HeadNamesDistinct | src/topics/transformer-explorer/config/matrixNames.ts:32 | distinct (layer, head) pairs give distinct head names, for every block and key (also lines 60-61) |
| ExplorerTracing.MatchOnJoin | src/topics/transformer-explorer/lib/tracing.ts:8-14 | on a dotted name the layer pattern (a '.', 'encoder' or 'decoder', '.', digits) and the head pattern ('.h', digits, '.') match exactly what they match among the segments after the first, since a match must start at a '.' |
| ExplorerTracing.HeadSegmentOfInt | src/topics/transformer-explorer/lib/tracing.ts:11-12 | `h<h>` is a head segment exactly when h is non-negative, and its digits read back as h |
| ExplorerTracing.HeadSegmentsMatch | src/topics/transformer-explorer/lib/tracing.ts:8-14 | after a head name's stack word: no layer match, and the head pattern finds h exactly when h >= 0 |
| ExplorerTracing.LayerAndHeadIndices | src/topics/transformer-explorer/lib/tracing.ts:8-14 | each index is 0 when its regex finds no match; IndicesOfName gives every matrix name layer 0 and the head it names |
| ExplorerTracing.IndicesOfName | src/topics/transformer-explorer/lib/tracing.ts:8-14 | getLayerAndHeadIndices gives every matrix name layer 0 (no name has a '.' before its stack word) and the head its name carries |
| ExplorerTracing.FirstNamed | src/topics/transformer-explorer/lib/tracing.ts:23-110 | an if-chain of `name ===` tests returns a candidate that bears the name |
| ExplorerTracing.FirstNamedMember | src/topics/transformer-explorer/lib/tracing.ts:23-110 | a listed matrix is found by its name, and as itself |
| ExplorerTracing.FirstNamedAbsent | src/topics/transformer-explorer/lib/tracing.ts:23-110 | an unlisted matrix is not found by its name |
| ExplorerTracing.GetMatrixByName | src/topics/transformer-explorer/lib/tracing.ts:16-111 | a found matrix bears the looked-up name (biases wrapped as one row), and a name no matrix has gives undefined |
| ExplorerTracing.EncoderCandidatesHold | src/topics/transformer-explorer/lib/tracing.ts:34-62 | at its own layer and head, an encoder layer or head name is in the encoder chain exactly when it is encoder-side and the data stores it |
| ExplorerTracing.DecoderCandidatesHold | src/topics/transformer-explorer/lib/tracing.ts:64-109 | likewise for the decoder chain and decoder-side names |
| ExplorerTracing.LookupOfTopName | src/topics/transformer-explorer/lib/tracing.ts:23-31 | every top-level name the lookup lists is found as its stored matrix |
| ExplorerTracing.LookupOfLayerName | src/topics/transformer-explorer/lib/tracing.ts:34-110 | a layer or head name looked up at its own layer and head gives the matrix exactly when the data has that layer, head and field, and undefined otherwise |
| ExplorerTracing.LookupOfName | src/topics/transformer-explorer/lib/tracing.ts:16-111 | every stored name is found at its own indices, b1/b2 as one-row matrices; any other layer or head name gives undefined |
| ExplorerTracing.AddSource | src/topics/transformer-explorer/lib/tracing.ts:218-228 | Object.assign order: the source keeps the element's isInternal and tooltip fields (matrixSymbol, matrixDims, tokenId, tokenStr, probValue, symbol), takes row and column from the request or -1, and its indices from the request's own name |
| ExplorerTracing.SourcesOf | src/topics/transformer-explorer/lib/tracing.ts:218-228 | addSource pushes exactly one source per call |
| ExplorerTracing.SourcesOfFields | src/topics/transformer-explorer/lib/tracing.ts:218-228 | each pushed source has the requested name, row or -1, column or -1 and flags, the element's isInternal and tooltip fields, and the indices parsed from its own name |
| ExplorerTracing.ResidualSplit | src/topics/transformer-explorer/lib/tracing.ts:231-232 | a 'residual.' name splits into at least two segments, the first 'residual' |
| ExplorerTracing.NotResidual | src/topics/transformer-explorer/lib/tracing.ts:231 | no matrix name starts with 'residual.', so the residual branch never catches one |
| ExplorerTracing.ResidualLayerOfId | src/topics/transformer-explorer/lib/tracing.ts:234 | `l(\d+)` reads the layer back from 'res-l<L>…' |
| ExplorerTracing.ResidualPartOfId | src/topics/transformer-explorer/lib/tracing.ts:235 | `(\d+)$` reads the trailing part number back |
| ExplorerTracing.DecoderIdMarked | src/topics/transformer-explorer/lib/tracing.ts:236 | a decoder residual id contains '-d' |
| ExplorerTracing.DecoderResidualParse | src/topics/transformer-explorer/lib/tracing.ts:234-236 | a decoder residual id reads back as its layer and its part, and is marked '-d' |
| ExplorerTracing.ResidualOfDecoderId | src/topics/transformer-explorer/lib/tracing.ts:236-240 | the residual rule chosen for a decoder id is that layer's and part's decoder rule |
| ExplorerTracing.DecoderResidualReadsSummands | src/topics/transformer-explorer/lib/tracing.ts:238-240 | parts 1-3 light the two summands of that add-norm (whole matrices), any other part lights nothing |
| ExplorerTracing.ResidualClick | src/topics/transformer-explorer/lib/tracing.ts:231-247 | a residual click has no target, records the connection id, and yields the rule's sources with both row and column highlighted |
| ExplorerTracing.HeadOutputRows | src/topics/transformer-explorer/lib/tracing.ts:291 | the ConcatOutput loop makes one request per head, dims.h of them (none when h <= 0) |
| ExplorerTracing.CreateBackwardHighlight | src/topics/transformer-explorer/lib/tracing.ts:208-329 | the method computes the reference trace: indices overwritten, sources in rule order with the clicked element's fields copied in, the ConcatOutput rule looping over the heads |
| ExplorerTracing.TraceKeepsElementFields | src/topics/transformer-explorer/lib/tracing.ts:218-228 | every source of a completed trace carries the clicked element's isInternal and tooltip fields |
| ExplorerTracing.RunRule | src/topics/transformer-explorer/lib/tracing.ts:280-325 | carrying out a rule pushes its sources in order, or fails with the TypeError of addSource on an undefined name |
| ExplorerTracing.AddHeadOutputs | src/topics/transformer-explorer/lib/tracing.ts:291 | the ConcatOutput loop pushes the HeadOutput row of heads 0..h-1 in order |
| ExplorerTracing.HeadOutputRowsStep | src/topics/transformer-explorer/lib/tracing.ts:291 | one more loop iteration appends exactly the next head's source |
| ExplorerTracing.InRuleChain | src/topics/transformer-explorer/lib/tracing.ts:280-325 | the chain at (l, h) tests exactly the names with a branch at layer l and, for heads, head h |
| ExplorerTracing.ConcatInChain | src/topics/transformer-explorer/lib/tracing.ts:291 | a ConcatOutput name is compared only when the records have ConcatOutput entries, and only at its own layer (also lines 307, 316) |
| ExplorerTracing.NoBranchNoSources | src/topics/transformer-explorer/lib/tracing.ts:280-328 | a matrix without a branch yields no sources |
| ExplorerTracing.DispatchOfName | src/topics/transformer-explorer/lib/tracing.ts:280-325 | no branch shadows another: a name selects its own branch at its layer and head, and nothing otherwise |
| ExplorerTracing.TraceOfName | src/topics/transformer-explorer/lib/tracing.ts:214-216 | a click on any matrix name marks the element with layer 0 and its head, and traces that matrix's branch when the layer-0 chain tests it |
| ExplorerTracing.FfnContains | src/topics/transformer-explorer/lib/tracing.ts:260 | `includes('.ffn.')` holds exactly for feed-forward names |
| ExplorerTracing.StackOfName | src/topics/transformer-explorer/lib/tracing.ts:256-261 | a layer, head or ConcatOutput name starts with 'encoder' exactly when it is encoder-side, and with 'decoder' otherwise |
| ExplorerTracing.StackOfTop | src/topics/transformer-explorer/lib/tracing.ts:256-261 | of the top-level names only encoderInput starts with 'encoder', and only decoderInput and decoderPosEncodings with 'decoder' |
| ExplorerTracing.NamedInIff | src/topics/transformer-explorer/lib/tracing.ts:257-263 | `includes` on a list of names is membership of the matrix, because names are distinct |
| ExplorerTracing.MhaNamesMember | src/topics/transformer-explorer/lib/tracing.ts:257 | the encoder mha list holds exactly the mha members |
| ExplorerTracing.MaskedNamesMember | src/topics/transformer-explorer/lib/tracing.ts:262 | the masked-mha list holds exactly the masked members |
| ExplorerTracing.CrossNamesMember | src/topics/transformer-explorer/lib/tracing.ts:263 | the encoder-decoder list holds exactly the cross-attention members |
| ExplorerTracing.EncoderTestsOfName | src/topics/transformer-explorer/lib/tracing.ts:256-260 | the encoder string tests at layer 0 give the reference component |
| ExplorerTracing.EncoderComponentOf | src/topics/transformer-explorer/lib/tracing.ts:256-260 | the reference component for encoder names follows the same order of tests: mha, add_norm_1, add_norm_2, ffn |
| ExplorerTracing.DecoderTestsOfName | src/topics/transformer-explorer/lib/tracing.ts:261-267 | the decoder string tests at layer 0 give the reference component |
| ExplorerTracing.DecoderComponentOf | src/topics/transformer-explorer/lib/tracing.ts:261-267 | the reference component for decoder names follows the same order: masked_mha, enc_dec_mha, add norms, ffn_dec |
| ExplorerTracing.TopTestsOfName | src/topics/transformer-explorer/lib/tracing.ts:268-278 | the tests on the remaining top-level names give the reference component |
| ExplorerTracing.TopComponentOf | src/topics/transformer-explorer/lib/tracing.ts:268-278 | token_embed, input_embed, output_embed, final_output or decoding, per top-level name |
| ExplorerTracing.ActiveComponentOfName | src/topics/transformer-explorer/lib/tracing.ts:254-278 | for a matrix clicked as itself, the activeComponent chain lights exactly the reference component |
| ExplorerTracing.TraceOfMatrix | src/topics/transformer-explorer/lib/tracing.ts:208-329 | a click on a matrix traces its branch at layer 0 and lights the reference component |
| ExplorerTracing.LaterLayerTracesNothing | src/topics/transformer-explorer/lib/tracing.ts:9-10 | because every name parses as layer 0, a click on a matrix of any other layer targets it and traces nothing back |
| ExplorerTracing.BlockOutputCrashes | src/topics/transformer-explorer/lib/tracing.ts:292 | as written, the layer records lack ConcatOutput, so an attention-output click calls addSource with an undefined name and throws |
| ExplorerTracing.BlockOutputRule | src/topics/transformer-explorer/lib/tracing.ts:292 | the chain reaches a block output at its own layer, and its branch is ConcatOutput row r plus Wo column c |
| ExplorerTracing.BlockOutputReadsConcat | src/topics/transformer-explorer/lib/tracing.ts:292 | with ConcatOutput in the records, an attention-output click lights its block and reads the ConcatOutput row and the Wo column |
| ExplorerTracing.BlockOutputComponent | src/topics/transformer-explorer/lib/tracing.ts:257-263 | an attention output lights its own block |
| ExplorerTracing.ConcatReadsEveryHead | src/topics/transformer-explorer/lib/tracing.ts:291 | a ConcatOutput click lights its block and reads the same row of every head's output in head order, each with its own head index |
| ExplorerTracing.ConcatRule | src/topics/transformer-explorer/lib/tracing.ts:291 | a ConcatOutput name is reached by the chain and its branch is the per-head loop |
| ExplorerHighlighting.Lights | src/topics/transformer-explorer/hooks/useHighlighting.ts:34-50 | a record lights a cell exactly when it names the matrix, is not internal, and matches the cell's row unless it highlights a column and the cell's column unless it highlights a row |
| ExplorerHighlighting.AnyLights | src/topics/transformer-explorer/hooks/useHighlighting.ts:34-50 | `some` holds exactly when one record lights the cell |
| ExplorerHighlighting.IsTarget | src/topics/transformer-explorer/hooks/useHighlighting.ts:26-31 | the target is present, at this very cell, and not internal |
| ExplorerHighlighting.WholeMatrixLights | src/topics/transformer-explorer/hooks/useHighlighting.ts:38-41 | a record with both flags lights every cell of its matrix and nothing else |
| ExplorerHighlighting.NoRecordsLightNothing | src/topics/transformer-explorer/hooks/useHighlighting.ts:53 | an absent or empty destination list lights nothing |
| ExplorerHighlighting.RequestShapesLight | src/topics/transformer-explorer/hooks/useHighlighting.ts:38-49 | a row source lights its row, a column source its column, a cell source its cell, a whole source its matrix, and only for a non-internal click |
| ExplorerHighlighting.InternalSourcesLightNothing | src/topics/transformer-explorer/hooks/useHighlighting.ts:35 | the records traced from an internal element carry its flag, and none of them lights a cell |
| ExplorerHighlighting.TraceLightsNoDestination | src/topics/transformer-explorer/hooks/useHighlighting.ts:53-66 | the explorer tracer lists no destinations, so no cell is ever lit as one |
| ExplorerHighlighting.TraceTargetsClickedCell | src/topics/transformer-explorer/hooks/useHighlighting.ts:26-31 | after a traced click on a non-residual cell, the lit target is exactly the clicked cell, unless the click was internal |
| ExplorerHighlighting.ResidualTargetsNothing | src/topics/transformer-explorer/hooks/useHighlighting.ts:26-31 | a click on a residual connection lights no target cell |
| ExplorerHighlighting.ConcatLightsHeadRows | src/topics/transformer-explorer/hooks/useHighlighting.ts:42-44 | a ConcatOutput click lights, in head j's output, the clicked row exactly when 0 <= j < h |
| ExplorerHighlighting.HeadRowsLight | src/topics/transformer-explorer/hooks/useHighlighting.ts:42-44 | per-head row records light exactly that row of those heads |
| ExplorerHighlighting.ResidualLightsSummands | src/topics/transformer-explorer/hooks/useHighlighting.ts:38-41 | a click on either end of decoder residual part 1-3 lights, over their whole extent, exactly the two summands of the add-norm it feeds |
| ExplorerHighlighting.DecoderResidualWholes | src/topics/transformer-explorer/hooks/useHighlighting.ts:38-41 | the decoder residual rule's two sources are the two summands, each whole |
| ExplorerHighlighting.WholePairLights | src/topics/transformer-explorer/hooks/useHighlighting.ts:38-41 | two whole-matrix records light every cell of the two matrices and nothing else |
| VariantsTracing.HeadKeyOf | src/topics/attention-variants/lib/tracing.ts:24 | a recognised field name is the text of that head field |
| VariantsTracing.JsRem | src/topics/attention-variants/lib/tracing.ts:161 | JavaScript's `%`: for a non-negative dividend the remainder lies in [0, d), and dividend = truncated quotient * d + remainder |
| VariantsTracing.FloorDiv | src/topics/attention-variants/lib/tracing.ts:160 | Math.floor(col / d_head) is the q with q*d <= col < (q+1)*d |
| VariantsTracing.GqaGroup | src/topics/attention-variants/lib/tracing.ts:177-183 | the group of query head h is the g with g*n_q <= h*n_kv < (g+1)*n_q, the exact value of floor(h / (n_q / n_kv)) |
| VariantsTracing.Spread | src/topics/attention-variants/lib/tracing.ts:155-188 | `{ ...element, ... }`: a source keeps the element's variant, isInternal and symbol |
| VariantsTracing.CreateBackwardHighlight | src/topics/attention-variants/lib/tracing.ts:130-192 | the method computes the reference trace: sources pushed onto a local list with `...element` copied in, the weight index reassigned by kind and variant |
| VariantsTracing.BackwardKeepsElement | src/topics/attention-variants/lib/tracing.ts:146-188 | every source of a highlight carries the clicked element's variant, isInternal and symbol, internal branch included |
| VariantsTracing.SegmentsDotFree | src/topics/attention-variants/lib/tracing.ts:6-41 | no segment of a stored matrix's path contains '.' |
| VariantsTracing.PathSplit | src/topics/attention-variants/lib/tracing.ts:7 | splitting a stored matrix's path on '.' gives its segments back |
| VariantsTracing.HeadPathText | src/topics/attention-variants/lib/tracing.ts:161-172 | a head matrix's path is `<variant>.heads.<h>.<field>` |
| VariantsTracing.HeadsInPath | src/topics/attention-variants/lib/tracing.ts:21 | `includes('.heads.')` holds exactly for the head paths |
| VariantsTracing.HeadIndexAfterVariant | src/topics/attention-variants/lib/tracing.ts:18-19 | the heads pattern reads back the head index that follows `<variant>.heads.` |
| VariantsTracing.VariantOfText | src/topics/attention-variants/lib/tracing.ts:13 | mha, gqa and mqa are accepted and mla is refused |
| VariantsTracing.HeadKeyOfText | src/topics/attention-variants/lib/tracing.ts:24 | each head field's text reads back as that field |
| VariantsTracing.LookupOfHeadPath | src/topics/attention-variants/lib/tracing.ts:21-25 | a head path is found exactly when its head index is below the head count |
| VariantsTracing.LookupOfHeadName | src/topics/attention-variants/lib/tracing.ts:18-25 | the heads branch, once the name's parts are known, gives the head's field or undefined past the head count |
| VariantsTracing.LookupOfWeightPath | src/topics/attention-variants/lib/tracing.ts:32-38 | a weight path `<variant>.w<k>.<i>` is found exactly when i is below the list's length |
| VariantsTracing.LookupOfWeightName | src/topics/attention-variants/lib/tracing.ts:32-38 | the weight branch, once the name's parts are known, gives weight i or undefined |
| VariantsTracing.GetMatrixByName | src/topics/attention-variants/lib/tracing.ts:6-41 | a matrix is found only for a name of two or more segments under mha, gqa or mqa, and a per-variant matrix belongs to that variant; LookupOfPath proves every stored matrix is found by its path |
| VariantsTracing.LookupOfPath | src/topics/attention-variants/lib/tracing.ts:6-41 | every stored matrix is found by its path, and nothing for one whose index is past the head count |
| VariantsTracing.LookupRejects | src/topics/attention-variants/lib/tracing.ts:8-13 | names of fewer than two segments, or outside mha/gqa/mqa, give undefined |
| VariantsTracing.WeightIndexTextOf | src/topics/attention-variants/lib/tracing.ts:183-188 | the weight index rendered in the source name is the computed index |
| VariantsTracing.GqaGroupInRange | src/topics/attention-variants/lib/tracing.ts:183 | a query head's group is below n_kv |
| VariantsTracing.GqaGroupOfDivisor | src/topics/attention-variants/lib/tracing.ts:177-183 | when n_kv divides n_q the group is h / (n_q / n_kv) with an integer group size |
| VariantsTracing.WeightIndexInRange | src/topics/attention-variants/lib/tracing.ts:179-185 | the weight a Q, K or V cell reads is stored: below n_q, below n_kv for a GQA key or value, 0 for MQA |
| VariantsTracing.MlaTracesNothing | src/topics/attention-variants/lib/tracing.ts:134-136 | an mla element is its own target with no sources |
| VariantsTracing.OutputReadsCombinedAndWo | src/topics/attention-variants/lib/tracing.ts:154-157 | `output` at (r, c) reads combined row r, then Wo column c |
| VariantsTracing.HeadOutputReadsWeightsAndV | src/topics/attention-variants/lib/tracing.ts:163-166 | a head's Output at (r, c) reads its Weights row r, then its V column c |
| VariantsTracing.WeightsReadScores | src/topics/attention-variants/lib/tracing.ts:167-169 | a head's Weights at (r, c) reads its Scores row r |
| VariantsTracing.ScoresReadQAndK | src/topics/attention-variants/lib/tracing.ts:170-173 | a head's Scores at (r, c) reads its Q row r and its K row c |
| VariantsTracing.ProjectionReadsInputAndWeight | src/topics/attention-variants/lib/tracing.ts:174-189 | a head's Q, K or V at (r, c) reads input row r, then column c of the weight its group selects |
| VariantsTracing.CombinedReadsHeadOutput | src/topics/attention-variants/lib/tracing.ts:158-162 | `combined` at (r, c) reads one cell of head floor(c/d) at column c mod d, which together give c back; with no mha head 0 it throws |
| VariantsTracing.OtherNameReadsNothing | src/topics/attention-variants/lib/tracing.ts:191 | any other name is its own target with no sources |
| VariantsTracing.FirstSegment | src/topics/attention-variants/lib/tracing.ts:144 | the first segment of a dot-free word followed by '.' is that word |
| VariantsTracing.FirstSegmentAfterReplace | src/topics/attention-variants/lib/tracing.ts:143-144 | removing the first '.internal' keeps the leading segment |
| VariantsTracing.InternalReadsScores | src/topics/attention-variants/lib/tracing.ts:142-151 | an internal softmax cell reads the same head's Scores row r (whole row for column -1, else the same cell), and the record stays internal |
| VariantsTracing.InternalBackward | src/topics/attention-variants/lib/tracing.ts:142-151 | the internal branch on any name reads Scores of the first segment and the parsed head |
| VariantsTracing.InternalNameParts | src/topics/attention-variants/lib/tracing.ts:138-140 | an internal name's head index is the head it names |
| VariantsHighlighting.Lights | src/topics/attention-variants/hooks/useHighlighting.ts:20-25 | a record lights only cells of its own matrix: a row flag compares only the row, else a column flag only the column, else the exact cell; isInternal is not consulted |
| VariantsHighlighting.AnyLights | src/topics/attention-variants/hooks/useHighlighting.ts:20-25 | `some` holds exactly when one record lights the cell |
| VariantsHighlighting.IsTarget | src/topics/attention-variants/hooks/useHighlighting.ts:14-18 | the target is present and at this very cell, internal or not |
| VariantsHighlighting.PrecedenceVersusExplorer | src/topics/attention-variants/hooks/useHighlighting.ts:22-23 | on non-internal records this hook agrees with the explorer's, except that with both flags set it lights only the row where the explorer lights the whole matrix |
| VariantsHighlighting.InternalStillLights | src/topics/attention-variants/hooks/useHighlighting.ts:20-21 | an internal record lights the same cells as a non-internal one, where the explorer's rule lights none |
| VariantsHighlighting.RowThenColumnLights | src/topics/attention-variants/hooks/useHighlighting.ts:22-23 | a row record and a column record light exactly that row and that column |
| VariantsHighlighting.MlaLightsNothing | src/topics/attention-variants/hooks/useHighlighting.ts:20-25 | an mla click lights no source |
| VariantsHighlighting.OutputLights | src/topics/attention-variants/hooks/useHighlighting.ts:20-25 | `output` at (r, c) lights row r of combined and column c of Wo, nothing else |
| VariantsHighlighting.HeadOutputLights | src/topics/attention-variants/hooks/useHighlighting.ts:20-25 | a head's Output at (r, c) lights row r of its Weights and column c of its V |
| VariantsHighlighting.WeightsLight | src/topics/attention-variants/hooks/useHighlighting.ts:20-25 | a head's Weights at (r, c) lights all of row r of its Scores and nothing else |
| VariantsHighlighting.ScoresLight | src/topics/attention-variants/hooks/useHighlighting.ts:20-25 | a head's Scores at (r, c) lights row r of its Q and row c of its K |
| VariantsHighlighting.ProjectionLights | src/topics/attention-variants/hooks/useHighlighting.ts:20-25 | a head's Q, K or V at (r, c) lights row r of the input and column c of the weight its group selects |
| VariantsHighlighting.CombinedLightsOneCell | src/topics/attention-variants/hooks/useHighlighting.ts:20-25 | `combined` at (r, c) lights exactly one cell, head floor(c/d)'s Output at (r, c mod d) |
| VariantsHighlighting.InternalLightsScores | src/topics/attention-variants/hooks/useHighlighting.ts:20-25 | a softmax breakdown cell lights row r of its head's Scores (whole row for column -1, else the same cell) although the record is internal |
| ArrayUtils.Identity | src/components/utils/array.ts:24 | `Array.from({length})` lists 0..totalSize-1 in order, nothing for a negative length |
| ArrayUtils.Ascending | src/components/utils/array.ts:52 | sorting the Set's numbers gives exactly its members, strictly ascending |
| ArrayUtils.Numbers | src/components/utils/array.ts:53-63 | dropping the ellipses leaves at most as many entries |
| ArrayUtils.VisibleSet | src/components/utils/array.ts:27-49 | an index is in the Set exactly when it is in range and one of the edges, the middle without a focus, or in the focus window |
| ArrayUtils.CollectVisible | src/components/utils/array.ts:27-49 | the three filling loops build exactly that Set |
| ArrayUtils.InsertEllipses | src/components/utils/array.ts:53-63 | the push loop builds the gapped list of the sorted numbers |
| ArrayUtils.GetVisibleIndices | src/components/utils/array.ts:16-66 | the method returns the reference result |
| ArrayUtils.NumbersAppend | src/components/utils/array.ts:53-63 | the numbers of a concatenation are the concatenation of the numbers |
| ArrayUtils.NumbersOfGapped | src/components/utils/array.ts:55-63 | removing the ellipses gives back the sorted numbers |
| ArrayUtils.GappedShape | src/components/utils/array.ts:55-63 | a gapped list starts and ends with a number, and an ellipsis stands exactly where two neighbours are not consecutive |
| ArrayUtils.SmallShowsEverything | src/components/utils/array.ts:23-25 | below twelve the result is every index in order, with no ellipsis |
| ArrayUtils.NumbersOfIdentity | src/components/utils/array.ts:24 | the identity list's numbers are 0..n-1 |
| ArrayUtils.ResultWellFormed | src/components/utils/array.ts:16-66 | for every input the numbers strictly increase, lie in [0, totalSize), and ellipses stand exactly in the gaps |
| ArrayUtils.ShownIff | src/components/utils/array.ts:27-63 | from twelve on, an index is drawn exactly when it is an edge index, the middle one without a focus, or in the clipped window |
| ArrayUtils.AlwaysShown | src/components/utils/array.ts:29-40 | the first and last min(alwaysShowCount, totalSize) indices, and the middle one without a focus, are always drawn |
| MatrixView.ViewVisibleSet | src/topics/attention-variants/utils/matrixView.ts:16-36 | an index is in this copy's Set exactly when it is in range and an edge index, the middle one (no focus, extra size guard) or in the window |
| MatrixView.CollectViewVisible | src/topics/attention-variants/utils/matrixView.ts:16-36 | the filling loops of this copy build exactly that Set |
| MatrixView.GetVisibleIndices | src/topics/attention-variants/utils/matrixView.ts:5-52 | the method returns this copy's reference result |
| MatrixView.SameAsArrayCopy | src/topics/attention-variants/utils/matrixView.ts:26 | the extra guard changes nothing: this copy returns what the shared array utility returns, for every input |
| VisualizerAnimation.StepController.constructor | src/components/visualizers/utils.ts:26-28 | a new controller has not started (step -1) and is not playing |
| VisualizerAnimation.StepController.Tick | src/components/visualizers/utils.ts:30-43 | while playing below the last step the step advances by exactly one; at or past the last step playing stops; when paused nothing changes |
| VisualizerAnimation.StepController.Play | src/components/visualizers/utils.ts:45-52 | play restarts from 0 when finished or not yet started, keeps the step otherwise, and plays |
| VisualizerAnimation.StepController.Pause | src/components/visualizers/utils.ts:54-56 | pause stops playback and keeps the step |
| VisualizerAnimation.StepController.Reset | src/components/visualizers/utils.ts:58-61 | reset returns to "not started", not playing |
| VisualizerAnimation.StepController.SetStepManually | src/components/visualizers/utils.ts:63-68 | a manual step always stops playback and moves only to a step in [-1, totalSteps) |
| VisualizerAnimation.ZeroStepsOvershoot | src/components/visualizers/utils.ts:31-34 | with no steps, play moves the counter to 0, past the last step -1, and the next tick stops it there (also lines 45-51) |
| VisualizerAnimation.PlayThrough | src/components/visualizers/utils.ts:30-51 | from a fresh controller with n >= 1 steps, play and n - 1 ticks reach the last step, still playing |
| AnimationController.IntervalController.constructor | src/components/hooks/useAnimationController.ts:11-13 | a new controller is at step 0, not playing, with no interval |
| AnimationController.IntervalController.Effect | src/components/hooks/useAnimationController.ts:22-43 | playing at or past the last step stops; playing below it starts the interval; otherwise the interval is stopped; the step is unchanged |
| AnimationController.IntervalController.IntervalFires | src/components/hooks/useAnimationController.ts:29-38 | the interval callback stops everything at or past the last step, else advances one step |
| AnimationController.IntervalController.Tick | src/components/hooks/useAnimationController.ts:22-43 | one beat of playback advances the step by one until the last step, where playing stops without advancing |
| AnimationController.IntervalController.Play | src/components/hooks/useAnimationController.ts:45-50 | play restarts from 0 only when at or past the last step, then plays |
| AnimationController.IntervalController.Pause | src/components/hooks/useAnimationController.ts:52 | pause only stops playback; the interval is stopped by the next effect |
| AnimationController.IntervalController.Reset | src/components/hooks/useAnimationController.ts:54-57 | reset returns to step 0, not playing |
| AnimationController.IntervalController.SetStepManually | src/components/hooks/useAnimationController.ts:59-64 | a manual step always stops playback and moves only to a step in [0, totalSteps) |
| AnimationController.PlayThrough | src/components/hooks/useAnimationController.ts:22-50 | from a fresh controller with n >= 1 steps, play and n - 1 ticks reach the last step, and one more tick stops playback there |
| ExplorerControls.Typed | src/topics/transformer-explorer/components/Controls.tsx:25 | `parseInt(value, 10)` falling back to 1 is never 0: the parsed number when it is a non-zero number, else 1 |
| ExplorerControls.NearestDivisor | src/topics/transformer-explorer/components/Controls.tsx:35-42 | the scan's best_h divides d_model, lies in [1, d_model], is at least as near h as every divisor, and no smaller divisor is as near (ties keep the smaller) |
| ExplorerControls.BestDivisor | src/topics/transformer-explorer/components/Controls.tsx:35-42 | the divisor loop computes that nearest divisor |
| ExplorerControls.HandleDimChange | src/topics/transformer-explorer/components/Controls.tsx:23-52 | the handler rewrites the fields one after another, giving the reference repair of the typed value |
| ExplorerControls.DkDisplay | src/topics/transformer-explorer/components/Controls.tsx:58 | d_k is a number exactly when h divides d_model, and then d_k * h == d_model; 'N/A' otherwise |
| ExplorerControls.OtherFieldsOnly | src/topics/transformer-explorer/components/Controls.tsx:25 | a seq_len or n_layers change takes the typed value and changes nothing else |
| ExplorerControls.HChange | src/topics/transformer-explorer/components/Controls.tsx:28-32 | a new h keeps d_model when it divides it, else d_model becomes the least multiple of h at or above it (at least h); the other fields stay |
| ExplorerControls.RoundUpToMultiple | src/topics/transformer-explorer/components/Controls.tsx:30 | max(h, ceil(a/h)*h) is a multiple of h, at least h and a, and less than a + h |
| ExplorerControls.DModelChange | src/topics/transformer-explorer/components/Controls.tsx:33-49 | a new d_model keeps h when h divides it, else h becomes the nearest divisor; d_ff becomes 4 * d_model |
| ExplorerControls.RepairDivides | src/topics/transformer-explorer/components/Controls.tsx:28-45 | after an h or d_model change with positive values, h divides d_model, so d_k shows d_model / h |
| VariantsControls.NumMul | src/topics/attention-variants/components/Controls.tsx:39 | a product is a number exactly when both factors are (NaN otherwise) |
| VariantsControls.RoundedQueries | src/topics/attention-variants/components/Controls.tsx:35 | v * Math.round(q / v) is a number exactly when q and v are numbers and v is not 0 |
| VariantsControls.NegAbsDivides | src/topics/attention-variants/components/Controls.tsx:26-28 | -abs(v) divides v, so for v != 0 the decrement loop never passes it |
| VariantsControls.ScanEnd | src/topics/attention-variants/components/Controls.tsx:25-28 | the decrement loop stops at the largest value at or below its start that divides v |
| VariantsControls.HandleDimChange | src/topics/attention-variants/components/Controls.tsx:15-42 | the state updater, with its while loop, computes the reference repair of the parsed value (or hangs) |
| VariantsControls.QueryHeadsChange | src/topics/attention-variants/components/Controls.tsx:22-31 | a new n_q_heads keeps n_kv_heads when it divides it, else the largest smaller divisor (at least 1); n_kv_heads then divides n_q_heads |
| VariantsControls.ScanEndDivisor | src/topics/attention-variants/components/Controls.tsx:25-29 | from n_kv_heads >= 1 the loop stops at the largest divisor of v at or below it, which is at least 1 |
| VariantsControls.KvHeadsChange | src/topics/attention-variants/components/Controls.tsx:33-37 | a new n_kv_heads v keeps n_q_heads when v divides it, else n_q_heads becomes the multiple of v nearest the old value |
| VariantsControls.KvChangeCanZeroQueries | src/topics/attention-variants/components/Controls.tsx:35 | n_q_heads 1 with a new n_kv_heads 4 gives 4 * round(0.25) = 0 query heads |
| VariantsControls.CorrectedQueries | src/topics/attention-variants/components/Controls.tsx:35 | corrected rounding: a multiple of v, at least v, within v/2 of the old value when that is at least v/2 |
| VariantsControls.DModelRecomputed | src/topics/attention-variants/components/Controls.tsx:39 | after every edit d_model is n_q_heads * d_head |
| VariantsControls.ScanNeverStops | src/topics/attention-variants/components/Controls.tsx:26-28 | once the loop cannot stop, its guard holds at every counter value it reaches |
| VariantsControls.ClearedQueryHeadsHang | src/topics/attention-variants/components/Controls.tsx:17-28 | clearing the n_q_heads box gives NaN, and the loop runs forever |
| VariantsControls.OrOneNeverHangs | src/topics/attention-variants/components/Controls.tsx:17-31 | with the parse falling back to 1, no string hangs the updater while n_kv_heads >= 1, and after an n_q_heads change n_kv_heads divides it |
| FixedWeights.StepInRange | src/topics/transformer-explorer/lib/fixedWeights.ts:18 | from a non-negative state the next state (state*9301 + 49297) % 233280 lies in [0, 233280) |
| FixedWeights.StateInRange | src/topics/transformer-explorer/lib/fixedWeights.ts:15-20 | for a seed >= 0 every state after at least one call lies in [0, 233280) |
| FixedWeights.DrawInRange | src/topics/transformer-explorer/lib/fixedWeights.ts:19 | a state in range draws a value in [-1, 1) |
| FixedWeights.SeededRandom.constructor | src/topics/transformer-explorer/lib/fixedWeights.ts:15-16 | the closure's captured state starts at the seed |
| FixedWeights.SeededRandom.Next | src/topics/transformer-explorer/lib/fixedWeights.ts:17-20 | one call advances the state by one step and draws from the new state |
| FixedWeights.FixedVector | src/topics/transformer-explorer/lib/fixedWeights.ts:30-33 | createFixedVector has size entries (none for a negative size) |
| FixedWeights.FixedMatrix | src/topics/transformer-explorer/lib/fixedWeights.ts:23-28 | createFixedMatrix is rows x cols |
| FixedWeights.DrawRun | src/topics/transformer-explorer/lib/fixedWeights.ts:26 | n calls collected in order are draws start+1 .. start+n and leave the state n steps further |
| FixedWeights.CreateFixedMatrix | src/topics/transformer-explorer/lib/fixedWeights.ts:23-28 | one generator fills the rows one after another, entries left to right, giving the reference matrix |
| FixedWeights.CreateFixedVector | src/topics/transformer-explorer/lib/fixedWeights.ts:30-33 | one generator draws size values in order, giving the reference vector |
| FixedWeights.MatrixIsRowMajorVector | src/topics/transformer-explorer/lib/fixedWeights.ts:23-33 | entry (r, c) of the matrix is entry r*cols + c of the vector of rows*cols draws from the same seed |
| FixedWeights.FixedMatrixInRange | src/topics/transformer-explorer/lib/fixedWeights.ts:23-28 | for a seed >= 0 every entry lies in [-1, 1) |
| FixedWeights.FewerRowsArePrefix | src/topics/transformer-explorer/lib/fixedWeights.ts:23-28 | a shorter matrix from the same seed is a prefix of a taller one |
| FixedWeights.VocabFacts | src/topics/transformer-explorer/lib/fixedWeights.ts:39-44 | the vocabulary holds 16 distinct non-empty words, id 15 being "[UNK]" |
| FixedWeights.Heads | src/topics/transformer-explorer/lib/fixedWeights.ts:57-61 | h heads are built (none for h <= 0) |
| FixedWeights.FixedWeightsOf | src/topics/transformer-explorer/lib/fixedWeights.ts:35-107 | n_layers encoder and n_layers decoder layers (none for n_layers <= 0), a 16 x d_model embedding and a d_model x 16 final linear; WeightShapes gives every inner shape |
| FixedWeights.WeightShapes | src/topics/transformer-explorer/lib/fixedWeights.ts:35-107 | the embedding is 16 x d_model, each stack has n_layers layers of h heads with d_model x d_k projections, Wo is d_model x d_model, W1 d_model x d_ff, W2 d_ff x d_model, finalLinear d_model x 16 |
| FixedWeights.EncoderSeeds | src/topics/transformer-explorer/lib/fixedWeights.ts:55-70 | encoder head j of layer l uses seeds 100 + 10l + 3j + 0/1/2, and Wo uses 150 + l |
| FixedWeights.DecoderSeeds | src/topics/transformer-explorer/lib/fixedWeights.ts:72-97 | decoder layer l uses seeds 300 + 20l, 400 + 20l and 500 + 2l in the same pattern; finalLinear uses 999 and the embedding 1 |
| FixedWeights.SharedSeed | src/topics/transformer-explorer/lib/fixedWeights.ts:23-33 | a vector and a matrix from one seed hold the same draws, read row-major |
| FixedWeights.BiasRepeatsW2 | src/topics/transformer-explorer/lib/fixedWeights.ts:66-67 | b1 and W2 of a layer share seed 201 + 2l, so b1 repeats W2's leading entries |
| FixedWeights.BiasRepeatsNextW1 | src/topics/transformer-explorer/lib/fixedWeights.ts:65-68 | b2 of layer l shares seed 202 + 2l with W1 of layer l + 1, so it repeats that matrix's leading entries |
| FixedWeights.HeadSeedsOverlap | src/topics/transformer-explorer/lib/fixedWeights.ts:58-59 | with four or more heads, head 3's Wk of layer l is head 0's Wq of layer l + 1 (seed 110 + 10l) |
| Matrices.Full | src/topics/transformer-explorer/lib/transformer.ts:30-41 | the triple loop leaves len(A) rows of Width(B) sums |
| Matrices.FillProduct | src/topics/transformer-explorer/lib/transformer.ts:30-41 | the triple loop, with its invariants, computes those dot-product sums |
| Matrices.MultiplyMatrices | src/topics/transformer-explorer/lib/transformer.ts:22-42 | multiplyMatrices with its guards computes the guarded product |
| Matrices.MultiplyPlain | src/topics/attention-variants/lib/attention.ts:19-32 | the unguarded multiplyMatrices computes the plain product |
| Matrices.ProductShape | src/topics/transformer-explorer/lib/transformer.ts:23-28 | no rows give [], a zero inner or outer width one empty row per row of A, and otherwise the product is n x p |
| Matrices.ProductShaped | src/topics/transformer-explorer/lib/transformer.ts:22-42 | an n x m by m x p product with m, p positive (or no rows) is n x p |
| Matrices.ProductsAgree | src/hooks/useTransformer.ts:24-40 | where the unguarded copy runs and the inner width is positive, it agrees with the guarded one |
| Matrices.PlainProductOfZeroWidth | src/hooks/useTransformer.ts:24-40 | with a zero inner width the unguarded copy gives rows of zeros where the guarded one gives empty rows |
| Matrices.Identity | src/topics/transformer-explorer/lib/transformer.ts:22-42 | the identity matrix is m x m |
| Matrices.ProductByIdentity | src/topics/transformer-explorer/lib/transformer.ts:22-42 | multiplying by the identity gives A back |
| Matrices.AddMatrices | src/topics/transformer-explorer/lib/transformer.ts:16-20 | the sum has A's shape |
| Matrices.AddCommutes | src/topics/transformer-explorer/lib/transformer.ts:16-20 | on equal shapes the sum does not depend on the order |
| Matrices.AddBias | src/topics/transformer-explorer/lib/transformer.ts:72-74 | adding a bias keeps A's shape |
| Matrices.Broadcast | src/topics/transformer-explorer/lib/transformer.ts:73 | n copies of the bias row form an n x len(b) matrix |
| Matrices.BiasIsBroadcastSum | src/topics/transformer-explorer/lib/transformer.ts:72-74 | adding a bias is adding the matrix whose every row is the bias |
| Matrices.ApplyReLU | src/topics/transformer-explorer/lib/transformer.ts:68-70 | ReLU keeps the shape and leaves no negative entry |
| Matrices.ReluKeepsNonNegative | src/topics/transformer-explorer/lib/transformer.ts:69 | non-negative entries are kept, negative ones become 0 |
| Matrices.ReluIdempotent | src/topics/transformer-explorer/lib/transformer.ts:68-70 | applying ReLU twice is applying it once |
| Matrices.ApplyMask | src/topics/transformer-explorer/lib/transformer.ts:76-80 | the mask keeps the shape |
| Matrices.MaskKeepsLowerTriangle | src/topics/transformer-explorer/lib/transformer.ts:78 | row i keeps its first i + 1 entries and holds the mask value after them |
| Matrices.MaskIdempotent | src/topics/transformer-explorer/lib/transformer.ts:76-80 | masking twice is masking once |
| Matrices.Transpose | src/topics/transformer-explorer/lib/transformer.ts:131 | K_T is rows x cols with K_T[a][b] == K[b][a] |
| Matrices.DotOfTranspose | src/topics/transformer-explorer/lib/transformer.ts:131-133 | multiplying by K_T pairs rows with rows: entry (i, j) sums A's row i against K's row j |
| Matrices.TransposeTwice | src/topics/transformer-explorer/lib/transformer.ts:131 | transposing twice gives the matrix back |
| Matrices.ConcatRows | src/topics/transformer-explorer/lib/transformer.ts:139 | the reduce over the head outputs has n rows |
| Matrices.ConcatRowsShape | src/topics/transformer-explorer/lib/transformer.ts:139 | with every head n x w, the concatenation is n x (heads * w) |
| Matrices.ConcatRowsEntry | src/topics/transformer-explorer/lib/transformer.ts:139 | column k*w + c of the concatenation is column c of head k |
| Matrices.ConcatMatricesHorizontally | src/topics/attention-variants/lib/attention.ts:45-54 | the push loop takes the row count of the first matrix and builds the same rows as the reduce |
| Matrices.SliceTo | src/topics/transformer-explorer/lib/transformer.ts:114 | `.slice(0, end)` is a prefix, end counted from the back when negative and clamped to the length |
| Matrices.Slice | src/topics/attention-variants/lib/attention.ts:76 | a row slice is no longer than the row |
| Matrices.Columns | src/topics/attention-variants/lib/attention.ts:76-80 | slicing every row keeps the row count |
| Matrices.ColumnsOfConcat | src/topics/attention-variants/lib/attention.ts:71-80 | columns [k*w, (k+1)*w) of a concatenation of n x w matrices are matrix k |
| Matrices.MapRows | src/topics/transformer-explorer/lib/transformer.ts:44-66 | a row map keeps the row count |
| Matrices.MapEntries | src/topics/transformer-explorer/lib/transformer.ts:44-46 | an entry map keeps the shape |
| Matrices.MapRowsShape | src/topics/transformer-explorer/lib/transformer.ts:48-66 | a row map that keeps row lengths keeps the shape |
| Transformer.Lift | src/topics/transformer-explorer/lib/transformer.ts:132 | scores are the product entries, one per entry |
| Transformer.ScaleScores | src/topics/transformer-explorer/lib/transformer.ts:44-46 | scaleMatrix keeps the shape of the scores |
| Transformer.SoftmaxByRow | src/topics/transformer-explorer/lib/transformer.ts:48-56 | softmaxByRow keeps the shape |
| Transformer.LayerNorm | src/topics/transformer-explorer/lib/transformer.ts:58-66 | layerNorm gives [] for no rows or an empty first row, and otherwise keeps the shape |
| Transformer.LayerNormShape | src/topics/transformer-explorer/lib/transformer.ts:58-66 | an n x d matrix with d >= 1 normalises to n x d |
| Transformer.AttentionHead | src/topics/transformer-explorer/lib/transformer.ts:125-136 | a head keeps its weights, Q/K/V are n x d_k, Scores and AttentionWeights are queries x keys, HeadOutput is queries x d_k |
| Transformer.ScoresAreQueryKeyProducts | src/topics/transformer-explorer/lib/transformer.ts:131-132 | through K_T, Scores[i][j] is the sum over k of Q[i][k] * K[j][k] |
| Transformer.MaskedScores | src/topics/transformer-explorer/lib/transformer.ts:181 | in the decoder's self-attention the scores above the diagonal are -Infinity and the rest are the unmasked scores |
| Transformer.Ffn | src/topics/transformer-explorer/lib/transformer.ts:144-151 | the feed-forward keeps its weights, Intermediate and Activated are n x d_ff with Activated = ReLU(Intermediate) non-negative, Output is n x d_model |
| Transformer.HeadOutputs | src/topics/transformer-explorer/lib/transformer.ts:137 | headOutputs lists each head's HeadOutput in order |
| Transformer.ConcatOutput | src/topics/transformer-explorer/lib/transformer.ts:139 | the concatenated head outputs are n x (h * d_k) |
| Transformer.MhaOutput | src/topics/transformer-explorer/lib/transformer.ts:141 | ConcatOutput * Wo is n x d_model |
| Transformer.HeadFits | src/topics/transformer-explorer/lib/transformer.ts:124-130 | each head of well-shaped weights gets inputs of the shapes it needs |
| Transformer.HeadOutputsShaped | src/topics/transformer-explorer/lib/transformer.ts:124-138 | heads computed on queries xq all output len(xq) x d_k |
| Transformer.MultiHeadAttention | src/topics/transformer-explorer/lib/transformer.ts:122-142 | the head loop computes and pushes each head in order, and the block output is n x d_model |
| Transformer.EncoderLayer | src/topics/transformer-explorer/lib/transformer.ts:121-153 | the body of the encoder loop builds the layer the reference describes: attention, add-norm, feed-forward, add-norm |
| Transformer.DecoderLayer | src/topics/transformer-explorer/lib/transformer.ts:168-227 | the body of the decoder loop builds the layer the reference describes: masked attention, cross-attention on the encoder output, feed-forward, three add-norms |
| Transformer.EncoderPrefixStep | src/topics/transformer-explorer/lib/transformer.ts:153-154 | one more layer on the latest output extends the encoder chain |
| Transformer.EncoderStack | src/topics/transformer-explorer/lib/transformer.ts:117-156 | the encoder loop builds n_layers layers, each reading the previous one's add_norm_2_output |
| Transformer.DecoderPrefixStep | src/topics/transformer-explorer/lib/transformer.ts:227-228 | one more layer on the latest output extends the decoder chain |
| Transformer.DecoderStack | src/topics/transformer-explorer/lib/transformer.ts:164-230 | the decoder loop builds n_layers layers, each reading the previous one's add_norm_3_output and the final encoder output |
| Transformer.FindFrom | src/topics/transformer-explorer/lib/transformer.ts:104-105 | the scan finds the first id whose word is t, or 15 when none is |
| Transformer.TokenId | src/topics/transformer-explorer/lib/transformer.ts:103-106 | a word's id is a vocabulary id holding that word, or 15 when no id does |
| Transformer.TokenIds | src/topics/transformer-explorer/lib/transformer.ts:103-106 | every word is looked up, in order |
| Transformer.TokenIdOfWord | src/topics/transformer-explorer/lib/transformer.ts:104-105 | looking up a vocabulary word gives back its own id |
| Transformer.DecoderIds | src/topics/transformer-explorer/lib/transformer.ts:159 | the decoder words are ids 1, 7, 8 and 10 |
| Transformer.MaxOf | src/topics/transformer-explorer/lib/transformer.ts:237 | `Math.max(...row)` is an entry of the row and at least every entry |
| Transformer.IndexOf | src/topics/transformer-explorer/lib/transformer.ts:237 | `indexOf` is the first position holding x, -1 exactly when none does |
| Transformer.ArgMax | src/topics/transformer-explorer/lib/transformer.ts:237 | the decoded token is the first position of the largest entry (-1 for an empty row) |
| Transformer.Rows | src/topics/transformer-explorer/lib/transformer.ts:112 | `tokenIds.map(id => E[id])` picks the embedding row of each id |
| Transformer.EmbedTokens | src/topics/transformer-explorer/lib/transformer.ts:111-115 | the embeddings are the rows of the ids, and the encoder input adds the position rows |
| Transformer.DecodeOutput | src/topics/transformer-explorer/lib/transformer.ts:232-238 | logits, probabilities, argmax tokens and their words, as the decoding stage describes |
| Transformer.RunModel | src/topics/transformer-explorer/lib/transformer.ts:111-260 | after the empty check it throws exactly for more than ten words or, with a layer, a decoder length outside 0..4, and otherwise returns the forward pass |
| Transformer.CalculateTransformer | src/topics/transformer-explorer/lib/transformer.ts:92-261 | null exactly when h does not divide d_model or the text has no words (split as `src/lib/tokenizer.ts` splits them); a throw exactly for more than ten words or a bad decoder length; otherwise the forward pass of the fixed weights |
| Transformer.DecoderTokens | src/topics/transformer-explorer/lib/transformer.ts:159 | the decoder reads the first seq_len of <SOS> 我 是 学生 |
| Transformer.ManyWordsRaise | src/topics/transformer-explorer/lib/transformer.ts:114-115 | eleven or more words throw: the position table has ten rows and addMatrices reads row 10 |
| Transformer.CalculateTransformerBounded | src/topics/transformer-explorer/lib/transformer.ts:92-261 | with a ten-word limit, longer texts return null and only the decoder length can make it throw |
| UseTransformer.MathRandom.constructor | src/hooks/useTransformer.ts:10 | a fresh stream of Math.random calls has made no call |
| UseTransformer.MathRandom.Next | src/hooks/useTransformer.ts:10 | the k-th call returns draw(k) and counts one call |
| UseTransformer.RandomBlock | src/hooks/useTransformer.ts:8-12 | entry (r, c) of a random matrix comes from call start + r*cols + c, rounded |
| UseTransformer.CreateRandomVector | src/hooks/useTransformer.ts:14-16 | createRandomVector makes size calls, entry j from call start + j |
| UseTransformer.CreateRandomMatrix | src/hooks/useTransformer.ts:8-12 | createRandomMatrix makes rows * cols calls, the rows drawn one after another |
| UseTransformer.RoundedSum | src/hooks/useTransformer.ts:18-22 | addMatrices keeps A's shape with entries round(A[i][j] + B[i][j]) |
| UseTransformer.RoundedProduct | src/hooks/useTransformer.ts:24-40 | multiplyMatrices is len(A) x Width(B) with each dot product rounded |
| UseTransformer.RoundedScale | src/hooks/useTransformer.ts:42-44 | scaleMatrix keeps the shape with entries round(A[i][j] / s) |
| UseTransformer.RoundedBias | src/hooks/useTransformer.ts:68-70 | addBias keeps the shape with entries round(A[i][j] + b[j]) |
| UseTransformer.UnroundedProductAgrees | src/hooks/useTransformer.ts:24-40 | without the rounding this copy computes the guarded product of transformer.ts |
| UseTransformer.RoundedProductShaped | src/hooks/useTransformer.ts:24-40 | n x m times m x p with n, m >= 1 gives n x p |
| UseTransformer.HeadFrom | src/hooks/useTransformer.ts:112-121 | a head keeps its weights; Q, K, V are n x d_k, the three score matrices n x n, HeadOutput n x d_k |
| UseTransformer.HeadScores | src/hooks/useTransformer.ts:116-117 | Scores[i][j] is the rounded sum over k of Q[i][k] * K[j][k] |
| UseTransformer.AttentionHead | src/hooks/useTransformer.ts:108-123 | Wq, Wk, Wv are drawn in that order, 3 * d_model * d_k calls, and the head is computed with them |
| UseTransformer.HeadOutputs | src/hooks/useTransformer.ts:124 | headOutputs lists each head's HeadOutput in order |
| UseTransformer.HeadOutputsShaped | src/hooks/useTransformer.ts:107-125 | heads computed on x all output len(x) x d_k |
| UseTransformer.MhaOutput | src/hooks/useTransformer.ts:126-128 | ConcatOutput * Wo is n x d_model |
| UseTransformer.MultiHeadAttention | src/hooks/useTransformer.ts:105-129 | the head loop, then Wo drawn and Output computed, as the reference describes |
| UseTransformer.FfnFrom | src/hooks/useTransformer.ts:138-145 | Intermediate and Activated are n x d_ff with Activated = ReLU(Intermediate) non-negative, and Output is n x d_model |
| UseTransformer.FeedForward | src/hooks/useTransformer.ts:138-145 | W1, b1, W2 and b2 are drawn in that order around the two products |
| UseTransformer.NormRows | src/hooks/useTransformer.ts:55-62 | layerNorm keeps the shape |
| UseTransformer.EncoderLayer | src/hooks/useTransformer.ts:104-162 | the body of the layer loop builds the layer the reference describes |
| UseTransformer.ChainStep | src/hooks/useTransformer.ts:153-164 | pushing the next layer built on currentInput keeps the chain, and currentInput becomes its add_norm_2_out |
| UseTransformer.ChainWired | src/hooks/useTransformer.ts:132-164 | a chain of layers is wired residual to residual |
| UseTransformer.ResidualWiring | src/hooks/useTransformer.ts:132 | layer 0's residual input is the encoder input, and layer i + 1's is layer i's add_norm_2_out (also line 164) |
| UseTransformer.LayerFactsOf | src/hooks/useTransformer.ts:104-162 | one layer built on x has h heads and the shapes of len(x) rows throughout |
| UseTransformer.ChainFacts | src/hooks/useTransformer.ts:103-165 | a chain on n x d_model input has those facts on n rows and leaves n rows |
| UseTransformer.FactsAt | src/hooks/useTransformer.ts:103-165 | so does each layer on its own |
| UseTransformer.PosEncodings | src/hooks/useTransformer.ts:91-97 | the position table is seq_len x d_model, each entry the rounded sine/cosine value of its position and index |
| UseTransformer.UseTransformer | src/hooks/useTransformer.ts:82-178 | null exactly when h does not divide d_model or a layer is built on an empty input (the exception caught); otherwise the data |
| UseTransformer.HookLayers | src/hooks/useTransformer.ts:103-165 | in a successful result, layer i has h heads, seq_len rows throughout, a non-negative Activated, and its residual input is the encoder input or layer i-1's add_norm_2_out |
| Attention.SeededMatrix | src/topics/attention-variants/lib/attention.ts:6-17 | createMatrix is rows x cols, and entry (r, c) is the rounded draw taken after r*cols + c + 1 steps of the seeded generator |
| Attention.UnroundedIsFixedMatrix | src/topics/attention-variants/lib/attention.ts:6-17 | without the two-decimal rounding this generator and fill order give exactly the explorer's fixed matrix for the same seed |
| Attention.RoundedRun | src/topics/attention-variants/lib/attention.ts:8 | n calls of the generator advance its state by n steps and give the n rounded draws in order |
| Attention.CreateMatrix | src/topics/attention-variants/lib/attention.ts:6-9 | the row-by-row fill from one generator builds the seeded matrix |
| Attention.CreateMatrices | src/topics/attention-variants/lib/attention.ts:104-106 | the weight list has n matrices and matrix i is seeded with base + i |
| Attention.Clamp | src/topics/attention-variants/lib/attention.ts:76 | a slice bound, negative ones counted from the end, lands in [0, n] |
| Attention.JsSlice | src/topics/attention-variants/lib/attention.ts:76 | a slice of a row is never longer than the row |
| Attention.JsColumns | src/topics/attention-variants/lib/attention.ts:76-80 | the column slice keeps every row and slices each one alike |
| Attention.GroupSlice | src/topics/attention-variants/lib/attention.ts:79-80 | a group that exists gets exactly its d_head columns; group -1 or a group past the end gets empty rows; the first row is non-empty if and only if the group exists |
| Attention.KvGroupIsTracerGroup | src/topics/attention-variants/lib/attention.ts:68-78 | for v >= 1 the floor of i / (n_q / v) equals the floor of i*v / n_q, the group the attention-variants tracer uses |
| Attention.KvGroupNegative | src/topics/attention-variants/lib/attention.ts:68-78 | with a negative kv count head 0 reads group 0 and head 1 reads group -1 |
| Attention.KvGroupRules | src/topics/attention-variants/lib/attention.ts:68 | for 1 <= v <= n_q every head's group is below v; MHA maps head i to group i and MQA maps every head to group 0 (also lines 78, 110-112) |
| Attention.Projections | src/topics/attention-variants/lib/attention.ts:70-72 | one product of the input with each weight, in weight order |
| Attention.ProjectionsShaped | src/topics/attention-variants/lib/attention.ts:70-72 | an n x d_model input times d_model x d_head weights gives n x d_head projections |
| Attention.HeadAt | src/topics/attention-variants/lib/attention.ts:76-88 | head i's q is its own d_head columns of Q_proj, k and v are its group's columns, Scores and Weights are n x n and Output is n x d_head |
| Attention.HeadOutputs | src/topics/attention-variants/lib/attention.ts:91 | the outputs are taken one per head, in head order |
| Attention.HeadOutputsShaped | src/topics/attention-variants/lib/attention.ts:75-89 | every head the loop built outputs n x d_head |
| Attention.Project | src/topics/attention-variants/lib/attention.ts:70-72 | the joined projection is the horizontal join of input times each weight |
| Attention.HeadLoop | src/topics/attention-variants/lib/attention.ts:75-89 | the loop throws exactly when v < 0, or v > n_q and (n_q - 1)*v >= n_q squared; otherwise it records n_q heads, each on its own query columns and its group's key and value columns |
| Attention.NextHead | src/topics/attention-variants/lib/attention.ts:76-88 | one round of the head loop stops (the throw) exactly at head 1 when v < 0 and, for v >= 1, only when v > n_q and (n_q - 1)*v >= n_q squared; otherwise the head is the one on its grouped-query group's columns |
| Attention.GroupTooLarge | src/topics/attention-variants/lib/attention.ts:71-82 | a head whose group lies past the joined key projections exists only when v > n_q and (n_q - 1)*v >= n_q squared |
| Attention.LastGroupFits | src/topics/attention-variants/lib/attention.ts:75-89 | when the last head's group fits, no head's slice is empty and nothing throws |
| Attention.CombineHeads | src/topics/attention-variants/lib/attention.ts:91-92 | CombinedOutput joins the head outputs side by side and FinalOutput is CombinedOutput times Wo |
| Attention.HeadsStep | src/topics/attention-variants/lib/attention.ts:88 | pushing the next head, built for its group, keeps the loop's record of all heads so far |
| Attention.CalculateAttention | src/topics/attention-variants/lib/attention.ts:66-95 | calculateAttention throws if and only if v <= 0, or v > n_q and (n_q - 1)*v >= n_q squared; otherwise it returns the projections, the heads, CombinedOutput and FinalOutput as defined above |
| Attention.HeadReads | src/topics/attention-variants/lib/attention.ts:70-80 | head i's Q is input times Wq[i] and its K and V are input times the key and value weights of its group |
| Attention.HeadsReadTheirWeights | src/topics/attention-variants/lib/attention.ts:71-80 | in a computed variant head i reads Wq[i] and Wk[g], Wv[g] for g = floor(i*v / n_q) < v: only the first v key and value weights are used |
| Attention.SeededInputs | src/topics/attention-variants/lib/attention.ts:103-107 | the seeded input and weights have the shapes calculateAttention needs |
| Attention.CalculateAttentionVariants | src/topics/attention-variants/lib/attention.ts:97-124 | null exactly when d_model differs from n_q_heads * d_head; past that guard throws exactly when there is no query head, no input row or no positive d_head, or the GQA variant throws; otherwise returns the seeded input and weights, the MHA, MQA and GQA variants with n_q, 1 and n_kv key heads, and the four seeded MLA matrices |
| Attention.VariantsWithinRange | src/topics/attention-variants/lib/attention.ts:110-112 | past the guard, with positive dims and 1 <= n_kv_heads <= n_q_heads, no variant throws |
| Attention.ZeroQueryHeadsThrow | src/topics/attention-variants/lib/attention.ts:100-110 | n_q 1 and n_kv 4 give 0 query heads and d_model 0, which pass the guard; the MHA call then throws joining its Q projections, of which there are none (also lines 46, 70) |
| Attention.CorrectedQueriesCompute | src/topics/attention-variants/lib/attention.ts:97-124 | with the corrected rounding of the query heads, any new n_kv_heads >= 1 leaves dims the builder computes without null or a throw |

## Left out

- Floating-point numerics are parameters. These include softmax by row, layer normalisation, scaling by the square root of d_k or d_head, `Math.exp`/`Math.sqrt`, and the sine/cosine position table of `useTransformer`. The model states shapes, index arithmetic and wiring, never values.
- `Math.random`, which `useTransformer` calls once per weight entry, is a stream of draws (`UseTransformer.MathRandom`). The order of the calls is modelled; the values are not.
- The `parseFloat(x.toFixed(2))` rounding of `useTransformer` and of the attention-variants `createMatrix` is a `round` parameter.
- The explorer's sine/cosine `posEncodings` table is a parameter: ten rows, each d_model wide. Its values are float arithmetic.
- AppTrace.ClickSources: requires h > 0. The three head-column rules divide by d_k = d_model / h, and the source never checks h there.
- ExplorerTracing.CreateBackwardHighlight: requires a clicked `inputEmbeddings` row to lie within the tokenised input. For another row the source reads `tokenizedInput[row]` as undefined and builds a source with an undefined row, which a sequence of integers cannot hold.
- ExplorerTracing.LookupOfTopName: proves only that every listed top-level name is found as its stored matrix. That lookups of names outside the list give undefined is not proved for top-level names: the case analysis over every name is too costly. It is proved for the encoder, decoder and head branches.
- VariantsTracing.CreateBackwardHighlight: requires the width of head 0's Output not to be 0. With width 0 the source divides the column by 0 and builds names from Infinity and NaN.
- Transformer.CalculateTransformer: requires d_model, h and d_ff of at least 1. The explorer's controls read every typed value through `parseInt(value) || 1`, so these are the values the explorer passes. A negative typed value is outside the model.
- UseTransformer.UseTransformer: requires d_model, h and d_ff of at least 1. The controls App.tsx renders come from `src/components/Controls.tsx`, which is not part of this model; its earlier copy in `zcreate.py` (lines 649-690) reads every typed value through `parseInt(value, 10) || 1`, as the explorer's controls do. A negative typed value is outside the model.
- Transformer.CalculateTransformer: states the forward pass as a whole. The model has no lemma that pulls out the facts of one given encoder or decoder layer: an induction over the layer chain was too costly. `UseTransformer` has such a lemma (`UseTransformer.FactsAt`).
- Attention.KvGroup: the source computes n_q_heads / n_kv_heads in floating point and then divides by it. The model computes the exact rational floor ⌊i / (n_q / n_kv)⌋ over `real`. The two can differ only where floating-point rounding crosses an integer, which the model does not capture.
- Attention.CalculateAttentionVariants: dims are integers. NaN or fractional dims are outside the model.
- The tooltip builders `generateTooltipData` of both tracers are left out: they are float dot-product arithmetic. So are the `symbolMapping` label files, `formatNumber`, the SVG path builders and every rendering component.
- React plumbing is left out: `setHighlight`, `useMemo`, `useEffect` scheduling, `setTimeout`/`scrollIntoView`, and the drag, resize and split-pane hooks. The animation controllers' timers are the discrete `Tick` methods.
- The copies of `getVisibleIndices` in `CalculationTooltip.tsx` and `InteractiveMatMulVisualizer.tsx` are not separate members. They are the same code with other defaults, and `ArrayUtils.GetVisibleIndices` takes the sizes as parameters.
- The explorer's encoder residual ids are traced as written but get no parse lemma. `EncoderLayer.tsx`, which builds them, is not part of this model; the decoder ids of `DecoderLayer.tsx` get one.
- `src/topics/transformer-explorer/lib/tokenizer.ts` is not part of this model. `transformer.ts` imports its `whitespaceTokenizer` from that file (`./tokenizer`, line 4), not from `src/lib/tokenizer.ts`. The model assumes the two behave alike: `Transformer.CalculateTransformer`, `Transformer.CalculateTransformerBounded` and `Transformer.ManyWordsRaise` tokenise with `Tokenizer.WhitespaceTokenizer`, which models `src/lib/tokenizer.ts`.
- `attention-logic.ts` is an unrounded duplicate of the attention arithmetic and is not part of this model. It adds nothing to the structure.

## Findings

| source | as written | input that shows it | evidently intended | confidence | as-written member | corrected member |
|---|---|---|---|---|---|---|
| src/topics/transformer-explorer/lib/tracing.ts:292 | the rule for an attention block's output adds a ConcatOutput source, but the matrix-name records have no ConcatOutput key, so the name is undefined and the first `.match` on it throws | a click on any cell of `encoder.0.mha_output` | the output traces back to the ConcatOutput row and the Wo column | not executed | ExplorerTracing.BlockOutputCrashes | ExplorerTracing.BlockOutputReadsConcat |
| src/topics/attention-variants/components/Controls.tsx:17-28 | a cleared or non-numeric n_q_heads box parses as NaN; `NaN % k` is never 0, so the loop decrementing n_kv_heads never ends | n_q_heads set to the empty string | an unparsable value falls back to a default and the handler ends | not executed | VariantsControls.ClearedQueryHeadsHang | VariantsControls.OrOneNeverHangs |
| src/topics/transformer-explorer/lib/transformer.ts:114-115 | the position table has ten rows, and a text of more than ten words makes `addMatrices` read a missing row and throw; the explorer's hook (`hooks/useTransformer.ts` lines 31-42) catches the throw and returns null, so the page already shows what the corrected member returns, and only `calculateTransformer`'s own contract differs; the word count assumes that the explorer's own `./tokenizer`, which is not part of this model, splits words as `src/lib/tokenizer.ts` does | a text of eleven words | longer texts are refused with null, as an empty text is | not executed | Transformer.ManyWordsRaise | Transformer.CalculateTransformerBounded |
| src/topics/attention-variants/components/Controls.tsx:35 | a new n_kv_heads larger than twice n_q_heads rounds n_q_heads to 0, and d_model becomes 0; this passes the builder's guard, and the builder throws at the join of the Q projections (attention.ts line 70), reading `matrices[0]` of an empty list at line 46; `useAttention.ts` lines 21-26 catch the throw, so the page shows no attention data rather than crashing | n_q_heads 1, then n_kv_heads 4 | n_q_heads stays a positive multiple of n_kv_heads | not executed | VariantsControls.KvChangeCanZeroQueries | VariantsControls.CorrectedQueries |
