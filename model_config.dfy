/**
 * Inferring encoder hyper-parameters from a checkpoint's tensor shapes
 * (egs/spanish/ASR/extract_model_config.py).
 *
 * One pass over the `(key, tensor)` entries of `ckpt["model"]` fills the sets
 * of candidate dimensions, the per-layer structure and the table of tensor
 * shapes, using substring tests on the key and a scan for
 * `encoder.encoders.<n>.`; the suggested command-line strings are then built
 * from the sorted sets. Loading the checkpoint and printing are outside the model.
 */
module ModelConfig {
  import opened Wrappers
  import opened Strings

  /** An entry of `ckpt["model"]`: its key and, when the value is a tensor, its shape. */
  datatype Entry = Entry(key: string, shape: Option<seq<nat>>)

  /** What `layer_structure[n]` holds; a field is `None` until some key sets it. */
  datatype Layer = Layer(ffIn: Option<nat>, ffOut: Option<nat>, ffHidden: Option<nat>,
                         attnDim: Option<nat>, numHeads: Option<nat>, kernelSize: Option<nat>)

  /** The `config` dictionary together with `tensor_shapes`. */
  datatype Config = Config(encoderDims: set<nat>, feedforwardDims: set<nat>, kernelSizes: set<nat>,
                           attentionDims: set<nat>, numHeads: set<nat>, layers: map<nat, Layer>,
                           tensorShapes: map<string, seq<nat>>)

  /** The pass raised on this key: `IndexError` on a missing dimension, `ZeroDivisionError` on `// 0`. */
  datatype ShapeError = IndexOutOfRange(key: string) | DivisionByZero(key: string)

  const EmptyLayer: Layer := Layer(None, None, None, None, None, None)
  const EmptyConfig: Config := Config({}, {}, {}, {}, {}, map[], map[])
  const LayerPrefix: string := "encoder.encoders."

  // ---------------------------------------------------------------------
  // The layer-index scan standing for `re.search(r'encoder\.encoders\.(\d+)\.', key)`
  // ---------------------------------------------------------------------

  /** The pattern matched at the very start of `s`, giving the value of its digits. */
  function MatchLayerAt(s: string): Option<nat>
  {
    if IsPrefix(LayerPrefix, s) then
      var rest := s[|LayerPrefix|..];
      var ds := LeadingDigits(rest);
      if |ds| > 0 && |ds| < |rest| && rest[|ds|] == '.' then Some(DigitsValue(ds)) else None
    else None
  }

  /** The leftmost match of the pattern in `key` at or after position `from`. */
  function ScanFrom(key: string, from: nat): Option<nat>
    decreases |key| - from
  {
    if from >= |key| then None
    else match MatchLayerAt(key[from..])
      case Some(n) => Some(n)
      case None => ScanFrom(key, from + 1)
  }


  /** A found index is the one matched at some position `i` from `from` on, with no match before it. */
  lemma {:induction false} ScanFromFound(key: string, from: nat) returns (i: nat)
    requires ScanFrom(key, from).Some?
    ensures from <= i < |key| && MatchLayerAt(key[i..]) == ScanFrom(key, from)
    ensures forall j :: from <= j < i ==> MatchLayerAt(key[j..]).None?
    decreases |key| - from
  {
    if MatchLayerAt(key[from..]).Some? {
      i := from;
    } else {
      assert ScanFrom(key, from) == ScanFrom(key, from + 1);
      i := ScanFromFound(key, from + 1);
      forall j | from <= j < i ensures MatchLayerAt(key[j..]).None? {
        if j > from {
          assert from + 1 <= j < i;
        }
      }
    }
  }

  /** No index is found only when no position from `from` on matches. */
  lemma {:induction false} ScanFromNone(key: string, from: nat)
    requires ScanFrom(key, from).None?
    ensures forall j :: from <= j < |key| ==> MatchLayerAt(key[j..]).None?
    decreases |key| - from
  {
    if from < |key| {
      assert MatchLayerAt(key[from..]).None?;
      ScanFromNone(key, from + 1);
      forall j | from <= j < |key| ensures MatchLayerAt(key[j..]).None? {
        if j == from {
          assert key[j..] == key[from..];
        }
      }
    }
  }

  /**
   * The scan from the start finds the leftmost position where the pattern
   * matches: a found index is the one matched at some position `i`, and no
   * earlier position matches; no index is found only when no position matches.
   */
  lemma ScanFromLeftmost(key: string)
    ensures ScanFrom(key, 0).Some? ==> exists i :: LeftmostMatchAt(key, i, ScanFrom(key, 0).value)
    ensures ScanFrom(key, 0).None? ==> NoMatch(key)
  {
    if ScanFrom(key, 0).Some? {
      var i := ScanFromFound(key, 0);
      assert LeftmostMatchAt(key, i, ScanFrom(key, 0).value);
    } else {
      ScanFromNone(key, 0);
    }
  }

  /** The pattern matches at position `i` of `key` with index `n`, and at no earlier position. */
  predicate LeftmostMatchAt(key: string, i: nat, n: nat)
  {
    i < |key| && MatchLayerAt(key[i..]) == Some(n) && forall j :: 0 <= j < i ==> MatchLayerAt(key[j..]).None?
  }

  /** The pattern matches at no position of `key`. */
  predicate NoMatch(key: string)
  {
    forall j :: 0 <= j < |key| ==> MatchLayerAt(key[j..]).None?
  }

  /**
   * `re.search(r'encoder\.encoders\.(\d+)\.', key)`: the index matched at the
   * leftmost position where the pattern matches, or `None` when it matches nowhere.
   */
  function LayerIndex(key: string): (r: Option<nat>)
    ensures r.Some? ==> exists i :: LeftmostMatchAt(key, i, r.value)
    ensures r.None? ==> NoMatch(key)
  {
    ScanFromLeftmost(key);
    ScanFrom(key, 0)
  }

  // ---------------------------------------------------------------------
  // One entry
  // ---------------------------------------------------------------------

  predicate IsEncoderWeight(key: string)
  {
    Contains(key, "encoder.encoders") && Contains(key, "weight")
  }

  predicate IsFeedforwardWeight(key: string)
  {
    Contains(key, "feed_forward") && Contains(key, "linear") && Contains(key, "weight")
  }

  predicate IsConvWeight(key: string)
  {
    Contains(key, "cnn_module") && Contains(key, "conv") && Contains(key, "weight")
  }

  /**
   * What one entry adds to `encoder_dims`: of a 2-D tensor whose key names an
   * encoder-layer weight, both dimensions that lie in (100, 1000); nothing else.
   */
  function EncoderDimsOf(e: Entry): (r: set<nat>)
    ensures forall d :: d in r ==> 100 < d < 1000 && e.shape.Some? && d in e.shape.value
    ensures e.shape.None? || !IsEncoderWeight(e.key) || |e.shape.value| != 2 ==> r == {}
    ensures e.shape.Some? && IsEncoderWeight(e.key) && |e.shape.value| == 2 ==>
              forall j :: 0 <= j < 2 && 100 < e.shape.value[j] < 1000 ==> e.shape.value[j] in r
  {
    match e.shape
    case None => {}
    case Some(shape) =>
      if IsEncoderWeight(e.key) && |shape| == 2 then set d | d in shape && 100 < d < 1000 else {}
  }

  /**
   * What one entry adds to `feedforward_dims`: of a tensor whose key names a
   * feed-forward linear weight, every dimension above 500; nothing else.
   */
  function FeedforwardDimsOf(e: Entry): (r: set<nat>)
    ensures forall d :: d in r ==> d > 500 && e.shape.Some? && d in e.shape.value
    ensures e.shape.None? || !IsFeedforwardWeight(e.key) ==> r == {}
    ensures e.shape.Some? && IsFeedforwardWeight(e.key) ==>
              forall j :: 0 <= j < |e.shape.value| && e.shape.value[j] > 500 ==> e.shape.value[j] in r
  {
    match e.shape
    case None => {}
    case Some(shape) => if IsFeedforwardWeight(e.key) then set d | d in shape && d > 500 else {}
  }

  /**
   * What one entry adds to `kernel_sizes`: the third dimension of a tensor of
   * rank at least 3 whose key names a convolution weight, when it exceeds 1.
   */
  function KernelSizesOf(e: Entry): (r: set<nat>)
    ensures r != {} <==> e.shape.Some? && IsConvWeight(e.key) && |e.shape.value| >= 3 && e.shape.value[2] > 1
    ensures r != {} ==> r == {e.shape.value[2]}
  {
    match e.shape
    case None => {}
    case Some(shape) => if IsConvWeight(e.key) && |shape| >= 3 && shape[2] > 1 then {shape[2]} else {}
  }

  /** Which arm of the `if`/`elif` chain of lines 59-70 a key with a layer index takes. */
  datatype Branch = Linear1 | Linear2 | QProj | OutProj | ConvKernel | NoBranch

  function BranchOf(key: string, shape: seq<nat>): Branch
  {
    if Contains(key, "feed_forward") && Contains(key, "linear1.weight") then Linear1
    else if Contains(key, "feed_forward") && Contains(key, "linear2.weight") then Linear2
    else if Contains(key, "self_attn") && Contains(key, "q_proj.weight") then QProj
    else if Contains(key, "self_attn") && Contains(key, "out_proj.weight") then OutProj
    else if IsConvWeight(key) && |shape| >= 3 then ConvKernel
    else NoBranch
  }

  /** The fields of a layer an arm writes: `(ff_in, ff_out)`, `ff_hidden`, `attn_dim`, `num_heads` or `kernel_size`. */
  function GroupOf(l: Layer, b: Branch): (Option<nat>, Option<nat>)
  {
    match b
    case Linear1 => (l.ffIn, l.ffOut)
    case Linear2 => (l.ffHidden, None)
    case QProj => (l.attnDim, None)
    case OutProj => (l.numHeads, None)
    case ConvKernel => (l.kernelSize, None)
    case NoBranch => (None, None)
  }

  /**
   * The values an arm writes: `shape[1]` and `shape[0]` for linear1, `shape[1]`
   * for linear2 and q_proj, `shape[1] // shape[0]` for out_proj, `shape[2]` for
   * a convolution; nothing where the arm raises.
   */
  function Written(shape: seq<nat>, b: Branch): (Option<nat>, Option<nat>)
  {
    match b
    case Linear1 => if |shape| >= 2 then (Some(shape[1]), Some(shape[0])) else (None, None)
    case Linear2 => if |shape| >= 2 then (Some(shape[1]), None) else (None, None)
    case QProj => if |shape| >= 2 then (Some(shape[1]), None) else (None, None)
    case OutProj => if |shape| >= 2 && shape[0] != 0 then (Some(shape[1] / shape[0]), None) else (None, None)
    case ConvKernel => if |shape| >= 3 then (Some(shape[2]), None) else (None, None)
    case NoBranch => (None, None)
  }

  /** The arm raises: `IndexError` on a missing `shape[1]`, `ZeroDivisionError` on `// 0`. */
  predicate Raises(key: string, shape: seq<nat>)
  {
    var b := BranchOf(key, shape);
    ((b == Linear1 || b == Linear2 || b == QProj || b == OutProj) && |shape| < 2)
    || (b == OutProj && |shape| >= 2 && shape[0] == 0)
  }

  /** `layer_structure[n]` as the `defaultdict` reads it: empty until first written. */
  function LayerAt(layers: map<nat, Layer>, n: nat): Layer
  {
    if n in layers then layers[n] else EmptyLayer
  }

  /**
   * The `elif` chain for a key whose layer index is `n`. It raises exactly in
   * the two cases of `Raises`; otherwise the arm's fields of layer `n` get the
   * values the arm writes, the other fields and every other layer are kept, and
   * of the sets only `attention_dims` may grow, by the q_proj dimension.
   */
  function UpdateLayer(c: Config, n: nat, key: string, shape: seq<nat>): (r: Result<Config, ShapeError>)
    ensures r.Err? <==> Raises(key, shape)
    ensures r.Err? ==> r.error.key == key
    ensures r.Ok? && BranchOf(key, shape) == NoBranch ==> r.value == c
    ensures r.Ok? && BranchOf(key, shape) != NoBranch ==>
              && n in r.value.layers
              && GroupOf(r.value.layers[n], BranchOf(key, shape)) == Written(shape, BranchOf(key, shape))
              && forall b :: b != BranchOf(key, shape) ==> GroupOf(r.value.layers[n], b) == GroupOf(LayerAt(c.layers, n), b)
    ensures r.Ok? ==>
              && r.value.layers.Keys <= c.layers.Keys + {n}
              && (forall m :: m in c.layers && m != n ==> m in r.value.layers && r.value.layers[m] == c.layers[m])
              && r.value.(layers := c.layers, attentionDims := c.attentionDims) == c
              && r.value.attentionDims == c.attentionDims + (if BranchOf(key, shape) == QProj then {shape[1]} else {})
  {
    var layer := LayerAt(c.layers, n);
    match BranchOf(key, shape)
    case Linear1 =>
      if |shape| < 2 then Err(IndexOutOfRange(key))
      else Ok(c.(layers := c.layers[n := layer.(ffIn := Some(shape[1]), ffOut := Some(shape[0]))]))
    case Linear2 =>
      if |shape| < 2 then Err(IndexOutOfRange(key))
      else Ok(c.(layers := c.layers[n := layer.(ffHidden := Some(shape[1]))]))
    case QProj =>
      if |shape| < 2 then Err(IndexOutOfRange(key))
      else Ok(c.(layers := c.layers[n := layer.(attnDim := Some(shape[1]))],
                 attentionDims := c.attentionDims + {shape[1]}))
    case OutProj =>
      if |shape| < 2 then Err(IndexOutOfRange(key))
      else if shape[0] == 0 then Err(DivisionByZero(key))
      else Ok(c.(layers := c.layers[n := layer.(numHeads := Some(shape[1] / shape[0]))]))
    case ConvKernel =>
      Ok(c.(layers := c.layers[n := layer.(kernelSize := Some(shape[2]))]))
    case NoBranch => Ok(c)
  }

  /** One iteration of the loop over the checkpoint entries. */
  function Step(c: Config, e: Entry): Result<Config, ShapeError>
  {
    match e.shape
    case None => Ok(c)
    case Some(shape) =>
      var c' := c.(tensorShapes := c.tensorShapes[e.key := shape],
                   encoderDims := c.encoderDims + EncoderDimsOf(e),
                   feedforwardDims := c.feedforwardDims + FeedforwardDimsOf(e),
                   kernelSizes := c.kernelSizes + KernelSizesOf(e));
      match LayerIndex(e.key)
      case None => Ok(c')
      case Some(n) => UpdateLayer(c', n, e.key, shape)
  }

  /** The configuration after the whole loop, or the error it stops on. */
  function Analyze(entries: seq<Entry>): Result<Config, ShapeError>
    decreases |entries|
  {
    if entries == [] then Ok(EmptyConfig)
    else match Analyze(entries[..|entries| - 1])
      case Err(e) => Err(e)
      case Ok(c) => Step(c, entries[|entries| - 1])
  }

  /** The loop of lines 26-70: updates `config` and `tensor_shapes` entry by entry. */
  method AnalyzeCheckpoint(entries: seq<Entry>) returns (r: Result<Config, ShapeError>)
    ensures r == Analyze(entries)
  {
    var config := EmptyConfig;
    var i := 0;
    while i < |entries|
      invariant i <= |entries|
      invariant Analyze(entries[..i]) == Ok(config)
    {
      AnalyzeExtend(entries, i);
      var next := ProcessEntry(config, entries[i]);
      if next.Err? {
        AnalyzeErrorPersists(entries, i + 1);
        return next;
      }
      config := next.value;
      i := i + 1;
    }
    assert entries[..|entries|] == entries;
    r := Ok(config);
  }

  /** `for dim in shape: if 100 < dim < 1000: encoder_dims.add(dim)` */
  method AddEncoderDims(dims: set<nat>, shape: seq<nat>) returns (dims': set<nat>)
    ensures dims' == dims + set d | d in shape && 100 < d < 1000
  {
    dims' := dims;
    for j := 0 to |shape|
      invariant dims' == dims + set d | d in shape[..j] && 100 < d < 1000
    {
      assert shape[..j + 1] == shape[..j] + [shape[j]];
      if 100 < shape[j] < 1000 {
        dims' := dims' + {shape[j]};
      }
    }
    assert shape[..|shape|] == shape;
  }

  /** `for dim in shape: if dim > 500: feedforward_dims.add(dim)` */
  method AddFeedforwardDims(dims: set<nat>, shape: seq<nat>) returns (dims': set<nat>)
    ensures dims' == dims + set d | d in shape && d > 500
  {
    dims' := dims;
    for j := 0 to |shape|
      invariant dims' == dims + set d | d in shape[..j] && d > 500
    {
      assert shape[..j + 1] == shape[..j] + [shape[j]];
      if shape[j] > 500 {
        dims' := dims' + {shape[j]};
      }
    }
    assert shape[..|shape|] == shape;
  }

  /** The body of the loop for one entry. */
  method ProcessEntry(config: Config, e: Entry) returns (r: Result<Config, ShapeError>)
    ensures r == Step(config, e)
  {
    if e.shape.None? {
      return Ok(config);
    }
    var key, shape := e.key, e.shape.value;
    var encoderDims, feedforwardDims, kernelSizes := config.encoderDims, config.feedforwardDims, config.kernelSizes;
    if IsEncoderWeight(key) && |shape| == 2 {
      encoderDims := AddEncoderDims(encoderDims, shape);
    }
    if IsFeedforwardWeight(key) {
      feedforwardDims := AddFeedforwardDims(feedforwardDims, shape);
    }
    if IsConvWeight(key) {
      if |shape| >= 3 && shape[2] > 1 {
        kernelSizes := kernelSizes + {shape[2]};
      }
    }
    assert encoderDims == config.encoderDims + EncoderDimsOf(e);
    assert feedforwardDims == config.feedforwardDims + FeedforwardDimsOf(e);
    assert kernelSizes == config.kernelSizes + KernelSizesOf(e);
    var c := config.(tensorShapes := config.tensorShapes[key := shape], encoderDims := encoderDims,
                     feedforwardDims := feedforwardDims, kernelSizes := kernelSizes);
    var m := LayerIndex(key);
    if m.Some? {
      r := UpdateLayer(c, m.value, key, shape);
    } else {
      r := Ok(c);
    }
  }

  // ---------------------------------------------------------------------
  // Sorting and the suggestion strings
  // ---------------------------------------------------------------------

  predicate IsLeast(m: nat, s: set<nat>)
  {
    m in s && forall x :: x in s ==> m <= x
  }

  lemma {:induction false} MinimumExists(s: set<nat>)
    requires s != {}
    ensures exists m :: IsLeast(m, s)
    decreases |s|
  {
    var y :| y in s;
    var rest := s - {y};
    if rest == {} {
      forall x | x in s ensures y <= x {
        assert x !in rest;
      }
      assert IsLeast(y, s);
    } else {
      MinimumExists(rest);
      var m :| IsLeast(m, rest);
      var least := if y < m then y else m;
      forall x | x in s ensures least <= x {
        if x != y {
          assert x in rest;
        }
      }
      assert IsLeast(least, s);
    }
  }

  function Minimum(s: set<nat>): (m: nat)
    requires s != {}
    ensures m in s && forall x :: x in s ==> m <= x
  {
    MinimumExists(s);
    var m :| IsLeast(m, s);
    m
  }

  /** Python's `sorted(s)`: the elements of the set in increasing order. */
  function SortedSeq(s: set<nat>): (r: seq<nat>)
    ensures |r| == |s|
    ensures forall x :: x in r <==> x in s
    ensures forall i, j :: 0 <= i < j < |r| ==> r[i] < r[j]
    decreases |s|
  {
    if s == {} then []
    else
      var m := Minimum(s);
      [m] + SortedSeq(s - {m})
  }

  /** Python's `xs * n`. */
  function Repeat<T>(xs: seq<T>, n: nat): (r: seq<T>)
    ensures |r| == |xs| * n
  {
    if n == 0 then [] else xs + Repeat(xs, n - 1)
  }

  /** `[str(d) for d in ds]` */
  function Decimals(ds: seq<nat>): (r: seq<string>)
    ensures |r| == |ds|
    ensures forall i :: 0 <= i < |ds| ==> r[i] == NatToString(ds[i])
  {
    if ds == [] then [] else [NatToString(ds[0])] + Decimals(ds[1..])
  }

  /**
   * `",".join([str(d) for d in sorted(values)] * times)`: empty when there is
   * nothing to join; otherwise its comma-separated fields are the decimals of
   * the sorted values, repeated `times` times (`SuggestionFields`).
   */
  function Suggestion(values: set<nat>, times: nat): (r: string)
    ensures values == {} || times == 0 ==> r == []
    ensures values != {} && times >= 1 ==> Split(r, ',') == Repeat(Decimals(SortedSeq(values)), times)
  {
    if values != {} && times >= 1 then
      SuggestionFields(values, times);
      Join(Repeat(Decimals(SortedSeq(values)), times), ',')
    else
      Join(Repeat(Decimals(SortedSeq(values)), times), ',')
  }

  /** `[d for d in dims if 300 < d < 500]`, as a set. */
  function EncoderCandidates(dims: set<nat>): (r: set<nat>)
    ensures r != {} <==> exists d :: d in dims && 300 < d < 500
  {
    var r := set d | d in dims && 300 < d < 500;
    if exists d :: d in dims && 300 < d < 500 then
      var d :| d in dims && 300 < d < 500;
      assert d in r;
      r
    else r
  }

  /** The three suggested settings; `None` where the script prints nothing. */
  datatype Suggestions = Suggestions(encoderDim: Option<string>, cnnModuleKernel: Option<string>,
                                     feedforwardDim: Option<string>)

  /**
   * Lines 104-119: the encoder dims in (300, 500) and the kernel sizes, sorted
   * and repeated for 6 layers; the feedforward dims, sorted, when there are at
   * least 2. Each string splits on commas into the decimals of those values.
   */
  function Suggest(c: Config): (r: Suggestions)
    ensures r.encoderDim.Some? <==> exists d :: d in c.encoderDims && 300 < d < 500
    ensures r.cnnModuleKernel.Some? <==> c.kernelSizes != {}
    ensures r.feedforwardDim.Some? <==> |c.feedforwardDims| >= 2
    ensures r.encoderDim.Some? ==>
              Split(r.encoderDim.value, ',') == Repeat(Decimals(SortedSeq(set d | d in c.encoderDims && 300 < d < 500)), 6)
    ensures r.cnnModuleKernel.Some? ==>
              Split(r.cnnModuleKernel.value, ',') == Repeat(Decimals(SortedSeq(c.kernelSizes)), 6)
    ensures r.feedforwardDim.Some? ==>
              Split(r.feedforwardDim.value, ',') == Repeat(Decimals(SortedSeq(c.feedforwardDims)), 1)
  {
    var encoder := EncoderCandidates(c.encoderDims);
    Suggestions(if encoder != {} then Some(Suggestion(encoder, 6)) else None,
                if c.kernelSizes != {} then Some(Suggestion(c.kernelSizes, 6)) else None,
                if |c.feedforwardDims| >= 2 then Some(Suggestion(c.feedforwardDims, 1)) else None)
  }

  // ---------------------------------------------------------------------
  // Properties
  // ---------------------------------------------------------------------

  /** One more entry: the pass over `entries[..i + 1]` in terms of the pass over `entries[..i]`. */
  lemma AnalyzeExtend(entries: seq<Entry>, i: nat)
    requires i < |entries|
    ensures Analyze(entries[..i + 1]) ==
              match Analyze(entries[..i])
              case Err(e) => Err(e)
              case Ok(c) => Step(c, entries[i])
  {
    assert entries[..i + 1][..i] == entries[..i];
    assert entries[..i + 1][i] == entries[i];
  }

  /** What a successful step does to `tensor_shapes` and to the three filtered sets. */
  lemma StepEffect(c: Config, e: Entry)
    requires Step(c, e).Ok?
    ensures var c' := Step(c, e).value;
            && c'.tensorShapes == (if e.shape.Some? then c.tensorShapes[e.key := e.shape.value] else c.tensorShapes)
            && c'.encoderDims == c.encoderDims + EncoderDimsOf(e)
            && c'.feedforwardDims == c.feedforwardDims + FeedforwardDimsOf(e)
            && c'.kernelSizes == c.kernelSizes + KernelSizesOf(e)
  {
  }

  /** Once an entry raises, the whole pass raises the same error. */
  lemma {:induction false} AnalyzeErrorPersists(entries: seq<Entry>, k: nat)
    requires k <= |entries|
    requires Analyze(entries[..k]).Err?
    ensures Analyze(entries) == Analyze(entries[..k])
    decreases |entries|
  {
    if k < |entries| {
      assert entries[..|entries| - 1][..k] == entries[..k];
      AnalyzeErrorPersists(entries[..|entries| - 1], k);
    } else {
      assert entries[..k] == entries;
    }
  }

  /** The pattern finds the index in a key of the form `...encoder.encoders.<n>.<rest>`. */
  lemma LayerIndexOfName(n: nat, rest: string)
    ensures LayerIndex(LayerPrefix + NatToString(n) + "." + rest) == Some(n)
  {
    var key := LayerPrefix + NatToString(n) + "." + rest;
    var ds := NatToString(n);
    assert key[|LayerPrefix|..] == ds + "." + rest;
    LeadingDigitsStop(ds, '.', rest);
    DigitsValueOfNatToString(n);
    assert IsPrefix(LayerPrefix, key);
    assert key[0..] == key;
    assert MatchLayerAt(key) == Some(n);
  }

  lemma {:induction false} LeadingDigitsStop(ds: string, c: char, rest: string)
    requires AllDigits(ds) && !IsDigit(c)
    ensures LeadingDigits(ds + [c] + rest) == ds
    decreases |ds|
  {
    if ds != [] {
      LeadingDigitsStop(ds[1..], c, rest);
      assert (ds + [c] + rest)[1..] == ds[1..] + [c] + rest;
      assert [ds[0]] + ds[1..] == ds;
    }
  }

  /** The properties every configuration reached by the pass has. */
  ghost predicate Sound(c: Config)
  {
    && (forall d :: d in c.encoderDims ==> 100 < d < 1000)
    && (forall d :: d in c.feedforwardDims ==> d > 500)
    && (forall k :: k in c.kernelSizes ==> k > 1)
    && c.numHeads == {}
    && (forall n :: n in c.layers && c.layers[n].attnDim.Some? ==> c.layers[n].attnDim.value in c.attentionDims)
  }

  lemma StepSound(c: Config, e: Entry)
    requires Sound(c) && Step(c, e).Ok?
    ensures Sound(Step(c, e).value)
  {
    if e.shape.Some? {
      var shape := e.shape.value;
      var c' := c.(tensorShapes := c.tensorShapes[e.key := shape],
                   encoderDims := c.encoderDims + EncoderDimsOf(e),
                   feedforwardDims := c.feedforwardDims + FeedforwardDimsOf(e),
                   kernelSizes := c.kernelSizes + KernelSizesOf(e));
      assert Sound(c');
      match LayerIndex(e.key)
      case None =>
      case Some(n) => UpdateLayerSound(c', n, e.key, shape);
    }
  }

  lemma UpdateLayerSound(c: Config, n: nat, key: string, shape: seq<nat>)
    requires Sound(c) && UpdateLayer(c, n, key, shape).Ok?
    ensures Sound(UpdateLayer(c, n, key, shape).value)
  {
    var r := UpdateLayer(c, n, key, shape).value;
    forall m | m in r.layers && r.layers[m].attnDim.Some? ensures r.layers[m].attnDim.value in r.attentionDims {
      if m != n {
        assert m in c.layers && r.layers[m] == c.layers[m];
      }
    }
  }

  /**
   * After the pass, `encoder_dims` holds only values in (100, 1000),
   * `feedforward_dims` only values above 500, `kernel_sizes` only values above
   * 1, the `num_heads` set is still empty, and every `attn_dim` recorded for a
   * layer is also in `attention_dims`.
   */
  lemma {:induction false} AnalyzeSound(entries: seq<Entry>)
    requires Analyze(entries).Ok?
    ensures Sound(Analyze(entries).value)
    decreases |entries|
  {
    if entries != [] {
      var init := entries[..|entries| - 1];
      AnalyzeSound(init);
      StepSound(Analyze(init).value, entries[|entries| - 1]);
    }
  }

  /** Some entry has property `p` exactly when one before the last or the last has it. */
  lemma SomeEntry(entries: seq<Entry>, init: seq<Entry>, p: Entry -> bool)
    requires entries != [] && init == entries[..|entries| - 1]
    ensures (exists i :: 0 <= i < |entries| && p(entries[i]))
            <==> (exists i :: 0 <= i < |init| && p(init[i])) || p(entries[|entries| - 1])
  {
    if exists i :: 0 <= i < |entries| && p(entries[i]) {
      var i :| 0 <= i < |entries| && p(entries[i]);
      if i < |init| {
        assert init[i] == entries[i];
      }
    }
    if exists i :: 0 <= i < |init| && p(init[i]) {
      var i :| 0 <= i < |init| && p(init[i]);
      assert init[i] == entries[i];
    }
  }

  /** `encoder_dims` after the pass is exactly what the entries contribute. */
  lemma {:induction false} AnalyzeEncoderDims(entries: seq<Entry>)
    requires Analyze(entries).Ok?
    ensures forall d :: d in Analyze(entries).value.encoderDims
                        <==> exists i :: 0 <= i < |entries| && d in EncoderDimsOf(entries[i])
    decreases |entries|
  {
    if entries != [] {
      var init := entries[..|entries| - 1];
      AnalyzeEncoderDims(init);
      StepEffect(Analyze(init).value, entries[|entries| - 1]);
      forall d ensures d in Analyze(entries).value.encoderDims
                       <==> exists i :: 0 <= i < |entries| && d in EncoderDimsOf(entries[i]) {
        SomeEntry(entries, init, e => d in EncoderDimsOf(e));
      }
    }
  }

  /** `feedforward_dims` after the pass is exactly what the entries contribute. */
  lemma {:induction false} AnalyzeFeedforwardDims(entries: seq<Entry>)
    requires Analyze(entries).Ok?
    ensures forall d :: d in Analyze(entries).value.feedforwardDims
                        <==> exists i :: 0 <= i < |entries| && d in FeedforwardDimsOf(entries[i])
    decreases |entries|
  {
    if entries != [] {
      var init := entries[..|entries| - 1];
      AnalyzeFeedforwardDims(init);
      StepEffect(Analyze(init).value, entries[|entries| - 1]);
      forall d ensures d in Analyze(entries).value.feedforwardDims
                       <==> exists i :: 0 <= i < |entries| && d in FeedforwardDimsOf(entries[i]) {
        SomeEntry(entries, init, e => d in FeedforwardDimsOf(e));
      }
    }
  }

  /** `kernel_sizes` after the pass is exactly what the entries contribute. */
  lemma {:induction false} AnalyzeKernelSizes(entries: seq<Entry>)
    requires Analyze(entries).Ok?
    ensures forall d :: d in Analyze(entries).value.kernelSizes
                        <==> exists i :: 0 <= i < |entries| && d in KernelSizesOf(entries[i])
    decreases |entries|
  {
    if entries != [] {
      var init := entries[..|entries| - 1];
      AnalyzeKernelSizes(init);
      StepEffect(Analyze(init).value, entries[|entries| - 1]);
      forall d ensures d in Analyze(entries).value.kernelSizes
                       <==> exists i :: 0 <= i < |entries| && d in KernelSizesOf(entries[i]) {
        SomeEntry(entries, init, e => d in KernelSizesOf(e));
      }
    }
  }

  /**
   * The sets are exactly what the entries contribute: a value is in
   * `encoder_dims`, `feedforward_dims` or `kernel_sizes` iff some entry's shape
   * contributes it under the key tests and range filters.
   */
  lemma AnalyzeSets(entries: seq<Entry>)
    requires Analyze(entries).Ok?
    ensures var c := Analyze(entries).value;
            && (forall d :: d in c.encoderDims <==> exists i :: 0 <= i < |entries| && d in EncoderDimsOf(entries[i]))
            && (forall d :: d in c.feedforwardDims <==> exists i :: 0 <= i < |entries| && d in FeedforwardDimsOf(entries[i]))
            && (forall d :: d in c.kernelSizes <==> exists i :: 0 <= i < |entries| && d in KernelSizesOf(entries[i]))
  {
    AnalyzeEncoderDims(entries);
    AnalyzeFeedforwardDims(entries);
    AnalyzeKernelSizes(entries);
  }

  /**
   * `tensor_shapes` has exactly the keys of the tensor entries, each mapped to
   * the shape of the last tensor entry with that key (a later key overwrites
   * an earlier one); non-tensor entries leave no trace.
   */
  lemma {:induction false} AnalyzeTensorShapes(entries: seq<Entry>)
    requires Analyze(entries).Ok?
    ensures var shapes := Analyze(entries).value.tensorShapes;
            forall k :: k in shapes <==> exists i :: 0 <= i < |entries| && entries[i].key == k && entries[i].shape.Some?
    ensures var shapes := Analyze(entries).value.tensorShapes;
            forall k :: k in shapes ==> LastShape(entries, k) == Some(shapes[k])
    decreases |entries|
  {
    if entries != [] {
      var init := entries[..|entries| - 1];
      var e := entries[|entries| - 1];
      AnalyzeTensorShapes(init);
      StepEffect(Analyze(init).value, e);
      assert forall i :: 0 <= i < |init| ==> init[i] == entries[i];
    }
  }

  /** The entry is a tensor whose key has layer index `n` and takes arm `b` of the chain. */
  predicate Applies(e: Entry, n: nat, b: Branch)
  {
    e.shape.Some? && LayerIndex(e.key) == Some(n) && BranchOf(e.key, e.shape.value) == b
  }

  /** The entry writes some field of `layer_structure[n]`. */
  predicate WritesLayer(e: Entry, n: nat)
  {
    e.shape.Some? && LayerIndex(e.key) == Some(n) && BranchOf(e.key, e.shape.value) != NoBranch
  }

  /** What the last entry taking arm `b` for layer `n` writes, if any entry does. */
  function LastWrite(entries: seq<Entry>, n: nat, b: Branch): Option<(Option<nat>, Option<nat>)>
    decreases |entries|
  {
    if entries == [] then None
    else
      var e := entries[|entries| - 1];
      if Applies(e, n, b) then Some(Written(e.shape.value, b)) else LastWrite(entries[..|entries| - 1], n, b)
  }

  function OrEmpty(w: Option<(Option<nat>, Option<nat>)>): (Option<nat>, Option<nat>)
  {
    if w.Some? then w.value else (None, None)
  }

  /** What one successful step does to `layer_structure`. */
  lemma StepLayers(c: Config, e: Entry)
    requires Step(c, e).Ok?
    ensures var layers := Step(c, e).value.layers;
            forall n: nat, b :: GroupOf(LayerAt(layers, n), b)
                                == if Applies(e, n, b) then Written(e.shape.value, b) else GroupOf(LayerAt(c.layers, n), b)
    ensures var layers := Step(c, e).value.layers;
            forall n: nat :: n in layers <==> n in c.layers || WritesLayer(e, n)
  {
    if e.shape.Some? {
      var shape := e.shape.value;
      var c' := c.(tensorShapes := c.tensorShapes[e.key := shape],
                   encoderDims := c.encoderDims + EncoderDimsOf(e),
                   feedforwardDims := c.feedforwardDims + FeedforwardDimsOf(e),
                   kernelSizes := c.kernelSizes + KernelSizesOf(e));
      match LayerIndex(e.key)
      case None =>
      case Some(m) =>
        var r := UpdateLayer(c', m, e.key, shape);
        assert r == Step(c, e);
        forall n: nat, b
          ensures GroupOf(LayerAt(r.value.layers, n), b)
                  == if Applies(e, n, b) then Written(shape, b) else GroupOf(LayerAt(c.layers, n), b)
        {
          if n != m && n in r.value.layers {
            assert n in c.layers;
          }
        }
    }
  }

  /**
   * The layers of `layer_structure` after the pass: a layer exists exactly
   * when some tensor entry with that layer index takes an arm of the chain.
   */
  lemma {:induction false} AnalyzeLayerKeys(entries: seq<Entry>)
    requires Analyze(entries).Ok?
    ensures var layers := Analyze(entries).value.layers;
            forall n: nat :: n in layers <==> exists i :: 0 <= i < |entries| && WritesLayer(entries[i], n)
    decreases |entries|
  {
    if entries != [] {
      var init, e := entries[..|entries| - 1], entries[|entries| - 1];
      AnalyzeLayerKeys(init);
      StepLayers(Analyze(init).value, e);
      forall n: nat ensures n in Analyze(entries).value.layers
                            <==> exists i :: 0 <= i < |entries| && WritesLayer(entries[i], n) {
        SomeEntry(entries, init, e => WritesLayer(e, n));
      }
    }
  }

  /**
   * The fields of `layer_structure` after the pass: each field group of layer
   * `n` holds what the LAST entry taking that arm for `n` wrote (a later key
   * overwrites an earlier one), and is empty when no entry did; e.g.
   * `num_heads` is `shape[1] // shape[0]` of the layer's last out_proj weight.
   */
  lemma {:induction false} AnalyzeLayers(entries: seq<Entry>)
    requires Analyze(entries).Ok?
    ensures var layers := Analyze(entries).value.layers;
            forall n: nat, b :: GroupOf(LayerAt(layers, n), b) == OrEmpty(LastWrite(entries, n, b))
    decreases |entries|
  {
    if entries != [] {
      var init := entries[..|entries| - 1];
      AnalyzeLayers(init);
      StepLayers(Analyze(init).value, entries[|entries| - 1]);
    }
  }

  /** The shape of the last tensor entry with key `k`, if any. */
  function LastShape(entries: seq<Entry>, k: string): Option<seq<nat>>
    decreases |entries|
  {
    if entries == [] then None
    else
      var e := entries[|entries| - 1];
      if e.key == k && e.shape.Some? then e.shape else LastShape(entries[..|entries| - 1], k)
  }

  lemma {:induction false} RepeatAt<T>(xs: seq<T>, n: nat, q: nat, r: nat)
    requires q < n && r < |xs|
    ensures q * |xs| + r < |Repeat(xs, n)|
    ensures Repeat(xs, n)[q * |xs| + r] == xs[r]
    decreases n
  {
    if q > 0 {
      RepeatAt(xs, n - 1, q - 1, r);
      assert q * |xs| == (q - 1) * |xs| + |xs|;
      assert |xs| * n == |xs| * (n - 1) + |xs|;
    } else {
      assert |xs| * n == |xs| * (n - 1) + |xs|;
    }
  }

  lemma DecimalsHaveNoComma(ds: seq<nat>, times: nat)
    ensures forall i :: 0 <= i < |Repeat(Decimals(ds), times)| ==> ',' !in Repeat(Decimals(ds), times)[i]
    decreases times
  {
    if times > 0 {
      DecimalsHaveNoComma(ds, times - 1);
      var items := Repeat(Decimals(ds), times);
      forall i | 0 <= i < |items| ensures ',' !in items[i] {
        var s := items[i];
        if i < |ds| {
          assert s == NatToString(ds[i]);
          assert forall j :: 0 <= j < |s| ==> s[j] != ',';
        } else {
          assert s == Repeat(Decimals(ds), times - 1)[i - |ds|];
        }
      }
    }
  }

  /** `int(str(d))` gives back every value of the list. */
  lemma DecimalsReadBack(xs: seq<nat>)
    ensures forall r :: 0 <= r < |xs| ==> AllDigits(Decimals(xs)[r]) && DigitsValue(Decimals(xs)[r]) == xs[r]
  {
    forall r | 0 <= r < |xs| ensures DigitsValue(Decimals(xs)[r]) == xs[r] {
      DigitsValueOfNatToString(xs[r]);
    }
  }

  /**
   * A suggestion string (the joined decimals of `Suggestion`) reads back as
   * the sorted values repeated `times` times: splitting it on commas gives the decimals of the sorted values,
   * repeated, so that field `q * |values| + r` reads as the `r`-th smallest
   * value (`RepeatAt`, `DecimalsReadBack`).
   */
  lemma SuggestionFields(values: set<nat>, times: nat)
    requires values != {} && times >= 1
    ensures Split(Join(Repeat(Decimals(SortedSeq(values)), times), ','), ',') == Repeat(Decimals(SortedSeq(values)), times)
    ensures |Split(Join(Repeat(Decimals(SortedSeq(values)), times), ','), ',')| == |values| * times
  {
    var items := Repeat(Decimals(SortedSeq(values)), times);
    RepeatAt(Decimals(SortedSeq(values)), times, 0, 0);
    DecimalsHaveNoComma(SortedSeq(values), times);
    SplitJoin(items, ',');
  }
}
