/**
 * Layer shards of a model and their assignment to clients
 * (server/app/ml/shard_manager.py). A harder difficulty hands out a longer
 * prefix of the model's layers. Manifests arrive as already-read entries,
 * random numbers as a `noise` function, and the shard digest as a parameter.
 */
module ShardManagement {
  import opened Wrappers
  import opened Text
  import opened Numeric

  /** One entry of a shape: `None` for the batch dimension, else a size. */
  type Dim = Option<int>

  /**
   * `ModelShard`; its weights are always the empty stub and are left out.
   * The shard keeps the shape strings of its manifest entry and gives the
   * parsed shapes through `InputShape()` and `OutputShape()`.
   */
  datatype ModelShard = ModelShard(
    index: int,
    name: string,
    layerType: string,
    inputShapeText: string,
    outputShapeText: string,
    activation: Option<string>)
  {
    function InputShape(): seq<Dim> { ParsedShape(inputShapeText) }
    function OutputShape(): seq<Dim> { ParsedShape(outputShapeText) }
  }

  /** `ShardAssignment` */
  datatype ShardAssignment = ShardAssignment(
    taskId: string,
    modelName: string,
    modelVersion: string,
    shards: seq<ModelShard>,
    inputData: seq<real>,
    inputShape: seq<Dim>,
    expectedLayers: int,
    difficulty: string)

  /** One entry of `shard_manifest.json`; a key absent from the entry is `None`. */
  datatype ShardMeta = ShardMeta(
    index: Option<int>,
    name: Option<string>,
    layerType: Option<string>,
    inputShape: Option<string>,
    outputShape: Option<string>)

  /** The part of `metadata.json` that is read: its `version`. */
  datatype ModelMetadata = ModelMetadata(version: Option<string>)

  /** `DIFFICULTY_LAYERS.get(difficulty, 1)` */
  function DifficultyLayers(difficulty: string): (n: int)
    ensures n >= 1
  {
    if difficulty == "easy" then 1
    else if difficulty == "medium" then 3
    else if difficulty == "hard" then 6
    else 1
  }

  /** `LAYER_TIME_MS.get(layer_type, 5)` */
  function LayerTimeMs(layerType: string): (ms: int)
    ensures 1 <= ms <= 5
  {
    if layerType == "Conv2D" then 5
    else if layerType == "MaxPooling2D" then 2
    else if layerType == "Flatten" then 1
    else if layerType == "Dense" then 3
    else if layerType == "Activation" then 1
    else 5
  }

  const DefaultVersion: string := "1.0.0"
  const DefaultInputShape: string := "[28,28,1]"

  // ------------------------------------------------------------------ shape strings

  /** The characters `_parse_shape` strips from both ends of the whole string. */
  const ShapeBrackets: set<char> := {'(', ')', '[', ']'}

  /** What one comma-separated piece contributes: `None`, an integer, or nothing when it does not parse. */
  function PieceDims(piece: string): (r: seq<Dim>)
    ensures |r| <= 1
  {
    var p := Strip(piece, Whitespace);
    if Lower(p) == "none" then [None]
    else match ParseInt(p)
      case Some(n) => [Some(n)]
      case None => []
  }

  function ParsePieces(pieces: seq<string>): (r: seq<Dim>)
    ensures |r| <= |pieces|
  {
    if |pieces| == 0 then []
    else ParsePieces(pieces[..|pieces| - 1]) + PieceDims(pieces[|pieces| - 1])
  }

  /** One more piece adds what that piece contributes. */
  lemma ParsePiecesSnoc(parts: seq<string>, i: nat)
    requires i < |parts|
    ensures ParsePieces(parts[..i + 1]) == ParsePieces(parts[..i]) + PieceDims(parts[i])
  {
    assert parts[..i + 1][..i] == parts[..i];
  }

  /** The shape `_parse_shape` builds from a shape string. */
  function ParsedShape(shapeStr: string): seq<Dim>
  {
    ParsePieces(Split(Strip(shapeStr, ShapeBrackets), ','))
  }

  /** `_parse_shape`: strip brackets, split on commas, keep `none` pieces and integer pieces in order. */
  method ParseShape(shapeStr: string) returns (shape: seq<Dim>)
    ensures shape == ParsedShape(shapeStr)
    ensures |shape| <= CountChar(Strip(shapeStr, ShapeBrackets), ',') + 1
  {
    var parts := Split(Strip(shapeStr, ShapeBrackets), ',');
    SplitLength(Strip(shapeStr, ShapeBrackets), ',');
    shape := [];
    var i := 0;
    while i < |parts|
      invariant 0 <= i <= |parts|
      invariant shape == ParsePieces(parts[..i])
    {
      ParsePiecesSnoc(parts, i);
      var p := Strip(parts[i], Whitespace);
      if Lower(p) == "none" {
        shape := shape + [None];
      } else {
        var n := ParseInt(p);
        if n.Some? {
          shape := shape + [Some(n.value)];
        }
      }
      i := i + 1;
    }
    assert parts[..i] == parts;
  }

  /** How a dimension is written in a shape string. */
  function DimText(d: Dim): (t: string)
    ensures |t| >= 1 && t[0] !in ShapeBrackets && t[|t| - 1] !in ShapeBrackets
    ensures ',' !in t && Trimmed(t)
  {
    match d
    case None => "None"
    case Some(n) => IntToDecimal(n)
  }

  predicate Trimmed(t: string) {
    |t| == 0 || (t[0] !in Whitespace && t[|t| - 1] !in Whitespace)
  }

  function DimTexts(dims: seq<Dim>): (ts: seq<string>)
    ensures |ts| == |dims|
    ensures forall i :: 0 <= i < |dims| ==> ts[i] == DimText(dims[i])
  {
    seq(|dims|, i requires 0 <= i < |dims| => DimText(dims[i]))
  }

  /** A shape written as `[d0,d1,...]`, batch dimensions as `None`. */
  function FormatShape(dims: seq<Dim>): string
  {
    "[" + Join(DimTexts(dims), ',') + "]"
  }

  lemma PieceDimsOfText(d: Dim)
    ensures PieceDims(DimText(d)) == [d]
  {
    var t := DimText(d);
    StripUnchanged(t, Whitespace);
    match d
    case None =>
      assert Lower(t) == "none";
    case Some(n) =>
      NumberPiece(t, n);
  }

  /** The text of a number is no `none` and reads back as that number. */
  lemma NumberPiece(t: string, n: int)
    requires t == IntToDecimal(n) && Strip(t, Whitespace) == t
    ensures PieceDims(t) == [Some(n)]
  {
    NotNoneText(t);
    DecimalRoundTrip(n);
    IntegerPiece(t, n);
  }

  lemma NotNoneText(t: string)
    requires |t| > 0 && (IsDigit(t[0]) || t[0] == '-')
    ensures Lower(t) != "none"
  {
    assert Lower(t)[0] == t[0];
  }

  lemma IntegerPiece(p: string, n: int)
    requires Strip(p, Whitespace) == p && Lower(p) != "none" && ParseInt(p) == Some(n)
    ensures PieceDims(p) == [Some(n)]
  {
  }

  /** `int` reads underscore-grouped digits, so a piece `1_0` is the dimension 10. */
  lemma PieceDimsGrouped(p: string)
    requires Grouped(p, 10)
    ensures PieceDims(p) == [Some(GroupedValue(p, 10) as int)]
  {
    assert IsDigit(p[0]) && IsDigit(p[|p| - 1]);
    StripUnchanged(p, Whitespace);
    assert Lower(p)[0] == p[0];
    ParseIntUnsigned(p);
  }

  /** `str.strip` drops U+001C, so a piece of digits padded with it still gives their value. */
  lemma PieceDimsPadded(d: string)
    requires |d| > 0 && DigitsIn(d, 10)
    ensures PieceDims(['\U{1C}'] + d) == [Some(NumeralValue(d, 10) as int)]
  {
    SeparatorStripped(d);
    PlainDigitsGrouped(d, 10);
    PieceDimsGrouped(d);
  }

  lemma DropLastSnoc(dims: seq<Dim>)
    requires |dims| > 0
    ensures dims[..|dims| - 1] + [dims[|dims| - 1]] == dims
  {
  }

  lemma ParsePiecesLast(pieces: seq<string>)
    requires |pieces| > 0
    ensures ParsePieces(pieces) == ParsePieces(pieces[..|pieces| - 1]) + PieceDims(pieces[|pieces| - 1])
  {
  }

  lemma {:induction false} ParsePiecesOfTexts(dims: seq<Dim>)
    ensures ParsePieces(DimTexts(dims)) == dims
    decreases |dims|
  {
    if |dims| > 0 {
      var n := |dims| - 1;
      var texts := DimTexts(dims);
      var init := DimTexts(dims[..n]);
      assert texts[..n] == init;
      assert texts[n] == DimText(dims[n]);
      ParsePiecesLast(texts);
      assert ParsePieces(texts) == ParsePieces(init) + PieceDims(DimText(dims[n]));
      ParsePiecesOfTexts(dims[..n]);
      PieceDimsOfText(dims[n]);
      DropLastSnoc(dims);
    }
  }

  lemma StripBrackets(body: string)
    requires |body| == 0 || (body[0] !in ShapeBrackets && body[|body| - 1] !in ShapeBrackets)
    ensures Strip("[" + body + "]", ShapeBrackets) == body
  {
    var s := "[" + body + "]";
    assert s[1..] == body + "]";
    if |body| == 0 {
      assert TrimLeft("]", ShapeBrackets) == "";
    } else {
      assert TrimLeft(s, ShapeBrackets) == body + "]";
      assert (body + "]")[..|body|] == body;
    }
  }

  /** Parsing a formatted shape gives the shape back, batch dimensions and negative sizes included. */
  lemma ParseShapeRoundTrip(dims: seq<Dim>)
    ensures ParsedShape(FormatShape(dims)) == dims
  {
    if |dims| == 0 {
      EmptyShapeRoundTrip();
    } else {
      NonEmptyShapeRoundTrip(dims);
    }
  }

  lemma EmptyShapeRoundTrip()
    ensures ParsedShape(FormatShape([])) == []
  {
    assert Join(DimTexts([]), ',') == "";
    StripBrackets("");
    assert Split("", ',') == [""];
    assert PieceDims("") == [];
    assert ParsePieces([""]) == ParsePieces([]) + PieceDims("");
  }

  lemma NonEmptyShapeRoundTrip(dims: seq<Dim>)
    requires |dims| > 0
    ensures ParsedShape(FormatShape(dims)) == dims
  {
    var texts := DimTexts(dims);
    var body := Join(texts, ',');
    JoinFirst(texts, ',');
    JoinLast(texts, ',');
    StripBrackets(body);
    SplitJoin(texts, ',');
    ParsePiecesOfTexts(dims);
  }

  // ------------------------------------------------------------------ activations

  /** `_infer_activation`: the first of relu, softmax, sigmoid found in the lowered name. */
  function InferActivation(layerName: string): (r: Option<string>)
    ensures r.Some? ==> Contains(Lower(layerName), r.value)
    ensures r == Some("relu") <==> Contains(Lower(layerName), "relu")
    ensures r == Some("softmax") <==> !Contains(Lower(layerName), "relu") && Contains(Lower(layerName), "softmax")
    ensures r == None <==> !Contains(Lower(layerName), "relu") && !Contains(Lower(layerName), "softmax") && !Contains(Lower(layerName), "sigmoid")
  {
    var lowered := Lower(layerName);
    if Contains(lowered, "relu") then Some("relu")
    else if Contains(lowered, "softmax") then Some("softmax")
    else if Contains(lowered, "sigmoid") then Some("sigmoid")
    else None
  }

  /** Matching ignores case, and relu wins over softmax in a name holding both. */
  lemma InferActivationExamples()
    ensures InferActivation("Dense_ReLU") == Some("relu")
    ensures InferActivation("relu_softmax") == Some("relu")
    ensures InferActivation("output") == None
  {
    assert Lower("Dense_ReLU")[6..10] == "relu";
    assert OccursAt(Lower("Dense_ReLU"), "relu", 6);
    assert OccursAt(Lower("relu_softmax"), "relu", 0);
    var o := Lower("output");
    assert o == "output";
    forall i | 0 <= i <= |o| - 4 ensures !OccursAt(o, "relu", i) {
      assert o[i] != 'r';
    }
  }

  // ------------------------------------------------------------------ loading

  /** A manifest entry has every key `_load_shard` reads without a default. */
  predicate CompleteMeta(meta: ShardMeta) {
    meta.outputShape.Some? && meta.index.Some? && meta.name.Some? && meta.layerType.Some?
  }

  /** `_load_shard`: a shard, or None when its output shape, index, name or type is missing from the entry. */
  function LoadShard(meta: ShardMeta): (r: Option<ModelShard>)
    ensures r.Some? <==> CompleteMeta(meta)
  {
    if !CompleteMeta(meta) then None
    else Some(ModelShard(
      meta.index.value, meta.name.value, meta.layerType.value,
      meta.inputShape.GetOr(DefaultInputShape),
      meta.outputShape.value,
      InferActivation(meta.name.value)))
  }

  /** A loaded shard carries the entry's index, name and type, its shape strings (the input one defaulting to 28x28x1) and the activation its name suggests. */
  lemma LoadShardFields(meta: ShardMeta)
    requires CompleteMeta(meta)
    ensures var shard := LoadShard(meta).value;
      shard.index == meta.index.value && shard.name == meta.name.value
      && shard.layerType == meta.layerType.value
      && shard.InputShape() == ParsedShape(meta.inputShape.GetOr(DefaultInputShape))
      && shard.OutputShape() == ParsedShape(meta.outputShape.value)
      && shard.activation == InferActivation(meta.name.value)
      && (meta.inputShape.None? ==> shard.InputShape() == [Some(28), Some(28), Some(1)])
  {
    if meta.inputShape.None? {
      DefaultInputShapeParsed();
    }
  }

  /** The default input shape string parses to 28x28x1. */
  lemma DefaultInputShapeParsed()
    ensures ParsedShape(DefaultInputShape) == [Some(28), Some(28), Some(1)]
  {
    var dims: seq<Dim> := [Some(28), Some(28), Some(1)];
    assert NatToDecimal(28) == NatToDecimal(2) + [DigitChar(8)] == "28";
    assert DimText(Some(28)) == "28" && DimText(Some(1)) == "1";
    assert DimTexts(dims) == ["28", "28", "1"];
    assert Join(["28", "28", "1"], ',') == "28,28,1";
    assert FormatShape(dims) == DefaultInputShape;
    ParseShapeRoundTrip(dims);
  }

  /** The shards `_load_model` keeps: those that load, in manifest order. */
  function LoadedShards(metas: seq<ShardMeta>): (r: seq<ModelShard>)
    ensures |r| <= |metas|
  {
    if |metas| == 0 then [] else LoadedShards(metas[..|metas| - 1]) + Kept(metas[|metas| - 1])
  }

  /** What one manifest entry adds to the model's shard list. */
  function Kept(meta: ShardMeta): (r: seq<ModelShard>)
    ensures |r| <= 1
  {
    match LoadShard(meta)
    case Some(shard) => [shard]
    case None => []
  }

  /** When every manifest entry is complete, the model keeps one shard per entry, in manifest order. */
  lemma {:induction false} LoadedShardsAllComplete(metas: seq<ShardMeta>)
    requires forall i :: 0 <= i < |metas| ==> CompleteMeta(metas[i])
    ensures |LoadedShards(metas)| == |metas|
    ensures forall i :: 0 <= i < |metas| ==> LoadedShards(metas)[i] == LoadShard(metas[i]).value
    decreases |metas|
  {
    if |metas| > 0 {
      var n := |metas| - 1;
      var init := metas[..n];
      LoadedShardsAllComplete(init);
      var lastShard := LoadShard(metas[n]).value;
      assert Kept(metas[n]) == [lastShard];
      assert LoadedShards(metas) == LoadedShards(init) + [lastShard];
      forall i | 0 <= i < |metas|
        ensures LoadedShards(metas)[i] == LoadShard(metas[i]).value
      {
        var whole := LoadedShards(init) + [lastShard];
        if i < n {
          assert init[i] == metas[i];
          assert whole[i] == LoadedShards(init)[i];
        } else {
          assert whole[i] == lastShard;
        }
      }
    }
  }

  lemma LoadedShardsSnoc(metas: seq<ShardMeta>, i: nat)
    requires i < |metas|
    ensures LoadedShards(metas[..i + 1]) == LoadedShards(metas[..i]) + Kept(metas[i])
  {
    assert metas[..i + 1][..i] == metas[..i];
  }

  /** The shard loop of `_load_model`: load each manifest entry and keep the ones that load. */
  method LoadShards(metas: seq<ShardMeta>) returns (shards: seq<ModelShard>)
    ensures shards == LoadedShards(metas)
  {
    shards := [];
    var i := 0;
    while i < |metas|
      invariant 0 <= i <= |metas|
      invariant shards == LoadedShards(metas[..i])
    {
      LoadedShardsSnoc(metas, i);
      shards := shards + Kept(metas[i]);
      i := i + 1;
    }
    assert metas[..i] == metas;
  }

  // ------------------------------------------------------------------ input generation and timing

  /** The product of the sizes of the non-batch dimensions (1 for none). */
  function DimsProduct(shape: seq<Dim>): int
  {
    if |shape| == 0 then 1
    else DimsProduct(shape[..|shape| - 1]) * (match shape[|shape| - 1] case Some(n) => n case None => 1)
  }

  /** `_generate_random_input`'s list: one draw per element; `range` of a negative size is empty. */
  method GenerateRandomInput(shape: seq<Dim>, noise: nat -> real) returns (input: seq<real>)
    ensures |input| == MaxInt(0, DimsProduct(shape))
    ensures forall i :: 0 <= i < |input| ==> input[i] == noise(i)
  {
    var size := 1;
    var i := 0;
    while i < |shape|
      invariant 0 <= i <= |shape|
      invariant size == DimsProduct(shape[..i])
    {
      assert shape[..i + 1][..i] == shape[..i];
      match shape[i] {
        case Some(dim) => size := size * dim;
        case None =>
      }
      i := i + 1;
    }
    assert shape[..i] == shape;
    input := [];
    var k := 0;
    while k < size
      invariant 0 <= k && (size >= 0 ==> k <= size) && (size < 0 ==> k == 0)
      invariant |input| == k
      invariant forall j :: 0 <= j < k ==> input[j] == noise(j)
    {
      input := input + [noise(k)];
      k := k + 1;
    }
  }

  function RandomInput(shape: seq<Dim>, noise: nat -> real): (input: seq<real>)
    ensures |input| == MaxInt(0, DimsProduct(shape))
    ensures forall i :: 0 <= i < |input| ==> input[i] == noise(i)
  {
    seq(MaxInt(0, DimsProduct(shape)), i requires 0 <= i => noise(i))
  }

  /** The per-type cost of the shards; unknown types cost 5 ms. */
  function TotalTimeMs(shards: seq<ModelShard>): int
  {
    if |shards| == 0 then 0
    else TotalTimeMs(shards[..|shards| - 1]) + LayerTimeMs(shards[|shards| - 1].layerType)
  }

  /** `estimate_computation_time`: the loop that adds up the per-layer costs. */
  method EstimateComputationTime(shards: seq<ModelShard>) returns (totalMs: int)
    ensures totalMs == TotalTimeMs(shards)
  {
    totalMs := 0;
    var i := 0;
    while i < |shards|
      invariant 0 <= i <= |shards|
      invariant totalMs == TotalTimeMs(shards[..i])
    {
      assert shards[..i + 1][..i] == shards[..i];
      totalMs := totalMs + LayerTimeMs(shards[i].layerType);
      i := i + 1;
    }
    assert shards[..i] == shards;
  }

  /** Every layer costs between 1 and 5 ms, so no shards cost nothing. */
  lemma {:induction false} TotalTimeBounds(shards: seq<ModelShard>)
    ensures |shards| <= TotalTimeMs(shards) <= 5 * |shards|
    ensures shards == [] ==> TotalTimeMs(shards) == 0
    decreases |shards|
  {
    if |shards| > 0 {
      TotalTimeBounds(shards[..|shards| - 1]);
    }
  }

  /** The cost of a concatenation is the sum of the costs. */
  lemma {:induction false} TotalTimeAppend(a: seq<ModelShard>, b: seq<ModelShard>)
    ensures TotalTimeMs(a + b) == TotalTimeMs(a) + TotalTimeMs(b)
    decreases |b|
  {
    if |b| > 0 {
      var n := |b| - 1;
      assert (a + b)[..|a + b| - 1] == a + b[..n];
      TotalTimeAppend(a, b[..n]);
    } else {
      assert a + b == a;
    }
  }

  // ------------------------------------------------------------------ integrity

  /** `ModelShard.id`: the first 16 hex digits of the digest of the shard's canonical JSON. */
  function ShardId(shard: ModelShard, contentDigest: ModelShard -> string): (id: string)
    ensures |id| <= 16 && StartsWith(contentDigest(shard), id)
  {
    Take(contentDigest(shard), 16)
  }

  /** `validate_shard_hash`: equality with the content-derived id. */
  function ValidateShardHash(shard: ModelShard, expectedHash: string, contentDigest: ModelShard -> string): (ok: bool)
    ensures ok ==> |expectedHash| <= 16 && StartsWith(contentDigest(shard), expectedHash)
    ensures ok <==> expectedHash == ShardId(shard, contentDigest)
  {
    ShardId(shard, contentDigest) == expectedHash
  }

  /** A hash taken from a shard validates that shard and every shard with the same digest. */
  lemma ShardHashAgreement(s1: ModelShard, s2: ModelShard, contentDigest: ModelShard -> string)
    requires |contentDigest(s1)| >= 16
    ensures ValidateShardHash(s1, ShardId(s1, contentDigest), contentDigest)
    ensures contentDigest(s1) == contentDigest(s2) ==> ValidateShardHash(s2, ShardId(s1, contentDigest), contentDigest)
    ensures ValidateShardHash(s2, ShardId(s1, contentDigest), contentDigest) ==> contentDigest(s2)[..16] == contentDigest(s1)[..16]
  {
  }

  // ------------------------------------------------------------------ the manager

  /** The cache's names in insertion order, each once, and every cached list non-empty. */
  ghost predicate CacheValid(order: seq<string>, cache: map<string, seq<ModelShard>>) {
    (forall i, j :: 0 <= i < j < |order| ==> order[i] != order[j])
    && (forall m :: m in cache <==> m in order)
    && (forall m :: m in cache ==> |cache[m]| > 0)
  }

  /** Caching a non-empty list keeps the cache valid, the name joining the order when it is new. */
  lemma CacheValidAdd(order: seq<string>, cache: map<string, seq<ModelShard>>, name: string, shards: seq<ModelShard>)
    requires CacheValid(order, cache) && |shards| > 0
    ensures CacheValid(if name in cache then order else order + [name], cache[name := shards])
  {
  }

  /** `ShardManager`: cached shard lists per model, in load order, and per-model metadata. */
  class ShardManager {
    var shardCache: map<string, seq<ModelShard>>
    var modelOrder: seq<string>
    var metadata: map<string, ModelMetadata>

    /** The cache's keys are listed once each in load order, and no cached list is empty. */
    ghost predicate Valid()
      reads this
    {
      CacheValid(modelOrder, shardCache)
    }

    constructor ()
      ensures Valid() && shardCache == map[] && modelOrder == [] && metadata == map[]
    {
      shardCache := map[];
      modelOrder := [];
      metadata := map[];
    }

    /**
     * `_load_model` for one model directory, given what its two JSON files
     * hold: the metadata is recorded when present; without a manifest nothing
     * else happens; the loaded shards are cached only if there are any.
     */
    method LoadModel(modelName: string, meta: Option<ModelMetadata>, manifest: Option<seq<ShardMeta>>)
      requires Valid()
      modifies this
      ensures Valid()
      ensures metadata == if meta.Some? then old(metadata)[modelName := meta.value] else old(metadata)
      ensures manifest.None? || |LoadedShards(manifest.value)| == 0 ==>
        shardCache == old(shardCache) && modelOrder == old(modelOrder)
      ensures manifest.Some? && |LoadedShards(manifest.value)| > 0 ==>
        shardCache == old(shardCache)[modelName := LoadedShards(manifest.value)]
        && modelOrder == if modelName in old(shardCache) then old(modelOrder) else old(modelOrder) + [modelName]
    {
      if meta.Some? {
        metadata := metadata[modelName := meta.value];
      }
      if manifest.None? {
        return;
      }
      var shards := LoadShards(manifest.value);
      if |shards| > 0 {
        CacheValidAdd(modelOrder, shardCache, modelName, shards);
        if modelName !in shardCache {
          modelOrder := modelOrder + [modelName];
        }
        shardCache := shardCache[modelName := shards];
      }
    }

    /** `get_available_models`: the cached model names in insertion order. */
    function AvailableModels(): (names: seq<string>)
      reads this
      requires Valid()
      ensures forall m :: m in names <==> m in shardCache
    {
      modelOrder
    }

    /** `get_model_metadata` */
    function ModelMetadataOf(modelName: string): (r: Option<ModelMetadata>)
      reads this
      ensures r.Some? <==> modelName in metadata
      ensures r.Some? ==> r.value == metadata[modelName]
    {
      if modelName in metadata then Some(metadata[modelName]) else None
    }

    /** `assign_shards`: the first `min(DIFFICULTY_LAYERS.get(d, 1), len)` shards of a loaded model. */
    function AssignShards(taskId: string, modelName: string, difficulty: string,
                          inputSample: Option<seq<real>>, noise: nat -> real): (r: Result<ShardAssignment, string>)
      reads this
      requires Valid()
      ensures r.Err? <==> modelName !in shardCache
      ensures r.Err? ==> r.error == "Model '" + modelName + "' not found"
      ensures r.Ok? ==>
        var cached := shardCache[modelName];
        var a := r.value;
        a.expectedLayers == MinInt(DifficultyLayers(difficulty), |cached|)
        && 1 <= a.expectedLayers <= |cached|
        && a.shards == cached[..a.expectedLayers]
        && a.inputShape == cached[0].InputShape()
        && a.inputData == (if inputSample.Some? then inputSample.value else RandomInput(cached[0].InputShape(), noise))
        && a.modelVersion == (if modelName in metadata && metadata[modelName].version.Some?
                              then metadata[modelName].version.value else DefaultVersion)
        && a.taskId == taskId && a.modelName == modelName && a.difficulty == difficulty
    {
      if modelName !in shardCache then Err("Model '" + modelName + "' not found")
      else
        var cached := shardCache[modelName];
        var numLayers := MinInt(DifficultyLayers(difficulty), |cached|);
        var handedOut := cached[..numLayers];
        var input := if inputSample.None? then RandomInput(handedOut[0].InputShape(), noise) else inputSample.value;
        var version := if modelName in metadata then metadata[modelName].version.GetOr(DefaultVersion) else DefaultVersion;
        Ok(ShardAssignment(taskId, modelName, version, handedOut, input, handedOut[0].InputShape(), numLayers, difficulty))
    }

    /** `get_shard_by_index`: None for an unknown model or an index outside the list. */
    function ShardByIndex(modelName: string, index: int): (r: Option<ModelShard>)
      reads this
      ensures r.None? <==> modelName !in shardCache || index < 0 || index >= |shardCache[modelName]|
      ensures r.Some? ==> r.value == shardCache[modelName][index]
    {
      if modelName !in shardCache then None
      else
        var shards := shardCache[modelName];
        if index < 0 || index >= |shards| then None else Some(shards[index])
    }

    /** An assignment never hands out a shard the index lookup would not give for the same position. */
    lemma AssignedShardsByIndex(taskId: string, modelName: string, difficulty: string,
                                inputSample: Option<seq<real>>, noise: nat -> real, k: int)
      requires Valid()
      requires AssignShards(taskId, modelName, difficulty, inputSample, noise).Ok?
      requires 0 <= k < AssignShards(taskId, modelName, difficulty, inputSample, noise).value.expectedLayers
      ensures ShardByIndex(modelName, k) == Some(AssignShards(taskId, modelName, difficulty, inputSample, noise).value.shards[k])
    {
    }

    /** An unknown difficulty gets one layer; "hard" gets six when the model has them. */
    lemma DifficultyDepth(modelName: string, difficulty: string, noise: nat -> real)
      requires Valid() && modelName in shardCache
      ensures difficulty != "easy" && difficulty != "medium" && difficulty != "hard" ==>
        AssignShards("", modelName, difficulty, None, noise).value.expectedLayers == 1
      ensures |shardCache[modelName]| >= 6 ==> AssignShards("", modelName, "hard", None, noise).value.expectedLayers == 6
      ensures AssignShards("", modelName, "medium", None, noise).value.expectedLayers
              <= AssignShards("", modelName, "hard", None, noise).value.expectedLayers
    {
    }
  }
}
