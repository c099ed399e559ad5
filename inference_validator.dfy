/**
 * The inference validator (server/app/ml/inference_validator.py): the
 * accept/reject predicates for a classic prediction, and the shard checks
 * that compare a client's per-layer outputs with the ground-truth cache.
 * A client output's hash (SHA-256 of its JSON text, first 16 hex digits)
 * is the uninterpreted `jsonDigest`; the random draw of
 * `should_require_verification` is a parameter.
 */
module InferenceValidation {
  import opened Wrappers
  import opened Text
  import opened SessionModel
  import opened Records
  import opened GroundTruth
  import opened TaskCoordination
  import opened CaptchaSchemas

  // ------------------------------------------------------------------ layer names

  /** The layer names the validator knows, at their ground-truth layer index. */
  const LayerNames: seq<string> := ["conv1", "pool1", "conv2", "pool2", "flatten", "dense1", "output"]

  /** `_extract_layer_index`: the name's position in `LayerNames`, ignoring case; -1 for any other name. */
  function ExtractLayerIndex(layerName: string): (i: int)
    ensures -1 <= i < |LayerNames|
    ensures i >= 0 ==> LayerNames[i] == Lower(layerName)
    ensures i == -1 <==> Lower(layerName) !in LayerNames
  {
    var layerMap := map["conv1" := 0, "pool1" := 1, "conv2" := 2, "pool2" := 3,
                        "flatten" := 4, "dense1" := 5, "output" := 6];
    var key := Lower(layerName);
    if key in layerMap then layerMap[key] else -1
  }

  lemma LowerOfLowercase(s: string)
    requires forall i :: 0 <= i < |s| ==> !('A' <= s[i] <= 'Z')
    ensures Lower(s) == s
  {
  }

  /** Each known name, in any case, gives its own index. */
  lemma LayerNamesIndexed(i: nat, name: string)
    requires i < |LayerNames| && Lower(name) == LayerNames[i]
    ensures ExtractLayerIndex(name) == i
  {
  }

  lemma UppercaseLayerName()
    ensures ExtractLayerIndex("Dense1") == 5 && ExtractLayerIndex("dense") == -1
  {
    assert Lower("Dense1") == "dense1";
    assert Lower("dense") == "dense";
    assert "dense" !in LayerNames by {
      forall k | 0 <= k < |LayerNames| ensures LayerNames[k] != "dense" {
        assert |LayerNames[k]| != 5 || LayerNames[k][4] != 'e';
      }
    }
  }

  // ------------------------------------------------------------------ classic prediction

  /** `_validate_timing`: too fast means under a tenth of the expected time. */
  function ValidateTiming(task: Task, timing: TimingData): (ok: bool)
    ensures ok <==> 10 * timing.inferenceMs >= task.expectedTimeMs
  {
    var minTime := task.expectedTimeMs as real * 0.1;
    !(timing.inferenceMs as real < minTime)
  }

  /** The length of a SHA-256 digest in hexadecimal. */
  const Sha256HexLength: nat := 64

  /** `_validate_proof_of_work`: a 64-character hash whose first digit is 0. */
  function ValidateProofOfWork(pow: ProofOfWorkData): (ok: bool)
    ensures ok <==> |pow.hash| == Sha256HexLength && pow.hash[0] == '0'
  {
    if pow.hash == "" then false
    else if |pow.hash| != Sha256HexLength then false
    else StartsWith(pow.hash, "0")
  }

  function TopKSum(ps: seq<TopKPrediction>): real
  {
    if |ps| == 0 then 0.0 else TopKSum(ps[..|ps| - 1]) + ps[|ps| - 1].confidence
  }

  /**
   * `_validate_prediction_plausibility`: a confidence in [0, 1] and a top-k
   * list that starts with the predicted label. The sum of the top-k
   * confidences is only logged.
   */
  function PredictionPlausible(p: PredictionData): (ok: bool)
    ensures ok <==> 0.0 <= p.confidence <= 1.0 && |p.topK| > 0 && p.topK[0].predicted == p.predicted
  {
    if !(0.0 <= p.confidence <= 1.0) then false
    else if |p.topK| == 0 then false
    else p.topK[0].predicted == p.predicted
  }

  /** Top-k confidences summing to well over 1.1 do not make a prediction implausible. */
  lemma TopKSumIgnored()
    ensures var p := PredictionData("7", 0.9, [TopKPrediction("7", 0.9), TopKPrediction("1", 0.9)]);
            TopKSum(p.topK) > 1.1 && PredictionPlausible(p)
  {
    var ps := [TopKPrediction("7", 0.9), TopKPrediction("1", 0.9)];
    assert ps[..1] == [TopKPrediction("7", 0.9)];
    assert ps[..1][..0] == [];
  }

  /** `_validate_known_sample`: the case-insensitive comparison with the known label is only logged. */
  function ValidateKnownSample(p: PredictionData, knownLabel: string): (ok: bool)
    ensures ok
  {
    true
  }

  /**
   * `validate_prediction`: every check in the list must pass. The known-sample
   * check joins the list only for a known sample with a non-empty label, and
   * never fails, so the verdict is the conjunction of the other three.
   */
  function ValidatePrediction(task: Task, p: PredictionData, pow: ProofOfWorkData, timing: TimingData): (ok: bool)
    ensures ok <==> ValidateTiming(task, timing) && ValidateProofOfWork(pow) && PredictionPlausible(p)
  {
    var known := if task.isKnownSample && task.knownLabel.Some? && task.knownLabel.value != ""
                 then [ValidateKnownSample(p, task.knownLabel.value)] else [];
    var validations := [ValidateTiming(task, timing), ValidateProofOfWork(pow), PredictionPlausible(p)] + known;
    false !in validations
  }

  // ------------------------------------------------------------------ shard inference

  /** `ShardValidationResult` */
  datatype ShardValidationResult = ShardValidationResult(
    isValid: bool,
    layerName: string,
    confidence: real,
    errorMessage: Option<string>,
    expectedHash: Option<string>,
    actualHash: Option<string>)

  /** `InferenceProof`; the layer outputs keep the dictionary's order. */
  datatype InferenceProof = InferenceProof(
    inputHash: string,
    outputHash: string,
    layerOutputs: seq<(string, seq<real>)>,
    finalPrediction: Option<int>,
    computationTimeMs: int)

  /** The single result returned when the task's key cannot be used. */
  function UnknownResult(message: string): ShardValidationResult
  {
    ShardValidationResult(false, "unknown", 0.0, Some(message), None, None)
  }

  /** The model named in the task's shard metadata, `mnist-tiny` when absent. */
  function ShardModelName(task: Task): string
  {
    if task.meta.shardTask.Some? then task.meta.shardTask.value.modelName.GetOr(DefaultModel) else DefaultModel
  }

  function ShardKey(task: Task): Option<string>
  {
    if task.meta.shardTask.Some? then task.meta.shardTask.value.groundTruthKey else None
  }

  /** The cache key a reported layer is looked up under. */
  function LayerKey(inputHash: string, modelName: string, layer: (string, seq<real>)): string
  {
    CacheKey(inputHash, modelName, ExtractLayerIndex(layer.0))
  }

  /** A reported layer that has no entry, or whose output hash is the entry's. */
  predicate LayerMatches(cache: map<string, GroundTruthEntry>, jsonDigest: seq<real> -> string,
                         inputHash: string, modelName: string, layer: (string, seq<real>))
  {
    LayerKey(inputHash, modelName, layer) in cache ==>
      jsonDigest(layer.1) == cache[LayerKey(inputHash, modelName, layer)].outputHash
  }

  /**
   * The layer check as written hashes `json.dumps` of the reported values,
   * while the cache stored the hash of the array's bytes. Whenever the two
   * digests of the entry's own output differ, a client reporting that exact
   * output fails the layer.
   */
  lemma ExactLayerRejected(d: Digests, cache: map<string, GroundTruthEntry>, jsonDigest: seq<real> -> string,
                           inputHash: string, modelName: string, layer: (string, seq<real>), output: Tensor)
    requires LayerKey(inputHash, modelName, layer) in cache
    requires cache[LayerKey(inputHash, modelName, layer)].outputHash == d.output(output)
    requires layer.1 == output.flat && jsonDigest(output.flat) != d.output(output)
    ensures !LayerMatches(cache, jsonDigest, inputHash, modelName, layer)
    ensures !LayerResult(cache[LayerKey(inputHash, modelName, layer)], layer.0, jsonDigest(layer.1)).isValid
  {
  }

  /** The digest the cache gives a reported list: its bytes as a one-dimensional array. */
  function CacheDigest(d: Digests): (f: seq<real> -> string)
    ensures forall xs :: f(xs) == d.output(FromList(xs))
  {
    xs => d.output(FromList(xs))
  }

  /**
   * Hashing the reported values the way the cache hashed the stored output
   * accepts an exact report, since the array bytes do not depend on the shape.
   */
  lemma ExactLayerAcceptedWithCacheDigest(d: Digests, cache: map<string, GroundTruthEntry>,
                                          inputHash: string, modelName: string, layer: (string, seq<real>), output: Tensor)
    requires LayerKey(inputHash, modelName, layer) in cache
    requires cache[LayerKey(inputHash, modelName, layer)].outputHash == d.output(output)
    requires layer.1 == output.flat && d.output(FromList(output.flat)) == d.output(output)
    ensures LayerMatches(cache, CacheDigest(d), inputHash, modelName, layer)
    ensures LayerResult(cache[LayerKey(inputHash, modelName, layer)], layer.0, CacheDigest(d)(layer.1)).isValid
  {
  }

  /** The result recorded for a layer that has an entry. */
  function LayerResult(entry: GroundTruthEntry, layerName: string, clientHash: string): ShardValidationResult
  {
    var ok := clientHash == entry.outputHash;
    ShardValidationResult(ok, layerName, if ok then 1.0 else 0.0, None, Some(entry.outputHash), Some(clientHash))
  }

  /** The results of the layer loop: one per reported layer that has an entry, in order. */
  function LayerResults(cache: map<string, GroundTruthEntry>, jsonDigest: seq<real> -> string,
                        inputHash: string, modelName: string, layers: seq<(string, seq<real>)>): (rs: seq<ShardValidationResult>)
    ensures |rs| <= |layers|
  {
    if |layers| == 0 then []
    else
      var init := LayerResults(cache, jsonDigest, inputHash, modelName, layers[..|layers| - 1]);
      var layer := layers[|layers| - 1];
      var key := LayerKey(inputHash, modelName, layer);
      init + (if key in cache then [LayerResult(cache[key], layer.0, jsonDigest(layer.1))] else [])
  }

  /** How many reported layers have an entry. */
  function EntriesIn(cache: map<string, GroundTruthEntry>, inputHash: string, modelName: string,
                     layers: seq<(string, seq<real>)>): nat
  {
    if |layers| == 0 then 0
    else EntriesIn(cache, inputHash, modelName, layers[..|layers| - 1])
         + (if LayerKey(inputHash, modelName, layers[|layers| - 1]) in cache then 1 else 0)
  }

  predicate AllValid(rs: seq<ShardValidationResult>)
  {
    forall j :: 0 <= j < |rs| ==> rs[j].isValid
  }

  /** `validate_shard_inference`'s check of the final prediction against the final layer's top class. */
  function FinalPredictionOk(cache: map<string, GroundTruthEntry>, inputHash: string, modelName: string,
                             finalPrediction: Option<int>): bool
  {
    var key := CacheKey(inputHash, modelName, FinalLayer);
    finalPrediction.None? || key !in cache || cache[key].topPrediction.None?
    || finalPrediction.value == cache[key].topPrediction.value
  }

  /** What `validate_shard_inference` returns, on the cache's current contents. */
  function ShardInferenceOutcome(cache: map<string, GroundTruthEntry>, jsonDigest: seq<real> -> string,
                                 task: Task, proof: InferenceProof, timing: TimingData): (bool, seq<ShardValidationResult>)
  {
    var modelName := ShardModelName(task);
    match KeyInputHash(ShardKey(task))
    case Err(message) => (false, [UnknownResult(message)])
    case Ok(inputHash) =>
      var rs := LayerResults(cache, jsonDigest, inputHash, modelName, proof.layerOutputs);
      (ValidateTiming(task, timing) && AllValid(rs) && FinalPredictionOk(cache, inputHash, modelName, proof.finalPrediction), rs)
  }

  /** What `validate_inference_proof` returns: a usable key and no reported layer contradicting its entry. */
  predicate InferenceProofOk(cache: map<string, GroundTruthEntry>, jsonDigest: seq<real> -> string,
                             task: Task, proof: InferenceProof)
  {
    var modelName := ShardModelName(task);
    match KeyInputHash(ShardKey(task))
    case Err(_) => false
    case Ok(inputHash) =>
      forall i :: 0 <= i < |proof.layerOutputs| ==>
        LayerMatches(cache, jsonDigest, inputHash, modelName, proof.layerOutputs[i])
  }

  /** Exactly the layers that have an entry contribute a result. */
  lemma {:induction false} LayerResultsCount(cache: map<string, GroundTruthEntry>, jsonDigest: seq<real> -> string,
                                             inputHash: string, modelName: string, layers: seq<(string, seq<real>)>)
    ensures |LayerResults(cache, jsonDigest, inputHash, modelName, layers)| == EntriesIn(cache, inputHash, modelName, layers)
    decreases |layers|
  {
    if |layers| > 0 {
      LayerResultsCount(cache, jsonDigest, inputHash, modelName, layers[..|layers| - 1]);
    }
  }

  /**
   * The layer at position `i`, when it has an entry, is judged by the result
   * at the number of earlier layers with an entry: valid iff its hash is the entry's.
   */
  lemma {:induction false} LayerResultAt(cache: map<string, GroundTruthEntry>, jsonDigest: seq<real> -> string,
                                         inputHash: string, modelName: string, layers: seq<(string, seq<real>)>, i: nat)
    requires i < |layers| && LayerKey(inputHash, modelName, layers[i]) in cache
    ensures var rs := LayerResults(cache, jsonDigest, inputHash, modelName, layers);
            var j := EntriesIn(cache, inputHash, modelName, layers[..i]);
            j < |rs| && rs[j] == LayerResult(cache[LayerKey(inputHash, modelName, layers[i])], layers[i].0, jsonDigest(layers[i].1))
    decreases |layers|
  {
    var init := layers[..|layers| - 1];
    LayerResultsCount(cache, jsonDigest, inputHash, modelName, init);
    if i < |layers| - 1 {
      assert init[..i] == layers[..i];
      assert init[i] == layers[i];
      LayerResultAt(cache, jsonDigest, inputHash, modelName, init, i);
    } else {
      assert init == layers[..i];
    }
  }

  /** Every result is valid iff no reported layer contradicts its entry. */
  lemma {:induction false} AllValidIff(cache: map<string, GroundTruthEntry>, jsonDigest: seq<real> -> string,
                                       inputHash: string, modelName: string, layers: seq<(string, seq<real>)>)
    ensures AllValid(LayerResults(cache, jsonDigest, inputHash, modelName, layers))
            <==> forall i :: 0 <= i < |layers| ==> LayerMatches(cache, jsonDigest, inputHash, modelName, layers[i])
    decreases |layers|
  {
    if |layers| > 0 {
      var init := layers[..|layers| - 1];
      AllValidIff(cache, jsonDigest, inputHash, modelName, init);
      var rs := LayerResults(cache, jsonDigest, inputHash, modelName, layers);
      var initRs := LayerResults(cache, jsonDigest, inputHash, modelName, init);
      assert rs[..|initRs|] == initRs;
      if AllValid(rs) {
        forall i | 0 <= i < |layers| ensures LayerMatches(cache, jsonDigest, inputHash, modelName, layers[i]) {
          if i < |layers| - 1 {
            assert layers[i] == init[i];
          } else if LayerKey(inputHash, modelName, layers[i]) in cache {
            assert rs[|rs| - 1].isValid;
          }
        }
      }
    }
  }

  /** A missing or empty key, or one with fewer than three colon-separated parts, gives one invalid result. */
  lemma ShardInferenceBadKey(cache: map<string, GroundTruthEntry>, jsonDigest: seq<real> -> string,
                             task: Task, proof: InferenceProof, timing: TimingData)
    ensures ShardKey(task).None? || ShardKey(task) == Some("") ==>
      ShardInferenceOutcome(cache, jsonDigest, task, proof, timing) == (false, [UnknownResult(MissingKey)])
    ensures ShardKey(task).Some? && ShardKey(task) != Some("") && |Split(ShardKey(task).value, ':')| < 3 ==>
      ShardInferenceOutcome(cache, jsonDigest, task, proof, timing) == (false, [UnknownResult(BadKeyFormat)])
  {
  }

  /**
   * With a usable key: one result per layer that has an entry, and overall
   * validity iff the timing passes, no layer's hash contradicts its entry and
   * the final prediction agrees with the final layer's top class.
   */
  lemma ShardInferenceVerdict(cache: map<string, GroundTruthEntry>, jsonDigest: seq<real> -> string,
                              task: Task, proof: InferenceProof, timing: TimingData)
    requires KeyInputHash(ShardKey(task)).Ok?
    ensures var inputHash := KeyInputHash(ShardKey(task)).value;
            var outcome := ShardInferenceOutcome(cache, jsonDigest, task, proof, timing);
            |outcome.1| == EntriesIn(cache, inputHash, ShardModelName(task), proof.layerOutputs)
            && (outcome.0 <==> ValidateTiming(task, timing)
                               && (forall i :: 0 <= i < |proof.layerOutputs| ==>
                                     LayerMatches(cache, jsonDigest, inputHash, ShardModelName(task), proof.layerOutputs[i]))
                               && FinalPredictionOk(cache, inputHash, ShardModelName(task), proof.finalPrediction))
  {
    var inputHash := KeyInputHash(ShardKey(task)).value;
    LayerResultsCount(cache, jsonDigest, inputHash, ShardModelName(task), proof.layerOutputs);
    AllValidIff(cache, jsonDigest, inputHash, ShardModelName(task), proof.layerOutputs);
  }

  /**
   * `validate_inference_proof` accepts exactly when the shard check would
   * find every layer result valid; it ignores timing and the final prediction.
   */
  lemma InferenceProofAgreesWithShardCheck(cache: map<string, GroundTruthEntry>, jsonDigest: seq<real> -> string,
                                           task: Task, proof: InferenceProof, timing: TimingData)
    ensures InferenceProofOk(cache, jsonDigest, task, proof)
            <==> KeyInputHash(ShardKey(task)).Ok? && AllValid(ShardInferenceOutcome(cache, jsonDigest, task, proof, timing).1)
  {
    if KeyInputHash(ShardKey(task)).Ok? {
      AllValidIff(cache, jsonDigest, KeyInputHash(ShardKey(task)).value, ShardModelName(task), proof.layerOutputs);
    }
  }

  /**
   * `validate_shard_inference` as written. The timing check only reads
   * `expected_time_ms`; the next statement reads `task.metadata_`, and only
   * when `Task` mapped that attribute would the intended outcome follow.
   */
  function ShardInferenceAsWritten(cache: map<string, GroundTruthEntry>, jsonDigest: seq<real> -> string,
                                   task: Task, proof: InferenceProof, timing: TimingData)
    : (r: Result<(bool, seq<ShardValidationResult>), string>)
    ensures r.Err? <==> "metadata_" !in TaskAttributes
    ensures r.Err? ==> r.error == NoAttribute("metadata_")
    ensures r.Ok? ==> r.value == ShardInferenceOutcome(cache, jsonDigest, task, proof, timing)
  {
    match ReadTaskAttribute("metadata_")
    case Err(e) => Err(e)
    case Ok(_) => Ok(ShardInferenceOutcome(cache, jsonDigest, task, proof, timing))
  }

  /** `validate_inference_proof` as written: it fetches the cache, then reads `task.metadata_`. */
  function InferenceProofAsWritten(cache: map<string, GroundTruthEntry>, jsonDigest: seq<real> -> string,
                                   task: Task, proof: InferenceProof): (r: Result<bool, string>)
    ensures r.Err? <==> "metadata_" !in TaskAttributes
    ensures r.Err? ==> r.error == NoAttribute("metadata_")
    ensures r.Ok? ==> r.value == InferenceProofOk(cache, jsonDigest, task, proof)
  {
    match ReadTaskAttribute("metadata_")
    case Err(e) => Err(e)
    case Ok(_) => Ok(InferenceProofOk(cache, jsonDigest, task, proof))
  }

  /**
   * As written, both checks raise `AttributeError` for every task, so neither
   * the key errors nor a layer verdict is ever returned.
   */
  lemma MetadataReadAlwaysRaises(cache: map<string, GroundTruthEntry>, jsonDigest: seq<real> -> string,
                                 task: Task, proof: InferenceProof, timing: TimingData)
    ensures ShardInferenceAsWritten(cache, jsonDigest, task, proof, timing) == Err(NoAttribute("metadata_"))
    ensures InferenceProofAsWritten(cache, jsonDigest, task, proof) == Err(NoAttribute("metadata_"))
  {
    assert "metadata_" !in TaskAttributes;
  }

  /** `InferenceValidator` with its ground-truth cache. */
  class InferenceValidator {
    const groundTruth: GroundTruthCache
    const jsonDigest: seq<real> -> string

    constructor (groundTruth: GroundTruthCache, jsonDigest: seq<real> -> string)
      ensures this.groundTruth == groundTruth && this.jsonDigest == jsonDigest
    {
      this.groundTruth := groundTruth;
      this.jsonDigest := jsonDigest;
    }

    /** `validate_shard_inference` */
    method ValidateShardInference(task: Task, proof: InferenceProof, timing: TimingData)
      returns (allValid: bool, results: seq<ShardValidationResult>)
      ensures (allValid, results) == ShardInferenceOutcome(groundTruth.cache, jsonDigest, task, proof, timing)
    {
      results := [];
      allValid := true;
      var timingValid := ValidateTiming(task, timing);
      if !timingValid {
        allValid := false;
      }
      var modelName := ShardModelName(task);
      var parsed := KeyInputHash(ShardKey(task));
      if parsed.Err? {
        return false, [UnknownResult(parsed.error)];
      }
      var inputHash := parsed.value;
      allValid, results := ValidateLayers(inputHash, modelName, proof.layerOutputs, allValid);
      if proof.finalPrediction.Some? {
        var gtEntry := groundTruth.GetGroundTruth(inputHash, modelName, FinalLayer);
        if gtEntry.Some? && gtEntry.value.topPrediction.Some? {
          if proof.finalPrediction.value != gtEntry.value.topPrediction.value {
            allValid := false;
          }
        }
      }
    }

    /** The layer loop of `validate_shard_inference`, starting from the timing verdict. */
    method ValidateLayers(inputHash: string, modelName: string, layers: seq<(string, seq<real>)>, timingValid: bool)
      returns (allValid: bool, results: seq<ShardValidationResult>)
      ensures results == LayerResults(groundTruth.cache, jsonDigest, inputHash, modelName, layers)
      ensures allValid == (timingValid && AllValid(results))
    {
      results := [];
      allValid := timingValid;
      var i := 0;
      while i < |layers|
        invariant 0 <= i <= |layers|
        invariant results == LayerResults(groundTruth.cache, jsonDigest, inputHash, modelName, layers[..i])
        invariant allValid == (timingValid && AllValid(results))
      {
        var layerName := layers[i].0;
        var gtEntry := groundTruth.GetGroundTruth(inputHash, modelName, ExtractLayerIndex(layerName));
        if gtEntry.Some? {
          var clientHash := jsonDigest(layers[i].1);
          var isValidLayer := clientHash == gtEntry.value.outputHash;
          var result := ShardValidationResult(isValidLayer, layerName, if isValidLayer then 1.0 else 0.0,
                                              None, Some(gtEntry.value.outputHash), Some(clientHash));
          AllValidSnoc(results, result);
          results := results + [result];
          if !isValidLayer {
            allValid := false;
          }
        }
        assert layers[..i + 1][..i] == layers[..i];
        i := i + 1;
      }
      assert layers[..i] == layers;
    }

    /** `validate_inference_proof`: stops at the first layer whose hash contradicts its entry. */
    method ValidateInferenceProof(task: Task, proof: InferenceProof) returns (ok: bool)
      ensures ok == InferenceProofOk(groundTruth.cache, jsonDigest, task, proof)
    {
      var modelName := ShardModelName(task);
      var parsed := KeyInputHash(ShardKey(task));
      if parsed.Err? {
        return false;
      }
      var inputHash := parsed.value;
      var layers := proof.layerOutputs;
      var i := 0;
      while i < |layers|
        invariant 0 <= i <= |layers|
        invariant forall k :: 0 <= k < i ==> LayerMatches(groundTruth.cache, jsonDigest, inputHash, modelName, layers[k])
      {
        var gtEntry := groundTruth.GetGroundTruth(inputHash, modelName, ExtractLayerIndex(layers[i].0));
        if gtEntry.Some? {
          var clientHash := jsonDigest(layers[i].1);
          if clientHash != gtEntry.value.outputHash {
            assert !LayerMatches(groundTruth.cache, jsonDigest, inputHash, modelName, layers[i]);
            return false;
          }
        }
        i := i + 1;
      }
      return true;
    }
  }

  lemma AllValidSnoc(rs: seq<ShardValidationResult>, r: ShardValidationResult)
    ensures AllValid(rs + [r]) <==> AllValid(rs) && r.isValid
  {
    assert (rs + [r])[|rs|] == r;
    assert forall j :: 0 <= j < |rs| ==> (rs + [r])[j] == rs[j];
  }

  // ------------------------------------------------------------------ human verification

  /**
   * `should_require_verification`: always for the bot-like tier; otherwise
   * when the uniform draw falls under 0.5 (suspicious) or 0.1 (any other tier).
   */
  function ShouldRequireVerification(session: Session, draw: real): (r: bool)
    ensures session.difficultyTier == "bot_like" ==> r
    ensures draw < 0.1 ==> r
    ensures draw >= 0.5 ==> (r <==> session.difficultyTier == "bot_like")
    ensures session.difficultyTier == "suspicious" ==> (r <==> draw < 0.5)
  {
    if session.difficultyTier == "bot_like" then true
    else if session.difficultyTier == "suspicious" then draw < 0.5
    else draw < 0.1
  }

  /** With the same draw, a riskier tier never asks for verification less often. */
  lemma VerificationMonotoneInTier(session: Session, draw: real)
    ensures ShouldRequireVerification(session.(difficultyTier := "normal"), draw)
            ==> ShouldRequireVerification(session.(difficultyTier := "suspicious"), draw)
    ensures ShouldRequireVerification(session.(difficultyTier := "suspicious"), draw)
            ==> ShouldRequireVerification(session.(difficultyTier := "bot_like"), draw)
  {
  }
}
