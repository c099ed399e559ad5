/**
 * The ground-truth table (server/app/ml/ground_truth_cache.py): expected
 * layer outputs of a model on a sample, keyed by the text
 * `model:sample:layer`, with a hash of the expected output and optionally the
 * output itself. The SHA-256 digests and the softmax confidence are
 * uninterpreted functions fixed when the cache is created; cache files on
 * disk are not modelled.
 */
module GroundTruth {
  import opened Wrappers
  import opened Text
  import opened Numeric

  // ------------------------------------------------------------------ arrays

  function Size(shape: seq<nat>): nat
  {
    if |shape| == 0 then 1 else Size(shape[..|shape| - 1]) * shape[|shape| - 1]
  }

  datatype NdArray = NdArray(shape: seq<nat>, flat: seq<real>)

  /** A numpy array: a shape and its elements in row-major order, as many as the shape holds. */
  type Tensor = t: NdArray | Size(t.shape) == |t.flat| witness NdArray([0], [])

  /** `np.array(xs)` of a flat list: one dimension, as long as the list. */
  function FromList(xs: seq<real>): (t: Tensor)
    ensures t.shape == [|xs|] && t.flat == xs
  {
    assert Size([|xs|]) == Size([]) * |xs|;
    NdArray([|xs|], xs)
  }

  /** `int(np.argmax(xs))`: the index of the first largest element. */
  function ArgMaxFirst(xs: seq<real>): (i: nat)
    requires |xs| > 0
    ensures i < |xs|
    ensures forall j :: 0 <= j < |xs| ==> xs[j] <= xs[i]
    ensures forall j :: 0 <= j < i ==> xs[j] < xs[i]
  {
    if |xs| == 1 then 0
    else
      var k := ArgMaxFirst(xs[..|xs| - 1]);
      if xs[|xs| - 1] > xs[k] then |xs| - 1 else k
  }

  /** `np.max(np.abs(a - b))` for two equally long, non-empty arrays. */
  function MaxAbsDiff(a: seq<real>, b: seq<real>): (m: real)
    requires |a| == |b| > 0
    ensures forall i :: 0 <= i < |a| ==> AbsReal(a[i] - b[i]) <= m
    ensures exists i :: 0 <= i < |a| && m == AbsReal(a[i] - b[i])
  {
    var last := AbsReal(a[|a| - 1] - b[|a| - 1]);
    if |a| == 1 then last
    else
      var rest := MaxAbsDiff(a[..|a| - 1], b[..|b| - 1]);
      assert forall i :: 0 <= i < |a| - 1 ==> a[..|a| - 1][i] == a[i] && b[..|b| - 1][i] == b[i];
      MaxReal(rest, last)
  }

  /** The largest difference exceeds the tolerance exactly when some element differs by more. */
  lemma MaxAbsDiffExceeds(a: seq<real>, b: seq<real>, tolerance: real)
    requires |a| == |b| > 0
    ensures MaxAbsDiff(a, b) > tolerance <==> exists i :: 0 <= i < |a| && AbsReal(a[i] - b[i]) > tolerance
  {
  }

  // ------------------------------------------------------------------ entries

  /** The digests and the softmax the cache applies, left uninterpreted. */
  datatype Digests = Digests(
    input: seq<real> -> string,
    output: Tensor -> string,
    topConfidence: seq<real> -> real)

  /** `GroundTruthEntry`; `layerIndex` -1 is the model's final output. */
  datatype GroundTruthEntry = GroundTruthEntry(
    sampleId: string,
    modelName: string,
    modelVersion: string,
    layerIndex: int,
    layerName: string,
    inputHash: string,
    outputHash: string,
    outputData: Option<seq<real>>,
    topPrediction: Option<int>,
    confidence: Option<real>)

  const FinalLayer: int := -1

  /** `_make_cache_key`: `"{model_name}:{sample_id}:{layer_index}"`. */
  function CacheKey(sampleId: string, modelName: string, layerIndex: int): string
  {
    modelName + ":" + sampleId + ":" + IntToDecimal(layerIndex)
  }

  /** Without colons in the names, the key splits back into the model, the sample and the layer. */
  lemma CacheKeyParts(sampleId: string, modelName: string, layerIndex: int)
    requires ':' !in sampleId && ':' !in modelName
    ensures Split(CacheKey(sampleId, modelName, layerIndex), ':') == [modelName, sampleId, IntToDecimal(layerIndex)]
  {
    DecimalLacks(layerIndex, ':');
    SplitThree(modelName, sampleId, IntToDecimal(layerIndex), ':');
  }

  /** Without colons in the names, distinct triples get distinct keys. */
  lemma CacheKeyInjective(s1: string, m1: string, l1: int, s2: string, m2: string, l2: int)
    requires ':' !in s1 && ':' !in m1 && ':' !in s2 && ':' !in m2
    requires CacheKey(s1, m1, l1) == CacheKey(s2, m2, l2)
    ensures s1 == s2 && m1 == m2 && l1 == l2
  {
    CacheKeyParts(s1, m1, l1);
    CacheKeyParts(s2, m2, l2);
    DecimalInjective(l1, l2);
  }

  /** A colon inside a name lets two different triples share one key. */
  lemma CacheKeyCollision()
    ensures CacheKey("b:c", "a", 1) == CacheKey("c", "a:b", 1)
  {
  }

  /** `int(np.argmax(output.flatten()))` when the output has elements, else None. */
  function TopPrediction(flat: seq<real>): (r: Option<int>)
    ensures r.None? <==> |flat| == 0
    ensures r.Some? ==> (0 <= r.value < |flat|
      && (forall j :: 0 <= j < |flat| ==> flat[j] <= flat[r.value])
      && (forall j :: 0 <= j < r.value ==> flat[j] < flat[r.value]))
  {
    if |flat| == 0 then None else Some(ArgMaxFirst(flat))
  }

  /** The entry `add_ground_truth` builds. */
  function NewEntry(d: Digests, sampleId: string, modelName: string, modelVersion: string, layerIndex: int,
                    layerName: string, inputData: seq<real>, output: Tensor, storeFullOutput: bool): (e: GroundTruthEntry)
    ensures e.sampleId == sampleId && e.modelName == modelName && e.modelVersion == modelVersion
    ensures e.layerIndex == layerIndex && e.layerName == layerName
    ensures e.inputHash == d.input(inputData) && e.outputHash == d.output(output)
    ensures e.outputData == if storeFullOutput then Some(output.flat) else None
    ensures e.topPrediction == TopPrediction(output.flat)
    ensures e.confidence.Some? <==> |output.flat| > 0
  {
    var top := TopPrediction(output.flat);
    GroundTruthEntry(sampleId, modelName, modelVersion, layerIndex, layerName, d.input(inputData), d.output(output),
                     if storeFullOutput then Some(output.flat) else None,
                     top, if top.Some? then Some(d.topConfidence(output.flat)) else None)
  }

  // ------------------------------------------------------------------ validation

  /** Why `validate_output` rejects a client output. */
  datatype Rejection =
    | NoGroundTruth(key: string)
    | ShapeMismatch(expected: seq<nat>, got: seq<nat>)
    | OutputMismatch(maxDiff: real, tolerance: real)

  datatype Verdict = Accepted | Rejected(reason: Rejection)
  {
    predicate IsValid() { Accepted? }
  }

  const DefaultTolerance: real := 0.00001

  /** numpy's error for `np.max` of an empty array. */
  const ZeroSizeMax: string := "zero-size array to reduction operation maximum which has no identity"

  /** Python's `str` of a shape tuple: `()`, `(3,)`, `(2, 3)`. */
  function ShapeText(shape: seq<nat>): string
  {
    if |shape| == 0 then "()"
    else if |shape| == 1 then "(" + NatToDecimal(shape[0]) + ",)"
    else "(" + DimsText(shape) + ")"
  }

  function DimsText(shape: seq<nat>): string
    decreases |shape|
  {
    if |shape| <= 1 then (if |shape| == 1 then NatToDecimal(shape[0]) else "")
    else NatToDecimal(shape[0]) + ", " + DimsText(shape[1..])
  }

  /**
   * The message `validate_output` returns with each rejection; floats print
   * through `realText`. It is never empty, so a caller's `error_msg or …`
   * keeps it.
   */
  function RejectionText(r: Rejection, realText: real -> string): (t: string)
    ensures |t| > 0
  {
    match r
    case NoGroundTruth(key) => "No ground truth found for " + key
    case ShapeMismatch(expected, got) =>
      "Output shape mismatch: expected " + ShapeText(expected) + ", got " + ShapeText(got)
    case OutputMismatch(maxDiff, tolerance) =>
      "Output mismatch: max difference " + realText(maxDiff) + " > tolerance " + realText(tolerance)
  }

  /**
   * `validate_output` against one looked-up entry. A matching digest accepts
   * at once; otherwise a stored output is compared element-wise, and without
   * one the output is accepted. An `Err` is numpy's exception.
   */
  function CheckAgainst(d: Digests, key: string, gt: Option<GroundTruthEntry>, client: Tensor, tolerance: real): (r: Result<Verdict, string>)
    ensures r == Ok(Rejected(NoGroundTruth(key))) <==> gt.None?
    ensures gt.Some? && d.output(client) == gt.value.outputHash ==> r == Ok(Accepted)
    ensures gt.Some? && d.output(client) != gt.value.outputHash && gt.value.outputData.None? ==> r == Ok(Accepted)
    ensures r.Err? <==> gt.Some? && d.output(client) != gt.value.outputHash && gt.value.outputData == Some([])
                        && client.shape == [0]
    ensures r.Err? ==> r.error == ZeroSizeMax
    ensures gt.Some? && d.output(client) != gt.value.outputHash && gt.value.outputData.Some? ==>
      var data := gt.value.outputData.value;
      (r == Ok(Rejected(ShapeMismatch([|data|], client.shape))) <==> client.shape != [|data|])
      && (client.shape == [|data|] && |data| > 0 ==>
            (r.Ok? && r.value.Rejected? <==>
               exists i :: 0 <= i < |data| && AbsReal(data[i] - client.flat[i]) > tolerance))
  {
    if gt.None? then Ok(Rejected(NoGroundTruth(key)))
    else if d.output(client) == gt.value.outputHash then Ok(Accepted)
    else if gt.value.outputData.Some? then
      var data := gt.value.outputData.value;
      if client.shape != [|data|] then Ok(Rejected(ShapeMismatch([|data|], client.shape)))
      else
        assert Size(client.shape) == Size([]) * |data|;
        if |data| == 0 then Err(ZeroSizeMax)
        else
          var maxDiff := MaxAbsDiff(data, client.flat);
          MaxAbsDiffExceeds(data, client.flat, tolerance);
          if maxDiff > tolerance then Ok(Rejected(OutputMismatch(maxDiff, tolerance))) else Ok(Accepted)
    else Ok(Accepted)
  }

  /** A client that sends back exactly the stored output is accepted whatever its digest. */
  lemma ExactOutputAccepted(d: Digests, key: string, e: GroundTruthEntry, tolerance: real)
    requires e.outputData.Some? && |e.outputData.value| > 0 && tolerance >= 0.0
    ensures CheckAgainst(d, key, Some(e), FromList(e.outputData.value), tolerance) == Ok(Accepted)
  {
    var data := e.outputData.value;
    MaxAbsDiffExceeds(data, data, tolerance);
  }

  // ------------------------------------------------------------------ statistics

  /** `CacheStats`; the on-disk size is not modelled and `models_cached` is a set. */
  datatype CacheStats = CacheStats(totalEntries: nat, modelsCached: set<string>, avgEntriesPerModel: real)

  function ModelsOf(cache: map<string, GroundTruthEntry>): set<string>
  {
    set k | k in cache :: cache[k].modelName
  }

  lemma {:induction false} SubsetCardinality<T>(a: set<T>, b: set<T>)
    requires a <= b
    ensures |a| <= |b|
    decreases |a|
  {
    if a != {} {
      var x :| x in a;
      SubsetCardinality(a - {x}, b - {x});
    }
  }

  /** Each cached model accounts for at least one entry. */
  lemma {:induction false} ModelsAtMostEntries(cache: map<string, GroundTruthEntry>)
    ensures |ModelsOf(cache)| <= |cache|
    ensures |ModelsOf(cache)| == 0 <==> |cache| == 0
    decreases |cache|
  {
    if |cache| > 0 {
      var k :| k in cache;
      var rest := cache - {k};
      ModelsAtMostEntries(rest);
      forall x | x in ModelsOf(cache)
        ensures x in ModelsOf(rest) + {cache[k].modelName}
      {
        var k' :| k' in cache && cache[k'].modelName == x;
        if k' != k {
          assert k' in rest;
        }
      }
      SubsetCardinality(ModelsOf(cache), ModelsOf(rest) + {cache[k].modelName});
      assert cache[k].modelName in ModelsOf(cache);
    }
  }

  /** `get_stats` over the entries. */
  function Stats(cache: map<string, GroundTruthEntry>): (s: CacheStats)
    ensures s.totalEntries == |cache|
    ensures forall m :: m in s.modelsCached <==> exists k :: k in cache && cache[k].modelName == m
  {
    var models := ModelsOf(cache);
    CacheStats(|cache|, models, |cache| as real / MaxInt(|models|, 1) as real)
  }

  /** The average lies between 1 and the total once anything is cached, and is 0 otherwise. */
  lemma StatsAverage(cache: map<string, GroundTruthEntry>)
    ensures |cache| == 0 ==> Stats(cache) == CacheStats(0, {}, 0.0)
    ensures |cache| > 0 ==> 1.0 <= Stats(cache).avgEntriesPerModel <= |cache| as real
  {
    ModelsAtMostEntries(cache);
    if |cache| > 0 {
      QuotientBounds(|cache| as real, MaxInt(|ModelsOf(cache)|, 1) as real);
    }
  }

  // ------------------------------------------------------------------ cache warming

  /** What `warm_cache` is asked to compute; `forward` runs the model up to a layer or fails. */
  datatype WarmJob = WarmJob(
    modelName: string,
    modelVersion: string,
    layerIndices: seq<int>,
    forward: (seq<real>, int) -> Result<Tensor, string>)

  /** One sample through `layers` in order; a failing layer is skipped. Full outputs are kept for layer -1 only. */
  function WarmLayers(d: Digests, c: map<string, GroundTruthEntry>, job: WarmJob, sampleId: string,
                      input: seq<real>, layers: seq<int>): map<string, GroundTruthEntry>
  {
    if |layers| == 0 then c
    else
      var before := WarmLayers(d, c, job, sampleId, input, layers[..|layers| - 1]);
      var l := layers[|layers| - 1];
      match job.forward(input, l)
      case Err(_) => before
      case Ok(output) =>
        before[CacheKey(sampleId, job.modelName, l) :=
               NewEntry(d, sampleId, job.modelName, job.modelVersion, l, "layer_" + IntToDecimal(l), input, output, l == FinalLayer)]
  }

  /** Every sample in order through every requested layer. */
  function WarmSamples(d: Digests, c: map<string, GroundTruthEntry>, job: WarmJob,
                       samples: seq<(string, seq<real>)>): map<string, GroundTruthEntry>
  {
    if |samples| == 0 then c
    else
      var s := samples[|samples| - 1];
      WarmLayers(d, WarmSamples(d, c, job, samples[..|samples| - 1]), job, s.0, s.1, job.layerIndices)
  }

  /** An entry warming writes belongs to the job's model and keeps its full output exactly for layer -1. */
  ghost predicate FromJob(e: GroundTruthEntry, job: WarmJob)
  {
    e.modelName == job.modelName && e.modelVersion == job.modelVersion
    && (e.outputData.Some? <==> e.layerIndex == FinalLayer)
  }

  /** Warming adds keys and never removes one; what it writes comes from the job. */
  lemma {:induction false} WarmLayersEntries(d: Digests, c: map<string, GroundTruthEntry>, job: WarmJob, sampleId: string,
                                             input: seq<real>, layers: seq<int>)
    ensures c.Keys <= WarmLayers(d, c, job, sampleId, input, layers).Keys
    ensures var r := WarmLayers(d, c, job, sampleId, input, layers);
      forall k :: k in r ==> (k in c && r[k] == c[k]) || FromJob(r[k], job)
    decreases |layers|
  {
    if |layers| > 0 {
      WarmLayersEntries(d, c, job, sampleId, input, layers[..|layers| - 1]);
    }
  }

  lemma {:induction false} WarmSamplesEntries(d: Digests, c: map<string, GroundTruthEntry>, job: WarmJob,
                                              samples: seq<(string, seq<real>)>)
    ensures c.Keys <= WarmSamples(d, c, job, samples).Keys
    ensures var r := WarmSamples(d, c, job, samples);
      forall k :: k in r ==> (k in c && r[k] == c[k]) || FromJob(r[k], job)
    decreases |samples|
  {
    if |samples| > 0 {
      var prefix := samples[..|samples| - 1];
      var s := samples[|samples| - 1];
      WarmSamplesEntries(d, c, job, prefix);
      WarmLayersEntries(d, WarmSamples(d, c, job, prefix), job, s.0, s.1, job.layerIndices);
    }
  }

  /** Every layer the model computes for a sample gets an entry, failures elsewhere notwithstanding. */
  lemma {:induction false} WarmLayersCovers(d: Digests, c: map<string, GroundTruthEntry>, job: WarmJob, sampleId: string,
                                            input: seq<real>, layers: seq<int>, j: nat)
    requires j < |layers| && job.forward(input, layers[j]).Ok?
    ensures CacheKey(sampleId, job.modelName, layers[j]) in WarmLayers(d, c, job, sampleId, input, layers)
    decreases |layers|
  {
    var prefix := layers[..|layers| - 1];
    if j < |layers| - 1 {
      assert prefix[j] == layers[j];
      WarmLayersCovers(d, c, job, sampleId, input, prefix, j);
    }
  }

  lemma {:induction false} WarmSamplesCovers(d: Digests, c: map<string, GroundTruthEntry>, job: WarmJob,
                                             samples: seq<(string, seq<real>)>, i: nat, j: nat)
    requires i < |samples| && j < |job.layerIndices|
    requires job.forward(samples[i].1, job.layerIndices[j]).Ok?
    ensures CacheKey(samples[i].0, job.modelName, job.layerIndices[j]) in WarmSamples(d, c, job, samples)
    decreases |samples|
  {
    var prefix := samples[..|samples| - 1];
    var s := samples[|samples| - 1];
    if i < |samples| - 1 {
      assert prefix[i] == samples[i];
      WarmSamplesCovers(d, c, job, prefix, i, j);
      WarmLayersEntries(d, WarmSamples(d, c, job, prefix), job, s.0, s.1, job.layerIndices);
    } else {
      WarmLayersCovers(d, WarmSamples(d, c, job, prefix), job, s.0, s.1, job.layerIndices, j);
    }
  }

  // ------------------------------------------------------------------ the cache

  /** `GroundTruthCache`: the in-memory table of entries. */
  class GroundTruthCache {
    var cache: map<string, GroundTruthEntry>
    const digests: Digests

    constructor (digests: Digests)
      ensures cache == map[] && this.digests == digests
    {
      this.cache := map[];
      this.digests := digests;
    }

    /** `add_ground_truth`: builds the entry and stores it under its key, replacing only that key. */
    method AddGroundTruth(sampleId: string, modelName: string, modelVersion: string, layerIndex: int,
                          layerName: string, inputData: seq<real>, outputData: Tensor, storeFullOutput: bool)
      returns (entry: GroundTruthEntry)
      modifies this
      ensures entry == NewEntry(digests, sampleId, modelName, modelVersion, layerIndex, layerName, inputData, outputData, storeFullOutput)
      ensures cache == old(cache)[CacheKey(sampleId, modelName, layerIndex) := entry]
      ensures GetGroundTruth(sampleId, modelName, layerIndex) == Some(entry)
      ensures forall s, m, l :: CacheKey(s, m, l) != CacheKey(sampleId, modelName, layerIndex) ==>
        GetGroundTruth(s, m, l) == old(GetGroundTruth(s, m, l))
    {
      entry := NewEntry(digests, sampleId, modelName, modelVersion, layerIndex, layerName, inputData, outputData, storeFullOutput);
      cache := cache[CacheKey(sampleId, modelName, layerIndex) := entry];
    }

    /** `get_ground_truth`; the final output is layer -1 (`FinalLayer`). */
    function GetGroundTruth(sampleId: string, modelName: string, layerIndex: int): (r: Option<GroundTruthEntry>)
      reads this
      ensures r.None? <==> CacheKey(sampleId, modelName, layerIndex) !in cache
      ensures r.Some? ==> r.value == cache[CacheKey(sampleId, modelName, layerIndex)]
    {
      var key := CacheKey(sampleId, modelName, layerIndex);
      if key in cache then Some(cache[key]) else None
    }

    /** `validate_output` */
    function ValidateOutput(sampleId: string, modelName: string, layerIndex: int, clientOutput: Tensor,
                            tolerance: real): (r: Result<Verdict, string>)
      reads this
      ensures r == CheckAgainst(digests, CacheKey(sampleId, modelName, layerIndex),
                                GetGroundTruth(sampleId, modelName, layerIndex), clientOutput, tolerance)
      ensures r == Ok(Rejected(NoGroundTruth(CacheKey(sampleId, modelName, layerIndex))))
              <==> CacheKey(sampleId, modelName, layerIndex) !in cache
    {
      CheckAgainst(digests, CacheKey(sampleId, modelName, layerIndex),
                   GetGroundTruth(sampleId, modelName, layerIndex), clientOutput, tolerance)
    }

    /** `get_stats` */
    function GetStats(): (s: CacheStats)
      reads this
      ensures s == Stats(cache)
    {
      Stats(cache)
    }

    /** `clear_cache` */
    method ClearCache()
      modifies this
      ensures cache == map[]
      ensures GetStats().totalEntries == 0 && GetStats().modelsCached == {}
    {
      cache := map[];
    }

    /** `warm_cache`: every sample through every requested layer, skipping the ones the model fails on. */
    method WarmCache(job: WarmJob, samples: seq<(string, seq<real>)>)
      modifies this
      ensures cache == WarmSamples(digests, old(cache), job, samples)
    {
      var i := 0;
      while i < |samples|
        invariant 0 <= i <= |samples|
        invariant cache == WarmSamples(digests, old(cache), job, samples[..i])
      {
        var (sampleId, inputData) := samples[i];
        var j := 0;
        while j < |job.layerIndices|
          invariant 0 <= j <= |job.layerIndices|
          invariant cache == WarmLayers(digests, WarmSamples(digests, old(cache), job, samples[..i]), job,
                                        sampleId, inputData, job.layerIndices[..j])
        {
          var layerIndex := job.layerIndices[j];
          var output := job.forward(inputData, layerIndex);
          if output.Ok? {
            var _ := AddGroundTruth(sampleId, job.modelName, job.modelVersion, layerIndex,
                                    "layer_" + IntToDecimal(layerIndex), inputData, output.value, layerIndex == FinalLayer);
          }
          assert job.layerIndices[..j + 1][..j] == job.layerIndices[..j];
          j := j + 1;
        }
        assert job.layerIndices[..j] == job.layerIndices;
        assert samples[..i + 1][..i] == samples[..i];
        i := i + 1;
      }
      assert samples[..i] == samples;
    }
  }
}
