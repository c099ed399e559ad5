/**
 * The CAPTCHA API's request and response models
 * (server/app/schemas/captcha.py). Each request model has a parser from a
 * decoded JSON object that enforces the declared field constraints, and an
 * encoder (`model_dump`) it round-trips with; response models are records
 * whose optional fields default to None. Instants are microseconds.
 */
module CaptchaSchemas {
  import opened Wrappers
  import opened Text
  import opened JsonFields

  // ------------------------------------------------------------------ init request

  datatype ClientMetadata = ClientMetadata(
    userAgent: string,
    language: string,
    timezone: string,
    screenWidth: Option<int>,
    screenHeight: Option<int>)

  datatype CaptchaInitRequest = CaptchaInitRequest(siteKey: string, clientMetadata: ClientMetadata)

  const SiteKeyMinLength: nat := 10

  predicate ValidInitRequest(r: CaptchaInitRequest)
  {
    |r.siteKey| >= SiteKeyMinLength
  }

  function ParseClientMetadata(obj: map<string, Json>, loc: seq<string>): (r: Parsed<ClientMetadata>)
    ensures r.Ok? ==> "user_agent" in obj && obj["user_agent"] == JStr(r.value.userAgent)
                      && "language" in obj && obj["language"] == JStr(r.value.language)
                      && "timezone" in obj && obj["timezone"] == JStr(r.value.timezone)
  {
    var ua := ReadStr(obj, "user_agent", loc);
    var lang := ReadStr(obj, "language", loc);
    var tz := ReadStr(obj, "timezone", loc);
    var w := ReadOptInt(obj, "screen_width", loc, None);
    var h := ReadOptInt(obj, "screen_height", loc, None);
    if ua.Ok? && lang.Ok? && tz.Ok? && w.Ok? && h.Ok? then Ok(ClientMetadata(ua.value, lang.value, tz.value, w.value, h.value))
    else Err(Errors(ua) + Errors(lang) + Errors(tz) + Errors(w) + Errors(h))
  }

  function ClientMetadataJson(m: ClientMetadata): map<string, Json>
  {
    map["user_agent" := JStr(m.userAgent), "language" := JStr(m.language), "timezone" := JStr(m.timezone),
        "screen_width" := OptIntJson(m.screenWidth), "screen_height" := OptIntJson(m.screenHeight)]
  }

  /** `CaptchaInitRequest` from a JSON object: a site key shorter than 10 characters is refused. */
  function ParseInitRequest(obj: map<string, Json>): (r: Parsed<CaptchaInitRequest>)
    ensures r.Ok? ==> ValidInitRequest(r.value) && "site_key" in obj && obj["site_key"] == JStr(r.value.siteKey)
    ensures "site_key" in obj && obj["site_key"].JStr? && |obj["site_key"].s| < SiteKeyMinLength ==>
      r.Err? && FieldError(["site_key"], TooShort(SiteKeyMinLength)) in r.error
  {
    assert [] + ["site_key"] == ["site_key"];
    var key := ReadStrMinLength(obj, "site_key", [], SiteKeyMinLength);
    var meta := ReadObject(obj, "client_metadata", []);
    var parsedMeta := if meta.Ok? then ParseClientMetadata(meta.value, ["client_metadata"]) else Err(Errors(meta));
    if key.Ok? && parsedMeta.Ok? then Ok(CaptchaInitRequest(key.value, parsedMeta.value))
    else Err(Errors(key) + Errors(parsedMeta))
  }

  function InitRequestJson(r: CaptchaInitRequest): map<string, Json>
  {
    map["site_key" := JStr(r.siteKey), "client_metadata" := JObject(ClientMetadataJson(r.clientMetadata))]
  }

  /** Every valid request is read back from its own dump. */
  lemma InitRequestRoundTrip(r: CaptchaInitRequest)
    requires ValidInitRequest(r)
    ensures ParseInitRequest(InitRequestJson(r)) == Ok(r)
  {
    assert ParseClientMetadata(ClientMetadataJson(r.clientMetadata), ["client_metadata"]) == Ok(r.clientMetadata);
  }

  // ------------------------------------------------------------------ predictions

  datatype TopKPrediction = TopKPrediction(predicted: string, confidence: real)

  datatype PredictionData = PredictionData(predicted: string, confidence: real, topK: seq<TopKPrediction>)

  predicate ValidTopK(p: TopKPrediction)
  {
    0.0 <= p.confidence <= 1.0
  }

  predicate ValidPrediction(p: PredictionData)
  {
    0.0 <= p.confidence <= 1.0 && forall i :: 0 <= i < |p.topK| ==> ValidTopK(p.topK[i])
  }

  function ParseTopK(j: Json, loc: seq<string>): (r: Parsed<TopKPrediction>)
    ensures r.Ok? ==> ValidTopK(r.value)
  {
    if !j.JObject? then Fail(loc, NotAnObject)
    else
      var predicted := ReadStr(j.fields, "label", loc);
      var conf := ReadUnit(j.fields, "confidence", loc);
      if predicted.Ok? && conf.Ok? then Ok(TopKPrediction(predicted.value, conf.value))
      else Err(Errors(predicted) + Errors(conf))
  }

  function TopKJson(p: TopKPrediction): Json
  {
    JObject(map["label" := JStr(p.predicted), "confidence" := JReal(p.confidence)])
  }

  /** `List[TopKPrediction]`, each entry located by its index. */
  function TopKItems(items: seq<Json>, loc: seq<string>): (r: Parsed<seq<TopKPrediction>>)
    ensures r.Ok? ==> |r.value| == |items| && forall i :: 0 <= i < |items| ==> ValidTopK(r.value[i])
  {
    if |items| == 0 then Ok([])
    else
      var init := TopKItems(items[..|items| - 1], loc);
      var here := ParseTopK(items[|items| - 1], loc + [NatToDecimal(|items| - 1)]);
      if init.Ok? && here.Ok? then Ok(init.value + [here.value])
      else Err(Errors(init) + Errors(here))
  }

  function TopKJsons(ps: seq<TopKPrediction>): (js: seq<Json>)
    ensures |js| == |ps| && forall i :: 0 <= i < |ps| ==> js[i] == TopKJson(ps[i])
  {
    seq(|ps|, i requires 0 <= i < |ps| => TopKJson(ps[i]))
  }

  lemma {:induction false} TopKItemsRoundTrip(ps: seq<TopKPrediction>, loc: seq<string>)
    requires forall i :: 0 <= i < |ps| ==> ValidTopK(ps[i])
    ensures TopKItems(TopKJsons(ps), loc) == Ok(ps)
    decreases |ps|
  {
    if |ps| > 0 {
      var init := ps[..|ps| - 1];
      assert TopKJsons(ps)[..|ps| - 1] == TopKJsons(init);
      TopKItemsRoundTrip(init, loc);
      assert init + [ps[|ps| - 1]] == ps;
    }
  }

  /** `PredictionData`: confidences in [0, 1], the top-k entries included. */
  function ParsePrediction(j: Json, loc: seq<string>): (r: Parsed<PredictionData>)
    ensures r.Ok? ==> ValidPrediction(r.value)
  {
    if !j.JObject? then Fail(loc, NotAnObject)
    else
      var predicted := ReadStr(j.fields, "label", loc);
      var conf := ReadUnit(j.fields, "confidence", loc);
      var list := ReadList(j.fields, "top_k", loc);
      var topK := if list.Ok? then TopKItems(list.value, loc + ["top_k"]) else Err(Errors(list));
      if predicted.Ok? && conf.Ok? && topK.Ok? then Ok(PredictionData(predicted.value, conf.value, topK.value))
      else Err(Errors(predicted) + Errors(conf) + Errors(topK))
  }

  function PredictionJson(p: PredictionData): Json
  {
    JObject(map["label" := JStr(p.predicted), "confidence" := JReal(p.confidence), "top_k" := JList(TopKJsons(p.topK))])
  }

  lemma PredictionRoundTrip(p: PredictionData, loc: seq<string>)
    requires ValidPrediction(p)
    ensures ParsePrediction(PredictionJson(p), loc) == Ok(p)
  {
    TopKItemsRoundTrip(p.topK, loc + ["top_k"]);
  }

  // ------------------------------------------------------------------ proof of work and timing

  datatype ProofOfWorkData = ProofOfWorkData(
    hash: string,
    nonce: int,
    modelChecksum: string,
    inputHash: string,
    outputHash: string)

  const PowHashMinLength: nat := 64

  predicate ValidProofOfWork(p: ProofOfWorkData)
  {
    |p.hash| >= PowHashMinLength && p.nonce >= 0
  }

  /** `ProofOfWorkData`: a hash of at least 64 characters and a non-negative nonce. */
  function ParseProofOfWork(j: Json, loc: seq<string>): (r: Parsed<ProofOfWorkData>)
    ensures r.Ok? ==> ValidProofOfWork(r.value)
  {
    if !j.JObject? then Fail(loc, NotAnObject)
    else
      var hash := ReadStrMinLength(j.fields, "hash", loc, PowHashMinLength);
      var nonce := ReadInt(j.fields, "nonce", loc, Some(0));
      var checksum := ReadStr(j.fields, "model_checksum", loc);
      var input := ReadStr(j.fields, "input_hash", loc);
      var output := ReadStr(j.fields, "output_hash", loc);
      if hash.Ok? && nonce.Ok? && checksum.Ok? && input.Ok? && output.Ok? then
        Ok(ProofOfWorkData(hash.value, nonce.value, checksum.value, input.value, output.value))
      else Err(Errors(hash) + Errors(nonce) + Errors(checksum) + Errors(input) + Errors(output))
  }

  function ProofOfWorkJson(p: ProofOfWorkData): Json
  {
    JObject(map["hash" := JStr(p.hash), "nonce" := JInt(p.nonce), "model_checksum" := JStr(p.modelChecksum),
                "input_hash" := JStr(p.inputHash), "output_hash" := JStr(p.outputHash)])
  }

  lemma ProofOfWorkRoundTrip(p: ProofOfWorkData, loc: seq<string>)
    requires ValidProofOfWork(p)
    ensures ParseProofOfWork(ProofOfWorkJson(p), loc) == Ok(p)
  {
  }

  datatype TimingData = TimingData(
    modelLoadMs: int,
    inferenceMs: int,
    totalMs: int,
    startedAt: int,
    completedAt: int)

  /** The three durations are non-negative; the two timestamps are unconstrained. */
  predicate ValidTiming(t: TimingData)
  {
    t.modelLoadMs >= 0 && t.inferenceMs >= 0 && t.totalMs >= 0
  }

  function ParseTiming(j: Json, loc: seq<string>): (r: Parsed<TimingData>)
    ensures r.Ok? ==> ValidTiming(r.value)
  {
    if !j.JObject? then Fail(loc, NotAnObject)
    else
      var load := ReadInt(j.fields, "model_load_ms", loc, Some(0));
      var inference := ReadInt(j.fields, "inference_ms", loc, Some(0));
      var total := ReadInt(j.fields, "total_ms", loc, Some(0));
      var started := ReadInt(j.fields, "started_at", loc, None);
      var completed := ReadInt(j.fields, "completed_at", loc, None);
      if load.Ok? && inference.Ok? && total.Ok? && started.Ok? && completed.Ok? then
        Ok(TimingData(load.value, inference.value, total.value, started.value, completed.value))
      else Err(Errors(load) + Errors(inference) + Errors(total) + Errors(started) + Errors(completed))
  }

  function TimingJson(t: TimingData): Json
  {
    JObject(map["model_load_ms" := JInt(t.modelLoadMs), "inference_ms" := JInt(t.inferenceMs),
                "total_ms" := JInt(t.totalMs), "started_at" := JInt(t.startedAt), "completed_at" := JInt(t.completedAt)])
  }

  /** Valid timings round-trip, and negative timestamps are among them. */
  lemma TimingRoundTrip(t: TimingData, loc: seq<string>)
    requires ValidTiming(t)
    ensures ParseTiming(TimingJson(t), loc) == Ok(t)
  {
  }

  // ------------------------------------------------------------------ submit request

  datatype CaptchaSubmitRequest = CaptchaSubmitRequest(
    sessionId: string,
    taskId: string,
    prediction: PredictionData,
    proofOfWork: ProofOfWorkData,
    timing: TimingData)

  predicate ValidSubmitRequest(r: CaptchaSubmitRequest)
  {
    ValidPrediction(r.prediction) && ValidProofOfWork(r.proofOfWork) && ValidTiming(r.timing)
  }

  function Under<T>(obj: map<string, Json>, name: string, parse: (Json, seq<string>) -> Parsed<T>): Parsed<T>
  {
    if name in obj then parse(obj[name], [name]) else Fail([name], Missing)
  }

  function ParseSubmitRequest(obj: map<string, Json>): (r: Parsed<CaptchaSubmitRequest>)
    ensures r.Ok? ==> ValidSubmitRequest(r.value)
  {
    var session := ReadStr(obj, "session_id", []);
    var task := ReadStr(obj, "task_id", []);
    var prediction := Under(obj, "prediction", ParsePrediction);
    var pow := Under(obj, "proof_of_work", ParseProofOfWork);
    var timing := Under(obj, "timing", ParseTiming);
    if session.Ok? && task.Ok? && prediction.Ok? && pow.Ok? && timing.Ok? then
      Ok(CaptchaSubmitRequest(session.value, task.value, prediction.value, pow.value, timing.value))
    else Err(Errors(session) + Errors(task) + Errors(prediction) + Errors(pow) + Errors(timing))
  }

  function SubmitRequestJson(r: CaptchaSubmitRequest): map<string, Json>
  {
    map["session_id" := JStr(r.sessionId), "task_id" := JStr(r.taskId), "prediction" := PredictionJson(r.prediction),
        "proof_of_work" := ProofOfWorkJson(r.proofOfWork), "timing" := TimingJson(r.timing)]
  }

  lemma SubmitRequestRoundTrip(r: CaptchaSubmitRequest)
    requires ValidSubmitRequest(r)
    ensures ParseSubmitRequest(SubmitRequestJson(r)) == Ok(r)
  {
    PredictionRoundTrip(r.prediction, ["prediction"]);
    ProofOfWorkRoundTrip(r.proofOfWork, ["proof_of_work"]);
    TimingRoundTrip(r.timing, ["timing"]);
  }

  // ------------------------------------------------------------------ task info

  datatype ModelMeta = ModelMeta(name: string, version: string, inputShape: seq<int>, labels: seq<string>, checksum: string)

  datatype TaskInfo = TaskInfo(
    taskId: string,
    modelUrl: string,
    sampleData: Option<string>,
    sampleUrl: Option<string>,
    sampleType: string,
    taskType: string,
    expectedTimeMs: int,
    modelMeta: ModelMeta)

  function ParseModelMeta(j: Json, loc: seq<string>): (r: Parsed<ModelMeta>)
    ensures r.Ok? ==> j.JObject? && "input_shape" in j.fields && j.fields["input_shape"].JList?
                      && |r.value.inputShape| == |j.fields["input_shape"].items|
  {
    if !j.JObject? then Fail(loc, NotAnObject)
    else
      var name := ReadStr(j.fields, "name", loc);
      var version := ReadStr(j.fields, "version", loc);
      var shapeList := ReadList(j.fields, "input_shape", loc);
      var shape := if shapeList.Ok? then IntItems(shapeList.value, loc + ["input_shape"]) else Err(Errors(shapeList));
      var labelList := ReadList(j.fields, "labels", loc);
      var labels := if labelList.Ok? then StrItems(labelList.value, loc + ["labels"]) else Err(Errors(labelList));
      var checksum := ReadStr(j.fields, "checksum", loc);
      if name.Ok? && version.Ok? && shape.Ok? && labels.Ok? && checksum.Ok? then
        Ok(ModelMeta(name.value, version.value, shape.value, labels.value, checksum.value))
      else Err(Errors(name) + Errors(version) + Errors(shape) + Errors(labels) + Errors(checksum))
  }

  function ModelMetaJson(m: ModelMeta): Json
  {
    JObject(map["name" := JStr(m.name), "version" := JStr(m.version), "input_shape" := JList(IntJsons(m.inputShape)),
                "labels" := JList(StrJsons(m.labels)), "checksum" := JStr(m.checksum)])
  }

  /** `TaskInfo`: `sample_data` and `sample_url` may be absent and then are None. */
  function ParseTaskInfo(j: Json, loc: seq<string>): (r: Parsed<TaskInfo>)
    ensures j.JObject? && r.Ok? && "sample_data" !in j.fields ==> r.value.sampleData.None?
    ensures j.JObject? && r.Ok? && "sample_url" !in j.fields ==> r.value.sampleUrl.None?
  {
    if !j.JObject? then Fail(loc, NotAnObject)
    else
      var id := ReadStr(j.fields, "task_id", loc);
      var url := ReadStr(j.fields, "model_url", loc);
      var data := ReadOptStr(j.fields, "sample_data", loc);
      var sampleUrl := ReadOptStr(j.fields, "sample_url", loc);
      var sampleType := ReadStr(j.fields, "sample_type", loc);
      var taskType := ReadStr(j.fields, "task_type", loc);
      var time := ReadInt(j.fields, "expected_time_ms", loc, None);
      var meta := if "model_meta" in j.fields then ParseModelMeta(j.fields["model_meta"], loc + ["model_meta"])
                  else Fail(loc + ["model_meta"], Missing);
      if id.Ok? && url.Ok? && data.Ok? && sampleUrl.Ok? && sampleType.Ok? && taskType.Ok? && time.Ok? && meta.Ok? then
        Ok(TaskInfo(id.value, url.value, data.value, sampleUrl.value, sampleType.value, taskType.value, time.value, meta.value))
      else Err(Errors(id) + Errors(url) + Errors(data) + Errors(sampleUrl) + Errors(sampleType) + Errors(taskType)
               + Errors(time) + Errors(meta))
  }

  function TaskInfoJson(t: TaskInfo): Json
  {
    JObject(map["task_id" := JStr(t.taskId), "model_url" := JStr(t.modelUrl), "sample_data" := OptStrJson(t.sampleData),
                "sample_url" := OptStrJson(t.sampleUrl), "sample_type" := JStr(t.sampleType),
                "task_type" := JStr(t.taskType), "expected_time_ms" := JInt(t.expectedTimeMs),
                "model_meta" := ModelMetaJson(t.modelMeta)])
  }

  lemma {:induction false} IntItemsRoundTrip(xs: seq<int>, loc: seq<string>)
    ensures IntItems(IntJsons(xs), loc) == Ok(xs)
    decreases |xs|
  {
    if |xs| > 0 {
      assert IntJsons(xs)[..|xs| - 1] == IntJsons(xs[..|xs| - 1]);
      IntItemsRoundTrip(xs[..|xs| - 1], loc);
      assert xs[..|xs| - 1] + [xs[|xs| - 1]] == xs;
    }
  }

  lemma {:induction false} StrItemsRoundTrip(xs: seq<string>, loc: seq<string>)
    ensures StrItems(StrJsons(xs), loc) == Ok(xs)
    decreases |xs|
  {
    if |xs| > 0 {
      assert StrJsons(xs)[..|xs| - 1] == StrJsons(xs[..|xs| - 1]);
      StrItemsRoundTrip(xs[..|xs| - 1], loc);
      assert xs[..|xs| - 1] + [xs[|xs| - 1]] == xs;
    }
  }

  lemma ModelMetaRoundTrip(m: ModelMeta, loc: seq<string>)
    ensures ParseModelMeta(ModelMetaJson(m), loc) == Ok(m)
  {
    IntItemsRoundTrip(m.inputShape, loc + ["input_shape"]);
    StrItemsRoundTrip(m.labels, loc + ["labels"]);
  }

  /** Any task description is read back from its dump, the optional parts included. */
  lemma TaskInfoRoundTrip(t: TaskInfo, loc: seq<string>)
    ensures ParseTaskInfo(TaskInfoJson(t), loc) == Ok(t)
  {
    ModelMetaRoundTrip(t.modelMeta, loc + ["model_meta"]);
  }

  // ------------------------------------------------------------------ responses

  datatype VerificationDisplayData = VerificationDisplayData(displayType: string, url: Option<string>, content: Option<string>)

  datatype VerificationInfo = VerificationInfo(
    verificationId: string,
    displayData: VerificationDisplayData,
    predictedLabel: string,
    prompt: string,
    options: seq<map<string, string>>)

  datatype CaptchaSubmitResponse = CaptchaSubmitResponse(
    success: bool,
    requiresVerification: bool,
    verification: Option<VerificationInfo>,
    captchaToken: Option<string>,
    expiresAt: Option<int>)

  /** `CaptchaSubmitResponse(success=..., requires_verification=...)` with the optional fields left out. */
  function SubmitResponse(success: bool, requiresVerification: bool): (r: CaptchaSubmitResponse)
    ensures r.success == success && r.requiresVerification == requiresVerification
    ensures r.verification.None? && r.captchaToken.None? && r.expiresAt.None?
  {
    CaptchaSubmitResponse(success, requiresVerification, None, None, None)
  }

  datatype CaptchaInitResponse = CaptchaInitResponse(
    sessionId: string,
    challengeToken: string,
    task: TaskInfo,
    difficulty: string,
    expiresAt: int)

  datatype CaptchaValidateResponse = CaptchaValidateResponse(
    valid: bool,
    sessionId: Option<string>,
    domain: Option<string>,
    completedAt: Option<int>,
    difficulty: Option<string>,
    verificationPerformed: Option<bool>)

  /** `CaptchaValidateResponse(valid=...)` with every other field at its default. */
  function ValidateResponse(valid: bool): (r: CaptchaValidateResponse)
    ensures r.valid == valid && r.sessionId.None? && r.domain.None? && r.completedAt.None?
    ensures r.difficulty.None? && r.verificationPerformed.None?
  {
    CaptchaValidateResponse(valid, None, None, None, None, None)
  }
}
