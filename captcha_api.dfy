/**
 * The CAPTCHA endpoints (server/app/api/captcha.py): the submit handler's
 * checks and state changes, the validate handler's decision, and the small
 * helpers they share.
 *
 * The database is the shared `Db` object and Redis the in-memory store. What
 * the handler commits is what the model leaves in `db`; a failure before the
 * commit leaves `db` as it was (the request's database session is rolled
 * back). Randomness (the new ids, the verification draw), the clock and the
 * JWT and base64 encoders are parameters.
 */
module CaptchaApi {
  import opened Wrappers
  import opened Text
  import opened Numeric
  import opened Config
  import opened SessionModel
  import opened Records
  import opened RedisStore
  import opened CaptchaSchemas
  import opened InferenceValidation
  import ModelRegistry

  /** An `HTTPException`: status code and detail text. */
  datatype ApiError = ApiError(statusCode: int, detail: string)

  const SessionNotFound: ApiError := ApiError(404, "Session not found")
  const SessionExpired: ApiError := ApiError(410, "Session expired")
  const TaskNotFound: ApiError := ApiError(404, "Task not found")
  const SubmitFailed: ApiError := ApiError(500, "Failed to submit CAPTCHA")

  /**
   * What the handlers call but this model does not look inside: the JWT
   * codec (`generate_captcha_token` with the clock reading, `verify_jwt_token`
   * with the clock reading, which rejects a bad signature or a passed `exp`)
   * and base64.
   */
  datatype Services = Services(
    settings: Settings,
    issueToken: (Uuid, string, int) -> string,
    decodeToken: (string, int) -> Option<Claims>,
    base64: seq<bv8> -> string)

  /** The claims `validate_captcha` reads from a decoded token: a missing or non-text `session_id` is `None`. */
  datatype Claims = Claims(tokenType: Option<string>, sessionId: Option<string>, exp: Option<int>)

  // ------------------------------------------------------------------ helpers

  /** The client address: the first `X-Forwarded-For` entry trimmed, "unknown" without the header. */
  function ClientIp(xff: Option<string>): (ip: string)
    ensures xff.None? || xff.value == "" ==> ip == "unknown"
    ensures xff.Some? && xff.value != "" ==> ',' !in ip
  {
    if xff.None? || xff.value == "" then "unknown"
    else
      var first := Split(xff.value, ',')[0];
      StripIsSlice(first, Whitespace);
      Strip(first, Whitespace)
  }

  /** With several entries the address is the first one, trimmed, whatever follows the first comma. */
  lemma ClientIpFirstEntry(first: string, rest: string)
    requires ',' !in first
    ensures ClientIp(Some(first + [','] + rest)) == Strip(first, Whitespace)
  {
    SplitAtFirst(first, rest, ',');
  }

  /** A header with one entry gives that entry, trimmed. */
  lemma ClientIpSingleEntry(entry: string)
    requires ',' !in entry && entry != ""
    ensures ClientIp(Some(entry)) == Strip(entry, Whitespace)
  {
    SplitWithoutSeparator(entry, ',');
  }

  /** `_get_model_labels`: the two known label lists, none for any other model. */
  function ModelLabels(modelName: string): (labels: seq<string>)
    ensures modelName != "cifar10-mobilenet" && modelName != "imdb-distilbert" ==> labels == []
  {
    var known := map["cifar10-mobilenet" := ModelRegistry.CifarLabels, "imdb-distilbert" := ModelRegistry.ImdbLabels];
    if modelName in known then known[modelName] else []
  }

  /** The handler's label table agrees with the model registry's built-in models. */
  lemma ModelLabelsAgreeWithRegistry(cdnUrl: string, i: nat)
    requires i < 2
    ensures ModelLabels(ModelRegistry.BuiltinModels(cdnUrl)[i].name) == ModelRegistry.BuiltinModels(cdnUrl)[i].outputLabels
  {
  }

  /** `_encode_sample_data`: base64 of a non-empty blob, None otherwise. */
  function EncodeSampleData(sample: Sample, base64: seq<bv8> -> string): (r: Option<string>)
    ensures r.None? <==> sample.dataBlob.None? || |sample.dataBlob.value| == 0
    ensures r.Some? ==> r.value == base64(sample.dataBlob.value)
  {
    if sample.dataBlob.Some? && |sample.dataBlob.value| > 0 then Some(base64(sample.dataBlob.value)) else None
  }

  /** The key of the session `_get_session` finds: None for text that is not a UUID, or a UUID with no row. */
  function SessionKey(sessions: map<Uuid, Session>, idText: string): (k: Option<Uuid>)
    ensures k.Some? <==> ParseUuid(idText).Some? && ParseUuid(idText).value in sessions
    ensures k.Some? ==> k == ParseUuid(idText)
  {
    var u := ParseUuid(idText);
    if u.Some? && u.value in sessions then u else None
  }

  /** The key of the task `_get_task` finds: a UUID naming a task of the given session. */
  function TaskKey(tasks: map<Uuid, Task>, idText: string, sessionId: Uuid): (k: Option<Uuid>)
    ensures k.Some? <==> ParseUuid(idText).Some? && ParseUuid(idText).value in tasks
                         && tasks[ParseUuid(idText).value].sessionId == sessionId
    ensures k.Some? ==> k == ParseUuid(idText)
  {
    var u := ParseUuid(idText);
    if u.Some? && u.value in tasks && tasks[u.value].sessionId == sessionId then u else None
  }

  /** `str(session.id)` looks its own session up again, in any text form `uuid.UUID` accepts. */
  lemma SessionKeyOfCanonicalId(sessions: map<Uuid, Session>, h: string)
    requires |h| == 32 && forall i :: 0 <= i < 32 ==> h[i] in HexDigits
    requires CanonicalUuid(h) in sessions
    ensures SessionKey(sessions, CanonicalUuid(h)) == Some(CanonicalUuid(h))
  {
    CanonicalUuidRoundTrip(h);
  }

  /** Text that is not a UUID finds no session, even when a row is stored under that very text. */
  lemma SessionKeyNeedsUuid(sessions: map<Uuid, Session>, idText: string)
    requires ParseUuid(idText).None?
    ensures SessionKey(sessions, idText).None?
  {
  }

  // ------------------------------------------------------------------ submit

  /** The Redis key of a pending verification. */
  function VerificationKey(verificationId: string): (k: string)
    ensures k == "verification:" + verificationId
  {
    PrefixedKey("verification", verificationId)
  }

  /** The value stored under it: the session and the prediction, joined by a colon. */
  function VerificationRecord(sessionId: Uuid, predictionId: Uuid): string
  {
    sessionId + ":" + predictionId
  }

  const VerificationOptions: seq<map<string, string>> :=
    [map["id" := "confirm", "label" := "Yes, correct"], map["id" := "reject", "label" := "No, wrong"]]

  function Prompt(predicted: string): string
  {
    "Is this a " + predicted + "?"
  }

  /** `task.sample`: the row its `sample_id` names, if any. */
  function TaskSample(samples: map<Uuid, Sample>, task: Task): (r: Option<Sample>)
    ensures r.Some? <==> task.sampleId.Some? && task.sampleId.value in samples
    ensures r.Some? ==> r.value == samples[task.sampleId.value]
  {
    if task.sampleId.Some? && task.sampleId.value in samples then Some(samples[task.sampleId.value]) else None
  }

  /** What the verification prompt shows: the sample's URL, or its inline data when it has no URL. */
  function DisplayData(sample: Sample, base64: seq<bv8> -> string): (d: VerificationDisplayData)
    ensures d.displayType == sample.dataType && d.url == sample.dataUrl
    ensures d.content.Some? ==> (sample.dataUrl.None? || sample.dataUrl.value == "") && sample.dataBlob.Some?
  {
    var noUrl := sample.dataUrl.None? || sample.dataUrl.value == "";
    VerificationDisplayData(sample.dataType, sample.dataUrl, if noUrl then EncodeSampleData(sample, base64) else None)
  }

  /** The prediction row the handler stores. */
  function PredictionRow(id: Uuid, task: Task, session: Session, request: CaptchaSubmitRequest, isValid: bool): Prediction
  {
    Prediction(id, task.id, session.id, task.sampleId, request.prediction.predicted, request.prediction.confidence,
               request.timing.inferenceMs, request.proofOfWork.hash, Some(isValid))
  }

  /** What a submit leaves behind: the committed tables, the Redis store, and the response or error. */
  datatype SubmitOutcome = SubmitOutcome(tables: Tables, store: Store, response: Result<CaptchaSubmitResponse, ApiError>)

  /**
   * `submit_captcha`. The session, its expiry and the task's ownership are
   * checked before anything is written.
   */
  function SubmitOp(t: Tables, st: Store, request: CaptchaSubmitRequest, now: int,
                    predictionId: Uuid, verificationId: Uuid, draw: real, env: Services): SubmitOutcome
  {
    var sessionKey := SessionKey(t.sessions, request.sessionId);
    if sessionKey.None? then SubmitOutcome(t, st, Err(SessionNotFound))
    else if IsExpired(t.sessions[sessionKey.value], now) then SubmitOutcome(t, st, Err(SessionExpired))
    else
      var taskKey := TaskKey(t.tasks, request.taskId, t.sessions[sessionKey.value].id);
      if taskKey.None? then SubmitOutcome(t, st, Err(TaskNotFound))
      else SubmitAccepted(t, st, sessionKey.value, taskKey.value, request, now, predictionId, verificationId, draw, env)
  }

  /**
   * `submit_captcha` once the checks have passed. A clashing prediction id
   * makes the flush fail (500, nothing stored). In the verification branch
   * the Redis record is written and the session committed as "verifying"
   * before the response is built, so a task without a sample gives 500 after
   * both.
   */
  function SubmitAccepted(t: Tables, st: Store, sessionKey: Uuid, taskKey: Uuid, request: CaptchaSubmitRequest, now: int,
                          predictionId: Uuid, verificationId: Uuid, draw: real, env: Services): SubmitOutcome
    requires sessionKey in t.sessions && taskKey in t.tasks
  {
    if predictionId in t.predictions then SubmitOutcome(t, st, Err(SubmitFailed))
    else
      var session := t.sessions[sessionKey];
      var task := t.tasks[taskKey];
      var isValid := ValidatePrediction(task, request.prediction, request.proofOfWork, request.timing);
      var t1 := t.(predictions := t.predictions[predictionId := PredictionRow(predictionId, task, session, request, isValid)]);
      var ttl := env.settings.captchaTokenExpirySeconds;
      if ShouldRequireVerification(session, draw) then
        var st1 := SetOp(st, VerificationKey(verificationId), Str(VerificationRecord(session.id, predictionId)), Some(ttl), now);
        var t2 := t1.(sessions := t1.sessions[sessionKey := session.(status := "verifying")]);
        var sample := TaskSample(t2.samples, task);
        if sample.None? then SubmitOutcome(t2, st1, Err(SubmitFailed))
        else
          var info := VerificationInfo(verificationId, DisplayData(sample.value, env.base64), request.prediction.predicted,
                                       Prompt(request.prediction.predicted), VerificationOptions);
          SubmitOutcome(t2, st1, Ok(CaptchaSubmitResponse(true, true, Some(info), None, None)))
      else
        var token := env.issueToken(session.id, session.domain, now);
        var t2 := t1.(sessions := t1.sessions[sessionKey := session.(status := "completed", completedAt := Some(now))],
                      tasks := t1.tasks[taskKey := task.(status := "completed")]);
        SubmitOutcome(t2, st, Ok(CaptchaSubmitResponse(true, false, None, Some(token), Some(now + ttl * Second))))
  }

  /**
   * The three checks come first, in order, and a failed one changes nothing;
   * a request that passes them names its session and a task of that session.
   */
  lemma SubmitChecksFirst(t: Tables, st: Store, request: CaptchaSubmitRequest, now: int,
                          predictionId: Uuid, verificationId: Uuid, draw: real, env: Services)
    ensures var o := SubmitOp(t, st, request, now, predictionId, verificationId, draw, env);
            var k := SessionKey(t.sessions, request.sessionId);
            (k.None? ==> o == SubmitOutcome(t, st, Err(SessionNotFound)))
            && (k.Some? && IsExpired(t.sessions[k.value], now) ==> o == SubmitOutcome(t, st, Err(SessionExpired)))
            && (k.Some? && !IsExpired(t.sessions[k.value], now) ==>
                 var tk := TaskKey(t.tasks, request.taskId, t.sessions[k.value].id);
                 (tk.None? ==> o == SubmitOutcome(t, st, Err(TaskNotFound)))
                 && (tk.Some? ==> t.tasks[tk.value].sessionId == t.sessions[k.value].id
                                  && o == SubmitAccepted(t, st, k.value, tk.value, request, now, predictionId, verificationId, draw, env)))
  {
  }

  /** Every accepted request stores exactly one prediction row, with the validator's verdict. */
  lemma SubmitStoresPrediction(t: Tables, st: Store, sessionKey: Uuid, taskKey: Uuid, request: CaptchaSubmitRequest, now: int,
                               predictionId: Uuid, verificationId: Uuid, draw: real, env: Services)
    requires sessionKey in t.sessions && taskKey in t.tasks
    requires predictionId !in t.predictions
    ensures var o := SubmitAccepted(t, st, sessionKey, taskKey, request, now, predictionId, verificationId, draw, env);
            var task := t.tasks[taskKey];
            o.tables.predictions.Keys == t.predictions.Keys + {predictionId}
            && o.tables.predictions[predictionId].isValid
               == Some(ValidatePrediction(task, request.prediction, request.proofOfWork, request.timing))
            && o.tables.predictions[predictionId].sessionId == t.sessions[sessionKey].id
            && o.tables.predictions[predictionId].taskId == task.id
            && (forall p :: p in t.predictions ==> o.tables.predictions[p] == t.predictions[p])
  {
    var task := t.tasks[taskKey];
    var row := PredictionRow(predictionId, task, t.sessions[sessionKey], request,
                             ValidatePrediction(task, request.prediction, request.proofOfWork, request.timing));
    var o := SubmitAccepted(t, st, sessionKey, taskKey, request, now, predictionId, verificationId, draw, env);
    assert o.tables.predictions == t.predictions[predictionId := row];
  }

  /**
   * The verification branch: the session waits as "verifying", the record
   * `session:prediction` is live until the token lifetime has passed, and the
   * response asks about the predicted label and carries no token.
   */
  lemma SubmitVerificationBranch(t: Tables, st: Store, sessionKey: Uuid, taskKey: Uuid, request: CaptchaSubmitRequest, now: int,
                                 predictionId: Uuid, verificationId: Uuid, draw: real, env: Services, later: int)
    requires sessionKey in t.sessions && taskKey in t.tasks
    requires ShouldRequireVerification(t.sessions[sessionKey], draw)
    requires predictionId !in t.predictions
    requires env.settings.captchaTokenExpirySeconds != 0
    requires later < now + env.settings.captchaTokenExpirySeconds * Second
    ensures var o := SubmitAccepted(t, st, sessionKey, taskKey, request, now, predictionId, verificationId, draw, env);
            o.tables.sessions == t.sessions[sessionKey := t.sessions[sessionKey].(status := "verifying")]
            && o.tables.tasks == t.tasks
            && GetOp(o.store, VerificationKey(verificationId), later).1
               == Some(VerificationRecord(t.sessions[sessionKey].id, predictionId))
            && (o.response.Ok? ==> o.response.value.requiresVerification && o.response.value.captchaToken.None?
                                   && o.response.value.verification.Some?
                                   && o.response.value.verification.value.verificationId == verificationId
                                   && o.response.value.verification.value.predictedLabel == request.prediction.predicted)
            && (o.response.Err? <==> TaskSample(t.samples, t.tasks[taskKey]).None?)
  {
  }

  /**
   * The completion branch: session and task become "completed" with the
   * completion time set, Redis is untouched, and the response carries the
   * token and its expiry.
   */
  lemma SubmitCompletionBranch(t: Tables, st: Store, sessionKey: Uuid, taskKey: Uuid, request: CaptchaSubmitRequest, now: int,
                               predictionId: Uuid, verificationId: Uuid, draw: real, env: Services)
    requires sessionKey in t.sessions && taskKey in t.tasks
    requires !ShouldRequireVerification(t.sessions[sessionKey], draw)
    requires predictionId !in t.predictions
    ensures var o := SubmitAccepted(t, st, sessionKey, taskKey, request, now, predictionId, verificationId, draw, env);
            var s := t.sessions[sessionKey];
            o.store == st
            && o.tables.sessions == t.sessions[sessionKey := s.(status := "completed", completedAt := Some(now))]
            && o.tables.tasks == t.tasks[taskKey := t.tasks[taskKey].(status := "completed")]
            && o.response == Ok(CaptchaSubmitResponse(true, false, None, Some(env.issueToken(s.id, s.domain, now)),
                                                      Some(now + env.settings.captchaTokenExpirySeconds * Second)))
  {
  }

  /** A bot-like session is always sent to human verification, so submit never hands it a token. */
  lemma BotLikeNeverGetsTokenFromSubmit(t: Tables, st: Store, sessionKey: Uuid, taskKey: Uuid, request: CaptchaSubmitRequest, now: int,
                                        predictionId: Uuid, verificationId: Uuid, draw: real, env: Services)
    requires sessionKey in t.sessions && taskKey in t.tasks
    requires t.sessions[sessionKey].difficultyTier == "bot_like"
    ensures var o := SubmitAccepted(t, st, sessionKey, taskKey, request, now, predictionId, verificationId, draw, env);
            (o.response.Ok? ==> o.response.value.captchaToken.None?)
            && sessionKey in o.tables.sessions
            && o.tables.sessions[sessionKey].status in {"verifying", t.sessions[sessionKey].status}
  {
  }

  /** Submit moves at most the requested session, and only to "verifying" or "completed". */
  lemma SubmitStatusTransitions(t: Tables, st: Store, sessionKey: Uuid, taskKey: Uuid, request: CaptchaSubmitRequest, now: int,
                                predictionId: Uuid, verificationId: Uuid, draw: real, env: Services)
    requires sessionKey in t.sessions && taskKey in t.tasks
    ensures var o := SubmitAccepted(t, st, sessionKey, taskKey, request, now, predictionId, verificationId, draw, env);
            o.tables.sessions == t.sessions
            || (o.tables.sessions == t.sessions[sessionKey := o.tables.sessions[sessionKey]]
                && o.tables.sessions[sessionKey].status in {"verifying", "completed"})
  {
  }

  // ------------------------------------------------------------------ validate

  /** `datetime.fromtimestamp(exp)` on a server whose local clock is `utcOffset` ahead of UTC, as a UTC instant. */
  function LocalExpiryInstant(exp: int, utcOffset: int): int
  {
    exp * Second + utcOffset
  }

  /** `exp` read as the UTC instant it stands for. */
  function UtcExpiryInstant(exp: int): int
  {
    exp * Second
  }

  /** `validate_captcha` once the token is decoded, with the instant the `exp` claim is taken to mean. */
  function ValidateClaims(t: Tables, claims: Option<Claims>, now: int, expiryInstant: int -> int): (r: CaptchaValidateResponse)
    ensures r.valid <==>
      claims.Some? && claims.value.sessionId.Some? && claims.value.sessionId.value != ""
      && SessionKey(t.sessions, claims.value.sessionId.value).Some?
      && t.sessions[SessionKey(t.sessions, claims.value.sessionId.value).value].status == "completed"
      && !(claims.value.exp.Some? && claims.value.exp.value != 0 && expiryInstant(claims.value.exp.value) < now)
    ensures r.valid ==>
      var s := t.sessions[SessionKey(t.sessions, claims.value.sessionId.value).value];
      r.sessionId == Some(s.id) && r.domain == Some(s.domain) && r.completedAt == s.completedAt
      && r.difficulty == Some(s.difficultyTier)
    ensures !r.valid ==> r == ValidateResponse(false)
  {
    if claims.None? then ValidateResponse(false)
    else
      var c := claims.value;
      if c.sessionId.None? || c.sessionId.value == "" then ValidateResponse(false)
      else
        var k := SessionKey(t.sessions, c.sessionId.value);
        if k.None? || t.sessions[k.value].status != "completed" then ValidateResponse(false)
        else if c.exp.Some? && c.exp.value != 0 && expiryInstant(c.exp.value) < now then ValidateResponse(false)
        else
          var s := t.sessions[k.value];
          var verified := exists v :: v in t.verifications && v.sessionId == s.id;
          CaptchaValidateResponse(true, Some(s.id), Some(s.domain), s.completedAt, Some(s.difficultyTier), Some(verified))
  }

  /** The check as written: `exp` read on the server's local clock and compared with UTC now. */
  function ValidateClaimsAsWritten(t: Tables, claims: Option<Claims>, now: int, utcOffset: int): (r: CaptchaValidateResponse)
    ensures utcOffset == 0 ==> r == ValidateClaims(t, claims, now, UtcExpiryInstant)
  {
    ValidateClaims(t, claims, now, e => LocalExpiryInstant(e, utcOffset))
  }

  /** The check as intended: `exp` read in UTC, like the clock it is compared with. */
  function ValidateClaimsUtc(t: Tables, claims: Option<Claims>, now: int): (r: CaptchaValidateResponse)
    ensures r.valid ==> claims.Some? && claims.value.sessionId.Some?
                        && SessionKey(t.sessions, claims.value.sessionId.value).Some?
                        && IsCompleted(t.sessions[SessionKey(t.sessions, claims.value.sessionId.value).value])
  {
    ValidateClaims(t, claims, now, UtcExpiryInstant)
  }

  /** Read in UTC, a token of a completed session is accepted until its `exp` second has passed. */
  lemma TokenWithinLifetimeValidates(t: Tables, sid: string, tokenType: Option<string>, exp: int, now: int)
    requires sid != "" && SessionKey(t.sessions, sid).Some?
    requires IsCompleted(t.sessions[SessionKey(t.sessions, sid).value])
    requires now <= exp * Second
    ensures ValidateClaimsUtc(t, Some(Claims(tokenType, Some(sid), Some(exp))), now).valid
  {
  }

  /**
   * As written, on a server running five hours behind UTC, a token issued
   * this second with the default 300-second lifetime is already rejected.
   */
  lemma LocalClockRejectsFreshToken(t: Tables, sid: string, nowSeconds: int)
    requires nowSeconds >= 0
    requires sid != "" && SessionKey(t.sessions, sid).Some?
    requires IsCompleted(t.sessions[SessionKey(t.sessions, sid).value])
    ensures var claims := Some(Claims(Some("captcha_token"), Some(sid), Some(nowSeconds + Defaults.captchaTokenExpirySeconds)));
            var utcMinusFive := -5 * 3600 * Second;
            !ValidateClaimsAsWritten(t, claims, nowSeconds * Second, utcMinusFive).valid
            && ValidateClaimsUtc(t, claims, nowSeconds * Second).valid
  {
    var exp := nowSeconds + Defaults.captchaTokenExpirySeconds;
    assert exp == nowSeconds + 300;
    var utcMinusFive := -5 * 3600 * Second;
    var claims := Some(Claims(Some("captcha_token"), Some(sid), Some(exp)));
    var local := e => LocalExpiryInstant(e, utcMinusFive);
    assert local(exp) < nowSeconds * Second;
    assert ValidateClaimsAsWritten(t, claims, nowSeconds * Second, utcMinusFive)
        == ValidateClaims(t, claims, nowSeconds * Second, local);
    assert !(UtcExpiryInstant(exp) < nowSeconds * Second);
  }

  /**
   * The token type is never looked at: the init challenge token, which also
   * names the session, validates like a completion token once the session
   * has completed.
   */
  lemma TokenTypeIgnored(t: Tables, c: Claims, otherType: Option<string>, now: int)
    ensures ValidateClaimsUtc(t, Some(c.(tokenType := otherType)), now) == ValidateClaimsUtc(t, Some(c), now)
  {
  }

  // ------------------------------------------------------------------ the handlers

  /** The CAPTCHA router over one request's database session and the shared Redis store. */
  class CaptchaRoutes {
    const db: Db
    const redis: InMemoryRedis
    const env: Services

    constructor (db: Db, redis: InMemoryRedis, env: Services)
      ensures this.db == db && this.redis == redis && this.env == env
    {
      this.db := db;
      this.redis := redis;
      this.env := env;
    }

    /** `submit_captcha`, step by step. */
    method SubmitCaptcha(request: CaptchaSubmitRequest, now: int, predictionId: Uuid, verificationId: Uuid, draw: real)
      returns (r: Result<CaptchaSubmitResponse, ApiError>)
      requires redis.Valid()
      modifies db, redis
      ensures redis.Valid()
      ensures SubmitOutcome(db.Snapshot(), redis.State(), r)
              == SubmitOp(old(db.Snapshot()), old(redis.State()), request, now, predictionId, verificationId, draw, env)
    {
      var sessionKey := SessionKey(db.sessions, request.sessionId);
      if sessionKey.None? {
        return Err(SessionNotFound);
      }
      var session := db.sessions[sessionKey.value];
      if IsExpired(session, now) {
        return Err(SessionExpired);
      }
      var taskKey := TaskKey(db.tasks, request.taskId, session.id);
      if taskKey.None? {
        return Err(TaskNotFound);
      }
      r := Accept(sessionKey.value, taskKey.value, request, now, predictionId, verificationId, draw);
    }

    /** The part of `submit_captcha` after the checks: store the prediction, then ask for verification or complete. */
    method Accept(sessionKey: Uuid, taskKey: Uuid, request: CaptchaSubmitRequest, now: int,
                  predictionId: Uuid, verificationId: Uuid, draw: real)
      returns (r: Result<CaptchaSubmitResponse, ApiError>)
      requires redis.Valid()
      requires sessionKey in db.sessions && taskKey in db.tasks
      modifies db, redis
      ensures redis.Valid()
      ensures SubmitOutcome(db.Snapshot(), redis.State(), r)
              == SubmitAccepted(old(db.Snapshot()), old(redis.State()), sessionKey, taskKey, request, now,
                                predictionId, verificationId, draw, env)
    {
      if predictionId in db.predictions {
        return Err(SubmitFailed);
      }
      var session := db.sessions[sessionKey];
      var task := db.tasks[taskKey];
      var isValid := ValidatePrediction(task, request.prediction, request.proofOfWork, request.timing);
      db.predictions := db.predictions[predictionId := PredictionRow(predictionId, task, session, request, isValid)];
      var ttl := env.settings.captchaTokenExpirySeconds;
      if ShouldRequireVerification(session, draw) {
        var _ := redis.Setex(VerificationKey(verificationId), ttl, Str(VerificationRecord(session.id, predictionId)), now);
        db.sessions := db.sessions[sessionKey := session.(status := "verifying")];
        var sample := TaskSample(db.samples, task);
        if sample.None? {
          return Err(SubmitFailed);
        }
        var info := VerificationInfo(verificationId, DisplayData(sample.value, env.base64), request.prediction.predicted,
                                     Prompt(request.prediction.predicted), VerificationOptions);
        r := Ok(CaptchaSubmitResponse(true, true, Some(info), None, None));
      } else {
        var token := env.issueToken(session.id, session.domain, now);
        var expiresAt := now + ttl * Second;
        db.sessions := db.sessions[sessionKey := session.(status := "completed", completedAt := Some(now))];
        db.tasks := db.tasks[taskKey := task.(status := "completed")];
        r := Ok(CaptchaSubmitResponse(true, false, None, Some(token), Some(expiresAt)));
      }
    }

    /** `validate_captcha`, with the expiry read in UTC. */
    function ValidateCaptcha(token: string, now: int): (r: CaptchaValidateResponse)
      reads db
      ensures r.valid ==> env.decodeToken(token, now).Some?
      ensures r == ValidateClaimsUtc(db.Snapshot(), env.decodeToken(token, now), now)
    {
      ValidateClaimsUtc(db.Snapshot(), env.decodeToken(token, now), now)
    }
  }
}
