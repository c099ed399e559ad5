/**
 * The human-verification endpoint (server/app/api/verification.py): the
 * pending record written by the submit handler is looked up and checked
 * against the request, the answer is stored as a verification, the golden
 * dataset is consulted when the answer yields a label, and the session
 * completes with a token.
 *
 * As in the submit handler, what is committed is what the model leaves in
 * `db`, a failure before the commit leaves `db` as it was, and Redis changes
 * are never rolled back.
 */
module VerificationApi {
  import opened Wrappers
  import opened Text
  import opened Numeric
  import opened SessionModel
  import opened VerificationModel
  import opened ReputationModel
  import opened Records
  import opened RedisStore
  import opened VerificationSchemas
  import opened CaptchaApi
  import ReputationService
  import GoldenDataset

  const RecordNotFound: ApiError := ApiError(404, "Verification request not found or expired")
  const SessionMismatch: ApiError := ApiError(400, "Session mismatch")
  const SessionOrPredictionNotFound: ApiError := ApiError(404, "Session or prediction not found")
  const VerifyFailed: ApiError := ApiError(500, "Failed to submit verification")

  /**
   * `session_id_str, prediction_id_str = value.split(":")` and the two
   * `uuid.UUID` calls: None where any of them raises.
   */
  function ParseRecord(text: string): (r: Option<(Uuid, Uuid)>)
    ensures r.Some? ==> |Split(text, ':')| == 2
    ensures r.Some? ==> ':' !in r.value.0 && ':' !in r.value.1
  {
    var parts := Split(text, ':');
    if |parts| != 2 then None
    else
      var s := ParseUuid(parts[0]);
      var p := ParseUuid(parts[1]);
      if s.Some? && p.Some? then Some((s.value, p.value)) else None
  }

  /** A value that splits into two ids that parse to themselves reads back as those ids. */
  lemma ParseRecordOfParts(text: string, a: string, b: string)
    requires Split(text, ':') == [a, b]
    requires ParseUuid(a) == Some(a) && ParseUuid(b) == Some(b)
    ensures ParseRecord(text) == Some((a, b))
  {
  }

  /** A record of two colon-free ids that parse to themselves reads back as those ids. */
  lemma RecordOfParsedIds(a: string, b: string)
    requires ':' !in a && ':' !in b
    requires ParseUuid(a) == Some(a) && ParseUuid(b) == Some(b)
    ensures ParseRecord(VerificationRecord(a, b)) == Some((a, b))
  {
    RecordSplits(a, b);
    ParseRecordOfParts(VerificationRecord(a, b), a, b);
  }

  lemma RecordSplits(a: string, b: string)
    requires ':' !in a && ':' !in b
    ensures Split(VerificationRecord(a, b), ':') == [a, b]
  {
    assert VerificationRecord(a, b) == a + [':'] + b;
    SplitAtFirst(a, b, ':');
    SplitWithoutSeparator(b, ':');
  }

  /** The record the submit handler writes for two canonical UUIDs reads back as those two ids. */
  lemma RecordRoundTrip(h1: string, h2: string)
    requires |h1| == 32 && forall i :: 0 <= i < 32 ==> h1[i] in HexDigits
    requires |h2| == 32 && forall i :: 0 <= i < 32 ==> h2[i] in HexDigits
    ensures ParseRecord(VerificationRecord(CanonicalUuid(h1), CanonicalUuid(h2))) == Some((CanonicalUuid(h1), CanonicalUuid(h2)))
  {
    CanonicalUuidRoundTrip(h1);
    CanonicalUuidRoundTrip(h2);
    RecordOfParsedIds(CanonicalUuid(h1), CanonicalUuid(h2));
  }

  /** A value with more than one colon does not unpack into two names, so it is refused. */
  lemma RecordWithThreePartsRefused(a: string, b: string, c: string)
    requires ':' !in a && ':' !in b && ':' !in c
    ensures ParseRecord(a + [':'] + b + [':'] + c).None?
  {
    SplitThree(a, b, c, ':');
  }

  /**
   * The verified label: the correction for a "correct" answer that carries a
   * non-empty one, the predicted label for "confirm", and none otherwise.
   */
  function VerifiedLabel(response: string, correctedLabel: Option<string>, predicted: string): (l: Option<string>)
    ensures response == "correct" && correctedLabel.Some? && correctedLabel.value != "" ==> l == correctedLabel
    ensures response == "confirm" ==> l == Some(predicted)
    ensures l.Some? ==> l == correctedLabel || l == Some(predicted)
    ensures response != "correct" && response != "confirm" ==> l.None?
  {
    if response == "correct" && correctedLabel.Some? && correctedLabel.value != "" then correctedLabel
    else if response == "confirm" then Some(predicted)
    else None
  }

  /** A correction counts only with a "correct" answer; "reject", the widget's other option, yields no label. */
  lemma CorrectionOnlyWithCorrect(response: string, c1: Option<string>, c2: Option<string>, predicted: string)
    requires response != "correct"
    ensures VerifiedLabel(response, c1, predicted) == VerifiedLabel(response, c2, predicted)
    ensures VerifiedLabel("reject", c1, predicted).None?
    ensures VerifiedLabel("correct", Some(""), predicted).None?
  {
  }

  /** The answer the verification row records agrees with its `final_label`: the label chosen, or the prediction. */
  lemma StoredFinalLabel(v: Verification, response: string, correctedLabel: Option<string>)
    requires v.verifiedLabel == VerifiedLabel(response, correctedLabel, v.originalLabel)
    ensures response == "confirm" ==> FinalLabel(v) == v.originalLabel
    ensures response == "correct" && correctedLabel.Some? && correctedLabel.value != "" ==> FinalLabel(v) == correctedLabel.value
    ensures response != "correct" && response != "confirm" ==> FinalLabel(v) == v.originalLabel
  {
  }

  /** `if verified_label:` the golden dataset is consulted for a present, non-empty label only. */
  predicate ConsultsGolden(verified: Option<string>)
  {
    verified.Some? && verified.value != ""
  }

  /** `session.client_fingerprint or "anonymous"` */
  function FingerprintKey(fp: Option<string>): (k: string)
    ensures fp.None? || fp.value == "" ==> k == "anonymous"
    ensures fp.Some? && fp.value != "" ==> k == fp.value
  {
    if fp.Some? && fp.value != "" then fp.value else "anonymous"
  }

  /** `reputation.score if reputation else 1.0` for the session's fingerprint. */
  function ReputationWeight(rows: seq<ReputationScore>, fp: Option<string>): (w: real)
    ensures ReputationService.FindReputation(rows, FingerprintKey(fp)).None? ==> w == 1.0
    ensures ReputationService.FindReputation(rows, FingerprintKey(fp)).Some? ==>
              w == rows[ReputationService.FindReputation(rows, FingerprintKey(fp)).value].score
  {
    match ReputationService.FindReputation(rows, FingerprintKey(fp))
    case Some(i) => rows[i].score
    case None => 1.0
  }

  /** What a verification submit leaves behind. */
  datatype VerifyOutcome = VerifyOutcome(tables: Tables, store: Store, response: Result<VerificationSubmitResponse, ApiError>)

  /**
   * `submit_verification` up to the checks. The Redis read purges expired
   * keys whatever follows; a record that will not unpack is a 500.
   */
  function VerifyOp(t: Tables, st: Store, request: VerificationSubmitRequest, now: int,
                    rowId: Uuid, goldenId: Uuid, env: Services): VerifyOutcome
  {
    var key := VerificationKey(request.verificationId);
    var read := GetOp(st, key, now);
    var st1 := read.0;
    if read.1.None? || read.1.value == "" then VerifyOutcome(t, st1, Err(RecordNotFound))
    else
      var ids := ParseRecord(read.1.value);
      if ids.None? then VerifyOutcome(t, st1, Err(VerifyFailed))
      else if ids.value.0 != request.sessionId then VerifyOutcome(t, st1, Err(SessionMismatch))
      else if ids.value.0 !in t.sessions || ids.value.1 !in t.predictions then
        VerifyOutcome(t, st1, Err(SessionOrPredictionNotFound))
      else if IsExpired(t.sessions[ids.value.0], now) then VerifyOutcome(t, st1, Err(SessionExpired))
      else VerifyAccepted(t, st1, key, ids.value.0, ids.value.1, request, now, rowId, goldenId, env)
  }

  /**
   * `submit_verification` after the checks. The verification row is added
   * before the golden dataset is consulted, so it counts among the votes. A
   * prediction without a sample cannot give a row (its `sample_id` is NOT
   * NULL): the insert fails at the first flush, which is the golden query
   * when there is one and the commit, after the Redis delete, otherwise. A
   * failed promotion is a 500 and rolls the row back.
   */
  function VerifyAccepted(t: Tables, st: Store, key: string, sid: Uuid, pid: Uuid, request: VerificationSubmitRequest,
                          now: int, rowId: Uuid, goldenId: Uuid, env: Services): VerifyOutcome
    requires sid in t.sessions && pid in t.predictions
  {
    var s := t.sessions[sid];
    var p := t.predictions[pid];
    var chosen := VerifiedLabel(request.response, request.correctedLabel, p.predictedLabel);
    var weight := ReputationWeight(t.reputations, s.clientFingerprint);
    if p.sampleId.None? then
      VerifyOutcome(t, if ConsultsGolden(chosen) then st else DeleteOp(st, [key]).0, Err(VerifyFailed))
    else
      var v := Verification(rowId, pid, p.sampleId.value, s.id, request.response, p.predictedLabel, chosen,
                            request.responseTimeMs, Some(weight), now);
      VerifyRecorded(t, st, key, sid, v, now, goldenId, env)
  }

  /** `if verified_label:` the golden dataset's new entries and the outcome of consulting it, for the tables `t`. */
  function GoldenStep(t: Tables, v: Verification, domain: string, goldenId: Uuid, cfg: Config.Settings)
    : (seq<GoldenEntry>, Result<Option<GoldenEntry>, string>)
  {
    if ConsultsGolden(v.verifiedLabel) then GoldenDataset.ProcessOp(t, v.sampleId, domain, goldenId, cfg)
    else (t.golden, Ok(None))
  }

  /**
   * The row `v` is added, the golden dataset is consulted when it carries a
   * label, and the session completes; a failed promotion rolls everything back.
   */
  function VerifyRecorded(t: Tables, st: Store, key: string, sid: Uuid, v: Verification,
                          now: int, goldenId: Uuid, env: Services): VerifyOutcome
    requires sid in t.sessions
  {
    var s := t.sessions[sid];
    var t1 := t.(verifications := t.verifications + [v]);
    var golden := GoldenStep(t1, v, s.domain, goldenId, env.settings);
    if golden.1.Err? then VerifyOutcome(t, st, Err(VerifyFailed))
    else
      var t2 := t1.(golden := golden.0, sessions := t1.sessions[sid := s.(status := "completed", completedAt := Some(now))]);
      var token := env.issueToken(s.id, s.domain, now);
      VerifyOutcome(t2, DeleteOp(st, [key]).0,
                    Ok(VerificationSubmitResponse(true, token, now + env.settings.captchaTokenExpirySeconds * Second)))
  }

  /** The checks in order; none of them writes to the database. */
  lemma VerifyChecksFirst(t: Tables, st: Store, request: VerificationSubmitRequest, now: int,
                          rowId: Uuid, goldenId: Uuid, env: Services)
    ensures var o := VerifyOp(t, st, request, now, rowId, goldenId, env);
            var key := VerificationKey(request.verificationId);
            var read := GetOp(st, key, now);
            (!Live(st, key, now) ==> o == VerifyOutcome(t, read.0, Err(RecordNotFound)))
            && (read.1.Some? && read.1.value != "" ==>
                 var ids := ParseRecord(read.1.value);
                 (ids.None? ==> o == VerifyOutcome(t, read.0, Err(VerifyFailed)))
                 && (ids.Some? && ids.value.0 != request.sessionId ==> o == VerifyOutcome(t, read.0, Err(SessionMismatch)))
                 && (ids.Some? && ids.value.0 == request.sessionId && (ids.value.0 !in t.sessions || ids.value.1 !in t.predictions)
                     ==> o == VerifyOutcome(t, read.0, Err(SessionOrPredictionNotFound)))
                 && (ids.Some? && ids.value.0 == request.sessionId && ids.value.0 in t.sessions && ids.value.1 in t.predictions
                     ==> (IsExpired(t.sessions[ids.value.0], now) ==> o == VerifyOutcome(t, read.0, Err(SessionExpired)))
                         && (!IsExpired(t.sessions[ids.value.0], now) ==>
                               o == VerifyAccepted(t, read.0, key, ids.value.0, ids.value.1, request, now, rowId, goldenId, env))))
  {
  }

  /**
   * Recording a row: on success the session completes, the record is
   * deleted, the row is appended and nothing else is added, and the token is
   * issued for the session; a failed promotion commits nothing.
   */
  lemma VerifyRecordedOutcome(t: Tables, st: Store, key: string, sid: Uuid, v: Verification,
                              now: int, goldenId: Uuid, env: Services)
    requires sid in t.sessions
    ensures var o := VerifyRecorded(t, st, key, sid, v, now, goldenId, env);
            var s := t.sessions[sid];
            (o.response.Err? ==> o.tables == t && o.store == st && o.response.error == VerifyFailed)
            && (o.response.Ok? ==>
                 o.tables.sessions == t.sessions[sid := s.(status := "completed", completedAt := Some(now))]
                 && o.tables.verifications == t.verifications + [v]
                 && key !in o.store.data
                 && o.response.value.success
                 && o.response.value.captchaToken == env.issueToken(s.id, s.domain, now)
                 && o.response.value.expiresAt == now + env.settings.captchaTokenExpirySeconds * Second)
  {
    var o := VerifyRecorded(t, st, key, sid, v, now, goldenId, env);
    if o.response.Ok? {
      DeleteOpSpec(st, [key]);
    }
  }

  /**
   * The row that is recorded: this session's answer to this prediction, with
   * the label the answer chose and the fingerprint's reputation as weight. A
   * prediction without a sample fails without a row.
   */
  lemma VerifyAcceptedRow(t: Tables, st: Store, key: string, sid: Uuid, pid: Uuid, request: VerificationSubmitRequest,
                          now: int, rowId: Uuid, goldenId: Uuid, env: Services)
    requires sid in t.sessions && pid in t.predictions
    ensures var o := VerifyAccepted(t, st, key, sid, pid, request, now, rowId, goldenId, env);
            var s := t.sessions[sid];
            var p := t.predictions[pid];
            (o.response.Err? ==> o.tables == t && o.response.error == VerifyFailed)
            && (p.sampleId.None? ==> o.response.Err?)
            && (p.sampleId.Some? ==>
                  o == VerifyRecorded(t, st, key, sid,
                                      Verification(rowId, pid, p.sampleId.value, s.id, request.response, p.predictedLabel,
                                                   VerifiedLabel(request.response, request.correctedLabel, p.predictedLabel),
                                                   request.responseTimeMs, Some(ReputationWeight(t.reputations, s.clientFingerprint)), now),
                                      now, goldenId, env))
  {
    var p := t.predictions[pid];
    if p.sampleId.Some? {
      var s := t.sessions[sid];
      var v := Verification(rowId, pid, p.sampleId.value, s.id, request.response, p.predictedLabel,
                            VerifiedLabel(request.response, request.correctedLabel, p.predictedLabel),
                            request.responseTimeMs, Some(ReputationWeight(t.reputations, s.clientFingerprint)), now);
      VerifyRecordedOutcome(t, st, key, sid, v, now, goldenId, env);
    }
  }

  /** Without a verified label the golden dataset is left alone. */
  lemma GoldenOnlyWithLabel(t: Tables, st: Store, key: string, sid: Uuid, pid: Uuid, request: VerificationSubmitRequest,
                            now: int, rowId: Uuid, goldenId: Uuid, env: Services)
    requires sid in t.sessions && pid in t.predictions
    requires !ConsultsGolden(VerifiedLabel(request.response, request.correctedLabel, t.predictions[pid].predictedLabel))
    ensures VerifyAccepted(t, st, key, sid, pid, request, now, rowId, goldenId, env).tables.golden == t.golden
  {
  }

  /**
   * The two handlers fit together: after the submit handler has asked for
   * verification, a verify request naming the same session and verification
   * id, sent before the record and the session expire, gets past every check
   * and reaches the session and the stored prediction.
   */
  lemma SubmitThenVerifyReachesPrediction(t: Tables, st: Store, sessionKey: Uuid, taskKey: Uuid,
                                          request: CaptchaSchemas.CaptchaSubmitRequest, now: int,
                                          hs: string, hp: string, verificationId: Uuid, draw: real, env: Services,
                                          answer: VerificationSubmitRequest, later: int, rowId: Uuid, goldenId: Uuid)
    requires |hs| == 32 && forall i :: 0 <= i < 32 ==> hs[i] in HexDigits
    requires |hp| == 32 && forall i :: 0 <= i < 32 ==> hp[i] in HexDigits
    requires sessionKey == CanonicalUuid(hs) && sessionKey in t.sessions && t.sessions[sessionKey].id == sessionKey
    requires taskKey in t.tasks
    requires InferenceValidation.ShouldRequireVerification(t.sessions[sessionKey], draw)
    requires CanonicalUuid(hp) !in t.predictions
    requires env.settings.captchaTokenExpirySeconds != 0
    requires later < now + env.settings.captchaTokenExpirySeconds * Second
    requires !IsExpired(t.sessions[sessionKey], later)
    requires answer.sessionId == sessionKey && answer.verificationId == verificationId
    ensures var o := SubmitAccepted(t, st, sessionKey, taskKey, request, now, CanonicalUuid(hp), verificationId, draw, env);
            sessionKey in o.tables.sessions && CanonicalUuid(hp) in o.tables.predictions
            && VerifyOp(o.tables, o.store, answer, later, rowId, goldenId, env)
               == VerifyAccepted(o.tables, GetOp(o.store, VerificationKey(verificationId), later).0,
                                 VerificationKey(verificationId), sessionKey, CanonicalUuid(hp), answer, later, rowId, goldenId, env)
  {
    var pid := CanonicalUuid(hp);
    SubmitVerificationBranch(t, st, sessionKey, taskKey, request, now, pid, verificationId, draw, env, later);
    SubmitStoresPrediction(t, st, sessionKey, taskKey, request, now, pid, verificationId, draw, env);
    RecordRoundTrip(hs, hp);
  }

  // ------------------------------------------------------------------ the handler

  /** The verification router over one request's database session and the shared Redis store. */
  class VerificationRoutes {
    const db: Db
    const redis: InMemoryRedis
    const env: Services

    constructor (db: Db, redis: InMemoryRedis, env: Services)
      ensures this.db == db && this.redis == redis && this.env == env
    {
      this.db := db;
      this.redis := redis;
      this.env := env;
    }

    /** `submit_verification`, step by step. */
    method SubmitVerification(request: VerificationSubmitRequest, now: int, rowId: Uuid, goldenId: Uuid)
      returns (r: Result<VerificationSubmitResponse, ApiError>)
      requires redis.Valid()
      modifies db, redis
      ensures redis.Valid()
      ensures VerifyOutcome(db.Snapshot(), redis.State(), r)
              == VerifyOp(old(db.Snapshot()), old(redis.State()), request, now, rowId, goldenId, env)
    {
      var key := VerificationKey(request.verificationId);
      var data := redis.Get(key, now);
      if data.None? || data.value == "" {
        return Err(RecordNotFound);
      }
      var ids := ParseRecord(data.value);
      if ids.None? {
        return Err(VerifyFailed);
      }
      var (sid, pid) := ids.value;
      if sid != request.sessionId {
        return Err(SessionMismatch);
      }
      if sid !in db.sessions || pid !in db.predictions {
        return Err(SessionOrPredictionNotFound);
      }
      if IsExpired(db.sessions[sid], now) {
        return Err(SessionExpired);
      }
      r := Complete(key, sid, pid, request, now, rowId, goldenId);
    }

    /** The part of `submit_verification` after the checks. */
    method Complete(key: string, sid: Uuid, pid: Uuid, request: VerificationSubmitRequest, now: int, rowId: Uuid, goldenId: Uuid)
      returns (r: Result<VerificationSubmitResponse, ApiError>)
      requires redis.Valid()
      requires sid in db.sessions && pid in db.predictions
      modifies db, redis
      ensures redis.Valid()
      ensures VerifyOutcome(db.Snapshot(), redis.State(), r)
              == VerifyAccepted(old(db.Snapshot()), old(redis.State()), key, sid, pid, request, now, rowId, goldenId, env)
    {
      var committed := db.Snapshot();
      var session := db.sessions[sid];
      var prediction := db.predictions[pid];
      var chosen := VerifiedLabel(request.response, request.correctedLabel, prediction.predictedLabel);
      var reputations := new ReputationService.Service(db, env.settings);
      var reputation := reputations.GetReputation(FingerprintKey(session.clientFingerprint));
      var weight := if reputation.Some? then reputation.value.score else 1.0;
      assert weight == ReputationWeight(committed.reputations, session.clientFingerprint);
      if prediction.sampleId.None? {
        if !ConsultsGolden(chosen) {
          var _ := redis.Delete([key]);
        }
        return Err(VerifyFailed);
      }
      var v := Verification(rowId, pid, prediction.sampleId.value, session.id, request.response, prediction.predictedLabel,
                            chosen, request.responseTimeMs, Some(weight), now);
      r := Record(key, sid, v, now, goldenId);
    }

    /** `if verified_label:` consult the golden dataset; true when that failed. */
    method ConsultGolden(v: Verification, domain: string, goldenId: Uuid) returns (failed: bool)
      modifies db
      ensures var step := GoldenStep(old(db.Snapshot()), v, domain, goldenId, env.settings);
        failed == step.1.Err? && db.Snapshot() == old(db.Snapshot()).(golden := step.0)
    {
      failed := false;
      if ConsultsGolden(v.verifiedLabel) {
        var golden := new GoldenDataset.Service(db, env.settings);
        var promoted := golden.ProcessVerification(v.sampleId, domain, goldenId);
        failed := promoted.Err?;
      }
    }

    /** The row is added, the golden dataset consulted, and the session completed. */
    method Record(key: string, sid: Uuid, v: Verification, now: int, goldenId: Uuid)
      returns (r: Result<VerificationSubmitResponse, ApiError>)
      requires redis.Valid()
      requires sid in db.sessions
      modifies db, redis
      ensures redis.Valid()
      ensures VerifyOutcome(db.Snapshot(), redis.State(), r)
              == VerifyRecorded(old(db.Snapshot()), old(redis.State()), key, sid, v, now, goldenId, env)
    {
      var committed := db.Snapshot();
      var session := db.sessions[sid];
      db.verifications := db.verifications + [v];
      var failed := ConsultGolden(v, session.domain, goldenId);
      if failed {
        db.Restore(committed);
        return Err(VerifyFailed);
      }
      var token := env.issueToken(session.id, session.domain, now);
      var expiresAt := now + env.settings.captchaTokenExpirySeconds * Second;
      db.sessions := db.sessions[sid := session.(status := "completed", completedAt := Some(now))];
      var _ := redis.Delete([key]);
      r := Ok(VerificationSubmitResponse(true, token, expiresAt));
    }
  }
}
