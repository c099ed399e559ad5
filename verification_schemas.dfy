/**
 * The verification API's request and response models
 * (server/app/schemas/verification.py). A submission names the session and
 * the verification being answered, the kind of answer, and optionally a
 * corrected label and a non-negative response time.
 */
module VerificationSchemas {
  import opened Wrappers
  import opened JsonFields

  datatype VerificationSubmitRequest = VerificationSubmitRequest(
    sessionId: string,
    verificationId: string,
    response: string,
    correctedLabel: Option<string>,
    responseTimeMs: Option<int>)

  predicate ValidSubmitRequest(r: VerificationSubmitRequest)
  {
    r.responseTimeMs.Some? ==> r.responseTimeMs.value >= 0
  }

  /**
   * `VerificationSubmitRequest` from a JSON object. The three identifying strings
   * are required; a response time, when present, must be a non-negative integer.
   */
  function ParseSubmitRequest(obj: map<string, Json>): (r: Parsed<VerificationSubmitRequest>)
    ensures r.Ok? ==> ValidSubmitRequest(r.value)
    ensures r.Ok? ==> "session_id" in obj && obj["session_id"] == JStr(r.value.sessionId)
                      && "verification_id" in obj && obj["verification_id"] == JStr(r.value.verificationId)
                      && "response" in obj && obj["response"] == JStr(r.value.response)
    ensures "response_time_ms" in obj && obj["response_time_ms"].JInt? && obj["response_time_ms"].i < 0 ==> r.Err?
    ensures ("session_id" !in obj || "verification_id" !in obj || "response" !in obj) ==> r.Err?
  {
    var session := ReadStr(obj, "session_id", []);
    var verification := ReadStr(obj, "verification_id", []);
    var response := ReadStr(obj, "response", []);
    var corrected := ReadOptStr(obj, "corrected_label", []);
    var time := ReadOptInt(obj, "response_time_ms", [], Some(0));
    if session.Ok? && verification.Ok? && response.Ok? && corrected.Ok? && time.Ok? then
      Ok(VerificationSubmitRequest(session.value, verification.value, response.value, corrected.value, time.value))
    else
      Err(Errors(session) + Errors(verification) + Errors(response) + Errors(corrected) + Errors(time))
  }

  function SubmitRequestJson(r: VerificationSubmitRequest): map<string, Json>
  {
    map["session_id" := JStr(r.sessionId), "verification_id" := JStr(r.verificationId),
        "response" := JStr(r.response), "corrected_label" := OptStrJson(r.correctedLabel),
        "response_time_ms" := OptIntJson(r.responseTimeMs)]
  }

  /** Every valid submission is read back from its own dump. */
  lemma SubmitRequestRoundTrip(r: VerificationSubmitRequest)
    requires ValidSubmitRequest(r)
    ensures ParseSubmitRequest(SubmitRequestJson(r)) == Ok(r)
  {
  }

  /** The reply to an accepted verification: the CAPTCHA token and its expiry, in microseconds. */
  datatype VerificationSubmitResponse = VerificationSubmitResponse(success: bool, captchaToken: string, expiresAt: int)

  /** What the server hands the widget so it can show a verification prompt. */
  datatype VerificationData = VerificationData(
    verificationId: string,
    displayType: string,
    displayContent: string,
    predictedLabel: string,
    prompt: string)
}
