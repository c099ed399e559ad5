/**
 * The demo server (server/demo_server.py): the same CAPTCHA lifecycle over
 * two in-memory dictionaries, without a database, Redis, validation of the
 * answer or signed tokens. The fresh `uuid4` ids, the random label and the
 * random verification draw are parameters; the clock is an instant in
 * microseconds.
 */
module DemoServer {
  import opened Wrappers
  import opened Text
  import opened Numeric
  import opened SessionModel
  import Records
  import CaptchaApi

  /** A value of the `sessions` dictionary. */
  datatype DemoSession = DemoSession(createdAt: int, status: string, domain: string)

  /** A value of the `tasks` dictionary. */
  datatype DemoTask = DemoTask(sessionId: string, sampleId: string, expectedLabel: string)

  /** Both dictionaries. */
  datatype DemoState = DemoState(sessions: map<string, DemoSession>, tasks: map<string, DemoTask>)

  /** The CIFAR-10 labels the demo draws the expected label from and sends as the model's labels. */
  const CifarLabels: seq<string> :=
    ["airplane", "automobile", "bird", "cat", "deer", "dog", "frog", "horse", "ship", "truck"]

  /** Every token the demo issues lives for five minutes. */
  const TokenLifetime: int := 5 * 60 * Second

  const TokenPrefix: string := "captcha_token_"

  /** `f"captcha_token_{session_id}"` */
  function CaptchaToken(sessionId: string): (token: string)
    ensures StartsWith(token, TokenPrefix) && token[|TokenPrefix|..] == sessionId
  {
    TokenPrefix + sessionId
  }

  // ------------------------------------------------------------------ init

  /** The parts of the init response that depend on the request. */
  datatype DemoInitResponse = DemoInitResponse(
    sessionId: string,
    challengeToken: string,
    taskId: string,
    modelName: string,
    labels: seq<string>,
    expectedTimeMs: int,
    difficulty: string,
    expiresAt: int)

  /**
   * `init_captcha`: a pending "demo" session under the new id and a task for
   * it with the drawn label (`choice` picks it, as `random.choice` does).
   */
  function InitOp(st: DemoState, sessionId: string, taskId: string, sampleId: string, choice: nat, now: int): (DemoState, DemoInitResponse)
  {
    var drawn := CifarLabels[choice % |CifarLabels|];
    var st1 := DemoState(st.sessions[sessionId := DemoSession(now, "pending", "demo")],
                         st.tasks[taskId := DemoTask(sessionId, sampleId, drawn)]);
    (st1, DemoInitResponse(sessionId, "challenge_" + sessionId, taskId, "cifar10-mobilenet", CifarLabels, 500, "normal", now + TokenLifetime))
  }

  /**
   * With fresh ids, init adds exactly one session, pending, and one task whose
   * session is that session, drawn from the labels; nothing else changes.
   */
  lemma InitAddsOneSessionAndTask(st: DemoState, sessionId: string, taskId: string, sampleId: string, choice: nat, now: int)
    requires sessionId !in st.sessions && taskId !in st.tasks
    ensures var (st1, r) := InitOp(st, sessionId, taskId, sampleId, choice, now);
            st1.sessions.Keys == st.sessions.Keys + {sessionId}
            && |st1.sessions| == |st.sessions| + 1
            && st1.tasks.Keys == st.tasks.Keys + {taskId}
            && |st1.tasks| == |st.tasks| + 1
            && st1.sessions[sessionId].status == "pending" && st1.sessions[sessionId].domain == "demo"
            && st1.tasks[taskId].sessionId == sessionId && st1.tasks[taskId].sessionId in st1.sessions
            && st1.tasks[taskId].expectedLabel in CifarLabels
            && (forall k :: k in st.sessions ==> st1.sessions[k] == st.sessions[k])
            && (forall k :: k in st.tasks ==> st1.tasks[k] == st.tasks[k])
            && r.sessionId == sessionId && r.taskId == taskId
  {
    var (st1, r) := InitOp(st, sessionId, taskId, sampleId, choice, now);
    AddFreshKey(st.sessions, sessionId, st1.sessions[sessionId]);
    AddFreshKey(st.tasks, taskId, st1.tasks[taskId]);
  }

  /** Adding a fresh key adds exactly that key, and one entry. */
  lemma AddFreshKey<V>(m: map<string, V>, k: string, v: V)
    requires k !in m
    ensures m[k := v].Keys == m.Keys + {k} && |m[k := v]| == |m| + 1
  {
  }

  // ------------------------------------------------------------------ submit

  /** What the submit handler answers once it accepts. */
  datatype DemoSubmitResponse =
    | Completed(captchaToken: string, expiresAt: int)
    | NeedsVerification(verificationId: string, predictedLabel: string, prompt: string, options: seq<map<string, string>>)

  /** The demo's verification draw: `random.random() < 0.2`. */
  predicate DemoRequiresVerification(draw: real) { draw < 0.2 }

  /**
   * `submit_captcha`: both ids must be known; the session is then marked
   * completed before the draw decides between a token and a verification
   * request. The task is not checked to belong to the session.
   */
  function SubmitOp(st: DemoState, sessionId: string, taskId: string, predictedLabel: string,
                    draw: real, verificationId: string, now: int): (DemoState, Result<DemoSubmitResponse, CaptchaApi.ApiError>)
  {
    if sessionId !in st.sessions then (st, Err(CaptchaApi.SessionNotFound))
    else if taskId !in st.tasks then (st, Err(CaptchaApi.TaskNotFound))
    else
      var st1 := st.(sessions := st.sessions[sessionId := st.sessions[sessionId].(status := "completed")]);
      if DemoRequiresVerification(draw) then
        (st1, Ok(NeedsVerification(verificationId, predictedLabel, CaptchaApi.Prompt(predictedLabel), CaptchaApi.VerificationOptions)))
      else (st1, Ok(Completed(CaptchaToken(sessionId), now + TokenLifetime)))
  }

  /** An unknown session or task is a 404 and changes nothing; otherwise the submit succeeds. */
  lemma SubmitErrors(st: DemoState, sessionId: string, taskId: string, predictedLabel: string,
                     draw: real, verificationId: string, now: int)
    ensures var (st1, r) := SubmitOp(st, sessionId, taskId, predictedLabel, draw, verificationId, now);
            (sessionId !in st.sessions ==> st1 == st && r == Err(CaptchaApi.SessionNotFound))
            && (sessionId in st.sessions && taskId !in st.tasks ==> st1 == st && r == Err(CaptchaApi.TaskNotFound))
            && (r.Ok? <==> sessionId in st.sessions && taskId in st.tasks)
  {
  }

  /**
   * A successful submit completes the session whatever the draw, so a session
   * asked for verification is already completed; only the draw decides whether
   * the token comes now. No other session and no task changes.
   */
  lemma SubmitCompletesEvenWhenVerifying(st: DemoState, sessionId: string, taskId: string, predictedLabel: string,
                                         draw: real, verificationId: string, now: int)
    requires sessionId in st.sessions && taskId in st.tasks
    ensures var (st1, r) := SubmitOp(st, sessionId, taskId, predictedLabel, draw, verificationId, now);
            st1.sessions.Keys == st.sessions.Keys && st1.tasks == st.tasks
            && st1.sessions[sessionId].status == "completed"
            && st1.sessions[sessionId].domain == st.sessions[sessionId].domain
            && (forall k :: k in st.sessions && k != sessionId ==> st1.sessions[k] == st.sessions[k])
            && (r.Ok? && r.value.NeedsVerification? <==> DemoRequiresVerification(draw))
            && (!DemoRequiresVerification(draw) ==> r == Ok(Completed(CaptchaToken(sessionId), now + TokenLifetime)))
  {
  }

  /** Any known task is accepted with any known session: ownership is not checked. */
  lemma SubmitIgnoresOwnership(st: DemoState, sessionId: string, taskId: string, predictedLabel: string,
                               draw: real, verificationId: string, now: int)
    requires sessionId in st.sessions && taskId in st.tasks && st.tasks[taskId].sessionId != sessionId
    ensures SubmitOp(st, sessionId, taskId, predictedLabel, draw, verificationId, now).1.Ok?
  {
  }

  // ------------------------------------------------------------------ verify

  /** What the verify handler answers. */
  datatype DemoVerifyResponse = DemoVerifyResponse(success: bool, captchaToken: string, expiresAt: int)

  /**
   * `submit_verification`: `request.get("session_id")` must name a known
   * session (a missing key gives None, which never is one); the answer is not
   * read and nothing changes.
   */
  function VerifyOp(st: DemoState, sessionId: Option<string>, now: int): (r: Result<DemoVerifyResponse, CaptchaApi.ApiError>)
    ensures r.Err? <==> sessionId.None? || sessionId.value !in st.sessions
    ensures r.Err? ==> r.error == CaptchaApi.SessionNotFound
    ensures r.Ok? ==> r.value.success && r.value.captchaToken == CaptchaToken(sessionId.value)
  {
    if sessionId.None? || sessionId.value !in st.sessions then Err(CaptchaApi.SessionNotFound)
    else Ok(DemoVerifyResponse(true, CaptchaToken(sessionId.value), now + TokenLifetime))
  }

  // ------------------------------------------------------------------ validate

  /** What the validate handler answers. */
  datatype DemoValidation =
    | Invalid
    | Valid(sessionId: string, domain: string, completedAt: int, difficulty: string, verificationPerformed: bool)

  /**
   * `validate_captcha`: valid exactly for the tokens with the prefix; the
   * session id is the token with every occurrence of the prefix removed
   * (`str.replace`). No session is looked up.
   */
  function ValidateToken(token: string, now: int): (r: DemoValidation)
    ensures r.Valid? <==> StartsWith(token, TokenPrefix)
    ensures r.Valid? ==> r.domain == "demo" && r.difficulty == "normal" && !r.verificationPerformed && r.completedAt == now
  {
    if StartsWith(token, TokenPrefix) then Valid(RemoveAll(token, TokenPrefix), "demo", now, "normal", false)
    else Invalid
  }

  /** Removing the prefix from a string that starts with it removes it from the rest. */
  lemma RemovePrefixOnce(s: string)
    ensures RemoveAll(TokenPrefix + s, TokenPrefix) == RemoveAll(s, TokenPrefix)
  {
    var t := TokenPrefix + s;
    assert t[..|TokenPrefix|] == TokenPrefix;
    assert t[|TokenPrefix|..] == s;
  }

  /**
   * A token issued for a session id without an underscore, which includes
   * every `str(uuid4())`, validates and names that session again.
   */
  lemma TokenNamesSession(sessionId: string, now: int)
    requires '_' !in sessionId
    ensures ValidateToken(CaptchaToken(sessionId), now) == Valid(sessionId, "demo", now, "normal", false)
  {
    RemovePrefixOnce(sessionId);
    RemoveAllAbsent(sessionId, TokenPrefix, '_');
  }

  /** Canonical UUID strings carry no underscore, so their tokens name them again. */
  lemma UuidTokenRoundTrip(h: string, now: int)
    requires |h| == 32 && forall i :: 0 <= i < 32 ==> h[i] in Records.HexDigits
    ensures ValidateToken(CaptchaToken(Records.CanonicalUuid(h)), now).Valid?
    ensures ValidateToken(CaptchaToken(Records.CanonicalUuid(h)), now).sessionId == Records.CanonicalUuid(h)
  {
    var u := Records.CanonicalUuid(h);
    assert '_' !in Records.HexDigits;
    TokenNamesSession(u, now);
  }

  /** Validation never consults the dictionaries: any token with the prefix validates, for a session that never existed too. */
  lemma AnyPrefixedTokenValidates(anything: string, now: int)
    ensures ValidateToken(TokenPrefix + anything, now).Valid?
  {
    assert (TokenPrefix + anything)[..|TokenPrefix|] == TokenPrefix;
  }

  // ------------------------------------------------------------------ stats

  /** The ids of the completed sessions. */
  function CompletedIds(sessions: map<string, DemoSession>): (ids: set<string>)
    ensures ids <= sessions.Keys
    ensures forall k :: k in ids <==> k in sessions && sessions[k].status == "completed"
  {
    set k | k in sessions && sessions[k].status == "completed"
  }

  /** A subset has at most as many elements. */
  lemma {:induction false} SubsetCardinality(a: set<string>, b: set<string>)
    requires a <= b
    ensures |a| <= |b|
    decreases |b|
  {
    if b != {} {
      var x :| x in b;
      SubsetCardinality(a - {x}, b - {x});
    }
  }

  datatype Stats = Stats(totalSessions: nat, totalTasks: nat, completedSessions: nat)

  /** `get_stats`: the dictionary sizes and the number of completed sessions, which never exceeds the total. */
  function StatsOf(st: DemoState): (s: Stats)
    ensures s.totalSessions == |st.sessions| && s.totalTasks == |st.tasks|
    ensures s.completedSessions == |CompletedIds(st.sessions)|
    ensures s.completedSessions <= s.totalSessions
  {
    SubsetCardinality(CompletedIds(st.sessions), st.sessions.Keys);
    Stats(|st.sessions|, |st.tasks|, |CompletedIds(st.sessions)|)
  }

  /** A fresh init counts one more session and task, and no more completed sessions. */
  lemma InitStats(st: DemoState, sessionId: string, taskId: string, sampleId: string, choice: nat, now: int)
    requires sessionId !in st.sessions && taskId !in st.tasks
    ensures var s0 := StatsOf(st);
            var s1 := StatsOf(InitOp(st, sessionId, taskId, sampleId, choice, now).0);
            s1.totalSessions == s0.totalSessions + 1 && s1.totalTasks == s0.totalTasks + 1
            && s1.completedSessions == s0.completedSessions
  {
    InitAddsOneSessionAndTask(st, sessionId, taskId, sampleId, choice, now);
    var st1 := InitOp(st, sessionId, taskId, sampleId, choice, now).0;
    CompletedIdsAddOpen(st.sessions, sessionId, st1.sessions[sessionId]);
  }

  /** A new session that is not completed leaves the completed ids as they were. */
  lemma CompletedIdsAddOpen(sessions: map<string, DemoSession>, k: string, s: DemoSession)
    requires k !in sessions && s.status != "completed"
    ensures CompletedIds(sessions[k := s]) == CompletedIds(sessions)
  {
  }

  /** A successful submit counts the session as completed, and the totals stay. */
  lemma SubmitStats(st: DemoState, sessionId: string, taskId: string, predictedLabel: string,
                    draw: real, verificationId: string, now: int)
    requires sessionId in st.sessions && taskId in st.tasks
    ensures var s0 := StatsOf(st);
            var s1 := StatsOf(SubmitOp(st, sessionId, taskId, predictedLabel, draw, verificationId, now).0);
            s1.totalSessions == s0.totalSessions && s1.totalTasks == s0.totalTasks
            && sessionId in CompletedIds(SubmitOp(st, sessionId, taskId, predictedLabel, draw, verificationId, now).0.sessions)
            && s1.completedSessions >= s0.completedSessions
  {
    var st1 := SubmitOp(st, sessionId, taskId, predictedLabel, draw, verificationId, now).0;
    assert st1.sessions.Keys == st.sessions.Keys;
    assert CompletedIds(st1.sessions) == CompletedIds(st.sessions) + {sessionId};
    SubsetCardinality(CompletedIds(st.sessions), CompletedIds(st1.sessions));
  }

  // ------------------------------------------------------------------ the server

  /** The module-level `sessions` and `tasks` dictionaries and the handlers over them. */
  class Demo {
    var sessions: map<string, DemoSession>
    var tasks: map<string, DemoTask>

    function State(): DemoState
      reads this
    {
      DemoState(sessions, tasks)
    }

    /** The dictionaries start empty. */
    constructor ()
      ensures State() == DemoState(map[], map[])
    {
      sessions := map[];
      tasks := map[];
    }

    /** `init_captcha` */
    method InitCaptcha(sessionId: string, taskId: string, sampleId: string, choice: nat, now: int) returns (r: DemoInitResponse)
      modifies this
      ensures (State(), r) == InitOp(old(State()), sessionId, taskId, sampleId, choice, now)
    {
      sessions := sessions[sessionId := DemoSession(now, "pending", "demo")];
      var labels := CifarLabels;
      tasks := tasks[taskId := DemoTask(sessionId, sampleId, labels[choice % |labels|])];
      r := DemoInitResponse(sessionId, "challenge_" + sessionId, taskId, "cifar10-mobilenet", labels, 500, "normal", now + TokenLifetime);
    }

    /** `submit_captcha` */
    method SubmitCaptcha(sessionId: string, taskId: string, predictedLabel: string, draw: real, verificationId: string, now: int)
      returns (r: Result<DemoSubmitResponse, CaptchaApi.ApiError>)
      modifies this
      ensures (State(), r) == SubmitOp(old(State()), sessionId, taskId, predictedLabel, draw, verificationId, now)
    {
      if sessionId !in sessions {
        return Err(CaptchaApi.SessionNotFound);
      }
      if taskId !in tasks {
        return Err(CaptchaApi.TaskNotFound);
      }
      sessions := sessions[sessionId := sessions[sessionId].(status := "completed")];
      var token := CaptchaToken(sessionId);
      if draw < 0.2 {
        r := Ok(NeedsVerification(verificationId, predictedLabel, CaptchaApi.Prompt(predictedLabel), CaptchaApi.VerificationOptions));
      } else {
        r := Ok(Completed(token, now + TokenLifetime));
      }
    }

    /** `submit_verification`, which only reads the sessions. */
    function SubmitVerification(sessionId: Option<string>, now: int): (r: Result<DemoVerifyResponse, CaptchaApi.ApiError>)
      reads this
      ensures r == VerifyOp(State(), sessionId, now)
    {
      if sessionId.None? || sessionId.value !in sessions then Err(CaptchaApi.SessionNotFound)
      else Ok(DemoVerifyResponse(true, CaptchaToken(sessionId.value), now + TokenLifetime))
    }

    /** `get_stats` */
    function GetStats(): (s: Stats)
      reads this
      ensures s == StatsOf(State())
    {
      StatsOf(State())
    }
  }
}
