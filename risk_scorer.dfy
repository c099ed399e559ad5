/**
 * The risk scorer (server/app/core/risk_scorer.py): five risk factors in
 * [0, 1], each computed from what the store holds for the client, combined
 * with fixed weights and clamped to [0, 1]. The stored values are inputs
 * here, already converted from their string form; `None` stands for a key
 * that is absent or holds the empty string.
 */
module RiskScoring {
  import opened Wrappers
  import opened Text
  import opened Numeric
  import TaskCoordination

  // ------------------------------------------------------------------ weights and thresholds

  const RiskWeights: map<string, real> := map[
    "request_frequency" := 0.30,
    "session_velocity" := 0.20,
    "behavioral_signals" := 0.20,
    "reputation_history" := 0.15,
    "known_sample_accuracy" := 0.15]

  /** Requests per minute above which the frequency risk is maximal. */
  const HighFrequencyThreshold: int := 10
  /** An average completion time in milliseconds below which a client is suspiciously fast. */
  const FastVelocityThreshold: int := 200

  lemma RiskWeightsSumToOne()
    ensures RiskWeights.Keys == {"request_frequency", "session_velocity", "behavioral_signals",
                                 "reputation_history", "known_sample_accuracy"}
    ensures RiskWeights["request_frequency"] + RiskWeights["session_velocity"] + RiskWeights["behavioral_signals"]
            + RiskWeights["reputation_history"] + RiskWeights["known_sample_accuracy"] == 1.0
    ensures forall k :: k in RiskWeights ==> RiskWeights[k] > 0.0
  {
  }

  // ------------------------------------------------------------------ the factors

  /** `_compute_frequency_risk` on the stored request count (0 when none is stored). */
  function FrequencyRisk(stored: Option<int>): (r: real)
    ensures 0.0 <= r <= 1.0
    ensures stored.GetOr(0) <= 1 ==> r == 0.0
    ensures stored.GetOr(0) > HighFrequencyThreshold ==> r == 1.0
    ensures 1 < stored.GetOr(0) <= HighFrequencyThreshold ==> r * HighFrequencyThreshold as real == stored.GetOr(0) as real
  {
    var requestCount := stored.GetOr(0);
    if requestCount <= 1 then 0.0
    else if requestCount <= HighFrequencyThreshold then requestCount as real / HighFrequencyThreshold as real
    else 1.0
  }

  /** More stored requests never lower the frequency risk. */
  lemma FrequencyRiskMonotone(a: int, b: int)
    requires a <= b
    ensures FrequencyRisk(Some(a)) <= FrequencyRisk(Some(b))
  {
  }

  /**
   * `_compute_velocity_risk` on the stored average completion time: none, or
   * one at the normal time or above, is no risk; under 200 ms is full risk;
   * in between the risk falls linearly from 1 to 0.
   */
  function VelocityRisk(stored: Option<real>, normalTimeMs: int): (r: real)
    ensures 0.0 <= r <= 1.0
    ensures stored.None? || stored.value >= normalTimeMs as real ==> r == 0.0
    ensures stored.Some? && stored.value < FastVelocityThreshold as real && stored.value < normalTimeMs as real ==> r == 1.0
    ensures stored.Some? && FastVelocityThreshold as real <= stored.value < normalTimeMs as real
            ==> r * (normalTimeMs - FastVelocityThreshold) as real == normalTimeMs as real - stored.value
  {
    if stored.None? then 0.0
    else
      var avgMs := stored.value;
      if avgMs >= normalTimeMs as real then 0.0
      else if avgMs >= FastVelocityThreshold as real then
        var rangeMs := (normalTimeMs - FastVelocityThreshold) as real;
        FractionBelowOne(avgMs - FastVelocityThreshold as real, rangeMs);
        1.0 - (avgMs - FastVelocityThreshold as real) / rangeMs
      else 1.0
  }

  /** A slower average never raises the velocity risk. */
  lemma VelocityRiskMonotone(a: real, b: real, normalTimeMs: int)
    requires a <= b
    ensures VelocityRisk(Some(b), normalTimeMs) <= VelocityRisk(Some(a), normalTimeMs)
  {
    if FastVelocityThreshold as real <= a && b < normalTimeMs as real {
      var rangeMs := (normalTimeMs - FastVelocityThreshold) as real;
      QuotientMonotone(a - FastVelocityThreshold as real, b - FastVelocityThreshold as real, rangeMs);
    }
  }

  /** The headless-browser markers, matched case-insensitively. */
  const HeadlessIndicators: seq<string> := ["HeadlessChrome", "PhantomJS", "Selenium", "webdriver", "puppeteer"]

  /** A user agent shorter than this is suspicious. */
  const MinUserAgentLength: nat := 20

  /** How many of the indicators occur in the lower-cased user agent. */
  function IndicatorHits(userAgentLower: string, indicators: seq<string>): (n: nat)
    ensures n <= |indicators|
  {
    if |indicators| == 0 then 0
    else IndicatorHits(userAgentLower, indicators[..|indicators| - 1])
         + (if Contains(userAgentLower, Lower(indicators[|indicators| - 1])) then 1 else 0)
  }

  /** The behavioral risk: 0.5 per indicator found, 0.3 for a short user agent, at most 1. */
  function BehavioralRisk(userAgent: string): (r: real)
  {
    var hits := IndicatorHits(Lower(userAgent), HeadlessIndicators);
    var risk := 0.5 * hits as real + (if |userAgent| < MinUserAgentLength then 0.3 else 0.0);
    if risk < 1.0 then risk else 1.0
  }

  /** The behavioral risk lies in [0, 1]; no indicator and a long user agent give 0, one indicator gives at least 0.5. */
  lemma BehavioralRiskBounds(userAgent: string)
    ensures 0.0 <= BehavioralRisk(userAgent) <= 1.0
    ensures IndicatorHits(Lower(userAgent), HeadlessIndicators) == 0 && |userAgent| >= MinUserAgentLength
            ==> BehavioralRisk(userAgent) == 0.0
    ensures IndicatorHits(Lower(userAgent), HeadlessIndicators) >= 1 ==> BehavioralRisk(userAgent) >= 0.5
    ensures IndicatorHits(Lower(userAgent), HeadlessIndicators) >= 2 ==> BehavioralRisk(userAgent) == 1.0
  {
  }

  /** `_compute_behavioral_risk`, accumulating over the indicators as the source does. */
  method ComputeBehavioralRisk(userAgent: string) returns (r: real)
    ensures r == BehavioralRisk(userAgent)
    ensures 0.0 <= r <= 1.0
  {
    var risk := 0.0;
    var userAgentLower := Lower(userAgent);
    var i := 0;
    while i < |HeadlessIndicators|
      invariant 0 <= i <= |HeadlessIndicators|
      invariant risk == 0.5 * IndicatorHits(userAgentLower, HeadlessIndicators[..i]) as real
    {
      assert HeadlessIndicators[..i + 1][..i] == HeadlessIndicators[..i];
      if Contains(userAgentLower, Lower(HeadlessIndicators[i])) {
        risk := risk + 0.5;
      }
      i := i + 1;
    }
    assert HeadlessIndicators[..i] == HeadlessIndicators;
    if userAgent == "" || |userAgent| < MinUserAgentLength {
      risk := risk + 0.3;
    }
    r := if 1.0 < risk then 1.0 else risk;
    BehavioralRiskBounds(userAgent);
  }

  /** The reputation assumed for a client without a fingerprint or a stored reputation. */
  const UnknownReputationRisk: real := 0.3

  /** `_compute_reputation_risk`: the stored reputation (0 to 5) inverted, never below 0. */
  function ReputationRisk(fingerprint: Option<string>, stored: Option<real>): (r: real)
    ensures fingerprint.None? || fingerprint == Some("") || stored.None? ==> r == UnknownReputationRisk
    ensures r >= 0.0
    ensures fingerprint.Some? && fingerprint != Some("") && stored.Some? && stored.value >= 0.0 ==> r <= 1.0
    ensures fingerprint.Some? && fingerprint != Some("") && stored.Some? && stored.value >= 5.0 ==> r == 0.0
    ensures fingerprint.Some? && fingerprint != Some("") && stored.Some? && stored.value <= 5.0
            ==> 5.0 * r == 5.0 - stored.value
  {
    if fingerprint.None? || fingerprint.value == "" then UnknownReputationRisk
    else if stored.None? then UnknownReputationRisk
    else
      var repScore := stored.value;
      if 1.0 - repScore / 5.0 > 0.0 then 1.0 - repScore / 5.0 else 0.0
  }

  /** For a known fingerprint, a higher stored reputation never raises the risk. */
  lemma ReputationRiskMonotone(fingerprint: string, a: real, b: real)
    requires fingerprint != "" && a <= b
    ensures ReputationRisk(Some(fingerprint), Some(b)) <= ReputationRisk(Some(fingerprint), Some(a))
  {
    QuotientMonotone(a, b, 5.0);
  }

  /** `_compute_known_sample_risk`: the stored honeypot accuracy inverted, never below 0. */
  function KnownSampleRisk(fingerprint: Option<string>, stored: Option<real>): (r: real)
    ensures fingerprint.None? || fingerprint == Some("") || stored.None? ==> r == 0.0
    ensures r >= 0.0
    ensures stored.Some? && stored.value >= 0.0 ==> r <= 1.0
    ensures fingerprint.Some? && fingerprint != Some("") && stored.Some? && stored.value <= 1.0
            ==> r == 1.0 - stored.value
  {
    if fingerprint.None? || fingerprint.value == "" then 0.0
    else if stored.None? then 0.0
    else
      var accScore := stored.value;
      if 1.0 - accScore > 0.0 then 1.0 - accScore else 0.0
  }

  // ------------------------------------------------------------------ combination

  function WeightedSum(frequency: real, velocity: real, behavioral: real, reputation: real, knownSample: real): real
  {
    RiskWeights["request_frequency"] * frequency
    + RiskWeights["session_velocity"] * velocity
    + RiskWeights["behavioral_signals"] * behavioral
    + RiskWeights["reputation_history"] * reputation
    + RiskWeights["known_sample_accuracy"] * knownSample
  }

  /** Factors in [0, 1] give a weighted sum in [0, 1], which the clamp leaves alone. */
  lemma WeightedSumInRange(frequency: real, velocity: real, behavioral: real, reputation: real, knownSample: real)
    requires 0.0 <= frequency <= 1.0 && 0.0 <= velocity <= 1.0 && 0.0 <= behavioral <= 1.0
    requires 0.0 <= reputation <= 1.0 && 0.0 <= knownSample <= 1.0
    ensures 0.0 <= WeightedSum(frequency, velocity, behavioral, reputation, knownSample) <= 1.0
    ensures Clamp(WeightedSum(frequency, velocity, behavioral, reputation, knownSample), 0.0, 1.0)
            == WeightedSum(frequency, velocity, behavioral, reputation, knownSample)
  {
  }

  /** What the store holds for a client. */
  datatype StoredSignals = StoredSignals(
    requestCount: Option<int>,
    averageCompletionMs: Option<real>,
    reputation: Option<real>,
    knownAccuracy: Option<real>)

  /**
   * `compute_risk_score` without its request recording: the clamped weighted
   * sum of the five factors.
   */
  method ComputeRiskScore(userAgent: string, fingerprint: Option<string>, stored: StoredSignals, normalTimeMs: int)
    returns (riskScore: real)
    ensures riskScore == Clamp(WeightedSum(FrequencyRisk(stored.requestCount),
                                           VelocityRisk(stored.averageCompletionMs, normalTimeMs),
                                           BehavioralRisk(userAgent),
                                           ReputationRisk(fingerprint, stored.reputation),
                                           KnownSampleRisk(fingerprint, stored.knownAccuracy)), 0.0, 1.0)
    ensures 0.0 <= riskScore <= 1.0
  {
    var frequencyRisk := FrequencyRisk(stored.requestCount);
    var velocityRisk := VelocityRisk(stored.averageCompletionMs, normalTimeMs);
    var behavioralRisk := ComputeBehavioralRisk(userAgent);
    var reputationRisk := ReputationRisk(fingerprint, stored.reputation);
    var knownSampleRisk := KnownSampleRisk(fingerprint, stored.knownAccuracy);
    riskScore := Clamp(WeightedSum(frequencyRisk, velocityRisk, behavioralRisk, reputationRisk, knownSampleRisk), 0.0, 1.0);
  }

  /**
   * A first-time client without a fingerprint and with an ordinary user
   * agent scores 0.045 (only the unknown-reputation default counts) and lands
   * in the normal tier.
   */
  lemma FreshClientIsNormal(userAgent: string, normalTimeMs: int)
    requires |userAgent| >= MinUserAgentLength && IndicatorHits(Lower(userAgent), HeadlessIndicators) == 0
    ensures var score := Clamp(WeightedSum(FrequencyRisk(None), VelocityRisk(None, normalTimeMs), BehavioralRisk(userAgent),
                                           ReputationRisk(None, None), KnownSampleRisk(None, None)), 0.0, 1.0);
            score == 0.045 && TaskCoordination.DifficultyTier(score) == "normal"
  {
    BehavioralRiskBounds(userAgent);
  }

  // ------------------------------------------------------------------ completion times

  /** The weight of the newest completion time in the moving average. */
  const Alpha: real := 0.3

  /**
   * `record_completion`'s new average: the first time as it is, afterwards
   * 0.3 of the new time and 0.7 of the stored average. The result lies
   * between the two.
   */
  function NextAverage(current: Option<real>, completionTimeMs: int): (avg: real)
    ensures current.None? ==> avg == completionTimeMs as real
    ensures current.Some? ==> MinReal(current.value, completionTimeMs as real) <= avg
                              && avg <= MaxReal(current.value, completionTimeMs as real)
  {
    if current.Some? then Alpha * completionTimeMs as real + (1.0 - Alpha) * current.value
    else completionTimeMs as real
  }

  /** The average moves towards the newest time: a single equal time leaves it fixed. */
  lemma NextAverageFixedPoint(t: int)
    ensures NextAverage(Some(t as real), t) == t as real
  {
  }
}
