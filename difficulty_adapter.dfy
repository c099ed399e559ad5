/**
 * The difficulty adapter (server/app/core/difficulty_adapter.py): three base
 * configurations built from the settings, a lookup that returns a scaled
 * copy, and two adjusters that change a configuration in place. `int(x)`
 * on a float truncates towards zero (`Trunc`); the hour of day is a parameter.
 */
module DifficultyAdaptation {
  import opened Numeric
  import Config

  /** The contents of one configuration dictionary. */
  datatype DifficultyParams = DifficultyParams(
    inferenceTimeMs: int,
    taskType: string,
    verificationProbability: real,
    model: string,
    batchSize: int)

  /** `base_configs`, keyed by tier. */
  function BaseConfigs(settings: Config.Settings): (m: map<string, DifficultyParams>)
    ensures m.Keys == {"normal", "suspicious", "bot_like"}
  {
    map["normal" := DifficultyParams(settings.normalDifficultyTimeMs, "inference", settings.verificationRate, "cifar10-mobilenet", 1),
        "suspicious" := DifficultyParams(settings.suspiciousDifficultyTimeMs, "inference", 0.5, "cifar10-mobilenet", 1),
        "bot_like" := DifficultyParams(settings.botDifficultyTimeMs, "training", 1.0, "cifar10-mobilenet", 10)]
  }

  /** With the default settings, a riskier tier takes longer and is verified at least as often. */
  lemma DefaultBaseConfigsOrdered()
    ensures var b := BaseConfigs(Config.Defaults);
            b["normal"].inferenceTimeMs < b["suspicious"].inferenceTimeMs < b["bot_like"].inferenceTimeMs
            && b["normal"].verificationProbability <= b["suspicious"].verificationProbability
               <= b["bot_like"].verificationProbability <= 1.0
            && forall k :: k in b ==> 0.0 <= b[k].verificationProbability <= 1.0 && b[k].batchSize >= 1
  {
  }

  /**
   * What `get_config` returns: the tier's configuration (the normal one for an
   * unknown tier) with its time scaled by the domain multiplier and truncated.
   */
  function ConfigFor(baseConfigs: map<string, DifficultyParams>, difficulty: string, domainMultiplier: real): (p: DifficultyParams)
    requires "normal" in baseConfigs
    ensures var base := if difficulty in baseConfigs then baseConfigs[difficulty] else baseConfigs["normal"];
            p.(inferenceTimeMs := base.inferenceTimeMs) == base
            && p.inferenceTimeMs as real <= AbsReal(base.inferenceTimeMs as real * domainMultiplier)
  {
    var base := if difficulty in baseConfigs then baseConfigs[difficulty] else baseConfigs["normal"];
    base.(inferenceTimeMs := Trunc(base.inferenceTimeMs as real * domainMultiplier))
  }

  /** A multiplier of 1.0 returns the base configuration itself, the normal one for an unknown tier. */
  lemma UnitMultiplierKeepsBase(baseConfigs: map<string, DifficultyParams>, difficulty: string)
    requires "normal" in baseConfigs
    ensures ConfigFor(baseConfigs, difficulty, 1.0) == (if difficulty in baseConfigs then baseConfigs[difficulty] else baseConfigs["normal"])
  {
    var base := if difficulty in baseConfigs then baseConfigs[difficulty] else baseConfigs["normal"];
    TruncOfInt(base.inferenceTimeMs);
  }

  lemma TruncOfInt(n: int)
    ensures Trunc(n as real) == n
  {
  }

  /** The night hours during which bots are most active. */
  predicate PeakBotHour(hour: int) { 0 <= hour < 6 }

  /** `adjust_for_time_of_day`'s new contents: 20% more time and 20% more verification, capped at 1, at night only. */
  function TimeOfDayAdjusted(p: DifficultyParams, hour: int): (q: DifficultyParams)
    ensures !PeakBotHour(hour) ==> q == p
    ensures q.taskType == p.taskType && q.model == p.model && q.batchSize == p.batchSize
    ensures PeakBotHour(hour) ==> q.verificationProbability <= 1.0
  {
    if PeakBotHour(hour) then
      p.(inferenceTimeMs := Trunc(p.inferenceTimeMs as real * 1.2),
         verificationProbability := MinReal(1.0, p.verificationProbability * 1.2))
    else p
  }

  /** At night a non-negative configuration never gets easier. */
  lemma TimeOfDayNeverEases(p: DifficultyParams, hour: int)
    requires p.inferenceTimeMs >= 0 && 0.0 <= p.verificationProbability <= 1.0
    ensures TimeOfDayAdjusted(p, hour).inferenceTimeMs >= p.inferenceTimeMs
    ensures TimeOfDayAdjusted(p, hour).verificationProbability >= p.verificationProbability
  {
  }

  /** Attack levels above this raise the difficulty. */
  const AttackThreshold: real := 0.5

  /**
   * `adjust_for_attack_detection`'s new contents: above level 0.5 the time
   * and the batch grow by the factor 1 + level (the batch at least 1), and the
   * verification probability by 0.3 × level, capped at 1.
   */
  function AttackAdjusted(p: DifficultyParams, attackLevel: real): (q: DifficultyParams)
    ensures attackLevel <= AttackThreshold ==> q == p
    ensures attackLevel > AttackThreshold ==>
      q.verificationProbability <= 1.0 && q.batchSize >= 1
      && q.inferenceTimeMs == Trunc(p.inferenceTimeMs as real * (1.0 + attackLevel))
    ensures q.taskType == p.taskType && q.model == p.model
  {
    if attackLevel > AttackThreshold then
      p.(inferenceTimeMs := Trunc(p.inferenceTimeMs as real * (1.0 + attackLevel)),
         verificationProbability := MinReal(1.0, p.verificationProbability + attackLevel * 0.3),
         batchSize := MaxInt(1, Trunc(p.batchSize as real * (1.0 + attackLevel))))
    else p
  }

  /** Under attack a non-negative configuration never gets easier: more time, a larger batch, more verification. */
  lemma AttackNeverEases(p: DifficultyParams, attackLevel: real)
    requires attackLevel > AttackThreshold && p.inferenceTimeMs >= 0 && p.batchSize >= 1
    requires 0.0 <= p.verificationProbability <= 1.0
    ensures AttackAdjusted(p, attackLevel).inferenceTimeMs >= p.inferenceTimeMs
    ensures AttackAdjusted(p, attackLevel).batchSize >= p.batchSize
    ensures AttackAdjusted(p, attackLevel).verificationProbability >= p.verificationProbability
  {
    var t := p.inferenceTimeMs as real;
    var b := p.batchSize as real;
    NonNegativeProduct(t, attackLevel);
    NonNegativeProduct(b, attackLevel);
    assert t * (1.0 + attackLevel) == t + t * attackLevel;
    assert b * (1.0 + attackLevel) == b + b * attackLevel;
  }

  lemma NonNegativeProduct(x: real, y: real)
    requires x >= 0.0 && y >= 0.0
    ensures x * y >= 0.0
  {
    if x > 0.0 && y > 0.0 {
      PositiveProduct(x, y);
    }
  }

  /** `get_model_for_difficulty`: the larger text model for bots, the image model otherwise. */
  function ModelForDifficulty(difficulty: string): (m: string)
    ensures m == "imdb-distilbert" <==> difficulty == "bot_like"
    ensures m != "imdb-distilbert" ==> m == "cifar10-mobilenet"
  {
    var models := map["normal" := "cifar10-mobilenet", "suspicious" := "cifar10-mobilenet", "bot_like" := "imdb-distilbert"];
    if difficulty in models then models[difficulty] else "cifar10-mobilenet"
  }

  /** A configuration dictionary, which the adjusters change in place. */
  class DifficultyConfig {
    var inferenceTimeMs: int
    var taskType: string
    var verificationProbability: real
    var model: string
    var batchSize: int

    function Values(): DifficultyParams
      reads this
    {
      DifficultyParams(inferenceTimeMs, taskType, verificationProbability, model, batchSize)
    }

    constructor (p: DifficultyParams)
      ensures Values() == p
    {
      inferenceTimeMs := p.inferenceTimeMs;
      taskType := p.taskType;
      verificationProbability := p.verificationProbability;
      model := p.model;
      batchSize := p.batchSize;
    }
  }

  /** `DifficultyAdapter` */
  class DifficultyAdapter {
    const baseConfigs: map<string, DifficultyParams>

    constructor (settings: Config.Settings)
      ensures baseConfigs == BaseConfigs(settings)
    {
      baseConfigs := BaseConfigs(settings);
    }

    predicate Valid()
    {
      "normal" in baseConfigs
    }

    /** `get_config`: a new dictionary, so later adjustments cannot reach the base configurations. */
    method GetConfig(difficulty: string, domainMultiplier: real) returns (config: DifficultyConfig)
      requires Valid()
      ensures fresh(config)
      ensures config.Values() == ConfigFor(baseConfigs, difficulty, domainMultiplier)
    {
      var base := if difficulty in baseConfigs then baseConfigs[difficulty] else baseConfigs["normal"];
      config := new DifficultyConfig(base);
      config.inferenceTimeMs := Trunc(config.inferenceTimeMs as real * domainMultiplier);
    }

    /** `adjust_for_time_of_day`, on the hour of the current UTC time. */
    method AdjustForTimeOfDay(config: DifficultyConfig, hour: int) returns (r: DifficultyConfig)
      modifies config
      ensures r == config
      ensures config.Values() == TimeOfDayAdjusted(old(config.Values()), hour)
    {
      if 0 <= hour < 6 {
        config.inferenceTimeMs := Trunc(config.inferenceTimeMs as real * 1.2);
        config.verificationProbability := MinReal(1.0, config.verificationProbability * 1.2);
      }
      r := config;
    }

    /** `adjust_for_attack_detection` */
    method AdjustForAttackDetection(config: DifficultyConfig, attackLevel: real) returns (r: DifficultyConfig)
      modifies config
      ensures r == config
      ensures config.Values() == AttackAdjusted(old(config.Values()), attackLevel)
    {
      if attackLevel > 0.5 {
        config.inferenceTimeMs := Trunc(config.inferenceTimeMs as real * (1.0 + attackLevel));
        config.verificationProbability := MinReal(1.0, config.verificationProbability + attackLevel * 0.3);
        config.batchSize := MaxInt(1, Trunc(config.batchSize as real * (1.0 + attackLevel)));
      }
      r := config;
    }
  }
}
