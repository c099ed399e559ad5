/**
 * Task assignment (server/app/core/task_coordinator.py): the three
 * difficulty tiers, risk-to-tier selection, the shard task with its
 * `model:input_hash:layer` ground-truth key, the sample-based task with its
 * serve counter, and the check of one shard output against the ground truth.
 * Python's process-salted `hash()` is an uninterpreted function; the random
 * draws (known-sample choice, sample pick, task ids) are parameters.
 */
module TaskCoordination {
  import opened Wrappers
  import opened Text
  import opened Numeric
  import opened SessionModel
  import opened Records
  import opened ShardManagement
  import opened GroundTruth

  // ------------------------------------------------------------------ tiers

  /** One entry of `DIFFICULTY_TIERS`. */
  datatype TierConfig = TierConfig(
    riskScoreMax: real,
    inferenceTimeMs: int,
    taskType: string,
    verificationProbability: real,
    shardDifficulty: string,
    layers: int)

  const NormalTier: TierConfig := TierConfig(0.3, 20, "shard_inference", 0.2, "easy", 1)
  const SuspiciousTier: TierConfig := TierConfig(0.7, 100, "shard_inference", 0.5, "medium", 3)
  const BotLikeTier: TierConfig := TierConfig(1.0, 200, "shard_inference", 1.0, "hard", 6)

  const DefaultModel: string := "mnist-tiny"

  /** `DIFFICULTY_TIERS[name]`, None for a name that is not a tier. */
  function DifficultyTiers(name: string): Option<TierConfig>
  {
    if name == "normal" then Some(NormalTier)
    else if name == "suspicious" then Some(SuspiciousTier)
    else if name == "bot_like" then Some(BotLikeTier)
    else None
  }

  /** `DIFFICULTY_TIERS.get(difficulty, DIFFICULTY_TIERS["normal"])` */
  function TierConfigOf(difficulty: string): (c: TierConfig)
    ensures DifficultyTiers(difficulty).None? ==> c == NormalTier
    ensures DifficultyTiers(difficulty).Some? ==> c == DifficultyTiers(difficulty).value
  {
    DifficultyTiers(difficulty).GetOr(NormalTier)
  }

  /** Every tier expects positive work, verifies with a probability, and the risk bounds rise with the tier. */
  lemma TiersWellFormed(difficulty: string)
    ensures TierConfigOf(difficulty).inferenceTimeMs > 0
    ensures 0.0 <= TierConfigOf(difficulty).verificationProbability <= 1.0
    ensures NormalTier.riskScoreMax < SuspiciousTier.riskScoreMax < BotLikeTier.riskScoreMax
    ensures NormalTier.inferenceTimeMs < SuspiciousTier.inferenceTimeMs < BotLikeTier.inferenceTimeMs
  {
  }

  /** A tier's `layers` is the layer count the shard manager gives its shard difficulty. */
  lemma TierLayersAgree(difficulty: string)
    ensures TierConfigOf(difficulty).layers == DifficultyLayers(TierConfigOf(difficulty).shardDifficulty)
  {
  }

  function TierRank(tier: string): nat
  {
    if tier == "normal" then 0 else if tier == "suspicious" then 1 else 2
  }

  /** `get_difficulty_tier`: the first tier whose inclusive risk bound admits the score. */
  function DifficultyTier(riskScore: real): (tier: string)
    ensures DifficultyTiers(tier).Some?
    ensures tier == "normal" <==> riskScore <= NormalTier.riskScoreMax
    ensures tier == "suspicious" <==> NormalTier.riskScoreMax < riskScore <= SuspiciousTier.riskScoreMax
    ensures tier == "bot_like" <==> SuspiciousTier.riskScoreMax < riskScore
  {
    if riskScore <= NormalTier.riskScoreMax then "normal"
    else if riskScore <= SuspiciousTier.riskScoreMax then "suspicious"
    else "bot_like"
  }

  /** A higher risk never gets an easier tier, and scores up to 1 stay within their tier's bound. */
  lemma DifficultyTierMonotone(r1: real, r2: real)
    requires r1 <= r2
    ensures TierRank(DifficultyTier(r1)) <= TierRank(DifficultyTier(r2))
    ensures r1 <= 1.0 ==> r1 <= TierConfigOf(DifficultyTier(r1)).riskScoreMax
    ensures DifficultyTier(r1) != "normal" ==> r1 > NormalTier.riskScoreMax
  {
  }

  // ------------------------------------------------------------------ model choice and key

  /** The default model if it is loaded, else the first loaded one, else the default. */
  function ChooseModel(available: seq<string>): (m: string)
    ensures DefaultModel in available ==> m == DefaultModel
    ensures DefaultModel !in available && |available| > 0 ==> m == available[0]
    ensures |available| > 0 ==> m in available
    ensures |available| == 0 ==> m == DefaultModel
  {
    if DefaultModel in available then DefaultModel
    else if |available| > 0 then available[0]
    else DefaultModel
  }

  /** `hash(tuple(input)) % (2**32)`: Python's modulus by a positive number is never negative. */
  function InputHash(input: seq<real>, hash: seq<real> -> int): (h: nat)
    ensures h < 0x1_0000_0000
    ensures (hash(input) - h) % 0x1_0000_0000 == 0
  {
    hash(input) % 0x1_0000_0000
  }

  /** `f"{model_name}:{input_hash}:{expected_layers - 1}"` */
  function GroundTruthKey(modelName: string, inputHash: int, expectedLayers: int): string
  {
    modelName + ":" + IntToDecimal(inputHash) + ":" + IntToDecimal(expectedLayers - 1)
  }

  /**
   * For a model name without a colon the key splits into exactly three
   * parts, the middle one reads back as the input hash, and the key is the
   * cache key of the last assigned layer for the sample named by that hash.
   */
  lemma GroundTruthKeyParts(modelName: string, inputHash: int, expectedLayers: int)
    requires ':' !in modelName
    ensures Split(GroundTruthKey(modelName, inputHash, expectedLayers), ':')
            == [modelName, IntToDecimal(inputHash), IntToDecimal(expectedLayers - 1)]
    ensures ParseInt(Split(GroundTruthKey(modelName, inputHash, expectedLayers), ':')[1]) == Some(inputHash)
    ensures GroundTruthKey(modelName, inputHash, expectedLayers)
            == CacheKey(IntToDecimal(inputHash), modelName, expectedLayers - 1)
  {
    DecimalLacks(inputHash, ':');
    CacheKeyParts(IntToDecimal(inputHash), modelName, expectedLayers - 1);
    DecimalRoundTrip(inputHash);
  }

  const MissingKey: string := "Missing ground truth key"
  const BadKeyFormat: string := "Invalid ground truth key format"

  /** The key parsing shared by the coordinator and the validator: the input hash text, or why there is none. */
  function KeyInputHash(key: Option<string>): (r: Result<string, string>)
    ensures r == Err(MissingKey) <==> key.None? || key == Some("")
    ensures r == Err(BadKeyFormat) <==> key.Some? && key != Some("") && |Split(key.value, ':')| < 3
    ensures r.Ok? ==> |Split(key.value, ':')| >= 3 && r.value == Split(key.value, ':')[1]
  {
    if key.None? || key.value == "" then Err(MissingKey)
    else
      var parts := Split(key.value, ':');
      if |parts| < 3 then Err(BadKeyFormat) else Ok(parts[1])
  }

  /** A key the coordinator wrote parses back to the input hash it was made from. */
  lemma KeyInputHashOfWritten(modelName: string, inputHash: int, expectedLayers: int)
    requires ':' !in modelName
    ensures KeyInputHash(Some(GroundTruthKey(modelName, inputHash, expectedLayers))) == Ok(IntToDecimal(inputHash))
  {
    GroundTruthKeyParts(modelName, inputHash, expectedLayers);
  }

  // ------------------------------------------------------------------ task rows

  /** `ShardTask` */
  datatype ShardTask = ShardTask(
    taskId: Uuid,
    modelName: string,
    modelVersion: string,
    shards: seq<ModelShard>,
    inputData: seq<real>,
    inputShape: seq<Dim>,
    expectedLayers: int,
    difficulty: string,
    expectedTimeMs: int,
    groundTruthKey: string)

  /** The task row `assign_shard_task` stores, holding the shard task's summary in its metadata. */
  function ShardTaskRow(rowId: Uuid, sessionId: Uuid, tier: TierConfig, t: ShardTask): (row: Task)
    ensures row.id == rowId && row.sessionId == sessionId && row.sampleId.None?
    ensures row.status == "assigned" && !row.isKnownSample && row.knownLabel.None?
    ensures row.meta.shardTask.Some? && row.meta.shardTask.value.groundTruthKey == Some(t.groundTruthKey)
    ensures row.meta.shardTask.value.modelName == Some(t.modelName)
  {
    Task(rowId, sessionId, None, tier.taskType, tier.inferenceTimeMs, false, None, "assigned",
         TaskMeta(Some(ShardTaskMeta(t.taskId, Some(t.modelName), t.modelVersion, t.expectedLayers, t.difficulty,
                                     Some(t.groundTruthKey))), None, None))
  }

  /** `_create_dummy_sample`: a 28x28 image sample without a known label, never served yet. */
  function DummySample(id: Uuid, randomData: seq<bv8>, digest: seq<bv8> -> string): (s: Sample)
    ensures s.id == id && s.knownLabel.None? && s.timesServed == 0
  {
    Sample(id, "image", "mnist", digest(randomData), None, Some(randomData), None, 0)
  }

  /** A sample `_select_sample` may return: any sample, or with a known label when one is wanted. */
  predicate Candidate(s: Sample, useKnown: bool)
  {
    useKnown ==> s.knownLabel.Some?
  }

  /** The task row `assign_task` stores for a chosen sample. */
  function SampleTaskRow(rowId: Uuid, sessionId: Uuid, tier: TierConfig, useKnown: bool, s: Sample): (row: Task)
    ensures row.id == rowId && row.sessionId == sessionId && row.sampleId == Some(s.id)
    ensures row.isKnownSample == useKnown
    ensures row.knownLabel == if useKnown then s.knownLabel else None
    ensures row.status == "assigned"
  {
    Task(rowId, sessionId, Some(s.id), tier.taskType, tier.inferenceTimeMs, useKnown,
         if useKnown then s.knownLabel else None, "assigned",
         TaskMeta(None, Some(tier.shardDifficulty), Some(tier.layers)))
  }

  // ------------------------------------------------------------------ the task rows as written

  /**
   * The attributes the `Task` class maps (server/app/models/task.py): its
   * columns and relationships. Unlike `Sample`, it has no `metadata_`.
   */
  const TaskAttributes: set<string> :=
    {"id", "session_id", "sample_id", "task_type", "expected_time_ms", "is_known_sample",
     "known_label", "status", "created_at", "session", "sample", "prediction"}

  /** The keywords `assign_shard_task` passes to `Task(...)`, in order. */
  const ShardTaskKeywords: seq<string> :=
    ["session_id", "task_type", "expected_time_ms", "is_known_sample", "status", "metadata_"]

  /** The keywords `assign_task` passes to `Task(...)`, in order. */
  const SampleTaskKeywords: seq<string> :=
    ["session_id", "sample_id", "task_type", "expected_time_ms", "is_known_sample", "known_label", "status", "metadata_"]

  function InvalidKeyword(k: string): string
  {
    "TypeError: '" + k + "' is an invalid keyword argument for Task"
  }

  /**
   * SQLAlchemy's declarative constructor on a class mapping `attributes`:
   * keywords are taken in order and the first one that is not a mapped
   * attribute raises `TypeError`.
   */
  function ConstructTask(keywords: seq<string>, attributes: set<string>): (r: Result<(), string>)
    ensures r.Ok? <==> forall i :: 0 <= i < |keywords| ==> keywords[i] in attributes
    ensures r.Err? ==> exists i :: 0 <= i < |keywords| && keywords[i] !in attributes
                                   && (forall j :: 0 <= j < i ==> keywords[j] in attributes)
                                   && r.error == InvalidKeyword(keywords[i])
    decreases |keywords|
  {
    if |keywords| == 0 then Ok(())
    else if keywords[0] !in attributes then Err(InvalidKeyword(keywords[0]))
    else
      var rest := ConstructTask(keywords[1..], attributes);
      assert forall i :: 1 <= i < |keywords| ==> keywords[i] == keywords[1..][i - 1];
      rest
  }

  const NullSampleId: string :=
    "IntegrityError: null value in column \"sample_id\" of relation \"tasks\" violates not-null constraint"

  /** `flush()` of a new task row: `sample_id` is `nullable=False` and has no default. */
  function FlushTask(row: Task): (r: Result<(), string>)
    ensures r.Ok? <==> row.sampleId.Some?
    ensures r.Err? ==> r.error == NullSampleId
  {
    if row.sampleId.None? then Err(NullSampleId) else Ok(())
  }

  /** Building and flushing a task row as the source does: the constructor's error comes first. */
  function InsertTaskAsWritten(keywords: seq<string>, row: Task): (r: Result<(), string>)
    ensures ConstructTask(keywords, TaskAttributes).Err? ==> r == ConstructTask(keywords, TaskAttributes)
    ensures ConstructTask(keywords, TaskAttributes).Ok? ==> r == FlushTask(row)
  {
    match ConstructTask(keywords, TaskAttributes)
    case Err(e) => Err(e)
    case Ok(_) => FlushTask(row)
  }

  /**
   * As written, `assign_shard_task` never stores its row: `Task(...)`
   * refuses `metadata_`; and with that keyword dropped the flush would still
   * refuse the row, which has no sample.
   */
  lemma ShardTaskRowRefused(rowId: Uuid, sessionId: Uuid, tier: TierConfig, t: ShardTask)
    ensures InsertTaskAsWritten(ShardTaskKeywords, ShardTaskRow(rowId, sessionId, tier, t)) == Err(InvalidKeyword("metadata_"))
    ensures FlushTask(ShardTaskRow(rowId, sessionId, tier, t)) == Err(NullSampleId)
  {
    ShardKeywordsRefused();
  }

  /** As written, `assign_task` raises before it adds the row or serves the sample; only `metadata_` is to blame. */
  lemma SampleTaskRowRefused(rowId: Uuid, sessionId: Uuid, tier: TierConfig, useKnown: bool, s: Sample)
    ensures InsertTaskAsWritten(SampleTaskKeywords, SampleTaskRow(rowId, sessionId, tier, useKnown, s)) == Err(InvalidKeyword("metadata_"))
    ensures FlushTask(SampleTaskRow(rowId, sessionId, tier, useKnown, s)).Ok?
  {
    SampleKeywordsRefused();
  }

  lemma ShardKeywordsRefused()
    ensures ConstructTask(ShardTaskKeywords, TaskAttributes) == Err(InvalidKeyword("metadata_"))
  {
    assert "metadata_" !in TaskAttributes;
    LastKeywordRefused(ShardTaskKeywords, TaskAttributes);
  }

  lemma SampleKeywordsRefused()
    ensures ConstructTask(SampleTaskKeywords, TaskAttributes) == Err(InvalidKeyword("metadata_"))
  {
    assert "metadata_" !in TaskAttributes;
    LastKeywordRefused(SampleTaskKeywords, TaskAttributes);
  }

  /** Keywords whose only unmapped one is the last fail on that one. */
  lemma LastKeywordRefused(keywords: seq<string>, attributes: set<string>)
    requires |keywords| > 0 && keywords[|keywords| - 1] !in attributes
    requires forall i :: 0 <= i < |keywords| - 1 ==> keywords[i] in attributes
    ensures ConstructTask(keywords, attributes) == Err(InvalidKeyword(keywords[|keywords| - 1]))
  {
    var r := ConstructTask(keywords, attributes);
    var i :| 0 <= i < |keywords| && keywords[i] !in attributes && r.error == InvalidKeyword(keywords[i]);
    assert i == |keywords| - 1;
  }

  function NoAttribute(name: string): string
  {
    "AttributeError: 'Task' object has no attribute '" + name + "'"
  }

  /** Reading attribute `name` of a loaded task: a mapped attribute has a value, any other raises `AttributeError`. */
  function ReadTaskAttribute(name: string): (r: Result<(), string>)
    ensures r.Ok? <==> name in TaskAttributes
    ensures r.Err? ==> r.error == NoAttribute(name)
  {
    if name in TaskAttributes then Ok(()) else Err(NoAttribute(name))
  }

  /**
   * `validate_shard_output` as written: a missing task short-circuits the
   * `or`; for a found one `task.metadata_` raises `AttributeError`.
   */
  function ValidateShardOutputAsWritten(tasks: map<Uuid, Task>, taskId: Uuid): (r: Result<(bool, string), string>)
    ensures taskId !in tasks <==> r == Ok((false, "Task not found or missing metadata"))
    ensures taskId in tasks <==> r.Err?
  {
    if taskId !in tasks then Ok((false, "Task not found or missing metadata"))
    else Err(NoAttribute("metadata_"))
  }

  /**
   * What `assign_shard_task` hands out before it stores anything: the shard
   * manager's assignment for the chosen model and the tier's shard
   * difficulty, with the ground-truth key of its last layer.
   */
  function ShardTaskPlan(shardManager: ShardManager, sessionId: Uuid, difficulty: string, taskId: Uuid,
                         hash: seq<real> -> int, noise: nat -> real): (r: Result<ShardTask, string>)
    reads shardManager
    requires shardManager.Valid()
    ensures r.Err? <==> |shardManager.AvailableModels()| == 0
    ensures r.Err? ==> r.error == "Model '" + DefaultModel + "' not found"
    ensures r.Ok? ==> r.value.taskId == taskId && r.value.modelName == ChooseModel(shardManager.AvailableModels())
                      && r.value.modelName in shardManager.shardCache
    ensures r.Ok? ==>
      var t := r.value;
      var tier := TierConfigOf(difficulty);
      var cached := shardManager.shardCache[t.modelName];
      t.expectedLayers == MinInt(DifficultyLayers(tier.shardDifficulty), |cached|)
      && t.shards == cached[..t.expectedLayers]
      && t.inputData == RandomInput(cached[0].InputShape(), noise)
      && t.difficulty == tier.shardDifficulty && t.expectedTimeMs == tier.inferenceTimeMs
      && t.groundTruthKey == GroundTruthKey(t.modelName, InputHash(t.inputData, hash), t.expectedLayers)
  {
    var tier := TierConfigOf(difficulty);
    var modelName := ChooseModel(shardManager.AvailableModels());
    var assignment := shardManager.AssignShards(taskId, modelName, tier.shardDifficulty, None, noise);
    assert assignment.Err? <==> |shardManager.AvailableModels()| == 0;
    if assignment.Err? then Err(assignment.error)
    else
      var a := assignment.value;
      var key := GroundTruthKey(modelName, InputHash(a.inputData, hash), a.expectedLayers);
      Ok(ShardTask(taskId, modelName, a.modelVersion, a.shards, a.inputData, a.inputShape,
                   a.expectedLayers, tier.shardDifficulty, tier.inferenceTimeMs, key))
  }

  // ------------------------------------------------------------------ the coordinator

  /** `TaskCoordinator` over the shared database, shard manager and ground-truth cache. */
  class TaskCoordinator {
    const db: Db
    const shardManager: ShardManager
    const groundTruth: GroundTruthCache

    constructor (db: Db, shardManager: ShardManager, groundTruth: GroundTruthCache)
      ensures this.db == db && this.shardManager == shardManager && this.groundTruth == groundTruth
    {
      this.db := db;
      this.shardManager := shardManager;
      this.groundTruth := groundTruth;
    }

    /**
     * `assign_shard_task`: shards of the chosen model for the tier's shard
     * difficulty, and a task row recording the ground-truth key. With no
     * model loaded the shard manager's error comes back and nothing is stored.
     */
    method AssignShardTask(sessionId: Uuid, difficulty: string, taskId: Uuid, rowId: Uuid,
                           hash: seq<real> -> int, noise: nat -> real) returns (r: Result<ShardTask, string>)
      requires shardManager.Valid()
      requires rowId !in db.tasks
      modifies db
      ensures r.Err? <==> |shardManager.AvailableModels()| == 0
      ensures r.Err? ==> r.error == "Model '" + DefaultModel + "' not found" && db.Snapshot() == old(db.Snapshot())
      ensures r.Ok? ==> r.value.taskId == taskId && r.value.modelName == ChooseModel(shardManager.AvailableModels())
                        && r.value.modelName in shardManager.shardCache
      ensures r.Ok? ==>
        var t := r.value;
        var tier := TierConfigOf(difficulty);
        var cached := shardManager.shardCache[t.modelName];
        t.expectedLayers == MinInt(DifficultyLayers(tier.shardDifficulty), |cached|)
        && t.shards == cached[..t.expectedLayers]
        && t.inputData == RandomInput(cached[0].InputShape(), noise)
        && t.difficulty == tier.shardDifficulty && t.expectedTimeMs == tier.inferenceTimeMs
        && t.groundTruthKey == GroundTruthKey(t.modelName, InputHash(t.inputData, hash), t.expectedLayers)
      ensures r.Ok? ==>
        db.Snapshot() == old(db.Snapshot()).(tasks := old(db.tasks)[rowId := ShardTaskRow(rowId, sessionId, TierConfigOf(difficulty), r.value)])
    {
      r := ShardTaskPlan(shardManager, sessionId, difficulty, taskId, hash, noise);
      if r.Ok? {
        db.InsertTask(rowId, ShardTaskRow(rowId, sessionId, TierConfigOf(difficulty), r.value));
      }
      assert unchanged(shardManager);
    }

    /**
     * `assign_task`: the selected sample (or a new dummy one when there is
     * none) is served once more and a task row is stored for it; the known
     * label is copied only for a known-sample task.
     */
    method AssignTask(sessionId: Uuid, difficulty: string, useKnownSample: bool, selected: Option<Uuid>,
                      dummyId: Uuid, randomData: seq<bv8>, digest: seq<bv8> -> string, rowId: Uuid)
      returns (task: Task, sample: Sample)
      requires selected.Some? ==> selected.value in db.samples && Candidate(db.samples[selected.value], useKnownSample)
      requires selected.None? ==> forall id :: id in db.samples ==> !Candidate(db.samples[id], useKnownSample)
      requires dummyId !in db.samples && rowId !in db.tasks
      modifies db
      ensures var before := if selected.Some? then old(db.samples)[selected.value] else DummySample(dummyId, randomData, digest);
        sample == before.(timesServed := before.timesServed + 1)
      ensures task == SampleTaskRow(rowId, sessionId, TierConfigOf(difficulty), useKnownSample, sample)
      ensures db.Snapshot() == old(db.Snapshot()).(samples := old(db.samples)[sample.id := sample],
                                                    tasks := old(db.tasks)[rowId := task])
    {
      var tier := TierConfigOf(difficulty);
      var chosen: Sample;
      if selected.Some? {
        chosen := db.samples[selected.value];
      } else {
        chosen := DummySample(dummyId, randomData, digest);
      }
      task := SampleTaskRow(rowId, sessionId, tier, useKnownSample, chosen);
      db.tasks := db.tasks[rowId := task];
      sample := chosen.(timesServed := chosen.timesServed + 1);
      db.samples := db.samples[sample.id := sample];
    }

    /**
     * `validate_shard_output`: finds the task's ground-truth key and compares
     * the client's output with the cached entry for the key's input hash,
     * the task's model and the requested layer. An `Err` is numpy's exception.
     */
    function ValidateShardOutput(taskId: Uuid, layerIndex: int, clientOutput: seq<real>,
                                 realText: real -> string): (r: Result<(bool, string), string>)
      reads db, groundTruth
      ensures taskId !in db.tasks || db.tasks[taskId].meta == EmptyMeta ==>
        r == Ok((false, "Task not found or missing metadata"))
      ensures taskId in db.tasks && db.tasks[taskId].meta != EmptyMeta ==>
        var shard := db.tasks[taskId].meta.shardTask;
        var key := if shard.Some? then shard.value.groundTruthKey else None;
        var modelName := if shard.Some? then shard.value.modelName.GetOr(DefaultModel) else DefaultModel;
        match KeyInputHash(key)
        case Err(msg) => r == Ok((false, msg))
        case Ok(inputHash) =>
          match groundTruth.ValidateOutput(inputHash, modelName, layerIndex, FromList(clientOutput), DefaultTolerance)
          case Err(e) => r == Err(e)
          case Ok(v) =>
            && r.Ok? && r.value.0 == v.IsValid()
            && r.value.1 == (if v.Accepted? then "Validation successful" else RejectionText(v.reason, realText))
    {
      if taskId !in db.tasks || db.tasks[taskId].meta == EmptyMeta then Ok((false, "Task not found or missing metadata"))
      else
        var shard := db.tasks[taskId].meta.shardTask;
        var key := if shard.Some? then shard.value.groundTruthKey else None;
        var modelName := if shard.Some? then shard.value.modelName.GetOr(DefaultModel) else DefaultModel;
        match KeyInputHash(key)
        case Err(msg) => Ok((false, msg))
        case Ok(inputHash) =>
          match groundTruth.ValidateOutput(inputHash, modelName, layerIndex, FromList(clientOutput), DefaultTolerance)
          case Err(e) => Err(e)
          case Ok(v) => Ok((v.IsValid(), if v.Accepted? then "Validation successful" else RejectionText(v.reason, realText)))
    }

    /**
     * A task row written by `assign_shard_task` is validated against the
     * entry cached for its input hash's text, its model and the requested layer.
     */
    lemma ValidateWrittenTask(taskId: Uuid, rowId: Uuid, sessionId: Uuid, tier: TierConfig, t: ShardTask,
                              inputHash: int, layerIndex: int, clientOutput: seq<real>, realText: real -> string)
      requires ':' !in t.modelName
      requires t.groundTruthKey == GroundTruthKey(t.modelName, inputHash, t.expectedLayers)
      requires taskId in db.tasks && db.tasks[taskId] == ShardTaskRow(rowId, sessionId, tier, t)
      ensures var v := CheckAgainst(groundTruth.digests, CacheKey(IntToDecimal(inputHash), t.modelName, layerIndex),
                                    groundTruth.GetGroundTruth(IntToDecimal(inputHash), t.modelName, layerIndex),
                                    FromList(clientOutput), DefaultTolerance);
        (v.Err? ==> ValidateShardOutput(taskId, layerIndex, clientOutput, realText) == Err(v.error))
        && (v.Ok? ==> ValidateShardOutput(taskId, layerIndex, clientOutput, realText).Ok?
                      && ValidateShardOutput(taskId, layerIndex, clientOutput, realText).value.0 == v.value.IsValid())
    {
      KeyInputHashOfWritten(t.modelName, inputHash, t.expectedLayers);
    }
  }
}
