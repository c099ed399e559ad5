# PoUW CAPTCHA server: a Dafny model

This project models the server side of a proof-of-useful-work CAPTCHA. The browser runs a small machine-learning inference (a whole model, or a prefix of its layers) on a sample the server hands out. It returns the prediction with a proof-of-work hash and timing data. The server then does four things:
- it checks the proof of inference against a ground-truth table;
- it decides whether to ask the person for a human verification of the label;
- it issues a signed CAPTCHA token that the website's backend later validates;
- it uses the verifications to grow a golden dataset by reputation-weighted consensus.

The model follows the Python server module by module. Each `.dfy` file is one source file:
- `redis_store.dfy`: the in-memory Redis replacement, with TTL, the command pipeline and the fixed-window rate limiter. It is a class over a data map and an expiry map; each method is proved against a function on the store's value.
- `shard_manager.dfy`, `task_coordinator.dfy`, `ground_truth_cache.dfy`, `inference_validator.dfy`: the server half of proof-of-inference. These cover:
  - shape parsing and shard assignment;
  - risk tiers and the `model:input_hash:layer` key;
  - the ground-truth table;
  - the accept/reject predicates.
- `golden_dataset.dfy`, `reputation_service.dfy`, `reputation_model.dfy`, `verification_model.dfy`: consensus voting with first-wins argmax, the promote/discard/wait decision, and the clamped reputation counters with their decay.
- `session_model.dfy`, `records.dfy`, `captcha_api.dfy`, `verification_api.dfy`, `demo_server.dfy`: the session lifecycle `pending → verifying → completed` (or `pending → completed`) in the submit, verify and validate handlers. The database is a `Db` object holding one map per table, and Redis is the in-memory store. The same lifecycle is modelled over the demo server's two dictionaries.
- `risk_scorer.dfy`, `difficulty_adapter.dfy`: the piecewise risk factors, the clamped weighted sum, the moving average of completion times, and the in-place difficulty adjustments.
- `model_manager.dfy`, `captcha_schemas.dfy`, `verification_schemas.dfy`, `config.dfy`: the model registry, the request and response field constraints as validity predicates, and the comma-split settings validator with the default invariants.
- `wrappers.dfy`, `text.dfy`, `numeric.dfy`, `json_fields.dfy`: shared helpers. These are Option/Result, Python's `split`/`strip`/`lower`/`int()`/`str()`, clamps and truncation, and reading of JSON-like values.

Abstractions used throughout:
- Time is an integer count of microseconds, passed in wherever the source reads the clock.
- Randomness and fresh `uuid4` values are parameters.
- SHA-256, Python's `hash()`, the JWT codec and base64 are function-valued parameters, so the model treats them as uninterpreted.
- Python floats are `real`, and `int(x)` on a non-negative value is the floor.
- `int()` on text follows CPython's rules for ASCII digits. It strips the whitespace `str.isspace` accepts (U+001C to U+001F included) from a `str`, and only the six ASCII whitespace characters from `bytes`. It takes an optional sign and single underscores between digits (PEP 515), and in base 16 an optional `0x` prefix.

## Model

| member | source | states |
|---|---|---|
| Text.PyIntGrouped | server/app/utils/redis_client.py:82 | digits grouped by single underscores (PEP 515) read as the value of their digits |
| Text.UnderscoresIgnored | server/app/ml/shard_manager.py:204 | `int("1_000") == int("1000")`: underscores between digits change nothing |
| Text.PyBytesIntGrouped | server/app/utils/redis_client.py:82 | the same grouped digits held as `bytes` read as the same value |
| Text.SeparatorStrippedFromStr | server/app/ml/shard_manager.py:204 | `str.strip` drops U+001C, so `int("\x1c5")` is 5 |
| Text.SeparatorKeptInBytes | server/app/utils/redis_client.py:82 | `bytes` strip only ASCII whitespace, so `int(b"\x1c5")` raises |
| Text.LeadingUnderscoreRefused | server/app/ml/shard_manager.py:204 | an underscore may not open the number |
| Text.DoubleUnderscoreRefused | server/app/ml/shard_manager.py:204 | two underscores in a row are refused |
| Text.DecimalRoundTrip | server/app/utils/redis_client.py:82 | `int(str(i)) == i` for every integer, negative ones included |
| Config.DefaultsCoherent | server/app/config.py:102-117 | the default reputation range is ordered with the initial score inside it, and the discard threshold lies below the consensus threshold |
| Config.SplitStringToList | server/app/config.py:65-70 | a string value becomes a list with one entry per comma-separated piece, entry i being piece i with the whitespace at both ends cut off, so comma-free and trimmed; a list value is returned unchanged |
| Config.StripChecked | server/app/config.py:69 | each stripped piece is a slice of the raw piece with no whitespace at either end, and everything cut off before and after it is whitespace |
| Config.TrimmedCutUnique | server/app/config.py:69 | only one slice is cut out by whitespace and trimmed, so the stripped piece is the longest such slice |
| Config.SplitStringToListLength | server/app/config.py:69 | one entry per comma plus one, so an empty value gives a single empty entry |
| Config.SplitStringToListJoin | server/app/config.py:65-70 | joining trimmed, comma-free entries with commas and validating them gives the entries back |
| SessionModel.NewSession | server/app/models/session.py:39-77 | a session built from its required columns is pending, "normal", with risk 0, no fingerprint, not completed, created now |
| SessionModel.ExpiryAndCompletionIndependent | server/app/models/session.py:87-95 | expiry depends only on the clock and the expiry instant, completion only on the status, and a session is completed exactly when its status is "completed" |
| SessionModel.ExpiryIsPermanent | server/app/models/session.py:87-90 | an expired session stays expired as time passes; it is expired at its expiry instant and not one microsecond earlier |
| VerificationModel.FinalLabel | server/app/models/verification.py:81-84 | the final label is the verified label when it is present and non-empty, the original label otherwise |
| VerificationModel.EmptyCorrectionIgnored | server/app/models/verification.py:84 | an empty correction gives the same final label as no correction: the original one |
| ReputationModel.NewReputation | server/app/models/reputation.py:32-66 | a new record starts at score 1.0 with zero counters and the current instant as both activity and creation time |
| ReputationModel.Accuracy | server/app/models/reputation.py:71-77 | the accuracy is 0 before any verification, and otherwise the share of correct verifications among all |
| ReputationModel.AccuracyRange | server/app/models/reputation.py:71-77 | with non-negative counters the accuracy lies in [0, 1]; it is 1 exactly when all verifications were correct and 0 exactly when none was |
| ReputationModel.NewReputationAccuracy | server/app/models/reputation.py:38-55 | a new record has valid counters and accuracy 0 |
| VerificationSchemas.ParseSubmitRequest | server/app/schemas/verification.py:11-24 | a request parses only when its three id/answer strings are present; a negative response time is refused; a parsed request carries exactly the given strings |
| VerificationSchemas.SubmitRequestRoundTrip | server/app/schemas/verification.py:11-24 | every valid request is read back from its own JSON dump |
| CaptchaSchemas.ParseClientMetadata | server/app/schemas/captcha.py:12-19 | metadata parses only with its three required strings, and carries exactly those strings |
| CaptchaSchemas.ParseInitRequest | server/app/schemas/captcha.py:22-26 | a parsed init request has a site key of at least 10 characters, taken from the request; a shorter one is refused with a `min_length` error on `site_key` |
| CaptchaSchemas.InitRequestRoundTrip | server/app/schemas/captcha.py:12-26 | every valid init request is read back from its own dump |
| CaptchaSchemas.ParseTopK | server/app/schemas/captcha.py:62-66 | a parsed top-k entry has a confidence in [0, 1] |
| CaptchaSchemas.TopKItems | server/app/schemas/captcha.py:74 | a parsed top-k list has one valid entry per JSON item |
| CaptchaSchemas.TopKItemsRoundTrip | server/app/schemas/captcha.py:62-74 | every list of valid top-k entries is read back from its dump |
| CaptchaSchemas.ParsePrediction | server/app/schemas/captcha.py:69-74 | a parsed prediction has its confidence and every top-k confidence in [0, 1] |
| CaptchaSchemas.PredictionRoundTrip | server/app/schemas/captcha.py:69-74 | every valid prediction is read back from its dump |
| CaptchaSchemas.ParseProofOfWork | server/app/schemas/captcha.py:77-84 | a parsed proof of work has a hash of at least 64 characters and a non-negative nonce |
| CaptchaSchemas.ProofOfWorkRoundTrip | server/app/schemas/captcha.py:77-84 | every valid proof of work is read back from its dump |
| CaptchaSchemas.ParseTiming | server/app/schemas/captcha.py:87-94 | parsed timings have non-negative load, inference and total durations |
| CaptchaSchemas.TimingRoundTrip | server/app/schemas/captcha.py:87-94 | every valid timing record is read back from its dump, negative timestamps included |
| CaptchaSchemas.ParseSubmitRequest | server/app/schemas/captcha.py:97-104 | a parsed submit request satisfies every nested field constraint |
| CaptchaSchemas.SubmitRequestRoundTrip | server/app/schemas/captcha.py:97-104 | every valid submit request is read back from its own dump |
| CaptchaSchemas.ParseModelMeta | server/app/schemas/captcha.py:29-36 | parsed model metadata has one shape entry per item of the JSON `input_shape` list |
| CaptchaSchemas.ParseTaskInfo | server/app/schemas/captcha.py:39-49 | an absent `sample_data` or `sample_url` is None in the parsed task |
| CaptchaSchemas.IntItemsRoundTrip | server/app/schemas/captcha.py:34 | a list of integers is read back from its dump |
| CaptchaSchemas.StrItemsRoundTrip | server/app/schemas/captcha.py:35 | a list of strings is read back from its dump |
| CaptchaSchemas.ModelMetaRoundTrip | server/app/schemas/captcha.py:29-36 | all model metadata is read back from its dump |
| CaptchaSchemas.TaskInfoRoundTrip | server/app/schemas/captcha.py:39-49 | every task description is read back from its dump, the optional parts included |
| CaptchaSchemas.SubmitResponse | server/app/schemas/captcha.py:125-138 | a response built from the two required flags leaves the verification, token and expiry at None |
| CaptchaSchemas.ValidateResponse | server/app/schemas/captcha.py:141-153 | a response built from `valid` alone leaves every other field at None |
| RedisStore.Purge | server/app/utils/redis_client.py:89-94 | after a purge exactly the live keys remain, with their values and expiries; no remaining key is expired |
| RedisStore.GetOp | server/app/utils/redis_client.py:35-40 | `get` purges first, and answers the encoded value exactly for a live key, None otherwise |
| RedisStore.SetOp | server/app/utils/redis_client.py:42-46 | `set` stores the value under the key; an expiry `now + ex` is written only for a truthy `ex`, otherwise the old expiry stays; other keys are untouched |
| RedisStore.DeleteOp | server/app/utils/redis_client.py:51-58 | `delete` only removes keys and expiries, never adds any |
| RedisStore.DeleteOpSpec | server/app/utils/redis_client.py:51-58 | exactly the listed keys leave both maps, every other entry keeps its value, and the count is the number of distinct listed keys that were stored |
| RedisStore.DeleteKeys | server/app/utils/redis_client.py:51-58 | the key-by-key loop of `delete` removes the listed keys from both maps and counts each stored key once |
| RedisStore.ExistsOp | server/app/utils/redis_client.py:60-62 | `exists` purges first and returns 1 for a live key, 0 otherwise |
| RedisStore.ExpireOp | server/app/utils/redis_client.py:64-68 | `expire` sets `now + seconds` on a stored key and reports True; on an absent key it changes nothing and reports False |
| RedisStore.RemainingSecondsValue | server/app/utils/redis_client.py:75-76 | the remaining time is never negative, 0 once the deadline has passed, and otherwise the whole seconds left |
| RedisStore.TtlCases | server/app/utils/redis_client.py:70-76 | `ttl` is -2 exactly for an absent key, -1 exactly for a key without expiry, and otherwise non-negative, 0 once expired |
| RedisStore.IncrOp | server/app/utils/redis_client.py:78-84 | `incr` purges, stores and returns 1 for a missing key and n+1 for a stored integer n; text raises TypeError and non-numeric bytes raise ValueError, leaving only the purge |
| RedisStore.SetThenGet | server/app/utils/redis_client.py:35-46 | a value set without expiry reads back as its encoding at any later time |
| RedisStore.SetWithExpiryThenGet | server/app/utils/redis_client.py:35-46 | a value set with a positive `ex` reads back until `ex` seconds have passed and reads as absent from then on |
| RedisStore.IncrOfNumericBytes | server/app/utils/redis_client.py:80-84 | a live value of bytes that `int()` reads, such as `b"1_0"` or `b" 7\n"`, is stored and returned as that number plus one |
| RedisStore.IncrThenGetAndIncr | server/app/utils/redis_client.py:35-40 | after `incr`, `get` sees the new count in decimal and a second `incr` returns one more |
| RedisStore.DeleteCountsDistinct | server/app/utils/redis_client.py:51-58 | a key listed twice in `delete` is counted once |
| RedisStore.Apply | server/app/utils/redis_client.py:130-143 | each queued command maps to its direct call, and keeps every expiry attached to a stored key |
| RedisStore.Run | server/app/utils/redis_client.py:128-144 | replaying the queue keeps every expiry attached to a stored key |
| RedisStore.RunReplies | server/app/utils/redis_client.py:128-144 | a run that raises nothing gives one reply per command, and reply k is the direct call's result on the store the first k commands left |
| RedisStore.RunStopsAtError | server/app/utils/redis_client.py:128-144 | once a command raises, the later commands run no more |
| RedisStore.PrefixedKeyInjective | server/app/utils/redis_client.py:194-195 | under colon-free prefixes, two prefixed keys are equal only for equal prefixes and equal ids |
| RedisStore.RateCheckDecision | server/app/utils/redis_client.py:258-277 | allowed exactly when the incremented count is within `max_requests`; the remaining budget is `max(0, max - count)`; a fresh counter gets a window of `window_seconds` |
| RedisStore.RateDecideKeepsCount | server/app/utils/redis_client.py:261-277 | after the pipeline's `incr`, reading the `ttl` and setting a fresh window's expiry change no stored value and keep the counter live |
| RedisStore.RateCheckCountsUp | server/app/utils/redis_client.py:258-277 | within a positive window, the next request counts one more |
| RedisStore.RunIncrTtl | server/app/utils/redis_client.py:261-264 | the two-command pipeline of `is_allowed` gives the `incr` result and then the `ttl` of the same key |
| RedisStore.InMemoryRedis.constructor | server/app/utils/redis_client.py:24-26 | a new client has two empty dictionaries |
| RedisStore.InMemoryRedis.Close | server/app/utils/redis_client.py:31-33 | `close` empties both dictionaries |
| RedisStore.InMemoryRedis.CleanupExpired | server/app/utils/redis_client.py:89-94 | the loop leaves the state equal to the purge of the old state |
| RedisStore.InMemoryRedis.Get | server/app/utils/redis_client.py:35-40 | the new state and the answer are those of `GetOp` |
| RedisStore.InMemoryRedis.Set | server/app/utils/redis_client.py:42-46 | returns True, with the new state that of `SetOp` |
| RedisStore.InMemoryRedis.Setex | server/app/utils/redis_client.py:48-49 | `setex` is `set` with `ex = ttl` |
| RedisStore.InMemoryRedis.Delete | server/app/utils/redis_client.py:51-58 | the new state and the count are those of `DeleteOp` |
| RedisStore.InMemoryRedis.Exists | server/app/utils/redis_client.py:60-62 | the new state and the answer are those of `ExistsOp` |
| RedisStore.InMemoryRedis.Expire | server/app/utils/redis_client.py:64-68 | the new state and the answer are those of `ExpireOp` |
| RedisStore.InMemoryRedis.Ttl | server/app/utils/redis_client.py:70-76 | the answer is that of `TtlOp`, never below -2 |
| RedisStore.InMemoryRedis.Incr | server/app/utils/redis_client.py:78-84 | the new state and the result are those of `IncrOp` |
| RedisStore.InMemoryRedis.Pipeline | server/app/utils/redis_client.py:86-87 | a new, empty pipeline on this client |
| RedisStore.InMemoryPipeline.constructor | server/app/utils/redis_client.py:100-102 | a new pipeline holds its client and an empty queue |
| RedisStore.InMemoryPipeline.Incr | server/app/utils/redis_client.py:104-106 | queues one `incr` command at the end |
| RedisStore.InMemoryPipeline.Ttl | server/app/utils/redis_client.py:108-110 | queues one `ttl` command at the end |
| RedisStore.InMemoryPipeline.Expire | server/app/utils/redis_client.py:112-114 | queues one `expire` command at the end |
| RedisStore.InMemoryPipeline.Get | server/app/utils/redis_client.py:116-118 | queues one `get` command at the end |
| RedisStore.InMemoryPipeline.Set | server/app/utils/redis_client.py:120-122 | queues one `set` command at the end |
| RedisStore.InMemoryPipeline.Delete | server/app/utils/redis_client.py:124-126 | queues one `delete` command at the end |
| RedisStore.InMemoryPipeline.Dispatch | server/app/utils/redis_client.py:131-143 | one queued command changes the client and replies exactly as its direct call |
| RedisStore.InMemoryPipeline.Execute | server/app/utils/redis_client.py:128-144 | the new client state and the replies are those of replaying the queue in order |
| RedisStore.RedisRateLimiter.constructor | server/app/utils/redis_client.py:236-246 | the limiter keeps its client, prefix, limit and window |
| RedisStore.RedisRateLimiter.IsAllowed | server/app/utils/redis_client.py:251-277 | the new client state and the answer are those of `RateCheck` on the prefixed key |
| ShardManagement.DifficultyLayers | server/app/ml/shard_manager.py:87-91 | every difficulty asks for at least one layer (easy 1, medium 3, hard 6, anything else 1 by the `get` default at line 249) |
| ShardManagement.LayerTimeMs | server/app/ml/shard_manager.py:94-100 | every layer type costs between 1 and 5 ms, 5 for an unknown type as `get(layer_type, 5)` at line 310 says |
| ShardManagement.ParseShape | server/app/ml/shard_manager.py:191-206 | the loop computes exactly the parsed shape, with at most one dimension per comma-separated piece |
| ShardManagement.ParseShapeRoundTrip | server/app/ml/shard_manager.py:191-206 | formatting any shape, `None` entries included, as `[d1,d2,...]` and parsing it gives the same shape back |
| ShardManagement.ParsePiecesOfTexts | server/app/ml/shard_manager.py:197-205 | parsing the printed pieces of a shape, one by one, yields the shape's dimensions in order |
| ShardManagement.PieceDimsOfText | server/app/ml/shard_manager.py:198-205 | a printed integer or `None` piece parses to exactly that one dimension |
| ShardManagement.PieceDimsGrouped | server/app/ml/shard_manager.py:198-205 | a piece of digits grouped by underscores, such as `1_0`, is read by `int()` as the value of its digits |
| ShardManagement.PieceDimsPadded | server/app/ml/shard_manager.py:198-205 | a piece that opens with U+001C loses it to `strip()` and reads as the digits behind it |
| ShardManagement.StripBrackets | server/app/ml/shard_manager.py:194 | `strip('()[]')` removes the surrounding brackets and nothing of a body that neither starts nor ends with a bracket |
| ShardManagement.InferActivation | server/app/ml/shard_manager.py:208-216 | relu when the lower-cased name contains "relu"; else softmax when it contains "softmax"; else sigmoid when it contains "sigmoid"; None exactly when it contains none |
| ShardManagement.InferActivationExamples | server/app/ml/shard_manager.py:208-216 | the first match wins: "relu_softmax" is relu, the test is case-insensitive, a plain name gives None |
| ShardManagement.LoadShard | server/app/ml/shard_manager.py:164-189 | a shard is built exactly when the entry has an output shape, index, name and type; otherwise the exception path returns None |
| ShardManagement.LoadShardFields | server/app/ml/shard_manager.py:171-186 | a loaded shard carries the entry's index, name and type, the parsed shapes (input defaulting to 28x28x1) and the activation its name suggests |
| ShardManagement.DefaultInputShapeParsed | server/app/ml/shard_manager.py:171 | the default input shape string `[28,28,1]` parses to 28, 28, 1 |
| ShardManagement.LoadedShardsAllComplete | server/app/ml/shard_manager.py:154-158 | when every manifest entry is complete, every entry yields its shard, in manifest order |
| ShardManagement.LoadShards | server/app/ml/shard_manager.py:154-158 | the loop keeps exactly the shards that loaded, in manifest order |
| ShardManagement.GenerateRandomInput | server/app/ml/shard_manager.py:283-296 | one value per element of the shape without its `None` dimensions (their product), value i being the i-th random draw |
| ShardManagement.RandomInput | server/app/ml/shard_manager.py:288-296 | the generated input has the product of the known dimensions as length and takes its values from the draws in order |
| ShardManagement.EstimateComputationTime | server/app/ml/shard_manager.py:298-312 | the loop computes the sum of the per-layer times of the shards |
| ShardManagement.TotalTimeBounds | server/app/ml/shard_manager.py:308-312 | the estimate lies between 1 and 5 ms per shard, and is 0 for no shards |
| ShardManagement.TotalTimeAppend | server/app/ml/shard_manager.py:308-312 | the estimate of two shard lists together is the sum of their estimates |
| ShardManagement.ShardId | server/app/ml/shard_manager.py:42-46 | a shard id is at most 16 characters and a prefix of the digest of the shard's content |
| ShardManagement.ValidateShardHash | server/app/ml/shard_manager.py:314-316 | a hash validates exactly when it equals the shard's id, so only a prefix of its content digest can |
| ShardManagement.ShardHashAgreement | server/app/ml/shard_manager.py:314-316 | a shard validates against its own id, a shard with the same content against it too, and any shard that does shares the first 16 digest characters |
| ShardManagement.ShardManager.constructor | server/app/ml/shard_manager.py:102-106 | the manager starts with no cached shards and no metadata |
| ShardManagement.ShardManager.LoadModel | server/app/ml/shard_manager.py:134-162 | metadata is recorded when present; without a manifest, or when no shard loads, the cache is unchanged; otherwise the model's shard list is cached and its name listed once |
| ShardManagement.ShardManager.AvailableModels | server/app/ml/shard_manager.py:218-220 | the listed names are exactly the cached models |
| ShardManagement.ShardManager.ModelMetadataOf | server/app/ml/shard_manager.py:222-224 | the stored metadata of the model, None exactly when it has none |
| ShardManagement.ShardManager.AssignShards | server/app/ml/shard_manager.py:226-281 | an unknown model is refused with "Model '…' not found"; otherwise the first `min(layers(difficulty), len)` shards (at least one), the first shard's input shape, the given or drawn input, and the metadata version or "1.0.0" |
| ShardManagement.ShardManager.ShardByIndex | server/app/ml/shard_manager.py:318-327 | the shard at that position, None exactly for an unknown model or an index outside the list |
| ShardManagement.ShardManager.AssignedShardsByIndex | server/app/ml/shard_manager.py:318-327 | every assigned shard equals the index lookup at its position (progressive disclosure hands out a prefix) |
| ShardManagement.ShardManager.DifficultyDepth | server/app/ml/shard_manager.py:249-252 | an unknown difficulty gets one layer, "hard" gets six when the model has six, and medium never gets more than hard |
| DifficultyAdaptation.BaseConfigs | server/app/core/difficulty_adapter.py:25-48 | there are exactly three tiers: normal, suspicious and bot_like |
| DifficultyAdaptation.DefaultBaseConfigsOrdered | server/app/core/difficulty_adapter.py:26-48 | with the default settings a riskier tier takes strictly longer and is verified at least as often; every probability is in [0, 1] and every batch is at least 1 |
| DifficultyAdaptation.ConfigFor | server/app/core/difficulty_adapter.py:50-70 | the tier's configuration, the normal one for an unknown tier, with only the time changed; the truncated time never exceeds the scaled time in magnitude |
| DifficultyAdaptation.UnitMultiplierKeepsBase | server/app/core/difficulty_adapter.py:53-70 | the default multiplier 1.0 returns the base configuration unchanged |
| DifficultyAdaptation.TimeOfDayAdjusted | server/app/core/difficulty_adapter.py:72-89 | outside hours 0-5 the configuration is unchanged; the task type, model and batch never change; at night the probability stays at most 1 |
| DifficultyAdaptation.TimeOfDayNeverEases | server/app/core/difficulty_adapter.py:83-87 | for a non-negative configuration, the night adjustment never lowers the time or the verification probability |
| DifficultyAdaptation.AttackAdjusted | server/app/core/difficulty_adapter.py:91-114 | at attack level 0.5 or below nothing changes; above it the time is scaled by 1 + level and truncated, the probability capped at 1, the batch at least 1; the task type and model never change |
| DifficultyAdaptation.AttackNeverEases | server/app/core/difficulty_adapter.py:104-112 | under attack a non-negative configuration never gets easier: no less time, no smaller batch, no lower probability |
| DifficultyAdaptation.ModelForDifficulty | server/app/core/difficulty_adapter.py:116-123 | the text model exactly for bot_like, the image model for every other tier, unknown ones included |
| DifficultyAdaptation.DifficultyConfig.constructor | server/app/core/difficulty_adapter.py:65 | a new configuration dictionary holds exactly the given values |
| DifficultyAdaptation.DifficultyAdapter.constructor | server/app/core/difficulty_adapter.py:25-48 | the adapter's base configurations are those built from the settings |
| DifficultyAdaptation.DifficultyAdapter.GetConfig | server/app/core/difficulty_adapter.py:50-70 | a fresh dictionary (the copy at line 65) holding the scaled configuration, so adjusting it cannot reach the base |
| DifficultyAdaptation.DifficultyAdapter.AdjustForTimeOfDay | server/app/core/difficulty_adapter.py:72-89 | the same dictionary is returned, changed in place to the time-of-day adjustment of its old contents |
| DifficultyAdaptation.DifficultyAdapter.AdjustForAttackDetection | server/app/core/difficulty_adapter.py:91-114 | the same dictionary is returned, changed in place to the attack adjustment of its old contents |
| Records.Db.constructor | server/app/api/verification.py:152-167 | a database with every table empty |
| Records.Db.InsertTask | server/app/core/task_coordinator.py:191-192 | the task row is stored under its id and every other table stays as it was |
| Records.Db.Restore | server/app/api/verification.py:142-149 | after a rollback the tables are exactly the last committed ones |
| Records.CanonicalUuid | server/app/api/verification.py:58 | `str(uuid)` is 36 characters of hex digits and hyphens, with no colon |
| Records.ParseUuid | server/app/api/verification.py:54-55 | `uuid.UUID(text)` succeeds exactly when 32 characters remain once `urn:` and `uuid:`, surrounding braces and hyphens are dropped and `int(…, 16)` reads them (sign, `0x` prefix, whitespace and single underscores included) as a value below 2¹²⁸; it gives that value's canonical form |
| Records.HexPrefixedUuid | server/app/api/verification.py:54-55 | `0x` followed by 30 hex digits is accepted and names the UUID of those digits behind two zeros |
| Records.UuidOfValueParses | server/app/api/verification.py:54-58 | the canonical text of any 128-bit value parses back to itself |
| Records.ParseUuidCanonical | server/app/api/verification.py:54-58 | a parsed UUID is in canonical form: parsing its text again gives it back |
| Records.CanonicalUuidRoundTrip | server/app/api/verification.py:53-58 | the canonical text of a UUID parses back to the same UUID, so the session check at line 58 compares like with like |
| Records.UuidDigitsOfCanonical | server/app/api/verification.py:54 | the digits `uuid.UUID` reads from a canonical UUID are its 32 hex digits in lower case |
| VerificationApi.ParseRecord | server/app/api/verification.py:53-55 | a record is read only when it splits on ':' into exactly two pieces, and both ids read from it are colon-free |
| VerificationApi.RecordOfParsedIds | server/app/api/verification.py:53-55 | a record of two colon-free ids that parse to themselves reads back as those two ids |
| VerificationApi.ParseRecordOfParts | server/app/api/verification.py:53-55 | text splitting into two self-parsing ids reads back as that pair |
| VerificationApi.RecordSplits | server/app/api/verification.py:53 | `"a:b"` of colon-free names splits into exactly `[a, b]` |
| VerificationApi.RecordRoundTrip | server/app/api/verification.py:53-55 | the `session:prediction` record the submit handler writes for two UUIDs reads back as those two UUIDs |
| VerificationApi.RecordWithThreePartsRefused | server/app/api/verification.py:53 | a record with two colons does not unpack into two names, so it is refused |
| VerificationApi.VerifiedLabel | server/app/api/verification.py:80-85 | "correct" with a non-empty correction gives the correction; "confirm" gives the prediction's label; any other answer gives no label; a label is always one of those two |
| VerificationApi.CorrectionOnlyWithCorrect | server/app/api/verification.py:80-85 | the correction is ignored unless the answer is "correct"; "reject" and an empty correction both give no label |
| VerificationApi.StoredFinalLabel | server/app/models/verification.py:81-84 | the row's `final_label` is the correction for a corrected answer and the original prediction otherwise |
| VerificationApi.FingerprintKey | server/app/api/verification.py:88-91 | the reputation is looked up under the fingerprint, or "anonymous" for a missing or empty one |
| VerificationApi.ReputationWeight | server/app/api/verification.py:87-102 | the row's weight is the score of the fingerprint's reputation record, 1.0 when there is none |
| VerificationApi.VerifyChecksFirst | server/app/api/verification.py:45-78 | a missing record is 404, an unreadable one 500, another session's 400, a missing session or prediction 404, an expired session 410, each leaving the database untouched; otherwise the answer is recorded |
| VerificationApi.VerifyRecordedOutcome | server/app/api/verification.py:104-141 | on success the session is completed at this instant, exactly the new row is appended, the Redis record is deleted and the token and expiry are returned; on a failed golden update nothing is committed |
| VerificationApi.VerifyAcceptedRow | server/app/api/verification.py:93-104 | the row records this prediction's sample, this session, the answer, the original and chosen labels, the response time and the reputation weight; a failure changes no table, and a prediction without a sample fails |
| VerificationApi.GoldenOnlyWithLabel | server/app/api/verification.py:106-114 | without a verified label the golden dataset is left as it was |
| VerificationApi.SubmitThenVerifyReachesPrediction | server/app/api/verification.py:45-78 | after the submit handler asked for verification, a matching verify request sent before expiry passes every check and reaches the stored session and prediction |
| VerificationApi.VerificationRoutes.constructor | server/app/api/verification.py:42-43 | the router works on the given database session, Redis store and services |
| VerificationApi.VerificationRoutes.SubmitVerification | server/app/api/verification.py:28-149 | the new tables, the new Redis state and the response are those of the verification operation on the old state |
| VerificationApi.VerificationRoutes.Complete | server/app/api/verification.py:80-141 | after the checks, the new state and response are those of the accepted-answer operation on the old state |
| VerificationApi.VerificationRoutes.Record | server/app/api/verification.py:104-149 | adding the row, the golden update (rolled back on failure), completing the session and deleting the record give the recorded-answer operation's state and response |
| VerificationApi.VerificationRoutes.ConsultGolden | server/app/api/verification.py:106-114 | the golden dataset is consulted exactly when a verified label exists; `failed` is whether that raised, and only the golden entries change |
| GoldenDataset.Occurrences | server/app/services/golden_dataset.py:125-128 | a label's count is at most the number of labels and positive exactly when the label occurs |
| GoldenDataset.Distinct | server/app/services/golden_dataset.py:114 | the keys of the vote dictionary: each label once, exactly the labels that occur |
| GoldenDataset.DistinctCountsSum | server/app/services/golden_dataset.py:125-135 | the per-label counts of `Counter` add up to the number of verifications |
| GoldenDataset.DistributionCountsAll | server/app/services/golden_dataset.py:135 | the vote distribution of a consensus accounts for every verification exactly once |
| GoldenDataset.FinalLabels | server/app/services/golden_dataset.py:111 | one label per verification |
| GoldenDataset.FinalLabelsAt | server/app/services/golden_dataset.py:111 | each verification votes for its `verified_label or original_label` |
| GoldenDataset.VoteWeight | server/app/services/golden_dataset.py:112 | a vote weighs its reputation score, or 1.0 when the score is missing or zero; never zero |
| GoldenDataset.VotesAreLabelWeights | server/app/services/golden_dataset.py:107-115 | the tally holds exactly the labels voted for, each with the summed weight of its votes |
| GoldenDataset.LabelWeightUnvoted | server/app/services/golden_dataset.py:114 | a label nobody voted for has no weight |
| GoldenDataset.LabelWeightBounds | server/app/services/golden_dataset.py:110-115 | with no negative scores a label's weight lies between 0 and the total, is positive when voted for and equals the total when every vote is for it |
| GoldenDataset.TotalWeightPositive | server/app/services/golden_dataset.py:115-118 | with no negative scores the total weight is positive exactly when there are verifications |
| GoldenDataset.FirstMaxIndex | server/app/services/golden_dataset.py:121 | `max` with a key returns the first label of greatest weight in insertion order |
| GoldenDataset.TopIndex | server/app/services/golden_dataset.py:121 | the top label's tally is no less than any other and strictly greater than every label inserted before it |
| GoldenDataset.Distribution | server/app/services/golden_dataset.py:125-135 | `dict(Counter(...))` maps exactly the labels that occur to their counts |
| GoldenDataset.ConsensusIsHeaviest | server/app/services/golden_dataset.py:120-122 | the top label was voted for, no label outweighs it, and any label first seen before it is strictly lighter |
| GoldenDataset.ConsensusRanges | server/app/services/golden_dataset.py:117-136 | with no negative scores a consensus exists exactly when there are verifications; both agreements lie in (0, 1] and the count is the number of verifications |
| GoldenDataset.ConsensusUnanimous | server/app/services/golden_dataset.py:98-136 | when every verification settles on one label, it wins with agreement and weighted agreement 1 |
| GoldenDataset.AllOccurrences | server/app/services/golden_dataset.py:125-128 | a label that is every entry is counted once per entry |
| GoldenDataset.VotesStep | server/app/services/golden_dataset.py:114 | one loop step adds the verification's weight under its label |
| GoldenDataset.OrderStep | server/app/services/golden_dataset.py:114 | one loop step appends the label to the key order exactly when it is new |
| GoldenDataset.TotalStep | server/app/services/golden_dataset.py:115 | one loop step adds the verification's weight to the total |
| GoldenDataset.Tally | server/app/services/golden_dataset.py:106-115 | the loop ends with the per-label weights, the labels in insertion order and the total weight |
| GoldenDataset.CalculateConsensus | server/app/services/golden_dataset.py:98-136 | the computed consensus is the consensus of the verifications |
| GoldenDataset.Decide | server/app/services/golden_dataset.py:53-87 | too few votes exactly below the minimum; promote when agreement reaches the consensus threshold; discard below the discard threshold; wait in between |
| GoldenDataset.UnanimousIsPromoted | server/app/services/golden_dataset.py:56-73 | enough unanimous votes are promoted with their label |
| GoldenDataset.TwoOfThreeWaits | server/app/services/golden_dataset.py:66-87 | with the default settings, two of three votes for the top label neither promote nor discard |
| GoldenDataset.FindGolden | server/app/services/golden_dataset.py:146-150 | the position of an entry for the sample, None exactly when there is none |
| GoldenDataset.PromoteOp | server/app/services/golden_dataset.py:138-191 | an existing entry is refreshed, else one is created from the sample with the domain; it carries the top label, both agreements and the count; an unknown sample raises "Sample not found"; an error changes no row |
| GoldenDataset.PromoteKeepsSamplesUnique | server/app/services/golden_dataset.py:146-184 | promotion keeps one entry per sample, adds at most one row, none for a sample already present, and leaves other samples' entries alone |
| GoldenDataset.SampleVerifications | server/app/services/golden_dataset.py:89-96 | exactly the verification rows of the sample |
| GoldenDataset.ProcessOp | server/app/services/golden_dataset.py:34-87 | nothing changes unless the decision is to promote, and an entry is returned only after a promotion |
| GoldenDataset.GoldenLabels | server/app/services/golden_dataset.py:198 | the label of each golden entry, in row order |
| GoldenDataset.GetStatistics | server/app/services/golden_dataset.py:193-221 | the total is the number of entries; by_label has exactly the labels present, each with its positive entry count and an average agreement that times the count gives the label's summed agreement |
| GoldenDataset.AgreementSumBounds | server/app/services/golden_dataset.py:200 | with agreement scores in [0, 1], a label's summed agreement lies between 0 and its entry count |
| GoldenDataset.AverageAgreementIsFraction | server/app/services/golden_dataset.py:200-207 | with agreement scores in [0, 1], every label's average agreement lies in [0, 1] |
| GoldenDataset.StatisticsCountsAddUp | server/app/services/golden_dataset.py:193-221 | the per-label counts add up to the total |
| GoldenDataset.ExportRows | server/app/services/golden_dataset.py:240-263 | at most one exported row per entry |
| GoldenDataset.ExportDataset | server/app/services/golden_dataset.py:223-263 | no more rows than the limit |
| GoldenDataset.ExportSound | server/app/services/golden_dataset.py:240-263 | every exported row copies an entry whose sample exists, whose agreement reaches the minimum and whose data type matches the filter |
| GoldenDataset.ExportComplete | server/app/services/golden_dataset.py:240-263 | every entry passing the filters is exported when the limit does not cut the list |
| GoldenDataset.ExportIncludes | server/app/services/golden_dataset.py:240-262 | every entry passing the filters is among the matching rows |
| GoldenDataset.Service.constructor | server/app/services/golden_dataset.py:31-32 | the service works on the given database session |
| GoldenDataset.Service.PromoteToGolden | server/app/services/golden_dataset.py:138-191 | the golden table and the result are those of the promotion operation; no other table changes |
| GoldenDataset.Service.ProcessVerification | server/app/services/golden_dataset.py:34-87 | the golden table and the result are those of the processing operation; no other table changes |
| GoldenDataset.Service.CurrentStatistics | server/app/services/golden_dataset.py:193-221 | the statistics of the current golden table |
| ReputationService.FindReputation | server/app/services/reputation.py:44-49 | the position of the fingerprint's record, None exactly when no record has it |
| ReputationService.FreshReputation | server/app/services/reputation.py:69-75 | a new record for the fingerprint starts at the initial score with zero counts |
| ReputationService.Ensured | server/app/services/reputation.py:51-82 | an existing record is used and the table unchanged; otherwise exactly one fresh record is appended and used |
| ReputationService.Updated | server/app/services/reputation.py:99-115 | one more correct or incorrect verification; the score moves by the bonus or the penalty, clamped into [min, max]; the session count and fingerprint stay; the activity time is now |
| ReputationService.Decayed | server/app/services/reputation.py:181-185 | a record due for decay gets `max(initial, score × factor)`, never below the initial score; any other record is untouched |
| ReputationService.DecayedRows | server/app/services/reputation.py:171-186 | the decay applied to each record, in place |
| ReputationService.DueCount | server/app/services/reputation.py:179-186 | at most one per record |
| ReputationService.DecayNeverBelowInitial | server/app/services/reputation.py:171-185 | no record at or above the initial score ends below it, and a recently active record is untouched |
| ReputationService.DecayNeverRaises | server/app/services/reputation.py:181-185 | a factor of at most 1 never raises a score |
| ReputationService.DecayedNotAbove | server/app/services/reputation.py:182-185 | for one record, a factor of at most 1 never raises its score |
| ReputationService.InsertByScore | server/app/services/reputation.py:146 | inserting into a list ordered by descending score keeps it ordered and adds exactly the record |
| ReputationService.ByScoreDescending | server/app/services/reputation.py:145-146 | `order_by(score.desc())` is a permutation of the table ordered by descending score |
| ReputationService.TopUsers | server/app/services/reputation.py:142-150 | `min(limit, n)` records of the table, best score first |
| ReputationService.TopUsersAreTop | server/app/services/reputation.py:142-150 | no record left out scores higher than the last one returned |
| ReputationService.Service.constructor | server/app/services/reputation.py:29-30 | the service works on the given database session |
| ReputationService.Service.GetReputation | server/app/services/reputation.py:32-49 | the fingerprint's record exactly when one exists |
| ReputationService.Service.GetOrCreate | server/app/services/reputation.py:51-82 | the table becomes the ensured table and the record the one at the fingerprint's position; fingerprints stay unique; no other table changes |
| ReputationService.Service.UpdateReputation | server/app/services/reputation.py:84-122 | the fingerprint's record, created if needed, is replaced by its update and returned; fingerprints stay unique; no other table changes |
| ReputationService.Service.IncrementSessionCount | server/app/services/reputation.py:124-140 | the fingerprint's record, created if needed, gets one more session and a new activity time, its score unchanged |
| ReputationService.Service.GetTopUsers | server/app/services/reputation.py:142-150 | the top users of the current table |
| ReputationService.Service.DecayInactive | server/app/services/reputation.py:152-191 | the table becomes its decayed rows for the cutoff `now − days`, and the count is the number of records due |
| ReputationService.DecayRows | server/app/services/reputation.py:179-186 | the loop leaves exactly the decayed rows for the cutoff and counts exactly the records due |
| GroundTruth.FromList | server/app/ml/ground_truth_cache.py:257 | `np.array` of a flat list is one-dimensional, as long as the list, with the same elements |
| GroundTruth.ArgMaxFirst | server/app/ml/ground_truth_cache.py:175 | `np.argmax` is the index of the first largest element |
| GroundTruth.MaxAbsDiff | server/app/ml/ground_truth_cache.py:263-264 | the largest element-wise distance: no pair differs by more, and some pair differs by exactly that |
| GroundTruth.MaxAbsDiffExceeds | server/app/ml/ground_truth_cache.py:263-267 | the largest distance exceeds the tolerance exactly when some element differs by more than the tolerance |
| GroundTruth.CacheKeyParts | server/app/ml/ground_truth_cache.py:126-128 | without colons in the names, a key splits back into model, sample and layer |
| GroundTruth.CacheKeyInjective | server/app/ml/ground_truth_cache.py:126-128 | without colons in the names, distinct triples get distinct keys |
| GroundTruth.CacheKeyCollision | server/app/ml/ground_truth_cache.py:126-128 | with a colon inside a name, two different triples share one key |
| GroundTruth.TopPrediction | server/app/ml/ground_truth_cache.py:171-175 | no top prediction exactly for an empty output; otherwise the index of its first largest element |
| GroundTruth.NewEntry | server/app/ml/ground_truth_cache.py:140-200 | the entry carries the given names and layer, the input and output digests, the full output only when asked, the top prediction, and a confidence exactly for a non-empty output |
| GroundTruth.CheckAgainst | server/app/ml/ground_truth_cache.py:243-269 | no entry rejects with the key; a matching digest accepts; with no stored output, accepts; a shape other than the stored length rejects; otherwise rejects exactly when some element is off by more than the tolerance; an empty stored output of empty shape raises numpy's zero-size error |
| GroundTruth.ExactOutputAccepted | server/app/ml/ground_truth_cache.py:256-269 | a client returning exactly the stored full output is accepted whatever its digest |
| GroundTruth.ModelsAtMostEntries | server/app/ml/ground_truth_cache.py:301-303 | there are no more cached models than entries, and none exactly when the cache is empty |
| GroundTruth.Stats | server/app/ml/ground_truth_cache.py:299-315 | the entry count, and exactly the model names that some entry has |
| GroundTruth.StatsAverage | server/app/ml/ground_truth_cache.py:313 | the average entries per model is 0 for an empty cache, and between 1 and the entry count otherwise |
| GroundTruth.WarmLayersEntries | server/app/ml/ground_truth_cache.py:343-360 | warming one sample keeps every key, and every entry it writes has the job's model and version and a full output exactly for layer -1 |
| GroundTruth.WarmSamplesEntries | server/app/ml/ground_truth_cache.py:342-360 | warming all samples keeps every key, and every new entry comes from the job as above |
| GroundTruth.WarmLayersCovers | server/app/ml/ground_truth_cache.py:343-360 | every layer the model computes for a sample gets an entry, whatever fails around it |
| GroundTruth.WarmSamplesCovers | server/app/ml/ground_truth_cache.py:342-360 | every sample and layer pair the model computes gets an entry |
| GroundTruth.GroundTruthCache.constructor | server/app/ml/ground_truth_cache.py:76-79 | the cache starts empty |
| GroundTruth.GroundTruthCache.AddGroundTruth | server/app/ml/ground_truth_cache.py:140-200 | the built entry is stored under its key and returned; a later lookup finds it; every other key is unchanged |
| GroundTruth.GroundTruthCache.GetGroundTruth | server/app/ml/ground_truth_cache.py:202-220 | the entry under the triple's key, None exactly when there is none |
| GroundTruth.GroundTruthCache.ValidateOutput | server/app/ml/ground_truth_cache.py:222-269 | the check against the entry under the key, which rejects with the key when there is none |
| GroundTruth.GroundTruthCache.GetStats | server/app/ml/ground_truth_cache.py:299-315 | the statistics of the current entries |
| GroundTruth.GroundTruthCache.ClearCache | server/app/ml/ground_truth_cache.py:317-320 | no entries remain, so the statistics read zero and no models |
| GroundTruth.GroundTruthCache.WarmCache | server/app/ml/ground_truth_cache.py:322-365 | the entries become those of warming every sample through every requested layer in order |
| InferenceValidation.ExtractLayerIndex | server/app/ml/inference_validator.py:222-233 | the lower-cased name's position among conv1, pool1, conv2, pool2, flatten, dense1 and output; -1 exactly for any other name |
| InferenceValidation.LayerNamesIndexed | server/app/ml/inference_validator.py:222-233 | each known name, in any case, gives its own index |
| InferenceValidation.UppercaseLayerName | server/app/ml/inference_validator.py:233 | "Dense1" is found as dense1, while "dense" is unknown |
| InferenceValidation.ValidateTiming | server/app/ml/inference_validator.py:235-253 | timing passes exactly when the reported time is at least a tenth of the expected time |
| InferenceValidation.ValidateProofOfWork | server/app/ml/inference_validator.py:255-272 | the proof passes exactly when the hash has 64 characters and starts with 0 |
| InferenceValidation.PredictionPlausible | server/app/ml/inference_validator.py:274-298 | plausible exactly when the confidence is in [0, 1], top-k is non-empty and its first label is the predicted one |
| InferenceValidation.TopKSumIgnored | server/app/ml/inference_validator.py:293-298 | top-k confidences summing to more than 1.1 are only logged, never rejected |
| InferenceValidation.ValidateKnownSample | server/app/ml/inference_validator.py:300-317 | the honeypot comparison never fails a prediction |
| InferenceValidation.ValidatePrediction | server/app/ml/inference_validator.py:70-110 | a prediction is valid exactly when timing, proof of work and plausibility all pass; the known-sample check changes nothing |
| InferenceValidation.ExactLayerRejected | server/app/ml/inference_validator.py:179-193 | as written: when the `json.dumps` digest of an entry's own output differs from the digest of its bytes, a client reporting exactly that output fails the layer |
| InferenceValidation.ExactLayerAcceptedWithCacheDigest | server/app/ml/inference_validator.py:179-193 | hashing the report as the cache hashed the output, an exact report passes the layer |
| InferenceValidation.LayerResults | server/app/ml/inference_validator.py:168-201 | at most one result per reported layer |
| InferenceValidation.LayerResultsCount | server/app/ml/inference_validator.py:168-194 | exactly the reported layers that have a cache entry contribute a result |
| InferenceValidation.LayerResultAt | server/app/ml/inference_validator.py:173-194 | a layer with an entry is judged by its own result, valid exactly when its hash is the entry's, at the position fixed by the earlier layers with entries |
| InferenceValidation.AllValidIff | server/app/ml/inference_validator.py:179-201 | every layer result is valid exactly when no reported layer's hash contradicts its entry |
| InferenceValidation.AllValidSnoc | server/app/ml/inference_validator.py:194-197 | appending a result keeps all valid exactly when it is valid itself |
| InferenceValidation.ShardInferenceBadKey | server/app/ml/inference_validator.py:138-160 | for the intended metadata read (the corrected half of the inference_validator.py:138 Findings row): a missing or empty ground-truth key gives one invalid "Missing ground truth key" result; fewer than three parts gives "Invalid ground truth key format" |
| InferenceValidation.ShardInferenceVerdict | server/app/ml/inference_validator.py:112-220 | for the intended metadata read (the corrected half of the inference_validator.py:138 Findings row): with a usable key, one result per layer that has an entry, and overall validity exactly when timing passes, every layer matches and the final prediction agrees with the final layer's top class |
| InferenceValidation.InferenceProofAgreesWithShardCheck | server/app/ml/inference_validator.py:319-373 | for the intended metadata reads (the corrected halves of the inference_validator.py:138 and :334 Findings rows): the inference-proof check accepts exactly when the key is usable and every layer result of the shard check is valid; timing and the final prediction play no part |
| InferenceValidation.InferenceValidator.constructor | server/app/ml/inference_validator.py:59-68 | the validator uses the given ground-truth cache and digest |
| InferenceValidation.InferenceValidator.ValidateShardInference | server/app/ml/inference_validator.py:112-220 | the corrected half of the inference_validator.py:138 Findings row: the verdict and results are the shard-inference outcome on the cache's contents |
| InferenceValidation.ShardInferenceAsWritten | server/app/ml/inference_validator.py:131-138 | as written, the check raises AttributeError on `task.metadata_` exactly when `Task` does not map that attribute, and would otherwise give the intended outcome |
| InferenceValidation.InferenceProofAsWritten | server/app/ml/inference_validator.py:330-334 | as written, the proof check raises AttributeError on `task.metadata_` exactly when `Task` does not map that attribute, and would otherwise give the intended verdict |
| InferenceValidation.MetadataReadAlwaysRaises | server/app/ml/inference_validator.py:138 | as written, both checks raise AttributeError for every task, cache, proof and timing, since `Task` maps no `metadata_` |
| TaskCoordination.ReadTaskAttribute | server/app/models/task.py:15-73 | reading an attribute of a loaded task succeeds exactly for the mapped columns and relationships, and otherwise raises AttributeError naming it |
| InferenceValidation.InferenceValidator.ValidateLayers | server/app/ml/inference_validator.py:168-201 | the loop yields the layer results, and overall validity is the timing verdict and all results valid |
| InferenceValidation.InferenceValidator.ValidateInferenceProof | server/app/ml/inference_validator.py:319-373 | the corrected half of the inference_validator.py:334 Findings row: the early-exit loop returns the inference-proof verdict |
| InferenceValidation.ShouldRequireVerification | server/app/ml/inference_validator.py:375-399 | always for bot_like; for any tier when the draw is under 0.1; for suspicious exactly when under 0.5; at a draw of 0.5 or more only for bot_like |
| InferenceValidation.VerificationMonotoneInTier | server/app/ml/inference_validator.py:391-399 | with the same draw, a riskier tier never asks for verification less often |
| TaskCoordination.TierConfigOf | server/app/core/task_coordinator.py:134 | a known tier's configuration, the normal tier's for an unknown name |
| TaskCoordination.TiersWellFormed | server/app/core/task_coordinator.py:54-79 | every tier expects positive work and verifies with a probability in [0, 1]; risk bounds and expected times rise from normal to suspicious to bot_like |
| TaskCoordination.TierLayersAgree | server/app/core/task_coordinator.py:54-79 | a tier's layer count is what the shard manager hands out for its shard difficulty |
| TaskCoordination.DifficultyTier | server/app/core/task_coordinator.py:102-117 | normal exactly up to 0.3, suspicious exactly above 0.3 up to 0.7, bot_like exactly above 0.7, bounds inclusive |
| TaskCoordination.DifficultyTierMonotone | server/app/core/task_coordinator.py:112-117 | a higher risk never gets an easier tier, and a score of at most 1 lies within its tier's bound |
| TaskCoordination.ChooseModel | server/app/core/task_coordinator.py:144-145 | the default model if loaded, else the first loaded model, else the default; always a loaded model when there is one |
| TaskCoordination.InputHash | server/app/core/task_coordinator.py:155 | `hash(...) % 2**32` lies in [0, 2³²) and is congruent to the hash, as Python's modulus of a negative hash is |
| TaskCoordination.GroundTruthKeyParts | server/app/core/task_coordinator.py:155-156 | for a colon-free model name the key splits into exactly model, hash and last layer, the middle part reads back as the hash, and the key is the cache key of that sample and layer |
| TaskCoordination.KeyInputHash | server/app/core/task_coordinator.py:360-371 | a missing or empty key gives "Missing ground truth key"; under three parts gives "Invalid ground truth key format"; otherwise the second part |
| TaskCoordination.KeyInputHashOfWritten | server/app/core/task_coordinator.py:367-371 | a key the coordinator wrote parses back to the text of its input hash |
| TaskCoordination.ShardTaskRow | server/app/core/task_coordinator.py:173-189 | the stored row is assigned, not a known sample, has no sample, and records the shard task's model and ground-truth key |
| TaskCoordination.DummySample | server/app/core/task_coordinator.py:282-311 | the dummy sample has the new id, no known label and has never been served |
| TaskCoordination.SampleTaskRow | server/app/core/task_coordinator.py:229-241 | the row names the chosen sample, is a known-sample task exactly when asked, and copies the known label only then |
| TaskCoordination.ConstructTask | server/app/models/task.py:15-73 | the mapped `Task` constructor accepts the keywords exactly when each names a mapped attribute; otherwise it raises TypeError naming the first keyword that does not |
| TaskCoordination.FlushTask | server/app/models/task.py:31-36 | flushing a task row succeeds exactly when it has a sample id; otherwise the NOT NULL constraint on `sample_id` fails |
| TaskCoordination.ShardTaskRowRefused | server/app/core/task_coordinator.py:173-192 | as written, `Task(..., metadata_=...)` raises TypeError on `metadata_`, and the intended row, having no sample, would still fail its flush |
| TaskCoordination.SampleTaskRowRefused | server/app/core/task_coordinator.py:229-241 | as written, the sample task's `Task(...)` raises TypeError on `metadata_`, although the row itself would flush |
| TaskCoordination.ValidateShardOutputAsWritten | server/app/core/task_coordinator.py:354-357 | as written, a missing task answers "Task not found or missing metadata" and a found one raises AttributeError on `task.metadata_` |
| TaskCoordination.ShardTaskPlan | server/app/core/task_coordinator.py:119-171 | with no model loaded the shard manager's "not found" error; otherwise the chosen model's prefix of shards for the tier, drawn input, the tier's time and the key built from the input hash and last layer |
| TaskCoordination.TaskCoordinator.constructor | server/app/core/task_coordinator.py:84-88 | the coordinator uses the given database, shard manager and ground-truth cache |
| TaskCoordination.TaskCoordinator.AssignShardTask | server/app/core/task_coordinator.py:119-199 | with no model loaded the shard manager's "not found" error and no write; otherwise the chosen model's prefix of shards for the tier, drawn input, the tier's time, the key built from the input hash and last layer, and exactly one new task row |
| TaskCoordination.TaskCoordinator.AssignTask | server/app/core/task_coordinator.py:201-252 | the selected sample, or a new dummy one, is served exactly once more, and exactly that sample and the new task row change |
| TaskCoordination.TaskCoordinator.ValidateShardOutput | server/app/core/task_coordinator.py:330-384 | a missing task or metadata, a missing key or a short key each give False with its message; otherwise the cache's verdict for the key's input hash, the task's model and the layer, with "Validation successful" on acceptance and the cache's rejection text otherwise |
| TaskCoordination.TaskCoordinator.ValidateWrittenTask | server/app/core/task_coordinator.py:330-384 | a task row the coordinator wrote is judged against the cache entry for its own input hash, model and the requested layer |
| RiskScoring.RiskWeightsSumToOne | server/app/core/risk_scorer.py:33-39 | there are exactly the five factors, each with a positive weight, and the weights sum to 1 |
| RiskScoring.FrequencyRisk | server/app/core/risk_scorer.py:107-126 | the frequency risk lies in [0, 1]: 0 for at most one stored request (none stored counts as 0), 1 above ten, and for 2 to 10 requests the count divided by ten |
| RiskScoring.FrequencyRiskMonotone | server/app/core/risk_scorer.py:119-126 | more stored requests never lower the frequency risk |
| RiskScoring.VelocityRisk | server/app/core/risk_scorer.py:128-152 | the velocity risk lies in [0, 1]: 0 without a stored average or at or above the normal time, 1 below 200 ms, and between 200 ms and the normal time `1 − (avg − 200)/(normal − 200)`, i.e. risk × (normal − 200) equals normal − avg |
| RiskScoring.VelocityRiskMonotone | server/app/core/risk_scorer.py:144-152 | a slower average never raises the velocity risk |
| RiskScoring.IndicatorHits | server/app/core/risk_scorer.py:174-176 | at most one hit per headless indicator |
| RiskScoring.BehavioralRiskBounds | server/app/core/risk_scorer.py:154-182 | the behavioral risk lies in [0, 1]; no indicator and a user agent of 20 characters or more give 0; one indicator gives at least 0.5; two give 1 |
| RiskScoring.ComputeBehavioralRisk | server/app/core/risk_scorer.py:154-182 | the accumulating loop gives the behavioral risk, in [0, 1] |
| RiskScoring.ReputationRisk | server/app/core/risk_scorer.py:184-201 | 0.3 without a fingerprint or a stored reputation; never negative; at most 1 for a non-negative reputation, 0 from reputation 5 upwards, and `1 − rep/5` for a stored reputation up to 5 |
| RiskScoring.ReputationRiskMonotone | server/app/core/risk_scorer.py:184-201 | for a known fingerprint, a higher stored reputation never raises the risk |
| RiskScoring.KnownSampleRisk | server/app/core/risk_scorer.py:203-220 | 0 without a fingerprint or a stored accuracy; never negative; at most 1 for a non-negative accuracy; `1 − accuracy` for an accuracy up to 1 |
| RiskScoring.WeightedSumInRange | server/app/core/risk_scorer.py:78-87 | factors in [0, 1] give a weighted sum in [0, 1], which the clamp leaves unchanged |
| RiskScoring.ComputeRiskScore | server/app/core/risk_scorer.py:48-99 | the score is the clamped weighted sum of the five factors computed from the stored signals, and lies in [0, 1] |
| RiskScoring.FreshClientIsNormal | server/app/core/risk_scorer.py:78-87 | a first-time client with no fingerprint and an ordinary user agent scores 0.045 and gets the normal tier |
| RiskScoring.NextAverage | server/app/core/risk_scorer.py:232-247 | the first completion time is stored as it is; afterwards the new average lies between the stored average and the new time |
| RiskScoring.NextAverageFixedPoint | server/app/core/risk_scorer.py:243 | a completion equal to the stored average leaves it unchanged |
| ModelRegistry.BuiltinModels | server/app/ml/model_manager.py:42-66 | two models are registered at start-up, the CIFAR-10 image model first and the IMDB text model second |
| ModelRegistry.FirstOfTaskType | server/app/ml/model_manager.py:85-88 | the position of the first model of the task type, the length when none has it |
| ModelRegistry.FirstOfTaskTypeIsFirst | server/app/ml/model_manager.py:85-88 | any position before which no model has the type and at which one has it (or the end) is the first-match position |
| ModelRegistry.ModelManager.constructor | server/app/ml/model_manager.py:42-69 | the registry holds exactly the two built-in models, in registration order |
| ModelRegistry.ModelManager.GetModel | server/app/ml/model_manager.py:71-73 | the model filed under the name, None exactly for an unknown name |
| ModelRegistry.ModelManager.GetDefaultModel | server/app/ml/model_manager.py:75-77 | the model named by the default-model setting; None stands for the KeyError of an unregistered default |
| ModelRegistry.ModelManager.ListModels | server/app/ml/model_manager.py:79-81 | one model per registered name, in insertion order |
| ModelRegistry.ModelManager.ListModelsComplete | server/app/ml/model_manager.py:79-81 | every registered model is listed and every listed model is registered under its own name |
| ModelRegistry.ModelManager.GetModelForTask | server/app/ml/model_manager.py:83-88 | the first listed model of the task type, None exactly when no registered model has it |
| ModelRegistry.ModelManager.ValidateChecksum | server/app/ml/model_manager.py:90-95 | true exactly when the model is registered and its checksum is the given one |
| ModelRegistry.ModelManager.GetLabels | server/app/ml/model_manager.py:97-102 | the model's output labels, the empty list for an unknown model |
| ModelRegistry.ModelManager.RegisterModel | server/app/ml/model_manager.py:109-112 | the model is filed under its name, replacing only that entry; a new name joins the end of the order |
| ModelRegistry.ModelManager.UpdateModelVersion | server/app/ml/model_manager.py:114-141 | false and no change for an unknown model; otherwise only that model's version, URL and checksum change, and the order stays |
| ModelRegistry.BuiltinLookups | server/app/ml/model_manager.py:42-102 | a fresh registry gives the CIFAR-10 and IMDB labels, accepts checksum "abc123" for the image model and refuses "def456", returns the image model as default, and knows no other model |
| CaptchaApi.ClientIp | server/app/api/captcha.py:55 | no header (or an empty one) gives "unknown"; otherwise the address holds no comma |
| CaptchaApi.ClientIpFirstEntry | server/app/api/captcha.py:55 | with several entries the address is the first one trimmed of whitespace, whatever follows the first comma |
| CaptchaApi.ClientIpSingleEntry | server/app/api/captcha.py:55 | a header with a single entry gives that entry trimmed of whitespace |
| CaptchaApi.ModelLabels | server/app/api/captcha.py:339-348 | any model other than the two known ones has no labels |
| CaptchaApi.ModelLabelsAgreeWithRegistry | server/app/api/captcha.py:339-348 | for each built-in model of the registry the handler's labels are exactly that model's output labels |
| CaptchaApi.EncodeSampleData | server/app/api/captcha.py:330-336 | None exactly when the sample has no blob or an empty one; otherwise the base64 of the blob |
| CaptchaApi.SessionKey | server/app/api/captcha.py:351-362 | a session is found exactly when the text parses as a UUID naming a stored session, and then under that UUID |
| CaptchaApi.TaskKey | server/app/api/captcha.py:365-381 | a task is found exactly when the text parses as a UUID naming a stored task of the given session |
| CaptchaApi.SessionKeyOfCanonicalId | server/app/api/captcha.py:351-362 | the canonical text of a stored session's id finds that same session again |
| CaptchaApi.SessionKeyNeedsUuid | server/app/api/captcha.py:351-362 | text that is not a UUID finds no session |
| CaptchaApi.VerificationKey | server/app/api/captcha.py:215-219 | the Redis key of a pending verification is `verification:` followed by its id |
| CaptchaApi.TaskSample | server/app/api/captcha.py:210-211 | `task.sample` exists exactly when the task's sample id names a stored sample, and is that row |
| CaptchaApi.DisplayData | server/app/api/captcha.py:227-231 | the displayed type and URL are the sample's; inline content appears only for a sample without a URL that has a blob |
| CaptchaApi.SubmitChecksFirst | server/app/api/captcha.py:160-179 | missing session (404), expired session (410) and a task not of that session (404) are checked in that order, each leaving the tables and Redis unchanged; a request past them names its session and a task of that session |
| CaptchaApi.SubmitStoresPrediction | server/app/api/captcha.py:182-201 | an accepted request adds exactly one prediction row, carrying the validator's verdict, the session and the task, and leaves every other prediction as it was |
| CaptchaApi.SubmitVerificationBranch | server/app/api/captcha.py:209-241 | when verification is required the session becomes "verifying", tasks stay, `session:prediction` is readable under the verification key until the token lifetime passes, the response carries the verification id and predicted label and no token, and it is an error exactly when the task has no sample |
| CaptchaApi.SubmitCompletionBranch | server/app/api/captcha.py:242-264 | otherwise session and task become "completed" with the completion time set, Redis is untouched, and the response carries the issued token and `now + lifetime` |
| CaptchaApi.BotLikeNeverGetsTokenFromSubmit | server/app/api/captcha.py:204-241 | a bot-like session never receives a token from submit and is left either "verifying" or as it was |
| CaptchaApi.SubmitStatusTransitions | server/app/api/captcha.py:221-254 | submit changes at most the requested session, and only to "verifying" or "completed" |
| CaptchaApi.ValidateClaims | server/app/api/captcha.py:290-319 | valid exactly when the token decodes, names a non-empty session id that finds a completed session, and its truthy `exp` has not passed; a valid answer reports that session's id, domain, completion time and tier; an invalid one carries nothing else |
| CaptchaApi.ValidateClaimsAsWritten | server/app/api/captcha.py:303-306 | reading `exp` on a local clock agrees with the UTC reading only on a server at UTC |
| CaptchaApi.ValidateClaimsUtc | server/app/api/captcha.py:290-319 | a token is accepted only when it names a stored, completed session |
| CaptchaApi.TokenWithinLifetimeValidates | server/app/api/captcha.py:303-306 | read in UTC, a token of a completed session is accepted up to its `exp` second |
| CaptchaApi.LocalClockRejectsFreshToken | server/app/api/captcha.py:305 | as written, on a server five hours behind UTC a token issued this second with the default 300 s lifetime is rejected, while the UTC reading accepts it |
| CaptchaApi.TokenTypeIgnored | server/app/api/captcha.py:290-319 | the token's `type` claim never changes the answer |
| CaptchaApi.CaptchaRoutes.constructor | server/app/api/captcha.py:142-145 | the router holds the request's database session, the Redis client and the services |
| CaptchaApi.CaptchaRoutes.SubmitCaptcha | server/app/api/captcha.py:142-273 | the committed tables, the Redis state and the response are those of `SubmitOp` on the old state |
| CaptchaApi.CaptchaRoutes.Accept | server/app/api/captcha.py:182-264 | after the checks, the new tables, Redis state and response are those of `SubmitAccepted` |
| CaptchaApi.CaptchaRoutes.ValidateCaptcha | server/app/api/captcha.py:277-323 | valid only for a token that decodes, and the answer is the UTC-corrected decision on the decoded claims |
| DemoServer.CaptchaToken | server/demo_server.py:164 | the token starts with `captcha_token_` and the rest is exactly the session id |
| DemoServer.InitAddsOneSessionAndTask | server/demo_server.py:100-149 | with fresh ids init adds exactly one pending "demo" session and one task of that session whose expected label is one of the CIFAR-10 labels; every earlier entry stays, and the response names the new ids |
| DemoServer.SubmitErrors | server/demo_server.py:151-158 | an unknown session, then an unknown task, is a 404 that changes nothing; a submit with both known succeeds |
| DemoServer.SubmitCompletesEvenWhenVerifying | server/demo_server.py:159-195 | a successful submit marks the session completed whatever the draw, touches no other session and no task, asks for verification exactly when the draw is below 0.2, and otherwise returns the session's token with a five-minute expiry |
| DemoServer.SubmitIgnoresOwnership | server/demo_server.py:153-158 | a known task of another session is still accepted |
| DemoServer.VerifyOp | server/demo_server.py:197-213 | a 404 exactly when the session id is missing or unknown; otherwise success with that session's token |
| DemoServer.ValidateToken | server/demo_server.py:215-231 | valid exactly when the token starts with `captcha_token_`, and then reports domain "demo", tier "normal", no verification and the current time |
| DemoServer.RemovePrefixOnce | server/demo_server.py:224 | removing every occurrence of the prefix from a prefixed string is removing it from the rest |
| DemoServer.TokenNamesSession | server/demo_server.py:215-231 | the token of a session id without an underscore validates and names that session |
| DemoServer.UuidTokenRoundTrip | server/demo_server.py:215-231 | the token of a canonical UUID string validates and names that UUID string again |
| DemoServer.AnyPrefixedTokenValidates | server/demo_server.py:219 | any text after the prefix validates, whether or not such a session exists |
| DemoServer.CompletedIds | server/demo_server.py:239 | the ids counted are exactly the stored sessions whose status is "completed" |
| DemoServer.StatsOf | server/demo_server.py:233-240 | the totals are the dictionary sizes, the completed count is the number of completed sessions and never exceeds the total |
| DemoServer.InitStats | server/demo_server.py:100-124 | a fresh init counts one more session and one more task and no more completed sessions |
| DemoServer.SubmitStats | server/demo_server.py:159-161 | a successful submit keeps both totals, counts the session as completed and never lowers the completed count |
| DemoServer.Demo.constructor | server/demo_server.py:38-39 | both dictionaries start empty |
| DemoServer.Demo.InitCaptcha | server/demo_server.py:100-149 | the new dictionaries and the response are those of `InitOp` on the old ones |
| DemoServer.Demo.SubmitCaptcha | server/demo_server.py:151-195 | the new dictionaries and the response are those of `SubmitOp` on the old ones |
| DemoServer.Demo.SubmitVerification | server/demo_server.py:197-213 | the answer is `VerifyOp` on the current dictionaries |
| DemoServer.Demo.GetStats | server/demo_server.py:233-240 | the answer is `StatsOf` on the current dictionaries |

## Left out

- Disk and JSON file I/O is not modelled. This covers the ground-truth cache's `initialize`, `_load_cache_files` and `save_cache`, the shard manager's `initialize`, manifest loading and `get_shard_manager`, and the file sizes in `get_stats`. The cache's contents and the loaded shard lists are inputs instead.
- The `async` structure and the FastAPI, SQLAlchemy and Redis connection wiring are left out. The handlers are modelled as sequential code over a `Db` object, which holds one map per table, and the in-memory store.
- SHA-256, Python's process-salted `hash()`, the JWT codec from `server/app/utils/security.py`, base64 and the ground-truth cache's softmax confidence (`Digests.topConfidence`) are not looked inside. They are function-valued parameters.
- Random draws and fresh `uuid4` values are parameters and are not modelled as random. These include the verification sampling for non-bot tiers, the demo's 20% branch, sample choice and random input values. The generated random input is modelled by its length only.
- Clocks are not read. `datetime.now`/`utcnow` become an explicit microsecond parameter.
- The floating-point numerics are modelled over exact reals, with no rounding. This covers numpy's tolerance arithmetic and the averages of the statistics.
- `RedisRateLimiter.reset` and the `RedisSessionStore` methods other than `_key` are not modelled; they are thin Redis round-trips.
- `init_captcha` in `server/app/api/captcha.py` is modelled only through its client-IP extraction and `_get_model_labels`. Its risk scoring, task selection and token issuing call services whose own logic is modelled separately.
- `RiskScorer._record_request`, the Redis writes of `record_completion` and `_generate_client_id` are not modelled. The stored values they would produce are inputs of the risk factors, and the moving average itself is `NextAverage`.
- `TaskCoordinator.get_task_stats`, `InferenceValidator.get_validation_summary` and `ModelManager.compute_checksum` are not modelled: they are database aggregates or file hashing.
- The class-level `MODELS` dict of `ModelManager` is shared by every instance in Python. The model gives each `ModelManager` object its own registry, so sharing between instances is not captured.
- `ModelShard` keeps its shape strings and exposes the parsed shapes as functions. ShardManagement.ShardId and ShardManagement.ShardHashAgreement digest the shape text, while `ModelShard.id` (server/app/ml/shard_manager.py:42-46) hashes `str()` of the parsed lists: two manifests whose shape texts differ only in spacing (`[28,28,1]` and `[28, 28, 1]`) share one id in Python and get two in the model.
- TaskCoordination.ShardTaskRow: this is the row the coordinator evidently intends. It carries the shard metadata in a column `server/app/models/task.py` does not declare, and it has no sample although `sample_id` is NOT NULL. The row as written is refused (see Findings).
- TaskCoordination.TaskCoordinator.AssignShardTask: this stores the intended shard task row. As written, the `Task(...)` call raises TypeError and the row could not be flushed (see Findings).
- TaskCoordination.TaskCoordinator.AssignTask: this stores the intended sample task row, with its metadata. As written, the `Task(...)` call raises TypeError (see Findings).
- TaskCoordination.TaskCoordinator.AssignTask: the selected sample is any candidate the caller passes. `_select_sample` picks at random among at most 10 candidates, least-served first for regular samples (`server/app/core/task_coordinator.py:254-280`), so the model allows more choices than the source makes.
- The layer check takes its digest of the reported values as a separate parameter (`jsonDigest`), while the cache's digest of an output is `Digests.output`. Both are uninterpreted, so the model does not compute either byte string; the mismatch between them is in Findings.
- VerificationSchemas.ParseSubmitRequest: fields are read as Pydantic's strict mode reads them (the `JsonFields` readers). Pydantic's default lax coercion is not modelled: a numeric string, a whole float or a boolean given for an integer, or a numeric string given for a float, is refused here although Pydantic accepts it.
- CaptchaSchemas.ParseClientMetadata: fields are read as Pydantic's strict mode reads them (the `JsonFields` readers). Pydantic's default lax coercion is not modelled: a numeric string, a whole float or a boolean given for an integer, or a numeric string given for a float, is refused here although Pydantic accepts it.
- CaptchaSchemas.ParseInitRequest: fields are read as Pydantic's strict mode reads them (the `JsonFields` readers). Pydantic's default lax coercion is not modelled: a numeric string, a whole float or a boolean given for an integer, or a numeric string given for a float, is refused here although Pydantic accepts it.
- CaptchaSchemas.ParseTopK: fields are read as Pydantic's strict mode reads them (the `JsonFields` readers). Pydantic's default lax coercion is not modelled: a numeric string, a whole float or a boolean given for an integer, or a numeric string given for a float, is refused here although Pydantic accepts it.
- CaptchaSchemas.ParsePrediction: fields are read as Pydantic's strict mode reads them (the `JsonFields` readers). Pydantic's default lax coercion is not modelled: a numeric string, a whole float or a boolean given for an integer, or a numeric string given for a float, is refused here although Pydantic accepts it.
- CaptchaSchemas.ParseProofOfWork: fields are read as Pydantic's strict mode reads them (the `JsonFields` readers). Pydantic's default lax coercion is not modelled: a numeric string, a whole float or a boolean given for an integer, or a numeric string given for a float, is refused here although Pydantic accepts it.
- CaptchaSchemas.ParseTiming: fields are read as Pydantic's strict mode reads them (the `JsonFields` readers). Pydantic's default lax coercion is not modelled: a numeric string, a whole float or a boolean given for an integer, or a numeric string given for a float, is refused here although Pydantic accepts it.
- CaptchaSchemas.ParseSubmitRequest: fields are read as Pydantic's strict mode reads them (the `JsonFields` readers). Pydantic's default lax coercion is not modelled: a numeric string, a whole float or a boolean given for an integer, or a numeric string given for a float, is refused here although Pydantic accepts it.
- CaptchaSchemas.ParseModelMeta: fields are read as Pydantic's strict mode reads them (the `JsonFields` readers). Pydantic's default lax coercion is not modelled: a numeric string, a whole float or a boolean given for an integer, or a numeric string given for a float, is refused here although Pydantic accepts it.
- CaptchaSchemas.ParseTaskInfo: fields are read as Pydantic's strict mode reads them (the `JsonFields` readers). Pydantic's default lax coercion is not modelled: a numeric string, a whole float or a boolean given for an integer, or a numeric string given for a float, is refused here although Pydantic accepts it.
- Text.PyInt: `int()` is modelled for ASCII digits. Non-ASCII Unicode decimal digits, which `int()` of a `str` accepts, and CPython's 4300-digit limit on decimal conversion are not modelled.
- Text.PyBytesInt: `int()` is modelled for ASCII digits. Non-ASCII Unicode decimal digits, which `int()` of a `str` accepts, and CPython's 4300-digit limit on decimal conversion are not modelled.
- ShardManagement.ParseShape: `int()` is modelled for ASCII digits. Non-ASCII Unicode decimal digits, which `int()` of a `str` accepts, and CPython's 4300-digit limit on decimal conversion are not modelled.
- Records.ParseUuid: `int()` is modelled for ASCII digits. Non-ASCII Unicode decimal digits, which `int()` of a `str` accepts, and CPython's 4300-digit limit on decimal conversion are not modelled.
- RedisStore.IncrOp: `int()` is modelled for ASCII digits. Non-ASCII Unicode decimal digits, which `int()` of a `str` accepts, and CPython's 4300-digit limit on decimal conversion are not modelled.
- Text.Lower: only the ASCII letters are lowered. No name the server compares after `lower()` (`none`, the activation names, the layer names, the headless indicators `headlesschrome`, `phantomjs`, `selenium`, `webdriver` and `puppeteer` of server/app/core/risk_scorer.py:169-176) can be reached from a non-ASCII character. The two characters whose lowercase holds an ASCII letter, U+212A (to `k`) and U+0130 (to `i` with a combining dot), lower to text none of those names contains.
- ORM lazy loads (`task.sample`, `session.verifications`) are modelled as lookups in the corresponding tables. As written, both relationships use the default `lazy="select"` (server/app/models/task.py:72, server/app/models/session.py:82), are read on an `AsyncSession` (server/app/models/base.py:31-34), and nothing loads them eagerly in server/app/api/captcha.py. SQLAlchemy then has to emit SQL outside its greenlet on first access, which raises `MissingGreenlet` unless the row is already loaded. The members below state the intended lookup and do not capture that outcome.
- CaptchaApi.CaptchaRoutes.ValidateCaptcha: `len(session.verifications)` (server/app/api/captcha.py:314) is a lazy load on an async session. If it raises, the `except` at captcha.py:317-319 answers `valid=False` for every good token; the model answers with the lookup's count.
- CaptchaApi.SubmitVerificationBranch: `task.sample` (server/app/api/captcha.py:212) is a lazy load on an async session. Unless the sample is already in the identity map it raises, and the request fails with a 500; the model reads the sample from its table.
- CaptchaApi.TaskSample: states the lookup `task.sample` is meant to be, not the lazy-load failure described above.
- DemoServer.VerifyOp: `session_id` is read as an optional string. A JSON list or object there makes `session_id in sessions` raise TypeError (unhashable), a 500 (server/demo_server.py:197-213); the model has no such input.
- InferenceValidation.ShardInferenceBadKey: states the intended behaviour. As written, `task.metadata_` (server/app/ml/inference_validator.py:138) raises AttributeError before any key check (see Findings and InferenceValidation.MetadataReadAlwaysRaises).
- InferenceValidation.ShardInferenceVerdict: states the intended verdict. As written it is never reached, because of the AttributeError at server/app/ml/inference_validator.py:138 (see Findings).
- InferenceValidation.InferenceProofAgreesWithShardCheck: relates the two intended checks. As written, both raise AttributeError (server/app/ml/inference_validator.py:138 and :334; see Findings).
- InferenceValidation.InferenceValidator.ValidateShardInference: models the intended metadata read. As written, it raises AttributeError on `task.metadata_` (server/app/ml/inference_validator.py:138); the as-written half is InferenceValidation.ShardInferenceAsWritten.
- InferenceValidation.InferenceValidator.ValidateInferenceProof: models the intended metadata read. As written, it raises AttributeError on `task.metadata_` (server/app/ml/inference_validator.py:334); the as-written half is InferenceValidation.InferenceProofAsWritten.
- A clash of a new verification row's id with an existing row is not checked.
- A prediction without a sample cannot give a verification row, because its `sample_id` column is NOT NULL. The model answers 500 with nothing committed, as the source's failed flush does. That flush is the golden-dataset query when there is one. Otherwise it is the commit, which comes after the Redis delete.
- A failed golden-dataset update is a 500 that rolls the new verification row back; the Redis record then stays.
- When the submit handler requests a verification for a task without a sample, the source commits before it fails. The model keeps that committed state and answers 500, as the source does.
- CaptchaApi.CaptchaRoutes.ValidateCaptcha: this uses the UTC reading of `exp` (see Findings). The as-written reading is `CaptchaApi.ValidateClaimsAsWritten`.
- The demo server completes the session even when it then asks for verification, and the model keeps this. It also does not check that the task belongs to the session.
- The demo's `validate_captcha` never looks the session up. Its `str.replace` removes every occurrence of the prefix, and the model does the same.

## Findings

| source | as written | input that shows it | evidently intended | confidence | as-written member | corrected member |
|---|---|---|---|---|---|---|
| server/app/api/captcha.py:305 | `datetime.fromtimestamp(exp)` reads the token's `exp` claim as local time and compares it with `datetime.utcnow()` | a server at UTC−5 validating a token issued this second with the default 300 s lifetime: the local reading of `exp` lies 4 h 55 min in the past, so the token is rejected | read `exp` in UTC (`utcfromtimestamp`), so a token is valid until its lifetime has passed | not executed | CaptchaApi.LocalClockRejectsFreshToken | CaptchaApi.TokenWithinLifetimeValidates |
| server/app/core/task_coordinator.py:173-241 | both `Task(...)` calls (lines 173-189 and 229-241) pass `metadata_=`, which is not a mapped attribute of `Task` in `server/app/models/task.py`, so SQLAlchemy's constructor raises TypeError and `init_captcha` (`server/app/api/captcha.py:88`) fails for every session | any call of `assign_task` or `assign_shard_task` | a `metadata` JSON column on `tasks`, mapped as `metadata_` as `Sample` does | not executed | TaskCoordination.ShardTaskRowRefused, TaskCoordination.SampleTaskRowRefused | TaskCoordination.TaskCoordinator.AssignShardTask, TaskCoordination.TaskCoordinator.AssignTask |
| server/app/core/task_coordinator.py:356 | `task.metadata_` on a found task raises AttributeError, since `Task` has no such attribute | any task id that names a stored task | read the task's metadata column and go on to the key checks | not executed | TaskCoordination.ValidateShardOutputAsWritten | TaskCoordination.TaskCoordinator.ValidateShardOutput |
| server/app/ml/inference_validator.py:138 | `validate_shard_inference` reads `task.metadata_`, which `Task` (`server/app/models/task.py:15-73`) does not map, so it raises AttributeError right after the timing check; the key errors, the layer results and the final-prediction check are never returned | any task | read the task's shard metadata and go on to the key checks | not executed | InferenceValidation.MetadataReadAlwaysRaises, InferenceValidation.ShardInferenceAsWritten | InferenceValidation.InferenceValidator.ValidateShardInference |
| server/app/ml/inference_validator.py:334 | `validate_inference_proof` reads `task.metadata_` too, so it raises AttributeError before its layer loop | any task | read the task's shard metadata and go on to the key checks | not executed | InferenceValidation.MetadataReadAlwaysRaises, InferenceValidation.InferenceProofAsWritten | InferenceValidation.InferenceValidator.ValidateInferenceProof |
| server/app/models/task.py:31-36 | `sample_id` is NOT NULL, but the shard task row built at `server/app/core/task_coordinator.py:173-192` sets no sample, so its flush raises IntegrityError even once `metadata_` is mapped | any call of `assign_shard_task` with a model loaded | a nullable `sample_id` for shard tasks | not executed | TaskCoordination.ShardTaskRowRefused | TaskCoordination.TaskCoordinator.AssignShardTask |
| server/app/ml/inference_validator.py:181 | the layer check hashes `json.dumps(client_output)`, while the cache stored the hash of `output_data.tobytes()` (`server/app/ml/ground_truth_cache.py:137`) | an honest client reporting `[0.5]`: the layer check hashes the text `[0.5]`, the cache hashed the array's bytes (`00 00 00 3f` for float32), so the first 16 hex digits of the two SHA-256 digests differ and the layer is rejected | hash the report as the cache hashed the output | not executed | InferenceValidation.ExactLayerRejected | InferenceValidation.ExactLayerAcceptedWithCacheDigest |
