/**
 * The model registry (server/app/ml/model_manager.py): model metadata keyed
 * by name, in the dictionary's insertion order, with lookups, a first-match
 * search by task type, and in-place registration and version updates.
 */
module ModelRegistry {
  import opened Wrappers
  import Config

  /** `ModelInfo` */
  datatype ModelInfo = ModelInfo(
    name: string,
    version: string,
    url: string,
    checksum: string,
    inputShape: seq<int>,
    outputLabels: seq<string>,
    sizeBytes: int,
    taskType: string)

  const MiB: int := 1024 * 1024

  const CifarLabels: seq<string> := ["airplane", "automobile", "bird", "cat", "deer", "dog", "frog", "horse", "ship", "truck"]
  const ImdbLabels: seq<string> := ["negative", "positive"]

  /** The two models registered at start-up, in registration order. */
  function BuiltinModels(cdnUrl: string): (ms: seq<ModelInfo>)
    ensures |ms| == 2 && ms[0].name == "cifar10-mobilenet" && ms[1].name == "imdb-distilbert"
  {
    [ModelInfo("cifar10-mobilenet", "1.0.0", cdnUrl + "/cifar10-mobilenet/model.json", "abc123",
               [1, 32, 32, 3], CifarLabels, 3 * MiB, "image_classification"),
     ModelInfo("imdb-distilbert", "1.0.0", cdnUrl + "/imdb-distilbert/model.json", "def456",
               [1, 256], ImdbLabels, 25 * MiB, "text_classification")]
  }

  /**
   * The position of the first model of the given task type, `|ms|` when
   * there is none.
   */
  function FirstOfTaskType(ms: seq<ModelInfo>, taskType: string): (i: nat)
    ensures i <= |ms|
    ensures i < |ms| ==> ms[i].taskType == taskType
    ensures forall j :: 0 <= j < i ==> ms[j].taskType != taskType
  {
    if |ms| == 0 then 0
    else if ms[0].taskType == taskType then 0
    else 1 + FirstOfTaskType(ms[1..], taskType)
  }

  /** `ModelManager`, whose class-level `MODELS` dictionary is the registry. */
  class ModelManager {
    var models: map<string, ModelInfo>
    /** The registry's keys in insertion order. */
    var order: seq<string>

    /** Each key occurs once in the order, the order lists exactly the keys, and each model is filed under its own name. */
    ghost predicate Valid()
      reads this
    {
      (forall i, j :: 0 <= i < j < |order| ==> order[i] != order[j])
      && (forall k :: k in models <==> k in order)
      && (forall k :: k in models ==> models[k].name == k)
    }

    constructor (cdnUrl: string)
      ensures Valid()
      ensures order == ["cifar10-mobilenet", "imdb-distilbert"]
      ensures models == map[BuiltinModels(cdnUrl)[0].name := BuiltinModels(cdnUrl)[0],
                            BuiltinModels(cdnUrl)[1].name := BuiltinModels(cdnUrl)[1]]
    {
      var builtin := BuiltinModels(cdnUrl);
      models := map[builtin[0].name := builtin[0], builtin[1].name := builtin[1]];
      order := [builtin[0].name, builtin[1].name];
    }

    /** `get_model`: None for an unknown name. */
    function GetModel(name: string): (r: Option<ModelInfo>)
      reads this
      ensures r.None? <==> name !in models
      ensures r.Some? ==> r.value == models[name]
    {
      if name in models then Some(models[name]) else None
    }

    /** `get_default_model`; None stands for the `KeyError` of a default that is not registered. */
    function GetDefaultModel(settings: Config.Settings): (r: Option<ModelInfo>)
      reads this
      ensures r == GetModel(settings.defaultModel)
    {
      if settings.defaultModel in models then Some(models[settings.defaultModel]) else None
    }

    /** `list_models`: the registered models in insertion order. */
    function ListModels(): (ms: seq<ModelInfo>)
      reads this
      requires Valid()
      ensures |ms| == |order|
      ensures forall i :: 0 <= i < |order| ==> ms[i] == models[order[i]]
    {
      seq(|order|, i requires 0 <= i < |order| && order[i] in models reads this => models[order[i]])
    }

    /** Every registered model is listed, and nothing else. */
    lemma ListModelsComplete()
      requires Valid()
      ensures forall k :: k in models ==> models[k] in ListModels()
      ensures forall m :: m in ListModels() ==> m.name in models && models[m.name] == m
    {
      var ms := ListModels();
      forall k | k in models ensures models[k] in ms {
        var i :| 0 <= i < |order| && order[i] == k;
        assert ms[i] == models[k];
      }
    }

    /** `get_model_for_task`: the first listed model of the task type. */
    method GetModelForTask(taskType: string) returns (r: Option<ModelInfo>)
      requires Valid()
      ensures var i := FirstOfTaskType(ListModels(), taskType);
              r == if i < |order| then Some(ListModels()[i]) else None
      ensures r.None? ==> forall k :: k in models ==> models[k].taskType != taskType
    {
      var ms := ListModels();
      var i := 0;
      while i < |ms|
        invariant 0 <= i <= |ms|
        invariant forall j :: 0 <= j < i ==> ms[j].taskType != taskType
      {
        if ms[i].taskType == taskType {
          FirstOfTaskTypeIsFirst(ms, taskType, i);
          return Some(ms[i]);
        }
        i := i + 1;
      }
      FirstOfTaskTypeIsFirst(ms, taskType, i);
      ListModelsComplete();
      r := None;
    }

    /** `validate_checksum`: False for an unknown model. */
    function ValidateChecksum(name: string, checksum: string): (ok: bool)
      reads this
      ensures ok <==> name in models && models[name].checksum == checksum
    {
      var model := GetModel(name);
      if model.None? then false else model.value.checksum == checksum
    }

    /** `get_labels`: [] for an unknown model. */
    function GetLabels(name: string): (labels: seq<string>)
      reads this
      ensures name !in models ==> labels == []
      ensures name in models ==> labels == models[name].outputLabels
    {
      var model := GetModel(name);
      if model.None? then [] else model.value.outputLabels
    }

    /** `register_model`: inserts or overwrites the entry under the model's name and no other. */
    method RegisterModel(info: ModelInfo)
      requires Valid()
      modifies this
      ensures Valid()
      ensures models == old(models)[info.name := info]
      ensures order == if info.name in old(models) then old(order) else old(order) + [info.name]
    {
      if info.name !in models {
        order := order + [info.name];
      }
      models := models[info.name := info];
    }

    /**
     * `update_model_version`: False and no change for an unknown name;
     * otherwise only the version, URL and checksum of that entry change.
     */
    method UpdateModelVersion(name: string, version: string, url: string, checksum: string) returns (ok: bool)
      requires Valid()
      modifies this
      ensures Valid()
      ensures ok <==> name in old(models)
      ensures order == old(order)
      ensures !ok ==> models == old(models)
      ensures ok ==> models == old(models)[name := old(models)[name].(version := version, url := url, checksum := checksum)]
    {
      var model := GetModel(name);
      if model.None? {
        return false;
      }
      var updated := ModelInfo(model.value.name, version, url, checksum, model.value.inputShape,
                               model.value.outputLabels, model.value.sizeBytes, model.value.taskType);
      models := models[name := updated];
      return true;
    }
  }

  /** The first-match position is the first index holding the task type, or the length when none does. */
  lemma FirstOfTaskTypeIsFirst(ms: seq<ModelInfo>, taskType: string, i: nat)
    requires i <= |ms| && forall j :: 0 <= j < i ==> ms[j].taskType != taskType
    requires i < |ms| ==> ms[i].taskType == taskType
    ensures FirstOfTaskType(ms, taskType) == i
  {
  }

  /** A fresh registry answers for the two built-in models, and for nothing else. */
  lemma BuiltinLookups(m: ModelManager, cdnUrl: string)
    requires m.order == ["cifar10-mobilenet", "imdb-distilbert"]
    requires m.models == map[BuiltinModels(cdnUrl)[0].name := BuiltinModels(cdnUrl)[0],
                             BuiltinModels(cdnUrl)[1].name := BuiltinModels(cdnUrl)[1]]
    ensures m.GetLabels("cifar10-mobilenet") == CifarLabels && m.GetLabels("imdb-distilbert") == ImdbLabels
    ensures m.ValidateChecksum("cifar10-mobilenet", "abc123") && !m.ValidateChecksum("cifar10-mobilenet", "def456")
    ensures m.GetDefaultModel(Config.Defaults) == Some(BuiltinModels(cdnUrl)[0])
    ensures m.GetLabels("resnet") == []
  {
  }
}
