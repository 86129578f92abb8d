/** The model cache of `inference/model_manager.py`: loaded models are kept under a key built from
    the model type, the configuration and weight paths and the device, with the time each load
    took. Loading itself (building the network, reading the weights, moving it to the device) is
    opaque: its outcome is a parameter. */
module ModelCache {
  import opened Wrappers
  import opened Strings

  /** A loaded model and its configuration, as opaque handles. */
  datatype Loaded = Loaded(model: nat, config: nat)

  /** The device ids joined by `-`. */
  function IdsString(ids: seq<nat>): string
    decreases |ids|
  {
    if ids == [] then ""
    else if |ids| == 1 then NatToString(ids[0])
    else NatToString(ids[0]) + "-" + IdsString(ids[1..])
  }

  /** `<device>_<ids joined by '-'>`. */
  function DeviceString(device: string, ids: seq<nat>): string {
    device + "_" + IdsString(ids)
  }

  /** `_get_model_key`: model type, configuration path, weight path and device string joined
      by `_`. */
  function ModelKey(modelType: string, configPath: string, modelPath: string, device: string, ids: seq<nat>): (key: string)
    ensures StartsWith(key, modelType + "_" + configPath + "_" + modelPath + "_")
    ensures EndsWith(key, DeviceString(device, ids))
    ensures |key| == |modelType| + |configPath| + |modelPath| + |DeviceString(device, ids)| + 3
  {
    var prefix := modelType + "_" + configPath + "_" + modelPath + "_";
    assert (prefix + DeviceString(device, ids))[..|prefix|] == prefix;
    assert (prefix + DeviceString(device, ids))[|prefix|..] == DeviceString(device, ids);
    prefix + DeviceString(device, ids)
  }

  /** For one model on one kind of device, the key tells the device lists apart exactly as their
      joined strings do. */
  lemma KeyDeterminesIds(modelType: string, configPath: string, modelPath: string, device: string, a: seq<nat>, b: seq<nat>)
    ensures (ModelKey(modelType, configPath, modelPath, device, a) == ModelKey(modelType, configPath, modelPath, device, b))
              <==> (IdsString(a) == IdsString(b))
  {
    var prefix := modelType + "_" + configPath + "_" + modelPath + "_" + device + "_";
    var ka := ModelKey(modelType, configPath, modelPath, device, a);
    var kb := ModelKey(modelType, configPath, modelPath, device, b);
    assert ka == prefix + IdsString(a);
    assert kb == prefix + IdsString(b);
    if ka == kb {
      assert IdsString(a) == ka[|prefix|..];
      assert IdsString(b) == kb[|prefix|..];
    }
  }

  /** The two dictionaries of the manager: the loaded models and their load times. */
  datatype Cache = Cache(models: map<string, Loaded>, loadTimes: map<string, int>)

  /** Every cached model has a load time and every load time belongs to a cached model. */
  predicate Coherent(c: Cache) {
    c.models.Keys == c.loadTimes.Keys
  }

  /** `get_model` under `key`: a cached model is returned without loading; otherwise the load's
      outcome decides: a loaded model is stored with the time it took, and a failed load (None)
      raises and leaves the cache as it was. */
  function Get(c: Cache, key: string, load: Option<Loaded>, elapsed: int): (r: (Option<Loaded>, Cache))
    ensures key in c.models ==> r == (Some(c.models[key]), c)
    ensures key !in c.models && load.None? ==> r == (None, c)
    ensures key !in c.models && load.Some? ==>
              r.0 == load && r.1.models == c.models[key := load.value] && r.1.loadTimes == c.loadTimes[key := elapsed]
  {
    if key in c.models then (Some(c.models[key]), c)
    else if load.None? then (None, c)
    else (load, Cache(c.models[key := load.value], c.loadTimes[key := elapsed]))
  }

  /** `clear_cache(key)`: a non-empty key removes that model and its load time (nothing when it is
      not cached); no key, or the empty one, empties both dictionaries. */
  function Clear(c: Cache, key: Option<string>): (r: Cache)
    requires Coherent(c)
    ensures key.Some? && key.value != "" ==> r.models == c.models - {key.value} && r.loadTimes == c.loadTimes - {key.value}
    ensures key.None? || key.value == "" ==> r.models == map[] && r.loadTimes == map[]
  {
    if key.Some? && key.value != "" then
      if key.value in c.models then Cache(c.models - {key.value}, c.loadTimes - {key.value}) else c
    else Cache(map[], map[])
  }

  /** Loading and clearing keep every model with its load time. */
  lemma CoherentKept(c: Cache, key: string, load: Option<Loaded>, elapsed: int, k: Option<string>)
    requires Coherent(c)
    ensures Coherent(Get(c, key, load, elapsed).1)
    ensures Coherent(Clear(c, k))
  {
  }

  /** A model is loaded at most once: once `get_model` has returned a model for a key, asking
      again returns the same model and leaves the cache alone, whatever a new load would do. */
  lemma LoadsOnce(c: Cache, key: string, load: Option<Loaded>, elapsed: int, load2: Option<Loaded>, elapsed2: int)
    requires Get(c, key, load, elapsed).0.Some?
    ensures var (r, c1) := Get(c, key, load, elapsed);
            Get(c1, key, load2, elapsed2) == (r, c1)
  {
  }

  /** Clearing the key of a model that was just loaded undoes the load. */
  lemma ClearUndoesLoad(c: Cache, key: string, m: Loaded, elapsed: int)
    requires Coherent(c) && key !in c.models && key != ""
    ensures Clear(Get(c, key, Some(m), elapsed).1, Some(key)) == c
  {
    var c1 := Get(c, key, Some(m), elapsed).1;
    assert key !in c.loadTimes;
    assert c1.models - {key} == c.models;
    assert c1.loadTimes - {key} == c.loadTimes;
  }

  /** Clearing one key leaves every other model and load time as it was. */
  lemma ClearOneKeepsOthers(c: Cache, key: string, other: string)
    requires Coherent(c) && key != "" && other != key
    ensures other in Clear(c, Some(key)).models <==> other in c.models
    ensures other in c.models ==> Clear(c, Some(key)).models[other] == c.models[other]
                                  && Clear(c, Some(key)).loadTimes[other] == c.loadTimes[other]
  {
  }

  /** `ModelManager`: the cache, updated in place. */
  class ModelManager {
    var models: map<string, Loaded>
    var loadTimes: map<string, int>

    ghost predicate Valid()
      reads this
    {
      Coherent(State())
    }

    function State(): Cache
      reads this
    {
      Cache(models, loadTimes)
    }

    constructor()
      ensures Valid() && models == map[] && loadTimes == map[]
    {
      models := map[];
      loadTimes := map[];
    }

    /** `get_model`; `load` is the outcome of loading the model (None when it raises) and
        `elapsed` the time it took. */
    method GetModel(modelType: string, configPath: string, modelPath: string, device: string, ids: seq<nat>,
                    load: Option<Loaded>, elapsed: int) returns (r: Option<Loaded>)
      requires Valid()
      modifies this
      ensures Valid()
      ensures (r, State()) == Get(old(State()), ModelKey(modelType, configPath, modelPath, device, ids), load, elapsed)
    {
      var key := ModelKey(modelType, configPath, modelPath, device, ids);
      if key in models {
        return Some(models[key]);
      }
      if load.None? {
        return None;
      }
      models := models[key := load.value];
      loadTimes := loadTimes[key := elapsed];
      return load;
    }

    /** `clear_cache(model_key)`. */
    method ClearCache(key: Option<string>)
      requires Valid()
      modifies this
      ensures Valid()
      ensures State() == Clear(old(State()), key)
    {
      if key.Some? && key.value != "" {
        if key.value in models {
          models := models - {key.value};
          if key.value in loadTimes {
            loadTimes := loadTimes - {key.value};
          }
        }
      } else {
        models := map[];
        loadTimes := map[];
      }
    }

    /** `get_cache_info`: the number of cached models, their keys and the load times. */
    method GetCacheInfo() returns (count: nat, keys: set<string>, times: map<string, int>)
      requires Valid()
      ensures count == |keys| && keys == models.Keys && times.Keys == keys
      ensures forall k :: k in times ==> times[k] == loadTimes[k]
    {
      count := |models|;
      keys := models.Keys;
      times := loadTimes;
    }

    /** `is_model_cached`. */
    method IsModelCached(modelType: string, configPath: string, modelPath: string, device: string, ids: seq<nat>)
      returns (cached: bool)
      ensures cached <==> ModelKey(modelType, configPath, modelPath, device, ids) in models
    {
      cached := ModelKey(modelType, configPath, modelPath, device, ids) in models;
    }
  }
}
