/**
 The managed part of the configuration: merging a provider's model list into it, logging in and logging out.
 A dictionary is the sequence of its entries in insertion order, with distinct keys.
 */
module ModelSync {
  import opened Wrappers

  datatype LLMModel = LLMModel(
    provider: string,
    model: string,
    maxContextSize: int,
    capabilities: Option<set<string>>,
    displayName: Option<string>)

  datatype ModelInfo = ModelInfo(
    id: string,
    contextLength: int,
    capabilities: set<string>,
    displayName: Option<string>)

  datatype Entry = Entry(key: string, model: LLMModel)

  type Models = seq<Entry>

  /** The service addresses that come with a managed login. */
  datatype Services = Services(search: Option<string>, fetch: Option<string>)

  datatype Config = Config(
    providers: set<string>,
    models: Models,
    defaultModel: string,
    defaultThinking: bool,
    services: Services)

  function ModelKey(platform: string, id: string): string {
    platform + "/" + id
  }

  /** The configured form of a listed model; an empty capability set becomes none. */
  function Managed(provider: string, info: ModelInfo): LLMModel {
    LLMModel(provider, info.id, info.contextLength,
             if info.capabilities == {} then None else Some(info.capabilities), info.displayName)
  }

  // ---------------------------------------------------------------- dictionaries

  function Find(models: Models, key: string): Option<LLMModel> {
    if models == [] then None
    else if models[0].key == key then Some(models[0].model)
    else Find(models[1..], key)
  }

  function Put(models: Models, key: string, model: LLMModel): Models {
    if models == [] then [Entry(key, model)]
    else if models[0].key == key then [Entry(key, model)] + models[1..]
    else [models[0]] + Put(models[1..], key, model)
  }

  /** The entries that are not managed by `provider` or still listed. */
  function Pruned(models: Models, provider: string, keys: seq<string>): Models {
    if models == [] then []
    else if models[0].model.provider == provider && models[0].key !in keys then Pruned(models[1..], provider, keys)
    else [models[0]] + Pruned(models[1..], provider, keys)
  }

  ghost predicate Distinct(models: Models) {
    forall i, j | 0 <= i < j < |models| :: models[i].key != models[j].key
  }

  lemma {:induction false} FindIsMembership(models: Models, key: string)
    requires Distinct(models)
    ensures Find(models, key).Some? <==> exists i :: 0 <= i < |models| && models[i].key == key
    ensures forall i | 0 <= i < |models| && models[i].key == key :: Find(models, key) == Some(models[i].model)
  {
    if models != [] {
      FindIsMembership(models[1..], key);
      assert forall i | 0 < i < |models| :: models[i] == models[1..][i - 1];
    }
  }

  lemma {:induction false} PutFind(models: Models, key: string, model: LLMModel, other: string)
    ensures Find(Put(models, key, model), other) == if other == key then Some(model) else Find(models, other)
    ensures Find(models, key) == Some(model) ==> Put(models, key, model) == models
  {
    if models != [] {
      if models[0].key == key {
        assert ([Entry(key, model)] + models[1..])[1..] == models[1..];
      } else {
        PutFind(models[1..], key, model, other);
        assert ([models[0]] + Put(models[1..], key, model))[1..] == Put(models[1..], key, model);
      }
    } else {
      assert [Entry(key, model)][1..] == [];
    }
  }

  lemma {:induction false} PutKeys(models: Models, key: string, model: LLMModel)
    requires Distinct(models)
    ensures Distinct(Put(models, key, model))
    ensures forall e | e in Put(models, key, model) :: e == Entry(key, model) || e in models
  {
    if models != [] && models[0].key != key {
      PutKeys(models[1..], key, model);
      assert forall i | 0 < i < |models| :: models[i] == models[1..][i - 1];
      var rest := Put(models[1..], key, model);
      forall i | 0 <= i < |rest| ensures rest[i].key != models[0].key {
        assert rest[i] in rest;
      }
    } else if models != [] {
      assert forall i | 0 < i < |models| :: models[i] == models[1..][i - 1];
    }
  }

  lemma {:induction false} PrunedFind(models: Models, provider: string, keys: seq<string>, key: string)
    requires Distinct(models)
    ensures Find(Pruned(models, provider, keys), key)
         == var m := Find(models, key); if m.Some? && m.value.provider == provider && key !in keys then None else m
    ensures Pruned(models, provider, keys) == models <==>
      forall e | e in models :: e.model.provider == provider ==> e.key in keys
    ensures |Pruned(models, provider, keys)| <= |models|
    ensures |Pruned(models, provider, keys)| == |models| ==> Pruned(models, provider, keys) == models
  {
    if models != [] {
      PrunedFind(models[1..], provider, keys, key);
      assert models == [models[0]] + models[1..];
      var rest := Pruned(models[1..], provider, keys);
      assert ([models[0]] + rest)[1..] == rest;
      FindIsMembership(models[1..], models[0].key);
      assert forall i | 0 < i < |models| :: models[i] == models[1..][i - 1];
      PrunedFindSame(models[1..], provider, keys, models[0].key);
    }
  }

  lemma {:induction false} PrunedFindSame(models: Models, provider: string, keys: seq<string>, key: string)
    requires Find(models, key).None?
    ensures Find(Pruned(models, provider, keys), key).None?
  {
    if models != [] {
      PrunedFindSame(models[1..], provider, keys, key);
      var rest := Pruned(models[1..], provider, keys);
      assert ([models[0]] + rest)[1..] == rest;
    }
  }

  lemma {:induction false} PrunedEntries(models: Models, provider: string, keys: seq<string>)
    requires Distinct(models)
    ensures Distinct(Pruned(models, provider, keys))
    ensures forall e :: e in Pruned(models, provider, keys) <==>
      e in models && (e.model.provider == provider ==> e.key in keys)
  {
    if models != [] {
      PrunedEntries(models[1..], provider, keys);
      assert models == [models[0]] + models[1..];
      assert forall i | 0 < i < |models| :: models[i] == models[1..][i - 1];
      var rest := Pruned(models[1..], provider, keys);
      forall i | 0 <= i < |rest| ensures rest[i].key != models[0].key {
        assert rest[i] in rest;
      }
    }
  }

  /** Some model with the key is under the provider and not in the list of keys. */
  predicate IsDoomed(models: Models, provider: string, keys: seq<string>, key: string) {
    exists k | 0 <= k < |models| :: models[k].key == key && models[k].model.provider == provider && key !in keys
  }

  lemma DoomedIsRemoved(models: Models, provider: string, keys: seq<string>, key: string)
    requires Distinct(models)
    ensures IsDoomed(models, provider, keys, key)
       <==> Find(models, key).Some? && Find(Pruned(models, provider, keys), key).None?
  {
    PrunedFind(models, provider, keys, key);
    FindIsMembership(models, key);
    if Find(models, key).Some? {
      var k :| 0 <= k < |models| && models[k].key == key;
      assert models[k].model.provider == provider && key !in keys ==> IsDoomed(models, provider, keys, key);
    }
  }

  /** One turn of the deleting loop. */
  lemma PruneTurn(all: Models, i: nat, kept: Models, provider: string, keys: seq<string>, key: string)
    requires i < |all|
    ensures var doomed := all[i].model.provider == provider && all[i].key !in keys;
      && kept + Pruned(all[i..], provider, keys) ==
         (if doomed then kept else kept + [all[i]]) + Pruned(all[i + 1..], provider, keys)
      && (IsDoomed(all[..i + 1], provider, keys, key) <==>
          IsDoomed(all[..i], provider, keys, key) || (doomed && all[i].key == key))
  {
    assert all[i..][1..] == all[i + 1..];
    var before, after := all[..i], all[..i + 1];
    assert after[i] == all[i] && forall k | 0 <= k < i :: after[k] == before[k];
  }

  // ---------------------------------------------------------------- the merge

  function Upserted(models: Models, provider: string, platform: string, infos: seq<ModelInfo>): Models {
    if infos == [] then models
    else
      var last := infos[|infos| - 1];
      Put(Upserted(models, provider, platform, infos[..|infos| - 1]), ModelKey(platform, last.id), Managed(provider, last))
  }

  function Keys(platform: string, infos: seq<ModelInfo>): (keys: seq<string>)
    ensures |keys| == |infos|
    ensures forall i | 0 <= i < |infos| :: keys[i] == ModelKey(platform, infos[i].id)
  {
    seq(|infos|, i requires 0 <= i < |infos| => ModelKey(platform, infos[i].id))
  }

  function FirstKey(models: Models): string {
    if models == [] then "" else models[0].key
  }

  /** The default model after the merge, given the merged models and the models before pruning. */
  function NewDefault(before: Models, after: Models, keys: seq<string>, default: string): string {
    var removed := Find(before, default).Some? && Find(after, default).None?;
    var next := if !removed then default else if keys != [] then keys[0] else FirstKey(after);
    if next != "" && Find(after, next).None? then FirstKey(after) else next
  }

  function Synced(c: Config, provider: string, platform: string, infos: seq<ModelInfo>): Config {
    var keys := Keys(platform, infos);
    var merged := Upserted(c.models, provider, platform, infos);
    var kept := Pruned(merged, provider, keys);
    c.(models := kept, defaultModel := NewDefault(merged, kept, keys, c.defaultModel))
  }

  ghost predicate DistinctIds(infos: seq<ModelInfo>) {
    forall i, j | 0 <= i < j < |infos| :: infos[i].id != infos[j].id
  }

  lemma KeysDistinct(platform: string, a: string, b: string)
    requires ModelKey(platform, a) == ModelKey(platform, b)
    ensures a == b
  {
    assert ModelKey(platform, a)[|platform| + 1..] == a;
    assert ModelKey(platform, b)[|platform| + 1..] == b;
  }

  /** The listed models have their listed form, every other key is as it was. */
  lemma {:induction false} UpsertedFind(models: Models, provider: string, platform: string, infos: seq<ModelInfo>, key: string)
    requires Distinct(models) && DistinctIds(infos)
    ensures var merged := Upserted(models, provider, platform, infos);
      && Distinct(merged)
      && (key !in Keys(platform, infos) ==> Find(merged, key) == Find(models, key))
      && forall i | 0 <= i < |infos| && key == ModelKey(platform, infos[i].id) ::
           Find(merged, key) == Some(Managed(provider, infos[i]))
  {
    if infos != [] {
      var front, last := infos[..|infos| - 1], infos[|infos| - 1];
      var before := Upserted(models, provider, platform, front);
      UpsertedFind(models, provider, platform, front, key);
      PutFind(before, ModelKey(platform, last.id), Managed(provider, last), key);
      PutKeys(before, ModelKey(platform, last.id), Managed(provider, last));
      var keys := Keys(platform, infos);
      assert keys == Keys(platform, front) + [ModelKey(platform, last.id)];
      forall i | 0 <= i < |infos| && key == ModelKey(platform, infos[i].id)
        ensures Find(Upserted(models, provider, platform, infos), key) == Some(Managed(provider, infos[i]))
      {
        if key == ModelKey(platform, last.id) {
          KeysDistinct(platform, last.id, infos[i].id);
        } else {
          assert infos[i] == front[i];
        }
      }
    }
  }

  /** Every listed model is configured in its listed form. */
  ghost predicate InPlace(models: Models, provider: string, platform: string, infos: seq<ModelInfo>) {
    forall i | 0 <= i < |infos| :: Find(models, ModelKey(platform, infos[i].id)) == Some(Managed(provider, infos[i]))
  }

  /** Upserting models that are all in place changes nothing. */
  lemma {:induction false} UpsertedUnchanged(models: Models, provider: string, platform: string, infos: seq<ModelInfo>)
    requires InPlace(models, provider, platform, infos)
    ensures Upserted(models, provider, platform, infos) == models
  {
    if infos != [] {
      var front, last := infos[..|infos| - 1], infos[|infos| - 1];
      assert forall i | 0 <= i < |front| :: front[i] == infos[i];
      UpsertedUnchanged(models, provider, platform, front);
      PutFind(models, ModelKey(platform, last.id), Managed(provider, last), "");
    }
  }

  /**
   After the merge exactly the listed models are under the provider, in their listed form, and every other
   model is untouched.
   */
  lemma SyncedModels(c: Config, provider: string, platform: string, infos: seq<ModelInfo>, key: string)
    requires Distinct(c.models) && DistinctIds(infos)
    ensures var after := Synced(c, provider, platform, infos);
      && Distinct(after.models)
      && (forall i | 0 <= i < |infos| && key == ModelKey(platform, infos[i].id) ::
            Find(after.models, key) == Some(Managed(provider, infos[i])))
      && (key !in Keys(platform, infos) ==>
            var m := Find(c.models, key);
            Find(after.models, key) == if m.Some? && m.value.provider == provider then None else m)
  {
    UpsertedFind(c.models, provider, platform, infos, key);
    var merged := Upserted(c.models, provider, platform, infos);
    PrunedFind(merged, provider, Keys(platform, infos), key);
    PrunedEntries(merged, provider, Keys(platform, infos));
    forall i | 0 <= i < |infos| && key == ModelKey(platform, infos[i].id) ensures key in Keys(platform, infos) {
      assert Keys(platform, infos)[i] == key;
    }
  }

  /** A configuration that the merge leaves alone: the list is in place, nothing else is managed, the default exists. */
  ghost predicate UpToDate(c: Config, provider: string, platform: string, infos: seq<ModelInfo>) {
    && InPlace(c.models, provider, platform, infos)
    && (forall e | e in c.models :: e.model.provider == provider ==> e.key in Keys(platform, infos))
    && (c.defaultModel != "" ==> Find(c.models, c.defaultModel).Some?)
  }

  lemma {:induction false} FirstKeyIsFound(models: Models)
    ensures models != [] ==> Find(models, FirstKey(models)).Some?
  {
  }

  /** After the merge the default model is empty or present, even if it was dangling before. */
  lemma SyncedDefault(c: Config, provider: string, platform: string, infos: seq<ModelInfo>)
    ensures var after := Synced(c, provider, platform, infos);
      after.defaultModel != "" ==> Find(after.models, after.defaultModel).Some?
  {
    FirstKeyIsFound(Synced(c, provider, platform, infos).models);
  }

  lemma SyncedIsUpToDate(c: Config, provider: string, platform: string, infos: seq<ModelInfo>)
    requires Distinct(c.models) && DistinctIds(infos)
    ensures UpToDate(Synced(c, provider, platform, infos), provider, platform, infos)
  {
    var after := Synced(c, provider, platform, infos);
    forall i | 0 <= i < |infos|
      ensures Find(after.models, ModelKey(platform, infos[i].id)) == Some(Managed(provider, infos[i]))
    {
      SyncedModels(c, provider, platform, infos, ModelKey(platform, infos[i].id));
    }
    var merged := Upserted(c.models, provider, platform, infos);
    UpsertedFind(c.models, provider, platform, infos, "");
    PrunedEntries(merged, provider, Keys(platform, infos));
    SyncedDefault(c, provider, platform, infos);
  }

  /** The merge changes a configuration exactly when it is not up to date. */
  lemma UnchangedIffUpToDate(c: Config, provider: string, platform: string, infos: seq<ModelInfo>)
    requires Distinct(c.models) && DistinctIds(infos)
    ensures Synced(c, provider, platform, infos) == c <==> UpToDate(c, provider, platform, infos)
  {
    if UpToDate(c, provider, platform, infos) {
      UpsertedUnchanged(c.models, provider, platform, infos);
      PrunedFind(c.models, provider, Keys(platform, infos), c.defaultModel);
    }
    SyncedIsUpToDate(c, provider, platform, infos);
  }

  lemma SyncIsIdempotent(c: Config, provider: string, platform: string, infos: seq<ModelInfo>)
    requires Distinct(c.models) && DistinctIds(infos)
    ensures Synced(Synced(c, provider, platform, infos), provider, platform, infos) == Synced(c, provider, platform, infos)
  {
    SyncedIsUpToDate(c, provider, platform, infos);
    SyncedModels(c, provider, platform, infos, "");
    UnchangedIffUpToDate(Synced(c, provider, platform, infos), provider, platform, infos);
  }

  // ---------------------------------------------------------------- the configuration invariant

  /** What loading a configuration demands: known providers, and a default that is empty or configured. */
  ghost predicate Valid(c: Config) {
    && Distinct(c.models)
    && (c.defaultModel != "" ==> Find(c.models, c.defaultModel).Some?)
    && forall e | e in c.models :: e.model.provider in c.providers
  }

  /**
   The merge keeps a configuration valid exactly when the provider is configured or the list is empty. The copy
   that is loaded again before saving may lack the provider.
   */
  lemma SyncedValid(c: Config, provider: string, platform: string, infos: seq<ModelInfo>)
    requires Valid(c) && DistinctIds(infos)
    ensures Valid(Synced(c, provider, platform, infos)) <==> provider in c.providers || infos == []
  {
    var after := Synced(c, provider, platform, infos);
    var keys, merged := Keys(platform, infos), Upserted(c.models, provider, platform, infos);
    SyncedDefault(c, provider, platform, infos);
    SyncedModels(c, provider, platform, infos, "");
    UpsertedEntries(c.models, provider, platform, infos);
    PrunedEntries(merged, provider, keys);
    if infos != [] {
      SyncedModels(c, provider, platform, infos, ModelKey(platform, infos[0].id));
      FindIsMembership(after.models, ModelKey(platform, infos[0].id));
      var i :| 0 <= i < |after.models| && after.models[i].key == ModelKey(platform, infos[0].id);
      assert after.models[i] in after.models && after.models[i].model == Managed(provider, infos[0]);
    }
  }

  lemma {:induction false} UpsertedEntries(models: Models, provider: string, platform: string, infos: seq<ModelInfo>)
    requires Distinct(models)
    ensures Distinct(Upserted(models, provider, platform, infos))
    ensures forall e | e in Upserted(models, provider, platform, infos) :: e.model.provider == provider || e in models
  {
    if infos != [] {
      var front, last := infos[..|infos| - 1], infos[|infos| - 1];
      UpsertedEntries(models, provider, platform, front);
      PutKeys(Upserted(models, provider, platform, front), ModelKey(platform, last.id), Managed(provider, last));
    }
  }

  /** What the user chose at login, and the addresses of the platform's services, as far as it has any. */
  datatype Choice = Choice(selected: ModelInfo, thinking: bool, offered: Services)

  /**
   Logging in: the provider is set, its models are replaced by the list, one of them becomes the default, and the
   services the platform offers replace the configured ones.
   */
  function LoggedIn(c: Config, provider: string, platform: string, infos: seq<ModelInfo>, choice: Choice): Config {
    Config(c.providers + {provider},
           Upserted(Pruned(c.models, provider, []), provider, platform, infos),
           ModelKey(platform, choice.selected.id), choice.thinking,
           Services(if choice.offered.search.Some? then choice.offered.search else c.services.search,
                    if choice.offered.fetch.Some? then choice.offered.fetch else c.services.fetch))
  }

  function LoggedOut(c: Config, provider: string): Config {
    var kept := Pruned(c.models, provider, []);
    Config(c.providers - {provider}, kept,
           if Find(c.models, c.defaultModel).Some? && Find(kept, c.defaultModel).None? then "" else c.defaultModel,
           c.defaultThinking, Services(None, None))
  }

  lemma {:induction false} UpsertedHas(models: Models, provider: string, platform: string, infos: seq<ModelInfo>, key: string)
    ensures Find(Upserted(models, provider, platform, infos), key).Some?
       <==> key in Keys(platform, infos) || Find(models, key).Some?
  {
    if infos != [] {
      var front, last := infos[..|infos| - 1], infos[|infos| - 1];
      UpsertedHas(models, provider, platform, front, key);
      PutFind(Upserted(models, provider, platform, front), ModelKey(platform, last.id), Managed(provider, last), key);
      assert Keys(platform, infos) == Keys(platform, front) + [ModelKey(platform, last.id)];
    }
  }

  /** Logging in leaves a valid configuration exactly when the selected model ends up configured. */
  lemma LoggedInValid(c: Config, provider: string, platform: string, infos: seq<ModelInfo>, choice: Choice)
    requires Valid(c)
    ensures var key := ModelKey(platform, choice.selected.id);
      var foreign := Find(c.models, key);
      Valid(LoggedIn(c, provider, platform, infos, choice)) <==>
        key in Keys(platform, infos) || (foreign.Some? && foreign.value.provider != provider)
  {
    var base, key := Pruned(c.models, provider, []), ModelKey(platform, choice.selected.id);
    PrunedEntries(c.models, provider, []);
    PrunedFind(c.models, provider, [], key);
    UpsertedEntries(base, provider, platform, infos);
    UpsertedHas(base, provider, platform, infos, key);
    assert |key| > 0;
  }

  lemma LoggedOutValid(c: Config, provider: string)
    requires Valid(c)
    ensures var after := LoggedOut(c, provider);
      Valid(after) && provider !in after.providers && forall e | e in after.models :: e.model.provider != provider
  {
    PrunedEntries(c.models, provider, []);
    PrunedFind(c.models, provider, [], c.defaultModel);
  }

  // ---------------------------------------------------------------- the configuration object

  /** One turn of the loop that stores listed models: the model is new to the merge, and in place only if it was before. */
  lemma UpsertTurn(start: Models, provider: string, platform: string, infos: seq<ModelInfo>, i: nat)
    requires Distinct(start) && DistinctIds(infos) && i < |infos|
    ensures var key, model := ModelKey(platform, infos[i].id), Managed(provider, infos[i]);
      var before := Upserted(start, provider, platform, infos[..i]);
      && Keys(platform, infos[..i + 1]) == Keys(platform, infos[..i]) + [key]
      && Upserted(start, provider, platform, infos[..i + 1]) == Put(before, key, model)
      && (InPlace(start, provider, platform, infos[..i + 1]) <==>
          InPlace(start, provider, platform, infos[..i]) && Put(before, key, model) == before)
  {
    var key, model := ModelKey(platform, infos[i].id), Managed(provider, infos[i]);
    var front := infos[..i];
    var before := Upserted(start, provider, platform, front);
    assert infos[..i + 1] == front + [infos[i]] && infos[..i + 1][..i] == front;
    UpsertedFind(start, provider, platform, front, key);
    forall k | 0 <= k < i ensures key != Keys(platform, front)[k] {
      if key == ModelKey(platform, infos[k].id) { KeysDistinct(platform, infos[k].id, infos[i].id); }
    }
    PutFind(before, key, model, key);
    InPlaceOneMore(start, provider, platform, front, infos[i]);
  }

  lemma InPlaceOneMore(start: Models, provider: string, platform: string, front: seq<ModelInfo>, last: ModelInfo)
    ensures InPlace(start, provider, platform, front + [last]) <==>
            InPlace(start, provider, platform, front) && Find(start, ModelKey(platform, last.id)) == Some(Managed(provider, last))
  {
    var infos := front + [last];
    assert infos[|front|] == last;
    assert forall i | 0 <= i < |front| :: infos[i] == front[i];
  }

  class ConfigObject {
    var providers: set<string>
    var models: Models
    var defaultModel: string
    var defaultThinking: bool
    var services: Services

    ghost function Value(): Config
      reads this
    {
      Config(providers, models, defaultModel, defaultThinking, services)
    }

    constructor (c: Config)
      ensures Value() == c
    {
      providers, models, defaultModel := c.providers, c.models, c.defaultModel;
      defaultThinking, services := c.defaultThinking, c.services;
    }

    /** Inserts or updates one listed model field by field; tells whether anything differed. */
    method UpsertModel(provider: string, key: string, info: ModelInfo) returns (changed: bool)
      requires Distinct(models)
      modifies this`models
      ensures models == Put(old(models), key, Managed(provider, info)) && Distinct(models)
      ensures changed <==> models != old(models)
    {
      ghost var before := models;
      PutKeys(models, key, Managed(provider, info));
      PutFind(models, key, Managed(provider, info), key);
      changed := false;
      var capabilities := if info.capabilities == {} then None else Some(info.capabilities);
      var existing := Find(models, key);
      if existing.None? {
        models := Put(models, key, LLMModel(provider, info.id, info.contextLength, capabilities, info.displayName));
        return true;
      }
      var model := existing.value;
      if model.provider != provider {
        model := model.(provider := provider);
        changed := true;
      }
      if model.model != info.id {
        model := model.(model := info.id);
        changed := true;
      }
      if model.maxContextSize != info.contextLength {
        model := model.(maxContextSize := info.contextLength);
        changed := true;
      }
      if model.capabilities != capabilities {
        model := model.(capabilities := capabilities);
        changed := true;
      }
      if model.displayName != info.displayName {
        model := model.(displayName := info.displayName);
        changed := true;
      }
      models := Put(models, key, model);
    }

    /** Deletes the models under `provider` that are not in `keys`; tells whether the default went with them. */
    method PruneModels(provider: string, keys: seq<string>) returns (removedDefault: bool, changed: bool)
      requires Distinct(models)
      modifies this`models
      ensures models == Pruned(old(models), provider, keys)
      ensures removedDefault <==> Find(old(models), defaultModel).Some? && Find(models, defaultModel).None?
      ensures changed <==> models != old(models)
    {
      var all := models;
      removedDefault, changed := false, false;
      var kept, i := [], 0;
      while i < |all|
        invariant 0 <= i <= |all|
        invariant kept + Pruned(all[i..], provider, keys) == Pruned(all, provider, keys)
        invariant removedDefault <==> IsDoomed(all[..i], provider, keys, defaultModel)
        invariant |kept| <= i && (changed <==> |kept| < i)
      {
        PruneTurn(all, i, kept, provider, keys, defaultModel);
        if all[i].model.provider != provider || all[i].key in keys {
          kept := kept + [all[i]];
        } else {
          if defaultModel == all[i].key {
            removedDefault := true;
          }
          changed := true;
        }
        i := i + 1;
      }
      assert all[..i] == all;
      models := kept;
      PrunedFind(all, provider, keys, defaultModel);
      DoomedIsRemoved(all, provider, keys, defaultModel);
    }

    /** The first loop of `_apply_models`: every listed model is stored under its key. */
    method UpsertAll(provider: string, platform: string, infos: seq<ModelInfo>) returns (keys: seq<string>, changed: bool)
      requires Distinct(models) && DistinctIds(infos)
      modifies this`models
      ensures keys == Keys(platform, infos)
      ensures models == Upserted(old(models), provider, platform, infos) && Distinct(models)
      ensures changed <==> !InPlace(old(models), provider, platform, infos)
    {
      ghost var start := models;
      changed := false;
      keys := [];
      for i := 0 to |infos|
        invariant Distinct(models)
        invariant keys == Keys(platform, infos[..i])
        invariant models == Upserted(start, provider, platform, infos[..i])
        invariant changed <==> !InPlace(start, provider, platform, infos[..i])
      {
        var key := ModelKey(platform, infos[i].id);
        keys := keys + [key];
        UpsertTurn(start, provider, platform, infos, i);
        var updated := UpsertModel(provider, key, infos[i]);
        changed := changed || updated;
      }
      assert infos[..|infos|] == infos;
    }

    method ApplyModels(provider: string, platform: string, infos: seq<ModelInfo>) returns (changed: bool)
      requires Distinct(models) && DistinctIds(infos)
      modifies this
      ensures Value() == Synced(old(Value()), provider, platform, infos)
      ensures changed <==> Value() != old(Value())
    {
      ghost var start := Value();
      var keys, upserted := UpsertAll(provider, platform, infos);
      ghost var merged := models;
      var removedDefault, pruned := PruneModels(provider, keys);
      changed := upserted || pruned;
      if removedDefault {
        defaultModel := if keys != [] then keys[0] else FirstKey(models);
        changed := true;
      }
      if defaultModel != "" && Find(models, defaultModel).None? {
        defaultModel := FirstKey(models);
        changed := true;
      }
      UnchangedIffUpToDate(start, provider, platform, infos);
      if InPlace(start.models, provider, platform, infos) {
        UpsertedUnchanged(start.models, provider, platform, infos);
      }
    }

    method LogIn(provider: string, platform: string, infos: seq<ModelInfo>, choice: Choice)
      requires Distinct(models)
      modifies this
      ensures Value() == LoggedIn(old(Value()), provider, platform, infos, choice)
    {
      providers := providers + {provider};
      var _, _ := PruneModels(provider, []);
      ghost var base := models;
      for i := 0 to |infos|
        invariant providers == old(providers) + {provider} && services == old(services)
        invariant models == Upserted(base, provider, platform, infos[..i])
      {
        models := Put(models, ModelKey(platform, infos[i].id), Managed(provider, infos[i]));
        assert infos[..i + 1][..i] == infos[..i];
      }
      assert infos[..|infos|] == infos;
      defaultModel := ModelKey(platform, choice.selected.id);
      defaultThinking := choice.thinking;
      if choice.offered.search.Some? {
        services := services.(search := choice.offered.search);
      }
      if choice.offered.fetch.Some? {
        services := services.(fetch := choice.offered.fetch);
      }
    }

    method LogOut(provider: string)
      requires Distinct(models)
      modifies this
      ensures Value() == LoggedOut(old(Value()), provider)
    {
      providers := providers - {provider};
      var removedDefault, _ := PruneModels(provider, []);
      if removedDefault {
        defaultModel := "";
      }
      services := Services(None, None);
    }
  }

  // ---------------------------------------------------------------- what the three operations leave

  /** A listed model is configured as it is listed; an empty set of capabilities is not written out. */
  lemma ListedModelIsConfigured(c: Config, provider: string, platform: string, infos: seq<ModelInfo>, i: nat)
    requires Distinct(c.models) && DistinctIds(infos) && i < |infos|
    ensures var found := Find(Synced(c, provider, platform, infos).models, platform + "/" + infos[i].id);
      && found.Some? && found.value.provider == provider && found.value.model == infos[i].id
      && found.value.maxContextSize == infos[i].contextLength && found.value.displayName == infos[i].displayName
      && (infos[i].capabilities == {} ==> found.value.capabilities == None)
      && (infos[i].capabilities != {} ==> found.value.capabilities == Some(infos[i].capabilities))
  {
    SyncedModels(c, provider, platform, infos, ModelKey(platform, infos[i].id));
  }

  /** A default that the merge leaves in place stays; one it removes gives way to the first listed model, or the first left. */
  lemma DefaultFollowsTheList(c: Config, provider: string, platform: string, infos: seq<ModelInfo>)
    requires Distinct(c.models) && DistinctIds(infos)
    ensures var after := Synced(c, provider, platform, infos);
      var first := if after.models == [] then "" else after.models[0].key;
      && after.providers == c.providers && after.services == c.services && after.defaultThinking == c.defaultThinking
      && (Find(after.models, c.defaultModel).Some? ==> after.defaultModel == c.defaultModel)
      && (Find(after.models, c.defaultModel).None? && Find(c.models, c.defaultModel).Some? ==>
            after.defaultModel == if infos != [] then platform + "/" + infos[0].id else first)
      && (Find(after.models, c.defaultModel).None? && Find(c.models, c.defaultModel).None? ==>
            after.defaultModel == if c.defaultModel == "" then "" else first)
  {
    SyncedModels(c, provider, platform, infos, c.defaultModel);
    UpsertedFind(c.models, provider, platform, infos, c.defaultModel);
    if infos != [] {
      ListedModelIsConfigured(c, provider, platform, infos, 0);
    }
  }

  /**
   After a login the provider has exactly the listed models, the chosen one is the default, thinking is as chosen, and
   each service is the platform's if it offers one and as it was otherwise.
   */
  lemma LoginLeaves(c: Config, provider: string, platform: string, infos: seq<ModelInfo>, choice: Choice, key: string)
    requires Distinct(c.models) && DistinctIds(infos)
    ensures var after := LoggedIn(c, provider, platform, infos, choice);
      && after.providers == c.providers + {provider}
      && after.defaultModel == platform + "/" + choice.selected.id && after.defaultThinking == choice.thinking
      && (choice.offered.search.Some? ==> after.services.search == choice.offered.search)
      && (choice.offered.search.None? ==> after.services.search == c.services.search)
      && (choice.offered.fetch.Some? ==> after.services.fetch == choice.offered.fetch)
      && (choice.offered.fetch.None? ==> after.services.fetch == c.services.fetch)
      && (forall i | 0 <= i < |infos| && key == platform + "/" + infos[i].id ::
            Find(after.models, key) == Some(Managed(provider, infos[i])))
      && ((forall i | 0 <= i < |infos| :: key != platform + "/" + infos[i].id) ==>
            var m := Find(c.models, key);
            Find(after.models, key) == if m.Some? && m.value.provider == provider then None else m)
  {
    PrunedFind(c.models, provider, [], key);
    PrunedEntries(c.models, provider, []);
    UpsertedFind(Pruned(c.models, provider, []), provider, platform, infos, key);
    if key in Keys(platform, infos) {
      var i :| 0 <= i < |infos| && Keys(platform, infos)[i] == key;
    }
  }

  /** A logout takes the provider's models and both services away, and the default exactly if it was one of the models. */
  lemma LogoutLeaves(c: Config, provider: string, key: string)
    requires Distinct(c.models)
    ensures var after, m := LoggedOut(c, provider), Find(c.models, key);
      && after.providers == c.providers - {provider} && after.services == Services(None, None)
      && after.defaultThinking == c.defaultThinking
      && Find(after.models, key) == (if m.Some? && m.value.provider == provider then None else m)
      && (after.defaultModel == "" <==>
            c.defaultModel == "" || exists model :: Find(c.models, c.defaultModel) == Some(model) && model.provider == provider)
      && (after.defaultModel != "" ==> after.defaultModel == c.defaultModel)
  {
    PrunedFind(c.models, provider, [], key);
    PrunedFind(c.models, provider, [], c.defaultModel);
    var m := Find(c.models, c.defaultModel);
    if m.Some? && m.value.provider == provider {
      assert Find(c.models, c.defaultModel) == Some(m.value);
    }
  }
}
