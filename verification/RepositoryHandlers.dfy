/** mlserver/registry.py:275-342 and mlserver/handlers/model_repository.py:62-80 in their own form: the
    registry of all models, and the handler that brings one of them in line with its repository. */
module RepositoryHandlers {
  import opened OrderedDict
  import opened ModelVersions
  import opened Registry
  import opened RepositorySync

  type Models = map<string, Reg>

  /** A name without a registry has nothing loaded. */
  function RegOf(models: Models, name: string): Reg {
    if name in models then models[name] else Empty()
  }

  /** `empty` */
  predicate IsEmpty(r: Reg) {
    r.versions == [] && FindDefault(r).None?
  }

  function Others(models: Models, name: string): Models {
    models - {name}
  }

  /** No lookup under the name finds a model. */
  ghost predicate NothingFound(models: Models, name: string) {
    forall version :: FindModel(RegOf(models, name), version).None?
  }

  lemma {:induction false} OthersOfUpdate(models: Models, name: string, r: Reg)
    ensures Others(models[name := r], name) == Others(models, name)
  {
  }

  class MultiModelRegistry {
    var models: Models

    constructor ()
      ensures models == map[]
    {
      models := map[];
    }

    /** The registry of the name is made first and stays, even when loading raises. */
    method LoadModel(name: string, m: MLModel, hooked: MLModel, end: LoadEnd)
      modifies this
      ensures models == old(models)[name := Load(RegOf(old(models), name), m, hooked, end)]
      ensures Others(models, name) == Others(old(models), name)
    {
      if name !in models { models := models[name := Empty()]; }
      var registry := Load(models[name], m, hooked, end);
      OthersOfUpdate(models, name, registry);
      models := models[name := registry];
    }

    /** Nothing changes when the name or the version is unknown, but for the default being looked up. */
    method UnloadOne(name: string, version: Version) returns (found: bool)
      modifies this
      ensures found == FindModel(RegOf(old(models), name), version).Some?
      ensures RegOf(models, name) == UnloadVersion(RegOf(old(models), name), version)
      ensures Others(models, name) == Others(old(models), name)
      ensures found && IsEmpty(UnloadVersion(old(RegOf(models, name)), version)) ==> name !in models
      ensures !(found && IsEmpty(UnloadVersion(old(RegOf(models, name)), version))) ==>
                (name in models <==> name in old(models))
    {
      if name !in models { return false; }
      var registry := models[name];
      found := FindModel(registry, version).Some?;
      registry := UnloadVersion(registry, version);
      models := models[name := registry];
      if found && IsEmpty(registry) { models := models - {name}; }
    }

    /** `unload`: an unknown name is `ModelNotFound`; afterwards no lookup finds anything under it. */
    method UnloadAll(name: string) returns (found: bool)
      modifies this
      ensures found == (name in old(models)) && (!found ==> models == old(models))
      ensures name !in models && NothingFound(models, name)
      ensures forall other, version :: other != name ==>
                FindModel(RegOf(models, other), version) == FindModel(RegOf(old(models), other), version)
    {
      found := name in models;
      if found { models := models - {name}; }
    }

    method GetModels(name: string) returns (found: Option<seq<MLModel>>)
      modifies this
      ensures found.Some? <==> name in old(models)
      ensures found.Some? ==> found.value == AllModels(old(models)[name])
      ensures name in old(models) ==> models == old(models)[name := ReadDefault(old(models)[name])]
      ensures name !in old(models) ==> models == old(models)
      ensures Others(models, name) == Others(old(models), name)
    {
      if name !in models { return None; }
      found := Some(AllModels(models[name]));
      models := models[name := ReadDefault(models[name])];
    }
  }

  lemma {:induction false} OneMoreStale(r: Reg, models: seq<MLModel>, i: nat, keep: set<string>)
    requires i < |models|
    ensures DropStale(r, models[..i + 1], keep)
         == if KeyOf(models[i].version) in keep then DropStale(r, models[..i], keep)
            else UnloadVersion(DropStale(r, models[..i], keep), models[i].version)
  {
    assert models[..i + 1][..i] == models[..i];
  }

  /** Every model the pass comes to unload is still there. */
  lemma {:induction false} StaleIsFound(r: Reg, n: nat, keep: set<string>)
    requires Settled(r) && r.default == FindDefault(r) && n < |AllModels(r)|
    ensures FindModel(DropStale(r, AllModels(r)[..n], keep), AllModels(r)[n].version).Some?
  {
    if n < |r.versions| {
      assert AllModels(r)[..n] == Values(r.versions)[..n];
      DropNamed(r, n, keep);
      FindAt(r.versions, n);
    } else {
      assert AllModels(r)[..n] == Values(r.versions)[..n];
      DropNamed(r, n, keep);
    }
  }

  datatype LoadOutcome = NotFound | Raised | Done

  /** The index of the first listed model whose load raises, or the length. */
  function Raising(listed: seq<Listing>): (n: nat)
    ensures n <= |listed| && (forall i :: 0 <= i < n ==> listed[i].end.Loaded?)
    ensures n < |listed| ==> !listed[n].end.Loaded?
  {
    if listed == [] || !listed[0].end.Loaded? then 0 else 1 + Raising(listed[1..])
  }

  lemma {:induction false} RaisedAt(r: Reg, listed: seq<Listing>, i: nat)
    requires KeepSettings(listed) && i < |listed| && Raising(listed) == i
    ensures forall key :: key != "" ==>
              (Has(LoadAll(r, listed[..i + 1]).versions, key)
               <==> Has(r.versions, key) || ListsVersion(listed[..i], key))
  {
    assert listed[..i + 1] == listed[..i] + [listed[i]];
    forall key | key != ""
      ensures Has(LoadAll(r, listed[..i + 1]).versions, key) <==> Has(r.versions, key) || ListsVersion(listed[..i], key)
    {
      RaisingPassKeys(r, listed[..i], listed[i], key);
    }
  }

  class ModelRepositoryHandlers {
    const registry: MultiModelRegistry

    constructor (registry: MultiModelRegistry)
      ensures this.registry == registry
    {
      this.registry := registry;
    }

    /** `load(name)`; `listed` is what `repository.find` returns, and nothing listed is `ModelNotFound`. A
        load that raises ends the pass before anything is unloaded. */
    method LoadFromRepository(name: string, listed: seq<Listing>) returns (outcome: LoadOutcome)
      requires Settled(RegOf(registry.models, name)) && KeepSettings(listed)
      modifies registry
      ensures Others(registry.models, name) == Others(old(registry.models), name)
      ensures outcome.NotFound? <==> listed == []
      ensures outcome.NotFound? ==> registry.models == old(registry.models)
      ensures outcome.Raised? <==> Raising(listed) < |listed|
      ensures outcome.Raised? ==>
                && RegOf(registry.models, name)
                   == LoadAll(RegOf(old(registry.models), name), listed[..Raising(listed) + 1])
                && forall key :: key != "" ==>
                     (Has(RegOf(registry.models, name).versions, key)
                      <==> Has(RegOf(old(registry.models), name).versions, key)
                           || ListsVersion(listed[..Raising(listed)], key))
      ensures outcome.Done? ==> RegOf(registry.models, name) == Sync(RegOf(old(registry.models), name), listed)
      ensures outcome.Done? && Some("") !in VersionsOf(listed)
              && !ReusesDefault(RegOf(old(registry.models), name), listed) ==>
                forall key :: key != "" ==> (Holds(RegOf(registry.models, name), key) <==> key in ListedKeys(listed))
    {
      if listed == [] { return NotFound; }
      ghost var before := RegOf(registry.models, name);
      var raised, loadedVersions := LoadListedModels(name, listed);
      if raised { return Raised; }
      LoadAllSettles(before, listed);
      var allModels := registry.GetModels(name);
      DropStaleModels(name, allModels.value, loadedVersions, LoadAll(before, listed));
      if Some("") !in VersionsOf(listed) && !ReusesDefault(before, listed) { SyncHoldsListedKeys(before, listed); }
      outcome := Done;
    }

    /** The first loop. */
    method LoadListedModels(name: string, listed: seq<Listing>) returns (raised: bool, loadedVersions: set<string>)
      requires Settled(RegOf(registry.models, name)) && KeepSettings(listed) && listed != []
      modifies registry
      ensures name in registry.models && Others(registry.models, name) == Others(old(registry.models), name)
      ensures raised <==> Raising(listed) < |listed|
      ensures raised ==>
                && RegOf(registry.models, name)
                   == LoadAll(RegOf(old(registry.models), name), listed[..Raising(listed) + 1])
                && forall key :: key != "" ==>
                     (Has(RegOf(registry.models, name).versions, key)
                      <==> Has(RegOf(old(registry.models), name).versions, key)
                           || ListsVersion(listed[..Raising(listed)], key))
      ensures !raised ==> RegOf(registry.models, name) == LoadAll(RegOf(old(registry.models), name), listed)
      ensures !raised ==> loadedVersions == ListedKeys(listed)
    {
      ghost var before := RegOf(registry.models, name);
      loadedVersions := {};
      for i := 0 to |listed|
        invariant i > 0 ==> name in registry.models
        invariant i <= Raising(listed)
        invariant RegOf(registry.models, name) == LoadAll(before, listed[..i])
        invariant loadedVersions == ListedKeys(listed[..i])
        invariant Others(registry.models, name) == Others(old(registry.models), name)
      {
        assert listed[..i + 1][..i] == listed[..i];
        registry.LoadModel(name, listed[i].m, listed[i].hooked, listed[i].end);
        if !listed[i].end.Loaded? {
          RaisedAt(before, listed, i);
          return true, loadedVersions;
        }
        loadedVersions := loadedVersions + {KeyOf(listed[i].m.version)};
      }
      assert listed[..|listed|] == listed;
      raised := false;
    }

    /** The second loop. */
    method DropStaleModels(name: string, models: seq<MLModel>, keep: set<string>, ghost loaded: Reg)
      requires RegOf(registry.models, name) == ReadDefault(loaded) && models == AllModels(loaded)
      requires Settled(loaded)
      modifies registry
      ensures RegOf(registry.models, name) == DropStale(ReadDefault(loaded), models, keep)
      ensures Others(registry.models, name) == Others(old(registry.models), name)
    {
      ghost var read := ReadDefault(loaded);
      ReadSettles(loaded);
      assert models == AllModels(read);
      for i := 0 to |models|
        invariant RegOf(registry.models, name) == DropStale(read, models[..i], keep)
        invariant Others(registry.models, name) == Others(old(registry.models), name)
      {
        OneMoreStale(read, models, i, keep);
        StaleIsFound(read, i, keep);
        if KeyOf(models[i].version) !in keep {
          var found := registry.UnloadOne(name, models[i].version);
          assert found;
        }
      }
      assert models[..|models|] == models;
    }
  }
}
