/** mlserver/registry.py:73-272 in its own form: the registry of one model's versions as an object.

    `load` is cut where it waits: hooks and `load()` are the caller's, and their outcomes come in as
    arguments. */
module RegistryObjects {
  import opened OrderedDict
  import opened ModelVersions
  import opened Registry
  import RegistryLookups

  /** The model a lookup finds, if any. */
  function Found(r: Reg, version: Version): set<MLModel> {
    if FindModel(r, version).Some? then {FindModel(r, version).value} else {}
  }

  class SingleModelRegistry {
    var versions: Versions
    var default: Option<MLModel>

    function Snapshot(): Reg
      reads this
    {
      Reg(versions, default)
    }

    constructor ()
      ensures Snapshot() == Empty()
    {
      versions, default := [], None;
    }

    /** The `default` property. */
    method GetDefault() returns (m: Option<MLModel>)
      modifies this`default
      ensures Snapshot() == ReadDefault(old(Snapshot())) && m == default
    {
      if default.None? && versions != [] {
        var latest := LatestModel();
        default := Some(latest);
      }
      m := default;
    }

    /** `max(self._versions.values(), key=...)` */
    method LatestModel() returns (best: MLModel)
      requires versions != []
      ensures best == Latest(Values(versions))
    {
      var models := Values(versions);
      best := models[0];
      for i := 1 to |models|
        invariant best == Latest(models[..i])
      {
        assert models[..i + 1][..i] == models[..i];
        if IsNewer(models[i].version, best.version) > 0 { best := models[i]; }
      }
      assert models[..|models|] == models;
    }

    /** `_refresh_default`; `None` is a call without a new model. */
    method Refresh(newModel: Option<MLModel>)
      modifies this`default
      ensures Snapshot() == RefreshDefault(old(Snapshot()), newModel)
    {
      if newModel.Some? {
        if default.None? || newModel.value.version.None? {
          default := newModel;
          return;
        }
        if default.value.version.None? { return; }
        if IsNewer(newModel.value.version, default.value.version) >= 0 { default := newModel; }
        return;
      }
      if default.Some? && default.value.version.None? { return; }
      var found := GetDefault();
    }

    method RegisterModel(m: MLModel)
      modifies this
      ensures Snapshot() == Register(old(Snapshot()), m)
    {
      if Truthy(m.version) { versions := Put(versions, m.version.value, m); }
      Refresh(Some(m));
    }

    method Lookup(version: Version) returns (m: Option<MLModel>)
      modifies this`default
      ensures Snapshot() == Touch(old(Snapshot()), version) && m == FindModel(old(Snapshot()), version)
    {
      if Truthy(version) {
        if !Has(versions, version.value) { return None; }
        return Some(Get(versions, version.value));
      }
      m := GetDefault();
    }

    method ClearDefaultIf(m: MLModel)
      modifies this`default
      ensures Snapshot() == ClearIfDefault(old(Snapshot()), m)
    {
      var current := GetDefault();
      if current == Some(m) { default := None; }
    }

    /** `_unload_model`; `unloaded` is what `model.unload()` returns. */
    method UnloadModel(m: MLModel, unloaded: bool) returns (keyError: bool)
      modifies this, m`ready
      ensures keyError == KeyMissing(old(Snapshot()), m)
      ensures Snapshot() == Drop(old(Snapshot()), m)
      ensures m.ready == if keyError then old(m.ready) else !unloaded
    {
      if Truthy(m.version) {
        if !Has(versions, m.version.value) { return true; }
        versions := Remove(versions, m.version.value);
      }
      ClearDefaultIf(m);
      m.ready := !unloaded;
      keyError := false;
    }

    /** `_load_model`, with what the hooks have made of the model when loading ends. */
    method LoadNew(m: MLModel, hooked: MLModel, end: LoadEnd, unloaded: bool) returns (raised: bool)
      requires Settled(Snapshot()) && hooked.version == m.version
      modifies this, hooked`ready
      ensures raised == !end.Loaded?
      ensures Snapshot() == LoadModel(old(Snapshot()), m, hooked, end)
      ensures hooked.ready == if end.Loaded? then end.ready else !unloaded
      ensures end.Loaded? && FindModel(old(Snapshot()), m.version).None? ==>
                FindModel(Snapshot(), m.version) == Some(hooked)
    {
      if FindModel(Snapshot(), m.version).None? {
        RegistryLookups.FirstLoadFound(Snapshot(), m, hooked, end);
      }
      RegisterSettles(Snapshot(), m);
      RegisterModel(m);
      if !end.HookRaised? { RegisterModel(hooked); }
      raised := !end.Loaded?;
      if raised {
        var keyError := UnloadModel(hooked, unloaded);
      } else {
        hooked.ready := end.ready;
      }
    }

    /** `_reload_model` from the end of `load()` to the next wait: while the new model was loading,
        nothing had changed; from here on a lookup of the version finds the new model. */
    method Replace(previous: MLModel, hooked: MLModel, ready: bool)
      requires Settled(Snapshot())
      modifies this, hooked`ready
      ensures Snapshot() == Reload(old(Snapshot()), previous, hooked, Loaded(ready)) && Settled(Snapshot())
      ensures hooked.ready == ready
      ensures (FindModel(old(Snapshot()), hooked.version) == Some(previous) && previous != hooked
                && previous.version == hooked.version) || Truthy(hooked.version) ==>
                FindModel(Snapshot(), hooked.version) == Some(hooked)
    {
      RegisterSettles(Snapshot(), hooked);
      if hooked.version.Some? { CompareIsAntisymmetric(hooked.version.value, hooked.version.value); }
      hooked.ready := ready;
      RegisterModel(hooked);
      ClearDefaultIf(previous);
    }

    /** ... and its end, when the old model's `unload()` returns. */
    method Retire(previous: MLModel, unloaded: bool)
      modifies previous`ready
      ensures Snapshot() == old(Snapshot()) && previous.ready == !unloaded
    {
      previous.ready := !unloaded;
    }

    method LoadVersion(m: MLModel, hooked: MLModel, end: LoadEnd, unloaded: bool)
      returns (raised: bool, ghost previous: Option<MLModel>)
      requires Settled(Snapshot()) && hooked.version == m.version
      modifies this, hooked`ready, Found(Snapshot(), m.version)
      ensures raised == !end.Loaded? && previous == FindModel(old(Snapshot()), m.version)
      ensures Snapshot() == Load(old(Snapshot()), m, hooked, end)
      ensures previous.Some? && raised ==> previous.value.ready == old(previous.value.ready)
      ensures previous.Some? && !raised ==> previous.value.ready == !unloaded
      ensures !raised && previous != Some(hooked) ==> hooked.ready == end.ready
      ensures !raised && (Truthy(m.version) || previous.None?) ==> FindModel(Snapshot(), m.version) == Some(hooked)
    {
      ReadSettles(Snapshot());
      var loaded := Lookup(m.version);
      previous := loaded;
      if loaded.None? {
        raised := LoadNew(m, hooked, end, unloaded);
      } else if !end.Loaded? {
        raised := true;
      } else {
        raised := false;
        Replace(loaded.value, hooked, end.ready);
        Retire(loaded.value, unloaded);
      }
    }

    /** `unload_version`; `None` is `ModelNotFound`. The unload fails on a missing key only when it is the
        default that was asked for and that is stale. */
    method UnloadOne(version: Version, unloaded: bool) returns (found: Option<MLModel>, keyError: bool)
      requires Settled(Snapshot())
      modifies this, Found(Snapshot(), version)
      ensures found == FindModel(old(Snapshot()), version)
      ensures keyError <==> !Truthy(version) && Stale(old(Snapshot()))
      ensures Snapshot() == UnloadVersion(old(Snapshot()), version) && Settled(Snapshot())
      ensures keyError ==> found.Some? && found.value.ready == old(found.value.ready)
      ensures found.Some? && !keyError ==> found.value.ready == !unloaded
    {
      ReadSettles(Snapshot());
      if Truthy(version) && Has(versions, version.value) { FiledAt(versions, Find(versions, version.value)); }
      found := Lookup(version);
      keyError := false;
      if found.Some? {
        DropSettles(Snapshot(), found.value);
        keyError := UnloadModel(found.value, unloaded);
      }
    }

    /** `get_models` */
    method GetModels() returns (models: seq<MLModel>)
      modifies this`default
      ensures Snapshot() == ReadDefault(old(Snapshot()))
      ensures models == AllModels(old(Snapshot()))
    {
      models := Values(versions);
      var current := GetDefault();
      if current.Some? && !Truthy(current.value.version) { models := models + [current.value]; }
    }

    method UnloadEach(models: seq<MLModel>, unloaded: bool)
      requires Settled(Snapshot()) && StoredFrom(versions, models, 0)
      requires forall i, j :: 0 <= i < j < |models| ==> models[i].version != models[j].version
      modifies this, models
      ensures ReadyFor(models, |models|, !unloaded)
    {
      for i := 0 to |models|
        invariant Settled(Snapshot()) && StoredFrom(versions, models, i)
        invariant ReadyFor(models, i, !unloaded)
      {
        DropSettles(Snapshot(), models[i]);
        DropKeepsLaterStored(Snapshot(), models, i);
        var keyError := UnloadModel(models[i], unloaded);
      }
    }

    /** `unload`: drops every model in turn, then forgets whatever is left. */
    method UnloadAll(unloaded: bool)
      requires Settled(Snapshot())
      modifies this, AllModels(Snapshot())
      ensures Snapshot() == Empty()
      ensures forall m :: m in old(AllModels(Snapshot())) ==> m.ready == !unloaded
    {
      ReadSettles(Snapshot());
      var models := GetModels();
      ModelsHaveOwnVersions(Snapshot());
      UnloadEach(models, unloaded);
      versions, default := [], None;
    }
  }

  predicate ReadyFor(models: seq<MLModel>, n: nat, ready: bool)
    requires n <= |models|
    reads models
  {
    forall j :: 0 <= j < n ==> models[j].ready == ready
  }

  /** A lookup of the version would find a model that is ready. */
  predicate Served(registry: SingleModelRegistry, version: Version)
    reads registry, Found(registry.Snapshot(), version)
  {
    var found := FindModel(registry.Snapshot(), version);
    found.Some? && found.value.ready
  }

  /** A same-version reload, with or without a version, whose `load()` returns true: while the new model
      loads, while the old one unloads, and afterwards, a lookup of the version finds a model that is
      ready. */
  method RollingReload(registry: SingleModelRegistry, previous: MLModel, hooked: MLModel, unloaded: bool)
    returns (ghost servedWhileLoading: bool, ghost servedWhileUnloading: bool)
    requires Settled(registry.Snapshot()) && previous.version == hooked.version && previous != hooked
    requires FindModel(registry.Snapshot(), hooked.version) == Some(previous) && previous.ready
    modifies registry, hooked`ready, previous`ready
    ensures servedWhileLoading && servedWhileUnloading && Served(registry, hooked.version)
    ensures FindModel(registry.Snapshot(), hooked.version) == Some(hooked)
    ensures registry.Snapshot() == Reload(old(registry.Snapshot()), previous, hooked, Loaded(true))
  {
    servedWhileLoading := Served(registry, hooked.version);
    registry.Replace(previous, hooked, true);
    servedWhileUnloading := Served(registry, hooked.version);
    registry.Retire(previous, unloaded);
  }

  /** A reload whose hook or `load()` raises leaves the stored versions and the default that a lookup
      finds as they were. */
  lemma {:induction false} RaisingReloadChangesNothing(r: Reg, m: MLModel, hooked: MLModel, end: LoadEnd)
    requires FindModel(r, m.version).Some? && !end.Loaded?
    ensures var after := Load(r, m, hooked, end);
            && after == Touch(r, m.version) && after.versions == r.versions
            && forall version :: FindModel(after, version) == FindModel(r, version)
  {
  }
}
