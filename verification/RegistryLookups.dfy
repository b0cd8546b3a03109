/** mlserver/registry.py:148-272: what every operation does to what a lookup finds, version by version. */
module RegistryLookups {
  import opened OrderedDict
  import opened ModelVersions
  import opened Registry
  import opened RegistryDefaults

  // ---------- Registering ----------

  lemma {:induction false} RegisterFinds(r: Reg, m: MLModel, version: Version)
    requires Truthy(version)
    ensures FindModel(Register(r, m), version) == if version == m.version then Some(m) else FindModel(r, version)
  {
    if Truthy(m.version) { PutGets(r.versions, m.version.value, m, version.value); }
  }

  lemma {:induction false} ClearFinds(r: Reg, m: MLModel)
    ensures ClearIfDefault(r, m).versions == r.versions
    ensures ClearIfDefault(r, m).default == if FindDefault(r) == Some(m) then None else FindDefault(r)
  {
  }

  /** Refreshing without a new model changes nothing that a lookup finds, and fills the cache. */
  lemma {:induction false} RefreshingFindsTheSame(r: Reg, version: Version)
    ensures FindModel(RefreshDefault(r, None), version) == FindModel(r, version)
    ensures RefreshDefault(r, None).default == FindModel(r, None)
  {
  }

  // ---------- Loading ----------

  lemma {:induction false} FirstLoadFinds(r: Reg, m: MLModel, hooked: MLModel, ready: bool, version: Version)
    requires hooked.version == m.version && FindModel(r, m.version).None? && Truthy(version)
    ensures FindModel(Load(r, m, hooked, Loaded(ready)), version)
         == if version == m.version then Some(hooked) else FindModel(r, version)
  {
    RegisterFinds(r, m, version);
    RegisterFinds(Register(r, m), hooked, version);
    assert Touch(r, m.version) == r;
  }

  lemma {:induction false} ReloadFinds(r: Reg, m: MLModel, hooked: MLModel, ready: bool, version: Version)
    requires hooked.version == m.version && FindModel(r, m.version).Some? && Truthy(version)
    ensures FindModel(Load(r, m, hooked, Loaded(ready)), version)
         == if version == m.version then Some(hooked) else FindModel(r, version)
  {
    var read := Touch(r, m.version);
    RegisterFinds(read, hooked, version);
    ClearFinds(Register(read, hooked), FindModel(r, m.version).value);
  }

  /** In every run, after a load that ends well, a lookup of the version finds what the hooks have made of
      the model, and a lookup of another version what it found before. */
  lemma {:induction false} LoadedVersionIsFound(
      events: seq<Event>, m: MLModel, hooked: MLModel, ready: bool, version: Version)
    requires hooked.version == m.version && Truthy(version)
    ensures FindModel(After(events + [LoadEvent(m, hooked, Loaded(ready))]), version)
         == if version == m.version then Some(hooked) else FindModel(After(events), version)
  {
    var r := After(events);
    AfterSnoc(events, LoadEvent(m, hooked, Loaded(ready)));
    if FindModel(r, m.version).None? {
      FirstLoadFinds(r, m, hooked, ready, version);
    } else {
      ReloadFinds(r, m, hooked, ready, version);
    }
  }

  lemma {:induction false} FirstLoadIsDefault(r: Reg, m: MLModel, hooked: MLModel, ready: bool)
    requires hooked.version == m.version && FindModel(r, m.version).None?
    ensures Load(r, m, hooked, Loaded(ready)).default == if TakesDefault(r, m) then Some(hooked) else r.default
    ensures Load(r, m, hooked, Loaded(ready)).default.Some?
  {
    RegisterAgainTakesDefault(r, m, hooked);
    assert Touch(r, m.version) == r;
  }

  lemma {:induction false} FirstLoadFound(r: Reg, m: MLModel, hooked: MLModel, end: LoadEnd)
    requires hooked.version == m.version && FindModel(r, m.version).None?
    ensures end.Loaded? ==> FindModel(LoadModel(r, m, hooked, end), m.version) == Some(hooked)
  {
    if end.Loaded? {
      FirstLoadIsDefault(r, m, hooked, end.ready);
      if Truthy(m.version) { FirstLoadFinds(r, m, hooked, end.ready, m.version); }
      assert Touch(r, m.version) == r;
    }
  }

  /** In every run, a model that is loaded first becomes the default exactly when there is none in the cache,
      or one that has a version which is no newer; otherwise the default stays what it was. */
  lemma {:induction false} FirstLoadIsDefaultExactly(events: seq<Event>, m: MLModel, hooked: MLModel, ready: bool)
    requires hooked.version == m.version && FindModel(After(events), m.version).None?
    ensures var r, t := After(events), After(events + [LoadEvent(m, hooked, Loaded(ready))]);
            && (FindModel(t, None) == Some(hooked) <==>
                  || r.default.None?
                  || (r.default.value.version.Some? && IsNewer(m.version, r.default.value.version) >= 0))
            && (FindModel(t, None) != Some(hooked) ==> FindModel(t, None) == r.default)
  {
    var r := After(events);
    AfterSnoc(events, LoadEvent(m, hooked, Loaded(ready)));
    FirstLoadIsDefault(r, m, hooked, ready);
    if r.default == Some(hooked) && m.version.Some? { CompareIsAntisymmetric(m.version.value, m.version.value); }
  }

  /** In every run, of a model that the hooks of its first load have replaced nothing is left: no lookup
      finds it, and it is not listed. */
  lemma {:induction false} ReplacedModelIsGone(events: seq<Event>, m: MLModel, hooked: MLModel, ready: bool)
    requires hooked.version == m.version && hooked != m && FindModel(After(events), m.version).None?
    ensures var t := After(events + [LoadEvent(m, hooked, Loaded(ready))]);
            m !in AllModels(t) && forall version :: FindModel(t, version) != Some(m)
  {
    var r, t := After(events), After(events + [LoadEvent(m, hooked, Loaded(ready))]);
    AfterSnoc(events, LoadEvent(m, hooked, Loaded(ready)));
    EveryRunIsSettled(events + [LoadEvent(m, hooked, Loaded(ready))]);
    FirstLoadIsDefault(r, m, hooked, ready);
    if Truthy(m.version) { FirstLoadFinds(r, m, hooked, ready, m.version); }
    if r.default == Some(m) { CompareIsAntisymmetric(m.version.value, m.version.value); }
    ListedExactly(t, m);
    FoundExactly(t, m);
  }

  /** In every run, a named version that is loaded again becomes the default under the same condition, if
      the hooks return another object than the one that is replaced. */
  lemma {:induction false} ReloadIsDefaultExactly(events: seq<Event>, m: MLModel, hooked: MLModel, ready: bool)
    requires hooked.version == m.version && Truthy(m.version)
    requires FindModel(After(events), m.version).Some? && FindModel(After(events), m.version) != Some(hooked)
    ensures var r, t := After(events), After(events + [LoadEvent(m, hooked, Loaded(ready))]);
            && (FindModel(t, None) == Some(hooked) <==>
                  || r.default.None?
                  || (r.default.value.version.Some? && IsNewer(m.version, r.default.value.version) >= 0))
            && (FindModel(t, None) != Some(hooked) ==> FindModel(t, None) == r.default)
  {
    var r, e := After(events), LoadEvent(m, hooked, Loaded(ready));
    var previous := FindModel(r, m.version).value;
    AfterSnoc(events, e);
    EveryRunIsSettled(events);
    FiledAt(r.versions, Find(r.versions, m.version.value));
    CompareIsAntisymmetric(m.version.value, m.version.value);
    RegisterTakesDefault(r, hooked);
    ClearFinds(Register(r, hooked), previous);
  }

  /** In every run, what is loaded without a version in place of the default becomes the default, exactly if
      it is another object. */
  lemma {:induction false} UnnamedReloadIsDefaultExactly(events: seq<Event>, m: MLModel, hooked: MLModel, ready: bool)
    requires hooked.version.None? && m.version.None? && FindModel(After(events), None).Some?
    ensures FindModel(After(events + [LoadEvent(m, hooked, Loaded(ready))]), None) == Some(hooked)
        <==> FindModel(After(events), None) != Some(hooked)
             || (After(events).versions != [] && Latest(Values(After(events).versions)) == hooked)
  {
    AfterSnoc(events, LoadEvent(m, hooked, Loaded(ready)));
    ClearFinds(Register(ReadDefault(After(events)), hooked), FindDefault(After(events)).value);
  }

  // ---------- Unloading ----------

  lemma {:induction false} DropFinds(r: Reg, m: MLModel, version: Version)
    requires Filed(r.versions) && !KeyMissing(r, m) && Truthy(version)
    ensures FindModel(Drop(r, m), version) == if version == m.version then None else FindModel(r, version)
  {
    if Truthy(m.version) {
      var key := m.version.value;
      RemoveFiles(r.versions, key);
      if version.value != key { RemoveOther(r.versions, key, version.value); }
      ClearFinds(r.(versions := Remove(r.versions, key)), m);
    } else {
      ClearFinds(r, m);
    }
  }

  /** What is stored after the model was dropped. */
  function Rest(r: Reg, m: MLModel): Versions
    requires !KeyMissing(r, m)
  {
    if Truthy(m.version) then Remove(r.versions, m.version.value) else r.versions
  }

  lemma {:induction false} DroppedDefault(r: Reg, m: MLModel)
    requires Settled(r) && !KeyMissing(r, m) && (Truthy(m.version) ==> Stored(r.versions, m))
    ensures FindDefault(Drop(r, m)) == if r.default.Some? && r.default != Some(m) then r.default
                                       else if Rest(r, m) == [] then None else Some(Latest(Values(Rest(r, m))))
  {
    ClearFinds(r.(versions := Rest(r, m)), m);
  }

  /** In every run, an unload that does not fail takes the model that was found out of its version, and no
      other; the default stays unless it was that model, or there was none in the cache, and then it is
      the latest of what is left. */
  lemma {:induction false} UnloadTakesOneVersion(events: seq<Event>, asked: Version, version: Version)
    requires FindModel(After(events), asked).Some? && (Truthy(asked) || !Stale(After(events)))
    ensures var r, t := After(events), After(events + [UnloadVersionEvent(asked)]);
            var m := FindModel(r, asked).value;
            && (Truthy(version) ==>
                  FindModel(t, version) == if version == m.version then None else FindModel(r, version))
            && FindModel(t, None) ==
                 (if r.default.Some? && r.default != Some(m) then r.default
                  else if t.versions == [] then None else Some(Latest(Values(t.versions))))
  {
    var r, e := After(events), UnloadVersionEvent(asked);
    var m, read := FindModel(r, asked).value, Touch(r, asked);
    AfterSnoc(events, e);
    EveryRunIsSettled(events);
    UnloadedIsGoneExactly(events, asked);
    ReadSettles(r);
    if Truthy(asked) { FiledAt(r.versions, Find(r.versions, asked.value)); }
    if Truthy(version) { DropFinds(read, m, version); }
    DroppedDefault(read, m);
  }
}
