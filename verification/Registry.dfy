/** mlserver/registry.py: the versions of one model, with a cached default.

    The registry's fields are a value here, and every operation a function on it; the class that has
    the fields is in RegistryObjects.dfy. Operations do not interleave. Hooks and `load()` may raise; a
    hook may replace the model by another object with the same settings. */
module Registry {
  import opened OrderedDict
  import opened ModelVersions

  class MLModel {
    const version: Version
    var ready: bool

    constructor (version: Version)
      ensures this.version == version && !ready
    {
      this.version, ready := version, false;
    }
  }

  type Versions = Odict<string, MLModel>

  datatype Reg = Reg(versions: Versions, default: Option<MLModel>)

  /** How loading ends: `load()` returns readiness or raises, or a hook raises before it. */
  datatype LoadEnd = Loaded(ready: bool) | LoadRaised | HookRaised

  /** `if version:` */
  predicate Truthy(version: Version) {
    version.Some? && version.value != ""
  }

  // ---------- The default ----------

  function Values(versions: Versions): seq<MLModel> {
    seq(|versions|, i requires 0 <= i < |versions| => versions[i].value)
  }

  /** `max` with `_is_newer`: a later model replaces the best so far only when it is newer. */
  function Latest(models: seq<MLModel>): (m: MLModel)
    requires models != []
    ensures m in models
  {
    var last := models[|models| - 1];
    if |models| == 1 then last
    else
      var best := Latest(models[..|models| - 1]);
      if IsNewer(last.version, best.version) > 0 then last else best
  }

  /** `_find_default` */
  function FindDefault(r: Reg): Option<MLModel> {
    if r.default.None? && r.versions != [] then Some(Latest(Values(r.versions))) else r.default
  }

  /** Reading the `default` property fills the cache. */
  function ReadDefault(r: Reg): Reg {
    r.(default := FindDefault(r))
  }

  function ClearDefault(r: Reg): Reg {
    r.(default := None)
  }

  /** `_refresh_default` */
  function RefreshDefault(r: Reg, newModel: Option<MLModel>): Reg {
    match newModel
    case Some(m) =>
      if r.default.None? then r.(default := newModel)
      else if m.version.None? then r.(default := newModel)
      else if r.default.value.version.None? then r
      else if IsNewer(m.version, r.default.value.version) >= 0 then r.(default := newModel)
      else r
    case None =>
      if r.default.Some? && r.default.value.version.None? then r else ReadDefault(r)
  }

  // ---------- Operations ----------

  function Store(r: Reg, m: MLModel): Reg {
    if Truthy(m.version) then r.(versions := Put(r.versions, m.version.value, m)) else r
  }

  /** `_register` */
  function Register(r: Reg, m: MLModel): Reg {
    RefreshDefault(Store(r, m), Some(m))
  }

  /** `_find_model` */
  function FindModel(r: Reg, version: Version): Option<MLModel> {
    if Truthy(version) then
      if Has(r.versions, version.value) then Some(Get(r.versions, version.value)) else None
    else FindDefault(r)
  }

  /** A lookup without a version reads the default. */
  function Touch(r: Reg, version: Version): Reg {
    if Truthy(version) then r else ReadDefault(r)
  }

  /** `if model == self.default: self._clear_default()` */
  function ClearIfDefault(r: Reg, m: MLModel): Reg {
    var read := ReadDefault(r);
    if read.default == Some(m) then ClearDefault(read) else read
  }

  /** Deleting the model's version raises a `KeyError` when it is not there. */
  predicate KeyMissing(r: Reg, m: MLModel) {
    Truthy(m.version) && !Has(r.versions, m.version.value)
  }

  /** `_unload_model` */
  function Drop(r: Reg, m: MLModel): Reg {
    if KeyMissing(r, m) then r
    else if Truthy(m.version) then ClearIfDefault(r.(versions := Remove(r.versions, m.version.value)), m)
    else ClearIfDefault(r, m)
  }

  /** `_load_model`: `hooked` is what the hooks have made of `m` when loading ends. */
  function LoadModel(r: Reg, m: MLModel, hooked: MLModel, end: LoadEnd): Reg {
    match end
    case HookRaised => Drop(Register(r, m), hooked)
    case LoadRaised => Drop(Register(Register(r, m), hooked), hooked)
    case Loaded(_) => Register(Register(r, m), hooked)
  }

  /** `_reload_model` */
  function Reload(r: Reg, previous: MLModel, hooked: MLModel, end: LoadEnd): Reg {
    if end.Loaded? then ClearIfDefault(Register(r, hooked), previous) else r
  }

  function Load(r: Reg, m: MLModel, hooked: MLModel, end: LoadEnd): Reg {
    match FindModel(r, m.version)
    case Some(previous) => Reload(Touch(r, m.version), previous, hooked, end)
    case None => LoadModel(Touch(r, m.version), m, hooked, end)
  }

  /** `unload_version`; nothing happens to an unknown version but a `ModelNotFound`. */
  function UnloadVersion(r: Reg, version: Version): Reg {
    match FindModel(r, version)
    case Some(m) => Drop(Touch(r, version), m)
    case None => Touch(r, version)
  }

  function Empty(): Reg {
    Reg([], None)
  }

  // ---------- Runs ----------

  datatype Event =
    | LoadEvent(m: MLModel, hooked: MLModel, end: LoadEnd)
    | UnloadVersionEvent(version: Version)
    | UnloadEvent
    | ReadEvent

  /** Hooks keep the settings. */
  predicate Enabled(e: Event) {
    e.LoadEvent? ==> e.hooked.version == e.m.version
  }

  function Step(r: Reg, e: Event): Reg {
    match e
    case LoadEvent(m, hooked, end) => Load(r, m, hooked, end)
    case UnloadVersionEvent(version) => UnloadVersion(r, version)
    case UnloadEvent => Empty()
    case ReadEvent => ReadDefault(r)
  }

  /** The registry after a sequence of operations; one that is not possible is skipped. */
  function After(events: seq<Event>): Reg {
    if events == [] then Empty()
    else
      var r, e := After(events[..|events| - 1]), events[|events| - 1];
      if Enabled(e) then Step(r, e) else r
  }

  // ---------- Coherence ----------

  /** Every entry is filed under its own version. */
  predicate Filed(versions: Versions) {
    && Distinct(versions)
    && forall i :: 0 <= i < |versions| ==>
                     versions[i].key != "" && versions[i].value.version == Some(versions[i].key)
  }

  predicate Stored(versions: Versions, m: MLModel) {
    Truthy(m.version) && Has(versions, m.version.value) && Get(versions, m.version.value) == m
  }

  /** The cached default is none, unversioned, or the very object stored under its version. */
  predicate Coherent(r: Reg) {
    Filed(r.versions) && (r.default.Some? && Truthy(r.default.value.version) ==> Stored(r.versions, r.default.value))
  }

  lemma {:induction false} FiledAt(versions: Versions, i: nat)
    requires Filed(versions) && i < |versions|
    ensures Stored(versions, versions[i].value)
  {
    FindAt(versions, i);
  }

  lemma {:induction false} ReadKeepsCoherence(r: Reg)
    requires Coherent(r)
    ensures Coherent(ReadDefault(r))
  {
    if r.default.None? && r.versions != [] {
      var m := Latest(Values(r.versions));
      var i :| 0 <= i < |r.versions| && Values(r.versions)[i] == m;
      FiledAt(r.versions, i);
    }
  }

  lemma {:induction false} PutKeepsOthersStored(versions: Versions, m: MLModel, other: MLModel)
    requires Truthy(m.version) && Stored(versions, other) && other.version != m.version
    ensures Stored(Put(versions, m.version.value, m), other)
  {
    PutOther(versions, m.version.value, m, other.version.value);
  }

  lemma {:induction false} StoreFiles(r: Reg, m: MLModel)
    requires Filed(r.versions)
    ensures Filed(Store(r, m).versions)
    ensures Truthy(m.version) ==> Stored(Store(r, m).versions, m)
  {
  }

  lemma {:induction false} RegisterKeepsCoherence(r: Reg, m: MLModel)
    requires Coherent(r)
    ensures Coherent(Register(r, m))
    ensures Truthy(m.version) ==> Stored(Register(r, m).versions, m)
  {
    StoreFiles(r, m);
    if r.default.Some? && Truthy(r.default.value.version) && Truthy(m.version) {
      if r.default.value.version == m.version {
        CompareIsAntisymmetric(m.version.value, m.version.value);
      } else {
        PutKeepsOthersStored(r.versions, m, r.default.value);
      }
    }
  }

  lemma {:induction false} RemoveFiles(versions: Versions, key: string)
    requires Filed(versions) && Has(versions, key)
    ensures Filed(Remove(versions, key)) && !Has(Remove(versions, key), key)
  {
    var rest, at := Remove(versions, key), Find(versions, key);
    assert forall j :: 0 <= j < |rest| ==> rest[j] == if j < at then versions[j] else versions[j + 1];
  }

  lemma {:induction false} RemoveOther(versions: Versions, key: string, other: string)
    requires Filed(versions) && Has(versions, key) && other != key
    ensures Has(Remove(versions, key), other) <==> Has(versions, other)
    ensures Has(versions, other) ==> Get(Remove(versions, key), other) == Get(versions, other)
  {
    var rest, at, i := Remove(versions, key), Find(versions, key), Find(versions, other);
    RemoveFiles(versions, key);
    if i < |versions| {
      var k := if i < at then i else i - 1;
      assert rest[k] == versions[i];
      FindAt(rest, k);
    } else {
      assert forall j :: 0 <= j < |rest| ==> rest[j] == versions[if j < at then j else j + 1];
    }
  }

  lemma {:induction false} ClearIfDefaultKeepsCoherence(r: Reg, m: MLModel)
    requires Coherent(r)
    ensures Coherent(ClearIfDefault(r, m)) && ClearIfDefault(r, m).default != Some(m)
    ensures ClearIfDefault(r, m).versions == r.versions
  {
    ReadKeepsCoherence(r);
  }

  /** Dropping a model that is stored, or has no version to be stored under. */
  lemma {:induction false} DropKeepsCoherence(r: Reg, m: MLModel)
    requires Coherent(r) && (Truthy(m.version) ==> Stored(r.versions, m))
    ensures Coherent(Drop(r, m)) && !KeyMissing(r, m)
    ensures Drop(r, m).default != Some(m)
  {
    if !Truthy(m.version) {
      ClearIfDefaultKeepsCoherence(r, m);
    } else {
      var key := m.version.value;
      var rest := r.(versions := Remove(r.versions, key));
      RemoveFiles(r.versions, key);
      if r.default.Some? && Truthy(r.default.value.version) && r.default.value.version != m.version {
        RemoveOther(r.versions, key, r.default.value.version.value);
      }
      if r.default == Some(m) {
        assert Drop(r, m) == ClearDefault(rest);
      } else {
        ClearIfDefaultKeepsCoherence(rest, m);
      }
    }
  }

  lemma {:induction false} DropKeepsOthersStored(r: Reg, m: MLModel, other: MLModel)
    requires Filed(r.versions) && (Truthy(m.version) ==> Stored(r.versions, m))
    requires Stored(r.versions, other) && other.version != m.version
    ensures Stored(Drop(r, m).versions, other)
  {
    if Truthy(m.version) { RemoveOther(r.versions, m.version.value, other.version.value); }
  }

  predicate StoredFrom(versions: Versions, models: seq<MLModel>, n: nat) {
    forall i :: n <= i < |models| && Truthy(models[i].version) ==> Stored(versions, models[i])
  }

  lemma {:induction false} DropKeepsLaterStored(r: Reg, models: seq<MLModel>, n: nat)
    requires Filed(r.versions) && n < |models| && StoredFrom(r.versions, models, n)
    requires forall i :: n < i < |models| ==> models[i].version != models[n].version
    ensures StoredFrom(Drop(r, models[n]).versions, models, n + 1)
  {
    forall i | n < i < |models| && Truthy(models[i].version) ensures Stored(Drop(r, models[n]).versions, models[i]) {
      DropKeepsOthersStored(r, models[n], models[i]);
    }
  }

  lemma {:induction false} FoundIsStored(r: Reg, version: Version)
    requires Coherent(r)
    ensures Coherent(Touch(r, version))
    ensures var found := FindModel(r, version);
            found.Some? && Truthy(found.value.version) ==> Stored(Touch(r, version).versions, found.value)
  {
    ReadKeepsCoherence(r);
    if Truthy(version) && Has(r.versions, version.value) {
      FiledAt(r.versions, Find(r.versions, version.value));
    }
  }

  lemma {:induction false} LoadModelKeepsCoherence(r: Reg, m: MLModel, hooked: MLModel, end: LoadEnd)
    requires Coherent(r) && hooked.version == m.version && (end.HookRaised? ==> hooked == m)
    ensures Coherent(LoadModel(r, m, hooked, end))
  {
    RegisterKeepsCoherence(r, m);
    RegisterKeepsCoherence(Register(r, m), hooked);
    match end
    case HookRaised => DropKeepsCoherence(Register(r, m), hooked);
    case LoadRaised => DropKeepsCoherence(Register(Register(r, m), hooked), hooked);
    case Loaded(_) =>
  }

  /** Registering the model, which has a version, makes it the default. */
  predicate TakesDefault(r: Reg, m: MLModel) {
    || r.default.None?
    || (r.default.value.version.Some? && IsNewer(m.version, r.default.value.version) >= 0)
  }

  /** A first load whose hook raises after an earlier hook has replaced the model: the replacement is
      dropped, and the first object stays default if it was to become that. */
  predicate LeavesStaleDefault(r: Reg, e: Event) {
    && e.LoadEvent? && e.end.HookRaised? && FindModel(r, e.m.version).None?
    && Truthy(e.m.version) && e.hooked != e.m && TakesDefault(r, e.m)
  }

  lemma {:induction false} FailedHookKeepsCoherenceExactly(r: Reg, m: MLModel, hooked: MLModel)
    requires Coherent(r) && FindModel(r, m.version).None? && hooked.version == m.version
    ensures Coherent(Load(r, m, hooked, HookRaised))
        <==> hooked == m || !Truthy(m.version)
             || (r.default.Some? && (r.default.value.version.None? || IsNewer(m.version, r.default.value.version) < 0))
  {
    RegisterKeepsCoherence(Touch(r, m.version), m);
    if hooked == m {
      DropKeepsCoherence(Register(Touch(r, m.version), m), hooked);
    } else if Truthy(m.version) {
      HookedIsDropped(r, m, hooked);
    } else {
      ReadKeepsCoherence(Register(Touch(r, m.version), m));
    }
  }

  lemma {:induction false} HookedIsDropped(r: Reg, m: MLModel, hooked: MLModel)
    requires Coherent(r) && Truthy(m.version) && !Has(r.versions, m.version.value)
    requires hooked != m && hooked.version == m.version
    ensures Coherent(Drop(Register(r, m), hooked)) <==> !TakesDefault(r, m)
  {
    var registered := Register(r, m);
    var rest := registered.(versions := Remove(registered.versions, m.version.value));
    RegisterKeepsCoherence(r, m);
    RemoveFiles(registered.versions, m.version.value);
    if TakesDefault(r, m) {
      assert Drop(registered, hooked) == rest;
    } else {
      if Truthy(r.default.value.version) {
        RemoveOther(registered.versions, m.version.value, r.default.value.version.value);
      }
      ClearIfDefaultKeepsCoherence(rest, hooked);
    }
  }

  /** Exactly which operation on a coherent registry leaves it incoherent. */
  lemma {:induction false} StepKeepsCoherenceExactly(r: Reg, e: Event)
    requires Coherent(r) && Enabled(e)
    ensures Coherent(Step(r, e)) <==> !LeavesStaleDefault(r, e)
  {
    match e
    case LoadEvent(m, hooked, end) =>
      FoundIsStored(r, m.version);
      if FindModel(r, m.version).None? {
        if end.HookRaised? {
          FailedHookKeepsCoherenceExactly(r, m, hooked);
        } else {
          LoadModelKeepsCoherence(Touch(r, m.version), m, hooked, end);
        }
      } else if end.Loaded? {
        RegisterKeepsCoherence(Touch(r, m.version), hooked);
        ClearIfDefaultKeepsCoherence(Register(Touch(r, m.version), hooked), FindModel(r, m.version).value);
      }
    case UnloadVersionEvent(version) =>
      FoundIsStored(r, version);
      if FindModel(r, version).Some? { DropKeepsCoherence(Touch(r, version), FindModel(r, version).value); }
    case UnloadEvent =>
    case ReadEvent => ReadKeepsCoherence(r);
  }

  ghost predicate NeverStale(events: seq<Event>) {
    forall n :: 0 <= n < |events| && Enabled(events[n]) ==> !LeavesStaleDefault(After(events[..n]), events[n])
  }

  ghost predicate CoherentThroughout(events: seq<Event>) {
    forall n :: 0 <= n <= |events| ==> Coherent(After(events[..n]))
  }

  lemma {:induction false} ThroughoutSnoc(events: seq<Event>, e: Event)
    ensures CoherentThroughout(events + [e]) <==> CoherentThroughout(events) && Coherent(After(events + [e]))
  {
    var more := events + [e];
    forall n | 0 <= n <= |events| ensures more[..n] == events[..n] {}
    assert more[..|more|] == more;
  }

  lemma {:induction false} NeverStaleSnoc(events: seq<Event>, e: Event)
    ensures NeverStale(events + [e])
        <==> NeverStale(events) && (Enabled(e) ==> !LeavesStaleDefault(After(events), e))
  {
    var more := events + [e];
    forall n | 0 <= n < |events| ensures more[..n] == events[..n] && more[n] == events[n] {}
    assert more[..|events|] == events && more[|events|] == e;
  }

  lemma {:induction false} AfterSnoc(events: seq<Event>, e: Event)
    ensures After(events + [e]) == if Enabled(e) then Step(After(events), e) else After(events)
  {
    assert (events + [e])[..|events|] == events;
  }

  lemma {:induction false} CoherentAtEnd(events: seq<Event>)
    requires CoherentThroughout(events)
    ensures Coherent(After(events))
  {
    assert events[..|events|] == events;
  }

  /** Coherence, over all sequential runs of loads (first ones, reloads, failing ones, with hooks that
      replace the model), unloads of a version or of all, and reads: a run is coherent throughout if and
      only if none of its loads leaves a stale default. */
  lemma {:induction false} RunsAreCoherentExactly(events: seq<Event>)
    ensures CoherentThroughout(events) <==> NeverStale(events)
  {
    if events == [] {
      assert Coherent(After([]));
      assert events[..0] == [];
    } else {
      var init, e := events[..|events| - 1], events[|events| - 1];
      assert init + [e] == events;
      RunsAreCoherentExactly(init);
      ThroughoutSnoc(init, e);
      NeverStaleSnoc(init, e);
      AfterSnoc(init, e);
      if CoherentThroughout(init) {
        CoherentAtEnd(init);
        if Enabled(e) { StepKeepsCoherenceExactly(After(init), e); }
      }
    }
  }

  // ---------- Stale defaults ----------

  /** The cached default has a version under which nothing is stored. */
  predicate Stale(r: Reg) {
    r.default.Some? && Truthy(r.default.value.version) && !Has(r.versions, r.default.value.version.value)
  }

  /** Entries are filed under their versions, and under the cached default's version there is no other
      model. */
  predicate Settled(r: Reg) {
    Filed(r.versions) && (r.default.Some? && Truthy(r.default.value.version) && !Stale(r) ==>
                            Stored(r.versions, r.default.value))
  }

  lemma {:induction false} ReadSettles(r: Reg)
    requires Settled(r)
    ensures Settled(ReadDefault(r)) && (Stale(ReadDefault(r)) <==> Stale(r))
  {
    if r.default.None? { ReadKeepsCoherence(r); }
  }

  lemma {:induction false} RegisterSettles(r: Reg, m: MLModel)
    requires Settled(r)
    ensures Settled(Register(r, m))
    ensures Truthy(m.version) ==> Stored(Register(r, m).versions, m)
  {
    StoreFiles(r, m);
    if r.default.Some? && Truthy(r.default.value.version) && Truthy(m.version) {
      if r.default.value.version == m.version {
        CompareIsAntisymmetric(m.version.value, m.version.value);
      } else {
        PutOther(r.versions, m.version.value, m, r.default.value.version.value);
      }
    }
  }

  lemma {:induction false} RemovalSettles(r: Reg, key: string)
    requires Settled(r) && Has(r.versions, key)
    ensures Settled(r.(versions := Remove(r.versions, key)))
  {
    RemoveFiles(r.versions, key);
    if r.default.Some? && Truthy(r.default.value.version) && r.default.value.version.value != key {
      RemoveOther(r.versions, key, r.default.value.version.value);
    }
  }

  lemma {:induction false} DropSettles(r: Reg, m: MLModel)
    requires Settled(r)
    ensures Settled(Drop(r, m))
    ensures !KeyMissing(r, m) ==> Drop(r, m).default != Some(m)
  {
    if !KeyMissing(r, m) {
      if Truthy(m.version) {
        RemovalSettles(r, m.version.value);
        ReadSettles(r.(versions := Remove(r.versions, m.version.value)));
      } else {
        ReadSettles(r);
      }
    }
  }

  lemma {:induction false} LoadSettles(r: Reg, m: MLModel, hooked: MLModel, end: LoadEnd)
    requires Settled(r)
    ensures Settled(Load(r, m, hooked, end))
  {
    ReadSettles(r);
    var read := Touch(r, m.version);
    if FindModel(r, m.version).None? {
      RegisterSettles(read, m);
      RegisterSettles(Register(read, m), hooked);
      DropSettles(Register(read, m), hooked);
      DropSettles(Register(Register(read, m), hooked), hooked);
    } else if end.Loaded? {
      RegisterSettles(read, hooked);
      ReadSettles(Register(read, hooked));
    }
  }

  /** In every run, whatever hooks do. */
  lemma {:induction false} EveryRunIsSettled(events: seq<Event>)
    ensures Settled(After(events))
  {
    if events != [] {
      var r, e := After(events[..|events| - 1]), events[|events| - 1];
      EveryRunIsSettled(events[..|events| - 1]);
      ReadSettles(r);
      match e
      case LoadEvent(m, hooked, end) => LoadSettles(r, m, hooked, end);
      case UnloadVersionEvent(version) =>
        if FindModel(r, version).Some? { DropSettles(Touch(r, version), FindModel(r, version).value); }
      case _ =>
    }
  }

  /** In every run, an unload of a model that a lookup finds fails on a missing key exactly when no
      version is asked for and the default is stale; it changes nothing then, and otherwise the model is
      not found again. */
  lemma {:induction false} UnloadedIsGoneExactly(events: seq<Event>, version: Version)
    requires FindModel(After(events), version).Some?
    ensures var r := After(events);
            var m, after := FindModel(r, version).value, UnloadVersion(r, version);
            && (KeyMissing(Touch(r, version), m) <==> !Truthy(version) && Stale(r))
            && (if KeyMissing(Touch(r, version), m) then after == Touch(r, version)
                else !Stored(after.versions, m) && after.default != Some(m))
  {
    EveryRunIsSettled(events);
    var r := After(events);
    var m := FindModel(r, version).value;
    ReadSettles(r);
    if Truthy(version) {
      FiledAt(r.versions, Find(r.versions, version.value));
    }
    DropSettles(Touch(r, version), m);
    if Truthy(m.version) && Has(r.versions, m.version.value) { RemoveFiles(r.versions, m.version.value); }
  }

  /** And it does happen: on an empty registry, one hook replaces a first version and the next raises. */
  lemma {:induction false} RaisingHookLeavesStaleDefault(m: MLModel, hooked: MLModel)
    requires m != hooked && m.version == hooked.version == Some("1")
    ensures var r := After([LoadEvent(m, hooked, HookRaised)]);
            r.versions == [] && Stale(r) && FindModel(r, None) == Some(m) && KeyMissing(r, m)
  {
    var events := [LoadEvent(m, hooked, HookRaised)];
    assert events[..0] == [] && After([]) == Empty();
    assert Put([], "1", m) == [Entry("1", m)];
  }

  // ---------- All models ----------

  /** The stored models, and the default when it has no version to be stored under. */
  function AllModels(r: Reg): seq<MLModel> {
    var default := FindDefault(r);
    Values(r.versions) + if default.Some? && !Truthy(default.value.version) then [default.value] else []
  }

  lemma {:induction false} ModelsHaveOwnVersions(r: Reg)
    requires Filed(r.versions)
    ensures var models := AllModels(r);
            && (forall i :: 0 <= i < |models| && Truthy(models[i].version) ==> Stored(r.versions, models[i]))
            && (forall i, j :: 0 <= i < j < |models| ==> models[i].version != models[j].version)
  {
    forall i: nat | i < |r.versions| ensures Stored(r.versions, r.versions[i].value) {
      FiledAt(r.versions, i);
    }
  }
}
