/** mlserver/registry.py:90-146: the cached default, kept up incrementally, against recomputing it. */
module RegistryDefaults {
  import opened OrderedDict
  import opened ModelVersions
  import opened Registry

  // ---------- Recomputing ----------

  /** Versions that are all integers, or all non-integers. */
  predicate OfKind(models: seq<MLModel>, ints: bool) {
    forall i :: 0 <= i < |models| ==> models[i].version.Some? && ParseInt(models[i].version.value).Some? == ints
  }

  predicate IsMaximal(models: seq<MLModel>, m: MLModel) {
    m.version.Some? && forall i :: 0 <= i < |models| ==> IsNewer(models[i].version, m.version) <= 0
  }

  predicate AllOlder(models: seq<MLModel>, n: nat, m: MLModel) {
    n <= |models| && forall i :: 0 <= i < n ==> IsNewer(models[i].version, m.version) < 0
  }

  lemma {:induction false} NewerBeatsAll(models: seq<MLModel>, ints: bool, best: MLModel, newer: MLModel)
    requires OfKind(models, ints) && OfKind([best, newer], ints)
    requires IsMaximal(models, best) && IsNewer(newer.version, best.version) > 0
    ensures AllOlder(models, |models|, newer)
  {
    assert [best, newer][0] == best && [best, newer][1] == newer;
    CompareIsAntisymmetric(newer.version.value, best.version.value);
    forall i | 0 <= i < |models| ensures IsNewer(models[i].version, newer.version) < 0 {
      CompareIsTransitive(models[i].version.value, best.version.value, newer.version.value);
    }
  }

  lemma {:induction false} MaximalSnoc(models: seq<MLModel>, m: MLModel)
    requires models != [] && IsMaximal(models[..|models| - 1], m)
    requires IsNewer(models[|models| - 1].version, m.version) <= 0
    ensures IsMaximal(models, m)
  {
    var init := models[..|models| - 1];
    assert forall i :: 0 <= i < |init| ==> models[i] == init[i];
  }

  lemma {:induction false} OlderIsMaximal(models: seq<MLModel>, m: MLModel)
    requires m.version.Some? && AllOlder(models, |models|, m)
    ensures IsMaximal(models, m)
  {
  }

  lemma {:induction false} NotNewerThanItself(m: MLModel)
    requires m.version.Some?
    ensures IsNewer(m.version, m.version) == 0
  {
    CompareIsAntisymmetric(m.version.value, m.version.value);
  }

  /** `max` finds the first of the maximal versions. */
  lemma {:induction false} LatestIsFirstMaximal(models: seq<MLModel>, ints: bool) returns (at: nat)
    requires models != [] && OfKind(models, ints)
    ensures at < |models| && models[at] == Latest(models) && IsMaximal(models, models[at])
    ensures AllOlder(models, at, models[at])
  {
    var n := |models| - 1;
    var last, init := models[n], models[..n];
    NotNewerThanItself(last);
    if n == 0 {
      at := 0;
      MaximalSnoc(models, last);
    } else {
      at := LatestIsFirstMaximal(init, ints);
      var best := init[at];
      if IsNewer(last.version, best.version) > 0 {
        NewerBeatsAll(init, ints, best, last);
        OlderIsMaximal(init, last);
        MaximalSnoc(models, last);
        OlderPrefix(models, n, n, last);
        at := n;
      } else {
        MaximalSnoc(models, best);
        OlderPrefix(models, n, at, best);
      }
    }
  }

  lemma {:induction false} OlderPrefix(models: seq<MLModel>, n: nat, k: nat, m: MLModel)
    requires k <= n <= |models| && AllOlder(models[..n], k, m)
    ensures AllOlder(models, k, m)
  {
    assert forall i :: 0 <= i < k ==> models[i] == models[..n][i];
  }

  lemma {:induction false} ValuesOfKind(r: Reg, ints: bool)
    requires Filed(r.versions) && OfOneKind(r, ints)
    ensures OfKind(Values(r.versions), ints)
  {
  }

  predicate VersionOfKind(version: Version, ints: bool) {
    Truthy(version) ==> ParseInt(version.value).Some? == ints
  }

  /** The stored versions and that of the cached default. */
  predicate OfOneKind(r: Reg, ints: bool) {
    && (forall i :: 0 <= i < |r.versions| ==> ParseInt(r.versions[i].key).Some? == ints)
    && (r.default.Some? ==> VersionOfKind(r.default.value.version, ints))
  }

  // ---------- The incremental default ----------

  /** The cached default is a maximal version, or unversioned, or not known at the moment. */
  predicate DefaultIsMaximal(r: Reg) {
    r.default.Some? && r.default.value.version.Some? ==>
      if Truthy(r.default.value.version) then IsMaximal(Values(r.versions), r.default.value) else r.versions == []
  }

  /** The cache is empty although there are versions. */
  predicate Blind(r: Reg) {
    r.default.None? && r.versions != []
  }

  lemma {:induction false} ReadIsMaximal(r: Reg, ints: bool)
    requires Settled(r) && OfOneKind(r, ints) && DefaultIsMaximal(r)
    ensures DefaultIsMaximal(ReadDefault(r)) && !Blind(ReadDefault(r)) && OfOneKind(ReadDefault(r), ints)
  {
    if Blind(r) {
      ValuesOfKind(r, ints);
      var at := LatestIsFirstMaximal(Values(r.versions), ints);
      assert Stored(r.versions, Values(r.versions)[at]) by { FiledAt(r.versions, at); }
    }
  }

  lemma {:induction false} PutModelIsMaximal(versions: Versions, m: MLModel)
    requires Filed(versions) && Truthy(m.version)
    ensures IsMaximal(Values(Put(versions, m.version.value, m)), m) <==> IsMaximal(Values(versions), m)
  {
    var before, after := Values(versions), Values(Put(versions, m.version.value, m));
    var at, v := Find(versions, m.version.value), m.version.value;
    CompareIsAntisymmetric(v, v);
    assert after == if at < |before| then before[at := m] else before + [m];
    assert at < |before| ==> before[at].version == m.version;
    assert forall i :: 0 <= i < |before| && i != at ==> after[i] == before[i];
    assert after[at] == m;
  }

  lemma {:induction false} BeatsDefaultIsMaximal(r: Reg, m: MLModel, ints: bool)
    requires Settled(r) && OfOneKind(r, ints) && DefaultIsMaximal(r)
    requires Truthy(m.version) && ParseInt(m.version.value).Some? == ints
    requires r.default.Some? && Truthy(r.default.value.version) && IsNewer(m.version, r.default.value.version) >= 0
    ensures IsMaximal(Values(r.versions), m)
  {
    var models, d, v := Values(r.versions), r.default.value.version.value, m.version.value;
    CompareIsAntisymmetric(v, d);
    forall i | 0 <= i < |models| ensures IsNewer(models[i].version, m.version) <= 0 {
      CompareIsTransitive(models[i].version.value, d, v);
    }
  }

  /** Registering a version keeps the default maximal exactly when the cache is filled or no other
      version that is stored is newer: with an empty cache any new model is taken. */
  lemma {:induction false} RegisterKeepsMaximalExactly(r: Reg, m: MLModel, ints: bool)
    requires Settled(r) && OfOneKind(r, ints) && DefaultIsMaximal(r)
    requires Truthy(m.version) && ParseInt(m.version.value).Some? == ints
    ensures DefaultIsMaximal(Register(r, m))
        <==> r.default.Some? || IsMaximal(Values(r.versions), m)
  {
    PutModelIsMaximal(r.versions, m);
    if r.default.Some? && Truthy(r.default.value.version) {
      if IsNewer(m.version, r.default.value.version) >= 0 {
        BeatsDefaultIsMaximal(r, m, ints);
      } else {
        OlderThanDefaultKeepsMaximal(r, m);
      }
    }
  }

  lemma {:induction false} OlderThanDefaultKeepsMaximal(r: Reg, m: MLModel)
    requires Filed(r.versions) && DefaultIsMaximal(r) && Truthy(m.version)
    requires r.default.Some? && Truthy(r.default.value.version) && IsNewer(m.version, r.default.value.version) < 0
    ensures IsMaximal(Values(Put(r.versions, m.version.value, m)), r.default.value)
  {
    var before, after := Values(r.versions), Values(Put(r.versions, m.version.value, m));
    var at := Find(r.versions, m.version.value);
    assert forall i :: 0 <= i < |after| ==> after[i] == if i == at then m else before[i];
  }

  /** A maximal default that is stored and the recomputed one tie. */
  lemma {:induction false} CachedDefaultTiesWithRecomputed(r: Reg, ints: bool)
    requires Settled(r) && OfOneKind(r, ints) && DefaultIsMaximal(r)
    requires r.default.Some? && Truthy(r.default.value.version) && !Stale(r)
    ensures FindDefault(ClearDefault(r)).Some?
    ensures IsNewer(r.default.value.version, FindDefault(ClearDefault(r)).value.version) == 0
  {
    ValuesOfKind(r, ints);
    var models, d := Values(r.versions), r.default.value;
    var at := LatestIsFirstMaximal(models, ints);
    var i := Find(r.versions, d.version.value);
    assert models[i] == d;
    CompareIsAntisymmetric(d.version.value, models[at].version.value);
  }

  // ---------- Runs ----------

  lemma {:induction false} RegisterUnnamedKeepsMaximal(r: Reg, m: MLModel)
    requires DefaultIsMaximal(r) && !Blind(r) && !Truthy(m.version)
    ensures DefaultIsMaximal(Register(r, m)) && Register(r, m).versions == r.versions
  {
    if m.version.Some? && r.default.Some? && Truthy(r.default.value.version) {
      EmptyStringIsOldest(r.default.value.version.value);
    }
  }

  lemma {:induction false} RegisterKeepsMaximal(r: Reg, m: MLModel, ints: bool)
    requires Settled(r) && OfOneKind(r, ints) && DefaultIsMaximal(r)
    requires !Blind(r) && VersionOfKind(m.version, ints)
    ensures OfOneKind(Register(r, m), ints) && DefaultIsMaximal(Register(r, m))
    ensures Register(r, m).default.Some?
  {
    if Truthy(m.version) { RegisterKeepsMaximalExactly(r, m, ints); } else { RegisterUnnamedKeepsMaximal(r, m); }
  }

  lemma {:induction false} ClearIfDefaultKeepsMaximal(r: Reg, m: MLModel, ints: bool)
    requires Settled(r) && OfOneKind(r, ints) && DefaultIsMaximal(r)
    ensures DefaultIsMaximal(ClearIfDefault(r, m)) && OfOneKind(ClearIfDefault(r, m), ints)
  {
    ReadIsMaximal(r, ints);
  }

  lemma {:induction false} RemovalKeepsMaximal(r: Reg, key: string, ints: bool)
    requires Filed(r.versions) && Has(r.versions, key) && OfOneKind(r, ints) && DefaultIsMaximal(r)
    ensures var rest := r.(versions := Remove(r.versions, key)); OfOneKind(rest, ints) && DefaultIsMaximal(rest)
  {
    var at, rest := Find(r.versions, key), Remove(r.versions, key);
    assert forall i :: 0 <= i < |rest| ==> rest[i] == r.versions[if i < at then i else i + 1];
    assert forall i :: 0 <= i < |rest| ==> Values(rest)[i] == Values(r.versions)[if i < at then i else i + 1];
  }

  lemma {:induction false} DropKeepsMaximal(r: Reg, m: MLModel, ints: bool)
    requires Settled(r) && OfOneKind(r, ints) && DefaultIsMaximal(r)
    ensures OfOneKind(Drop(r, m), ints) && DefaultIsMaximal(Drop(r, m))
  {
    if !KeyMissing(r, m) {
      if Truthy(m.version) {
        RemovalKeepsMaximal(r, m.version.value, ints);
        RemovalSettles(r, m.version.value);
        ClearIfDefaultKeepsMaximal(r.(versions := Remove(r.versions, m.version.value)), m, ints);
      } else {
        ClearIfDefaultKeepsMaximal(r, m, ints);
      }
    }
  }

  lemma {:induction false} LoadModelKeepsMaximal(r: Reg, m: MLModel, hooked: MLModel, end: LoadEnd, ints: bool)
    requires Settled(r) && OfOneKind(r, ints) && DefaultIsMaximal(r) && !Blind(r)
    requires VersionOfKind(m.version, ints) && hooked.version == m.version
    ensures OfOneKind(LoadModel(r, m, hooked, end), ints)
    ensures DefaultIsMaximal(LoadModel(r, m, hooked, end))
  {
    RegisterSettles(r, m);
    RegisterKeepsMaximal(r, m, ints);
    if end.HookRaised? {
      DropKeepsMaximal(Register(r, m), hooked, ints);
    } else {
      RegisterSettles(Register(r, m), hooked);
      RegisterKeepsMaximal(Register(r, m), hooked, ints);
      if end.LoadRaised? { DropKeepsMaximal(Register(Register(r, m), hooked), hooked, ints); }
    }
  }

  /** The event does not load a version while the cache is empty and versions are stored. */
  predicate Guarded(r: Reg, e: Event, ints: bool) {
    e.LoadEvent? ==> VersionOfKind(e.m.version, ints) && (Truthy(e.m.version) ==> !Blind(r))
  }

  lemma {:induction false} StepKeepsMaximal(r: Reg, e: Event, ints: bool)
    requires Settled(r) && OfOneKind(r, ints) && DefaultIsMaximal(r)
    requires Enabled(e) && Guarded(r, e, ints)
    ensures OfOneKind(Step(r, e), ints) && DefaultIsMaximal(Step(r, e))
  {
    ReadIsMaximal(r, ints);
    ReadSettles(r);
    match e
    case LoadEvent(m, hooked, end) =>
      if FindModel(r, m.version).None? {
        LoadModelKeepsMaximal(Touch(r, m.version), m, hooked, end, ints);
      } else if end.Loaded? {
        RegisterSettles(Touch(r, m.version), hooked);
        RegisterKeepsMaximal(Touch(r, m.version), hooked, ints);
        ClearIfDefaultKeepsMaximal(Register(Touch(r, m.version), hooked), FindModel(r, m.version).value, ints);
      }
    case UnloadVersionEvent(version) =>
      if FindModel(r, version).Some? { DropKeepsMaximal(Touch(r, version), FindModel(r, version).value, ints); }
    case _ =>
  }

  predicate GuardedRun(events: seq<Event>, ints: bool) {
    events != [] ==>
      var before, e := events[..|events| - 1], events[|events| - 1];
      GuardedRun(before, ints) && Guarded(After(before), e, ints)
  }

  lemma {:induction false} GuardedRunsKeepMaximal(events: seq<Event>, ints: bool)
    requires GuardedRun(events, ints)
    ensures OfOneKind(After(events), ints) && DefaultIsMaximal(After(events))
  {
    if events != [] {
      var before, e := events[..|events| - 1], events[|events| - 1];
      GuardedRunsKeepMaximal(before, ints);
      EveryRunIsSettled(before);
      if Enabled(e) { StepKeepsMaximal(After(before), e, ints); }
    }
  }

  /** The incremental default refines recomputation: in every run over versions of one kind that reads
      the default, once cleared, before the next versioned load, the default that a lookup without a
      version finds is unversioned or a maximal version, and ties with the recomputed one unless it is
      stale. */
  lemma {:induction false} IncrementalDefaultRefinesRecomputed(events: seq<Event>, ints: bool)
    requires GuardedRun(events, ints)
    ensures var r, found := After(events), FindModel(After(events), None);
            && (found.None? ==> r.versions == [])
            && (found.Some? && Truthy(found.value.version) ==>
                  && IsMaximal(Values(r.versions), found.value)
                  && (!Stale(r) ==>
                        && FindDefault(ClearDefault(r)).Some?
                        && IsNewer(found.value.version, FindDefault(ClearDefault(r)).value.version) == 0))
  {
    var r := After(events);
    EveryRunIsSettled(events);
    GuardedRunsKeepMaximal(events, ints);
    ReadIsMaximal(r, ints);
    ReadSettles(r);
    var read := ReadDefault(r);
    if read.default.Some? && Truthy(read.default.value.version) && !Stale(r) {
      CachedDefaultTiesWithRecomputed(read, ints);
    }
  }

  lemma {:induction false} RegisterKeepsUnversioned(r: Reg, m: MLModel)
    requires r.default.Some? && r.default.value.version.None? && Truthy(m.version)
    ensures Register(r, m).default == r.default
  {
  }

  lemma {:induction false} DropKeepsUnversioned(r: Reg, m: MLModel)
    requires r.default.Some? && r.default.value.version.None? && Truthy(m.version)
    ensures Drop(r, m).default == r.default && ClearIfDefault(r, m).default == r.default
  {
  }

  /** A default without a version stays until it is replaced or unloaded itself, which no operation on
      a named version does. */
  lemma {:induction false} UnversionedDefaultStays(r: Reg, e: Event)
    requires Coherent(r) && Enabled(e) && r.default.Some? && r.default.value.version.None?
    requires e.LoadEvent? ==> Truthy(e.m.version)
    requires e.UnloadVersionEvent? ==> Truthy(e.version)
    requires !e.UnloadEvent?
    ensures Step(r, e).default == r.default
  {
    match e
    case LoadEvent(m, hooked, end) =>
      FoundIsStored(r, m.version);
      RegisterKeepsUnversioned(r, m);
      RegisterKeepsUnversioned(r, hooked);
      RegisterKeepsUnversioned(Register(r, m), hooked);
      if FindModel(r, m.version).Some? {
        DropKeepsUnversioned(Register(r, hooked), FindModel(r, m.version).value);
      } else {
        DropKeepsUnversioned(Register(r, m), hooked);
        DropKeepsUnversioned(Register(Register(r, m), hooked), hooked);
      }
    case UnloadVersionEvent(version) =>
      FoundIsStored(r, version);
      if FindModel(r, version).Some? { DropKeepsUnversioned(r, FindModel(r, version).value); }
    case _ =>
  }

  // ---------- Failing loads, and what goes wrong ----------

  lemma {:induction false} RegisteredThenDropped(r: Reg, m: MLModel, hooked: MLModel)
    requires FindModel(r, m.version).None? && hooked.version == m.version
    ensures Drop(Register(r, m), hooked).versions == r.versions
    ensures Drop(Register(Register(r, m), hooked), hooked).versions == r.versions
  {
    if Truthy(m.version) { PutThenRemove(r.versions, m.version.value, m, hooked); }
  }

  /** A first load that raises leaves the stored versions as they were. */
  lemma {:induction false} FailedLoadLeavesVersions(r: Reg, m: MLModel, hooked: MLModel, end: LoadEnd)
    requires FindModel(r, m.version).None? && hooked.version == m.version && !end.Loaded?
    ensures Load(r, m, hooked, end).versions == r.versions
  {
    RegisteredThenDropped(Touch(r, m.version), m, hooked);
  }

  /** A lookup finds the model under some version, or as the default. */
  ghost predicate IsFound(r: Reg, m: MLModel) {
    exists version :: FindModel(r, version) == Some(m)
  }

  lemma {:induction false} FoundExactly(r: Reg, m: MLModel)
    requires Filed(r.versions)
    ensures IsFound(r, m) <==> FindDefault(r) == Some(m) || Stored(r.versions, m)
  {
    if FindDefault(r) == Some(m) { assert FindModel(r, None) == Some(m); }
    if Stored(r.versions, m) { assert FindModel(r, m.version) == Some(m); }
    if IsFound(r, m) {
      var version :| FindModel(r, version) == Some(m);
      if Truthy(version) { FiledAt(r.versions, Find(r.versions, version.value)); }
    }
  }

  /** The default after a first load that raises. */
  function DefaultLeft(r: Reg, m: MLModel, hooked: MLModel, end: LoadEnd): Option<MLModel> {
    if !TakesDefault(r, m) then r.default
    else if end.HookRaised? && hooked != m then Some(m)
    else None
  }

  lemma {:induction false} RegisterTakesDefault(r: Reg, m: MLModel)
    requires m.version.Some? || r.default.None?
    ensures Register(r, m).default == if TakesDefault(r, m) then Some(m) else r.default
    ensures Register(r, m).default.Some?
  {
  }

  lemma {:induction false} RegisterAgainTakesDefault(r: Reg, m: MLModel, hooked: MLModel)
    requires hooked.version == m.version && (m.version.Some? || r.default.None?)
    ensures Register(Register(r, m), hooked).default == if TakesDefault(r, m) then Some(hooked) else r.default
    ensures Register(Register(r, m), hooked).default.Some?
  {
    RegisterTakesDefault(r, m);
    if m.version.Some? {
      RegisterTakesDefault(Register(r, m), hooked);
      CompareIsAntisymmetric(m.version.value, m.version.value);
    }
  }

  lemma {:induction false} DropClearsDefault(r: Reg, m: MLModel)
    requires !KeyMissing(r, m) && r.default.Some?
    ensures Drop(r, m).default == if r.default == Some(m) then None else r.default
  {
  }

  lemma {:induction false} FailedDefault(r: Reg, m: MLModel, hooked: MLModel, end: LoadEnd)
    requires FindModel(r, m.version).None? && hooked.version == m.version && !end.Loaded?
    requires r.default != Some(m) && r.default != Some(hooked)
    ensures Load(r, m, hooked, end).default == DefaultLeft(r, m, hooked, end)
  {
    RegisterTakesDefault(r, m);
    RegisterAgainTakesDefault(r, m, hooked);
    assert Touch(r, m.version) == r;
    DropClearsDefault(if end.HookRaised? then Register(r, m) else Register(Register(r, m), hooked), hooked);
  }

  lemma {:induction false} LeftIsFound(r: Reg, t: Reg, m: MLModel, hooked: MLModel, end: LoadEnd)
    requires Filed(r.versions) && FindModel(r, m.version).None? && hooked.version == m.version
    requires r.default != Some(m) && r.default != Some(hooked)
    requires t.versions == r.versions && t.default == DefaultLeft(r, m, hooked, end)
    ensures !Stored(t.versions, m) && !Stored(t.versions, hooked)
    ensures FindDefault(t) == Some(m) <==> end.HookRaised? && hooked != m && TakesDefault(r, m)
    ensures hooked != m ==> FindDefault(t) != Some(hooked)
  {
    if r.versions != [] { LatestIsStored(r); }
  }

  /** What is left of a first load that raises: the model that was made from the settings is still found
      exactly when a hook raises after an earlier one has replaced it, and it had become the default; it is
      listed, too, if it has no version. What a hook has made of it is not found. */
  lemma {:induction false} FailedLoadLeavesModelExactly(r: Reg, m: MLModel, hooked: MLModel, end: LoadEnd)
    requires Settled(r) && FindModel(r, m.version).None? && hooked.version == m.version && !end.Loaded?
    requires r.default != Some(m) && r.default != Some(hooked)
    ensures var t := Load(r, m, hooked, end);
            && (IsFound(t, m) <==> end.HookRaised? && hooked != m && TakesDefault(r, m))
            && (m in AllModels(t) <==> IsFound(t, m) && !Truthy(m.version))
            && (hooked != m ==> !IsFound(t, hooked))
  {
    var t := Load(r, m, hooked, end);
    FailedLoadLeavesVersions(r, m, hooked, end);
    FailedDefault(r, m, hooked, end);
    LeftIsFound(r, t, m, hooked, end);
    FoundExactly(t, m);
    FoundExactly(t, hooked);
    ListedExactly(t, m);
  }

  lemma {:induction false} ListedExactly(r: Reg, m: MLModel)
    requires Filed(r.versions) && !Stored(r.versions, m)
    ensures m in AllModels(r) <==> FindDefault(r) == Some(m) && !Truthy(m.version)
  {
    forall i: nat | i < |r.versions| ensures Values(r.versions)[i] != m { FiledAt(r.versions, i); }
    var default := FindDefault(r);
    if default.Some? && !Truthy(default.value.version) {
      assert AllModels(r) == Values(r.versions) + [default.value];
    } else {
      assert AllModels(r) == Values(r.versions);
    }
  }

  lemma {:induction false} LatestIsStored(r: Reg)
    requires Filed(r.versions) && r.versions != []
    ensures Stored(r.versions, Latest(Values(r.versions)))
  {
    var i :| 0 <= i < |r.versions| && Values(r.versions)[i] == Latest(Values(r.versions));
    FiledAt(r.versions, i);
  }

  lemma {:induction false} PutThenRemove(versions: Versions, key: string, first: MLModel, second: MLModel)
    requires !Has(versions, key)
    ensures Remove(Put(versions, key, first), key) == versions
    ensures Remove(Put(Put(versions, key, first), key, second), key) == versions
  {
    var once, twice := Put(versions, key, first), Put(Put(versions, key, first), key, second);
    assert once == versions + [Entry(key, first)] && twice == versions + [Entry(key, second)];
    assert Find(once, key) == Find(twice, key) == |versions|;
  }

  /** Loading a model without a version while the default has one takes the default as the model to
      replace: the new model becomes the default, and the old version stays listed, to be retired. */
  lemma {:induction false} UnversionedLoadReplacesVersionedDefault(r: Reg, m: MLModel, hooked: MLModel, ready: bool)
    requires Coherent(r) && m.version.None? && hooked.version.None?
    requires FindModel(r, None).Some? && Truthy(FindModel(r, None).value.version)
    ensures var replaced, after := FindModel(r, None).value, Load(r, m, hooked, Loaded(ready));
            && after.default == Some(hooked) && after.versions == r.versions
            && Stored(after.versions, replaced)
  {
    FoundIsStored(r, None);
  }
}
