/** mlserver/handlers/model_repository.py:62-80: loading every version a repository lists for a model,
    and then unloading the versions it does not list. */
module RepositorySync {
  import opened OrderedDict
  import opened ModelVersions
  import opened Registry
  import opened RegistryDefaults

  const NO_VERSION_KEY := "__no_version__"

  /** A listed version: the model made from its settings, what the hooks made of that, and how loading
      ends. */
  datatype Listing = Listing(m: MLModel, hooked: MLModel, end: LoadEnd)

  function KeyOf(version: Version): string {
    if Truthy(version) then version.value else NO_VERSION_KEY
  }

  // ---------- The pass ----------

  function LoadAll(r: Reg, listed: seq<Listing>): Reg {
    if listed == [] then r
    else
      var last := listed[|listed| - 1];
      Load(LoadAll(r, listed[..|listed| - 1]), last.m, last.hooked, last.end)
  }

  function ListedKeys(listed: seq<Listing>): set<string> {
    if listed == [] then {}
    else ListedKeys(listed[..|listed| - 1]) + {KeyOf(listed[|listed| - 1].m.version)}
  }

  function DropStale(r: Reg, models: seq<MLModel>, keep: set<string>): Reg {
    if models == [] then r
    else
      var last := models[|models| - 1];
      var before := DropStale(r, models[..|models| - 1], keep);
      if KeyOf(last.version) in keep then before else UnloadVersion(before, last.version)
  }

  function Sync(r: Reg, listed: seq<Listing>): Reg {
    var loaded := LoadAll(r, listed);
    DropStale(ReadDefault(loaded), AllModels(loaded), ListedKeys(listed))
  }

  predicate Unversioned(r: Reg) {
    FindDefault(r).Some? && !Truthy(FindDefault(r).value.version)
  }

  /** The version keys the registry holds for the model. */
  ghost predicate Holds(r: Reg, key: string) {
    (key != "" && Has(r.versions, key)) || (key == NO_VERSION_KEY && Unversioned(r))
  }

  /** Hooks keep the settings. */
  predicate KeepSettings(listed: seq<Listing>) {
    forall i :: 0 <= i < |listed| ==> listed[i].hooked.version == listed[i].m.version
  }

  predicate AllLoad(listed: seq<Listing>) {
    forall i :: 0 <= i < |listed| ==> listed[i].end.Loaded?
  }

  // ---------- Named versions ----------

  predicate ListsVersion(listed: seq<Listing>, key: string) {
    listed != [] &&
    (listed[|listed| - 1].m.version == Some(key) || ListsVersion(listed[..|listed| - 1], key))
  }

  /** Some listed model has no version, or an empty one. */
  predicate ListsUnversioned(listed: seq<Listing>) {
    listed != [] && (!Truthy(listed[|listed| - 1].m.version) || ListsUnversioned(listed[..|listed| - 1]))
  }

  lemma {:induction false} RegisterKeys(r: Reg, m: MLModel, key: string)
    requires key != ""
    ensures Has(Register(r, m).versions, key) <==> Has(r.versions, key) || m.version == Some(key)
  {
    if Truthy(m.version) { PutGets(r.versions, m.version.value, m, key); }
  }

  lemma {:induction false} LoadKeys(r: Reg, l: Listing, key: string)
    requires l.end.Loaded? && l.hooked.version == l.m.version && key != ""
    ensures Has(Load(r, l.m, l.hooked, l.end).versions, key)
        <==> Has(r.versions, key) || l.m.version == Some(key)
  {
    var read := Touch(r, l.m.version);
    if FindModel(r, l.m.version).Some? {
      RegisterKeys(read, l.hooked, key);
    } else {
      RegisterKeys(read, l.m, key);
      RegisterKeys(Register(read, l.m), l.hooked, key);
    }
  }

  lemma {:induction false} LoadAllSettles(r: Reg, listed: seq<Listing>)
    requires Settled(r)
    ensures Settled(LoadAll(r, listed))
  {
    if listed != [] {
      var init, last := listed[..|listed| - 1], listed[|listed| - 1];
      LoadAllSettles(r, init);
      LoadSettles(LoadAll(r, init), last.m, last.hooked, last.end);
    }
  }

  lemma {:induction false} LoadAllKeys(r: Reg, listed: seq<Listing>, key: string)
    requires KeepSettings(listed) && AllLoad(listed) && key != ""
    ensures Has(LoadAll(r, listed).versions, key) <==> Has(r.versions, key) || ListsVersion(listed, key)
  {
    if listed != [] {
      var init, last := listed[..|listed| - 1], listed[|listed| - 1];
      LoadAllKeys(r, init, key);
      LoadKeys(LoadAll(r, init), last, key);
    }
  }

  /** A pass ends where a load raises. It has loaded the versions listed before, and lost none. */
  lemma {:induction false} RaisingPassKeys(r: Reg, listed: seq<Listing>, failing: Listing, key: string)
    requires KeepSettings(listed) && AllLoad(listed) && key != ""
    requires failing.hooked.version == failing.m.version && !failing.end.Loaded?
    ensures Has(LoadAll(r, listed + [failing]).versions, key) <==> Has(r.versions, key) || ListsVersion(listed, key)
  {
    assert (listed + [failing])[..|listed|] == listed;
    var before := LoadAll(r, listed);
    LoadAllKeys(r, listed, key);
    if FindModel(before, failing.m.version).None? {
      FailedLoadLeavesVersions(before, failing.m, failing.hooked, failing.end);
    }
  }

  lemma {:induction false} ListedKeysAre(listed: seq<Listing>, key: string)
    requires key != ""
    ensures key in ListedKeys(listed)
        <==> ListsVersion(listed, key) || (key == NO_VERSION_KEY && ListsUnversioned(listed))
  {
    if listed != [] { ListedKeysAre(listed[..|listed| - 1], key); }
  }

  // ---------- The default ----------

  /** What a lookup without a version finds. */
  datatype DefaultKind = NoDefault | Named | EmptyString | NoVersion

  function KindOf(r: Reg): DefaultKind {
    match FindDefault(r)
    case None => NoDefault
    case Some(m) => if m.version.None? then NoVersion else if m.version == Some("") then EmptyString else Named
  }

  /** For every listed model, whether its hooks return the very object that is the default by then. */
  function Reused(r: Reg, listed: seq<Listing>): (flags: seq<bool>)
    ensures |flags| == |listed|
  {
    if listed == [] then []
    else
      var init, last := listed[..|listed| - 1], listed[|listed| - 1];
      Reused(r, init) + [FindDefault(LoadAll(r, init)) == Some(last.hooked)]
  }

  /** What a successful load makes of it; `stored` says whether any named version is stored, and `reused`
      whether the hooks return the default itself, which is cleared as the one replaced. */
  function NextKind(kind: DefaultKind, stored: bool, version: Version, reused: bool): DefaultKind {
    if Truthy(version) then (if kind.NoVersion? then NoVersion else Named)
    else if reused then (if stored then Named else NoDefault)
    else if version.None? then NoVersion
    else
      match kind
      case NoDefault => EmptyString
      case EmptyString => EmptyString
      case _ => if stored then Named else NoDefault
  }

  function KindAfter(kind: DefaultKind, stored: bool, versions: seq<Version>, reused: seq<bool>): DefaultKind
    requires |reused| == |versions|
  {
    if versions == [] then kind
    else
      var n := |versions| - 1;
      NextKind(KindAfter(kind, stored, versions[..n], reused[..n]), stored || AnyNamed(versions[..n]),
               versions[n], reused[n])
  }

  /** The kind of the default after all loads. */
  function LastKind(r: Reg, listed: seq<Listing>): DefaultKind {
    KindAfter(KindOf(r), r.versions != [], VersionsOf(listed), Reused(r, listed))
  }

  predicate AnyNamed(versions: seq<Version>) {
    versions != [] && (Truthy(versions[|versions| - 1]) || AnyNamed(versions[..|versions| - 1]))
  }

  lemma {:induction false} LatestIsNamed(r: Reg)
    requires Settled(r) && r.versions != []
    ensures Truthy(Latest(Values(r.versions)).version)
  {
    var m := Latest(Values(r.versions));
    var i :| 0 <= i < |r.versions| && Values(r.versions)[i] == m;
  }

  /** Without a cached default, the default is the latest of the stored versions, which has a name. */
  lemma {:induction false} KindIs(r: Reg)
    requires Settled(r)
    ensures r.default.None? ==> KindOf(r) == if r.versions == [] then NoDefault else Named
    ensures KindOf(r).NoVersion? || KindOf(r).EmptyString? ==> r.default.Some? && r.default == FindDefault(r)
  {
    if r.versions != [] { LatestIsNamed(r); }
  }

  lemma {:induction false} RegisterNamedKind(r: Reg, m: MLModel)
    requires Settled(r) && Truthy(m.version)
    ensures Register(r, m).default.Some? && Register(r, m).versions != []
    ensures KindOf(Register(r, m)) == if KindOf(r).NoVersion? then NoVersion else Named
    ensures KindOf(r).NoVersion? ==> Register(r, m).default == r.default
  {
    KindIs(r);
    EmptyStringIsOldest(m.version.value);
  }

  lemma {:induction false} ClearKind(r: Reg, m: MLModel)
    requires Settled(r) && r.default.Some?
    ensures r.default != Some(m) ==> KindOf(ClearIfDefault(r, m)) == KindOf(r)
    ensures r.default == Some(m) ==> KindOf(ClearIfDefault(r, m)) == if r.versions == [] then NoDefault else Named
  {
    KindIs(ClearDefault(r));
  }

  lemma {:induction false} LoadNamedKind(r: Reg, l: Listing)
    requires l.end.Loaded? && Settled(r) && l.hooked.version == l.m.version && Truthy(l.m.version)
    ensures KindOf(Load(r, l.m, l.hooked, l.end)) == if KindOf(r).NoVersion? then NoVersion else Named
  {
    var previous := FindModel(r, l.m.version);
    if previous.None? {
      RegisterNamedKind(r, l.m);
      RegisterSettles(r, l.m);
      RegisterNamedKind(Register(r, l.m), l.hooked);
    } else {
      FiledAt(r.versions, Find(r.versions, l.m.version.value));
      RegisterNamedKind(r, l.hooked);
      RegisterSettles(r, l.hooked);
      ClearKind(Register(r, l.hooked), previous.value);
      KindIs(r);
    }
  }

  lemma {:induction false} LoadReusedKind(r: Reg, l: Listing)
    requires l.end.Loaded? && Settled(r) && l.hooked.version == l.m.version && !Truthy(l.m.version)
    requires FindDefault(r) == Some(l.hooked)
    ensures KindOf(Load(r, l.m, l.hooked, l.end)) == if r.versions != [] then Named else NoDefault
  {
    var read := ReadDefault(r);
    ReadSettles(r);
    CompareIsAntisymmetric("", "");
    assert Register(read, l.hooked) == read;
    ClearKind(read, l.hooked);
  }

  lemma {:induction false} LoadNoVersionKind(r: Reg, l: Listing)
    requires l.end.Loaded? && Settled(r) && l.m.version.None? && l.hooked.version.None?
    requires FindDefault(r) != Some(l.hooked)
    ensures KindOf(Load(r, l.m, l.hooked, l.end)) == NoVersion
  {
  }

  lemma {:induction false} LoadEmptyStringKind(r: Reg, l: Listing)
    requires l.end.Loaded? && Settled(r) && l.m.version == Some("") && l.hooked.version == Some("")
    requires FindDefault(r) != Some(l.hooked)
    ensures KindOf(Load(r, l.m, l.hooked, l.end)) == NextKind(KindOf(r), r.versions != [], Some(""), false)
  {
    KindIs(r);
    CompareIsAntisymmetric("", "");
    var previous := FindDefault(r);
    if previous.Some? {
      var read := ReadDefault(r);
      ReadSettles(r);
      if Truthy(previous.value.version) { EmptyStringIsOldest(previous.value.version.value); }
      RegisterSettles(read, l.hooked);
      ClearKind(Register(read, l.hooked), previous.value);
    }
  }

  lemma {:induction false} LoadKind(r: Reg, l: Listing)
    requires l.end.Loaded? && Settled(r) && l.hooked.version == l.m.version
    ensures KindOf(Load(r, l.m, l.hooked, l.end))
         == NextKind(KindOf(r), r.versions != [], l.m.version, FindDefault(r) == Some(l.hooked))
  {
    if Truthy(l.m.version) {
      LoadNamedKind(r, l);
    } else if FindDefault(r) == Some(l.hooked) {
      LoadReusedKind(r, l);
    } else if l.m.version.None? {
      LoadNoVersionKind(r, l);
    } else {
      LoadEmptyStringKind(r, l);
    }
  }

  lemma {:induction false} LoadAllKind(r: Reg, listed: seq<Listing>)
    requires Settled(r) && KeepSettings(listed) && AllLoad(listed)
    ensures KindOf(LoadAll(r, listed)) == LastKind(r, listed)
  {
    if listed != [] {
      var n := |listed| - 1;
      LoadAllKind(r, listed[..n]);
      LoadAllSettles(r, listed[..n]);
      LoadKind(LoadAll(r, listed[..n]), listed[n]);
      assert VersionsOf(listed)[..n] == VersionsOf(listed[..n]);
      assert Reused(r, listed)[..n] == Reused(r, listed[..n]);
      NamesAreStored(r, listed[..n]);
    }
  }

  function VersionsOf(listed: seq<Listing>): seq<Version> {
    seq(|listed|, i requires 0 <= i < |listed| => listed[i].m.version)
  }

  lemma {:induction false} NamesAreStored(r: Reg, listed: seq<Listing>)
    requires KeepSettings(listed) && AllLoad(listed)
    ensures LoadAll(r, listed).versions != [] <==> r.versions != [] || AnyNamed(VersionsOf(listed))
  {
    if listed != [] {
      var n := |listed| - 1;
      NamesAreStored(r, listed[..n]);
      LoadStores(LoadAll(r, listed[..n]), listed[n]);
      assert VersionsOf(listed)[..n] == VersionsOf(listed[..n]);
    }
  }

  lemma {:induction false} LoadStores(r: Reg, l: Listing)
    requires l.end.Loaded? && l.hooked.version == l.m.version
    ensures Load(r, l.m, l.hooked, l.end).versions != [] <==> r.versions != [] || Truthy(l.m.version)
  {
  }

  // ---------- Unloading what is stale ----------

  /** An unversioned default has not been touched, and there is none otherwise. */
  predicate SameUnversioned(r: Reg, after: Reg) {
    if Unversioned(r) then r.default.Some? && after.default == r.default else !Unversioned(after)
  }

  lemma {:induction false} UnloadNamed(r: Reg, m: MLModel)
    requires Settled(r) && Stored(r.versions, m)
    ensures var after := UnloadVersion(r, m.version);
            && Settled(after)
            && after.versions == Remove(r.versions, m.version.value)
            && SameUnversioned(r, after)
  {
    var rest := r.(versions := Remove(r.versions, m.version.value));
    DropSettles(r, m);
    RemoveFiles(r.versions, m.version.value);
    if rest.versions != [] {
      assert Filed(rest.versions);
      LatestIsNamed(Reg(rest.versions, None));
    }
    KindIs(r);
    assert UnloadVersion(r, m.version) == ClearIfDefault(rest, m);
  }

  /** Of the first `n` keys of the registry those that are to be kept are left, and all others. */
  ghost predicate KeptKeys(r: Reg, n: nat, keep: set<string>, left: Versions) {
    forall key :: Has(left, key) <==> Has(r.versions, key) && (Find(r.versions, key) < n ==> key in keep)
  }

  predicate RestStored(r: Reg, n: nat, left: Versions) {
    forall j :: n <= j < |r.versions| ==> Stored(left, r.versions[j].value)
  }

  lemma {:induction false} KeptStep(r: Reg, n: nat, keep: set<string>, left: Versions)
    requires Filed(r.versions) && n < |r.versions| && Filed(left) && KeptKeys(r, n, keep, left)
    requires Has(left, r.versions[n].key)
    ensures var key := r.versions[n].key;
            KeptKeys(r, n + 1, keep, if key in keep then left else Remove(left, key))
  {
    var key := r.versions[n].key;
    FindAt(r.versions, n);
    if key !in keep {
      RemoveFiles(left, key);
      forall other | other != key ensures Has(Remove(left, key), other) <==> Has(left, other) {
        RemoveOther(left, key, other);
      }
    }
  }

  lemma {:induction false} RestStep(r: Reg, n: nat, left: Versions)
    requires Filed(r.versions) && n < |r.versions| && Filed(left) && RestStored(r, n, left)
    ensures Has(left, r.versions[n].key) && RestStored(r, n + 1, Remove(left, r.versions[n].key))
  {
    assert Stored(left, r.versions[n].value);
    forall j: nat | n < j < |r.versions| ensures Stored(Remove(left, r.versions[n].key), r.versions[j].value) {
      RemoveOther(left, r.versions[n].key, r.versions[j].key);
    }
  }

  /** After the first `n` stored models were looked at: those among them that are not to be kept are
      gone, the others are still there, and an unversioned default has not been touched. */
  lemma {:induction false} DropNamed(r: Reg, n: nat, keep: set<string>)
    requires Settled(r) && n <= |r.versions|
    ensures var after := DropStale(r, Values(r.versions)[..n], keep);
            && Settled(after) && SameUnversioned(r, after)
            && KeptKeys(r, n, keep, after.versions) && RestStored(r, n, after.versions)
  {
    var models := Values(r.versions);
    if n == 0 {
      KindIs(r);
      forall j: nat | j < |r.versions| ensures Stored(r.versions, r.versions[j].value) { FiledAt(r.versions, j); }
    } else {
      DropNamed(r, n - 1, keep);
      assert models[..n][..n - 1] == models[..n - 1];
      DropOneNamed(r, n - 1, keep, DropStale(r, models[..n - 1], keep));
    }
  }

  lemma {:induction false} DropOneNamed(r: Reg, n: nat, keep: set<string>, before: Reg)
    requires Settled(r) && n < |r.versions| && Settled(before) && SameUnversioned(r, before)
    requires KeptKeys(r, n, keep, before.versions) && RestStored(r, n, before.versions)
    ensures var m := r.versions[n].value;
            var after := if KeyOf(m.version) in keep then before else UnloadVersion(before, m.version);
            && Settled(after) && SameUnversioned(r, after)
            && KeptKeys(r, n + 1, keep, after.versions) && RestStored(r, n + 1, after.versions)
  {
    RestStep(r, n, before.versions);
    KeptStep(r, n, keep, before.versions);
    if r.versions[n].key !in keep { UnloadNamed(before, r.versions[n].value); }
  }

  lemma {:induction false} DropUnversioned(r: Reg, version: Version)
    requires Settled(r) && !Truthy(version) && Unversioned(r)
    ensures UnloadVersion(r, version) == r.(default := None)
    ensures !Unversioned(r.(default := None))
  {
    KindIs(r);
    KindIs(ClearDefault(r));
  }

  /** After the pass, a key is held exactly when it was held after the loads and is listed. */
  lemma {:induction false} StaleAreDropped(r: Reg, keep: set<string>, key: string)
    requires Settled(r) && r.default == FindDefault(r) && key != ""
    ensures Holds(DropStale(r, AllModels(r), keep), key) <==> Holds(r, key) && key in keep
  {
    var n, models := |r.versions|, AllModels(r);
    DropNamed(r, n, keep);
    assert Values(r.versions)[..n] == Values(r.versions);
    var named := DropStale(r, Values(r.versions), keep);
    if Unversioned(r) {
      assert models[..n] == Values(r.versions) && models[n] == r.default.value && |models| == n + 1;
      if NO_VERSION_KEY !in keep { DropUnversioned(named, r.default.value.version); }
    } else {
      assert models == Values(r.versions);
    }
  }

  // ---------- The result ----------

  lemma {:induction false} HeldAfterSync(r: Reg, listed: seq<Listing>, key: string)
    requires Settled(r) && KeepSettings(listed) && AllLoad(listed) && key != ""
    ensures Holds(Sync(r, listed), key) <==> key in ListedKeys(listed) && Holds(LoadAll(r, listed), key)
  {
    var loaded := LoadAll(r, listed);
    LoadAllSettles(r, listed);
    ReadSettles(loaded);
    assert AllModels(loaded) == AllModels(ReadDefault(loaded));
    StaleAreDropped(ReadDefault(loaded), ListedKeys(listed), key);
  }

  /** Where an unversioned model has ended up: it is the default, or a version happens to be called
      like the key that stands for it. */
  predicate UnversionedSurvives(r: Reg, listed: seq<Listing>) {
    var kind := LastKind(r, listed);
    || kind.NoVersion? || kind.EmptyString?
    || Has(r.versions, "__no_version__") || ListsVersion(listed, "__no_version__")
  }

  lemma {:induction false} UnversionedExactly(r: Reg)
    requires Settled(r)
    ensures Unversioned(r) <==> KindOf(r).NoVersion? || KindOf(r).EmptyString?
  {
  }

  lemma {:induction false} HeldAfterLoads(r: Reg, listed: seq<Listing>)
    requires Settled(r) && KeepSettings(listed) && AllLoad(listed)
    ensures Holds(LoadAll(r, listed), NO_VERSION_KEY) <==> UnversionedSurvives(r, listed)
  {
    LoadAllKeys(r, listed, NO_VERSION_KEY);
    LoadAllSettles(r, listed);
    LoadAllKind(r, listed);
    UnversionedExactly(LoadAll(r, listed));
  }

  lemma {:induction false} HeldKeyExactly(r: Reg, listed: seq<Listing>, key: string)
    requires Settled(r) && KeepSettings(listed) && AllLoad(listed) && key != ""
    ensures Holds(Sync(r, listed), key)
        <==> key in ListedKeys(listed) && (key == NO_VERSION_KEY ==> UnversionedSurvives(r, listed))
  {
    HeldAfterSync(r, listed, key);
    if key == NO_VERSION_KEY {
      HeldAfterLoads(r, listed);
    } else {
      ListedKeysAre(listed, key);
      LoadAllKeys(r, listed, key);
    }
  }

  ghost predicate InSync(r: Reg, listed: seq<Listing>) {
    forall key :: key != "" ==> (Holds(Sync(r, listed), key) <==> key in ListedKeys(listed))
  }

  /** Repository sync, whatever was loaded before: after a pass whose loads succeed, the keys held are
      exactly the listed ones if and only if an unversioned model that is listed survives the loads. */
  lemma {:induction false} SyncHoldsListedKeysExactly(r: Reg, listed: seq<Listing>)
    requires Settled(r) && KeepSettings(listed) && AllLoad(listed)
    ensures InSync(r, listed) <==> (ListsUnversioned(listed) ==> UnversionedSurvives(r, listed))
    ensures forall key :: key != "" && Holds(Sync(r, listed), key) ==> key in ListedKeys(listed)
  {
    forall key | key != ""
      ensures Holds(Sync(r, listed), key)
          <==> key in ListedKeys(listed) && (key == NO_VERSION_KEY ==> UnversionedSurvives(r, listed))
    {
      HeldKeyExactly(r, listed, key);
    }
    ListedKeysAre(listed, NO_VERSION_KEY);
  }

  /** Some hook of a model without a name returns the object that is the default. */
  predicate ReusesDefault(r: Reg, listed: seq<Listing>) {
    exists i :: 0 <= i < |listed| && !Truthy(listed[i].m.version) && Reused(r, listed)[i]
  }

  lemma {:induction false} NoVersionStays(kind: DefaultKind, stored: bool, versions: seq<Version>, reused: seq<bool>)
    requires |reused| == |versions| && Some("") !in versions
    requires forall i :: 0 <= i < |versions| && !Truthy(versions[i]) ==> !reused[i]
    ensures None in versions ==> KindAfter(kind, stored, versions, reused) == NoVersion
  {
    if versions != [] {
      var n := |versions| - 1;
      assert versions == versions[..n] + [versions[n]];
      NoVersionStays(kind, stored, versions[..n], reused[..n]);
    }
  }

  lemma {:induction false} UnversionedMeansNone(listed: seq<Listing>)
    requires Some("") !in VersionsOf(listed)
    ensures ListsUnversioned(listed) ==> None in VersionsOf(listed)
  {
    if listed != [] {
      var n := |listed| - 1;
      assert VersionsOf(listed) == VersionsOf(listed[..n]) + [listed[n].m.version];
      UnversionedMeansNone(listed[..n]);
    }
  }

  /** In particular whenever no listed version is the empty string, and no hook reuses the default. */
  lemma {:induction false} SyncHoldsListedKeys(r: Reg, listed: seq<Listing>)
    requires Settled(r) && KeepSettings(listed) && AllLoad(listed)
    requires Some("") !in VersionsOf(listed) && !ReusesDefault(r, listed)
    ensures InSync(r, listed)
  {
    SyncHoldsListedKeysExactly(r, listed);
    UnversionedMeansNone(listed);
    NoVersionStays(KindOf(r), r.versions != [], VersionsOf(listed), Reused(r, listed));
  }

  /** An empty version that is listed before a named one is lost on the way. */
  lemma {:induction false} EmptyVersionIsLost(a: MLModel, b: MLModel)
    requires a.version == Some("") && b.version == Some("1")
    ensures !InSync(Empty(), [Listing(a, a, Loaded(true)), Listing(b, b, Loaded(true))])
  {
    var listed := [Listing(a, a, Loaded(true)), Listing(b, b, Loaded(true))];
    var reused := Reused(Empty(), listed);
    NothingToReuse(listed);
    assert VersionsOf(listed) == [Some(""), Some("1")] && reused == [false, reused[1]];
    NamedAfterEmpty(reused[1]);
    ListsOnly(listed);
    SyncHoldsListedKeysExactly(Empty(), listed);
  }

  lemma {:induction false} NothingToReuse(listed: seq<Listing>)
    requires |listed| == 2
    ensures !Reused(Empty(), listed)[0]
  {
    assert listed[..1][..0] == [];
    assert Reused(Empty(), listed[..1]) == [false];
  }

  lemma {:induction false} NamedAfterEmpty(again: bool)
    ensures KindAfter(NoDefault, false, [Some(""), Some("1")], [false, again]) == Named
  {
    KindSnoc(NoDefault, false, [], [], Some(""), false);
    KindSnoc(NoDefault, false, [Some("")], [false], Some("1"), again);
    assert [] + [Some("")] == [Some("")] && [] + [false] == [false];
    assert [Some("")] + [Some("1")] == [Some(""), Some("1")] && [false] + [again] == [false, again];
  }

  lemma {:induction false} ListsOnly(listed: seq<Listing>)
    requires |listed| == 2 && listed[0].m.version == Some("") && listed[1].m.version == Some("1")
    ensures ListsUnversioned(listed) && !ListsVersion(listed, NO_VERSION_KEY)
  {
    assert listed[..1][..0] == [] && listed[..1][0] == listed[0];
    assert ListsUnversioned(listed[..1]) && !ListsVersion(listed[..1], NO_VERSION_KEY);
  }

  lemma {:induction false} KindSnoc(kind: DefaultKind, stored: bool, versions: seq<Version>, reused: seq<bool>,
                                    version: Version, again: bool)
    requires |reused| == |versions|
    ensures KindAfter(kind, stored, versions + [version], reused + [again])
         == NextKind(KindAfter(kind, stored, versions, reused), stored || AnyNamed(versions), version, again)
  {
    assert (versions + [version])[..|versions|] == versions && (reused + [again])[..|reused|] == reused;
  }
}
