/** mlserver/parallel/dispatcher.py:148-158, 225-244 and mlserver/parallel/pool.py:137-191: what workers
    were told last about a model, what restarted workers are told again, and how failing updates and
    reloads change that. */
module PoolUpdates {
  import opened OrderedDict
  import opened AsyncResponding
  import opened PoolProtocol
  import opened PoolTurns

  // ---------- The last update under way ----------

  predicate For(task: UpdateTask, slot: Slot) {
    task.pid == slot.pid && task.settings.key == slot.key
  }

  /** The place of the last queued task for a worker and a model, or the length. */
  function LastAt(tasks: seq<UpdateTask>, slot: Slot): (k: nat)
    ensures k <= |tasks|
    ensures k < |tasks| ==> For(tasks[k], slot)
    ensures forall j :: k < j < |tasks| ==> !For(tasks[j], slot)
    ensures k == |tasks| ==> forall j :: 0 <= j < |tasks| ==> !For(tasks[j], slot)
  {
    if tasks == [] then 0
    else
      var n := |tasks| - 1;
      if For(tasks[n], slot) then n
      else
        var k := LastAt(tasks[..n], slot);
        assert forall j :: 0 <= j < n ==> tasks[j] == tasks[..n][j];
        if k == n then n + 1 else k
  }

  /** The last thing the worker was or will be told is to load these settings; if it is yet to be told,
      then by a replay. */
  ghost predicate ToldLoad(tasks: seq<UpdateTask>, last: map<Slot, Order>, slot: Slot, settings: Settings) {
    var k := LastAt(tasks, slot);
    if k < |tasks| then tasks[k] == ReplayOf(slot.pid, settings)
    else slot in last && last[slot] == Order(Load, settings)
  }

  lemma {:induction false} LastAtIs(tasks: seq<UpdateTask>, slot: Slot, k: nat)
    requires k <= |tasks| && (k < |tasks| ==> For(tasks[k], slot))
    requires forall j :: (if k < |tasks| then k < j else 0 <= j) && j < |tasks| ==> !For(tasks[j], slot)
    ensures LastAt(tasks, slot) == k
  {
  }

  lemma {:induction false} LastAtAppend(tasks: seq<UpdateTask>, more: seq<UpdateTask>, slot: Slot)
    requires forall j :: 0 <= j < |more| ==> !For(more[j], slot)
    ensures var k := LastAt(tasks, slot);
            LastAt(tasks + more, slot) == if k < |tasks| then k else |tasks + more|
  {
    var k := LastAt(tasks, slot);
    LastAtIs(tasks + more, slot, if k < |tasks| then k else |tasks + more|);
  }

  lemma {:induction false} LastAtPop(tasks: seq<UpdateTask>, slot: Slot)
    requires tasks != []
    ensures var k := LastAt(tasks, slot);
            LastAt(tasks[1..], slot) == if 0 < k then k - 1 else |tasks| - 1
  {
    var k := LastAt(tasks, slot);
    LastAtIs(tasks[1..], slot, if 0 < k then k - 1 else |tasks| - 1);
  }

  function Told(last: map<Slot, Order>, task: UpdateTask): map<Slot, Order> {
    last[Slot(task.pid, task.settings.key) := Order(task.kind, task.settings)]
  }

  lemma {:induction false} PopKeepsToldLoad(tasks: seq<UpdateTask>, last: map<Slot, Order>, slot: Slot,
                                            settings: Settings)
    requires tasks != [] && ToldLoad(tasks, last, slot, settings)
    ensures ToldLoad(tasks[1..], Told(last, tasks[0]), slot, settings)
  {
    LastAtPop(tasks, slot);
  }

  // ---------- The invariant ----------

  /** A worker past the lock and an established model, no update of which has failed since the last one
      that ended well. */
  ghost predicate Due(s: State, slot: Slot) {
    && slot.pid in s.workers && PastLock(s, slot.pid)
    && Established(s, slot.key) && slot !in s.log.failed
  }

  ghost predicate OnLock(s: State, key: string) {
    s.lock.Some? && s.lock.value.settings.key == key
  }

  ghost predicate QuietInv(s: State) {
    forall slot :: Due(s, slot) && !OnLock(s, slot.key) ==>
                     ToldLoad(s.tasks, s.log.last, slot, s.models[slot.key])
  }

  /** The update under the lock is the last thing its workers are told about its model. */
  ghost predicate LockedLast(tasks: seq<UpdateTask>, last: map<Slot, Order>, u: Update, pid: Pid) {
    var slot := Slot(pid, u.settings.key);
    var k := LastAt(tasks, slot);
    if k < |tasks| then tasks[k] == TaskOf(u, pid) else slot in last && last[slot] == Order(u.kind, u.settings)
  }

  ghost predicate LockedInv(s: State) {
    s.lock.Some? ==>
      forall pid :: pid in s.workers && PastLock(s, pid) ==> LockedLast(s.tasks, s.log.last, s.lock.value, pid)
  }

  /** Only a worker that is replaying has replays queued. */
  ghost predicate ReplayInv(s: State) {
    forall i :: 0 <= i < |s.tasks| && s.tasks[i].round.None? ==>
                  s.tasks[i].pid in s.phase && s.phase[s.tasks[i].pid].Replaying?
  }

  ghost predicate ToldInv(s: State) {
    QuietInv(s) && LockedInv(s) && ReplayInv(s)
  }

  // ---------- Steps ----------

  lemma {:induction false} PopKeepsLockedLast(tasks: seq<UpdateTask>, last: map<Slot, Order>, u: Update, pid: Pid)
    requires tasks != [] && LockedLast(tasks, last, u, pid)
    ensures LockedLast(tasks[1..], Told(last, tasks[0]), u, pid)
  {
    LastAtPop(tasks, Slot(pid, u.settings.key));
  }

  lemma {:induction false} RunTaskKeepsQuiet(s: State, id: MessageId)
    requires QuietInv(s) && Enabled(s, RunTask(id))
    ensures QuietInv(Step(s, RunTask(id)))
  {
    var t := Step(s, RunTask(id));
    forall slot | Due(t, slot) && !OnLock(t, slot.key)
      ensures ToldLoad(t.tasks, t.log.last, slot, t.models[slot.key])
    {
      assert Due(s, slot);
      PopKeepsToldLoad(s.tasks, s.log.last, slot, s.models[slot.key]);
    }
  }

  lemma {:induction false} RunTaskKeepsLocked(s: State, id: MessageId)
    requires LockedInv(s) && Enabled(s, RunTask(id))
    ensures LockedInv(Step(s, RunTask(id)))
  {
    var t := Step(s, RunTask(id));
    if s.lock.Some? {
      forall pid | pid in t.workers && PastLock(t, pid) ensures LockedLast(t.tasks, t.log.last, s.lock.value, pid) {
        PopKeepsLockedLast(s.tasks, s.log.last, s.lock.value, pid);
      }
    }
  }

  lemma {:induction false} RunTaskKeepsTold(s: State, id: MessageId)
    requires ToldInv(s) && Enabled(s, RunTask(id))
    ensures ToldInv(Step(s, RunTask(id)))
  {
    RunTaskKeepsQuiet(s, id);
    RunTaskKeepsLocked(s, id);
  }

  lemma {:induction false} FanOutIsLast(tasks: seq<UpdateTask>, u: Update, i: nat)
    requires NoRepeats(u.workers) && i < |u.workers|
    ensures var fanned := FanOut(u.workers, u.kind, u.settings, u.round);
            && LastAt(tasks + fanned, Slot(u.workers[i], u.settings.key)) == |tasks| + i
            && (tasks + fanned)[|tasks| + i] == TaskOf(u, u.workers[i])
  {
    var fanned := FanOut(u.workers, u.kind, u.settings, u.round);
    LastAtIs(tasks + fanned, Slot(u.workers[i], u.settings.key), |tasks| + i);
  }

  lemma {:induction false} BeginKeepsTold(s: State, kind: UpdateKind, settings: Settings)
    requires RotationInv(s) && ToldInv(s) && Enabled(s, BeginUpdate(kind, settings))
    ensures ToldInv(Step(s, BeginUpdate(kind, settings)))
  {
    var t := Step(s, BeginUpdate(kind, settings));
    var u := t.lock.value;
    var fanned := FanOut(u.workers, kind, settings, u.round);
    forall slot | Due(t, slot) && !OnLock(t, slot.key)
      ensures ToldLoad(t.tasks, t.log.last, slot, t.models[slot.key])
    {
      assert Due(s, slot);
      LastAtAppend(s.tasks, fanned, slot);
    }
    forall pid | pid in t.workers && PastLock(t, pid) ensures LockedLast(t.tasks, t.log.last, u, pid) {
      var i :| 0 <= i < |u.workers| && u.workers[i] == pid;
      FanOutIsLast(s.tasks, u, i);
    }
  }

  lemma {:induction false} ReplayIsLast(s: State, pid: Pid, keys: seq<string>, key: string)
    requires UnderOwnKey(s) && ListsKeys(s.models, keys) && key in s.models
    ensures var slot, replays := Slot(pid, key), Replays(pid, s.models, keys);
            var k := LastAt(s.tasks + replays, slot);
            k < |s.tasks + replays| && (s.tasks + replays)[k] == ReplayOf(pid, s.models[key])
  {
    var slot, replays := Slot(pid, key), Replays(pid, s.models, keys);
    var i :| 0 <= i < |keys| && keys[i] == key;
    LastAtIs(s.tasks + replays, slot, |s.tasks| + i);
  }

  lemma {:induction false} PassLockKeepsTold(s: State, pid: Pid, keys: seq<string>)
    requires UnderOwnKey(s) && ToldInv(s) && Enabled(s, PassLock(pid, keys))
    ensures ToldInv(Step(s, PassLock(pid, keys)))
  {
    var t := Step(s, PassLock(pid, keys));
    forall slot | Due(t, slot) ensures ToldLoad(t.tasks, t.log.last, slot, t.models[slot.key]) {
      if slot.pid == pid {
        ReplayIsLast(s, pid, keys, slot.key);
      } else {
        assert Due(s, slot);
        LastAtAppend(s.tasks, Replays(pid, s.models, keys), slot);
      }
    }
  }

  /** However an update ends, it is the last thing its workers were told about its model. */
  lemma {:induction false} EndedIsLast(s: State, ok: bool, pid: Pid)
    requires FanOutInv(s) && QueuedInv(s) && EndsInv(s) && LockedInv(s) && Enabled(s, EndUpdate(ok))
    requires pid in s.workers && PastLock(s, pid)
    ensures var u := s.lock.value;
            var slot := Slot(pid, u.settings.key);
            && LastAt(s.tasks, slot) == |s.tasks|
            && slot in s.log.last && s.log.last[slot] == Order(u.kind, u.settings)
  {
    var u := s.lock.value;
    assert pid in u.workers && LockedLast(s.tasks, s.log.last, u, pid);
    EndMeansFannedOut(s, ok);
    assert OfLocked(s, TaskOf(u, pid));
  }

  /** An update that ends well leaves its model told; one that fails leaves nothing due for it. */
  lemma {:induction false} EndKeepsOwn(s: State, ok: bool, pid: Pid)
    requires FanOutInv(s) && QueuedInv(s) && EndsInv(s) && LockedInv(s) && Enabled(s, EndUpdate(ok))
    ensures var t, slot := Step(s, EndUpdate(ok)), Slot(pid, s.lock.value.settings.key);
            Due(t, slot) ==> ToldLoad(t.tasks, t.log.last, slot, t.models[slot.key])
  {
    var t, slot := Step(s, EndUpdate(ok)), Slot(pid, s.lock.value.settings.key);
    if Due(t, slot) {
      assert slot in SlotsPastLock(s, slot.key);
      if ok { EndedIsLast(s, ok, pid); }
    }
  }

  lemma {:induction false} EndKeepsOthersDue(s: State, ok: bool, slot: Slot)
    requires UnderOwnKey(s) && Enabled(s, EndUpdate(ok)) && slot.key != s.lock.value.settings.key
    requires Due(Step(s, EndUpdate(ok)), slot)
    ensures Due(s, slot) && Step(s, EndUpdate(ok)).models[slot.key] == s.models[slot.key]
  {
    assert slot !in SlotsPastLock(s, s.lock.value.settings.key);
    assert s.models[slot.key].key == slot.key;
  }

  lemma {:induction false} EndKeepsTold(s: State, ok: bool)
    requires UnderOwnKey(s) && FanOutInv(s) && QueuedInv(s) && EndsInv(s) && ToldInv(s) && Enabled(s, EndUpdate(ok))
    ensures ToldInv(Step(s, EndUpdate(ok)))
  {
    var t := Step(s, EndUpdate(ok));
    forall slot | Due(t, slot) ensures ToldLoad(t.tasks, t.log.last, slot, t.models[slot.key]) {
      if slot.key == s.lock.value.settings.key {
        EndKeepsOwn(s, ok, slot.pid);
      } else {
        EndKeepsOthersDue(s, ok, slot);
      }
    }
  }

  /** The steps that leave queue, orders, lock and failures alone, let no worker past the lock, and
      establish no model. */
  lemma {:induction false} OthersKeepTold(s: State, t: State)
    requires ToldInv(s) && ReplayInv(t)
    requires t.tasks == s.tasks && t.log.last == s.log.last && t.lock == s.lock && t.log.failed == s.log.failed
    requires forall pid :: pid in t.workers && PastLock(t, pid) ==> pid in s.workers && PastLock(s, pid)
    requires forall key :: Established(t, key) ==> Established(s, key) && t.models[key] == s.models[key]
    ensures ToldInv(t)
  {
    forall slot | Due(t, slot) ensures Due(s, slot) {}
  }

  lemma {:induction false} WorkersKeepTold(s: State, e: Event)
    requires ToldInv(s) && Enabled(s, e) && (e.WorkerDies? || e.Spawn? || e.BecomeReady? || e.EarlyAdd?)
    ensures ToldInv(Step(s, e))
  {
    OthersKeepTold(s, Step(s, e));
  }

  lemma {:induction false} MessagesKeepTold(s: State, e: Event)
    requires ToldInv(s) && Enabled(s, e)
    requires e.Request? || e.Respond? || e.LoopTurn? || e.Return? || e.CancelCaller?
    ensures ToldInv(Step(s, e))
  {
    OthersKeepTold(s, Step(s, e));
  }

  lemma {:induction false} StepKeepsTold(s: State, e: Event)
    requires RotationInv(s) && FanOutInv(s) && UnderOwnKey(s) && QueuedInv(s) && EndsInv(s)
    requires ToldInv(s) && Enabled(s, e)
    ensures ToldInv(Step(s, e))
  {
    match e
    case RunTask(id) => RunTaskKeepsTold(s, id);
    case BeginUpdate(kind, settings) => BeginKeepsTold(s, kind, settings);
    case EndUpdate(ok) => EndKeepsTold(s, ok);
    case PassLock(pid, keys) => PassLockKeepsTold(s, pid, keys);
    case _ =>
      if e.WorkerDies? || e.Spawn? || e.BecomeReady? || e.EarlyAdd? {
        WorkersKeepTold(s, e);
      } else {
        MessagesKeepTold(s, e);
      }
  }

  lemma {:induction false} EveryRunKeepsTold(pids: seq<Pid>, events: seq<Event>)
    requires NoRepeats(pids)
    ensures ToldInv(After(pids, events))
  {
    if events != [] {
      var n := |events| - 1;
      EveryRunKeepsTold(pids, events[..n]);
      EveryRunKeepsTurns(pids, events[..n]);
      if Enabled(After(pids, events[..n]), events[n]) { StepKeepsTold(After(pids, events[..n]), events[n]); }
    }
  }

  // ---------- Results ----------

  lemma {:induction false} ReadyHasNoReplays(s: State, slot: Slot, settings: Settings)
    requires ReplayInv(s) && slot.pid in s.phase && s.phase[slot.pid].Ready?
    requires ToldLoad(s.tasks, s.log.last, slot, settings)
    ensures slot in s.log.last && s.log.last[slot] == Order(Load, settings)
  {
  }

  /** In every run: whenever no update of the model holds the lock, the last update a ready worker was sent
      about an established model is the load of its registered settings, unless an update of the model has
      failed, with the worker past the lock, since one last ended well. */
  lemma {:induction false} LastUpdateIsTheRegisteredLoad(pids: seq<Pid>, events: seq<Event>, pid: Pid, key: string)
    requires NoRepeats(pids)
    requires var s := After(pids, events);
             && pid in s.workers && pid in s.phase && s.phase[pid].Ready?
             && Established(s, key) && !OnLock(s, key) && Slot(pid, key) !in s.log.failed
    ensures var s := After(pids, events);
            Slot(pid, key) in s.log.last && s.log.last[Slot(pid, key)] == Order(Load, s.models[key])
  {
    EveryRunKeepsTold(pids, events);
    var s := After(pids, events);
    assert Due(s, Slot(pid, key));
    ReadyHasNoReplays(s, Slot(pid, key), s.models[key]);
  }

  /** Exactly when a failing update breaks that: whatever fails was the last thing every worker past the lock
      was told about its model, so that the worker was told the registered load last if and only if the
      update is a load of the very settings. */
  lemma {:induction false} FailedUpdateBreaksExactly(pids: seq<Pid>, events: seq<Event>, pid: Pid)
    requires NoRepeats(pids) && Enabled(After(pids, events), EndUpdate(false))
    requires var s := After(pids, events);
             pid in s.workers && PastLock(s, pid) && Established(s, s.lock.value.settings.key)
    ensures var s, t := After(pids, events), Step(After(pids, events), EndUpdate(false));
            var u := s.lock.value;
            var slot := Slot(pid, u.settings.key);
            && Established(t, slot.key) && t.models == s.models
            && slot in t.log.last && t.log.last[slot] == Order(u.kind, u.settings)
            && (t.log.last[slot] == Order(Load, t.models[slot.key])
                <==> u.kind.Load? && u.settings == s.models[slot.key])
  {
    EveryRunKeepsTold(pids, events);
    EveryRunKeepsTurns(pids, events);
    EndedIsLast(After(pids, events), false, pid);
  }

  // ---------- Unloaded models ----------

  /** The model is not registered, and no load of it is under way. */
  ghost predicate Out(s: State, key: string) {
    key !in s.models && (s.lock.Some? && s.lock.value.kind.Load? ==> s.lock.value.settings.key != key)
  }

  predicate Brings(e: Event, key: string) {
    match e
    case BeginUpdate(kind, settings) => kind.Load? && settings.key == key
    case EarlyAdd(_, settings) => settings.key == key
    case _ => false
  }

  lemma {:induction false} StepKeepsOut(s: State, e: Event, key: string)
    requires Enabled(s, e) && Out(s, key) && !Brings(e, key)
    ensures Out(Step(s, e), key)
  {
  }

  lemma {:induction false} RunKeepsOut(s: State, events: seq<Event>, key: string)
    requires Out(s, key) && forall i :: 0 <= i < |events| ==> !Brings(events[i], key)
    ensures Out(Run(s, events), key)
  {
    if events != [] {
      var t, e := Run(s, events[..|events| - 1]), events[|events| - 1];
      RunKeepsOut(s, events[..|events| - 1], key);
      if Enabled(t, e) { StepKeepsOut(t, e, key); }
    }
  }

  /** A model whose unload has ended well is not brought back by a restarted worker: until a load or a
      reload of it begins, no worker that gets the lock replays it. */
  lemma {:induction false} UnloadedIsNotReplayed(pids: seq<Pid>, before: seq<Event>, events: seq<Event>,
                                                 pid: Pid, keys: seq<string>, task: UpdateTask)
    requires NoRepeats(pids) && Enabled(After(pids, before), EndUpdate(true))
    requires After(pids, before).lock.value.kind.Unload?
    requires forall i :: 0 <= i < |events| ==> !Brings(events[i], After(pids, before).lock.value.settings.key)
    requires var t := Run(Step(After(pids, before), EndUpdate(true)), events);
             ListsKeys(t.models, keys) && task in Replays(pid, t.models, keys)
    ensures task.settings.key != After(pids, before).lock.value.settings.key
  {
    var s := After(pids, before);
    EveryRunKeepsPool(pids, before);
    StepKeepsPool(s, EndUpdate(true));
    RunKeepsPool(Step(s, EndUpdate(true)), events);
    RunKeepsOut(Step(s, EndUpdate(true)), events, s.lock.value.settings.key);
  }

  // ---------- Reloads ----------

  /** Every ready worker has answered the load of what is registered under the key. */
  ghost predicate Settled(s: State, key: string)
    requires key in s.models
  {
    forall pid :: pid in s.workers && pid in s.phase && s.phase[pid].Ready? ==> Loaded(s, pid, s.models[key])
  }

  /** A reload registers its settings before its fan-out. The whole registry is still what the ready
      workers have loaded exactly when they have loaded these settings before, and those of every other
      reload that is ahead of its fan-out and that this one does not take out. */
  lemma {:induction false} ReloadKeepsLoadsExactlyIfLoadedBefore(s: State, oldKey: string, settings: Settings)
    requires PoolInv(s)
    ensures var t := Step(s, EarlyAdd(oldKey, settings));
            (forall key :: key in t.models ==> Settled(t, key))
            <==>
            && (forall pid :: pid in s.workers && pid in s.phase && s.phase[pid].Ready? ==> Loaded(s, pid, settings))
            && (forall key :: key in s.models && s.models[key] in s.log.early && key != oldKey && key != settings.key
                  ==> Settled(s, key))
  {
    var t := Step(s, EarlyAdd(oldKey, settings));
    assert settings.key in t.models && t.models[settings.key] == settings;
    assert forall pid, other :: Loaded(t, pid, other) <==> Loaded(s, pid, other);
    forall key | key in s.models && key != oldKey && key != settings.key
      ensures key in t.models && t.models[key] == s.models[key] && (Settled(t, key) <==> Settled(s, key))
      ensures Established(s, key) ==> Settled(s, key)
    {
      EstablishedIsSettled(s, key);
    }
  }

  lemma {:induction false} EstablishedIsSettled(s: State, key: string)
    requires LoadInv(s)
    ensures Established(s, key) ==> Settled(s, key)
  {
    if Established(s, key) {
      forall pid | pid in s.workers && pid in s.phase && s.phase[pid].Ready? ensures Loaded(s, pid, s.models[key]) {
        assert Covered(s, pid, s.models[key]);
      }
    }
  }
}
