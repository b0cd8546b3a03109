/** mlserver/parallel/dispatcher.py and mlserver/parallel/pool.py in their own form. Each method is one
    step of the protocol; `s` is the protocol state it starts from, of which the objects hold the
    part the program keeps. */
module InferencePooling {
  import opened OrderedDict
  import opened AsyncResponding
  import opened PoolProtocol

  /** Whoever gets the lock now is told to load these settings ... */
  ghost predicate WillReplay(models: map<string, Settings>, settings: Settings) {
    forall pid, keys {:trigger Replays(pid, models, keys)} :: ListsKeys(models, keys) ==>
      ReplayOf(pid, settings) in Replays(pid, models, keys)
  }

  /** ... or nothing about this model. */
  ghost predicate WillNotReplay(models: map<string, Settings>, key: string) {
    forall pid, keys, task {:trigger task in Replays(pid, models, keys)} :: ListsKeys(models, keys) ==>
      task in Replays(pid, models, keys) ==> task.settings.key != key
  }

  lemma {:induction false} RegisteredIsReplayed(models: map<string, Settings>, key: string)
    requires key in models
    ensures WillReplay(models, models[key])
  {
    forall pid, keys | ListsKeys(models, keys) ensures ReplayOf(pid, models[key]) in Replays(pid, models, keys) {
      var i :| 0 <= i < |keys| && keys[i] == key;
      assert Replays(pid, models, keys)[i] == ReplayOf(pid, models[key]);
    }
  }

  /** The one dict of workers, known to the pool and to its dispatcher. */
  class WorkerTable {
    var pids: seq<Pid>

    constructor (pids: seq<Pid>)
      ensures this.pids == pids
    {
      this.pids := pids;
    }

    method Delete(pid: Pid)
      modifies this
      ensures pids == Without(old(pids), pid)
    {
      pids := Without(pids, pid);
    }
  }

  class Dispatcher {
    const workers: WorkerTable
    const asyncResponses: AsyncResponses
    var rotation: seq<Pid>
    var pos: nat
    var lock: Option<Update>
    var rounds: nat
    var tasks: seq<UpdateTask>

    ghost predicate Shows(s: State)
      reads this, workers, asyncResponses
    {
      && s.workers == workers.pids && s.rotation == rotation && s.pos == pos
      && s.lock == lock && s.log.rounds == rounds && s.tasks == tasks && s.async == asyncResponses.Snapshot()
    }

    constructor (workers: WorkerTable)
      ensures this.workers == workers && fresh(asyncResponses)
      ensures Shows(Init(workers.pids))
    {
      this.workers := workers;
      asyncResponses := new AsyncResponses();
      rotation, pos := workers.pids, 0;
      lock, rounds, tasks := None, 0, [];
    }

    method ResetRoundRobin()
      modifies this`rotation, this`pos
      ensures rotation == workers.pids && pos == 0
    {
      rotation, pos := workers.pids, 0;
    }

    method OnWorkerReady(pid: Pid, ghost s: State)
      requires Shows(s) && Enabled(s, BecomeReady(pid))
      modifies this
      ensures Shows(Step(s, BecomeReady(pid)))
    {
      ResetRoundRobin();
    }

    /** Takes the dead worker out of the dict and out of rotation, and cancels what it was serving. */
    method OnWorkerStop(pid: Pid, exitCode: int, ghost s: State) returns (ghost order: seq<MessageId>)
      requires Shows(s) && PoolInv(s) && pid in s.workers && pid !in s.seen.stopped
      modifies this, workers, asyncResponses
      ensures Enabled(s, WorkerDies(pid, exitCode, order)) && Shows(Step(s, WorkerDies(pid, exitCode, order)))
      ensures pid !in workers.pids && pid !in rotation
    {
      if pid in workers.pids { workers.Delete(pid); }
      ResetRoundRobin();
      order := asyncResponses.CancelWorker(pid, exitCode);
    }

    /** `_get_worker` and `dispatch_request` up to the wait for the response. */
    method DispatchRequest(id: MessageId, ghost s: State) returns (pid: Pid)
      requires Shows(s) && PoolInv(s) && Enabled(s, Request(id))
      modifies this`pos, asyncResponses
      ensures pid == Pick(s) && pid in workers.pids
      ensures Shows(Step(s, Request(id)))
    {
      pid := rotation[Wrap(pos, |rotation|)];
      pos := pos + 1;
      asyncResponses.ScheduleMessage(id, pid);
    }

    /** `dispatch_update` once it has the lock: one coroutine per worker of the moment. */
    method DispatchUpdate(kind: UpdateKind, settings: Settings, ghost s: State)
      requires Shows(s) && Enabled(s, BeginUpdate(kind, settings))
      modifies this`lock, this`rounds, this`tasks
      ensures Shows(Step(s, BeginUpdate(kind, settings)))
    {
      var fanned := UpdateTasks(workers.pids, kind, settings, rounds);
      lock := Some(Update(kind, settings, workers.pids, rounds));
      rounds := rounds + 1;
      tasks := tasks + fanned;
    }

    /** The comprehension over the workers' values. */
    static method UpdateTasks(pids: seq<Pid>, kind: UpdateKind, settings: Settings, round: nat)
      returns (fanned: seq<UpdateTask>)
      ensures fanned == FanOut(pids, kind, settings, round)
    {
      fanned := [];
      for i := 0 to |pids|
        invariant fanned == FanOut(pids, kind, settings, round)[..i]
      {
        fanned := fanned + [UpdateTask(pids[i], kind, settings, Some(round))];
      }
    }

    /** `dispatch_update_to_worker` up to the wait for the response, as the event loop runs it. */
    method DispatchUpdateToWorker(id: MessageId, ghost s: State)
      requires Shows(s) && PoolInv(s) && Enabled(s, RunTask(id))
      modifies this`tasks, asyncResponses
      ensures Shows(Step(s, RunTask(id)))
    {
      var task := tasks[0];
      tasks := tasks[1..];
      asyncResponses.ScheduleMessage(id, task.pid);
    }
  }

  class InferencePool {
    const workers: WorkerTable
    const dispatcher: Dispatcher
    var models: map<string, Settings>

    ghost predicate Shows(s: State)
      reads this, workers, dispatcher, dispatcher.workers, dispatcher.asyncResponses
    {
      dispatcher.workers == workers && dispatcher.Shows(s) && s.models == models
    }

    constructor (pids: seq<Pid>)
      ensures Shows(Init(pids))
      ensures fresh(workers) && fresh(dispatcher) && fresh(dispatcher.asyncResponses)
    {
      var table := new WorkerTable(pids);
      workers := table;
      dispatcher := new Dispatcher(table);
      models := map[];
    }

    /** The death of a worker of this pool, up to the start of its successor; a pid of no worker here
        is ignored. Dispatcher and pool delete from one dict, so the pool finds nothing left. */
    method OnWorkerStop(pid: Pid, exitCode: int, ghost s: State) returns (ours: bool, ghost order: seq<MessageId>)
      requires Shows(s) && PoolInv(s) && pid !in s.seen.stopped
      modifies workers, dispatcher, dispatcher.asyncResponses
      ensures ours == (pid in s.workers)
      ensures !ours ==> Shows(s)
      ensures ours ==> Enabled(s, WorkerDies(pid, exitCode, order)) && Shows(Step(s, WorkerDies(pid, exitCode, order)))
    {
      ours, order := pid in workers.pids, [];
      if !ours { return; }
      order := dispatcher.OnWorkerStop(pid, exitCode, s);
      assert pid !in workers.pids;
    }

    /** `_start_worker` up to the lock: updates reach the new worker from now on; it is not in rotation yet,
        but the next death of another worker puts it there, whether it has the lock by then or not. */
    method SpawnWorker(pid: Pid, ghost s: State)
      requires Shows(s) && RotationInv(s) && Enabled(s, Spawn(pid))
      modifies workers
      ensures Shows(Step(s, Spawn(pid))) && RotationInv(Step(s, Spawn(pid)))
      ensures pid !in dispatcher.rotation
      ensures forall kind, settings, round ::
                UpdateTask(pid, kind, settings, Some(round)) in FanOut(workers.pids, kind, settings, round)
    {
      StepKeepsRotation(s, Spawn(pid));
      workers.pids := workers.pids + [pid];
      forall kind, settings, round
        ensures UpdateTask(pid, kind, settings, Some(round)) in FanOut(workers.pids, kind, settings, round)
      {
        assert FanOut(workers.pids, kind, settings, round)[|workers.pids| - 1].pid == pid;
      }
    }

    /** `_start_worker` from the lock on: the worker is put in the dict, and one coroutine replays the
        load of each registered model, in some order. */
    method ReplayModels(pid: Pid, ghost s: State) returns (ghost keys: seq<string>)
      requires Shows(s) && pid in s.phase && s.phase[pid].Starting? && s.lock.None?
      modifies workers, dispatcher`tasks
      ensures Enabled(s, PassLock(pid, keys)) && Shows(Step(s, PassLock(pid, keys)))
    {
      if pid !in workers.pids { workers.pids := workers.pids + [pid]; }
      var replays: seq<UpdateTask> := [];
      var todo := models.Keys;
      keys := [];
      while todo != {}
        invariant todo <= models.Keys && |replays| == |keys|
        invariant forall key :: key in keys <==> key in models.Keys - todo
        invariant forall i, j :: 0 <= i < j < |keys| ==> keys[i] != keys[j]
        invariant forall i :: 0 <= i < |keys| ==> keys[i] in models && replays[i] == ReplayOf(pid, models[keys[i]])
        decreases todo
      {
        var key :| key in todo;
        assert key !in keys;
        replays := replays + [UpdateTask(pid, Load, models[key], None)];
        keys := keys + [key];
        todo := todo - {key};
      }
      assert replays == Replays(pid, models, keys);
      dispatcher.tasks := dispatcher.tasks + replays;
    }

    /** The end of `load_model` or `unload_model`: the lock is released and, after success, the registry is
        updated with no yield in between. A load that ends well was answered by all workers past the lock
        and will be replayed by the others, an unload that ends well by nobody; a failed one changes
        neither. */
    method FinishUpdate(ok: bool, ghost s: State)
      requires Shows(s) && PoolInv(s) && Enabled(s, EndUpdate(ok))
      modifies this`models, dispatcher`lock
      ensures Shows(Step(s, EndUpdate(ok))) && PoolInv(Step(s, EndUpdate(ok)))
      ensures ok && s.lock.value.kind.Load? ==>
                && (forall pid :: pid in workers.pids && PastLock(s, pid) ==> Loaded(s, pid, s.lock.value.settings))
                && WillReplay(models, s.lock.value.settings)
      ensures ok && s.lock.value.kind.Unload? ==> WillNotReplay(models, s.lock.value.settings.key)
      ensures !ok ==> models == old(models)
    {
      StepKeepsPool(s, EndUpdate(ok));
      if ok && s.lock.value.kind.Load? { LoadedEverywhere(s); }
      var update := dispatcher.lock.value;
      dispatcher.lock := None;
      if ok {
        if update.kind.Load? {
          models := models[update.settings.key := update.settings];
          RegisteredIsReplayed(models, update.settings.key);
        } else {
          models := models - {update.settings.key};
        }
      }
    }

    /** `reload_model` up to its `load_model`: a worker that gets the lock before the fan-out replays the new
        settings, and the old ones no more. */
    method RegisterReload(oldKey: string, settings: Settings, ghost s: State)
      requires Shows(s) && UnderOwnKey(s)
      modifies this`models
      ensures Shows(Step(s, EarlyAdd(oldKey, settings))) && UnderOwnKey(Step(s, EarlyAdd(oldKey, settings)))
      ensures WillReplay(models, settings)
      ensures oldKey != settings.key ==> WillNotReplay(models, oldKey)
    {
      if oldKey in models { models := models - {oldKey}; }
      models := models[settings.key := settings];
      RegisteredIsReplayed(models, settings.key);
    }
  }
}
