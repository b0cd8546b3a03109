/** mlserver/parallel/dispatcher.py and mlserver/parallel/pool.py as one protocol: round-robin
    dispatch over a snapshot of the workers, model updates fanned out under a lock, and crashed
    workers replaced by new ones that replay the loads of `WorkerRegistry`.

    A step is what runs between two event-loop yields. Pool and dispatcher share one dict of workers.
    Message ids and process ids are fresh; a worker's death is reported once, and starts one successor.
    The event loop gives coroutines and completions their turns in the order they were scheduled. The
    caller of an update is not cancelled before the coroutines of its fan-out have had their first turn. */
module PoolProtocol {
  import opened OrderedDict
  import opened AsyncResponding

  /** `key` is the registry's name-version key of the settings. */
  datatype Settings = Settings(key: string, content: int)
  datatype UpdateKind = Load | Unload

  /** A coroutine of `asyncio.gather` that sends an update to one worker: one of the update of that
      round, or one that replays a load. */
  datatype UpdateTask = UpdateTask(pid: Pid, kind: UpdateKind, settings: Settings, round: Option<nat>)

  datatype Sent = Sent(pid: Pid, kind: UpdateKind, settings: Settings)

  /** What a worker was told about a model, and to which worker and model that applies. */
  datatype Order = Order(kind: UpdateKind, settings: Settings)
  datatype Slot = Slot(pid: Pid, key: string)

  /** The update that holds `_worker_starting_lock`, and the workers it was fanned out to. */
  datatype Update = Update(kind: UpdateKind, settings: Settings, workers: seq<Pid>, round: nat)

  /** How far `_start_worker` has got: waiting for the lock, replaying loads, done. */
  datatype Phase = Starting | Replaying | Ready

  /** What has become of updates so far: how many have begun, and how many tasks there had been created
      with the last fan-out; the registry's models when a worker passed the lock; the updates put on
      workers' queues, and the last one per worker and model; which task sent a message, the tasks whose
      message was answered with a result, and those whose message ended otherwise; the settings that a
      reload has put in the registry ahead of its own fan-out; and the workers past the lock when an
      update of a model failed, until an update of it ends well. */
  datatype Log = Log(
    rounds: nat, upTo: nat, snapshots: map<Pid, map<string, Settings>>,
    sent: set<Sent>, last: map<Slot, Order>,
    sentBy: map<MessageId, UpdateTask>, answered: set<UpdateTask>, broken: set<UpdateTask>,
    early: set<Settings>, failed: set<Slot>)

  /** What has been seen of messages and deaths: the ids of inference requests, of all messages, and of
      those whose sender has returned; the workers reported dead, and those of them that died while
      `Starting`; the messages tracked for a worker after its death; how many of the dead have no
      successor yet. */
  datatype Seen = Seen(
    requestIds: set<MessageId>, usedIds: set<MessageId>, returned: set<MessageId>,
    stopped: set<Pid>, zombies: set<Pid>, late: set<MessageId>, owed: nat)

  /** Whose turn it is: how many tasks have run, and for each scheduled completion, how many tasks had been
      created when it was scheduled. */
  datatype Turns = Turns(started: nat, behind: seq<nat>)

  /** `tasks` are the coroutines that have been created and have not run yet, oldest first; `log` and
      `seen` are histories. */
  datatype State = State(
    workers: seq<Pid>, rotation: seq<Pid>, pos: nat,
    phase: map<Pid, Phase>,
    lock: Option<Update>,
    models: map<string, Settings>,
    tasks: seq<UpdateTask>,
    async: Async,
    turns: Turns, log: Log, seen: Seen)

  datatype Event =
    | Request(id: MessageId)
    | BeginUpdate(kind: UpdateKind, settings: Settings)
    | RunTask(id: MessageId)
    | EndUpdate(ok: bool)
    | EarlyAdd(oldKey: string, settings: Settings)
    | WorkerDies(pid: Pid, exitCode: int, order: seq<MessageId>)
    | Spawn(pid: Pid)
    | PassLock(pid: Pid, keys: seq<string>)
    | BecomeReady(pid: Pid)
    | Respond(id: MessageId, response: Response)
    | LoopTurn
    | Return(id: MessageId)
    | CancelCaller(id: MessageId)

  function Init(pids: seq<Pid>): State {
    State(pids, pids, 0, map pid | pid in pids :: Ready, None, map[], [],
          Async(map[], map[], map[], []),
          Turns(0, []), Log(0, 0, map pid | pid in pids :: map[], {}, map[], map[], {}, {}, {}, {}),
          Seen({}, {}, {}, {}, {}, {}, 0))
  }

  /** The place an endless cycle over `n` items is at after `i` steps. */
  function Wrap(i: nat, n: nat): (r: nat)
    requires n > 0
    ensures r < n
  {
    if i < n then i else Wrap(i - n, n)
  }

  /** `next(self._workers_round_robin)` */
  function Pick(s: State): Pid
    requires s.rotation != []
  {
    s.rotation[Wrap(s.pos, |s.rotation|)]
  }

  /** Tracks a fresh message for a worker. */
  function Track(s: State, id: MessageId, pid: Pid): State {
    s.(async := Schedule(s.async, id, pid),
       seen := s.seen.(usedIds := s.seen.usedIds + {id},
                       late := if pid in s.seen.stopped then s.seen.late + {id} else s.seen.late))
  }

  /** Completions are scheduled behind all tasks there are. */
  function Behind(s: State, n: nat): Turns {
    s.turns.(behind := s.turns.behind + seq(n, i => s.turns.started + |s.tasks|))
  }

  function FanOut(workers: seq<Pid>, kind: UpdateKind, settings: Settings, round: nat): seq<UpdateTask> {
    seq(|workers|, i requires 0 <= i < |workers| => UpdateTask(workers[i], kind, settings, Some(round)))
  }

  function ReplayOf(pid: Pid, settings: Settings): UpdateTask {
    UpdateTask(pid, Load, settings, None)
  }

  /** `keys` is the order in which the registry lists its models. */
  predicate ListsKeys(models: map<string, Settings>, keys: seq<string>) {
    && (forall key :: key in models ==> key in keys)
    && (forall i :: 0 <= i < |keys| ==> keys[i] in models)
    && forall i, j :: 0 <= i < j < |keys| ==> keys[i] != keys[j]
  }

  function Replays(pid: Pid, models: map<string, Settings>, keys: seq<string>): seq<UpdateTask>
    requires ListsKeys(models, keys)
  {
    seq(|keys|, i requires 0 <= i < |keys| => ReplayOf(pid, models[keys[i]]))
  }

  function Send(log: Log, task: UpdateTask, id: MessageId): Log {
    log.(sent := log.sent + {Sent(task.pid, task.kind, task.settings)},
         last := log.last[Slot(task.pid, task.settings.key) := Order(task.kind, task.settings)],
         sentBy := log.sentBy[id := task])
  }

  function TaskOf(u: Update, pid: Pid): UpdateTask {
    UpdateTask(pid, u.kind, u.settings, Some(u.round))
  }

  predicate PastLock(s: State, pid: Pid) {
    pid in s.phase && !s.phase[pid].Starting?
  }

  predicate OfLocked(s: State, task: UpdateTask) {
    s.lock.Some? && task.round == Some(s.lock.value.round)
  }

  predicate AllAnswered(s: State, u: Update) {
    forall pid :: pid in u.workers ==> TaskOf(u, pid) in s.log.answered
  }

  predicate SomeBroken(s: State, u: Update) {
    exists pid :: pid in u.workers && TaskOf(u, pid) in s.log.broken
  }

  function SlotsPastLock(s: State, key: string): set<Slot> {
    set pid | pid in s.phase && PastLock(s, pid) :: Slot(pid, key)
  }

  function ResetRotation(s: State): State {
    s.(rotation := s.workers, pos := 0)
  }

  predicate NoRepeats(pids: seq<Pid>) {
    forall i, j :: 0 <= i < j < |pids| ==> pids[i] != pids[j]
  }

  function Without(pids: seq<Pid>, pid: Pid): (r: seq<Pid>)
    ensures forall p :: p in r <==> p in pids && p != pid
    ensures NoRepeats(pids) ==> NoRepeats(r)
  {
    if pids == [] then []
    else
      var rest := Without(pids[1..], pid);
      assert NoRepeats(pids) ==> pids[0] !in rest;
      if pids[0] == pid then rest else [pids[0]] + rest
  }

  /** The oldest task was created before the oldest completion was scheduled. */
  predicate TasksTurn(s: State) {
    s.turns.behind == [] || s.turns.behind[0] > s.turns.started
  }

  /** An update ends well when every worker has answered it with a result, and fails when one of them has
      not; `_start_worker` goes on when every replay was answered so. */
  ghost predicate Enabled(s: State, e: Event) {
    match e
    case Request(id) => s.rotation != [] && id !in s.seen.usedIds
    case BeginUpdate(_, _) => s.lock.None?
    case RunTask(id) => s.tasks != [] && TasksTurn(s) && id !in s.seen.usedIds
    case EndUpdate(ok) => s.lock.Some? && if ok then AllAnswered(s, s.lock.value) else SomeBroken(s, s.lock.value)
    case EarlyAdd(_, _) => true
    case WorkerDies(pid, _, order) =>
      pid in s.workers && pid !in s.seen.stopped && ListsInFlight(s.async, pid, order)
    case Spawn(pid) => pid !in s.phase && s.seen.owed > 0
    case PassLock(pid, keys) =>
      pid in s.phase && s.phase[pid].Starting? && s.lock.None? && ListsKeys(s.models, keys)
    case BecomeReady(pid) =>
      && pid in s.phase && s.phase[pid].Replaying? && pid in s.log.snapshots
      && (forall task :: task in s.tasks ==> !(task.round.None? && task.pid == pid))
      && forall key :: key in s.log.snapshots[pid] ==> ReplayOf(pid, s.log.snapshots[pid][key]) in s.log.answered
    case Respond(_, _) => true
    case LoopTurn => s.async.callbacks != [] && !TasksTurn(s)
    case Return(id) => id in s.async.futures && s.async.futures[id].Done? && id in s.async.futuresMap
    case CancelCaller(id) =>
      && id in s.async.futures && s.async.futures[id].Pending?
      && (id in s.log.sentBy && OfLocked(s, s.log.sentBy[id]) ==> s.turns.started >= s.log.upTo)
  }

  /** The end of an update: the registry is changed by one that ends well only. */
  function End(s: State, u: Update, ok: bool): State {
    var slots := SlotsPastLock(s, u.settings.key);
    if !ok then s.(lock := None, log := s.log.(failed := s.log.failed + slots))
    else if u.kind.Load? then
      s.(lock := None, models := s.models[u.settings.key := u.settings],
         log := s.log.(failed := s.log.failed - slots, early := s.log.early - {u.settings}))
    else s.(lock := None, models := s.models - {u.settings.key}, log := s.log.(failed := s.log.failed - slots))
  }

  /** A sender takes its outcome; only a result answers the update that was sent. */
  function TakeOutcome(s: State, id: MessageId): State
    requires id in s.async.futures && s.async.futures[id].Done? && id in s.async.futuresMap
  {
    s.(async := ClearMessage(s.async, id),
       seen := s.seen.(returned := s.seen.returned + {id}),
       log := if id !in s.log.sentBy then s.log
              else if s.async.futures[id].outcome.Result?
              then s.log.(answered := s.log.answered + {s.log.sentBy[id]})
              else s.log.(broken := s.log.broken + {s.log.sentBy[id]}))
  }

  ghost function Step(s: State, e: Event): State
    requires Enabled(s, e)
  {
    match e
    case Request(id) =>
      Track(s.(pos := s.pos + 1, seen := s.seen.(requestIds := s.seen.requestIds + {id})), id, Pick(s))
    case BeginUpdate(kind, settings) =>
      s.(lock := Some(Update(kind, settings, s.workers, s.log.rounds)),
         log := s.log.(rounds := s.log.rounds + 1, upTo := s.turns.started + |s.tasks| + |s.workers|),
         tasks := s.tasks + FanOut(s.workers, kind, settings, s.log.rounds))
    case RunTask(id) =>
      Track(s.(tasks := s.tasks[1..], turns := s.turns.(started := s.turns.started + 1),
               log := Send(s.log, s.tasks[0], id)), id, s.tasks[0].pid)
    case EndUpdate(ok) => End(s, s.lock.value, ok)
    case EarlyAdd(oldKey, settings) =>
      s.(models := (s.models - {oldKey})[settings.key := settings],
         log := s.log.(early := s.log.early + {settings}))
    case WorkerDies(pid, exitCode, order) =>
      ResetRotation(s.(workers := Without(s.workers, pid),
                       async := Cancel(s.async, pid, exitCode, order), turns := Behind(s, |order|),
                       seen := s.seen.(stopped := s.seen.stopped + {pid}, owed := s.seen.owed + 1,
                                       zombies := if pid in s.phase && s.phase[pid].Starting?
                                                  then s.seen.zombies + {pid} else s.seen.zombies)))
    case Spawn(pid) =>
      s.(workers := s.workers + [pid], phase := s.phase[pid := Starting],
         seen := s.seen.(owed := s.seen.owed - 1))
    case PassLock(pid, keys) =>
      s.(workers := if pid in s.workers then s.workers else s.workers + [pid],
         phase := s.phase[pid := Replaying],
         log := s.log.(snapshots := s.log.snapshots[pid := s.models]),
         tasks := s.tasks + Replays(pid, s.models, keys))
    case BecomeReady(pid) => ResetRotation(s.(phase := s.phase[pid := Ready]))
    case Respond(id, response) =>
      s.(async := Resolve(s.async, id, response), turns := Behind(s, if id in s.async.futures then 1 else 0))
    case LoopTurn => s.(async := RunCallback(s.async), turns := s.turns.(behind := s.turns.behind[1..]))
    case Return(id) => TakeOutcome(s, id)
    case CancelCaller(id) => s.(async := SetDone(s.async, id, CallerCancelled))
  }

  /** The state after a sequence of events; an event that cannot happen is skipped. */
  ghost function Run(s: State, events: seq<Event>): State {
    if events == [] then s else RunStep(Run(s, events[..|events| - 1]), events[|events| - 1])
  }

  ghost function RunStep(s: State, e: Event): State {
    if Enabled(s, e) then Step(s, e) else s
  }

  ghost function After(pids: seq<Pid>, events: seq<Event>): State {
    Run(Init(pids), events)
  }

  lemma {:induction false} RunOneMore(s: State, events: seq<Event>, e: Event)
    ensures Run(s, events + [e]) == RunStep(Run(s, events), e)
  {
    assert (events + [e])[..|events|] == events;
  }

  lemma {:induction false} RunOne(s: State, a: Event)
    ensures Run(s, [a]) == RunStep(s, a)
  {
    RunOneMore(s, [], a);
    assert [] + [a] == [a];
  }

  lemma {:induction false} RunTwo(s: State, a: Event, b: Event)
    ensures Run(s, [a, b]) == RunStep(RunStep(s, a), b)
  {
    RunOne(s, a);
    RunOneMore(s, [a], b);
    assert [a] + [b] == [a, b];
  }

  lemma {:induction false} RunThree(s: State, a: Event, b: Event, c: Event)
    ensures Run(s, [a, b, c]) == RunStep(RunStep(RunStep(s, a), b), c)
  {
    RunTwo(s, a, b);
    RunOneMore(s, [a, b], c);
    assert [a, b] + [c] == [a, b, c];
  }

  lemma {:induction false} RunsCompose(s: State, a: seq<Event>, b: seq<Event>)
    ensures Run(s, a + b) == Run(Run(s, a), b)
  {
    if b == [] {
      assert a + b == a;
    } else {
      RunsCompose(s, a, b[..|b| - 1]);
      assert (a + b)[..|a + b| - 1] == a + b[..|b| - 1];
    }
  }

  // ---------- Rotation ----------

  /** Whoever is in rotation is in the shared dict. */
  ghost predicate InDict(s: State) {
    && (forall pid :: pid in s.rotation ==> pid in s.workers)
    && (forall pid :: pid in s.workers ==> pid in s.phase)
  }

  ghost predicate RotationInv(s: State) {
    InDict(s) && NoRepeats(s.workers) && NoRepeats(s.rotation)
  }

  lemma {:induction false} StepKeepsRotation(s: State, e: Event)
    requires RotationInv(s) && Enabled(s, e)
    ensures RotationInv(Step(s, e))
  {
  }

  // ---------- Loads ----------

  ghost predicate LoadSent(s: State, pid: Pid, settings: Settings) {
    Sent(pid, Load, settings) in s.log.sent
  }

  /** A load of these settings was answered by the worker, with a result. */
  ghost predicate Loaded(s: State, pid: Pid, settings: Settings) {
    exists task :: task in s.log.answered && task.pid == pid && task.kind.Load? && task.settings == settings
  }

  /** Registered by a load that has completed, not ahead of a reload's fan-out. */
  ghost predicate Established(s: State, key: string) {
    key in s.models && s.models[key] !in s.log.early
  }

  /** No worker passes the lock while an update holds it, so the update's workers are all the workers
      that are past it. */
  ghost predicate FanOutInv(s: State) {
    s.lock.Some? ==> forall pid :: pid in s.workers && PastLock(s, pid) ==> pid in s.lock.value.workers
  }

  /** The worker has answered the load, or will replay it. */
  ghost predicate Covered(s: State, pid: Pid, settings: Settings) {
    || Loaded(s, pid, settings)
    || (pid in s.phase && s.phase[pid].Replaying? && pid in s.log.snapshots
        && settings.key in s.log.snapshots[pid] && s.log.snapshots[pid][settings.key] == settings)
  }

  ghost predicate UnderOwnKey(s: State) {
    forall key :: key in s.models ==> s.models[key].key == key
  }

  ghost predicate LoadInv(s: State) {
    && UnderOwnKey(s)
    && forall pid, key :: pid in s.workers && PastLock(s, pid) && Established(s, key) ==> Covered(s, pid, s.models[key])
  }

  ghost predicate WasSent(s: State, task: UpdateTask) {
    Sent(task.pid, task.kind, task.settings) in s.log.sent
  }

  /** Whatever was answered or broken was sent, and what a worker is to replay was sent or waits to be. */
  ghost predicate SentInv(s: State) {
    && (forall id :: id in s.log.sentBy ==> WasSent(s, s.log.sentBy[id]))
    && (forall task :: task in s.log.answered ==> WasSent(s, task))
    && (forall task :: task in s.log.broken ==> WasSent(s, task))
    && forall pid, key :: pid in s.log.snapshots && key in s.log.snapshots[pid] ==>
         LoadSent(s, pid, s.log.snapshots[pid][key]) || ReplayOf(pid, s.log.snapshots[pid][key]) in s.tasks
  }

  lemma {:induction false} LoadedStays(s: State, t: State, pid: Pid, settings: Settings)
    requires s.log.answered <= t.log.answered && Loaded(s, pid, settings)
    ensures Loaded(t, pid, settings)
  {
    var task :| task in s.log.answered && task.pid == pid && task.kind.Load? && task.settings == settings;
    assert task in t.log.answered;
  }

  /** A load ends well only when every worker past the lock has answered it, with a result. */
  lemma {:induction false} LoadedEverywhere(s: State)
    requires FanOutInv(s) && Enabled(s, EndUpdate(true)) && s.lock.value.kind.Load?
    ensures forall pid :: pid in s.workers && PastLock(s, pid) ==> Loaded(s, pid, s.lock.value.settings)
  {
    forall pid | pid in s.workers && PastLock(s, pid) ensures Loaded(s, pid, s.lock.value.settings) {
      assert pid in s.lock.value.workers && TaskOf(s.lock.value, pid) in s.log.answered;
    }
  }

  lemma {:induction false} EndKeepsLoads(s: State, ok: bool)
    requires FanOutInv(s) && LoadInv(s) && Enabled(s, EndUpdate(ok))
    ensures FanOutInv(Step(s, EndUpdate(ok))) && LoadInv(Step(s, EndUpdate(ok)))
  {
    var t, u := Step(s, EndUpdate(ok)), s.lock.value;
    if ok && u.kind.Load? { LoadedEverywhere(s); }
    forall pid, key | pid in t.workers && PastLock(t, pid) && Established(t, key)
      ensures Covered(t, pid, t.models[key])
    {
      if !(ok && u.kind.Load? && key == u.settings.key) {
        assert Established(s, key) && t.models[key] == s.models[key];
      }
    }
  }

  lemma {:induction false} PassLockKeepsLoads(s: State, pid: Pid, keys: seq<string>)
    requires LoadInv(s) && Enabled(s, PassLock(pid, keys))
    ensures FanOutInv(Step(s, PassLock(pid, keys))) && LoadInv(Step(s, PassLock(pid, keys)))
  {
    var t := Step(s, PassLock(pid, keys));
    forall p, key | p in t.workers && PastLock(t, p) && Established(t, key) ensures Covered(t, p, t.models[key]) {
      assert Established(s, key);
      if p != pid { assert Covered(s, p, s.models[key]); }
    }
  }

  lemma {:induction false} ReadyKeepsLoads(s: State, pid: Pid)
    requires FanOutInv(s) && LoadInv(s) && Enabled(s, BecomeReady(pid))
    ensures FanOutInv(Step(s, BecomeReady(pid))) && LoadInv(Step(s, BecomeReady(pid)))
  {
    var t := Step(s, BecomeReady(pid));
    forall p, key | p in t.workers && PastLock(t, p) && Established(t, key) ensures Covered(t, p, t.models[key]) {
      assert Established(s, key) && Covered(s, p, s.models[key]);
      if p == pid && key in s.log.snapshots[pid] && s.log.snapshots[pid][key] == s.models[key] {
        assert ReplayOf(p, s.models[key]) in s.log.answered;
      }
    }
  }

  lemma {:induction false} ReturnKeepsLoads(s: State, id: MessageId)
    requires FanOutInv(s) && LoadInv(s) && Enabled(s, Return(id))
    ensures FanOutInv(Step(s, Return(id))) && LoadInv(Step(s, Return(id)))
  {
    var t := Step(s, Return(id));
    forall pid, key | pid in t.workers && PastLock(t, pid) && Established(t, key)
      ensures Covered(t, pid, t.models[key])
    {
      assert Established(s, key) && Covered(s, pid, s.models[key]);
      if Loaded(s, pid, s.models[key]) { LoadedStays(s, t, pid, s.models[key]); }
    }
  }

  /** The steps that leave registry, answers and snapshots alone, and let no worker past the lock. */
  lemma {:induction false} OthersKeepLoads(s: State, t: State)
    requires LoadInv(s)
    requires t.models == s.models && s.log.early <= t.log.early
    requires t.log.answered == s.log.answered && t.log.snapshots == s.log.snapshots
    requires forall pid :: pid in t.workers && PastLock(t, pid) ==>
                             pid in s.workers && PastLock(s, pid) && t.phase[pid] == s.phase[pid]
    ensures LoadInv(t)
  {
    forall pid, key | pid in t.workers && PastLock(t, pid) && Established(t, key)
      ensures Covered(t, pid, t.models[key])
    {
      assert Established(s, key) && Covered(s, pid, s.models[key]);
    }
  }

  lemma {:induction false} EarlyAddKeepsLoads(s: State, oldKey: string, settings: Settings)
    requires FanOutInv(s) && LoadInv(s)
    ensures FanOutInv(Step(s, EarlyAdd(oldKey, settings))) && LoadInv(Step(s, EarlyAdd(oldKey, settings)))
  {
    var t := Step(s, EarlyAdd(oldKey, settings));
    forall pid, key | pid in t.workers && PastLock(t, pid) && Established(t, key)
      ensures Covered(t, pid, t.models[key])
    {
      assert Established(s, key) && t.models[key] == s.models[key];
    }
  }

  lemma {:induction false} StepKeepsFanOut(s: State, e: Event)
    requires InDict(s) && FanOutInv(s) && Enabled(s, e)
    ensures FanOutInv(Step(s, e))
  {
  }

  lemma {:induction false} StepKeepsLoads(s: State, e: Event)
    requires InDict(s) && FanOutInv(s) && LoadInv(s) && Enabled(s, e)
    ensures FanOutInv(Step(s, e)) && LoadInv(Step(s, e))
  {
    match e
    case EndUpdate(ok) => EndKeepsLoads(s, ok);
    case PassLock(pid, keys) => PassLockKeepsLoads(s, pid, keys);
    case BecomeReady(pid) => ReadyKeepsLoads(s, pid);
    case EarlyAdd(oldKey, settings) => EarlyAddKeepsLoads(s, oldKey, settings);
    case Return(id) => ReturnKeepsLoads(s, id);
    case _ =>
      StepKeepsFanOut(s, e);
      OthersKeepLoads(s, Step(s, e));
  }

  lemma {:induction false} RunTaskKeepsSent(s: State, id: MessageId)
    requires SentInv(s) && Enabled(s, RunTask(id))
    ensures SentInv(Step(s, RunTask(id)))
  {
    var t := Step(s, RunTask(id));
    assert forall task :: task in s.tasks && task != s.tasks[0] ==> task in t.tasks;
  }

  lemma {:induction false} PassLockKeepsSent(s: State, pid: Pid, keys: seq<string>)
    requires SentInv(s) && Enabled(s, PassLock(pid, keys))
    ensures SentInv(Step(s, PassLock(pid, keys)))
  {
    var replays := Replays(pid, s.models, keys);
    forall key | key in s.models ensures ReplayOf(pid, s.models[key]) in replays {
      var i :| 0 <= i < |keys| && keys[i] == key;
      assert replays[i] == ReplayOf(pid, s.models[key]);
    }
  }

  lemma {:induction false} StepKeepsSent(s: State, e: Event)
    requires SentInv(s) && Enabled(s, e)
    ensures SentInv(Step(s, e))
  {
    if e.RunTask? {
      RunTaskKeepsSent(s, e.id);
    } else if e.PassLock? {
      PassLockKeepsSent(s, e.pid, e.keys);
    } else if e.Return? {
      ReturnKeepsSent(s, e.id);
    } else if e.BeginUpdate? || e.EndUpdate? || e.EarlyAdd? {
      MoreTasksKeepSent(s, Step(s, e));
    } else {
      OthersKeepSent(s, e);
    }
  }

  lemma {:induction false} OthersKeepSent(s: State, e: Event)
    requires SentInv(s) && Enabled(s, e)
    requires !e.RunTask? && !e.PassLock? && !e.Return? && !e.BeginUpdate? && !e.EndUpdate? && !e.EarlyAdd?
    ensures SentInv(Step(s, e))
  {
    assert Step(s, e).log == s.log && Step(s, e).tasks == s.tasks;
  }

  lemma {:induction false} MoreTasksKeepSent(s: State, t: State)
    requires SentInv(s)
    requires t.log.sent == s.log.sent && t.log.sentBy == s.log.sentBy
    requires t.log.answered == s.log.answered && t.log.broken == s.log.broken
    requires t.log.snapshots == s.log.snapshots && s.tasks <= t.tasks
    ensures SentInv(t)
  {
    assert forall task :: task in s.tasks ==> task in t.tasks;
  }

  lemma {:induction false} ReturnKeepsSent(s: State, id: MessageId)
    requires SentInv(s) && Enabled(s, Return(id))
    ensures SentInv(Step(s, Return(id)))
  {
  }

  // ---------- Crashes ----------

  /** Dead workers stay out of the dict, except that one which died while waiting for the lock is put
      back when it gets the lock. */
  ghost predicate DeadInv(s: State) {
    && s.seen.zombies <= s.seen.stopped
    && (forall pid :: pid in s.seen.stopped ==> pid in s.phase)
    && (forall pid :: pid in s.seen.stopped && pid !in s.seen.zombies ==> pid !in s.workers && !s.phase[pid].Starting?)
  }

  ghost predicate MessageInv(s: State) {
    && Mirrored(s.async)
    && s.seen.requestIds <= s.seen.usedIds && s.seen.late <= s.seen.usedIds
    && s.seen.returned <= s.seen.usedIds && s.async.futures.Keys == s.seen.usedIds - s.seen.returned
    && forall i :: 0 <= i < |s.async.callbacks| ==> s.async.callbacks[i].id in s.seen.usedIds
  }

  /** Every message tracked for a dead worker is on its way to completion, unless it was tracked after
      the death; and no inference request was, except for a worker that died while starting. */
  ghost predicate CancelInv(s: State, id: MessageId) {
    id in s.async.futures && id in s.async.futuresMap ==>
      && (s.async.futuresMap[id] in s.seen.stopped && id !in s.seen.late ==> Completing(s.async, id))
      && (id in s.seen.late ==> s.async.futuresMap[id] in s.seen.stopped)
      && (id in s.seen.late && id in s.seen.requestIds ==> s.async.futuresMap[id] in s.seen.zombies)
  }

  ghost predicate CrashInv(s: State) {
    DeadInv(s) && MessageInv(s) && forall id :: CancelInv(s, id)
  }

  lemma {:induction false} StepKeepsDead(s: State, e: Event)
    requires InDict(s) && DeadInv(s) && Enabled(s, e)
    ensures DeadInv(Step(s, e))
  {
  }

  lemma {:induction false} TrackKeepsMessages(s: State, t: State, id: MessageId, pid: Pid)
    requires MessageInv(s) && id !in s.seen.usedIds
    requires t.async == Schedule(s.async, id, pid)
    requires t.seen.usedIds == s.seen.usedIds + {id} && t.seen.returned == s.seen.returned
    requires t.seen.requestIds <= t.seen.usedIds && t.seen.late <= t.seen.usedIds
    ensures MessageInv(t)
  {
    ScheduleMirrors(s.async, id, pid);
  }

  lemma {:induction false} DeathKeepsMessages(s: State, pid: Pid, exitCode: int, order: seq<MessageId>)
    requires MessageInv(s) && Enabled(s, WorkerDies(pid, exitCode, order))
    ensures MessageInv(Step(s, WorkerDies(pid, exitCode, order)))
  {
    CancelMirrors(s.async, pid, exitCode, order);
    forall i | 0 <= i < |order| ensures order[i] in s.seen.usedIds {
      assert order[i] in InFlight(s.async, pid);
      assert order[i] in s.async.futures.Keys;
    }
  }

  /** A step that tracks nothing new and forgets at most one message, whose sender returns. */
  lemma {:induction false} OtherKeepsMessages(s: State, t: State)
    requires MessageInv(s) && Mirrored(t.async)
    requires t.seen.usedIds == s.seen.usedIds && t.seen.requestIds == s.seen.requestIds && t.seen.late == s.seen.late
    requires t.seen.returned <= t.seen.usedIds && t.async.futures.Keys == t.seen.usedIds - t.seen.returned
    requires forall i :: 0 <= i < |t.async.callbacks| ==> t.async.callbacks[i].id in t.seen.usedIds
    ensures MessageInv(t)
  {
  }

  lemma {:induction false} StepKeepsMessages(s: State, e: Event)
    requires MessageInv(s) && Enabled(s, e)
    ensures MessageInv(Step(s, e))
  {
    var t := Step(s, e);
    match e
    case Request(id) => TrackKeepsMessages(s, t, id, Pick(s));
    case RunTask(id) => TrackKeepsMessages(s, t, id, s.tasks[0].pid);
    case WorkerDies(pid, exitCode, order) => DeathKeepsMessages(s, pid, exitCode, order);
    case Respond(id, _) =>
      SameMapsMirror(s.async, t.async);
      assert id in s.async.futures ==> id in s.async.futures.Keys;
      OtherKeepsMessages(s, t);
    case LoopTurn =>
      SameMapsMirror(s.async, t.async);
      OtherKeepsMessages(s, t);
    case Return(id) =>
      ClearMirrors(s.async, id);
      assert t.async.futures.Keys == s.async.futures.Keys - {id};
      OtherKeepsMessages(s, t);
    case CancelCaller(id) =>
      SetDoneMirrors(s.async, id, CallerCancelled);
      OtherKeepsMessages(s, t);
    case _ => OtherKeepsMessages(s, t);
  }

  lemma {:induction false} TrackKeepsCancel(s: State, t: State, newId: MessageId, pid: Pid, id: MessageId)
    requires MessageInv(s) && CancelInv(s, id) && newId !in s.seen.usedIds
    requires t.async == Schedule(s.async, newId, pid)
    requires t.seen.stopped == s.seen.stopped && t.seen.zombies == s.seen.zombies
    requires t.seen.late == if pid in s.seen.stopped then s.seen.late + {newId} else s.seen.late
    requires || t.seen.requestIds == s.seen.requestIds
             || (t.seen.requestIds == s.seen.requestIds + {newId} && (pid in s.seen.stopped ==> pid in s.seen.zombies))
    ensures CancelInv(t, id)
  {
    if id != newId && id in s.async.futures && Completing(s.async, id) {
      MoreCallbacksKeepCompleting(s.async, t.async, id);
    }
  }

  lemma {:induction false} DeathKeepsCancel(s: State, pid: Pid, exitCode: int, order: seq<MessageId>, id: MessageId)
    requires MessageInv(s) && CancelInv(s, id) && Enabled(s, WorkerDies(pid, exitCode, order))
    ensures CancelInv(Step(s, WorkerDies(pid, exitCode, order)), id)
  {
    if id in s.async.futures && (s.async.futuresMap[id] == pid || Completing(s.async, id)) {
      CancelCompletesInFlight(s.async, pid, exitCode, order, id);
    }
  }

  /** A step that only moves messages along: the tracked ids shrink or stay, nothing is forgotten that
      was about to complete. */
  lemma {:induction false} OtherKeepsCancel(s: State, e: Event, id: MessageId)
    requires MessageInv(s) && CancelInv(s, id) && Enabled(s, e)
    requires e.Respond? || e.LoopTurn? || e.Return? || e.CancelCaller?
    ensures CancelInv(Step(s, e), id)
  {
    var t := Step(s, e);
    if id in t.async.futures && Completing(s.async, id) {
      match e {
        case LoopTurn => RunCallbackKeepsCompleting(s.async, id);
        case CancelCaller(other) => if other != id { MoreCallbacksKeepCompleting(s.async, t.async, id); }
        case _ => MoreCallbacksKeepCompleting(s.async, t.async, id);
      }
    }
  }

  lemma {:induction false} StepKeepsCancel(s: State, e: Event, id: MessageId)
    requires InDict(s) && MessageInv(s) && CancelInv(s, id) && Enabled(s, e)
    requires forall pid :: pid in s.seen.stopped && pid !in s.seen.zombies ==> pid !in s.workers
    ensures CancelInv(Step(s, e), id)
  {
    match e
    case Request(newId) =>
      assert Pick(s) in s.rotation;
      TrackKeepsCancel(s, Step(s, e), newId, Pick(s), id);
    case RunTask(newId) => TrackKeepsCancel(s, Step(s, e), newId, s.tasks[0].pid, id);
    case WorkerDies(pid, exitCode, order) => DeathKeepsCancel(s, pid, exitCode, order, id);
    case Respond(_, _) => OtherKeepsCancel(s, e, id);
    case LoopTurn => OtherKeepsCancel(s, e, id);
    case Return(_) => OtherKeepsCancel(s, e, id);
    case CancelCaller(_) => OtherKeepsCancel(s, e, id);
    case _ =>
  }

  lemma {:induction false} StepKeepsCrash(s: State, e: Event)
    requires InDict(s) && CrashInv(s) && Enabled(s, e)
    ensures CrashInv(Step(s, e))
  {
    StepKeepsDead(s, e);
    StepKeepsMessages(s, e);
    forall id ensures CancelInv(Step(s, e), id) { StepKeepsCancel(s, e, id); }
  }

  // ---------- Every run ----------

  ghost predicate PoolInv(s: State) {
    RotationInv(s) && FanOutInv(s) && LoadInv(s) && SentInv(s) && CrashInv(s)
  }

  lemma {:induction false} StepKeepsPool(s: State, e: Event)
    requires PoolInv(s) && Enabled(s, e)
    ensures PoolInv(Step(s, e))
  {
    StepKeepsRotation(s, e);
    StepKeepsLoads(s, e);
    StepKeepsSent(s, e);
    StepKeepsCrash(s, e);
  }

  lemma {:induction false} RunKeepsPool(s: State, events: seq<Event>)
    requires PoolInv(s)
    ensures PoolInv(Run(s, events))
  {
    if events != [] {
      var t, e := Run(s, events[..|events| - 1]), events[|events| - 1];
      RunKeepsPool(s, events[..|events| - 1]);
      if Enabled(t, e) { StepKeepsPool(t, e); }
    }
  }

  lemma {:induction false} EveryRunKeepsPool(pids: seq<Pid>, events: seq<Event>)
    requires NoRepeats(pids)
    ensures PoolInv(After(pids, events))
  {
    RunKeepsPool(Init(pids), events);
  }

  /** Rotation soundness: in every run, a pick from a non-empty rotation finds a worker in the dict. */
  lemma {:induction false} PickFindsAWorker(pids: seq<Pid>, events: seq<Event>)
    requires NoRepeats(pids) && After(pids, events).rotation != []
    ensures Pick(After(pids, events)) in After(pids, events).workers
  {
    EveryRunKeepsPool(pids, events);
  }

  /** In-flight bookkeeping: in every run the maps of messages and workers are mutually inverse. */
  lemma {:induction false} EveryRunMirrors(pids: seq<Pid>, events: seq<Event>)
    requires NoRepeats(pids)
    ensures Mirrored(After(pids, events).async)
  {
    EveryRunKeepsPool(pids, events);
  }

  /** No lost model update: in every run, every worker in the dict that is initial or has finished its
      replay has been sent, and has answered with a result, the load of every established model of the
      registry; one that is past its replay snapshot has, or has it among its replays, each of which was
      sent or is queued. */
  lemma {:induction false} NoLostLoad(pids: seq<Pid>, events: seq<Event>, pid: Pid, key: string)
    requires NoRepeats(pids) && pid in After(pids, events).workers && Established(After(pids, events), key)
    ensures var s := After(pids, events);
            var settings := s.models[key];
            && pid in s.phase
            && (s.phase[pid].Ready? ==> Loaded(s, pid, settings) && LoadSent(s, pid, settings))
            && (s.phase[pid].Replaying? ==>
                  && Covered(s, pid, settings)
                  && (LoadSent(s, pid, settings) || ReplayOf(pid, settings) in s.tasks))
  {
    EveryRunKeepsPool(pids, events);
    var s := After(pids, events);
    if PastLock(s, pid) { assert Covered(s, pid, s.models[key]); }
  }

  /** Nothing is left behind: in every run the tracked messages are exactly those whose sender has not
      returned, so that all three maps are empty of ids once every sender has. */
  lemma {:induction false} TrackedUntilReturned(pids: seq<Pid>, events: seq<Event>)
    requires NoRepeats(pids)
    ensures var s := After(pids, events);
            && s.async.futures.Keys == s.async.futuresMap.Keys == s.seen.usedIds - s.seen.returned
            && (s.seen.usedIds == s.seen.returned ==>
                  s.async.futures == map[] && s.async.futuresMap == map[] && forall pid :: InFlight(s.async, pid) == {})
  {
    EveryRunKeepsPool(pids, events);
    var s := After(pids, events);
    if s.seen.usedIds == s.seen.returned {
      assert s.async.futures.Keys == {};
      NothingLeftBehind(s.async);
    }
  }

  /** Each future completes at most once: in every run, a future that is done keeps its outcome through
      any further step until its sender takes it, also when a response comes late or a worker dies;
      and a message whose sender has returned is never tracked again. */
  lemma {:induction false} EachFutureCompletesOnce(pids: seq<Pid>, events: seq<Event>, e: Event, id: MessageId)
    requires NoRepeats(pids) && Enabled(After(pids, events), e)
    ensures var s, t := After(pids, events), Step(After(pids, events), e);
            && (id in s.async.futures && s.async.futures[id].Done? ==>
                  if e == Return(id) then id !in t.async.futures
                  else id in t.async.futures && t.async.futures[id] == s.async.futures[id])
            && (id in s.seen.usedIds && id !in s.async.futures ==> id in t.seen.usedIds && id !in t.async.futures)
  {
    EveryRunKeepsPool(pids, events);
  }
}
