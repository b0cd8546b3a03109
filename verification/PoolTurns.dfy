/** mlserver/parallel/dispatcher.py:225-244: what follows from the event loop's order for an update that is
    fanned out. No coroutine of it waits for its first turn any more by the time a message of it has come
    to an end, and every worker's part is queued, in flight, answered, or broken. */
module PoolTurns {
  import opened OrderedDict
  import opened AsyncResponding
  import opened PoolProtocol

  /** Every completion is scheduled behind tasks that there are. */
  ghost predicate Stamped(s: State) {
    && |s.turns.behind| == |s.async.callbacks|
    && forall i :: 0 <= i < |s.turns.behind| ==> s.turns.behind[i] <= s.turns.started + |s.tasks|
  }

  predicate Begun(log: Log, task: UpdateTask) {
    task.round.Some? ==> task.round.value < log.rounds
  }

  /** Only updates that have begun have tasks. */
  ghost predicate BegunInv(s: State) {
    && s.log.sentBy.Keys <= s.seen.usedIds
    && (s.lock.Some? ==> s.lock.value.round < s.log.rounds)
    && (forall i :: 0 <= i < |s.tasks| ==> Begun(s.log, s.tasks[i]))
    && (forall id :: id in s.log.sentBy ==> Begun(s.log, s.log.sentBy[id]))
    && (forall task :: task in s.log.answered ==> Begun(s.log, task))
    && (forall task :: task in s.log.broken ==> Begun(s.log, task))
  }

  predicate SentByLocked(s: State, id: MessageId) {
    id in s.log.sentBy && OfLocked(s, s.log.sentBy[id])
  }

  /** The fan-out of the update under the lock has had its turn. */
  predicate FannedOut(s: State) {
    s.turns.started >= s.log.upTo
  }

  /** The tasks of the update under the lock are the first ones in the queue that have not run. */
  ghost predicate QueuedInv(s: State) {
    s.lock.Some? ==>
      && s.log.upTo <= s.turns.started + |s.tasks|
      && forall i :: 0 <= i < |s.tasks| && OfLocked(s, s.tasks[i]) ==> s.turns.started + i < s.log.upTo
  }

  /** No message of the update is on its way to completion before its fan-out has had its turn. */
  ghost predicate EndsInv(s: State) {
    && (forall i :: 0 <= i < |s.async.callbacks| && SentByLocked(s, s.async.callbacks[i].id) ==>
          i < |s.turns.behind| && s.turns.behind[i] >= s.log.upTo)
    && (forall id :: SentByLocked(s, id) && id in s.async.futures && s.async.futures[id].Done? ==> FannedOut(s))
    && (forall task :: task in s.log.answered && OfLocked(s, task) ==> FannedOut(s))
    && (forall task :: task in s.log.broken && OfLocked(s, task) ==> FannedOut(s))
  }

  /** A message of the task waits for its sender. */
  ghost predicate InFlightFor(s: State, task: UpdateTask) {
    exists id :: id in s.log.sentBy && s.log.sentBy[id] == task && id in s.async.futures
  }

  ghost predicate Followed(s: State, task: UpdateTask) {
    task in s.tasks || task in s.log.answered || task in s.log.broken || InFlightFor(s, task)
  }

  /** Every worker's part of the update under the lock is queued, in flight, answered, or broken. */
  ghost predicate GatherInv(s: State) {
    s.lock.Some? ==> forall pid :: pid in s.lock.value.workers ==> Followed(s, TaskOf(s.lock.value, pid))
  }

  ghost predicate TurnInv(s: State) {
    Stamped(s) && BegunInv(s) && QueuedInv(s) && EndsInv(s) && GatherInv(s)
  }

  // ---------- Steps ----------

  lemma {:induction false} StepKeepsStamps(s: State, e: Event)
    requires Stamped(s) && Enabled(s, e)
    ensures Stamped(Step(s, e))
  {
  }

  predicate MovesUpdates(e: Event) {
    e.BeginUpdate? || e.EndUpdate? || e.PassLock? || e.RunTask?
  }

  lemma {:induction false} CreationsKeepBegun(s: State, e: Event)
    requires BegunInv(s) && Enabled(s, e) && (e.BeginUpdate? || e.PassLock?)
    ensures BegunInv(Step(s, e))
  {
  }

  lemma {:induction false} RunTaskKeepsBegun(s: State, id: MessageId)
    requires BegunInv(s) && Enabled(s, RunTask(id))
    ensures BegunInv(Step(s, RunTask(id)))
  {
  }

  lemma {:induction false} ReturnKeepsBegun(s: State, id: MessageId)
    requires BegunInv(s) && Enabled(s, Return(id))
    ensures BegunInv(Step(s, Return(id)))
  {
  }

  lemma {:induction false} OthersKeepBegun(s: State, t: State)
    requires BegunInv(s) && s.seen.usedIds <= t.seen.usedIds && t.tasks == s.tasks && t.log.rounds == s.log.rounds
    requires t.log.sentBy == s.log.sentBy && t.log.answered == s.log.answered && t.log.broken == s.log.broken
    requires t.lock.Some? ==> t.lock == s.lock
    ensures BegunInv(t)
  {
  }

  lemma {:induction false} StepKeepsBegun(s: State, e: Event)
    requires BegunInv(s) && Enabled(s, e)
    ensures BegunInv(Step(s, e))
  {
    if e.BeginUpdate? || e.PassLock? {
      CreationsKeepBegun(s, e);
    } else if e.RunTask? {
      RunTaskKeepsBegun(s, e.id);
    } else if e.Return? {
      ReturnKeepsBegun(s, e.id);
    } else {
      OthersKeepBegun(s, Step(s, e));
    }
  }

  lemma {:induction false} StepKeepsQueued(s: State, e: Event)
    requires BegunInv(s) && QueuedInv(s) && Enabled(s, e)
    ensures QueuedInv(Step(s, e))
  {
  }

  lemma {:induction false} RespondKeepsEnds(s: State, id: MessageId, response: Response)
    requires Stamped(s) && QueuedInv(s) && EndsInv(s)
    ensures EndsInv(Step(s, Respond(id, response)))
  {
  }

  lemma {:induction false} LoopTurnKeepsEnds(s: State)
    requires Stamped(s) && EndsInv(s) && Enabled(s, LoopTurn)
    ensures EndsInv(Step(s, LoopTurn))
  {
  }

  lemma {:induction false} DeathKeepsEnds(s: State, pid: Pid, exitCode: int, order: seq<MessageId>)
    requires Stamped(s) && QueuedInv(s) && EndsInv(s) && Enabled(s, WorkerDies(pid, exitCode, order))
    ensures EndsInv(Step(s, WorkerDies(pid, exitCode, order)))
  {
  }

  lemma {:induction false} CancelKeepsEnds(s: State, id: MessageId)
    requires EndsInv(s) && Enabled(s, CancelCaller(id))
    ensures EndsInv(Step(s, CancelCaller(id)))
  {
  }

  lemma {:induction false} ReturnKeepsEnds(s: State, id: MessageId)
    requires EndsInv(s) && Enabled(s, Return(id))
    ensures EndsInv(Step(s, Return(id)))
  {
  }

  lemma {:induction false} UpdatesKeepEnds(s: State, e: Event)
    requires BegunInv(s) && MessageInv(s) && EndsInv(s) && Enabled(s, e) && MovesUpdates(e)
    ensures EndsInv(Step(s, e))
  {
  }

  lemma {:induction false} OthersKeepEnds(s: State, t: State)
    requires EndsInv(s) && t.turns == s.turns && t.lock == s.lock && t.log.upTo == s.log.upTo
    requires t.log.sentBy == s.log.sentBy && t.log.answered == s.log.answered && t.log.broken == s.log.broken
    requires t.async.callbacks == s.async.callbacks
    requires forall id :: id in t.async.futures && t.async.futures[id].Done? ==>
                            id in s.async.futures && s.async.futures[id].Done?
    ensures EndsInv(t)
  {
  }

  lemma {:induction false} StepKeepsEnds(s: State, e: Event)
    requires Stamped(s) && BegunInv(s) && MessageInv(s) && QueuedInv(s) && EndsInv(s) && Enabled(s, e)
    ensures EndsInv(Step(s, e))
  {
    if MovesUpdates(e) {
      UpdatesKeepEnds(s, e);
    } else if e.Respond? {
      RespondKeepsEnds(s, e.id, e.response);
    } else if e.LoopTurn? {
      LoopTurnKeepsEnds(s);
    } else if e.WorkerDies? {
      DeathKeepsEnds(s, e.pid, e.exitCode, e.order);
    } else if e.CancelCaller? {
      CancelKeepsEnds(s, e.id);
    } else if e.Return? {
      ReturnKeepsEnds(s, e.id);
    } else {
      OthersKeepEnds(s, Step(s, e));
    }
  }

  lemma {:induction false} RunTaskFollows(s: State, id: MessageId, task: UpdateTask)
    requires BegunInv(s) && Enabled(s, RunTask(id)) && Followed(s, task)
    ensures Followed(Step(s, RunTask(id)), task)
  {
    var t := Step(s, RunTask(id));
    if task in s.tasks {
      if task == s.tasks[0] {
        assert t.log.sentBy[id] == task && id in t.async.futures;
      } else {
        var i :| 0 <= i < |s.tasks| && s.tasks[i] == task;
        assert t.tasks[i - 1] == task;
      }
    } else if InFlightFor(s, task) {
      var sent :| sent in s.log.sentBy && s.log.sentBy[sent] == task && sent in s.async.futures;
      assert sent in t.log.sentBy && t.log.sentBy[sent] == task && sent in t.async.futures;
    }
  }

  lemma {:induction false} ReturnFollows(s: State, id: MessageId, task: UpdateTask)
    requires Enabled(s, Return(id)) && Followed(s, task)
    ensures Followed(Step(s, Return(id)), task)
  {
    var t := Step(s, Return(id));
    if InFlightFor(s, task) {
      var sent :| sent in s.log.sentBy && s.log.sentBy[sent] == task && sent in s.async.futures;
      if sent != id { assert sent in t.log.sentBy && sent in t.async.futures; }
    }
  }

  /** The steps that forget no task and no message. */
  lemma {:induction false} OthersFollow(s: State, t: State, task: UpdateTask)
    requires Followed(s, task) && s.tasks <= t.tasks && s.log.answered <= t.log.answered && t.log.broken == s.log.broken
    requires t.log.sentBy == s.log.sentBy && s.async.futures.Keys <= t.async.futures.Keys
    ensures Followed(t, task)
  {
    assert forall other :: other in s.tasks ==> other in t.tasks;
    if InFlightFor(s, task) {
      var sent :| sent in s.log.sentBy && s.log.sentBy[sent] == task && sent in s.async.futures;
      assert sent in t.async.futures.Keys;
    }
  }

  lemma {:induction false} StepFollows(s: State, e: Event, task: UpdateTask)
    requires BegunInv(s) && Enabled(s, e) && Followed(s, task)
    ensures Followed(Step(s, e), task)
  {
    if e.RunTask? {
      RunTaskFollows(s, e.id, task);
    } else if e.Return? {
      ReturnFollows(s, e.id, task);
    } else {
      OthersFollow(s, Step(s, e), task);
    }
  }

  lemma {:induction false} StepKeepsGather(s: State, e: Event)
    requires BegunInv(s) && GatherInv(s) && Enabled(s, e)
    ensures GatherInv(Step(s, e))
  {
    var t := Step(s, e);
    if t.lock.Some? {
      forall pid | pid in t.lock.value.workers ensures Followed(t, TaskOf(t.lock.value, pid)) {
        if e.BeginUpdate? {
          FanOutHas(s, e, pid);
        } else {
          StepFollows(s, e, TaskOf(s.lock.value, pid));
        }
      }
    }
  }

  lemma {:induction false} FanOutHas(s: State, e: Event, pid: Pid)
    requires Enabled(s, e) && e.BeginUpdate? && pid in s.workers
    ensures TaskOf(Step(s, e).lock.value, pid) in Step(s, e).tasks
  {
    var i :| 0 <= i < |s.workers| && s.workers[i] == pid;
    assert Step(s, e).tasks[|s.tasks| + i] == TaskOf(Step(s, e).lock.value, pid);
  }

  lemma {:induction false} StepKeepsTurns(s: State, e: Event)
    requires MessageInv(s) && TurnInv(s) && Enabled(s, e)
    ensures TurnInv(Step(s, e))
  {
    StepKeepsStamps(s, e);
    StepKeepsBegun(s, e);
    StepKeepsQueued(s, e);
    StepKeepsEnds(s, e);
    StepKeepsGather(s, e);
  }

  lemma {:induction false} RunKeepsTurns(s: State, events: seq<Event>)
    requires PoolInv(s) && TurnInv(s)
    ensures PoolInv(Run(s, events)) && TurnInv(Run(s, events))
  {
    if events != [] {
      var t, e := Run(s, events[..|events| - 1]), events[|events| - 1];
      RunKeepsTurns(s, events[..|events| - 1]);
      if Enabled(t, e) {
        StepKeepsTurns(t, e);
        StepKeepsPool(t, e);
      }
    }
  }

  lemma {:induction false} EveryRunKeepsTurns(pids: seq<Pid>, events: seq<Event>)
    requires NoRepeats(pids)
    ensures PoolInv(After(pids, events)) && TurnInv(After(pids, events))
  {
    RunKeepsTurns(Init(pids), events);
  }

  // ---------- Workers that are known ----------

  /** Only workers that were started are sent anything. */
  ghost predicate KnownInv(s: State) {
    && (forall sent :: sent in s.log.sent ==> sent.pid in s.phase)
    && forall i :: 0 <= i < |s.tasks| ==> s.tasks[i].pid in s.phase
  }

  lemma {:induction false} StepKeepsKnown(s: State, e: Event)
    requires InDict(s) && KnownInv(s) && Enabled(s, e)
    ensures KnownInv(Step(s, e))
  {
  }

  lemma {:induction false} EveryRunKeepsKnown(pids: seq<Pid>, events: seq<Event>)
    requires NoRepeats(pids)
    ensures KnownInv(After(pids, events))
  {
    if events != [] {
      var n := |events| - 1;
      EveryRunKeepsKnown(pids, events[..n]);
      EveryRunKeepsPool(pids, events[..n]);
      if Enabled(After(pids, events[..n]), events[n]) { StepKeepsKnown(After(pids, events[..n]), events[n]); }
    }
  }

  // ---------- Results ----------

  /** A worker gets into rotation exactly when it is in the dict as another one dies or as some worker has
      finished its replay: it need not have finished its own, nor have got the lock. */
  lemma {:induction false} EntersRotationExactly(pids: seq<Pid>, events: seq<Event>, e: Event, pid: Pid)
    requires NoRepeats(pids) && Enabled(After(pids, events), e) && pid !in After(pids, events).rotation
    ensures pid in Step(After(pids, events), e).rotation
        <==> pid in After(pids, events).workers && (e.BecomeReady? || (e.WorkerDies? && e.pid != pid))
  {
  }

  lemma {:induction false} EndMeansFannedOut(s: State, ok: bool)
    requires EndsInv(s) && QueuedInv(s) && Enabled(s, EndUpdate(ok)) && s.lock.value.workers != []
    ensures forall i :: 0 <= i < |s.tasks| ==> !OfLocked(s, s.tasks[i])
  {
    var u := s.lock.value;
    if ok {
      assert u.workers[0] in u.workers;
      assert TaskOf(u, u.workers[0]) in s.log.answered && OfLocked(s, TaskOf(u, u.workers[0]));
    } else {
      var pid :| pid in u.workers && TaskOf(u, pid) in s.log.broken;
      assert OfLocked(s, TaskOf(u, pid));
    }
  }

  /** In every run, however an update ends, well or not: it was sent to every worker that was in the dict
      when it began. */
  lemma {:induction false} EndedUpdateWasSent(pids: seq<Pid>, events: seq<Event>, ok: bool, pid: Pid)
    requires NoRepeats(pids) && Enabled(After(pids, events), EndUpdate(ok))
    requires pid in After(pids, events).lock.value.workers
    ensures var s := After(pids, events);
            TaskOf(s.lock.value, pid) !in s.tasks && WasSent(s, TaskOf(s.lock.value, pid))
  {
    var s := After(pids, events);
    EveryRunKeepsTurns(pids, events);
    EndMeansFannedOut(s, ok);
    assert OfLocked(s, TaskOf(s.lock.value, pid));
    assert Followed(s, TaskOf(s.lock.value, pid));
  }
}
