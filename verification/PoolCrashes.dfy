/** mlserver/parallel/dispatcher.py:97-129, 148-176 and mlserver/parallel/pool.py:115-164: what a worker's
    death means for the messages it was serving, and for those that are sent to it afterwards. */
module PoolCrashes {
  import opened OrderedDict
  import opened AsyncResponding
  import opened PoolProtocol
  import opened PoolTurns

  // ---------- Messages tracked before the death ----------

  /** In every run, every in-flight message, request or update, that was tracked for a worker before it
      died is done or has its completion scheduled, and is done once the event loop has caught up. */
  lemma {:induction false} TrackedBeforeDeathCompletes(pids: seq<Pid>, events: seq<Event>, id: MessageId)
    requires NoRepeats(pids)
    requires var s := After(pids, events);
             && id in s.async.futures && id in s.async.futuresMap
             && s.async.futuresMap[id] in s.seen.stopped && id !in s.seen.late
    ensures Completing(After(pids, events).async, id)
    ensures var a := RunAll(After(pids, events).async); id in a.futures && a.futures[id].Done?
  {
    EveryRunKeepsPool(pids, events);
    assert CancelInv(After(pids, events), id);
    RunAllCompletes(After(pids, events).async, id);
  }

  /** No later request is assigned to a worker that died past the lock ... */
  lemma {:induction false} NoRequestForTheDead(pids: seq<Pid>, events: seq<Event>)
    requires NoRepeats(pids) && After(pids, events).rotation != []
    ensures Pick(After(pids, events)) !in After(pids, events).seen.stopped - After(pids, events).seen.zombies
  {
    EveryRunKeepsPool(pids, events);
  }

  /** ... so that every in-flight inference request of such a worker completes. */
  lemma {:induction false} NoOrphanedRequest(pids: seq<Pid>, events: seq<Event>, id: MessageId)
    requires NoRepeats(pids)
    requires var s := After(pids, events);
             && id in s.seen.requestIds && id in s.async.futures && id in s.async.futuresMap
             && s.async.futuresMap[id] in s.seen.stopped - s.seen.zombies
    ensures Completing(After(pids, events).async, id)
  {
    EveryRunKeepsPool(pids, events);
    assert CancelInv(After(pids, events), id);
  }

  /** A death schedules completions for the dead worker's messages and touches no future itself. */
  lemma {:induction false} DeathLeavesOthersAlone(s: State, pid: Pid, exitCode: int, order: seq<MessageId>)
    requires PoolInv(s) && Enabled(s, WorkerDies(pid, exitCode, order))
    ensures var t := Step(s, WorkerDies(pid, exitCode, order));
            && t.async.futures == s.async.futures && t.async.futuresMap == s.async.futuresMap
            && s.async.callbacks <= t.async.callbacks
            && forall i :: |s.async.callbacks| <= i < |t.async.callbacks| ==>
                             && t.async.callbacks[i].id in s.async.futuresMap
                             && s.async.futuresMap[t.async.callbacks[i].id] == pid
  {
    forall i | 0 <= i < |order| ensures order[i] in s.async.futuresMap && s.async.futuresMap[order[i]] == pid {
      assert order[i] in InFlight(s.async, pid);
    }
  }

  // ---------- Messages tracked after the death ----------

  /** In flight for a dead worker, with no completion scheduled. */
  ghost predicate Orphaned(s: State, id: MessageId) {
    && id in s.async.futures && s.async.futures[id].Pending?
    && !Scheduled(s.async, id) && id in s.async.futuresMap && s.async.futuresMap[id] in s.seen.stopped
  }

  /** A response to the message, or the cancellation of its sender. */
  predicate Completes(e: Event, id: MessageId) {
    match e
    case Respond(other, _) => other == id
    case CancelCaller(other) => other == id
    case _ => false
  }

  /** The orphan's worker is dead already, so no other death lists its message. */
  lemma {:induction false} DeathKeepsOrphan(s: State, pid: Pid, exitCode: int, order: seq<MessageId>, id: MessageId)
    requires MessageInv(s) && Orphaned(s, id) && Enabled(s, WorkerDies(pid, exitCode, order))
    ensures Orphaned(Step(s, WorkerDies(pid, exitCode, order)), id)
  {
    forall i | 0 <= i < |order| ensures order[i] != id {
      assert order[i] in InFlight(s.async, pid);
    }
  }

  lemma {:induction false} TrackKeepsOrphan(s: State, t: State, newId: MessageId, pid: Pid, id: MessageId)
    requires MessageInv(s) && Orphaned(s, id) && newId !in s.seen.usedIds
    requires t.async == Schedule(s.async, newId, pid) && t.seen.stopped == s.seen.stopped
    ensures Orphaned(t, id)
  {
    assert id in s.async.futures.Keys;
  }

  lemma {:induction false} StepKeepsOrphan(s: State, e: Event, id: MessageId)
    requires MessageInv(s) && Orphaned(s, id) && Enabled(s, e) && !Completes(e, id)
    ensures Orphaned(Step(s, e), id)
  {
    match e
    case Request(newId) => TrackKeepsOrphan(s, Step(s, e), newId, Pick(s), id);
    case RunTask(newId) => TrackKeepsOrphan(s, Step(s, e), newId, s.tasks[0].pid, id);
    case WorkerDies(pid, exitCode, order) => DeathKeepsOrphan(s, pid, exitCode, order, id);
    case LoopTurn =>
      var t := Step(s, e);
      assert forall i :: 0 <= i < |t.async.callbacks| ==> t.async.callbacks[i] == s.async.callbacks[i + 1];
    case _ =>
  }

  /** The worker a step tracks the message for. */
  ghost predicate Tracks(s: State, e: Event, id: MessageId, pid: Pid)
    requires Enabled(s, e)
  {
    match e
    case Request(newId) => newId == id && Pick(s) == pid
    case RunTask(newId) => newId == id && s.tasks[0].pid == pid
    case _ => false
  }

  lemma {:induction false} TrackedForTheDead(s: State, e: Event, id: MessageId, pid: Pid)
    requires MessageInv(s) && Enabled(s, e) && Tracks(s, e, id, pid)
    ensures id in Step(s, e).seen.usedIds && (id in Step(s, e).seen.late <==> pid in s.seen.stopped)
    ensures pid in s.seen.stopped ==> Orphaned(Step(s, e), id)
  {
    assert id !in s.async.futures.Keys;
  }

  lemma {:induction false} StepKeepsLate(s: State, e: Event, id: MessageId)
    requires Enabled(s, e) && id in s.seen.usedIds
    ensures id in Step(s, e).seen.usedIds && (id in Step(s, e).seen.late <==> id in s.seen.late)
  {
  }

  /** Whether a message was tracked for a dead worker is settled when it is tracked, and one that was
      stays an orphan. */
  lemma {:induction false} RunKeepsLate(s: State, events: seq<Event>, id: MessageId)
    requires PoolInv(s) && id in s.seen.usedIds
    ensures PoolInv(Run(s, events)) && id in Run(s, events).seen.usedIds
    ensures id in Run(s, events).seen.late <==> id in s.seen.late
    ensures Orphaned(s, id) && (forall i :: 0 <= i < |events| ==> !Completes(events[i], id)) ==>
              Orphaned(Run(s, events), id)
  {
    if events != [] {
      var n := |events| - 1;
      var t, e := Run(s, events[..n]), events[n];
      RunKeepsLate(s, events[..n], id);
      if Enabled(t, e) {
        StepKeepsPool(t, e);
        StepKeepsLate(t, e, id);
        if Orphaned(t, id) && !Completes(e, id) { StepKeepsOrphan(t, e, id); }
      }
    }
  }

  /** Exactly which messages of the dead complete, requests and updates alike: in every continuation
      without a response to the message or a cancellation of its sender, one that is in flight for a
      dead worker is on its way to completion if and only if the worker was alive when it was tracked. */
  lemma {:induction false} CompletesExactlyIfTrackedAlive(
      pids: seq<Pid>, before: seq<Event>, e: Event, after: seq<Event>, id: MessageId, pid: Pid)
    requires NoRepeats(pids) && Enabled(After(pids, before), e) && Tracks(After(pids, before), e, id, pid)
    requires forall i :: 0 <= i < |after| ==> !Completes(after[i], id)
    requires var t := Run(Step(After(pids, before), e), after);
             id in t.async.futures && id in t.async.futuresMap && t.async.futuresMap[id] in t.seen.stopped
    ensures Completing(Run(Step(After(pids, before), e), after).async, id)
        <==> pid !in After(pids, before).seen.stopped
  {
    var s := After(pids, before);
    EveryRunKeepsPool(pids, before);
    StepKeepsPool(s, e);
    TrackedForTheDead(s, e, id, pid);
    RunKeepsLate(Step(s, e), after, id);
    assert CancelInv(Run(Step(s, e), after), id);
  }

  ghost predicate LateIsOrphaned(s: State, id: MessageId) {
    id in s.seen.late && id in s.async.futures ==> Orphaned(s, id)
  }

  lemma {:induction false} StepKeepsLateOrphaned(s: State, e: Event, id: MessageId)
    requires MessageInv(s) && LateIsOrphaned(s, id) && Enabled(s, e) && !Completes(e, id)
    ensures LateIsOrphaned(Step(s, e), id)
  {
    if e.Request? && e.id == id {
      TrackedForTheDead(s, e, id, Pick(s));
    } else if e.RunTask? && e.id == id {
      TrackedForTheDead(s, e, id, s.tasks[0].pid);
    } else if Orphaned(s, id) {
      StepKeepsOrphan(s, e, id);
    }
  }

  lemma {:induction false} RunKeepsLateOrphaned(pids: seq<Pid>, events: seq<Event>, id: MessageId)
    requires NoRepeats(pids) && forall i :: 0 <= i < |events| ==> !Completes(events[i], id)
    ensures LateIsOrphaned(After(pids, events), id)
  {
    if events != [] {
      var n := |events| - 1;
      RunKeepsLateOrphaned(pids, events[..n], id);
      EveryRunKeepsPool(pids, events[..n]);
      if Enabled(After(pids, events[..n]), events[n]) {
        StepKeepsLateOrphaned(After(pids, events[..n]), events[n], id);
      }
    }
  }

  /** The same in terms of the state alone: without a response or a cancellation, an in-flight message of
      a dead worker completes exactly unless it was tracked after the death. */
  lemma {:induction false} CompletesExactlyUnlessLate(pids: seq<Pid>, events: seq<Event>, id: MessageId)
    requires NoRepeats(pids) && forall i :: 0 <= i < |events| ==> !Completes(events[i], id)
    requires var s := After(pids, events);
             id in s.async.futures && id in s.async.futuresMap && s.async.futuresMap[id] in s.seen.stopped
    ensures Completing(After(pids, events).async, id) <==> id !in After(pids, events).seen.late
  {
    EveryRunKeepsPool(pids, events);
    RunKeepsLateOrphaned(pids, events, id);
    assert CancelInv(After(pids, events), id);
  }

  // ---------- The dead that return ----------

  ghost predicate Buried(s: State, pid: Pid) {
    pid in s.seen.stopped && PastLock(s, pid) && pid !in s.workers
  }

  lemma {:induction false} StepKeepsBuried(s: State, e: Event, pid: Pid)
    requires Buried(s, pid) && Enabled(s, e)
    ensures Buried(Step(s, e), pid)
  {
  }

  lemma {:induction false} BuriedStayBuried(s: State, events: seq<Event>, pid: Pid)
    requires Buried(s, pid)
    ensures Buried(Run(s, events), pid)
  {
    if events != [] {
      var t, e := Run(s, events[..|events| - 1]), events[|events| - 1];
      BuriedStayBuried(s, events[..|events| - 1], pid);
      if Enabled(t, e) { StepKeepsBuried(t, e, pid); }
    }
  }

  lemma {:induction false} ListKeys(models: map<string, Settings>) returns (keys: seq<string>)
    ensures ListsKeys(models, keys)
  {
    if models == map[] {
      keys := [];
    } else {
      var key :| key in models;
      var rest := ListKeys(models - {key});
      keys := [key] + rest;
    }
  }

  // ---------- An update always can come to its end ----------

  predicate SameWorkers(s: State, t: State) {
    t.phase == s.phase && t.workers == s.workers && t.seen.stopped == s.seen.stopped
  }

  lemma {:induction false} FreshId(ids: set<MessageId>) returns (id: MessageId)
    ensures forall other :: other in ids ==> other < id
  {
    if ids == {} {
      id := 0;
    } else {
      var one :| one in ids;
      var above := FreshId(ids - {one});
      id := if one < above then above else one + 1;
      forall other | other in ids ensures other < id {
        if other != one { assert other in ids - {one}; }
      }
    }
  }

  lemma {:induction false} SomeTurn(s: State) returns (e: Event)
    requires Stamped(s) && (s.tasks != [] || s.async.callbacks != [])
    ensures Enabled(s, e) && SameWorkers(s, Step(s, e)) && Step(s, e).lock == s.lock
    ensures |Step(s, e).tasks| + |Step(s, e).async.callbacks| < |s.tasks| + |s.async.callbacks|
  {
    if TasksTurn(s) {
      var id := FreshId(s.seen.usedIds);
      e := RunTask(id);
    } else {
      e := LoopTurn;
    }
  }

  lemma {:induction false} RunFirst(s: State, e: Event, events: seq<Event>)
    requires Enabled(s, e)
    ensures Run(s, [e] + events) == Run(Step(s, e), events)
  {
    RunsCompose(s, [e], events);
    RunOneMore(s, [], e);
    assert [] + [e] == [e];
  }

  /** The event loop catches up. */
  lemma {:induction false} CatchUp(s: State) returns (events: seq<Event>)
    requires PoolInv(s) && TurnInv(s)
    ensures var t := Run(s, events);
            && PoolInv(t) && TurnInv(t) && t.tasks == [] && t.async.callbacks == []
            && SameWorkers(s, t) && t.lock == s.lock
    decreases |s.tasks| + |s.async.callbacks|
  {
    if s.tasks == [] && s.async.callbacks == [] {
      events := [];
    } else {
      var e := SomeTurn(s);
      StepKeepsTurns(s, e);
      StepKeepsPool(s, e);
      var rest := CatchUp(Step(s, e));
      RunFirst(s, e, rest);
      events := [e] + rest;
    }
  }

  /** Some message of the update has a sender that still waits. */
  lemma {:induction false} SomethingInFlight(s: State) returns (id: MessageId)
    requires PoolInv(s) && TurnInv(s) && s.tasks == [] && s.lock.Some?
    requires !AllAnswered(s, s.lock.value) && !SomeBroken(s, s.lock.value)
    ensures id in s.async.futures && id in s.async.futuresMap
    ensures s.async.futures[id].Pending? ==> Enabled(s, CancelCaller(id))
  {
    var u := s.lock.value;
    var pid :| pid in u.workers && TaskOf(u, pid) !in s.log.answered;
    assert Followed(s, TaskOf(u, pid));
    id :| id in s.log.sentBy && s.log.sentBy[id] == TaskOf(u, pid) && id in s.async.futures;
    assert id in s.async.futures.Keys;
  }

  lemma {:induction false} SenderGivesUp(s: State, id: MessageId) returns (events: seq<Event>)
    requires PoolInv(s) && TurnInv(s) && id in s.async.futures && id in s.async.futuresMap
    requires s.async.futures[id].Pending? ==> Enabled(s, CancelCaller(id))
    ensures var t := Run(s, events);
            && PoolInv(t) && TurnInv(t) && SameWorkers(s, t) && t.lock == s.lock && t.tasks == s.tasks
            && t.async.futures.Keys == s.async.futures.Keys - {id}
  {
    if s.async.futures[id].Pending? {
      events := [CancelCaller(id), Return(id)];
      assert events == [CancelCaller(id)] + [Return(id)];
      RunFirst(s, CancelCaller(id), [Return(id)]);
      RunFirst(Step(s, CancelCaller(id)), Return(id), []);
    } else {
      events := [Return(id)];
      RunFirst(s, Return(id), []);
    }
    RunKeepsTurns(s, events);
  }

  lemma {:induction false} EndsNow(s: State) returns (events: seq<Event>)
    requires PoolInv(s) && s.lock.Some? && (AllAnswered(s, s.lock.value) || SomeBroken(s, s.lock.value))
    ensures var t := Run(s, events); PoolInv(t) && t.lock.None? && SameWorkers(s, t)
  {
    var ok := AllAnswered(s, s.lock.value);
    events := [EndUpdate(ok)];
    RunFirst(s, EndUpdate(ok), []);
    StepKeepsPool(s, EndUpdate(ok));
  }

  /** The update under the lock comes to an end, and nothing else happens. */
  lemma {:induction false} LockIsReleased(s: State) returns (events: seq<Event>)
    requires PoolInv(s) && TurnInv(s) && s.tasks == []
    ensures var t := Run(s, events); PoolInv(t) && t.lock.None? && SameWorkers(s, t)
    decreases |s.async.futures.Keys|
  {
    if s.lock.None? {
      events := [];
    } else if AllAnswered(s, s.lock.value) || SomeBroken(s, s.lock.value) {
      events := EndsNow(s);
    } else {
      var id := SomethingInFlight(s);
      var before := SenderGivesUp(s, id);
      assert Run(s, before).async.futures.Keys < s.async.futures.Keys;
      SmallerSet(Run(s, before).async.futures.Keys, s.async.futures.Keys);
      var rest := LockIsReleased(Run(s, before));
      RunsCompose(s, before, rest);
      events := before + rest;
    }
  }

  lemma {:induction false} SmallerSet(a: set<MessageId>, b: set<MessageId>)
    requires a < b
    ensures |a| < |b|
  {
    assert b == a + (b - a) && |b| == |a| + |b - a|;
    assert b - a != {};
  }

  /** A dead worker can get back into the dict, and so into rotation, exactly when it died while
      `_start_worker` was still waiting for the lock: `on_worker_start` then puts it back. */
  lemma {:induction false} DeadReturnsExactlyIfItDiedStarting(s: State, pid: Pid)
    requires PoolInv(s) && TurnInv(s) && pid in s.seen.stopped && pid !in s.workers
    ensures pid in s.phase
    ensures s.phase[pid].Starting? <==> exists events :: pid in Run(s, events).workers
  {
    if s.phase[pid].Starting? {
      var first := CatchUp(s);
      var second := LockIsReleased(Run(s, first));
      RunsCompose(s, first, second);
      var t := Run(s, first + second);
      var keys := ListKeys(t.models);
      RunOneMore(s, first + second, PassLock(pid, keys));
      assert pid in Run(s, first + second + [PassLock(pid, keys)]).workers;
    } else {
      forall events ensures pid !in Run(s, events).workers { BuriedStayBuried(s, events, pid); }
    }
  }
}
