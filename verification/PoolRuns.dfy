/** mlserver/parallel/dispatcher.py and mlserver/parallel/pool.py: three runs of a pool that end where one would
    not expect. */
module PoolRuns {
  import opened OrderedDict
  import opened AsyncResponding
  import opened PoolProtocol
  import opened PoolTurns
  import opened PoolCrashes

  // ---------- A request to the dead ----------

  /** Worker 1 dies. While an update is under way, its successor 2 is started, waits for the lock, and dies
      itself. Worker 3 cannot do the update, which fails. */
  function DiesWaiting(settings: Settings, exitCode: int, error: int): seq<Event> {
    [WorkerDies(1, exitCode, []), BeginUpdate(Load, settings), RunTask(20), Spawn(2), WorkerDies(2, exitCode, [])]
    + [Respond(20, Exception(error)), LoopTurn, Return(20), EndUpdate(false)]
  }

  /** Worker 2 gets the lock, has nothing to replay, and two requests come in. */
  function ReturnsAndServes(): seq<Event> {
    [PassLock(2, []), BecomeReady(2), Request(10), Request(11)]
  }

  lemma {:induction false} RunFour(s: State, a: Event, b: Event, c: Event, d: Event)
    ensures Run(s, [a, b, c, d]) == RunStep(RunStep(RunStep(RunStep(s, a), b), c), d)
  {
    RunThree(s, a, b, c);
    RunOneMore(s, [a, b, c], d);
    assert [a, b, c] + [d] == [a, b, c, d];
  }

  lemma {:induction false} RunFive(s: State, a: Event, b: Event, c: Event, d: Event, e: Event)
    ensures Run(s, [a, b, c, d, e]) == RunStep(RunStep(RunStep(RunStep(RunStep(s, a), b), c), d), e)
  {
    RunFour(s, a, b, c, d);
    RunOneMore(s, [a, b, c, d], e);
    assert [a, b, c, d] + [e] == [a, b, c, d, e];
  }

  lemma {:induction false} RunNine(s: State, a: Event, b: Event, c: Event, d: Event, e: Event,
                                   f: Event, g: Event, h: Event, i: Event)
    ensures Run(s, [a, b, c, d, e] + [f, g, h, i])
         == RunStep(RunStep(RunStep(RunStep(Run(s, [a, b, c, d, e]), f), g), h), i)
  {
    RunsCompose(s, [a, b, c, d, e], [f, g, h, i]);
    RunFour(Run(s, [a, b, c, d, e]), f, g, h, i);
  }

  lemma {:induction false} TurnCompletes(s: State)
    requires s.async.callbacks != [] && !TasksTurn(s)
    ensures RunStep(s, LoopTurn)
         == s.(async := RunCallback(s.async), turns := s.turns.(behind := s.turns.behind[1..]))
  {
  }

  /** A sender's return touches nothing but its message. */
  ghost predicate OnlyReturned(s: State, t: State) {
    && t == s.(async := t.async, seen := s.seen.(returned := t.seen.returned),
               log := s.log.(answered := t.log.answered, broken := t.log.broken))
    && t.async.callbacks == s.async.callbacks
    && s.log.answered <= t.log.answered && s.log.broken <= t.log.broken
  }

  lemma {:induction false} OneReturns(s: State, id: MessageId)
    requires id in s.async.futures && s.async.futures[id].Done? && id in s.async.futuresMap && id in s.log.sentBy
    ensures var t := RunStep(s, Return(id));
            && OnlyReturned(s, t)
            && t.async.futures == s.async.futures - {id} && t.async.futuresMap == s.async.futuresMap - {id}
            && (if s.async.futures[id].outcome.Result? then s.log.sentBy[id] in t.log.answered
                else s.log.sentBy[id] in t.log.broken)
  {
  }

  lemma {:induction false} WithoutOne(a: Pid, b: Pid)
    requires a != b
    ensures Without([a, b], a) == [b] && Without([a, b], b) == [a]
  {
    assert Without([b], a) == [b] && Without([b], b) == [];
  }

  /** Worker 3 is alone. */
  ghost predicate Alone(s: State) {
    && s.workers == [3] && s.phase == map[1 := Ready, 3 := Ready] && s.models == map[] && s.lock.None?
    && s.tasks == [] && s.turns == Turns(0, []) && s.seen.owed == 1 && s.log.rounds == 0
    && s.seen.stopped == {1} && s.seen.zombies == {} && s.seen.usedIds == {} && s.async.callbacks == []
  }

  lemma {:induction false} FirstDies(exitCode: int)
    ensures Alone(RunStep(Init([1, 3]), WorkerDies(1, exitCode, [])))
  {
    WithoutOne(1, 3);
  }

  /** An update has been sent to worker 3. */
  ghost predicate Sending(s: State, settings: Settings, workers: seq<Pid>, phase: map<Pid, Phase>, stopped: set<Pid>) {
    && s.workers == workers && s.phase == phase && s.models == map[] && s.tasks == [] && s.turns == Turns(1, [])
    && s.lock == Some(Update(Load, settings, [3], 0)) && s.log.upTo == 1
    && 20 in s.async.futures && s.async.futures[20].Pending? && 20 in s.async.futuresMap && s.async.callbacks == []
    && 20 in s.log.sentBy && s.log.sentBy[20] == TaskOf(s.lock.value, 3)
    && s.seen.stopped == stopped && s.seen.usedIds == {20}
  }

  lemma {:induction false} UpdateIsSent(s: State, settings: Settings)
    requires Alone(s)
    ensures var t := RunStep(RunStep(s, BeginUpdate(Load, settings)), RunTask(20));
            Sending(t, settings, [3], map[1 := Ready, 3 := Ready], {1}) && t.seen.owed == 1
  {
    var a := Step(s, BeginUpdate(Load, settings));
    assert a.tasks == [UpdateTask(3, Load, settings, Some(s.log.rounds))];
  }

  lemma {:induction false} SuccessorStarts(s: State, settings: Settings)
    requires Sending(s, settings, [3], map[1 := Ready, 3 := Ready], {1}) && s.seen.owed == 1
    ensures var t := RunStep(s, Spawn(2));
            && Sending(t, settings, [3, 2], map[1 := Ready, 3 := Ready, 2 := Starting], {1})
            && t.async == s.async
  {
  }

  lemma {:induction false} SuccessorDies(s: State, settings: Settings, exitCode: int)
    requires Sending(s, settings, [3, 2], map[1 := Ready, 3 := Ready, 2 := Starting], {1})
    requires InFlight(s.async, 2) == {}
    ensures var t := RunStep(s, WorkerDies(2, exitCode, []));
            Sending(t, settings, [3], map[1 := Ready, 3 := Ready, 2 := Starting], {1, 2})
  {
    WithoutOne(3, 2);
  }

  lemma {:induction false} UpdateFails(s: State, settings: Settings, error: int)
    requires Sending(s, settings, [3], map[1 := Ready, 3 := Ready, 2 := Starting], {1, 2})
    ensures var a := RunStep(RunStep(s, Respond(20, Exception(error))), LoopTurn);
            var t := RunStep(RunStep(a, Return(20)), EndUpdate(false));
            && t.workers == [3] && t.phase == s.phase && t.lock.None? && t.models == map[] && t.tasks == []
            && t.seen.stopped == {1, 2} && t.seen.usedIds == {20}
  {
    var a := RunStep(s, Respond(20, Exception(error)));
    assert a == s.(async := s.async.(callbacks := [Callback(20, Raised(error))]), turns := Turns(1, [1]));
    TurnCompletes(a);
    var b := RunStep(a, LoopTurn);
    assert b.async.futures[20] == Done(Raised(error));
    OneReturns(b, 20);
    var c := RunStep(b, Return(20));
    assert TaskOf(s.lock.value, 3) in c.log.broken && 3 in s.lock.value.workers;
  }

  lemma {:induction false} WaitingWorkerDies(settings: Settings, exitCode: int, error: int)
    ensures var s := After([1, 3], DiesWaiting(settings, exitCode, error));
            && s.workers == [3] && s.phase == map[1 := Ready, 3 := Ready, 2 := Starting] && s.lock.None?
            && s.models == map[] && s.tasks == [] && s.seen.stopped == {1, 2} && s.seen.usedIds == {20}
  {
    var a := RunStep(Init([1, 3]), WorkerDies(1, exitCode, []));
    FirstDies(exitCode);
    UpdateIsSent(a, settings);
    var b := RunStep(RunStep(a, BeginUpdate(Load, settings)), RunTask(20));
    RunThree(Init([1, 3]), WorkerDies(1, exitCode, []), BeginUpdate(Load, settings), RunTask(20));
    OnlyThreeServes(settings, exitCode);
    SuccessorStarts(b, settings);
    SuccessorDies(RunStep(b, Spawn(2)), settings, exitCode);
    UpdateFails(RunStep(RunStep(b, Spawn(2)), WorkerDies(2, exitCode, [])), settings, error);
    RunFive(Init([1, 3]), WorkerDies(1, exitCode, []), BeginUpdate(Load, settings), RunTask(20), Spawn(2),
            WorkerDies(2, exitCode, []));
    RunNine(Init([1, 3]), WorkerDies(1, exitCode, []), BeginUpdate(Load, settings), RunTask(20), Spawn(2),
            WorkerDies(2, exitCode, []), Respond(20, Exception(error)), LoopTurn, Return(20), EndUpdate(false));
  }

  /** No message is in flight for a worker that is not started yet. */
  lemma {:induction false} OnlyThreeServes(settings: Settings, exitCode: int)
    ensures var s := Run(Init([1, 3]), [WorkerDies(1, exitCode, []), BeginUpdate(Load, settings), RunTask(20)]);
            InFlight(s.async, 2) == {}
  {
    var a := RunStep(Init([1, 3]), WorkerDies(1, exitCode, []));
    FirstDies(exitCode);
    RunThree(Init([1, 3]), WorkerDies(1, exitCode, []), BeginUpdate(Load, settings), RunTask(20));
    var b := Step(a, BeginUpdate(Load, settings));
    assert b.tasks == [UpdateTask(3, Load, settings, Some(a.log.rounds))];
  }

  lemma {:induction false} DeadWorkerIsReady(s: State) returns (t: State)
    requires s.workers == [3] && s.phase == map[1 := Ready, 3 := Ready, 2 := Starting] && s.lock.None?
    requires s.models == map[] && s.tasks == []
    ensures Enabled(s, PassLock(2, []))
    ensures var a := Step(s, PassLock(2, []));
            Enabled(a, BecomeReady(2)) && t == Step(a, BecomeReady(2))
    ensures t.rotation == [3, 2] && t.pos == 0 && t.seen == s.seen && t.async == s.async
  {
    var a := Step(s, PassLock(2, []));
    assert a.tasks == [];
    t := Step(a, BecomeReady(2));
  }

  lemma {:induction false} DeadWorkerServes(s: State)
    requires s.workers == [3] && s.phase == map[1 := Ready, 3 := Ready, 2 := Starting] && s.lock.None?
    requires s.models == map[] && s.tasks == [] && 2 in s.seen.stopped && s.seen.usedIds == {20}
    ensures var t := Run(s, ReturnsAndServes());
            && 11 in t.seen.requestIds && 11 in t.seen.late && 11 in t.async.futures && 11 in t.seen.usedIds
  {
    var b := DeadWorkerIsReady(s);
    var c := Step(b, Request(10));
    assert c.pos == 1 && Pick(c) == 2;
    RunFour(s, PassLock(2, []), BecomeReady(2), Request(10), Request(11));
  }

  lemma {:induction false} RequestStays(s: State, e: Event, id: MessageId)
    requires Enabled(s, e) && id in s.seen.requestIds
    ensures id in Step(s, e).seen.requestIds
  {
  }

  lemma {:induction false} RequestsStay(s: State, events: seq<Event>, id: MessageId)
    requires id in s.seen.requestIds
    ensures id in Run(s, events).seen.requestIds
  {
    if events != [] {
      var t, e := Run(s, events[..|events| - 1]), events[|events| - 1];
      RequestsStay(s, events[..|events| - 1], id);
      if Enabled(t, e) { RequestStays(t, e, id); }
    }
  }

  /** From a pool of two workers, an inference request is picked for a dead worker, and stays an orphan as long
      as no response to it comes and its sender is not cancelled. */
  lemma {:induction false} RequestToTheDeadIsOrphaned(
      settings: Settings, exitCode: int, error: int, more: seq<Event>)
    requires forall i :: 0 <= i < |more| ==> !Completes(more[i], 11)
    ensures var s := After([1, 3], DiesWaiting(settings, exitCode, error) + ReturnsAndServes() + more);
            11 in s.seen.requestIds && Orphaned(s, 11)
  {
    var first, all := DiesWaiting(settings, exitCode, error),
                      DiesWaiting(settings, exitCode, error) + ReturnsAndServes();
    WaitingWorkerDies(settings, exitCode, error);
    DeadWorkerServes(After([1, 3], first));
    RunsCompose(Init([1, 3]), first, ReturnsAndServes());
    RunsCompose(Init([1, 3]), all, more);
    EveryRunKeepsPool([1, 3], all);
    RunKeepsLateOrphaned([1, 3], all, 11);
    RunKeepsLate(After([1, 3], all), more, 11);
    RequestsStay(After([1, 3], all), more, 11);
  }

  // ---------- A model that is registered and unloaded ----------

  /** Both workers load a model ... */
  function BothLoad(settings: Settings, payload: int): seq<Event> {
    [BeginUpdate(Load, settings), RunTask(10), RunTask(11)]
    + [Respond(10, Value(payload)), Respond(11, Value(payload))]
    + [LoopTurn, LoopTurn, Return(10), Return(11)] + [EndUpdate(true)]
  }

  /** ... and one of them unloads it, while the other one dies. */
  function OneUnloads(settings: Settings, payload: int, exitCode: int): seq<Event> {
    [BeginUpdate(Unload, settings), RunTask(12), RunTask(13)]
    + [Respond(12, Value(payload)), WorkerDies(2, exitCode, [13])]
    + [LoopTurn, LoopTurn, Return(12), Return(13)] + [EndUpdate(false)]
  }

  /** Two workers, of which the second may have died, and nothing that waits for its turn. */
  ghost predicate Pair(s: State, workers: seq<Pid>, models: map<string, Settings>, started: nat, rounds: nat) {
    && s.workers == workers && s.phase == map[1 := Ready, 2 := Ready] && s.models == models && s.tasks == []
    && s.turns == Turns(started, []) && s.async.callbacks == [] && s.log.rounds == rounds && s.log.early == {}
  }

  ghost predicate Unused(s: State, a: MessageId, b: MessageId) {
    a != b && a !in s.seen.usedIds && b !in s.seen.usedIds
  }

  /** An update was sent to both, by these messages, which have not come to an end; `turns` and `callbacks` say
      which ends are scheduled. */
  ghost predicate BothSent(s: State, workers: seq<Pid>, u: Update, a: MessageId, b: MessageId,
                           turns: Turns, callbacks: seq<Callback>)
  {
    && s.workers == workers && s.phase == map[1 := Ready, 2 := Ready] && s.lock == Some(u) && u.workers == [1, 2]
    && s.tasks == [] && s.turns == turns && s.log.upTo == turns.started && s.log.early == {}
    && s.log.rounds == u.round + 1 && a != b
    && s.async.futures == map[a := Pending, b := Pending] && s.async.futuresMap == map[a := 1, b := 2]
    && s.async.callbacks == callbacks
    && a in s.log.sentBy && s.log.sentBy[a] == TaskOf(u, 1) && b in s.log.sentBy && s.log.sentBy[b] == TaskOf(u, 2)
    && Slot(1, u.settings.key) in s.log.last && s.log.last[Slot(1, u.settings.key)] == Order(u.kind, u.settings)
  }

  lemma {:induction false} BeginBoth(s: State, kind: UpdateKind, settings: Settings)
    requires s.workers == [1, 2] && s.tasks == [] && s.lock.None?
    ensures var u := Update(kind, settings, [1, 2], s.log.rounds);
            RunStep(s, BeginUpdate(kind, settings))
            == s.(lock := Some(u), tasks := [TaskOf(u, 1), TaskOf(u, 2)],
                  log := s.log.(rounds := s.log.rounds + 1, upTo := s.turns.started + 2))
  {
    var u := Update(kind, settings, [1, 2], s.log.rounds);
    assert s.tasks + FanOut([1, 2], kind, settings, s.log.rounds) == [TaskOf(u, 1), TaskOf(u, 2)];
  }

  /** What sending leaves alone. */
  ghost predicate OnlySent(s: State, t: State) {
    t.workers == s.workers && t.phase == s.phase && t.lock == s.lock && t.models == s.models
    && t.seen.stopped == s.seen.stopped && t.log.upTo == s.log.upTo && t.log.rounds == s.log.rounds
    && t.log.early == s.log.early
  }

  lemma {:induction false} SendOne(s: State, id: MessageId)
    requires s.tasks != [] && s.turns.behind == [] && id !in s.seen.usedIds
    ensures var t := RunStep(s, RunTask(id));
            && OnlySent(s, t) && t.tasks == s.tasks[1..] && t.turns == Turns(s.turns.started + 1, [])
            && t.async == Schedule(s.async, id, s.tasks[0].pid) && t.seen.usedIds == s.seen.usedIds + {id}
            && t.log.sentBy == s.log.sentBy[id := s.tasks[0]] && t.log.last == Send(s.log, s.tasks[0], id).last
  {
  }

  lemma {:induction false} SendTwo(s: State, one: UpdateTask, two: UpdateTask, a: MessageId, b: MessageId)
    requires s.tasks == [one, two] && s.turns.behind == [] && Unused(s, a, b) && one.pid != two.pid
    ensures var t := RunStep(RunStep(s, RunTask(a)), RunTask(b));
            && OnlySent(s, t) && t.tasks == [] && t.turns == Turns(s.turns.started + 2, [])
            && t.async == Schedule(Schedule(s.async, a, one.pid), b, two.pid)
            && t.seen.usedIds == s.seen.usedIds + {a, b}
            && t.log.sentBy == s.log.sentBy[a := one][b := two]
            && Slot(one.pid, one.settings.key) in t.log.last
            && t.log.last[Slot(one.pid, one.settings.key)] == Order(one.kind, one.settings)
  {
    SendOne(s, a);
    var x := RunStep(s, RunTask(a));
    assert x.tasks == [two];
    SendOne(x, b);
    assert s.seen.usedIds + {a} + {b} == s.seen.usedIds + {a, b};
  }

  lemma {:induction false} SendBoth(s: State, kind: UpdateKind, settings: Settings, a: MessageId, b: MessageId)
    requires Pair(s, [1, 2], s.models, s.turns.started, s.log.rounds) && s.lock.None? && Unused(s, a, b)
    requires s.async.futures == map[] && s.async.futuresMap == map[]
    ensures var t := RunStep(RunStep(RunStep(s, BeginUpdate(kind, settings)), RunTask(a)), RunTask(b));
            && BothSent(t, [1, 2], Update(kind, settings, [1, 2], s.log.rounds), a, b,
                        Turns(s.turns.started + 2, []), [])
            && t.models == s.models && t.seen.usedIds == s.seen.usedIds + {a, b} && t.seen.stopped == s.seen.stopped
  {
    var x, u := RunStep(s, BeginUpdate(kind, settings)), Update(kind, settings, [1, 2], s.log.rounds);
    BeginBoth(s, kind, settings);
    SendTwo(x, TaskOf(u, 1), TaskOf(u, 2), a, b);
    TwoScheduled(s.async, a, b);
  }

  lemma {:induction false} TwoScheduled(async: Async, a: MessageId, b: MessageId)
    requires a != b && async.futures == map[] && async.futuresMap == map[]
    ensures var t := Schedule(Schedule(async, a, 1), b, 2);
            && t.futures == map[a := Pending, b := Pending] && t.futuresMap == map[a := 1, b := 2]
            && t.callbacks == async.callbacks
  {
  }

  lemma {:induction false} AnswerBoth(s: State, u: Update, a: MessageId, b: MessageId, n: nat, payload: int)
    requires BothSent(s, [1, 2], u, a, b, Turns(n, []), [])
    ensures var t := RunStep(RunStep(s, Respond(a, Value(payload))), Respond(b, Value(payload)));
            && BothSent(t, [1, 2], u, a, b, Turns(n, [n, n]),
                        [Callback(a, Result(payload)), Callback(b, Result(payload))])
            && t.models == s.models && t.seen == s.seen
  {
    var x := Step(s, Respond(a, Value(payload)));
    assert x.turns.behind == [n] && x.async.callbacks == [Callback(a, Result(payload))];
  }

  lemma {:induction false} AnswerOne(s: State, u: Update, a: MessageId, b: MessageId, n: nat, payload: int)
    requires BothSent(s, [1, 2], u, a, b, Turns(n, []), [])
    ensures var t := RunStep(s, Respond(a, Value(payload)));
            && BothSent(t, [1, 2], u, a, b, Turns(n, [n]), [Callback(a, Result(payload))])
            && t.models == s.models && t.seen == s.seen
            && t.async == s.async.(callbacks := [Callback(a, Result(payload))])
  {
  }

  lemma {:induction false} OtherDies(s: State, u: Update, a: MessageId, b: MessageId, n: nat, payload: int,
                                     exitCode: int)
    requires BothSent(s, [1, 2], u, a, b, Turns(n, [n]), [Callback(a, Result(payload))])
    requires Mirrored(s.async) && s.seen.stopped == {}
    ensures var t := RunStep(s, WorkerDies(2, exitCode, [b]));
            && BothSent(t, [1], u, a, b, Turns(n, [n, n]),
                        [Callback(a, Result(payload)), Callback(b, WorkerStop(exitCode))])
            && t.models == s.models
  {
    forall id ensures id in [b] <==> id in InFlight(s.async, 2) {
      assert id in InFlight(s.async, 2) <==> id in s.async.futuresMap && s.async.futuresMap[id] == 2;
    }
    WithoutOne(1, 2);
    assert Stops([b], exitCode) == [Callback(b, WorkerStop(exitCode))];
  }

  lemma {:induction false} AnswerAndDeath(s: State, u: Update, a: MessageId, b: MessageId, n: nat, payload: int,
                                          exitCode: int)
    requires BothSent(s, [1, 2], u, a, b, Turns(n, []), []) && Mirrored(s.async) && s.seen.stopped == {}
    ensures var t := Run(s, [Respond(a, Value(payload)), WorkerDies(2, exitCode, [b])]);
            && BothSent(t, [1], u, a, b, Turns(n, [n, n]),
                        [Callback(a, Result(payload)), Callback(b, WorkerStop(exitCode))])
            && t.models == s.models
  {
    var x := RunStep(s, Respond(a, Value(payload)));
    AnswerOne(s, u, a, b, n, payload);
    SameMapsMirror(s.async, x.async);
    OtherDies(x, u, a, b, n, payload, exitCode);
    RunTwo(s, Respond(a, Value(payload)), WorkerDies(2, exitCode, [b]));
  }

  lemma {:induction false} BothDone(async: Async, a: MessageId, b: MessageId, first: Outcome, second: Outcome)
    requires async.futures == map[a := Pending, b := Pending] && a != b
    requires async.callbacks == [Callback(a, first), Callback(b, second)]
    ensures RunCallback(async).callbacks == [Callback(b, second)]
    ensures RunCallback(RunCallback(async))
         == async.(futures := map[a := Done(first), b := Done(second)], callbacks := [])
  {
    assert RunCallback(async).futures == map[a := Done(first), b := Pending];
  }

  lemma {:induction false} BothComplete(s: State, workers: seq<Pid>, u: Update, a: MessageId, b: MessageId, n: nat,
                                        first: Outcome, second: Outcome)
    requires BothSent(s, workers, u, a, b, Turns(n, [n, n]), [Callback(a, first), Callback(b, second)])
    ensures RunStep(RunStep(s, LoopTurn), LoopTurn)
         == s.(async := s.async.(futures := map[a := Done(first), b := Done(second)], callbacks := []),
               turns := Turns(n, []))
  {
    BothDone(s.async, a, b, first, second);
    TurnCompletes(s);
    TurnCompletes(RunStep(s, LoopTurn));
  }

  lemma {:induction false} BothReturn(s: State, a: MessageId, b: MessageId, first: Outcome, second: Outcome)
    requires s.async.futures == map[a := Done(first), b := Done(second)] && a != b
    requires s.async.futuresMap == map[a := 1, b := 2] && a in s.log.sentBy && b in s.log.sentBy
    ensures var t := RunStep(RunStep(s, Return(a)), Return(b));
            && OnlyReturned(s, t) && t.async.futures == map[] && t.async.futuresMap == map[]
            && (first.Result? ==> s.log.sentBy[a] in t.log.answered)
            && (if second.Result? then s.log.sentBy[b] in t.log.answered else s.log.sentBy[b] in t.log.broken)
  {
    OneReturns(s, a);
    var x := RunStep(s, Return(a));
    FirstIsGone(a, b, first, second);
    OneReturns(x, b);
    ReturnedTwice(s, x, RunStep(x, Return(b)));
  }

  lemma {:induction false} FirstIsGone(a: MessageId, b: MessageId, first: Outcome, second: Outcome)
    requires a != b
    ensures map[a := Done(first), b := Done(second)] - {a} == map[b := Done(second)]
    ensures map[a := 1, b := 2] - {a} == map[b := 2]
    ensures map[b := Done(second)] - {b} == map[] && map[b := 2] - {b} == map[]
  {
  }

  lemma {:induction false} ReturnedTwice(s: State, x: State, t: State)
    requires OnlyReturned(s, x) && OnlyReturned(x, t)
    ensures OnlyReturned(s, t)
  {
  }

  /** From both messages scheduled to end, to both senders returned. */
  lemma {:induction false} BothEnd(s: State, workers: seq<Pid>, u: Update, a: MessageId, b: MessageId, n: nat,
                                   first: Outcome, second: Outcome)
    requires BothSent(s, workers, u, a, b, Turns(n, [n, n]), [Callback(a, first), Callback(b, second)])
    requires first.Result?
    ensures var t := Run(s, [LoopTurn, LoopTurn, Return(a), Return(b)]);
            && Pair(t, workers, s.models, n, u.round + 1) && t.lock == Some(u)
            && t.async.futures == map[] && t.async.futuresMap == map[]
            && t.seen.usedIds == s.seen.usedIds && t.seen.stopped == s.seen.stopped && t.log.last == s.log.last
            && TaskOf(u, 1) in t.log.answered
            && (if second.Result? then TaskOf(u, 2) in t.log.answered else TaskOf(u, 2) in t.log.broken)
  {
    BothComplete(s, workers, u, a, b, n, first, second);
    BothReturn(RunStep(RunStep(s, LoopTurn), LoopTurn), a, b, first, second);
    RunFour(s, LoopTurn, LoopTurn, Return(a), Return(b));
  }

  lemma {:induction false} CanEnd(s: State, u: Update, ok: bool)
    requires s.lock == Some(u) && u.workers == [1, 2]
    requires if ok then TaskOf(u, 1) in s.log.answered && TaskOf(u, 2) in s.log.answered
             else TaskOf(u, 2) in s.log.broken
    ensures Enabled(s, EndUpdate(ok))
  {
    if !ok { assert u.workers[1] == 2; }
  }

  lemma {:induction false} PairLoads(s: State, u: Update, n: nat)
    requires Pair(s, [1, 2], s.models, n, u.round + 1) && s.lock == Some(u) && u.workers == [1, 2] && u.kind.Load?
    requires TaskOf(u, 1) in s.log.answered && TaskOf(u, 2) in s.log.answered
    ensures var t := RunStep(s, EndUpdate(true));
            && Pair(t, [1, 2], s.models[u.settings.key := u.settings], n, u.round + 1)
            && t.lock.None? && t.async == s.async && t.seen == s.seen
  {
    CanEnd(s, u, true);
    EndIs(s, true);
  }

  lemma {:induction false} PairFails(s: State, u: Update, n: nat)
    requires Pair(s, [1], s.models, n, u.round + 1) && s.lock == Some(u) && u.workers == [1, 2]
    requires TaskOf(u, 2) in s.log.broken
    ensures var t := RunStep(s, EndUpdate(false));
            && Pair(t, [1], s.models, n, u.round + 1)
            && t.lock.None? && t.log.last == s.log.last && t.log.answered == s.log.answered
  {
    CanEnd(s, u, false);
    EndIs(s, false);
  }

  lemma {:induction false} EndIs(s: State, ok: bool)
    requires Enabled(s, EndUpdate(ok))
    ensures RunStep(s, EndUpdate(ok)) == End(s, s.lock.value, ok)
  {
  }

  lemma {:induction false} LoadedByBoth(settings: Settings, payload: int)
    ensures var s := After([1, 2], BothLoad(settings, payload));
            && Pair(s, [1, 2], map[settings.key := settings], 2, 1) && s.lock.None?
            && s.async.futures == map[] && s.async.futuresMap == map[]
            && s.seen.usedIds == {10, 11} && s.seen.stopped == {}
  {
    var s, u := Init([1, 2]), Update(Load, settings, [1, 2], 0);
    assert s.phase == map[1 := Ready, 2 := Ready];
    SendBoth(s, Load, settings, 10, 11);
    RunThree(s, BeginUpdate(Load, settings), RunTask(10), RunTask(11));
    var a := Run(s, [BeginUpdate(Load, settings), RunTask(10), RunTask(11)]);
    AnswerBoth(a, u, 10, 11, 2, payload);
    RunTwo(a, Respond(10, Value(payload)), Respond(11, Value(payload)));
    var b := Run(a, [Respond(10, Value(payload)), Respond(11, Value(payload))]);
    BothEnd(b, [1, 2], u, 10, 11, 2, Result(payload), Result(payload));
    var c := Run(b, [LoopTurn, LoopTurn, Return(10), Return(11)]);
    PairLoads(c, u, 2);
    RunOne(c, EndUpdate(true));
    RunsInARow(s, [BeginUpdate(Load, settings), RunTask(10), RunTask(11)],
               [Respond(10, Value(payload)), Respond(11, Value(payload))],
               [LoopTurn, LoopTurn, Return(10), Return(11)], [EndUpdate(true)]);
  }

  lemma {:induction false} RunsInARow(s: State, a: seq<Event>, b: seq<Event>, c: seq<Event>, d: seq<Event>)
    ensures Run(s, a + b + c + d) == Run(Run(Run(Run(s, a), b), c), d)
  {
    RunsCompose(s, a + b + c, d);
    RunsCompose(s, a + b, c);
    RunsCompose(s, a, b);
  }

  lemma {:induction false} UnloadedByOne(s: State, settings: Settings, payload: int, exitCode: int)
    requires Pair(s, [1, 2], s.models, 2, 1) && s.lock.None? && Mirrored(s.async) && s.seen.stopped == {}
    requires s.async.futures == map[] && s.async.futuresMap == map[] && s.seen.usedIds == {10, 11}
    requires Mirrored(Run(s, [BeginUpdate(Unload, settings), RunTask(12), RunTask(13)]).async)
    ensures var t := Run(s, OneUnloads(settings, payload, exitCode));
            && Pair(t, [1], s.models, 4, 2) && t.lock.None?
            && TaskOf(Update(Unload, settings, [1, 2], 1), 1) in t.log.answered
            && Slot(1, settings.key) in t.log.last && t.log.last[Slot(1, settings.key)] == Order(Unload, settings)
  {
    var u := Update(Unload, settings, [1, 2], 1);
    SendBoth(s, Unload, settings, 12, 13);
    RunThree(s, BeginUpdate(Unload, settings), RunTask(12), RunTask(13));
    var a := Run(s, [BeginUpdate(Unload, settings), RunTask(12), RunTask(13)]);
    AnswerAndDeath(a, u, 12, 13, 4, payload, exitCode);
    var b := Run(a, [Respond(12, Value(payload)), WorkerDies(2, exitCode, [13])]);
    BothEnd(b, [1], u, 12, 13, 4, Result(payload), WorkerStop(exitCode));
    var c := Run(b, [LoopTurn, LoopTurn, Return(12), Return(13)]);
    PairFails(c, u, 4);
    RunOne(c, EndUpdate(false));
    RunsInARow(s, [BeginUpdate(Unload, settings), RunTask(12), RunTask(13)],
               [Respond(12, Value(payload)), WorkerDies(2, exitCode, [13])],
               [LoopTurn, LoopTurn, Return(12), Return(13)], [EndUpdate(false)]);
  }

  /** From a pool of two workers, a run after which the one that is left has unloaded a model that is
      registered all the same. */
  lemma {:induction false} FailedUnloadLeavesItRegistered(settings: Settings, payload: int, exitCode: int)
    ensures var s := After([1, 2], BothLoad(settings, payload) + OneUnloads(settings, payload, exitCode));
            && s.workers == [1] && 1 in s.phase && s.phase[1].Ready? && s.lock.None? && s.tasks == []
            && Established(s, settings.key) && s.models[settings.key] == settings
            && Slot(1, settings.key) in s.log.last && s.log.last[Slot(1, settings.key)] == Order(Unload, settings)
            && UpdateTask(1, Unload, settings, Some(1)) in s.log.answered
  {
    var s := After([1, 2], BothLoad(settings, payload));
    LoadedByBoth(settings, payload);
    EveryRunKeepsPool([1, 2], BothLoad(settings, payload));
    RunKeepsPool(s, [BeginUpdate(Unload, settings), RunTask(12), RunTask(13)]);
    UnloadedByOne(s, settings, payload, exitCode);
    RunsCompose(Init([1, 2]), BothLoad(settings, payload), OneUnloads(settings, payload, exitCode));
  }

  // ---------- A request to a worker without its models ----------

  /** Worker 1 dies, its successor 3 is started, and before that one has the lock, worker 2 dies. */
  function BothDie(exitCode: int): seq<Event> {
    [WorkerDies(1, exitCode, []), Spawn(3), WorkerDies(2, exitCode, [])]
  }

  lemma {:induction false} NoneInFlight(s: State, pid: Pid)
    requires Mirrored(s.async) && s.async.futuresMap == map[]
    ensures ListsInFlight(s.async, pid, [])
  {
    forall id ensures id !in InFlight(s.async, pid) {
      assert id in InFlight(s.async, pid) ==> id in s.async.futuresMap;
    }
  }

  lemma {:induction false} OneDies(s: State, a: Pid, b: Pid, exitCode: int)
    requires s.workers == [a, b] && a != b && a !in s.seen.stopped
    requires Mirrored(s.async) && s.async.futuresMap == map[]
    ensures var t := RunStep(s, WorkerDies(a, exitCode, []));
            && t.workers == t.rotation == [b] && t.pos == 0 && t.phase == s.phase && t.models == s.models
            && t.async.futuresMap == map[] && t.seen.stopped == s.seen.stopped + {a}
            && t.seen.owed == s.seen.owed + 1 && t.log == s.log && t.seen.usedIds == s.seen.usedIds
  {
    WithoutOne(a, b);
    NoneInFlight(s, a);
  }

  lemma {:induction false} SuccessorWaits(s: State)
    requires s.workers == [2] && s.phase == map[1 := Ready, 2 := Ready] && s.seen.owed > 0
    ensures var t := RunStep(s, Spawn(3));
            && t.workers == [2, 3] && t.phase == map[1 := Ready, 2 := Ready, 3 := Starting]
            && t.models == s.models && t.async == s.async && t.log == s.log && t.seen.stopped == s.seen.stopped
  {
  }

  lemma {:induction false} OnlyTheWaitingIsLeft(s: State, exitCode: int)
    requires PoolInv(s) && s.workers == [1, 2] && s.phase == map[1 := Ready, 2 := Ready]
    requires s.async.futuresMap == map[] && s.seen.stopped == {}
    ensures var t := Run(s, BothDie(exitCode));
            && t.rotation == [3] && t.pos == 0 && t.phase == map[1 := Ready, 2 := Ready, 3 := Starting]
            && t.models == s.models && t.log == s.log
  {
    OneDies(s, 1, 2, exitCode);
    NoneInFlight(s, 1);
    var a := RunStep(s, WorkerDies(1, exitCode, []));
    StepKeepsPool(s, WorkerDies(1, exitCode, []));
    SuccessorWaits(a);
    var b := RunStep(a, Spawn(3));
    assert Mirrored(a.async);
    OneDies(b, 2, 3, exitCode);
    RunThree(s, WorkerDies(1, exitCode, []), Spawn(3), WorkerDies(2, exitCode, []));
  }

  /** From a pool of two workers, a run after which the next request is served by a worker that still waits for
      the lock and was never sent the model that is registered. */
  lemma {:induction false} RequestBeforeReplay(settings: Settings, payload: int, exitCode: int)
    ensures var s := After([1, 2], BothLoad(settings, payload) + BothDie(exitCode));
            && s.rotation == [3] && Pick(s) == 3 && s.phase == map[1 := Ready, 2 := Ready, 3 := Starting]
            && Established(s, settings.key) && s.models[settings.key] == settings
            && !LoadSent(s, 3, settings)
  {
    var s := After([1, 2], BothLoad(settings, payload));
    LoadedByBoth(settings, payload);
    EveryRunKeepsPool([1, 2], BothLoad(settings, payload));
    EveryRunKeepsKnown([1, 2], BothLoad(settings, payload));
    OnlyTheWaitingIsLeft(s, exitCode);
    RunsCompose(Init([1, 2]), BothLoad(settings, payload), BothDie(exitCode));
  }
}
