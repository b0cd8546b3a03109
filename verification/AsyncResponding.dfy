/** mlserver/parallel/dispatcher.py:28-129: the in-flight messages of all workers, tracked in two
    mutually inverse maps, and the futures their senders wait on.

    `resolve` and `cancel` only schedule a completion on the event loop (`call_soon_threadsafe`);
    `callbacks` is that queue. Setting a future that is done already raises inside the loop and
    changes nothing. */
module AsyncResponding {
  type MessageId = nat
  type Pid = nat

  /** What a worker sends back: a result, or the exception that serving the message raised. */
  datatype Response = Value(payload: int) | Exception(error: int)

  datatype Outcome = Result(payload: int) | Raised(error: int) | WorkerStop(exitCode: int) | CallerCancelled
  datatype Future = Pending | Done(outcome: Outcome)
  datatype Callback = Callback(id: MessageId, outcome: Outcome)

  datatype Async = Async(
    futures: map<MessageId, Future>,
    workersMap: map<Pid, set<MessageId>>,
    futuresMap: map<MessageId, Pid>,
    callbacks: seq<Callback>)

  /** `defaultdict(set)` */
  function InFlight(a: Async, pid: Pid): set<MessageId> {
    if pid in a.workersMap then a.workersMap[pid] else {}
  }

  function Schedule(a: Async, id: MessageId, pid: Pid): Async {
    a.(futures := a.futures[id := Pending],
       futuresMap := a.futuresMap[id := pid],
       workersMap := a.workersMap[pid := InFlight(a, pid) + {id}])
  }

  function ClearMessage(a: Async, id: MessageId): Async
    requires id in a.futuresMap
  {
    var pid := a.futuresMap[id];
    a.(futures := a.futures - {id},
       futuresMap := a.futuresMap - {id},
       workersMap := a.workersMap[pid := InFlight(a, pid) - {id}])
  }

  function OutcomeOf(response: Response): Outcome {
    match response
    case Value(payload) => Result(payload)
    case Exception(error) => Raised(error)
  }

  /** A response for an unknown message crashes the response loop, which is restarted. */
  function Resolve(a: Async, id: MessageId, response: Response): Async {
    if id in a.futures then a.(callbacks := a.callbacks + [Callback(id, OutcomeOf(response))]) else a
  }

  ghost predicate ListsInFlight(a: Async, pid: Pid, order: seq<MessageId>) {
    && (forall i, j :: 0 <= i < j < |order| ==> order[i] != order[j])
    && (forall id :: id in order <==> id in InFlight(a, pid))
  }

  function Stops(order: seq<MessageId>, exitCode: int): seq<Callback> {
    seq(|order|, i requires 0 <= i < |order| => Callback(order[i], WorkerStop(exitCode)))
  }

  /** `order` is the order in which the set of in-flight ids happens to be visited. */
  function Cancel(a: Async, pid: Pid, exitCode: int, order: seq<MessageId>): Async {
    a.(workersMap := a.workersMap[pid := InFlight(a, pid)], callbacks := a.callbacks + Stops(order, exitCode))
  }

  function SetDone(a: Async, id: MessageId, outcome: Outcome): Async {
    if id in a.futures && a.futures[id].Pending? then a.(futures := a.futures[id := Done(outcome)]) else a
  }

  /** The event loop runs the oldest scheduled completion. */
  function RunCallback(a: Async): Async
    requires a.callbacks != []
  {
    SetDone(a.(callbacks := a.callbacks[1..]), a.callbacks[0].id, a.callbacks[0].outcome)
  }

  /** The three maps describe one set of in-flight messages, each with one worker. */
  ghost predicate Mirrored(a: Async) {
    && a.futures.Keys == a.futuresMap.Keys
    && forall pid, id :: id in InFlight(a, pid) <==> id in a.futuresMap && a.futuresMap[id] == pid
  }

  lemma {:induction false} ScheduleMirrors(a: Async, id: MessageId, pid: Pid)
    requires Mirrored(a) && id !in a.futures
    ensures Mirrored(Schedule(a, id, pid))
  {
    var b := Schedule(a, id, pid);
    forall p, i ensures i in InFlight(b, p) <==> i in b.futuresMap && b.futuresMap[i] == p {
      assert i in InFlight(a, p) <==> i in a.futuresMap && a.futuresMap[i] == p;
    }
  }

  lemma {:induction false} ClearMirrors(a: Async, id: MessageId)
    requires Mirrored(a) && id in a.futures
    ensures Mirrored(ClearMessage(a, id))
  {
    var b := ClearMessage(a, id);
    forall p, i ensures i in InFlight(b, p) <==> i in b.futuresMap && b.futuresMap[i] == p {
      assert i in InFlight(a, p) <==> i in a.futuresMap && a.futuresMap[i] == p;
    }
  }

  lemma {:induction false} SameMapsMirror(a: Async, b: Async)
    requires Mirrored(a) && b.futures.Keys == a.futures.Keys && b.futuresMap == a.futuresMap
    requires forall pid :: InFlight(b, pid) == InFlight(a, pid)
    ensures Mirrored(b)
  {
    forall p, i ensures i in InFlight(b, p) <==> i in b.futuresMap && b.futuresMap[i] == p {
      assert i in InFlight(a, p) <==> i in a.futuresMap && a.futuresMap[i] == p;
    }
  }

  lemma {:induction false} CancelMirrors(a: Async, pid: Pid, exitCode: int, order: seq<MessageId>)
    requires Mirrored(a)
    ensures Mirrored(Cancel(a, pid, exitCode, order))
  {
    SameMapsMirror(a, Cancel(a, pid, exitCode, order));
  }

  lemma {:induction false} SetDoneMirrors(a: Async, id: MessageId, outcome: Outcome)
    requires Mirrored(a)
    ensures Mirrored(SetDone(a, id, outcome))
  {
    SameMapsMirror(a, SetDone(a, id, outcome));
  }

  /** When no sender waits any more, no map holds any id. */
  lemma {:induction false} NothingLeftBehind(a: Async)
    requires Mirrored(a) && a.futures == map[]
    ensures a.futuresMap == map[] && forall pid :: InFlight(a, pid) == {}
  {
    assert a.futuresMap.Keys == {};
  }

  // ---------- Completions under way ----------

  ghost predicate Scheduled(a: Async, id: MessageId) {
    exists i :: 0 <= i < |a.callbacks| && a.callbacks[i].id == id
  }

  /** The future is done, or its completion waits in the event loop. */
  ghost predicate Completing(a: Async, id: MessageId) {
    id in a.futures && (a.futures[id].Done? || Scheduled(a, id))
  }

  lemma {:induction false} CancelCompletesInFlight(
      a: Async, pid: Pid, exitCode: int, order: seq<MessageId>, id: MessageId)
    requires Mirrored(a) && ListsInFlight(a, pid, order) && id in a.futuresMap
    requires a.futuresMap[id] == pid || Completing(a, id)
    ensures Completing(Cancel(a, pid, exitCode, order), id)
  {
    var b := Cancel(a, pid, exitCode, order);
    if a.futuresMap[id] == pid {
      assert id in InFlight(a, pid);
      var i :| 0 <= i < |order| && order[i] == id;
      assert b.callbacks[|a.callbacks| + i].id == id;
    } else if !a.futures[id].Done? {
      var i :| 0 <= i < |a.callbacks| && a.callbacks[i].id == id;
      assert b.callbacks[i].id == id;
    }
  }

  lemma {:induction false} RunCallbackKeepsCompleting(a: Async, id: MessageId)
    requires a.callbacks != [] && Completing(a, id)
    ensures Completing(RunCallback(a), id)
  {
    var b := RunCallback(a);
    if a.futures[id].Pending? && a.callbacks[0].id != id {
      var i :| 0 <= i < |a.callbacks| && a.callbacks[i].id == id;
      assert b.callbacks[i - 1].id == id;
    }
  }

  lemma {:induction false} MoreCallbacksKeepCompleting(a: Async, b: Async, id: MessageId)
    requires Completing(a, id) && id in b.futures && b.futures[id] == a.futures[id]
    requires a.callbacks <= b.callbacks
    ensures Completing(b, id)
  {
    if Scheduled(a, id) {
      var i :| 0 <= i < |a.callbacks| && a.callbacks[i].id == id;
      assert b.callbacks[i].id == id;
    }
  }

  /** The event loop runs until nothing is scheduled. */
  function RunAll(a: Async): Async
    decreases |a.callbacks|
  {
    if a.callbacks == [] then a else RunAll(RunCallback(a))
  }

  /** Once the event loop has caught up, every completing future is done. */
  lemma {:induction false} RunAllCompletes(a: Async, id: MessageId)
    requires Completing(a, id)
    ensures id in RunAll(a).futures && RunAll(a).futures[id].Done?
    decreases |a.callbacks|
  {
    if a.callbacks != [] {
      RunCallbackKeepsCompleting(a, id);
      RunAllCompletes(RunCallback(a), id);
    }
  }

  class AsyncResponses {
    var futures: map<MessageId, Future>
    var workersMap: map<Pid, set<MessageId>>
    var futuresMap: map<MessageId, Pid>
    var callbacks: seq<Callback>

    ghost function Snapshot(): Async
      reads this
    {
      Async(futures, workersMap, futuresMap, callbacks)
    }

    constructor ()
      ensures Snapshot() == Async(map[], map[], map[], []) && Mirrored(Snapshot())
    {
      futures, workersMap, futuresMap, callbacks := map[], map[], map[], [];
    }

    method ScheduleMessage(id: MessageId, pid: Pid)
      requires Mirrored(Snapshot()) && id !in futures
      modifies this
      ensures Snapshot() == Schedule(old(Snapshot()), id, pid) && Mirrored(Snapshot())
    {
      ScheduleMirrors(Snapshot(), id, pid);
      futures := futures[id := Pending];
      TrackMessage(id, pid);
    }

    method TrackMessage(id: MessageId, pid: Pid)
      modifies this`futuresMap, this`workersMap
      ensures futuresMap == old(futuresMap)[id := pid]
      ensures workersMap == old(workersMap)[pid := old(InFlight(Snapshot(), pid)) + {id}]
    {
      futuresMap := futuresMap[id := pid];
      if pid !in workersMap { workersMap := workersMap[pid := {}]; }
      workersMap := workersMap[pid := workersMap[pid] + {id}];
    }

    /** The end of `_wait`: the caller got the outcome, or its exception. */
    method ClearWaited(id: MessageId) returns (outcome: Outcome)
      requires Mirrored(Snapshot()) && id in futures && futures[id].Done?
      modifies this
      ensures old(futures)[id] == Done(outcome)
      ensures Snapshot() == ClearMessage(old(Snapshot()), id) && Mirrored(Snapshot())
    {
      ClearMirrors(Snapshot(), id);
      outcome := futures[id].outcome;
      futures := futures - {id};
      var workerPid := futuresMap[id];
      futuresMap := futuresMap - {id};
      assert id in InFlight(old(Snapshot()), workerPid);
      workersMap := workersMap[workerPid := workersMap[workerPid] - {id}];
    }

    /** Returns false where the source raises on an unknown id. */
    method ResolveResponse(id: MessageId, response: Response) returns (known: bool)
      requires Mirrored(Snapshot())
      modifies this`callbacks
      ensures known == (id in futures)
      ensures Snapshot() == Resolve(old(Snapshot()), id, response) && Mirrored(Snapshot())
    {
      known := id in futures;
      if known {
        if response.Exception? {
          callbacks := callbacks + [Callback(id, Raised(response.error))];
        } else {
          callbacks := callbacks + [Callback(id, Result(response.payload))];
        }
      }
      SameMapsMirror(old(Snapshot()), Snapshot());
    }

    method CancelWorker(pid: Pid, exitCode: int) returns (ghost order: seq<MessageId>)
      requires Mirrored(Snapshot())
      modifies this`workersMap, this`callbacks
      ensures ListsInFlight(old(Snapshot()), pid, order)
      ensures Snapshot() == Cancel(old(Snapshot()), pid, exitCode, order) && Mirrored(Snapshot())
    {
      CancelMirrors(Snapshot(), pid, exitCode, []);
      if pid !in workersMap { workersMap := workersMap[pid := {}]; }
      var inFlight := workersMap[pid];
      order := [];
      var todo := inFlight;
      while todo != {}
        invariant todo <= inFlight
        invariant workersMap == old(workersMap)[pid := inFlight]
        invariant forall id :: id in order <==> id in inFlight - todo
        invariant forall i, j :: 0 <= i < j < |order| ==> order[i] != order[j]
        invariant callbacks == old(callbacks) + Stops(order, exitCode)
        decreases todo
      {
        var id :| id in todo;
        assert id !in order;
        callbacks := callbacks + [Callback(id, WorkerStop(exitCode))];
        order := order + [id];
        todo := todo - {id};
      }
      assert old(workersMap)[pid := inFlight] == old(workersMap)[pid := old(InFlight(Snapshot(), pid))];
      CancelMirrors(old(Snapshot()), pid, exitCode, order);
    }

    /** The event loop's turn on the oldest scheduled completion. */
    method RunScheduled()
      requires Mirrored(Snapshot()) && callbacks != []
      modifies this
      ensures Snapshot() == RunCallback(old(Snapshot())) && Mirrored(Snapshot())
    {
      var callback := callbacks[0];
      callbacks := callbacks[1..];
      if callback.id in futures && futures[callback.id].Pending? {
        futures := futures[callback.id := Done(callback.outcome)];
      }
      SameMapsMirror(old(Snapshot()), Snapshot());
    }
  }
}
