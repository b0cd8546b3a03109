/** mlserver/parallel/dispatcher.py:83-129: what a sender gets is what was sent back for its own message, or
    why nothing was. */
module PoolOutcomes {
  import opened AsyncResponding
  import opened PoolProtocol

  /** The event ends a message that a worker serves in that way. */
  predicate Causes(e: Event, id: MessageId, pid: Pid, outcome: Outcome) {
    match e
    case Respond(of, Value(payload)) => of == id && outcome == Result(payload)
    case Respond(of, Exception(error)) => of == id && outcome == Raised(error)
    case WorkerDies(dead, exitCode, order) => dead == pid && id in order && outcome == WorkerStop(exitCode)
    case CancelCaller(of) => of == id && outcome == CallerCancelled
    case _ => false
  }

  /** Some event of the run has caused it. */
  ghost predicate Explained(pids: seq<Pid>, events: seq<Event>, id: MessageId, pid: Pid, outcome: Outcome) {
    exists i :: && 0 <= i < |events| && Enabled(After(pids, events[..i]), events[i])
                && Causes(events[i], id, pid, outcome)
  }

  ghost predicate OutcomeInv(pids: seq<Pid>, events: seq<Event>, id: MessageId) {
    var a := After(pids, events).async;
    id in a.futures && id in a.futuresMap ==>
      && (a.futures[id].Done? ==> Explained(pids, events, id, a.futuresMap[id], a.futures[id].outcome))
      && forall i :: 0 <= i < |a.callbacks| && a.callbacks[i].id == id ==>
                       Explained(pids, events, id, a.futuresMap[id], a.callbacks[i].outcome)
  }

  lemma {:induction false} StaysExplained(
      pids: seq<Pid>, events: seq<Event>, e: Event, id: MessageId, pid: Pid, outcome: Outcome)
    requires Explained(pids, events, id, pid, outcome)
    ensures Explained(pids, events + [e], id, pid, outcome)
  {
    var i :| && 0 <= i < |events| && Enabled(After(pids, events[..i]), events[i])
             && Causes(events[i], id, pid, outcome);
    assert (events + [e])[..i] == events[..i] && (events + [e])[i] == events[i];
  }

  lemma {:induction false} NowExplained(
      pids: seq<Pid>, events: seq<Event>, e: Event, id: MessageId, pid: Pid, outcome: Outcome)
    requires Enabled(After(pids, events), e) && Causes(e, id, pid, outcome)
    ensures Explained(pids, events + [e], id, pid, outcome)
  {
    assert (events + [e])[..|events|] == events && (events + [e])[|events|] == e;
  }

  /** Where a completion comes from that is scheduled, or a future that is done, after a step. */
  lemma {:induction false} CallbackOrigin(s: State, e: Event, i: nat, id: MessageId)
    requires MessageInv(s) && Enabled(s, e) && i < |Step(s, e).async.callbacks|
    requires var t := Step(s, e).async; t.callbacks[i].id == id && id in t.futuresMap
    ensures id in s.async.futures && id in s.async.futuresMap
    ensures Step(s, e).async.futuresMap[id] == s.async.futuresMap[id]
    ensures var c := Step(s, e).async.callbacks[i];
            c in s.async.callbacks || Causes(e, id, s.async.futuresMap[id], c.outcome)
  {
    assert forall c :: c in s.async.callbacks ==> c.id in s.seen.usedIds;
    if e.WorkerDies? { DeathOrigin(s, e.pid, e.exitCode, e.order, i, id); }
    assert id in s.async.futures.Keys <==> id in s.async.futuresMap.Keys;
  }

  lemma {:induction false} DeathOrigin(
      s: State, pid: Pid, exitCode: int, order: seq<MessageId>, i: nat, id: MessageId)
    requires MessageInv(s) && Enabled(s, WorkerDies(pid, exitCode, order))
    requires var t := Cancel(s.async, pid, exitCode, order); i < |t.callbacks| && t.callbacks[i].id == id
    ensures var c := Cancel(s.async, pid, exitCode, order).callbacks[i];
            || c in s.async.callbacks
            || (id in s.async.futuresMap && s.async.futuresMap[id] == pid && id in order
                && c.outcome == WorkerStop(exitCode))
  {
    var n := |s.async.callbacks|;
    if i >= n {
      assert order[i - n] == id && id in InFlight(s.async, pid);
    }
  }

  lemma {:induction false} FutureOrigin(s: State, e: Event, id: MessageId)
    requires MessageInv(s) && Enabled(s, e)
    requires var t := Step(s, e).async; id in t.futures && t.futures[id].Done?
    ensures id in s.async.futures && id in s.async.futuresMap && id in Step(s, e).async.futuresMap
    ensures Step(s, e).async.futuresMap[id] == s.async.futuresMap[id]
    ensures var outcome := Step(s, e).async.futures[id].outcome;
            || s.async.futures[id] == Done(outcome)
            || (exists i :: 0 <= i < |s.async.callbacks| && s.async.callbacks[i] == Callback(id, outcome))
            || Causes(e, id, s.async.futuresMap[id], outcome)
  {
    assert id in s.async.futures.Keys <==> id in s.async.futuresMap.Keys;
    if e.LoopTurn? { assert s.async.callbacks[0] == Callback(s.async.callbacks[0].id, s.async.callbacks[0].outcome); }
  }

  lemma {:induction false} StepKeepsOutcome(pids: seq<Pid>, events: seq<Event>, e: Event, id: MessageId)
    requires MessageInv(After(pids, events)) && OutcomeInv(pids, events, id)
    ensures OutcomeInv(pids, events + [e], id)
  {
    var s, t := After(pids, events), After(pids, events + [e]);
    RunOneMore(Init(pids), events, e);
    if id in t.async.futures && id in t.async.futuresMap {
      if t.async.futures[id].Done? { FutureIsExplained(pids, events, e, id); }
      forall i: nat | i < |t.async.callbacks| && t.async.callbacks[i].id == id
        ensures Explained(pids, events + [e], id, t.async.futuresMap[id], t.async.callbacks[i].outcome)
      {
        CallbackIsExplained(pids, events, e, id, i);
      }
    }
  }

  lemma {:induction false} FutureIsExplained(pids: seq<Pid>, events: seq<Event>, e: Event, id: MessageId)
    requires MessageInv(After(pids, events)) && OutcomeInv(pids, events, id)
    requires var a := After(pids, events + [e]).async;
             id in a.futures && id in a.futuresMap && a.futures[id].Done?
    ensures var a := After(pids, events + [e]).async;
            Explained(pids, events + [e], id, a.futuresMap[id], a.futures[id].outcome)
  {
    var s, t := After(pids, events), After(pids, events + [e]);
    RunOneMore(Init(pids), events, e);
    var pid, outcome := t.async.futuresMap[id], t.async.futures[id].outcome;
    if Enabled(s, e) {
      FutureOrigin(s, e, id);
      if Causes(e, id, pid, outcome) {
        NowExplained(pids, events, e, id, pid, outcome);
      } else {
        StaysExplained(pids, events, e, id, pid, outcome);
      }
    } else {
      StaysExplained(pids, events, e, id, pid, outcome);
    }
  }

  lemma {:induction false} CallbackIsExplained(pids: seq<Pid>, events: seq<Event>, e: Event, id: MessageId, i: nat)
    requires MessageInv(After(pids, events)) && OutcomeInv(pids, events, id)
    requires var a := After(pids, events + [e]).async;
             id in a.futures && id in a.futuresMap && i < |a.callbacks| && a.callbacks[i].id == id
    ensures var a := After(pids, events + [e]).async;
            Explained(pids, events + [e], id, a.futuresMap[id], a.callbacks[i].outcome)
  {
    var s, t := After(pids, events), After(pids, events + [e]);
    RunOneMore(Init(pids), events, e);
    var pid, outcome := t.async.futuresMap[id], t.async.callbacks[i].outcome;
    if Enabled(s, e) {
      CallbackOrigin(s, e, i, id);
      if Causes(e, id, pid, outcome) {
        NowExplained(pids, events, e, id, pid, outcome);
      } else {
        StaysExplained(pids, events, e, id, pid, outcome);
      }
    } else {
      StaysExplained(pids, events, e, id, pid, outcome);
    }
  }

  lemma {:induction false} EveryRunExplains(pids: seq<Pid>, events: seq<Event>, id: MessageId)
    requires NoRepeats(pids)
    ensures OutcomeInv(pids, events, id)
  {
    if events != [] {
      var n := |events| - 1;
      EveryRunExplains(pids, events[..n], id);
      EveryRunKeepsPool(pids, events[..n]);
      StepKeepsOutcome(pids, events[..n], events[n], id);
      assert events[..n] + [events[n]] == events;
    }
  }

  /** In every run, what a sender finds when its future is done: the payload or the exception of a response
      to its own message, the exit code of the worker that was serving it, or its own cancellation. */
  lemma {:induction false} OutcomeIsItsOwn(pids: seq<Pid>, events: seq<Event>, id: MessageId)
    requires NoRepeats(pids)
    requires id in After(pids, events).async.futures && After(pids, events).async.futures[id].Done?
    ensures var a := After(pids, events).async;
            id in a.futuresMap && Explained(pids, events, id, a.futuresMap[id], a.futures[id].outcome)
  {
    EveryRunExplains(pids, events, id);
    EveryRunKeepsPool(pids, events);
    assert id in After(pids, events).async.futures.Keys;
  }
}
