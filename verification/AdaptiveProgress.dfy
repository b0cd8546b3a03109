/** mlserver/batching/adaptive.py:47-59, 120-147: how the batcher fills its batches, and that whoever comes can
    be served. */
module AdaptiveProgress {
  import opened OrderedDict
  import opened Batching
  import opened AdaptiveBatching

  // ---------- Full batches ----------

  predicate FullFrom(cfg: Config, dispatched: seq<Requests>, n: nat) {
    forall k :: n <= k < |dispatched| ==> |dispatched[k]| == cfg.maxBatchSize
  }

  lemma {:induction false} FillFillsUp(cfg: Config, s: State, toBatch: Requests)
    requires cfg.Valid() && |toBatch| <= cfg.maxBatchSize
    ensures var t := Fill(cfg, s, toBatch);
            t.requests == [] && s.dispatched <= t.dispatched && FullFrom(cfg, t.dispatched, |s.dispatched|)
    decreases |s.requests|, if |toBatch| < cfg.maxBatchSize then 0 else 2
  {
    if |toBatch| >= cfg.maxBatchSize {
      LoopFillsUp(cfg, Dispatch(s, toBatch));
      NextIsFull(cfg, s.dispatched, toBatch, Loop(cfg, Dispatch(s, toBatch)).dispatched);
    } else if s.requests != [] {
      FillFillsUp(cfg, s.(requests := s.requests[1..]), Put(toBatch, s.requests[0].key, s.requests[0].value));
    }
  }

  lemma {:induction false} LoopFillsUp(cfg: Config, s: State)
    requires cfg.Valid()
    ensures var t := Loop(cfg, s);
            t.requests == [] && s.dispatched <= t.dispatched && FullFrom(cfg, t.dispatched, |s.dispatched|)
    decreases |s.requests|, 1
  {
    if s.requests != [] { FillFillsUp(cfg, s, []); }
  }

  lemma {:induction false} NextIsFull(cfg: Config, before: seq<Requests>, batch: Requests, after: seq<Requests>)
    requires before + [batch] <= after && |batch| == cfg.maxBatchSize && FullFrom(cfg, after, |before| + 1)
    ensures before <= after && FullFrom(cfg, after, |before|)
  {
    assert after[|before|] == (before + [batch])[|before|];
  }

  /** The batcher always takes all there is; a batch goes out full, but for the one in hand at a timeout. */
  lemma {:induction false} OnlyTimeoutsCutShort(cfg: Config, events: seq<Event>, e: Event, k: nat)
    requires cfg.Valid() && Enabled(cfg, After(cfg, events), e)
    ensures var s, t := After(cfg, events), Step(cfg, After(cfg, events), e);
            && (e.RunBatcher? || e.Wake? || e.Timeout? ==> t.requests == [])
            && (|s.dispatched| <= k < |t.dispatched| ==>
                  || |t.dispatched[k]| == cfg.maxBatchSize
                  || (e.Timeout? && k == |s.dispatched| && t.dispatched[k] == s.task.toBatch))
  {
    var s := After(cfg, events);
    EveryRunIsFifo(cfg, events);
    match e
    case RunBatcher => LoopFillsUp(cfg, s);
    case Wake =>
      FillFillsUp(cfg, s.(requests := s.requests[1..]), Put(s.task.toBatch, s.requests[0].key, s.requests[0].value));
    case Timeout =>
      LoopFillsUp(cfg, Dispatch(s, s.task.toBatch));
      assert Step(cfg, s, e).dispatched[|s.dispatched|] == (s.dispatched + [s.task.toBatch])[|s.dispatched|];
    case _ =>
  }

  // ---------- Whoever comes can be served ----------

  lemma {:induction false} AfterSnoc(cfg: Config, events: seq<Event>, e: Event)
    requires cfg.Valid()
    ensures After(cfg, events + [e])
         == if Enabled(cfg, After(cfg, events), e) then Step(cfg, After(cfg, events), e) else After(cfg, events)
  {
    assert (events + [e])[..|events|] == events;
  }

  lemma {:induction false} BatcherGoesOn(cfg: Config, events: seq<Event>, e: Event)
    requires cfg.Valid() && !After(cfg, events).task.Idle? && e == NextBatcherEvent(After(cfg, events))
    ensures var s, t := After(cfg, events), After(cfg, events + [e]);
            && Drain(cfg, t) == Drain(cfg, s)
            && (|t.requests| < |s.requests| || (|t.requests| == |s.requests| && Rank(t.task) < Rank(s.task)))
  {
    BatcherProgresses(cfg, After(cfg, events));
    AfterSnoc(cfg, events, e);
  }

  /** The batcher left alone is a run. */
  lemma {:induction false} DrainIsRun(cfg: Config, events: seq<Event>) returns (more: seq<Event>)
    requires cfg.Valid()
    ensures After(cfg, events + more) == Drain(cfg, After(cfg, events))
    decreases |After(cfg, events).requests|, Rank(After(cfg, events).task)
  {
    if After(cfg, events).task.Idle? {
      more := [];
      assert events + more == events;
    } else {
      var e := NextBatcherEvent(After(cfg, events));
      BatcherGoesOn(cfg, events, e);
      var rest := DrainIsRun(cfg, events + [e]);
      more := [e] + rest;
      NextFirst(events, e, rest);
    }
  }

  lemma {:induction false} NextFirst(events: seq<Event>, e: Event, rest: seq<Event>)
    ensures events + ([e] + rest) == events + [e] + rest
  {
  }

  /** For any requests that fit and have different ids there is a run that admits them all, in order, and hands
      every one of them over in a batch. */
  lemma {:induction false} AllCanBeServed(cfg: Config, reqs: Requests) returns (events: seq<Event>)
    requires cfg.Valid() && Distinct(reqs) && AllFit(cfg.kinds, reqs)
    ensures var s := After(cfg, events);
            s.admitted == reqs && s.requests == [] && s.task.Idle? && Flatten(s.dispatched) == reqs
  {
    if reqs == [] {
      events := [];
    } else {
      var n := |reqs| - 1;
      var first := AllCanBeServed(cfg, reqs[..n]);
      var arrive := Arrive(reqs[n].key, reqs[n].value);
      NewIdIsFree(reqs);
      AfterSnoc(cfg, first, arrive);
      assert reqs == reqs[..n] + [Entry(reqs[n].key, reqs[n].value)];
      var more := DrainIsRun(cfg, first + [arrive]);
      EveryRunIsFifo(cfg, first + [arrive]);
      DrainDispatchesEverything(cfg, After(cfg, first + [arrive]));
      events := first + [arrive] + more;
    }
  }

  lemma {:induction false} NewIdIsFree(reqs: Requests)
    requires Distinct(reqs) && reqs != []
    ensures !Has(reqs[..|reqs| - 1], reqs[|reqs| - 1].key)
  {
  }
}
