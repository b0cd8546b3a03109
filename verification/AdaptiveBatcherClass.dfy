/** mlserver/batching/adaptive.py in its own form: the object whose fields the steps update. Every
    method is one step, proved to be the step of the state machine. */
module AdaptiveBatcherClass {
  import opened OrderedDict
  import opened Batching
  import opened AdaptiveBatching
  import opened AdaptiveFutures

  class AdaptiveBatcher {
    const cfg: Config
    var requests: Requests
    var asyncResponses: map<Id, Future>
    var batchingTask: Task
    ghost var liveBatchers: int
    ghost var admitted: Requests
    ghost var dispatched: seq<Requests>
    ghost var outcomes: map<nat, Outcome>

    ghost function Snapshot(): State
      reads this
    {
      State(requests, asyncResponses, batchingTask, liveBatchers, admitted, dispatched, outcomes)
    }

    ghost predicate Valid()
      reads this
    {
      cfg.Valid() && QueueInv(cfg, Snapshot()) && FuturesInv(cfg, Snapshot())
    }

    constructor (cfg: Config)
      requires cfg.Valid()
      ensures this.cfg == cfg && Valid() && Snapshot() == Init()
    {
      this.cfg := cfg;
      requests, asyncResponses, batchingTask := [], map[], Idle;
      liveBatchers, admitted, dispatched, outcomes := 0, [], [], map[];
      new;
      EveryRunKeepsFutures(cfg, []);
    }

    /** `predict` up to its wait for the response. */
    method Predict(internalId: Id, request: InferenceRequest)
      requires Valid() && Enabled(cfg, Snapshot(), Arrive(internalId, request))
      modifies this
      ensures Valid() && Snapshot() == Step(cfg, old(Snapshot()), Arrive(internalId, request))
    {
      StepKeepsQueue(cfg, Snapshot(), Arrive(internalId, request));
      StepKeepsFutures(cfg, Snapshot(), Arrive(internalId, request));
      requests := requests + [Entry(internalId, request)];
      admitted := admitted + [Entry(internalId, request)];
      asyncResponses := asyncResponses[internalId := Pending];
      StartBatcherIfNeeded();
    }

    method StartBatcherIfNeeded()
      modifies this`batchingTask, this`liveBatchers
      ensures batchingTask == if old(batchingTask).Idle? then Scheduled else old(batchingTask)
      ensures liveBatchers == old(liveBatchers) + if old(batchingTask).Idle? then 1 else 0
    {
      if !batchingTask.Idle? { return; }
      batchingTask := Scheduled;
      liveBatchers := liveBatchers + 1;
    }

    /** The inner loop of `_batch_requests`, while requests are there to take. */
    method FillBatch(start: Requests) returns (toBatch: Requests)
      requires cfg.Valid()
      modifies this`requests
      ensures if |toBatch| >= cfg.maxBatchSize
              then Fill(cfg, old(Snapshot()), start) == Loop(cfg, Dispatch(Snapshot(), toBatch))
              else Fill(cfg, old(Snapshot()), start) == Snapshot().(task := Waiting(toBatch))
      ensures |requests| <= old(|requests|)
      ensures start == [] && old(requests) != [] ==> |requests| < old(|requests|)
    {
      toBatch := start;
      while |toBatch| < cfg.maxBatchSize && requests != []
        invariant Fill(cfg, old(Snapshot()), start) == Fill(cfg, Snapshot(), toBatch)
        invariant |requests| <= old(|requests|)
        invariant requests == old(requests) ==> toBatch == start
        invariant requests != old(requests) ==> |requests| < old(|requests|)
        decreases |requests|
      {
        var next := requests[0];
        requests := requests[1..];
        toBatch := Put(toBatch, next.key, next.value);
      }
    }

    /** The outer loop of `_batch_requests`, from its test to the next wait or to its end. */
    method BatchRequests()
      requires cfg.Valid()
      modifies this
      ensures Snapshot() == Loop(cfg, old(Snapshot()))
    {
      while requests != []
        invariant Loop(cfg, old(Snapshot())) == Loop(cfg, Snapshot())
        decreases |requests|
      {
        var toBatch := FillBatch([]);
        if |toBatch| < cfg.maxBatchSize {
          batchingTask := Waiting(toBatch);
          return;
        }
        dispatched := dispatched + [toBatch];
      }
      batchingTask := Idle;
      liveBatchers := liveBatchers - 1;
    }

    /** The batcher task runs for the first time. */
    method RunBatcherTask()
      requires Valid() && batchingTask.Scheduled?
      modifies this
      ensures Valid() && Snapshot() == Step(cfg, old(Snapshot()), RunBatcher)
    {
      StepKeepsQueue(cfg, Snapshot(), RunBatcher);
      StepKeepsFutures(cfg, Snapshot(), RunBatcher);
      BatchRequests();
    }

    /** The pending `get` returns, and the batch is filled up from the queue. */
    method OnRequest()
      requires Valid() && batchingTask.Waiting? && requests != []
      modifies this
      ensures Valid() && Snapshot() == Step(cfg, old(Snapshot()), Wake)
    {
      StepKeepsQueue(cfg, Snapshot(), Wake);
      StepKeepsFutures(cfg, Snapshot(), Wake);
      var next := requests[0];
      requests := requests[1..];
      ContinueBatch(Put(batchingTask.toBatch, next.key, next.value));
    }

    /** The inner loop goes on with a batch in hand, up to the next wait or to the batcher's end. */
    method ContinueBatch(start: Requests)
      requires cfg.Valid()
      modifies this
      ensures Snapshot() == Fill(cfg, old(Snapshot()), start)
    {
      var toBatch := FillBatch(start);
      if |toBatch| < cfg.maxBatchSize {
        batchingTask := Waiting(toBatch);
      } else {
        dispatched := dispatched + [toBatch];
        BatchRequests();
      }
    }

    /** `max_batch_time` is over: what is in hand goes out. */
    method OnTimeout()
      requires Valid() && batchingTask.Waiting?
      modifies this
      ensures Valid() && Snapshot() == Step(cfg, old(Snapshot()), Timeout)
    {
      StepKeepsQueue(cfg, Snapshot(), Timeout);
      StepKeepsFutures(cfg, Snapshot(), Timeout);
      dispatched := dispatched + [batchingTask.toBatch];
      BatchRequests();
    }

    /** `set_result` / `set_exception`: raises unless the future is there and not done. */
    method SetFuture(internalId: Id, future: Future)
      requires internalId in asyncResponses && asyncResponses[internalId].Pending?
      modifies this`asyncResponses
      ensures asyncResponses == old(asyncResponses)[internalId := future]
    {
      asyncResponses := asyncResponses[internalId := future];
    }

    method SetAll(given: Odict<Id, Future>)
      requires Distinct(given) && PendingFrom(asyncResponses, given, 0)
      modifies this`asyncResponses
      ensures asyncResponses == old(asyncResponses) + AsMap(given)
    {
      ghost var before := asyncResponses;
      for i := 0 to |given|
        invariant asyncResponses == before + AsMap(given[..i])
        invariant PendingFrom(asyncResponses, given, i)
      {
        SetOneMore(before, given, i);
        OthersStayPending(asyncResponses, given, i);
        SetFuture(given[i].key, given[i].value);
      }
      assert given[..|given|] == given;
    }

    /** `_predict_callback`: splits the response among the callers, or gives all of them the error. */
    method PredictCallback(batched: BatchedRequests, ghost k: nat, outcome: Outcome)
      requires Valid() && Enabled(cfg, Snapshot(), Complete(k, outcome))
      requires batched.Valid() && batched.Tracked() && batched.inferenceRequests == dispatched[k]
      modifies this
      ensures Valid() && Snapshot() == Step(cfg, old(Snapshot()), Complete(k, outcome))
    {
      StepKeepsQueue(cfg, Snapshot(), Complete(k, outcome));
      StepKeepsFutures(cfg, Snapshot(), Complete(k, outcome));
      ghost var given := Settlement(dispatched[k], outcome);
      SettlementIsDistinct(cfg, Snapshot(), k, outcome);
      SettlementIsPending(cfg, Snapshot(), k, outcome);
      if outcome.Raised? {
        SetAll(AllFailed(batched.inferenceRequests, outcome.error));
      } else if !Splittable(outcome.response) {
        SetAll(AllFailed(batched.inferenceRequests, SHAPE_ERROR));
      } else {
        var parts := batched.SplitResponse(outcome.response);
        SetAll(AllResults(parts));
      }
      outcomes := outcomes[k := outcome];
    }

    /** The caller's wait is over; its future is dropped. */
    method WaitResponse(internalId: Id) returns (response: Future)
      requires Valid() && Enabled(cfg, Snapshot(), Collect(internalId))
      modifies this
      ensures Valid() && Snapshot() == Step(cfg, old(Snapshot()), Collect(internalId))
      ensures response == old(asyncResponses)[internalId]
    {
      StepKeepsQueue(cfg, Snapshot(), Collect(internalId));
      StepKeepsFutures(cfg, Snapshot(), Collect(internalId));
      response := asyncResponses[internalId];
      asyncResponses := asyncResponses - {internalId};
    }
  }

  /** The futures from the `i`-th on are there, and not done. */
  predicate PendingFrom(futures: map<Id, Future>, given: Odict<Id, Future>, i: nat) {
    forall j :: i <= j < |given| ==> given[j].key in futures && futures[given[j].key].Pending?
  }

  lemma {:induction false} OthersStayPending(futures: map<Id, Future>, given: Odict<Id, Future>, i: nat)
    requires Distinct(given) && i < |given| && PendingFrom(futures, given, i)
    ensures PendingFrom(futures[given[i].key := given[i].value], given, i + 1)
  {
  }

  lemma {:induction false} SetOneMore(before: map<Id, Future>, given: Odict<Id, Future>, i: nat)
    requires Distinct(given) && i < |given|
    ensures before + AsMap(given[..i + 1]) == (before + AsMap(given[..i]))[given[i].key := given[i].value]
  {
    AsMapSnoc(given, i);
  }

  lemma {:induction false} AsMapSnoc<V>(d: Odict<Id, V>, i: nat)
    requires Distinct(d) && i < |d|
    ensures AsMap(d[..i + 1]) == AsMap(d[..i])[d[i].key := d[i].value]
  {
    var init, more := d[..i], d[..i + 1];
    forall id ensures Has(more, id) <==> Has(init, id) || id == d[i].key {
      assert more[..i] == init;
      HasSnoc(more, id);
    }
    FindAt(more, i);
    forall id | Has(init, id) ensures Get(more, id) == Get(init, id) {
      assert more[Find(init, id)] == init[Find(init, id)];
      FindAt(more, Find(init, id));
    }
  }

  lemma {:induction false} SettlementIsPending(cfg: Config, s: State, k: nat, outcome: Outcome)
    requires cfg.Valid() && QueueInv(cfg, s) && FuturesInv(cfg, s) && Enabled(cfg, s, Complete(k, outcome))
    ensures PendingFrom(s.asyncResponses, Settlement(s.dispatched[k], outcome), 0)
  {
    var given := Settlement(s.dispatched[k], outcome);
    forall i | 0 <= i < |given|
      ensures given[i].key in s.asyncResponses && s.asyncResponses[given[i].key].Pending?
    {
      assert Has(given, given[i].key);
      CompletionFindsPending(cfg, s, k, outcome, given[i].key);
    }
  }

  lemma {:induction false} SettlementIsDistinct(cfg: Config, s: State, k: nat, outcome: Outcome)
    requires QueueInv(cfg, s) && FuturesInv(cfg, s) && k < |s.dispatched| && Mergeable(s.dispatched[k])
    ensures Distinct(Settlement(s.dispatched[k], outcome))
  {
    var batch, given := s.dispatched[k], Settlement(s.dispatched[k], outcome);
    BatchFits(cfg, s, k);
    SizesAreDistinctKnownIds(batch);
    if RaisesForAll(outcome) {
      assert forall i :: 0 <= i < |given| ==> given[i].key == batch[i].key;
    } else {
      assert forall i :: 0 <= i < |given| ==> given[i].key == Sizes(batch)[i].key;
    }
  }
}
