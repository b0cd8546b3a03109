/** mlserver/batching/adaptive.py: a bounded queue, one restartable batcher task that fills batches
    from it, and one future per caller; batches finish in any order.

    A step is what runs between two event-loop yields. `Queue.put` on a queue with room and
    `Queue.get` on a non-empty queue do not yield, so that putting a request, registering its future
    and starting the batcher are one step, and so is everything the batcher does from waking up to
    its next wait. Callers do not cancel, and building a batch does not raise (`Fits`). */
module AdaptiveBatching {
  import opened OrderedDict
  import opened Batching

  datatype Future = Pending | Result(response: InferenceResponse) | Failed(error: string)

  /** The batcher task at a yield: none or done, created but not yet run, or waiting for a request
      with a partial batch in hand. */
  datatype Task = Idle | Scheduled | Waiting(toBatch: Requests)

  /** How a batched prediction ends. */
  datatype Outcome = Answer(response: InferenceResponse) | Raised(error: string)

  /** `kinds` gives the payload kind every request uses for a head. */
  datatype Config = Config(maxBatchSize: nat, kinds: map<string, Kind>) {
    predicate Valid() { maxBatchSize >= 1 }
  }

  /** `liveBatchers` counts the batcher coroutines created and not yet returned. `admitted`,
      `dispatched` and `outcomes` are histories: the requests in the order they entered the queue,
      the batches in the order they were yielded, and how finished batches ended. */
  datatype State = State(
    requests: Requests,
    asyncResponses: map<Id, Future>,
    task: Task,
    liveBatchers: int,
    admitted: Requests,
    dispatched: seq<Requests>,
    outcomes: map<nat, Outcome>)

  datatype Event =
    | Arrive(id: Id, request: InferenceRequest)
    | RunBatcher
    | Wake
    | Timeout
    | Complete(batch: nat, outcome: Outcome)
    | Collect(id: Id)

  const SHAPE_ERROR := "pop from empty list"

  // ---------- Requests whose batches can be built ----------

  predicate Fits(kinds: map<string, Kind>, request: InferenceRequest) {
    forall input :: input in request.inputs ==>
                      && input.shape != [] && input.name in kinds
                      && input.data.kind == kinds[input.name]
  }

  predicate AllFit(kinds: map<string, Kind>, reqs: Requests) {
    forall k :: 0 <= k < |reqs| ==> Fits(kinds, reqs[k].value)
  }

  predicate FittingHead(kinds: map<string, Kind>, name: string, head: Head) {
    forall j :: 0 <= j < |head| ==>
                  && head[j].value.shape != [] && name in kinds && head[j].value.data.kind == kinds[name]
  }

  predicate FittingHeads(kinds: map<string, Kind>, heads: Heads) {
    forall i :: 0 <= i < |heads| ==> heads[i].value != [] && FittingHead(kinds, heads[i].key, heads[i].value)
  }

  lemma {:induction false} AddInputFits(kinds: map<string, Kind>, heads: Heads, id: Id, input: RequestInput)
    requires FittingHeads(kinds, heads)
    requires input.shape != [] && input.name in kinds && input.data.kind == kinds[input.name]
    ensures FittingHeads(kinds, AddInput(heads, id, input))
  {
    assert FittingHead(kinds, input.name, HeadOf(heads, input.name));
    assert FittingHead(kinds, input.name, Put(HeadOf(heads, input.name), id, input));
  }

  lemma {:induction false} AddInputsFit(kinds: map<string, Kind>, heads: Heads, id: Id, inputs: seq<RequestInput>)
    requires FittingHeads(kinds, heads)
    requires forall input :: input in inputs ==>
                               input.shape != [] && input.name in kinds && input.data.kind == kinds[input.name]
    ensures FittingHeads(kinds, AddInputs(heads, id, inputs))
  {
    if inputs != [] {
      var init, last := inputs[..|inputs| - 1], inputs[|inputs| - 1];
      AddInputsFit(kinds, heads, id, init);
      assert last in inputs;
      AddInputFits(kinds, AddInputs(heads, id, init), id, last);
    }
  }

  lemma {:induction false} IndexFits(kinds: map<string, Kind>, reqs: Requests)
    requires AllFit(kinds, reqs)
    ensures FittingHeads(kinds, IndexInputs(reqs))
  {
    if reqs != [] {
      var init, last := reqs[..|reqs| - 1], reqs[|reqs| - 1];
      IndexFits(kinds, init);
      assert Fits(kinds, last.value);
      AddInputsFit(kinds, IndexInputs(init), last.key, last.value.inputs);
    }
  }

  lemma {:induction false} FittingRequestsMerge(kinds: map<string, Kind>, reqs: Requests)
    requires AllFit(kinds, reqs)
    ensures Mergeable(reqs)
  {
    IndexFits(kinds, reqs);
  }

  // ---------- The batcher's segments ----------

  /** `async for` yields a batch: its prediction is scheduled at once. */
  function Dispatch(s: State, batch: Requests): State {
    s.(dispatched := s.dispatched + [batch])
  }

  /** The outer loop's test, up to the next wait. */
  function Loop(cfg: Config, s: State): State
    requires cfg.Valid()
    decreases |s.requests|, 1
  {
    if s.requests == [] then s.(task := Idle, liveBatchers := s.liveBatchers - 1)
    else Fill(cfg, s, [])
  }

  /** The inner loop with `toBatch` in hand, up to the next wait. */
  function Fill(cfg: Config, s: State, toBatch: Requests): State
    requires cfg.Valid()
    decreases |s.requests|, if |toBatch| < cfg.maxBatchSize then 0 else 2
  {
    if |toBatch| >= cfg.maxBatchSize then Loop(cfg, Dispatch(s, toBatch))
    else if s.requests == [] then s.(task := Waiting(toBatch))
    else Fill(cfg, s.(requests := s.requests[1..]), Put(toBatch, s.requests[0].key, s.requests[0].value))
  }

  // ---------- Completion ----------

  function AllFailed(batch: Requests, error: string): Odict<Id, Future> {
    seq(|batch|, i requires 0 <= i < |batch| => Entry(batch[i].key, Failed(error)))
  }

  function PartsOf(batch: Requests, response: InferenceResponse): Odict<Id, InferenceResponse>
    requires Mergeable(batch) && Splittable(response)
  {
    SizesAreDistinctKnownIds(batch);
    Parts(ExternalIds(batch), Sizes(batch), response)
  }

  function AllResults(parts: Odict<Id, InferenceResponse>): Odict<Id, Future> {
    seq(|parts|, i requires 0 <= i < |parts| => Entry(parts[i].key, Result(parts[i].value)))
  }

  /** What `_predict_callback` sets, in order: every id's own part of the response; every id's copy of
      the error when the prediction or the split raises. */
  function Settlement(batch: Requests, outcome: Outcome): Odict<Id, Future>
    requires Mergeable(batch)
  {
    match outcome
    case Raised(error) => AllFailed(batch, error)
    case Answer(response) =>
      if !Splittable(response) then AllFailed(batch, SHAPE_ERROR)
      else AllResults(PartsOf(batch, response))
  }

  function AsMap<V>(d: Odict<Id, V>): map<Id, V> {
    map id | id in Keys(d) :: Get(d, id)
  }

  function Settle(batch: Requests, outcome: Outcome): map<Id, Future>
    requires Mergeable(batch)
  {
    AsMap(Settlement(batch, outcome))
  }

  function Keys<V>(d: Odict<Id, V>): (r: set<Id>)
    ensures forall id :: id in r <==> Has(d, id)
  {
    var r := set k | 0 <= k < |d| :: d[k].key;
    assert forall id :: Has(d, id) ==> d[Find(d, id)].key == id;
    assert forall k :: 0 <= k < |d| ==> Has(d, d[k].key);
    r
  }

  // ---------- Steps and runs ----------

  function Init(): State {
    State([], map[], Idle, 0, [], [], map[])
  }

  predicate Enabled(cfg: Config, s: State, e: Event) {
    match e
    case Arrive(id, request) =>
      |s.requests| < cfg.maxBatchSize && !Has(s.admitted, id) && Fits(cfg.kinds, request)
    case RunBatcher => s.task.Scheduled?
    case Wake => s.task.Waiting? && s.requests != []
    case Timeout => s.task.Waiting?
    case Complete(k, _) => k < |s.dispatched| && k !in s.outcomes && Mergeable(s.dispatched[k])
    case Collect(id) => id in s.asyncResponses && !s.asyncResponses[id].Pending?
  }

  function Step(cfg: Config, s: State, e: Event): State
    requires cfg.Valid() && Enabled(cfg, s, e)
  {
    match e
    case Arrive(id, request) =>
      s.(requests := s.requests + [Entry(id, request)],
         admitted := s.admitted + [Entry(id, request)],
         asyncResponses := s.asyncResponses[id := Pending],
         task := if s.task.Idle? then Scheduled else s.task,
         liveBatchers := if s.task.Idle? then s.liveBatchers + 1 else s.liveBatchers)
    case RunBatcher => Loop(cfg, s)
    case Wake =>
      Fill(cfg, s.(requests := s.requests[1..]),
           Put(s.task.toBatch, s.requests[0].key, s.requests[0].value))
    case Timeout => Loop(cfg, Dispatch(s, s.task.toBatch))
    case Complete(k, outcome) =>
      s.(asyncResponses := s.asyncResponses + Settle(s.dispatched[k], outcome),
         outcomes := s.outcomes[k := outcome])
    case Collect(id) => s.(asyncResponses := s.asyncResponses - {id})
  }

  /** The state after a sequence of events; an event that cannot happen is skipped. */
  function After(cfg: Config, events: seq<Event>): State
    requires cfg.Valid()
  {
    if events == [] then Init()
    else
      var s, e := After(cfg, events[..|events| - 1]), events[|events| - 1];
      if Enabled(cfg, s, e) then Step(cfg, s, e) else s
  }

  // ---------- FIFO order, batch sizes, wakeups ----------

  function Flatten(batches: seq<Requests>): Requests {
    if batches == [] then [] else Flatten(batches[..|batches| - 1]) + batches[|batches| - 1]
  }

  function InHand(task: Task): Requests {
    if task.Waiting? then task.toBatch else []
  }

  /** Dispatched batches, then the batch in hand, then the queue: exactly what was admitted. */
  ghost predicate Fifo(s: State, toBatch: Requests) {
    && Distinct(s.admitted)
    && Flatten(s.dispatched) + toBatch + s.requests == s.admitted
  }

  ghost predicate Sized(cfg: Config, s: State) {
    && |s.requests| <= cfg.maxBatchSize
    && forall k :: 0 <= k < |s.dispatched| ==> 1 <= |s.dispatched[k]| <= cfg.maxBatchSize
  }

  ghost predicate Awake(cfg: Config, s: State) {
    && (s.task.Idle? ==> s.requests == [])
    && s.liveBatchers == (if s.task.Idle? then 0 else 1)
    && (s.task.Waiting? ==> 1 <= |s.task.toBatch| < cfg.maxBatchSize)
  }

  ghost predicate QueueInv(cfg: Config, s: State) {
    Fifo(s, InHand(s.task)) && Sized(cfg, s) && Awake(cfg, s)
  }

  lemma {:induction false} PutIsNext(before: Requests, toBatch: Requests, queue: Requests)
    requires queue != [] && Distinct(before + toBatch + queue)
    ensures Put(toBatch, queue[0].key, queue[0].value) == toBatch + [queue[0]]
    ensures before + (toBatch + [queue[0]]) + queue[1..] == before + toBatch + queue
  {
    var all := before + toBatch + queue;
    var at := |before| + |toBatch|;
    assert all[at] == queue[0];
    forall i | 0 <= i < |toBatch| ensures toBatch[i].key != queue[0].key {
      assert all[|before| + i] == toBatch[i];
    }
    assert Find(toBatch, queue[0].key) == |toBatch|;
  }

  lemma {:induction false} TakeKeepsFifo(s: State, toBatch: Requests)
    requires Fifo(s, toBatch) && s.requests != []
    ensures var next := s.requests[0];
            && Put(toBatch, next.key, next.value) == toBatch + [next]
            && Fifo(s.(requests := s.requests[1..]), toBatch + [next])
  {
    PutIsNext(Flatten(s.dispatched), toBatch, s.requests);
  }

  lemma {:induction false} DispatchKeepsSized(cfg: Config, s: State, toBatch: Requests)
    requires Sized(cfg, s) && 1 <= |toBatch| <= cfg.maxBatchSize
    ensures Sized(cfg, Dispatch(s, toBatch))
  {
  }

  lemma {:induction false} FillKeepsQueue(cfg: Config, s: State, toBatch: Requests)
    requires cfg.Valid() && Fifo(s, toBatch) && Sized(cfg, s) && s.liveBatchers == 1
    requires |toBatch| <= cfg.maxBatchSize && (toBatch != [] || s.requests != [])
    ensures QueueInv(cfg, Fill(cfg, s, toBatch))
    decreases |s.requests|, if |toBatch| < cfg.maxBatchSize then 0 else 2
  {
    if |toBatch| >= cfg.maxBatchSize {
      DispatchKeepsFifo(s, toBatch);
      DispatchKeepsSized(cfg, s, toBatch);
      LoopKeepsQueue(cfg, Dispatch(s, toBatch));
    } else if s.requests != [] {
      TakeKeepsFifo(s, toBatch);
      FillKeepsQueue(cfg, s.(requests := s.requests[1..]), toBatch + [s.requests[0]]);
    }
  }

  lemma {:induction false} DispatchKeepsFifo(s: State, toBatch: Requests)
    requires Fifo(s, toBatch)
    ensures Fifo(Dispatch(s, toBatch), [])
  {
    assert Dispatch(s, toBatch).dispatched[..|s.dispatched|] == s.dispatched;
  }

  lemma {:induction false} LoopKeepsQueue(cfg: Config, s: State)
    requires cfg.Valid() && Fifo(s, []) && Sized(cfg, s) && s.liveBatchers == 1
    ensures QueueInv(cfg, Loop(cfg, s))
    decreases |s.requests|, 1
  {
    if s.requests != [] { FillKeepsQueue(cfg, s, []); }
  }

  lemma {:induction false} ArriveKeepsQueue(cfg: Config, s: State, id: Id, request: InferenceRequest)
    requires cfg.Valid() && QueueInv(cfg, s) && Enabled(cfg, s, Arrive(id, request))
    ensures QueueInv(cfg, Step(cfg, s, Arrive(id, request)))
  {
    var entry := Entry(id, request);
    assert Distinct(s.admitted + [entry]);
    assert Flatten(s.dispatched) + InHand(s.task) + (s.requests + [entry])
        == Flatten(s.dispatched) + InHand(s.task) + s.requests + [entry];
  }

  lemma {:induction false} StepKeepsQueue(cfg: Config, s: State, e: Event)
    requires cfg.Valid() && QueueInv(cfg, s) && Enabled(cfg, s, e)
    ensures QueueInv(cfg, Step(cfg, s, e))
  {
    match e
    case Arrive(id, request) => ArriveKeepsQueue(cfg, s, id, request);
    case RunBatcher => LoopKeepsQueue(cfg, s);
    case Wake =>
      PutIsNext(Flatten(s.dispatched), s.task.toBatch, s.requests);
      FillKeepsQueue(cfg, s.(requests := s.requests[1..]), s.task.toBatch + [s.requests[0]]);
    case Timeout =>
      DispatchKeepsFifo(s, s.task.toBatch);
      LoopKeepsQueue(cfg, Dispatch(s, s.task.toBatch));
    case Complete(k, outcome) =>
    case Collect(id) =>
  }

  /** In every run: the dispatched batches, the batch in hand and the queue make up the admission
      order with no request lost, repeated or overtaken; every batch has between 1 and
      `maxBatchSize` requests and the queue never more; a non-empty queue has a live batcher, and
      there is never more than one. */
  lemma {:induction false} EveryRunIsFifo(cfg: Config, events: seq<Event>)
    requires cfg.Valid()
    ensures QueueInv(cfg, After(cfg, events))
  {
    if events != [] {
      var before, e := events[..|events| - 1], events[|events| - 1];
      EveryRunIsFifo(cfg, before);
      if Enabled(cfg, After(cfg, before), e) { StepKeepsQueue(cfg, After(cfg, before), e); }
    }
  }

  /** `t` differs from `s` in the batcher's own fields only, and has dispatched more. */
  ghost predicate OnlyBatcherMoved(s: State, t: State) {
    && t.asyncResponses == s.asyncResponses && t.outcomes == s.outcomes && t.admitted == s.admitted
    && |s.dispatched| <= |t.dispatched| && t.dispatched[..|s.dispatched|] == s.dispatched
  }

  lemma {:induction false} FillMovesBatcher(cfg: Config, s: State, toBatch: Requests)
    requires cfg.Valid()
    ensures OnlyBatcherMoved(s, Fill(cfg, s, toBatch))
    decreases |s.requests|, if |toBatch| < cfg.maxBatchSize then 0 else 2
  {
    if |toBatch| >= cfg.maxBatchSize {
      LoopMovesBatcher(cfg, Dispatch(s, toBatch));
      var t := Fill(cfg, s, toBatch);
      assert t.dispatched[..|s.dispatched|] == t.dispatched[..|s.dispatched| + 1][..|s.dispatched|];
    } else if s.requests != [] {
      FillMovesBatcher(cfg, s.(requests := s.requests[1..]), Put(toBatch, s.requests[0].key, s.requests[0].value));
    }
  }

  lemma {:induction false} LoopMovesBatcher(cfg: Config, s: State)
    requires cfg.Valid()
    ensures OnlyBatcherMoved(s, Loop(cfg, s))
    decreases |s.requests|, 1
  {
    if s.requests != [] { FillMovesBatcher(cfg, s, []); }
  }

  lemma {:induction false} BatcherLeavesFuturesAlone(cfg: Config, s: State, e: Event)
    requires cfg.Valid() && Enabled(cfg, s, e) && (e.RunBatcher? || e.Wake? || e.Timeout?)
    ensures OnlyBatcherMoved(s, Step(cfg, s, e))
  {
    if e.RunBatcher? {
      LoopMovesBatcher(cfg, s);
    } else if e.Wake? {
      FillMovesBatcher(cfg, s.(requests := s.requests[1..]),
                       Put(s.task.toBatch, s.requests[0].key, s.requests[0].value));
    } else {
      LoopMovesBatcher(cfg, Dispatch(s, s.task.toBatch));
      var t := Step(cfg, s, e);
      assert t.dispatched[..|s.dispatched|] == t.dispatched[..|s.dispatched| + 1][..|s.dispatched|];
    }
  }

  // ---------- Draining ----------

  lemma {:induction false} FillShrinks(cfg: Config, s: State, toBatch: Requests)
    requires cfg.Valid()
    ensures |Fill(cfg, s, toBatch).requests| <= |s.requests|
    decreases |s.requests|, if |toBatch| < cfg.maxBatchSize then 0 else 2
  {
    if |toBatch| >= cfg.maxBatchSize { LoopShrinks(cfg, Dispatch(s, toBatch)); }
    else if s.requests != [] {
      FillShrinks(cfg, s.(requests := s.requests[1..]), Put(toBatch, s.requests[0].key, s.requests[0].value));
    }
  }

  lemma {:induction false} LoopShrinks(cfg: Config, s: State)
    requires cfg.Valid()
    ensures |Loop(cfg, s).requests| <= |s.requests|
    ensures s.requests != [] ==> |Loop(cfg, s).requests| < |s.requests|
    ensures s.requests == [] ==> Loop(cfg, s).task.Idle?
    decreases |s.requests|, 1
  {
    if s.requests != [] {
      FillShrinks(cfg, s.(requests := s.requests[1..]), Put([], s.requests[0].key, s.requests[0].value));
    }
  }

  /** What the batcher does on its own next; a wait on an empty queue can only time out. */
  function NextBatcherEvent(s: State): Event
    requires !s.task.Idle?
  {
    if s.task.Scheduled? then RunBatcher else if s.requests != [] then Wake else Timeout
  }

  function Rank(task: Task): nat {
    match task case Idle => 0 case Waiting(_) => 1 case Scheduled => 2
  }

  lemma {:induction false} BatcherProgresses(cfg: Config, s: State)
    requires cfg.Valid() && !s.task.Idle?
    ensures Enabled(cfg, s, NextBatcherEvent(s))
    ensures var t := Step(cfg, s, NextBatcherEvent(s));
            |t.requests| < |s.requests| || (|t.requests| == |s.requests| && Rank(t.task) < Rank(s.task))
  {
    if s.task.Scheduled? {
      LoopShrinks(cfg, s);
    } else if s.requests != [] {
      FillShrinks(cfg, s.(requests := s.requests[1..]),
                  Put(s.task.toBatch, s.requests[0].key, s.requests[0].value));
    } else {
      LoopShrinks(cfg, Dispatch(s, s.task.toBatch));
    }
  }

  /** With no new arrivals the batcher runs to its end. */
  function Drain(cfg: Config, s: State): State
    requires cfg.Valid()
    decreases |s.requests|, Rank(s.task)
  {
    if s.task.Idle? then s
    else
      BatcherProgresses(cfg, s);
      Drain(cfg, Step(cfg, s, NextBatcherEvent(s)))
  }

  /** No lost wakeup: left alone after any run, the batcher empties the queue and ends, and then
      every admitted request is in exactly one batch, in admission order. */
  lemma {:induction false} DrainDispatchesEverything(cfg: Config, s: State)
    requires cfg.Valid() && QueueInv(cfg, s)
    ensures var t := Drain(cfg, s);
            t.task.Idle? && t.requests == [] && Flatten(t.dispatched) == s.admitted == t.admitted
    decreases |s.requests|, Rank(s.task)
  {
    if !s.task.Idle? {
      BatcherProgresses(cfg, s);
      BatcherLeavesFuturesAlone(cfg, s, NextBatcherEvent(s));
      StepKeepsQueue(cfg, s, NextBatcherEvent(s));
      DrainDispatchesEverything(cfg, Step(cfg, s, NextBatcherEvent(s)));
    }
  }
}
