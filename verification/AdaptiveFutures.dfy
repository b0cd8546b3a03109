/** What the futures of the adaptive batcher hold: every caller gets its own answer, once. */
module AdaptiveFutures {
  import opened OrderedDict
  import opened Batching
  import opened Transparency
  import opened AdaptiveBatching

  // ---------- Batches do not share requests ----------

  lemma {:induction false} BatchInFlatten(batches: seq<Requests>, k: nat, i: nat)
    requires k < |batches| && i < |batches[k]|
    ensures |Flatten(batches[..k])| + i < |Flatten(batches)|
    ensures Flatten(batches)[|Flatten(batches[..k])| + i] == batches[k][i]
    ensures |Flatten(batches[..k + 1])| == |Flatten(batches[..k])| + |batches[k]|
  {
    var n := |batches| - 1;
    assert batches[..k + 1][..k] == batches[..k];
    if k < n {
      BatchInFlatten(batches[..n], k, i);
      assert batches[..n][..k] == batches[..k];
    } else {
      assert batches[..n + 1] == batches;
    }
  }

  lemma {:induction false} FlattenGrows(batches: seq<Requests>, k: nat, n: nat)
    requires k <= n <= |batches|
    ensures |Flatten(batches[..k])| <= |Flatten(batches[..n])|
  {
    if k < n {
      FlattenGrows(batches, k, n - 1);
      assert batches[..n][..n - 1] == batches[..n - 1];
    }
  }

  lemma {:induction false} BatchesAreDisjoint(batches: seq<Requests>, id: Id, k: nat, l: nat)
    requires Distinct(Flatten(batches)) && k < l < |batches|
    ensures !(Has(batches[k], id) && Has(batches[l], id))
  {
    if Has(batches[k], id) && Has(batches[l], id) {
      var i, j := Find(batches[k], id), Find(batches[l], id);
      BatchInFlatten(batches, k, i);
      BatchInFlatten(batches, l, j);
      FlattenGrows(batches, k + 1, l);
    }
  }

  lemma {:induction false} DispatchedAt(s: State, toBatch: Requests, k: nat, i: nat)
    requires Fifo(s, toBatch) && k < |s.dispatched| && i < |s.dispatched[k]|
    ensures |Flatten(s.dispatched[..k])| + i < |s.admitted|
    ensures s.admitted[|Flatten(s.dispatched[..k])| + i] == s.dispatched[k][i]
  {
    BatchInFlatten(s.dispatched, k, i);
    var at := |Flatten(s.dispatched[..k])| + i;
    assert s.admitted[at] == (Flatten(s.dispatched) + (toBatch + s.requests))[at];
  }

  lemma {:induction false} BatchIsAdmitted(s: State, toBatch: Requests, k: nat, i: nat)
    requires Fifo(s, toBatch) && k < |s.dispatched| && i < |s.dispatched[k]|
    ensures Has(s.admitted, s.dispatched[k][i].key)
    ensures Get(s.admitted, s.dispatched[k][i].key) == s.dispatched[k][i].value
    ensures Distinct(s.dispatched[k])
  {
    DispatchedAt(s, toBatch, k, i);
    FindAt(s.admitted, |Flatten(s.dispatched[..k])| + i);
    forall x: nat, y: nat | x < y < |s.dispatched[k]| ensures s.dispatched[k][x].key != s.dispatched[k][y].key {
      DispatchedAt(s, toBatch, k, x);
      DispatchedAt(s, toBatch, k, y);
    }
  }

  // ---------- Which futures a completion sets ----------

  predicate RaisesForAll(outcome: Outcome) {
    outcome.Raised? || !Splittable(outcome.response)
  }

  /** An error reaches every caller of the batch; an answer with outputs reaches exactly the callers
      whose request has an input; an answer without outputs reaches nobody. */
  lemma {:induction false} SettledIds(batch: Requests, outcome: Outcome, id: Id)
    requires Mergeable(batch)
    ensures id in Settle(batch, outcome) <==>
            if RaisesForAll(outcome) then Has(batch, id)
            else outcome.response.outputs != [] && HasInputs(batch, id)
    ensures id in Settle(batch, outcome) ==> Has(batch, id)
  {
    if RaisesForAll(outcome) {
      SameKeys(Settlement(batch, outcome), batch, false, id);
    } else {
      AnsweredExactlyTheIdsWithInputs(batch, id);
      SizesAreDistinctKnownIds(batch);
      SameKeys(Settlement(batch, outcome), Sizes(batch), outcome.response.outputs == [], id);
    }
    if HasInputs(batch, id) {
      var k :| 0 <= k < |batch| && batch[k].key == id;
      assert Has(batch, id);
    }
  }

  lemma {:induction false} SameKeys<V, W>(a: Odict<Id, V>, b: Odict<Id, W>, none: bool, id: Id)
    requires if none then a == [] else |a| == |b| && forall k :: 0 <= k < |a| ==> a[k].key == b[k].key
    ensures Has(a, id) <==> !none && Has(b, id)
  {
    if Has(a, id) { assert b[Find(a, id)].key == id; }
    if !none && Has(b, id) { assert a[Find(b, id)].key == id; }
  }

  // ---------- The invariant of the futures ----------

  ghost predicate SettledBy(s: State, id: Id, k: nat)
    requires forall j :: j in s.outcomes ==> j < |s.dispatched| && Mergeable(s.dispatched[j])
  {
    k in s.outcomes && id in Settle(s.dispatched[k], s.outcomes[k])
  }

  ghost predicate FinishedBatches(s: State) {
    forall j :: j in s.outcomes ==> j < |s.dispatched| && Mergeable(s.dispatched[j])
  }

  /** A future a finished batch has settled holds what that batch gave it, until its caller takes it;
      every other admitted request has a pending future. */
  ghost predicate FutureInv(s: State, id: Id)
    requires FinishedBatches(s)
  {
    && (id in s.asyncResponses ==> Has(s.admitted, id))
    && (forall k: nat :: SettledBy(s, id, k) && id in s.asyncResponses ==>
                      s.asyncResponses[id] == Settle(s.dispatched[k], s.outcomes[k])[id])
    && (Has(s.admitted, id) && (forall k: nat :: !SettledBy(s, id, k)) ==>
          id in s.asyncResponses && s.asyncResponses[id].Pending?)
  }

  ghost predicate FuturesInv(cfg: Config, s: State) {
    && FinishedBatches(s) && AllFit(cfg.kinds, s.admitted)
    && forall id :: FutureInv(s, id)
  }

  lemma {:induction false} DispatchedAreDistinct(s: State, toBatch: Requests)
    requires Fifo(s, toBatch)
    ensures Distinct(Flatten(s.dispatched))
  {
    assert s.admitted[..|Flatten(s.dispatched)|] == Flatten(s.dispatched);
  }

  lemma {:induction false} SettledByOne(s: State, toBatch: Requests, id: Id, k: nat, l: nat)
    requires Fifo(s, toBatch) && FinishedBatches(s) && SettledBy(s, id, k)
    requires l < |s.dispatched| && Has(s.dispatched[l], id)
    ensures k == l
  {
    SettledIds(s.dispatched[k], s.outcomes[k], id);
    DispatchedAreDistinct(s, toBatch);
    if k < l { BatchesAreDisjoint(s.dispatched, id, k, l); }
    if l < k { BatchesAreDisjoint(s.dispatched, id, l, k); }
  }

  lemma {:induction false} BatchFits(cfg: Config, s: State, k: nat)
    requires QueueInv(cfg, s) && AllFit(cfg.kinds, s.admitted) && k < |s.dispatched|
    ensures AllFit(cfg.kinds, s.dispatched[k]) && Mergeable(s.dispatched[k]) && Distinct(s.dispatched[k])
  {
    forall i | 0 <= i < |s.dispatched[k]| ensures Fits(cfg.kinds, s.dispatched[k][i].value) {
      BatchIsAdmitted(s, InHand(s.task), k, i);
    }
    FittingRequestsMerge(cfg.kinds, s.dispatched[k]);
    BatchIsAdmitted(s, InHand(s.task), k, 0);
  }

  /** Whatever a completion sets is pending just before: no future is set twice. */
  lemma {:induction false} CompletionFindsPending(cfg: Config, s: State, k: nat, outcome: Outcome, id: Id)
    requires QueueInv(cfg, s) && FuturesInv(cfg, s) && Enabled(cfg, s, Complete(k, outcome))
    requires id in Settle(s.dispatched[k], outcome)
    ensures id in s.asyncResponses && s.asyncResponses[id].Pending?
    ensures forall l: nat :: !SettledBy(s, id, l)
  {
    SettledIds(s.dispatched[k], outcome, id);
    forall l: nat ensures !SettledBy(s, id, l) {
      if SettledBy(s, id, l) { SettledByOne(s, InHand(s.task), id, l, k); }
    }
    BatchIsAdmitted(s, InHand(s.task), k, Find(s.dispatched[k], id));
    assert FutureInv(s, id);
  }

  lemma {:induction false} ArriveKeepsFutures(cfg: Config, s: State, newId: Id, request: InferenceRequest, id: Id)
    requires cfg.Valid() && QueueInv(cfg, s) && FuturesInv(cfg, s) && Enabled(cfg, s, Arrive(newId, request))
    ensures FutureInv(Step(cfg, s, Arrive(newId, request)), id)
  {
    var t := Step(cfg, s, Arrive(newId, request));
    HasSnoc(t.admitted, id);
    assert t.admitted[..|s.admitted|] == s.admitted;
    assert FutureInv(s, id);
    forall k: nat ensures SettledBy(t, id, k) <==> SettledBy(s, id, k) {}
    if id == newId {
      forall k: nat ensures !SettledBy(s, id, k) {
        if SettledBy(s, id, k) {
          SettledIds(s.dispatched[k], s.outcomes[k], id);
          BatchIsAdmitted(s, InHand(s.task), k, Find(s.dispatched[k], id));
          assert false;
        }
      }
    }
  }

  lemma {:induction false} SettlingSettles(s: State, t: State, k: nat, outcome: Outcome, id: Id)
    requires FinishedBatches(s) && k < |s.dispatched| && k !in s.outcomes && Mergeable(s.dispatched[k])
    requires t.dispatched == s.dispatched && t.outcomes == s.outcomes[k := outcome]
    ensures FinishedBatches(t)
    ensures forall l: nat :: SettledBy(t, id, l) <==>
                               if l == k then id in Settle(s.dispatched[k], outcome) else SettledBy(s, id, l)
  {
  }

  lemma {:induction false} SettlingKeepsFuture(s: State, t: State, k: nat, outcome: Outcome, id: Id)
    requires FinishedBatches(s) && FutureInv(s, id)
    requires k < |s.dispatched| && k !in s.outcomes && Mergeable(s.dispatched[k])
    requires t.admitted == s.admitted && t.dispatched == s.dispatched && t.outcomes == s.outcomes[k := outcome]
    requires t.asyncResponses == s.asyncResponses + Settle(s.dispatched[k], outcome)
    requires id in Settle(s.dispatched[k], outcome) ==>
               id in s.asyncResponses && forall l: nat :: !SettledBy(s, id, l)
    ensures FinishedBatches(t) && FutureInv(t, id)
  {
    SettlingSettles(s, t, k, outcome, id);
    assert !SettledBy(s, id, k);
    if id in Settle(s.dispatched[k], outcome) {
      assert SettledBy(t, id, k);
    } else {
      assert id in t.asyncResponses <==> id in s.asyncResponses;
    }
  }

  lemma {:induction false} CompleteKeepsFutures(cfg: Config, s: State, k: nat, outcome: Outcome, id: Id)
    requires cfg.Valid() && QueueInv(cfg, s) && FuturesInv(cfg, s) && Enabled(cfg, s, Complete(k, outcome))
    ensures FinishedBatches(Step(cfg, s, Complete(k, outcome)))
    ensures FutureInv(Step(cfg, s, Complete(k, outcome)), id)
  {
    if id in Settle(s.dispatched[k], outcome) { CompletionFindsPending(cfg, s, k, outcome, id); }
    SettlingKeepsFuture(s, Step(cfg, s, Complete(k, outcome)), k, outcome, id);
  }

  lemma {:induction false} DoneWasSettled(s: State, id: Id) returns (k: nat)
    requires FinishedBatches(s) && FutureInv(s, id)
    requires id in s.asyncResponses && !s.asyncResponses[id].Pending?
    ensures SettledBy(s, id, k)
  {
    k :| SettledBy(s, id, k);
  }

  lemma {:induction false} TakingKeepsOtherFuture(s: State, t: State, gone: Id, id: Id)
    requires FinishedBatches(s) && FutureInv(s, id) && id != gone
    requires t.admitted == s.admitted && t.dispatched == s.dispatched && t.outcomes == s.outcomes
    requires t.asyncResponses == s.asyncResponses - {gone}
    ensures FutureInv(t, id)
  {
    forall k: nat ensures SettledBy(t, id, k) <==> SettledBy(s, id, k) {}
  }

  lemma {:induction false} CollectKeepsFutures(cfg: Config, s: State, gone: Id, id: Id)
    requires cfg.Valid() && FuturesInv(cfg, s) && Enabled(cfg, s, Collect(gone))
    ensures FutureInv(Step(cfg, s, Collect(gone)), id)
  {
    if id == gone {
      assert FutureInv(s, id);
      var k := DoneWasSettled(s, id);
      assert SettledBy(Step(cfg, s, Collect(gone)), id, k);
    } else {
      assert FutureInv(s, id);
      TakingKeepsOtherFuture(s, Step(cfg, s, Collect(gone)), gone, id);
    }
  }

  lemma {:induction false} BatcherKeepsFutures(cfg: Config, s: State, t: State, id: Id)
    requires FuturesInv(cfg, s) && OnlyBatcherMoved(s, t)
    ensures FinishedBatches(t) && FutureInv(t, id)
  {
    assert forall k :: 0 <= k < |s.dispatched| ==> t.dispatched[k] == t.dispatched[..|s.dispatched|][k];
    assert FutureInv(s, id);
    forall k: nat ensures SettledBy(t, id, k) <==> SettledBy(s, id, k) {}
  }

  lemma {:induction false} StepKeepsFutures(cfg: Config, s: State, e: Event)
    requires cfg.Valid() && QueueInv(cfg, s) && FuturesInv(cfg, s) && Enabled(cfg, s, e)
    ensures FuturesInv(cfg, Step(cfg, s, e))
  {
    var t := Step(cfg, s, e);
    match e {
      case Arrive(newId, request) =>
        forall id ensures FutureInv(t, id) { ArriveKeepsFutures(cfg, s, newId, request, id); }
      case Complete(k, outcome) =>
        CompleteKeepsFutures(cfg, s, k, outcome, "");
        forall id ensures FutureInv(t, id) { CompleteKeepsFutures(cfg, s, k, outcome, id); }
      case Collect(gone) =>
        forall id ensures FutureInv(t, id) { CollectKeepsFutures(cfg, s, gone, id); }
      case _ =>
        BatcherLeavesFuturesAlone(cfg, s, e);
        BatcherKeepsFutures(cfg, s, t, "");
        forall id ensures FutureInv(t, id) { BatcherKeepsFutures(cfg, s, t, id); }
    }
  }

  lemma {:induction false} EveryRunKeepsFutures(cfg: Config, events: seq<Event>)
    requires cfg.Valid()
    ensures QueueInv(cfg, After(cfg, events)) && FuturesInv(cfg, After(cfg, events))
  {
    EveryRunIsFifo(cfg, events);
    if events != [] {
      var before, e := events[..|events| - 1], events[|events| - 1];
      EveryRunKeepsFutures(cfg, before);
      if Enabled(cfg, After(cfg, before), e) { StepKeepsFutures(cfg, After(cfg, before), e); }
    }
  }

  // ---------- Exactly once ----------

  /** When the prediction of a batch ends, in any run: the futures it sets were all pending, none
      stays pending, and no other future changes. They are the futures of the whole batch when the
      prediction or the split raised, and of the requests with an input when there was an answer
      with outputs. */
  lemma {:induction false} CompletionAnswersEachCallerOnce(
      cfg: Config, events: seq<Event>, k: nat, outcome: Outcome, id: Id)
    requires cfg.Valid() && Enabled(cfg, After(cfg, events), Complete(k, outcome))
    ensures var s := After(cfg, events);
            var t := Step(cfg, s, Complete(k, outcome));
            var given := Settle(s.dispatched[k], outcome);
            && (id in given ==>
                  && id in s.asyncResponses && s.asyncResponses[id].Pending?
                  && id in t.asyncResponses && t.asyncResponses[id] == given[id] && !given[id].Pending?)
            && (id !in given ==>
                  && (id in t.asyncResponses <==> id in s.asyncResponses)
                  && (id in s.asyncResponses ==> t.asyncResponses[id] == s.asyncResponses[id]))
            && (id in given <==> if RaisesForAll(outcome) then Has(s.dispatched[k], id)
                                else outcome.response.outputs != [] && HasInputs(s.dispatched[k], id))
  {
    EveryRunKeepsFutures(cfg, events);
    var s := After(cfg, events);
    SettledIds(s.dispatched[k], outcome, id);
    if id in Settle(s.dispatched[k], outcome) { CompletionFindsPending(cfg, s, k, outcome, id); }
  }

  /** A future that is done keeps its value through any further step until its caller takes it, and
      a future that was taken never comes back. */
  lemma {:induction false} DoneStaysDone(cfg: Config, events: seq<Event>, e: Event, id: Id)
    requires cfg.Valid() && Enabled(cfg, After(cfg, events), e)
    ensures var s := After(cfg, events);
            var t := Step(cfg, s, e);
            && (id in s.asyncResponses && !s.asyncResponses[id].Pending? && id in t.asyncResponses
                ==> t.asyncResponses[id] == s.asyncResponses[id])
            && (Has(s.admitted, id) && id !in s.asyncResponses ==> id !in t.asyncResponses)
  {
    EveryRunKeepsFutures(cfg, events);
    var s := After(cfg, events);
    assert FutureInv(s, id);
    match e {
      case Complete(k, outcome) =>
        if id in Settle(s.dispatched[k], outcome) { CompletionFindsPending(cfg, s, k, outcome, id); }
      case Arrive(_, _) =>
      case Collect(_) =>
      case _ => BatcherLeavesFuturesAlone(cfg, s, e);
    }
  }

  lemma {:induction false} SettledIsDone(s: State, k: nat, id: Id)
    requires FinishedBatches(s) && FutureInv(s, id) && SettledBy(s, id, k)
    ensures id in s.asyncResponses ==> !s.asyncResponses[id].Pending?
  {
    SettledIds(s.dispatched[k], s.outcomes[k], id);
  }

  lemma {:induction false} UnsettledIsPending(cfg: Config, s: State, k: nat, id: Id)
    requires QueueInv(cfg, s) && FinishedBatches(s) && FutureInv(s, id)
    requires k < |s.dispatched| && Has(s.dispatched[k], id) && !SettledBy(s, id, k)
    ensures id in s.asyncResponses && s.asyncResponses[id].Pending?
  {
    BatchIsAdmitted(s, InHand(s.task), k, Find(s.dispatched[k], id));
    forall l: nat ensures !SettledBy(s, id, l) {
      if SettledBy(s, id, l) { SettledByOne(s, InHand(s.task), id, l, k); }
    }
  }

  /** Exactly who is left waiting when a batch has finished: nobody after an error; after an answer,
      the callers whose request has no inputs, and everybody when the answer has no outputs. */
  lemma {:induction false} LeftPendingExactly(cfg: Config, events: seq<Event>, k: nat, id: Id)
    requires cfg.Valid()
    requires k in After(cfg, events).outcomes
    ensures k < |After(cfg, events).dispatched|
    ensures var s := After(cfg, events);
            Has(s.dispatched[k], id) ==>
              ((id in s.asyncResponses && s.asyncResponses[id].Pending?) <==>
               !RaisesForAll(s.outcomes[k])
               && (s.outcomes[k].response.outputs == [] || !HasInputs(s.dispatched[k], id)))
  {
    EveryRunKeepsFutures(cfg, events);
    var s := After(cfg, events);
    if Has(s.dispatched[k], id) {
      SettledIds(s.dispatched[k], s.outcomes[k], id);
      assert FutureInv(s, id);
      if SettledBy(s, id, k) { SettledIsDone(s, k, id); } else { UnsettledIsPending(cfg, s, k, id); }
    }
  }

  // ---------- From caller to caller ----------

  /** Requests are of one schema, and every answer is what the row model predicts for the batch. */
  ghost predicate HonestEvent(cfg: Config, m: RowModel, schema: Schema, s: State, e: Event)
    requires FillsItsHeads(m)
  {
    match e
    case Arrive(_, request) => Uniform(request) && SchemaOf(request) == schema
    case Complete(k, Answer(response)) =>
      k < |s.dispatched| ==>
        && Mergeable(s.dispatched[k]) && Uniform(Merged(s.dispatched[k]))
        && response == Predict(m, Merged(s.dispatched[k]))
    case _ => true
  }

  ghost predicate HonestRun(cfg: Config, m: RowModel, schema: Schema, events: seq<Event>)
    requires cfg.Valid() && FillsItsHeads(m)
  {
    events != [] ==>
      var before, e := events[..|events| - 1], events[|events| - 1];
      HonestRun(cfg, m, schema, before) && HonestEvent(cfg, m, schema, After(cfg, before), e)
  }

  ghost predicate HonestState(m: RowModel, schema: Schema, s: State)
    requires FillsItsHeads(m)
  {
    && AllOfSchema(s.admitted, schema)
    && forall k :: k in s.outcomes && s.outcomes[k].Answer? ==>
                     && k < |s.dispatched| && Mergeable(s.dispatched[k]) && Uniform(Merged(s.dispatched[k]))
                     && s.outcomes[k].response == Predict(m, Merged(s.dispatched[k]))
  }

  lemma {:induction false} MovesKeepHonesty(m: RowModel, schema: Schema, s: State, t: State)
    requires FillsItsHeads(m) && HonestState(m, schema, s)
    requires t.admitted == s.admitted && t.outcomes == s.outcomes && s.dispatched <= t.dispatched
    ensures HonestState(m, schema, t)
  {
    assert forall k :: 0 <= k < |s.dispatched| ==> t.dispatched[k] == s.dispatched[k];
  }

  lemma {:induction false} ArriveKeepsHonesty(cfg: Config, m: RowModel, schema: Schema, s: State, id: Id,
                                              request: InferenceRequest)
    requires cfg.Valid() && FillsItsHeads(m) && HonestState(m, schema, s)
    requires Enabled(cfg, s, Arrive(id, request)) && HonestEvent(cfg, m, schema, s, Arrive(id, request))
    ensures HonestState(m, schema, Step(cfg, s, Arrive(id, request)))
  {
    var t := Step(cfg, s, Arrive(id, request));
    assert AllOfSchema(t.admitted, schema);
    MovesKeepHonesty(m, schema, s, t.(admitted := s.admitted));
  }

  lemma {:induction false} CompleteKeepsHonesty(cfg: Config, m: RowModel, schema: Schema, s: State, k: nat,
                                                outcome: Outcome)
    requires cfg.Valid() && FillsItsHeads(m) && HonestState(m, schema, s)
    requires Enabled(cfg, s, Complete(k, outcome)) && HonestEvent(cfg, m, schema, s, Complete(k, outcome))
    ensures HonestState(m, schema, Step(cfg, s, Complete(k, outcome)))
  {
    var t := Step(cfg, s, Complete(k, outcome));
    assert t.admitted == s.admitted && t.dispatched == s.dispatched && t.outcomes == s.outcomes[k := outcome];
  }

  lemma {:induction false} StepKeepsHonesty(cfg: Config, m: RowModel, schema: Schema, s: State, e: Event)
    requires cfg.Valid() && FillsItsHeads(m) && QueueInv(cfg, s) && HonestState(m, schema, s)
    requires Enabled(cfg, s, e) && HonestEvent(cfg, m, schema, s, e)
    ensures HonestState(m, schema, Step(cfg, s, e))
  {
    if e.Arrive? {
      ArriveKeepsHonesty(cfg, m, schema, s, e.id, e.request);
    } else if e.Complete? {
      CompleteKeepsHonesty(cfg, m, schema, s, e.batch, e.outcome);
    } else {
      if !e.Collect? { BatcherLeavesFuturesAlone(cfg, s, e); }
      MovesKeepHonesty(m, schema, s, Step(cfg, s, e));
    }
  }

  lemma {:induction false} HonestRunsReachHonestStates(cfg: Config, m: RowModel, schema: Schema, events: seq<Event>)
    requires cfg.Valid() && FillsItsHeads(m) && HonestRun(cfg, m, schema, events)
    ensures HonestState(m, schema, After(cfg, events))
  {
    if events != [] {
      var before, e := events[..|events| - 1], events[|events| - 1];
      HonestRunsReachHonestStates(cfg, m, schema, before);
      EveryRunIsFifo(cfg, before);
      if Enabled(cfg, After(cfg, before), e) { StepKeepsHonesty(cfg, m, schema, After(cfg, before), e); }
    }
  }

  /** A batch of requests of one schema, answered by the row model, gives every id the model's own
      response to its request. */
  lemma {:induction false} SettledWithOwnPrediction(m: RowModel, batch: Requests, schema: Schema, id: Id)
    requires FillsItsHeads(m) && Distinct(batch) && AllOfSchema(batch, schema) && m.heads(schema) != []
    requires Mergeable(batch) && Uniform(Merged(batch)) && Has(batch, id)
    requires var outcome := Answer(Predict(m, Merged(batch))); id in Settle(batch, outcome)
    ensures Splittable(Predict(m, Merged(batch)))
    ensures Settle(batch, Answer(Predict(m, Merged(batch))))[id] == Result(Predict(m, Get(batch, id)))
  {
    BatchingIsTransparent(m, batch);
    AloneAt(m, batch, id);
    ResultsOf(Alone(m, batch), id);
    assert PartsOf(batch, Predict(m, Merged(batch))) == Alone(m, batch);
  }

  lemma {:induction false} ResultsOf(parts: Odict<Id, InferenceResponse>, id: Id)
    requires Distinct(parts) && Has(parts, id)
    ensures Has(AllResults(parts), id) && Get(AllResults(parts), id) == Result(Get(parts, id))
  {
    var results := AllResults(parts);
    assert forall i :: 0 <= i < |results| ==> results[i].key == parts[i].key;
    FindAt(results, Find(parts, id));
  }

  lemma {:induction false} AloneAt(m: RowModel, batch: Requests, id: Id)
    requires FillsItsHeads(m) && Distinct(batch) && Has(batch, id)
    requires forall k :: 0 <= k < |batch| ==> Uniform(batch[k].value)
    ensures Has(Alone(m, batch), id) && Get(Alone(m, batch), id) == Predict(m, Get(batch, id))
    ensures Distinct(Alone(m, batch))
  {
    var alone := Alone(m, batch);
    assert forall i :: 0 <= i < |alone| ==> alone[i].key == batch[i].key;
    FindAt(alone, Find(batch, id));
  }

  /** End to end, over every interleaving of arrivals, batcher steps, timeouts, predictions ending in
      any order or failing, and callers returning: whenever a caller's future holds a result, it is
      the response the model gives to that caller's own request alone. */
  lemma {:induction false} EveryCallerGetsItsOwnPrediction(
      cfg: Config, m: RowModel, schema: Schema, events: seq<Event>, id: Id)
    requires cfg.Valid() && FillsItsHeads(m) && m.heads(schema) != []
    requires HonestRun(cfg, m, schema, events)
    requires id in After(cfg, events).asyncResponses && After(cfg, events).asyncResponses[id].Result?
    ensures Has(After(cfg, events).admitted, id)
    ensures Uniform(Get(After(cfg, events).admitted, id))
    ensures After(cfg, events).asyncResponses[id].response == Predict(m, Get(After(cfg, events).admitted, id))
  {
    var s := After(cfg, events);
    EveryRunKeepsFutures(cfg, events);
    HonestRunsReachHonestStates(cfg, m, schema, events);
    assert FutureInv(s, id);
    var k: nat :| SettledBy(s, id, k);
    var batch := s.dispatched[k];
    SettledIds(batch, s.outcomes[k], id);
    SettledByAnswer(batch, s.outcomes[k], id);
    BatchFits(cfg, s, k);
    BatchOfSchema(s, InHand(s.task), schema, k);
    BatchIsAdmitted(s, InHand(s.task), k, Find(batch, id));
    SettledWithOwnPrediction(m, batch, schema, id);
  }

  lemma {:induction false} SettledByAnswer(batch: Requests, outcome: Outcome, id: Id)
    requires Mergeable(batch) && id in Settle(batch, outcome)
    ensures RaisesForAll(outcome) ==> Settle(batch, outcome)[id].Failed?
  {
    var given := Settlement(batch, outcome);
    if RaisesForAll(outcome) { assert given[Find(given, id)].value.Failed?; }
  }

  lemma {:induction false} BatchOfSchema(s: State, toBatch: Requests, schema: Schema, k: nat)
    requires Fifo(s, toBatch) && AllOfSchema(s.admitted, schema) && k < |s.dispatched|
    ensures AllOfSchema(s.dispatched[k], schema)
  {
    forall i | 0 <= i < |s.dispatched[k]|
      ensures Uniform(s.dispatched[k][i].value) && SchemaOf(s.dispatched[k][i].value) == schema
    {
      BatchIsAdmitted(s, toBatch, k, i);
    }
  }
}
