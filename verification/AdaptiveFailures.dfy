/** mlserver/batching/adaptive.py:110-118: which error or which part of which response a caller of the
    adaptive batcher gets, in terms of how its own batch has ended. */
module AdaptiveFailures {
  import opened OrderedDict
  import opened Batching
  import opened AdaptiveBatching
  import opened AdaptiveFutures

  predicate LacksAxis(response: InferenceResponse) {
    exists j :: 0 <= j < |response.outputs| && response.outputs[j].shape == []
  }

  /** The error a batch ends with: what its prediction has raised, or that of an output without an axis. */
  predicate EndsWith(outcome: Outcome, error: string) {
    match outcome
    case Raised(raised) => error == raised
    case Answer(response) => LacksAxis(response) && error == "pop from empty list"
  }

  lemma {:induction false} FailedExactly(batch: Requests, outcome: Outcome, id: Id, error: string)
    requires Mergeable(batch) && Has(batch, id)
    ensures id in Settle(batch, outcome) && Settle(batch, outcome)[id] == Failed(error) <==> EndsWith(outcome, error)
  {
    SettledIds(batch, outcome, id);
    if RaisesForAll(outcome) {
      var raised := if outcome.Raised? then outcome.error else SHAPE_ERROR;
      assert Settlement(batch, outcome) == AllFailed(batch, raised);
      GetsFailed(batch, raised, id);
    } else if id in Settle(batch, outcome) {
      var all := Settlement(batch, outcome);
      assert all[Find(all, id)].value.Result?;
    }
  }

  lemma {:induction false} GetsFailed(batch: Requests, error: string, id: Id)
    requires Has(batch, id)
    ensures Has(AllFailed(batch, error), id) && Get(AllFailed(batch, error), id) == Failed(error)
  {
    SameKeys(AllFailed(batch, error), batch, false, id);
  }

  /** In every run, when the prediction of a batch raises, every caller of the batch gets that error. */
  lemma {:induction false} ErrorReachesTheWholeBatch(cfg: Config, events: seq<Event>, k: nat, error: string, id: Id)
    requires cfg.Valid() && Enabled(cfg, After(cfg, events), Complete(k, Raised(error)))
    requires Has(After(cfg, events).dispatched[k], id)
    ensures var t := Step(cfg, After(cfg, events), Complete(k, Raised(error)));
            id in t.asyncResponses && t.asyncResponses[id] == Failed(error)
  {
    FailedExactly(After(cfg, events).dispatched[k], Raised(error), id, error);
  }

  /** In every run, when the answer has an output without an axis, every caller of the batch gets the error
      of taking the first of no dimensions. */
  lemma {:induction false} ShapelessAnswerFailsTheWholeBatch(
      cfg: Config, events: seq<Event>, k: nat, response: InferenceResponse, id: Id)
    requires cfg.Valid() && Enabled(cfg, After(cfg, events), Complete(k, Answer(response)))
    requires Has(After(cfg, events).dispatched[k], id) && LacksAxis(response)
    ensures var t := Step(cfg, After(cfg, events), Complete(k, Answer(response)));
            id in t.asyncResponses && t.asyncResponses[id] == Failed("pop from empty list")
  {
    FailedExactly(After(cfg, events).dispatched[k], Answer(response), id, "pop from empty list");
  }

  /** The caller's batch has ended so. */
  ghost predicate EndedIn(s: State, id: Id, k: nat) {
    k < |s.dispatched| && Has(s.dispatched[k], id) && k in s.outcomes
  }

  /** In every run, a caller's future holds an error exactly when its own batch has ended with that error. */
  lemma {:induction false} FailureComesFromItsBatch(cfg: Config, events: seq<Event>, id: Id, error: string)
    requires cfg.Valid() && id in After(cfg, events).asyncResponses
    ensures var s := After(cfg, events);
            s.asyncResponses[id] == Failed(error)
            <==> exists k :: EndedIn(s, id, k) && EndsWith(s.outcomes[k], error)
  {
    EveryRunKeepsFutures(cfg, events);
    var s := After(cfg, events);
    assert FutureInv(s, id);
    if s.asyncResponses[id] == Failed(error) {
      var k := DoneWasSettled(s, id);
      SettledIds(s.dispatched[k], s.outcomes[k], id);
      FailedExactly(s.dispatched[k], s.outcomes[k], id, error);
      assert EndedIn(s, id, k);
    }
    forall k: nat | EndedIn(s, id, k) && EndsWith(s.outcomes[k], error)
      ensures s.asyncResponses[id] == Failed(error)
    {
      FailedExactly(s.dispatched[k], s.outcomes[k], id, error);
      assert SettledBy(s, id, k);
    }
  }

  // ---------- Results ----------

  /** A response to the request, made of what the batch's response says, output by output. */
  predicate IsPartOf(part: InferenceResponse, request: InferenceRequest, response: InferenceResponse) {
    && part.id == request.id && part.modelName == response.modelName && part.modelVersion == response.modelVersion
    && part.parameters == response.parameters && |part.outputs| == |response.outputs|
    && forall j :: 0 <= j < |part.outputs| ==>
         && part.outputs[j].name == response.outputs[j].name && part.outputs[j].dtype == response.outputs[j].dtype
         && part.outputs[j].data.kind == response.outputs[j].data.kind
         && |part.outputs[j].shape| == |response.outputs[j].shape| && part.outputs[j].shape != []
         && part.outputs[j].shape[1..] == response.outputs[j].shape[1..]
  }

  lemma {:induction false} PartIsPartOf(batch: Requests, response: InferenceResponse, id: Id)
    requires Mergeable(batch) && Splittable(response) && Has(PartsOf(batch, response), id)
    ensures Has(batch, id)
    ensures IsPartOf(Get(PartsOf(batch, response), id), Get(batch, id), response)
  {
    var parts, ids, sizes := PartsOf(batch, response), ExternalIds(batch), Sizes(batch);
    SizesAreDistinctKnownIds(batch);
    var k := Find(parts, id);
    assert parts[k] == Entry(sizes[k].key, ResponsePart(ids, sizes, response, |response.outputs|, k));
    SameKeys(ids, batch, false, id);
    SamePlace(ids, batch, id);
  }

  lemma {:induction false} SamePlace<V, W>(a: Odict<Id, V>, b: Odict<Id, W>, id: Id)
    requires |a| == |b| && forall k :: 0 <= k < |a| ==> a[k].key == b[k].key
    ensures Find(a, id) == Find(b, id)
  {
    var i, j := Find(a, id), Find(b, id);
    assert i < |a| ==> b[i].key == id;
    assert j < |b| ==> a[j].key == id;
  }

  lemma {:induction false} ResultIsPart(batch: Requests, outcome: Outcome, id: Id)
    requires Mergeable(batch) && id in Settle(batch, outcome) && Settle(batch, outcome)[id].Result?
    ensures outcome.Answer? && Has(batch, id)
    ensures IsPartOf(Settle(batch, outcome)[id].response, Get(batch, id), outcome.response)
  {
    var all := Settlement(batch, outcome);
    assert all[Find(all, id)].value.Result?;
    assert !RaisesForAll(outcome);
    var parts := PartsOf(batch, outcome.response);
    SameKeys(AllResults(parts), parts, false, id);
    SamePlace(AllResults(parts), parts, id);
    PartIsPartOf(batch, outcome.response, id);
  }

  /** In every run, a result that a caller's future holds is a part of the response to its own batch, and
      carries the external id of the caller's request. */
  lemma {:induction false} ResultComesFromItsBatch(cfg: Config, events: seq<Event>, id: Id)
    requires cfg.Valid() && id in After(cfg, events).asyncResponses && After(cfg, events).asyncResponses[id].Result?
    ensures var s := After(cfg, events);
            && Has(s.admitted, id)
            && exists k ::
                 && EndedIn(s, id, k) && s.outcomes[k].Answer?
                 && IsPartOf(s.asyncResponses[id].response, Get(s.admitted, id), s.outcomes[k].response)
  {
    EveryRunKeepsFutures(cfg, events);
    var s := After(cfg, events);
    assert FutureInv(s, id);
    var k := DoneWasSettled(s, id);
    ResultIsPart(s.dispatched[k], s.outcomes[k], id);
    BatchIsAdmitted(s, InHand(s.task), k, Find(s.dispatched[k], id));
    assert EndedIn(s, id, k);
  }
}
