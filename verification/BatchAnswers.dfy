/** What the outputs of a batch of the offline pipeline say: every line gets its own answer or error. */
module BatchAnswers {
  import opened OrderedDict
  import opened Batching
  import opened Transparency
  import opened BatchItems
  import opened BatchConservation
  import AdaptiveBatching
  import AdaptiveFutures

  lemma {:induction false} InvalidHasOwnError(items: seq<BatchInputItem>, k: nat)
    requires k < |items| && items[k].line.Invalid?
    ensures BatchOutputItem(items[k].index, ValidationFailure(items[k].line.error)) in InvalidInputs(items)
  {
    var n := |items| - 1;
    if k < n {
      InvalidHasOwnError(items[..n], k);
      assert items[..n][k] == items[k];
    }
  }

  /** However sending ends, a line that fails validation gets its own error. */
  lemma {:induction false} InvalidLineGetsItsError(items: seq<BatchInputItem>, end: SendEnd, k: nat)
    requires Process(items, end).Some? && k < |items| && items[k].line.Invalid?
    ensures BatchOutputItem(items[k].index, ValidationFailure(items[k].line.error)) in Process(items, end).value
  {
    InvalidHasOwnError(items, k);
  }

  /** The batch holds a request, so that it is sent. */
  lemma {:induction false} IsSent(items: seq<BatchInputItem>, k: nat)
    requires k < |items| && items[k].line.Request?
    ensures |InvalidInputs(items)| != |items|
  {
    InvalidIndices(items, 0);
  }

  /** Exactly when processing a batch raises: some line is no JSON, or the requests cannot be merged, or the
      merged one cannot be encoded; or there is a request, and its answer cannot be decoded, or has an output
      without an axis. */
  lemma {:induction false} RaisesExactly(items: seq<BatchInputItem>, end: SendEnd)
    ensures Process(items, end).None? <==>
            || (exists k :: 0 <= k < |items| && items[k].line.Unparseable?)
            || !Mergeable(RequestsOf(items)) || end.EncodingRaised?
            || ((exists k :: 0 <= k < |items| && items[k].line.Request?)
                && (end.DecodingRaised? || (end.Answered? && exists j ::
                      0 <= j < |end.response.outputs| && end.response.outputs[j].shape == [])))
  {
    InvalidIndices(items, 0);
    if Prepares(items) {
      AllInvalidExactly(items);
    }
  }

  lemma {:induction false} AllInvalidExactly(items: seq<BatchInputItem>)
    requires forall i :: 0 <= i < |items| ==> !items[i].line.Unparseable?
    ensures |InvalidInputs(items)| == |items| <==> forall k :: 0 <= k < |items| ==> !items[k].line.Request?
  {
    if items != [] {
      var n := |items| - 1;
      AllInvalidExactly(items[..n]);
      InvalidIndices(items[..n], 0);
      assert forall k :: 0 <= k < n ==> items[..n][k] == items[k];
      assert items[n].line.Invalid? || items[n].line.Request?;
    }
  }

  /** When sending fails for good, every request that no later one of its id has replaced gets that
      error. */
  lemma {:induction false} FailureReachesEveryRequest(items: seq<BatchInputItem>, error: string, k: nat)
    requires Prepares(items) && k < |items| && AnswersRequest(items, SendRaised(error), k)
    ensures Process(items, SendRaised(error)).Some?
    ensures BatchOutputItem(items[k].index, InferenceFailure(error)) in Process(items, SendRaised(error)).value
  {
    var indices, id := ItemIndices(items), EffectiveId(items[k]);
    IsSent(items, k);
    NotReplacedIsLast(items, k);
    CollectedUnder(items, id);
    assert FailedResults(indices, error)[Find(indices, id)] == BatchOutputItem(items[k].index, InferenceFailure(error));
  }

  /** The model's response to the request as it was read, under the request's own id, or the one it was given
      when it had none. */
  ghost predicate IsOwnAnswer(m: RowModel, item: BatchInputItem, response: InferenceResponse)
    requires FillsItsHeads(m) && item.line.Request?
  {
    && Uniform(item.line.request)
    && response.id == (if item.line.request.id.Some? then item.line.request.id else Some(item.uuid))
    && response.(id := item.line.request.id) == Predict(m, item.line.request)
  }

  lemma {:induction false} IdentifiedAnswers(m: RowModel, item: BatchInputItem)
    requires FillsItsHeads(m) && item.line.Request?
    ensures Uniform(Identified(item)) <==> Uniform(item.line.request)
    ensures Uniform(Identified(item)) ==> IsOwnAnswer(m, item, Predict(m, Identified(item)))
  {
    if Uniform(Identified(item)) {
      SamePrediction(m, item.line.request, Identified(item));
    }
  }

  /** The prediction depends on the id in that it carries it. */
  lemma {:induction false} SamePrediction(m: RowModel, a: InferenceRequest, b: InferenceRequest)
    requires FillsItsHeads(m) && Uniform(a) && Uniform(b) && a.inputs == b.inputs
    ensures Predict(m, b).(id := a.id) == Predict(m, a)
  {
    assert SchemaOf(a) == SchemaOf(b);
    SameRows(a, b);
    var p, q := Predict(m, a), Predict(m, b);
    forall j | 0 <= j < |p.outputs| ensures q.outputs[j] == p.outputs[j] {
      assert p.outputs[j] == PredictOutput(m, a, j) && q.outputs[j] == PredictOutput(m, b, j);
    }
  }

  lemma {:induction false} SameRows(a: InferenceRequest, b: InferenceRequest)
    requires Uniform(a) && Uniform(b) && a.inputs == b.inputs
    ensures RowsOf(a) == RowsOf(b)
  {
    forall i | 0 <= i < RowCount(a) ensures RowsOf(a)[i] == RowsOf(b)[i] {
      assert forall name :: name in Names(a.inputs) ==> Cells(a, name) == Cells(b, name);
    }
  }

  /** When the server answers the merged request by the prediction of a model that acts row by row,
      every request that no later one of its id has replaced gets, under its own index, the model's
      response to that request alone. */
  lemma {:induction false} LineGetsItsOwnPrediction(m: RowModel, items: seq<BatchInputItem>, k: nat)
    requires FillsItsHeads(m) && Compatible(RequestsOf(items))
    requires m.heads(SchemaOf(RequestsOf(items)[0].value)) != []
    requires forall i :: 0 <= i < |items| ==> !items[i].line.Unparseable?
    requires k < |items| && items[k].line.Request? && NotReplaced(items, k)
    ensures Mergeable(RequestsOf(items)) && Uniform(Merged(RequestsOf(items)))
    ensures var out := Process(items, Answered(Predict(m, Merged(RequestsOf(items)))));
            && out.Some?
            && exists response :: IsOwnAnswer(m, items[k], response)
                                  && BatchOutputItem(items[k].index, Response(response)) in out.value
  {
    NotReplacedIsLast(items, k);
    IdentifiedAnswers(m, items[k]);
    var reqs, id := RequestsOf(items), EffectiveId(items[k]);
    BatchingIsTransparent(m, reqs);
    CollectedUnder(items, id);
    AdaptiveFutures.AloneAt(m, reqs, id);
    AnswerIsInOutput(items, Predict(m, Merged(reqs)), k);
    assert AdaptiveBatching.PartsOf(reqs, Predict(m, Merged(reqs))) == Alone(m, reqs);
  }

  lemma {:induction false} AnswerIsInOutput(items: seq<BatchInputItem>, response: InferenceResponse, k: nat)
    requires Prepares(items) && Splittable(response) && k < |items| && items[k].line.Request?
    requires LastWith(items, EffectiveId(items[k])) == k
    ensures Process(items, Answered(response)).Some?
    ensures var parts := AdaptiveBatching.PartsOf(RequestsOf(items), response);
            Has(parts, EffectiveId(items[k])) ==>
              BatchOutputItem(items[k].index, Response(Get(parts, EffectiveId(items[k]))))
              in Process(items, Answered(response)).value
  {
    var parts, id := AdaptiveBatching.PartsOf(RequestsOf(items), response), EffectiveId(items[k]);
    IsSent(items, k);
    CollectedUnder(items, id);
    PartsAreKnown(items, response);
    if Has(parts, id) {
      var out := OutputItems(ItemIndices(items), parts);
      assert out[Find(parts, id)] == BatchOutputItem(items[k].index, Response(Get(parts, id)));
    }
  }
}
