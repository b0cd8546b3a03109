/** mlserver/batch_processing.py:197-347: one batch of lines of the offline pipeline, made into one
    merged request, sent, and cut up again into one output per line. */
module BatchItems {
  import opened OrderedDict
  import opened Batching
  import AdaptiveBatching

  /** What a line of the input file is parsed to: JSON that is no valid request, or no JSON at all. */
  datatype Line = Request(request: InferenceRequest) | Invalid(error: string) | Unparseable(error: string)

  /** `uuid` is the id the item gets when its request has none. */
  datatype BatchInputItem = BatchInputItem(index: nat, line: Line, uuid: Id)

  datatype Body =
    | Response(response: InferenceResponse)
    | ValidationFailure(error: string)
    | InferenceFailure(error: string)
  datatype BatchOutputItem = BatchOutputItem(index: nat, body: Body)

  /** How sending ends, after its retries: the merged request cannot be encoded for the client, sending
      it fails, the answer cannot be decoded, or it is there. */
  datatype SendEnd = EncodingRaised | SendRaised(error: string) | DecodingRaised | Answered(response: InferenceResponse)

  // ---------- Preprocessing ----------

  function EffectiveId(item: BatchInputItem): Id
    requires item.line.Request?
  {
    if item.line.request.id.Some? then item.line.request.id.value else item.uuid
  }

  function Identified(item: BatchInputItem): InferenceRequest
    requires item.line.Request?
  {
    item.line.request.(id := Some(EffectiveId(item)))
  }

  /** A later request of the same id takes the place of an earlier one. */
  function RequestsOf(items: seq<BatchInputItem>): Requests {
    if items == [] then []
    else
      var before, last := RequestsOf(items[..|items| - 1]), items[|items| - 1];
      if last.line.Request? then Put(before, EffectiveId(last), Identified(last)) else before
  }

  function ItemIndices(items: seq<BatchInputItem>): Odict<Id, nat> {
    if items == [] then []
    else
      var before, last := ItemIndices(items[..|items| - 1]), items[|items| - 1];
      if last.line.Request? then Put(before, EffectiveId(last), last.index) else before
  }

  function InvalidInputs(items: seq<BatchInputItem>): seq<BatchOutputItem> {
    if items == [] then []
    else
      var before, last := InvalidInputs(items[..|items| - 1]), items[|items| - 1];
      if last.line.Invalid? then before + [BatchOutputItem(last.index, ValidationFailure(last.line.error))] else before
  }

  /** Only validation errors are caught: a line that is no JSON raises for the whole batch. */
  predicate Prepares(items: seq<BatchInputItem>) {
    (forall i :: 0 <= i < |items| ==> !items[i].line.Unparseable?) && Mergeable(RequestsOf(items))
  }

  datatype Prepared = Prepared(
    mergedId: Id, requests: Requests, itemIndices: Odict<Id, nat>, invalidInputs: seq<BatchOutputItem>)

  /** The loop has read the first `i` items; `id` is that of the last request. */
  predicate ReadUpTo(items: seq<BatchInputItem>, i: nat, p: Prepared) {
    && i <= |items| && (p.requests != [] ==> Has(p.requests, p.mergedId))
    && p.requests == RequestsOf(items[..i]) && p.itemIndices == ItemIndices(items[..i])
    && p.invalidInputs == InvalidInputs(items[..i])
    && forall j :: 0 <= j < i ==> !items[j].line.Unparseable?
  }

  /** One turn of the loop. */
  function ReadItem(p: Prepared, item: BatchInputItem): Prepared {
    match item.line
    case Request(_) =>
      var id := EffectiveId(item);
      Prepared(id, Put(p.requests, id, Identified(item)), Put(p.itemIndices, id, item.index), p.invalidInputs)
    case Invalid(error) =>
      p.(invalidInputs := p.invalidInputs + [BatchOutputItem(item.index, ValidationFailure(error))])
    case Unparseable(_) => p
  }

  lemma {:induction false} ReadStep(items: seq<BatchInputItem>, i: nat, p: Prepared)
    requires i < |items| && ReadUpTo(items, i, p) && !items[i].line.Unparseable?
    ensures ReadUpTo(items, i + 1, ReadItem(p, items[i]))
  {
    assert items[..i + 1][..i] == items[..i];
  }

  /** `preprocess_items`; `None` when it raises. A single request gives the merged one its id. */
  method PreprocessItems(items: seq<BatchInputItem>, uuid: Id, encodes: bool) returns (r: Option<Prepared>)
    ensures r.Some? <==> Prepares(items) && encodes
    ensures r.Some? ==>
              && r.value.requests == RequestsOf(items) && r.value.itemIndices == ItemIndices(items)
              && r.value.invalidInputs == InvalidInputs(items)
              && r.value.mergedId == if |RequestsOf(items)| == 1 then RequestsOf(items)[0].key else uuid
  {
    var requests, itemIndices, invalidInputs, id := [], [], [], "";
    for i := 0 to |items|
      invariant ReadUpTo(items, i, Prepared(id, requests, itemIndices, invalidInputs))
    {
      ghost var read := Prepared(id, requests, itemIndices, invalidInputs);
      match items[i].line {
        case Request(_) =>
          id := EffectiveId(items[i]);
          requests := Put(requests, id, Identified(items[i]));
          itemIndices := Put(itemIndices, id, items[i].index);
        case Invalid(error) =>
          invalidInputs := invalidInputs + [BatchOutputItem(items[i].index, ValidationFailure(error))];
        case Unparseable(_) => return None;
      }
      ReadStep(items, i, read);
    }
    assert items[..|items|] == items;
    if !Mergeable(requests) || !encodes { return None; }
    var mergedId := if |requests| == 1 then id else uuid;
    r := Some(Prepared(mergedId, requests, itemIndices, invalidInputs));
  }

  // ---------- Processing ----------

  function KeyList<V>(d: Odict<Id, V>): seq<Id> {
    seq(|d|, k requires 0 <= k < |d| => d[k].key)
  }

  /** Something comes of sending. */
  predicate Delivers(end: SendEnd) {
    end.SendRaised? || (end.Answered? && Splittable(end.response))
  }

  /** The requests that get an output of their own: all of them when sending fails, and those that have
      a part of the response otherwise. */
  function OutputIds(items: seq<BatchInputItem>, end: SendEnd): seq<Id>
    requires Prepares(items) && Delivers(end)
  {
    match end
    case SendRaised(_) => KeyList(ItemIndices(items))
    case Answered(response) => KeyList(AdaptiveBatching.PartsOf(RequestsOf(items), response))
  }

  function FailedResults(itemIndices: Odict<Id, nat>, error: string): seq<BatchOutputItem> {
    seq(|itemIndices|, k requires 0 <= k < |itemIndices| =>
      BatchOutputItem(itemIndices[k].value, InferenceFailure(error)))
  }

  predicate AllKnown<V>(itemIndices: Odict<Id, nat>, parts: Odict<Id, V>) {
    forall k :: 0 <= k < |parts| ==> Has(itemIndices, parts[k].key)
  }

  /** `postprocess_items` */
  function OutputItems(itemIndices: Odict<Id, nat>, parts: Odict<Id, InferenceResponse>): seq<BatchOutputItem>
    requires AllKnown(itemIndices, parts)
  {
    seq(|parts|, k requires 0 <= k < |parts| =>
      BatchOutputItem(Get(itemIndices, parts[k].key), Response(parts[k].value)))
  }

  /** `process_items`; `None` when it raises: preparing the batch did, or decoding or splitting the answer. */
  function Process(items: seq<BatchInputItem>, end: SendEnd): Option<seq<BatchOutputItem>> {
    if !Prepares(items) || end.EncodingRaised? then None
    else if |InvalidInputs(items)| == |items| then Some(InvalidInputs(items))
    else
      match end
      case DecodingRaised => None
      case SendRaised(error) => Some(FailedResults(ItemIndices(items), error) + InvalidInputs(items))
      case Answered(response) =>
        if !Splittable(response) then None
        else
          PartsAreKnown(items, response);
          Some(OutputItems(ItemIndices(items), AdaptiveBatching.PartsOf(RequestsOf(items), response))
               + InvalidInputs(items))
  }

  method ProcessItems(items: seq<BatchInputItem>, uuid: Id, end: SendEnd) returns (r: Option<seq<BatchOutputItem>>)
    ensures r == Process(items, end)
  {
    var prepared := PreprocessItems(items, uuid, !end.EncodingRaised?);
    if prepared.None? { return None; }
    if |prepared.value.invalidInputs| == |items| { return Some(prepared.value.invalidInputs); }
    RequestsAreDistinct(items);
    match end {
      case DecodingRaised => return None;
      case SendRaised(error) =>
        r := Some(FailedResults(prepared.value.itemIndices, error) + prepared.value.invalidInputs);
      case Answered(response) =>
        if !Splittable(response) { return None; }
        var batched := new BatchedRequests(prepared.value.requests);
        var parts := batched.SplitResponse(response);
        PartsAreKnown(items, response);
        r := Some(OutputItems(prepared.value.itemIndices, parts) + prepared.value.invalidInputs);
    }
  }

  // ---------- What is collected under an id ----------

  /** The line is a request that asks to be known by that id, or one that says nothing and was given it. */
  predicate Named(item: BatchInputItem, id: Id) {
    && item.line.Request?
    && match item.line.request.id
       case Some(own) => own == id
       case None => item.uuid == id
  }

  /** Two requests take one another's place. */
  predicate SameId(a: BatchInputItem, b: BatchInputItem)
    requires a.line.Request? && b.line.Request?
  {
    match (a.line.request.id, b.line.request.id)
    case (Some(x), Some(y)) => x == y
    case (Some(x), None) => x == b.uuid
    case (None, Some(y)) => a.uuid == y
    case (None, None) => a.uuid == b.uuid
  }

  /** No later line of the batch takes the place of the request. */
  predicate NotReplaced(items: seq<BatchInputItem>, k: nat)
    requires k < |items| && items[k].line.Request?
  {
    forall j :: k < j < |items| && items[j].line.Request? ==> !SameId(items[k], items[j])
  }

  lemma {:induction false} NotReplacedIsLast(items: seq<BatchInputItem>, k: nat)
    requires k < |items| && items[k].line.Request?
    ensures LastWith(items, EffectiveId(items[k])) == k <==> NotReplaced(items, k)
  {
    var id := EffectiveId(items[k]);
    assert forall j :: 0 <= j < |items| && items[j].line.Request? ==>
                         (Named(items[j], id) <==> SameId(items[k], items[j]));
    assert Named(items[k], id);
  }

  /** The place of the last request of that id, or the length. */
  function LastWith(items: seq<BatchInputItem>, id: Id): (k: nat)
    ensures k <= |items|
    ensures k < |items| ==> Named(items[k], id)
    ensures forall j :: k < j < |items| ==> !Named(items[j], id)
    ensures k == |items| ==> forall j :: 0 <= j < |items| ==> !Named(items[j], id)
  {
    if items == [] then 0
    else
      var n := |items| - 1;
      if Named(items[n], id) then n
      else
        var k := LastWith(items[..n], id);
        assert forall j :: 0 <= j < n ==> items[j] == items[..n][j];
        if k == n then n + 1 else k
  }

  lemma {:induction false} CollectedUnder(items: seq<BatchInputItem>, id: Id)
    ensures var k := LastWith(items, id);
            && (Has(RequestsOf(items), id) <==> k < |items|) && (Has(ItemIndices(items), id) <==> k < |items|)
            && (k < |items| ==>
                  && Get(RequestsOf(items), id) == items[k].line.request.(id := Some(id))
                  && Get(ItemIndices(items), id) == items[k].index)
  {
    if items != [] {
      var n := |items| - 1;
      CollectedUnder(items[..n], id);
      if items[n].line.Request? {
        PutGets(RequestsOf(items[..n]), EffectiveId(items[n]), Identified(items[n]), id);
        PutGets(ItemIndices(items[..n]), EffectiveId(items[n]), items[n].index, id);
      }
    }
  }

  /** Every request that is sent carries the id it is known by. */
  lemma {:induction false} RequestsCarryTheirIds(items: seq<BatchInputItem>)
    ensures forall i :: 0 <= i < |RequestsOf(items)| ==>
              RequestsOf(items)[i].value.id == Some(RequestsOf(items)[i].key)
  {
    if items != [] { RequestsCarryTheirIds(items[..|items| - 1]); }
  }

  lemma {:induction false} RequestsAreDistinct(items: seq<BatchInputItem>)
    ensures Distinct(RequestsOf(items)) && Distinct(ItemIndices(items))
  {
    if items != [] { RequestsAreDistinct(items[..|items| - 1]); }
  }

  lemma {:induction false} PartsAreKnown(items: seq<BatchInputItem>, response: InferenceResponse)
    requires Prepares(items) && Splittable(response)
    ensures AllKnown(ItemIndices(items), AdaptiveBatching.PartsOf(RequestsOf(items), response))
  {
    var reqs := RequestsOf(items);
    var parts := AdaptiveBatching.PartsOf(reqs, response);
    SizesAreDistinctKnownIds(reqs);
    forall k | 0 <= k < |parts| ensures Has(ItemIndices(items), parts[k].key) {
      var id := Sizes(reqs)[k].key;
      assert Has(ExternalIds(reqs), id);
      var i := Find(ExternalIds(reqs), id);
      assert reqs[i].key == id;
      CollectedUnder(items, id);
    }
  }
}
