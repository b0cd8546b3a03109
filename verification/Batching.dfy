/** mlserver/batching/requests.py: fusing many requests head by head along axis 0, and cutting the
    single response up again by running offsets.

    The specification is given as functions on values; the class below computes them with the
    source's loops. A payload is flat: the characters of a str, the bytes of a bytes object or the
    elements of a list, told apart by `Kind`. */
module Batching {
  import opened OrderedDict
  import opened Parameters
  import opened Shapes

  type Item(==,!new)
  type Id = string

  datatype Kind = Text | Binary | List
  datatype TensorData = TensorData(kind: Kind, items: seq<Item>)
  datatype RequestInput = RequestInput(
    name: string, dtype: string, shape: seq<nat>, data: TensorData, parameters: Option<Params>)
  datatype RequestOutput = RequestOutput(name: string, parameters: Option<Params>)
  datatype InferenceRequest = InferenceRequest(
    id: Option<string>, parameters: Option<Params>, inputs: seq<RequestInput>, outputs: Option<seq<RequestOutput>>)
  datatype ResponseOutput = ResponseOutput(
    name: string, dtype: string, shape: seq<nat>, data: TensorData)
  datatype InferenceResponse = InferenceResponse(
    id: Option<string>, modelName: string, modelVersion: Option<string>,
    parameters: Option<Params>, outputs: seq<ResponseOutput>)

  type Requests = Odict<Id, InferenceRequest>
  type Head = Odict<Id, RequestInput>
  type Heads = Odict<string, Head>
  type OutputHeads = Odict<string, Odict<Id, RequestOutput>>

  // ---------- Merging ----------

  /** The entries the requests' head `name` has collected so far. */
  function HeadOf(index: Heads, name: string): Head {
    if Has(index, name) then Get(index, name) else []
  }

  /** `inputs_index[input.name][id] = input` */
  function AddInput(index: Heads, id: Id, input: RequestInput): Heads {
    Put(index, input.name, Put(HeadOf(index, input.name), id, input))
  }

  function AddInputs(index: Heads, id: Id, inputs: seq<RequestInput>): Heads {
    if inputs == [] then index
    else AddInput(AddInputs(index, id, inputs[..|inputs| - 1]), id, inputs[|inputs| - 1])
  }

  /** The inputs of all requests, by head and then by request. */
  function IndexInputs(reqs: Requests): Heads {
    if reqs == [] then []
    else
      var last := reqs[|reqs| - 1];
      AddInputs(IndexInputs(reqs[..|reqs| - 1]), last.key, last.value.inputs)
  }

  /** The requested outputs of all requests, by name and then by request. */
  function AddOutput(index: OutputHeads, id: Id, output: RequestOutput): OutputHeads {
    Put(index, output.name, Put(if Has(index, output.name) then Get(index, output.name) else [], id, output))
  }

  function AddOutputs(index: OutputHeads, id: Id, outputs: seq<RequestOutput>): OutputHeads {
    if outputs == [] then index
    else AddOutput(AddOutputs(index, id, outputs[..|outputs| - 1]), id, outputs[|outputs| - 1])
  }

  function IndexOutputs(reqs: Requests): OutputHeads {
    if reqs == [] then []
    else
      var index, last := IndexOutputs(reqs[..|reqs| - 1]), reqs[|reqs| - 1];
      if last.value.outputs.None? then index else AddOutputs(index, last.key, last.value.outputs.value)
  }

  predicate RequestsOutputs(reqs: Requests) {
    exists k :: 0 <= k < |reqs| && reqs[k].value.outputs.Some?
  }

  /** What `_merge_request_inputs` needs in order not to raise. */
  predicate MergeableHead(head: Head) {
    && head != []
    && (forall i :: 0 <= i < |head| ==> head[i].value.shape != [])
    && (forall i :: 0 <= i < |head| ==> head[i].value.data.kind == head[0].value.data.kind)
  }

  predicate MergeableHeads(heads: Heads) {
    forall i :: 0 <= i < |heads| ==> MergeableHead(heads[i].value)
  }

  predicate Mergeable(reqs: Requests) {
    MergeableHeads(IndexInputs(reqs))
  }

  function TotalRows(head: Head): nat
    requires forall i :: 0 <= i < |head| ==> head[i].value.shape != []
  {
    if head == [] then 0
    else TotalRows(head[..|head| - 1]) + head[|head| - 1].value.shape[0]
  }

  function JoinItems(head: Head): seq<Item> {
    if head == [] then []
    else JoinItems(head[..|head| - 1]) + head[|head| - 1].value.data.items
  }

  function ParametersOf(head: Head): seq<Option<Params>> {
    seq(|head|, i requires 0 <= i < |head| => head[i].value.parameters)
  }

  function NoneIfEmpty(all: Params): Option<Params> {
    if all == map[] then None else Some(all)
  }

  function MergeHead(head: Head): RequestInput
    requires MergeableHead(head)
  {
    var sampled := head[0].value;
    RequestInput(sampled.name, sampled.dtype, [TotalRows(head)] + sampled.shape[1..],
                 TensorData(sampled.data.kind, JoinItems(head)),
                 NoneIfEmpty(Fold(ParametersOf(head))))
  }

  function MergeHeads(heads: Heads): seq<RequestInput>
    requires MergeableHeads(heads)
  {
    seq(|heads|, i requires 0 <= i < |heads| => MergeHead(heads[i].value))
  }

  function OutputParameters(entries: Odict<Id, RequestOutput>): seq<Option<Params>> {
    seq(|entries|, i requires 0 <= i < |entries| => entries[i].value.parameters)
  }

  /** One requested output, with the last value anyone gives for each of its parameters. */
  function MergeOutput(name: string, entries: Odict<Id, RequestOutput>): RequestOutput {
    RequestOutput(name, NoneIfEmpty(FoldUpdates(OutputParameters(entries))))
  }

  function MergeOutputHeads(index: OutputHeads): seq<RequestOutput> {
    seq(|index|, i requires 0 <= i < |index| => MergeOutput(index[i].key, index[i].value))
  }

  /** Every output that a request asks for, once; `None` when no request says which outputs it wants. */
  function MergeOutputs(reqs: Requests): Option<seq<RequestOutput>> {
    if RequestsOutputs(reqs) then Some(MergeOutputHeads(IndexOutputs(reqs))) else None
  }

  function RequestParameters(reqs: Requests): seq<Option<Params>> {
    seq(|reqs|, k requires 0 <= k < |reqs| => reqs[k].value.parameters)
  }

  function Merged(reqs: Requests): InferenceRequest
    requires Mergeable(reqs)
  {
    InferenceRequest(None, NoneIfEmpty(FoldUpdates(RequestParameters(reqs))), MergeHeads(IndexInputs(reqs)),
                     MergeOutputs(reqs))
  }

  /** The merged request has a parameter exactly when one of its requests has, with the last value. */
  lemma {:induction false} MergedKeepsLastParameters(reqs: Requests, key: string)
    requires Mergeable(reqs)
    ensures var merged, held := Merged(reqs).parameters, Held(RequestParameters(reqs), key);
            && (merged.Some? ==> merged.value != map[])
            && (merged.Some? && key in merged.value <==> held != [])
            && (held != [] ==> merged.value[key] == held[|held| - 1])
  {
    FoldUpdatesKeepsLast(RequestParameters(reqs), key);
  }

  /** The merged head has a parameter exactly when one of its requests has; several requests' values
      are collected in request order. */
  lemma {:induction false} MergedHeadCollectsParameters(head: Head, key: string)
    requires MergeableHead(head)
    ensures var merged, held := MergeHead(head).parameters, Held(ParametersOf(head), key);
            && (merged.Some? ==> merged.value != map[])
            && (merged.Some? && key in merged.value <==> held != [])
            && (|held| == 1 ==> merged.value[key] == held[0])
            && (|held| >= 2 && !held[0].Many? && key != "content_type" && key != "headers" ==>
                  merged.value[key] == Many(held))
            && (held != [] && (key == "content_type" || key == "headers") ==> merged.value[key] == held[|held| - 1])
  {
    FoldCollectsHeldValues(ParametersOf(head), key);
  }

  ghost predicate Asks(outputs: seq<RequestOutput>, name: string) {
    exists i :: 0 <= i < |outputs| && outputs[i].name == name
  }

  ghost predicate AskedFor(reqs: Requests, name: string) {
    exists k :: 0 <= k < |reqs| && reqs[k].value.outputs.Some? && Asks(reqs[k].value.outputs.value, name)
  }

  lemma {:induction false} AsksSnoc(outputs: seq<RequestOutput>, name: string)
    requires outputs != []
    ensures Asks(outputs, name) <==> Asks(outputs[..|outputs| - 1], name) || outputs[|outputs| - 1].name == name
  {
    var init := outputs[..|outputs| - 1];
    assert forall i :: 0 <= i < |init| ==> outputs[i] == init[i];
  }

  lemma {:induction false} AddOutputNames(index: OutputHeads, id: Id, output: RequestOutput, name: string)
    ensures Has(AddOutput(index, id, output), name) <==> Has(index, name) || output.name == name
    ensures Distinct(index) ==> Distinct(AddOutput(index, id, output))
  {
    var entries := if Has(index, output.name) then Get(index, output.name) else [];
    PutGets(index, output.name, Put(entries, id, output), name);
  }

  lemma {:induction false} AddOutputsNames(index: OutputHeads, id: Id, outputs: seq<RequestOutput>, name: string)
    ensures Has(AddOutputs(index, id, outputs), name) <==> Has(index, name) || Asks(outputs, name)
    ensures Distinct(index) ==> Distinct(AddOutputs(index, id, outputs))
  {
    if outputs != [] {
      var n := |outputs| - 1;
      AddOutputsNames(index, id, outputs[..n], name);
      AddOutputNames(AddOutputs(index, id, outputs[..n]), id, outputs[n], name);
      AsksSnoc(outputs, name);
    }
  }

  /** The merged request asks for exactly the outputs that one of its requests asks for, each once, and says
      nothing about outputs exactly when none of its requests does. */
  lemma {:induction false} MergedAsksForEachOutputOnce(reqs: Requests, name: string)
    ensures MergeOutputs(reqs).Some? <==> exists k :: 0 <= k < |reqs| && reqs[k].value.outputs.Some?
    ensures Has(IndexOutputs(reqs), name) <==> AskedFor(reqs, name)
    ensures Distinct(IndexOutputs(reqs))
    ensures MergeOutputs(reqs).Some? ==>
              && (Asks(MergeOutputs(reqs).value, name) <==> AskedFor(reqs, name))
              && var outputs := MergeOutputs(reqs).value;
                 forall i, j :: 0 <= i < j < |outputs| ==> outputs[i].name != outputs[j].name
  {
    AsksExactly(reqs, name);
    var index, outputs := IndexOutputs(reqs), MergeOutputHeads(IndexOutputs(reqs));
    if Has(index, name) { assert outputs[Find(index, name)].name == name; }
    if Asks(outputs, name) {
      var i :| 0 <= i < |outputs| && outputs[i].name == name;
      FindAt(index, i);
    }
  }

  lemma {:induction false} AsksExactly(reqs: Requests, name: string)
    ensures Has(IndexOutputs(reqs), name) <==> AskedFor(reqs, name)
    ensures Distinct(IndexOutputs(reqs))
  {
    if reqs != [] {
      var init, last := reqs[..|reqs| - 1], reqs[|reqs| - 1];
      AsksExactly(init, name);
      if last.value.outputs.Some? { AddOutputsNames(IndexOutputs(init), last.key, last.value.outputs.value, name); }
      assert forall k :: 0 <= k < |init| ==> reqs[k] == init[k];
    }
  }

  /** What the indexing loop has collected of the first `k` requests. */
  ghost predicate IndexedUpTo(reqs: Requests, k: nat, inputs: Heads, outputs: OutputHeads, all: Params, has: bool) {
    && k <= |reqs|
    && inputs == IndexInputs(reqs[..k]) && outputs == IndexOutputs(reqs[..k])
    && all == FoldUpdates(RequestParameters(reqs[..k])) && has == RequestsOutputs(reqs[..k])
  }

  lemma {:induction false} OneMoreRequest(reqs: Requests, k: nat, inputs: Heads, outputs: OutputHeads,
                                          all: Params, has: bool)
    requires k < |reqs| && IndexedUpTo(reqs, k, inputs, outputs, all, has)
    ensures var last := reqs[k];
            IndexedUpTo(reqs, k + 1, AddInputs(inputs, last.key, last.value.inputs),
                        if last.value.outputs.None? then outputs
                        else AddOutputs(outputs, last.key, last.value.outputs.value),
                        MergeParameters(all, last.value.parameters), has || last.value.outputs.Some?)
  {
    var more := reqs[..k + 1];
    assert more[..k] == reqs[..k] && more[k] == reqs[k];
    assert RequestParameters(more)[..k] == RequestParameters(reqs[..k]);
    assert forall i :: 0 <= i < k ==> more[i] == reqs[..k][i];
  }

  lemma {:induction false} IndexedAll(reqs: Requests, inputs: Heads, outputs: OutputHeads, all: Params, has: bool)
    requires IndexedUpTo(reqs, |reqs|, inputs, outputs, all, has)
    ensures inputs == IndexInputs(reqs) && outputs == IndexOutputs(reqs)
    ensures all == FoldUpdates(RequestParameters(reqs)) && has == RequestsOutputs(reqs)
  {
    assert reqs[..|reqs|] == reqs;
  }

  lemma {:induction false} OneMoreId(reqs: Requests, k: nat)
    requires Distinct(reqs) && k < |reqs|
    ensures Put(ExternalIds(reqs)[..k], reqs[k].key, reqs[k].value.id) == ExternalIds(reqs)[..k + 1]
  {
    var ids := ExternalIds(reqs)[..k];
    assert forall i :: 0 <= i < k ==> ids[i].key == reqs[i].key;
    PutNew(ids, reqs[k].key, reqs[k].value.id);
  }

  /** Minibatch sizes once the inputs of one more head were visited. */
  function HeadSizes(sizes: Odict<Id, nat>, head: Head): Odict<Id, nat>
    requires forall i :: 0 <= i < |head| ==> head[i].value.shape != []
  {
    if head == [] then sizes
    else
      var last := head[|head| - 1];
      Put(HeadSizes(sizes, head[..|head| - 1]), last.key, last.value.shape[0])
  }

  /** What one turn of the merging loop adds. */
  lemma {:induction false} OneMoreInput(sizes: Odict<Id, nat>, head: Head, k: nat)
    requires k < |head| && forall i :: 0 <= i < |head| ==> head[i].value.shape != []
    ensures TotalRows(head[..k + 1]) == TotalRows(head[..k]) + head[k].value.shape[0]
    ensures JoinItems(head[..k + 1]) == JoinItems(head[..k]) + head[k].value.data.items
    ensures HeadSizes(sizes, head[..k + 1]) == Put(HeadSizes(sizes, head[..k]), head[k].key, head[k].value.shape[0])
    ensures Fold(ParametersOf(head)[..k + 1])
         == MergeInputParameters(Fold(ParametersOf(head)[..k]), head[k].value.parameters)
  {
    assert head[..k + 1][..k] == head[..k];
    assert ParametersOf(head)[..k + 1][..k] == ParametersOf(head)[..k];
  }

  /** Minibatch sizes once all heads were merged: a later head overwrites an earlier one. */
  function HeadsSizes(heads: Heads): Odict<Id, nat>
    requires MergeableHeads(heads)
  {
    if heads == [] then []
    else HeadSizes(HeadsSizes(heads[..|heads| - 1]), heads[|heads| - 1].value)
  }

  function Sizes(reqs: Requests): Odict<Id, nat>
    requires Mergeable(reqs)
  {
    HeadsSizes(IndexInputs(reqs))
  }

  function ExternalIds(reqs: Requests): Odict<Id, Option<string>> {
    seq(|reqs|, k requires 0 <= k < |reqs| => Entry(reqs[k].key, reqs[k].value.id))
  }

  // ---------- Splitting ----------

  /** Python's `s[lo:hi]` for `0 <= lo <= hi`: bounds past the end are clamped. */
  function Slice<T>(s: seq<T>, lo: nat, hi: nat): seq<T>
    requires lo <= hi
  {
    s[if lo <= |s| then lo else |s| .. if hi <= |s| then hi else |s|]
  }

  /** The number of items each request gets of an output with `elemSize` items per row. */
  function Lengths(sizes: Odict<Id, nat>, elemSize: nat): seq<nat> {
    seq(|sizes|, k requires 0 <= k < |sizes| => Area(sizes[k].value, elemSize))
  }

  /** The running `idx` when the `k`-th request is reached. */
  function Offset(lengths: seq<nat>, k: nat): nat
    requires k <= |lengths|
  {
    if k == 0 then 0 else Offset(lengths, k - 1) + lengths[k - 1]
  }

  /** The data `_split_data` hands to the `k`-th request. */
  function DataPart(lengths: seq<nat>, items: seq<Item>, k: nat): seq<Item>
    requires k < |lengths|
  {
    Slice(items, Offset(lengths, k), Offset(lengths, k) + lengths[k])
  }

  function OutputPart(sizes: Odict<Id, nat>, output: ResponseOutput, k: nat): ResponseOutput
    requires k < |sizes| && output.shape != []
  {
    ResponseOutput(output.name, output.dtype, [sizes[k].value] + output.shape[1..],
                   TensorData(output.data.kind, DataPart(Lengths(sizes, ElemSize(output.shape)), output.data.items, k)))
  }

  /** Splitting raises when an output has no axis at all. */
  predicate Splittable(response: InferenceResponse) {
    forall j :: 0 <= j < |response.outputs| ==> response.outputs[j].shape != []
  }

  predicate KnownIds(ids: Odict<Id, Option<string>>, sizes: Odict<Id, nat>) {
    forall k :: 0 <= k < |sizes| ==> Has(ids, sizes[k].key)
  }

  /** The first `upTo` outputs of the `k`-th request's response. */
  function ResponsePart(ids: Odict<Id, Option<string>>, sizes: Odict<Id, nat>, response: InferenceResponse,
                        upTo: nat, k: nat): InferenceResponse
    requires Splittable(response) && upTo <= |response.outputs| && k < |sizes| && KnownIds(ids, sizes)
  {
    InferenceResponse(Get(ids, sizes[k].key), response.modelName, response.modelVersion, response.parameters,
                      seq(upTo, j requires 0 <= j < upTo => OutputPart(sizes, response.outputs[j], k)))
  }

  /** The result of `split_response`: nothing at all for a response without outputs. */
  function Parts(ids: Odict<Id, Option<string>>, sizes: Odict<Id, nat>, response: InferenceResponse)
    : Odict<Id, InferenceResponse>
    requires Splittable(response) && KnownIds(ids, sizes)
  {
    if response.outputs == [] then []
    else seq(|sizes|, k requires 0 <= k < |sizes| =>
               Entry(sizes[k].key, ResponsePart(ids, sizes, response, |response.outputs|, k)))
  }

  /** `allData` holds the data of the first `n` requests. */
  ghost predicate DataPartsUpTo(sizes: Odict<Id, nat>, lengths: seq<nat>, items: seq<Item>,
                                allData: Odict<Id, seq<Item>>, n: nat)
    requires |lengths| == |sizes|
  {
    && |allData| == n <= |sizes|
    && forall k :: 0 <= k < n ==> allData[k] == Entry(sizes[k].key, DataPart(lengths, items, k))
  }

  lemma {:induction false} OneMoreDataPart(sizes: Odict<Id, nat>, lengths: seq<nat>, items: seq<Item>,
                                           allData: Odict<Id, seq<Item>>, k: nat)
    requires |lengths| == |sizes| && Distinct(sizes) && k < |sizes|
    requires DataPartsUpTo(sizes, lengths, items, allData, k)
    ensures DataPartsUpTo(sizes, lengths, items, Put(allData, sizes[k].key, DataPart(lengths, items, k)), k + 1)
  {
    PutNew(allData, sizes[k].key, DataPart(lengths, items, k));
  }

  lemma {:induction false} DataPartAt(sizes: Odict<Id, nat>, lengths: seq<nat>, items: seq<Item>,
                                      allData: Odict<Id, seq<Item>>, k: nat)
    requires |lengths| == |sizes| && Distinct(sizes) && k < |sizes|
    requires DataPartsUpTo(sizes, lengths, items, allData, |sizes|)
    ensures allData[k] == Entry(sizes[k].key, DataPart(lengths, items, k))
    ensures Has(sizes, sizes[k].key) && Get(sizes, sizes[k].key) == sizes[k].value
  {
    FindAt(sizes, k);
  }

  /** `parts` holds what the output gives to the first `n` requests. */
  ghost predicate OutputPartsUpTo(
      sizes: Odict<Id, nat>, output: ResponseOutput, parts: Odict<Id, ResponseOutput>, n: nat)
    requires output.shape != []
  {
    && |parts| == n <= |sizes|
    && forall k :: 0 <= k < n ==> parts[k] == Entry(sizes[k].key, OutputPart(sizes, output, k))
  }

  lemma {:induction false} OneMoreOutputPart(sizes: Odict<Id, nat>, output: ResponseOutput,
                                             parts: Odict<Id, ResponseOutput>, k: nat)
    requires output.shape != [] && Distinct(sizes) && k < |sizes| && OutputPartsUpTo(sizes, output, parts, k)
    ensures OutputPartsUpTo(sizes, output, Put(parts, sizes[k].key, OutputPart(sizes, output, k)), k + 1)
  {
    PutNew(parts, sizes[k].key, OutputPart(sizes, output, k));
  }

  /** `responses` holds what the first `upTo` outputs give every request. */
  ghost predicate PartsUpTo(responses: Odict<Id, InferenceResponse>, ids: Odict<Id, Option<string>>,
                            sizes: Odict<Id, nat>, response: InferenceResponse, upTo: nat)
    requires Splittable(response) && upTo <= |response.outputs| && KnownIds(ids, sizes)
  {
    && |responses| == (if upTo == 0 then 0 else |sizes|)
    && forall k :: 0 <= k < |responses| ==>
                     responses[k] == Entry(sizes[k].key, ResponsePart(ids, sizes, response, upTo, k))
  }

  lemma {:induction false} PartsAreComplete(responses: Odict<Id, InferenceResponse>, ids: Odict<Id, Option<string>>,
                         sizes: Odict<Id, nat>, response: InferenceResponse)
    requires Splittable(response) && KnownIds(ids, sizes)
    requires PartsUpTo(responses, ids, sizes, response, |response.outputs|)
    ensures responses == Parts(ids, sizes, response)
  {
  }

  /** The merging loop has come to the `i`-th head. */
  predicate HeadsMergedUpTo(heads: Heads, i: nat, inputs: seq<RequestInput>, sizes: Odict<Id, nat>)
    requires MergeableHeads(heads)
  {
    && |inputs| == i <= |heads| && sizes == HeadsSizes(heads[..i])
    && forall j :: 0 <= j < i ==> inputs[j] == MergeHead(heads[j].value)
  }

  lemma {:induction false} HeadMergeStep(heads: Heads, i: nat, inputs: seq<RequestInput>, sizes: Odict<Id, nat>)
    requires MergeableHeads(heads) && i < |heads| && HeadsMergedUpTo(heads, i, inputs, sizes)
    ensures HeadsMergedUpTo(heads, i + 1, inputs + [MergeHead(heads[i].value)], HeadSizes(sizes, heads[i].value))
  {
    assert heads[..i + 1][..i] == heads[..i];
  }

  class BatchedRequests {
    var inferenceRequests: Requests
    // External ids may be missing or repeated, so requests are known by internal ids.
    var idsMapping: Odict<Id, Option<string>>
    var minibatchSizes: Odict<Id, nat>
    var mergedRequest: InferenceRequest

    ghost predicate Valid()
      reads this
    {
      && Distinct(inferenceRequests) && Mergeable(inferenceRequests)
      && idsMapping == ExternalIds(inferenceRequests)
      && minibatchSizes == Sizes(inferenceRequests)
      && mergedRequest == Merged(inferenceRequests)
    }

    /** Every minibatch belongs to one known request. */
    ghost predicate Tracked()
      reads this
    {
      Distinct(minibatchSizes) && KnownIds(idsMapping, minibatchSizes)
    }

    constructor (reqs: Requests)
      requires Distinct(reqs) && Mergeable(reqs)
      ensures inferenceRequests == reqs && Valid() && Tracked()
    {
      inferenceRequests := reqs;
      idsMapping := [];
      minibatchSizes := [];
      mergedRequest := InferenceRequest(None, None, [], None);
      new;
      var merged := MergeRequests();
      mergedRequest := merged;
      SizesAreDistinctKnownIds(reqs);
    }

    method MergeRequests() returns (merged: InferenceRequest)
      requires Distinct(inferenceRequests) && Mergeable(inferenceRequests)
      requires idsMapping == [] && minibatchSizes == []
      modifies this`idsMapping, this`minibatchSizes
      ensures merged == Merged(inferenceRequests)
      ensures idsMapping == ExternalIds(inferenceRequests)
      ensures minibatchSizes == Sizes(inferenceRequests)
    {
      var inputsIndex, outputsIndex, allParams, hasOutputs := IndexRequests();
      var inputs := MergeIndexed(inputsIndex);
      var outputs := None;
      if hasOutputs {
        var mergedOutputs := MergeRequestOutputs(outputsIndex);
        outputs := Some(mergedOutputs);
      }
      merged := InferenceRequest(None, NoneIfEmpty(allParams), inputs, outputs);
    }

    method MergeIndexed(inputsIndex: Heads) returns (inputs: seq<RequestInput>)
      requires MergeableHeads(inputsIndex) && minibatchSizes == []
      modifies this`minibatchSizes
      ensures inputs == MergeHeads(inputsIndex)
      ensures minibatchSizes == HeadsSizes(inputsIndex)
    {
      inputs := [];
      for i := 0 to |inputsIndex|
        invariant HeadsMergedUpTo(inputsIndex, i, inputs, minibatchSizes)
      {
        ghost var sizes := minibatchSizes;
        var input := MergeRequestInputs(inputsIndex[i].value);
        HeadMergeStep(inputsIndex, i, inputs, sizes);
        inputs := inputs + [input];
      }
      assert inputsIndex[..|inputsIndex|] == inputsIndex;
    }

    method MergeRequestOutputs(outputsIndex: OutputHeads) returns (outputs: seq<RequestOutput>)
      ensures outputs == MergeOutputHeads(outputsIndex)
    {
      outputs := [];
      for i := 0 to |outputsIndex|
        invariant |outputs| == i
        invariant forall j :: 0 <= j < i ==> outputs[j] == MergeOutput(outputsIndex[j].key, outputsIndex[j].value)
      {
        var output := MergeRequestOutput(outputsIndex[i].key, outputsIndex[i].value);
        outputs := outputs + [output];
      }
    }

    method MergeRequestOutput(name: string, entries: Odict<Id, RequestOutput>) returns (output: RequestOutput)
      ensures output == MergeOutput(name, entries)
    {
      ghost var params := OutputParameters(entries);
      var allParams := map[];
      for k := 0 to |entries|
        invariant allParams == FoldUpdates(params[..k])
      {
        assert params[..k + 1][..k] == params[..k];
        allParams := MergeParameters(allParams, entries[k].value.parameters);
      }
      assert params[..|params|] == params;
      output := RequestOutput(name, NoneIfEmpty(allParams));
    }

    method IndexRequests()
      returns (inputsIndex: Heads, outputsIndex: OutputHeads, allParams: Params, hasOutputs: bool)
      requires Distinct(inferenceRequests) && idsMapping == []
      modifies this`idsMapping
      ensures inputsIndex == IndexInputs(inferenceRequests) && outputsIndex == IndexOutputs(inferenceRequests)
      ensures allParams == FoldUpdates(RequestParameters(inferenceRequests))
      ensures hasOutputs == RequestsOutputs(inferenceRequests)
      ensures idsMapping == ExternalIds(inferenceRequests)
    {
      var reqs := inferenceRequests;
      inputsIndex, outputsIndex, allParams, hasOutputs := [], [], map[], false;
      for k := 0 to |reqs|
        invariant idsMapping == ExternalIds(reqs)[..k]
        invariant IndexedUpTo(reqs, k, inputsIndex, outputsIndex, allParams, hasOutputs)
      {
        OneMoreId(reqs, k);
        OneMoreRequest(reqs, k, inputsIndex, outputsIndex, allParams, hasOutputs);
        var internalId, request := reqs[k].key, reqs[k].value;
        idsMapping := Put(idsMapping, internalId, request.id);
        allParams := MergeParameters(allParams, request.parameters);
        inputsIndex := IndexRequest(inputsIndex, internalId, request.inputs);
        if request.outputs.Some? {
          hasOutputs := true;
          outputsIndex := IndexRequestOutputs(outputsIndex, internalId, request.outputs.value);
        }
      }
      IndexedAll(reqs, inputsIndex, outputsIndex, allParams, hasOutputs);
    }

    method IndexRequestOutputs(index: OutputHeads, internalId: Id, outputs: seq<RequestOutput>)
      returns (outputsIndex: OutputHeads)
      ensures outputsIndex == AddOutputs(index, internalId, outputs)
    {
      outputsIndex := index;
      for i := 0 to |outputs|
        invariant outputsIndex == AddOutputs(index, internalId, outputs[..i])
      {
        assert outputs[..i + 1][..i] == outputs[..i];
        outputsIndex := AddOutput(outputsIndex, internalId, outputs[i]);
      }
      assert outputs[..|outputs|] == outputs;
    }

    method IndexRequest(index: Heads, internalId: Id, inputs: seq<RequestInput>) returns (inputsIndex: Heads)
      ensures inputsIndex == AddInputs(index, internalId, inputs)
    {
      inputsIndex := index;
      for i := 0 to |inputs|
        invariant inputsIndex == AddInputs(index, internalId, inputs[..i])
      {
        assert inputs[..i + 1][..i] == inputs[..i];
        inputsIndex := AddInput(inputsIndex, internalId, inputs[i]);
      }
      assert inputs[..|inputs|] == inputs;
    }

    method MergeRequestInputs(head: Head) returns (input: RequestInput)
      requires MergeableHead(head)
      modifies this`minibatchSizes
      ensures input == MergeHead(head)
      ensures minibatchSizes == HeadSizes(old(minibatchSizes), head)
    {
      var batchSize, allItems, allParams := 0, [], map[];
      ghost var params := ParametersOf(head);
      for k := 0 to |head|
        invariant batchSize == TotalRows(head[..k])
        invariant allItems == JoinItems(head[..k])
        invariant allParams == Fold(params[..k])
        invariant minibatchSizes == HeadSizes(old(minibatchSizes), head[..k])
      {
        OneMoreInput(old(minibatchSizes), head, k);
        allParams := MergeInputParametersLoop(allParams, head[k].value.parameters);
        allItems := allItems + head[k].value.data.items;
        var minibatchShape := new Shape(head[k].value.shape);
        var minibatchSize := minibatchShape.BatchSize();
        minibatchSizes := Put(minibatchSizes, head[k].key, minibatchSize);
        batchSize := batchSize + minibatchSize;
      }
      assert head[..|head|] == head && params[..|head|] == params;
      var sampled := head[0].value;
      var shape := Resized(sampled.shape, batchSize);
      input := RequestInput(sampled.name, sampled.dtype, shape,
                            TensorData(sampled.data.kind, allItems), NoneIfEmpty(allParams));
    }

    method SplitData(output: ResponseOutput) returns (allData: Odict<Id, seq<Item>>)
      requires Distinct(minibatchSizes) && output.shape != []
      ensures var lengths := Lengths(minibatchSizes, ElemSize(output.shape));
              DataPartsUpTo(minibatchSizes, lengths, output.data.items, allData, |minibatchSizes|)
    {
      var mergedShape := new Shape(output.shape);
      var elementSize := mergedShape.ElemSizeOf();
      var sizes := minibatchSizes;
      ghost var lengths := Lengths(sizes, elementSize);
      var idx := 0;
      allData := [];
      for k := 0 to |sizes|
        invariant idx == Offset(lengths, k)
        invariant DataPartsUpTo(sizes, lengths, output.data.items, allData, k)
      {
        var length := sizes[k].value * elementSize;
        AreaIsProduct(sizes[k].value, elementSize);
        var data := Slice(output.data.items, idx, idx + length);
        idx := idx + length;
        OneMoreDataPart(sizes, lengths, output.data.items, allData, k);
        allData := Put(allData, sizes[k].key, data);
      }
    }

    /** A copy of the shape with another batch size. */
    static method Resized(dims: seq<nat>, batchSize: nat) returns (r: seq<nat>)
      requires dims != []
      ensures r == [batchSize] + dims[1..]
    {
      var shape := new Shape(dims);
      shape.SetBatchSize(batchSize);
      return shape.dims;
    }

    method SplitResponseOutput(output: ResponseOutput) returns (parts: Odict<Id, ResponseOutput>)
      requires Distinct(minibatchSizes) && output.shape != []
      ensures OutputPartsUpTo(minibatchSizes, output, parts, |minibatchSizes|)
    {
      var sizes := minibatchSizes;
      ghost var lengths := Lengths(sizes, ElemSize(output.shape));
      var allData := SplitData(output);
      parts := [];
      for k := 0 to |allData|
        invariant OutputPartsUpTo(sizes, output, parts, k)
      {
        DataPartAt(sizes, lengths, output.data.items, allData, k);
        var shape := Resized(output.shape, Get(sizes, allData[k].key));
        var part := ResponseOutput(output.name, output.dtype, shape, TensorData(output.data.kind, allData[k].value));
        OneMoreOutputPart(sizes, output, parts, k);
        parts := Put(parts, allData[k].key, part);
      }
    }

    method SplitResponse(batchedResponse: InferenceResponse) returns (responses: Odict<Id, InferenceResponse>)
      requires Tracked() && Splittable(batchedResponse)
      ensures responses == Parts(idsMapping, minibatchSizes, batchedResponse)
    {
      responses := [];
      for j := 0 to |batchedResponse.outputs|
        invariant PartsUpTo(responses, idsMapping, minibatchSizes, batchedResponse, j)
      {
        var parts := SplitResponseOutput(batchedResponse.outputs[j]);
        responses := AddParts(responses, parts, batchedResponse, j);
      }
      PartsAreComplete(responses, idsMapping, minibatchSizes, batchedResponse);
    }

    /** The inner loop: adds one output to the response of every request. */
    method AddParts(responses: Odict<Id, InferenceResponse>, parts: Odict<Id, ResponseOutput>,
                    batchedResponse: InferenceResponse, ghost j: nat)
      returns (r: Odict<Id, InferenceResponse>)
      requires Splittable(batchedResponse) && j < |batchedResponse.outputs|
      requires Tracked()
      requires OutputPartsUpTo(minibatchSizes, batchedResponse.outputs[j], parts, |minibatchSizes|)
      requires PartsUpTo(responses, idsMapping, minibatchSizes, batchedResponse, j)
      ensures PartsUpTo(r, idsMapping, minibatchSizes, batchedResponse, j + 1)
    {
      r := responses;
      for k := 0 to |parts|
        invariant |r| == if j == 0 then k else |minibatchSizes|
        invariant forall i :: 0 <= i < k ==>
                                r[i] == Entry(minibatchSizes[i].key,
                                              ResponsePart(idsMapping, minibatchSizes, batchedResponse, j + 1, i))
        invariant forall i :: k <= i < |r| ==> r[i] == responses[i]
      {
        r := AddPart(r, parts[k], batchedResponse, j, k);
      }
    }

    /** The body of the inner loop: opens the request's response on its first output, and appends. */
    method AddPart(responses: Odict<Id, InferenceResponse>, part: Entry<Id, ResponseOutput>,
                   batchedResponse: InferenceResponse, ghost j: nat, ghost k: nat)
      returns (r: Odict<Id, InferenceResponse>)
      requires Splittable(batchedResponse) && j < |batchedResponse.outputs| && k < |minibatchSizes|
      requires Tracked()
      requires part == Entry(minibatchSizes[k].key, OutputPart(minibatchSizes, batchedResponse.outputs[j], k))
      requires |responses| == if j == 0 then k else |minibatchSizes|
      requires forall i :: 0 <= i < |responses| ==> responses[i].key == minibatchSizes[i].key
      requires j > 0 ==> responses[k].value == ResponsePart(idsMapping, minibatchSizes, batchedResponse, j, k)
      ensures |r| == if j == 0 then k + 1 else |responses|
      ensures forall i :: 0 <= i < |r| && i != k ==> r[i] == responses[i]
      ensures r[k] == Entry(part.key, ResponsePart(idsMapping, minibatchSizes, batchedResponse, j + 1, k))
    {
      r := responses;
      if !Has(r, part.key) {
        r := Put(r, part.key,
                 InferenceResponse(Get(idsMapping, part.key), batchedResponse.modelName,
                                   batchedResponse.modelVersion, batchedResponse.parameters, []));
      }
      assert r[k].key == part.key && Find(r, part.key) == k;
      var response := Get(r, part.key);
      assert response == ResponsePart(idsMapping, minibatchSizes, batchedResponse, j, k);
      r := Put(r, part.key, response.(outputs := response.outputs + [part.value]));
      assert r[k].value.outputs
          == ResponsePart(idsMapping, minibatchSizes, batchedResponse, j + 1, k).outputs;
    }
  }

  // ---------- Who is answered ----------

  /** Some head holds an input of request `id`. */
  ghost predicate Indexed(heads: Heads, id: Id) {
    exists i :: 0 <= i < |heads| && Has(heads[i].value, id)
  }

  lemma {:induction false} HeadSizesKeys(sizes: Odict<Id, nat>, head: Head, id: Id)
    requires forall i :: 0 <= i < |head| ==> head[i].value.shape != []
    ensures Has(HeadSizes(sizes, head), id) <==> Has(sizes, id) || Has(head, id)
    ensures Distinct(sizes) ==> Distinct(HeadSizes(sizes, head))
  {
    if head != [] {
      var init, last := head[..|head| - 1], head[|head| - 1];
      HeadSizesKeys(sizes, init, id);
      PutGets(HeadSizes(sizes, init), last.key, last.value.shape[0], id);
      HasSnoc(head, id);
    }
  }

  lemma {:induction false} HasSnoc<V>(d: Odict<Id, V>, id: Id)
    requires d != []
    ensures Has(d, id) <==> Has(d[..|d| - 1], id) || id == d[|d| - 1].key
  {
    var init := d[..|d| - 1];
    var i, j := Find(d, id), Find(init, id);
    if j < |init| { assert d[j].key == id; }
    if i < |init| { assert init[i].key == id; }
  }

  lemma {:induction false} HeadsSizesKeys(heads: Heads, id: Id)
    requires MergeableHeads(heads)
    ensures Has(HeadsSizes(heads), id) <==> Indexed(heads, id)
    ensures Distinct(HeadsSizes(heads))
  {
    if heads != [] {
      var init := heads[..|heads| - 1];
      HeadsSizesKeys(init, id);
      HeadSizesKeys(HeadsSizes(init), heads[|heads| - 1].value, id);
      assert forall i :: 0 <= i < |init| ==> heads[i] == init[i];
    }
  }

  lemma {:induction false} AddInputKeys(index: Heads, id0: Id, input: RequestInput, id: Id)
    ensures Indexed(AddInput(index, id0, input), id) <==> Indexed(index, id) || id == id0
  {
    var r, at := AddInput(index, id0, input), Find(index, input.name);
    PutGets(HeadOf(index, input.name), id0, input, id);
    assert r[at].value == Put(HeadOf(index, input.name), id0, input);
    assert forall i :: 0 <= i < |index| && i != at ==> r[i] == index[i];
  }

  lemma {:induction false} AddInputsKeys(index: Heads, id0: Id, inputs: seq<RequestInput>, id: Id)
    ensures Indexed(AddInputs(index, id0, inputs), id) <==> Indexed(index, id) || (id == id0 && inputs != [])
  {
    if inputs != [] {
      var n := |inputs| - 1;
      AddInputsKeys(index, id0, inputs[..n], id);
      AddInputKeys(AddInputs(index, id0, inputs[..n]), id0, inputs[n], id);
    }
  }

  ghost predicate HasInputs(reqs: Requests, id: Id) {
    exists k :: 0 <= k < |reqs| && reqs[k].key == id && reqs[k].value.inputs != []
  }

  lemma {:induction false} IndexInputsKeys(reqs: Requests, id: Id)
    ensures Indexed(IndexInputs(reqs), id) <==> HasInputs(reqs, id)
  {
    if reqs != [] {
      var init, last := reqs[..|reqs| - 1], reqs[|reqs| - 1];
      IndexInputsKeys(init, id);
      AddInputsKeys(IndexInputs(init), last.key, last.value.inputs, id);
      assert forall k :: 0 <= k < |init| ==> reqs[k] == init[k];
    }
  }

  /** A request is known to the splitter exactly when it has an input: one without inputs gets no
      part of any response. */
  lemma {:induction false} AnsweredExactlyTheIdsWithInputs(reqs: Requests, id: Id)
    requires Mergeable(reqs)
    ensures Has(Sizes(reqs), id) <==> HasInputs(reqs, id)
  {
    IndexInputsKeys(reqs, id);
    HeadsSizesKeys(IndexInputs(reqs), id);
  }

  lemma {:induction false} SizesAreDistinctKnownIds(reqs: Requests)
    requires Mergeable(reqs)
    ensures Distinct(Sizes(reqs)) && KnownIds(ExternalIds(reqs), Sizes(reqs))
  {
    var sizes, ids := Sizes(reqs), ExternalIds(reqs);
    HeadsSizesKeys(IndexInputs(reqs), "");
    forall k | 0 <= k < |sizes| ensures Has(ids, sizes[k].key) {
      AnsweredExactlyTheIdsWithInputs(reqs, sizes[k].key);
      var i :| 0 <= i < |reqs| && reqs[i].key == sizes[k].key;
      assert ids[i].key == sizes[k].key;
    }
  }

  // ---------- The slices ----------

  function JoinParts(lengths: seq<nat>, items: seq<Item>, k: nat): seq<Item>
    requires k <= |lengths|
  {
    if k == 0 then [] else JoinParts(lengths, items, k - 1) + DataPart(lengths, items, k - 1)
  }

  lemma {:induction false} SlicesMeet<T>(s: seq<T>, mid: nat, hi: nat)
    requires mid <= hi
    ensures Slice(s, 0, mid) + Slice(s, mid, hi) == Slice(s, 0, hi)
  {
  }

  /** The slices tile the merged data, whatever its length: no item is lost, repeated or moved. */
  lemma {:induction false} SlicesTileData(lengths: seq<nat>, items: seq<Item>, k: nat)
    requires k <= |lengths|
    ensures JoinParts(lengths, items, k) == Slice(items, 0, Offset(lengths, k))
  {
    if k > 0 {
      SlicesTileData(lengths, items, k - 1);
      SlicesMeet(items, Offset(lengths, k - 1), Offset(lengths, k));
    }
  }

  lemma {:induction false} OffsetsGrow(lengths: seq<nat>, k: nat, n: nat)
    requires k <= n <= |lengths|
    ensures Offset(lengths, k) <= Offset(lengths, n)
  {
    if k < n { OffsetsGrow(lengths, k, n - 1); }
  }

  /** Each part has as many items as its rewritten shape says, once the response has data for all
      minibatches. */
  lemma {:induction false} SliceFillsItsShape(sizes: Odict<Id, nat>, output: ResponseOutput, k: nat)
    requires k < |sizes| && output.shape != []
    requires Offset(Lengths(sizes, ElemSize(output.shape)), |sizes|) <= |output.data.items|
    ensures |OutputPart(sizes, output, k).data.items| == Product(OutputPart(sizes, output, k).shape)
  {
    var part, lengths := OutputPart(sizes, output, k), Lengths(sizes, ElemSize(output.shape));
    OffsetsGrow(lengths, k + 1, |sizes|);
    ProductSplitsBatchAxis(part.shape);
    AreaIsProduct(sizes[k].value, ElemSize(output.shape));
    assert part.shape[1..] == output.shape[1..];
  }
}
