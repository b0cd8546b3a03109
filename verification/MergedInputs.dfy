/** mlserver/batching/requests.py:115-180: what the merged request holds, in terms of the requests alone, for
    any requests: they need not have the same heads, nor agree on types or shapes. */
module MergedInputs {
  import opened OrderedDict
  import opened Parameters
  import opened Batching
  import opened Transparency
  import opened RequestedOutputs

  // ---------- The inputs of one head ----------

  /** The inputs of that name, request after request; of a repeated name a request gives the last. */
  function InputsOf(reqs: Requests, name: string): seq<RequestInput> {
    if reqs == [] then []
    else
      var before, inputs := InputsOf(reqs[..|reqs| - 1], name), reqs[|reqs| - 1].value.inputs;
      if name in Names(inputs) then before + [InputNamed(inputs, name)] else before
  }

  function HeadInputs(head: Head): seq<RequestInput> {
    seq(|head|, i requires 0 <= i < |head| => head[i].value)
  }

  lemma {:induction false} HeadKeys(reqs: Requests, name: string, id: Id)
    requires forall k :: 0 <= k < |reqs| ==> reqs[k].key != id
    ensures forall i :: 0 <= i < |HeadOf(IndexInputs(reqs), name)| ==> HeadOf(IndexInputs(reqs), name)[i].key != id
  {
    if reqs != [] {
      var init, last := reqs[..|reqs| - 1], reqs[|reqs| - 1];
      HeadKeys(init, name, id);
      AddInputsHead(IndexInputs(init), last.key, last.value.inputs, name);
      if name in Names(last.value.inputs) {
        PutKeepsKeyOut(HeadOf(IndexInputs(init), name), last.key, InputNamed(last.value.inputs, name), id);
      }
    }
  }

  lemma {:induction false} PutKeepsKeyOut<V>(d: Odict<Id, V>, k: Id, v: V, id: Id)
    requires k != id && forall i :: 0 <= i < |d| ==> d[i].key != id
    ensures forall i :: 0 <= i < |Put(d, k, v)| ==> Put(d, k, v)[i].key != id
  {
  }

  lemma {:induction false} HeadIsInputs(reqs: Requests, name: string)
    requires Distinct(reqs)
    ensures HeadInputs(HeadOf(IndexInputs(reqs), name)) == InputsOf(reqs, name)
    ensures Has(IndexInputs(reqs), name) <==> InputsOf(reqs, name) != []
    ensures Distinct(IndexInputs(reqs))
  {
    if reqs != [] {
      var init, last := reqs[..|reqs| - 1], reqs[|reqs| - 1];
      HeadIsInputs(init, name);
      AddInputsHead(IndexInputs(init), last.key, last.value.inputs, name);
      if name in Names(last.value.inputs) {
        HeadKeys(init, name, last.key);
        OneMoreInHead(HeadOf(IndexInputs(init), name), last.key, InputNamed(last.value.inputs, name));
      }
    }
  }

  lemma {:induction false} OneMoreInHead(head: Head, id: Id, input: RequestInput)
    requires forall i :: 0 <= i < |head| ==> head[i].key != id
    ensures HeadInputs(Put(head, id, input)) == HeadInputs(head) + [input]
  {
    PutNew(head, id, input);
  }

  lemma {:induction false} HeadAt(reqs: Requests, i: nat)
    requires Distinct(reqs) && i < |IndexInputs(reqs)|
    ensures var entry := IndexInputs(reqs)[i];
            HeadInputs(entry.value) == InputsOf(reqs, entry.key) && HeadOf(IndexInputs(reqs), entry.key) == entry.value
  {
    HeadIsInputs(reqs, IndexInputs(reqs)[i].key);
    FindAt(IndexInputs(reqs), i);
  }

  lemma {:induction false} InputsAreNamed(reqs: Requests, name: string)
    ensures forall i :: 0 <= i < |InputsOf(reqs, name)| ==> InputsOf(reqs, name)[i].name == name
  {
    if reqs != [] { InputsAreNamed(reqs[..|reqs| - 1], name); }
  }

  // ---------- When requests can be merged ----------

  /** The inputs of a head have an axis, and are all texts, all byte strings, or all lists. */
  predicate OneKind(inputs: seq<RequestInput>) {
    && (forall i :: 0 <= i < |inputs| ==> inputs[i].shape != [])
    && forall i, j :: 0 <= i < j < |inputs| ==> inputs[i].data.kind == inputs[j].data.kind
  }

  ghost predicate EveryNameOfOneKind(reqs: Requests) {
    forall name :: OneKind(InputsOf(reqs, name))
  }

  lemma {:induction false} HeadMerges(head: Head)
    ensures MergeableHead(head) <==> head != [] && OneKind(HeadInputs(head))
  {
    var inputs := HeadInputs(head);
    if MergeableHead(head) {
      assert forall i :: 0 <= i < |inputs| ==> inputs[i].data.kind == head[0].value.data.kind;
    }
    if head != [] && OneKind(inputs) {
      assert forall i :: 0 <= i < |head| ==> head[i].value == inputs[i];
    }
  }

  lemma {:induction false} HeadMergesAt(reqs: Requests, i: nat)
    requires Distinct(reqs) && i < |IndexInputs(reqs)|
    ensures MergeableHead(IndexInputs(reqs)[i].value) <==> OneKind(InputsOf(reqs, IndexInputs(reqs)[i].key))
  {
    HeadAt(reqs, i);
    HeadIsInputs(reqs, IndexInputs(reqs)[i].key);
    HeadMerges(IndexInputs(reqs)[i].value);
  }

  lemma {:induction false} MergeableNames(reqs: Requests, name: string)
    requires Distinct(reqs) && Mergeable(reqs)
    ensures OneKind(InputsOf(reqs, name))
  {
    var heads := IndexInputs(reqs);
    HeadIsInputs(reqs, name);
    if Has(heads, name) { HeadMergesAt(reqs, Find(heads, name)); }
  }

  lemma {:induction false} NamesMerge(reqs: Requests)
    requires Distinct(reqs) && EveryNameOfOneKind(reqs)
    ensures Mergeable(reqs)
  {
    forall i: nat | i < |IndexInputs(reqs)| ensures MergeableHead(IndexInputs(reqs)[i].value) {
      HeadMergesAt(reqs, i);
    }
  }

  /** Requests can be merged exactly when the inputs of every name have an axis and are of one kind. */
  lemma {:induction false} MergeableExactly(reqs: Requests)
    requires Distinct(reqs)
    ensures Mergeable(reqs) <==> EveryNameOfOneKind(reqs)
  {
    if Mergeable(reqs) {
      forall name ensures OneKind(InputsOf(reqs, name)) { MergeableNames(reqs, name); }
    } else if EveryNameOfOneKind(reqs) {
      NamesMerge(reqs);
    }
  }

  // ---------- What a head is merged to ----------

  function RowsTogether(inputs: seq<RequestInput>): nat
    requires forall i :: 0 <= i < |inputs| ==> inputs[i].shape != []
  {
    if inputs == [] then 0 else inputs[0].shape[0] + RowsTogether(inputs[1..])
  }

  function ItemsTogether(inputs: seq<RequestInput>): seq<Item> {
    if inputs == [] then [] else inputs[0].data.items + ItemsTogether(inputs[1..])
  }

  lemma {:induction false} TogetherSnoc(inputs: seq<RequestInput>, last: RequestInput)
    requires last.shape != [] && forall i :: 0 <= i < |inputs| ==> inputs[i].shape != []
    ensures RowsTogether(inputs + [last]) == RowsTogether(inputs) + last.shape[0]
    ensures ItemsTogether(inputs + [last]) == ItemsTogether(inputs) + last.data.items
  {
    if inputs == [] {
      assert (inputs + [last])[1..] == [];
      assert last.data.items + [] == [] + last.data.items;
    } else {
      TogetherSnoc(inputs[1..], last);
      assert (inputs + [last])[1..] == inputs[1..] + [last];
    }
  }

  lemma {:induction false} HeadTogether(head: Head)
    requires forall i :: 0 <= i < |head| ==> head[i].value.shape != []
    ensures TotalRows(head) == RowsTogether(HeadInputs(head)) && JoinItems(head) == ItemsTogether(HeadInputs(head))
  {
    if head != [] {
      var init, last := head[..|head| - 1], head[|head| - 1].value;
      HeadTogether(init);
      assert HeadInputs(head) == HeadInputs(init) + [last];
      TogetherSnoc(HeadInputs(init), last);
    }
  }

  /** Every input of the merged request is made of all inputs of its name: type, kind and trailing dimensions
      are those of the first, the rows and items are those of all of them, one after the other. */
  lemma {:induction false} MergedInputIsJoined(reqs: Requests, i: nat)
    requires Distinct(reqs) && Mergeable(reqs) && i < |Merged(reqs).inputs|
    ensures var input := Merged(reqs).inputs[i];
            var parts := InputsOf(reqs, input.name);
            && parts != [] && OneKind(parts) && input.dtype == parts[0].dtype
            && input.shape == [RowsTogether(parts)] + parts[0].shape[1..]
            && input.data == TensorData(parts[0].data.kind, ItemsTogether(parts))
  {
    var entry := IndexInputs(reqs)[i];
    HeadAt(reqs, i);
    HeadIsInputs(reqs, entry.key);
    InputsAreNamed(reqs, entry.key);
    HeadMerges(entry.value);
    HeadTogether(entry.value);
    assert HeadInputs(entry.value)[0] == entry.value[0].value;
  }

  // ---------- Which heads there are, in which order ----------

  function AddName(seen: seq<string>, name: string): seq<string> {
    if name in seen then seen else seen + [name]
  }

  function KeysOf<V>(d: Odict<string, V>): seq<string> {
    seq(|d|, i requires 0 <= i < |d| => d[i].key)
  }

  lemma {:induction false} PutKeys<V>(d: Odict<string, V>, k: string, v: V)
    ensures KeysOf(Put(d, k, v)) == AddName(KeysOf(d), k)
  {
    var i := Find(d, k);
    if i < |d| {
      assert KeysOf(d)[i] == k;
    } else {
      assert forall j :: 0 <= j < |d| ==> KeysOf(d)[j] != k;
    }
  }

  /** The names, in the order in which they are met first. */
  function AddNames(seen: seq<string>, names: seq<string>): seq<string> {
    if names == [] then seen else AddName(AddNames(seen, names[..|names| - 1]), names[|names| - 1])
  }

  function InputNames(inputs: seq<RequestInput>): seq<string> {
    seq(|inputs|, i requires 0 <= i < |inputs| => inputs[i].name)
  }

  function OutputNames(outputs: seq<RequestOutput>): seq<string> {
    seq(|outputs|, i requires 0 <= i < |outputs| => outputs[i].name)
  }

  function AllInputNames(reqs: Requests): seq<string> {
    if reqs == [] then [] else AddNames(AllInputNames(reqs[..|reqs| - 1]), InputNames(reqs[|reqs| - 1].value.inputs))
  }

  function AllOutputNames(reqs: Requests): seq<string> {
    if reqs == [] then []
    else
      var before, last := AllOutputNames(reqs[..|reqs| - 1]), reqs[|reqs| - 1].value;
      if last.outputs.None? then before else AddNames(before, OutputNames(last.outputs.value))
  }

  lemma {:induction false} AddInputsKeys(index: Heads, id: Id, inputs: seq<RequestInput>)
    ensures KeysOf(AddInputs(index, id, inputs)) == AddNames(KeysOf(index), InputNames(inputs))
  {
    if inputs != [] {
      var n := |inputs| - 1;
      var before := AddInputs(index, id, inputs[..n]);
      AddInputsKeys(index, id, inputs[..n]);
      PutKeys(before, inputs[n].name, Put(HeadOf(before, inputs[n].name), id, inputs[n]));
      assert InputNames(inputs)[..n] == InputNames(inputs[..n]);
    }
  }

  lemma {:induction false} AddOutputsKeys(index: OutputHeads, id: Id, outputs: seq<RequestOutput>)
    ensures KeysOf(AddOutputs(index, id, outputs)) == AddNames(KeysOf(index), OutputNames(outputs))
  {
    if outputs != [] {
      var n := |outputs| - 1;
      var before := AddOutputs(index, id, outputs[..n]);
      AddOutputsKeys(index, id, outputs[..n]);
      PutKeys(before, outputs[n].name, Put(EntriesOf(before, outputs[n].name), id, outputs[n]));
      assert OutputNames(outputs)[..n] == OutputNames(outputs[..n]);
    }
  }

  lemma {:induction false} IndexKeys(reqs: Requests)
    ensures KeysOf(IndexInputs(reqs)) == AllInputNames(reqs) && KeysOf(IndexOutputs(reqs)) == AllOutputNames(reqs)
  {
    if reqs != [] {
      var init, last := reqs[..|reqs| - 1], reqs[|reqs| - 1];
      IndexKeys(init);
      AddInputsKeys(IndexInputs(init), last.key, last.value.inputs);
      if last.value.outputs.Some? { AddOutputsKeys(IndexOutputs(init), last.key, last.value.outputs.value); }
    }
  }

  /** The merged request has one input for every name, and asks for every output once, in the order in which
      the requests name them first; it has no id of its own. */
  lemma {:induction false} MergedInOrder(reqs: Requests)
    requires Distinct(reqs) && Mergeable(reqs)
    ensures Merged(reqs).id.None? && InputNames(Merged(reqs).inputs) == AllInputNames(reqs)
    ensures Merged(reqs).outputs.Some? ==> OutputNames(Merged(reqs).outputs.value) == AllOutputNames(reqs)
  {
    IndexKeys(reqs);
    var heads, names := IndexInputs(reqs), InputNames(Merged(reqs).inputs);
    forall i: nat | i < |heads| ensures names[i] == heads[i].key {
      HeadAt(reqs, i);
      InputsAreNamed(reqs, heads[i].key);
      assert heads[i].value[0].value == HeadInputs(heads[i].value)[0];
    }
    assert names == KeysOf(heads);
    if Merged(reqs).outputs.Some? {
      assert OutputNames(Merged(reqs).outputs.value) == KeysOf(IndexOutputs(reqs));
    }
  }
}
