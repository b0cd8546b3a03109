/** mlserver/batching/requests.py:121-145, 182-194: what the merged request says about the outputs it asks
    for, in terms of the requests alone. */
module RequestedOutputs {
  import opened OrderedDict
  import opened Parameters
  import opened Batching

  /** The place of the last output of that name a request asks for, or the length. */
  function LastAsk(outputs: seq<RequestOutput>, name: string): (i: nat)
    ensures i <= |outputs|
    ensures i < |outputs| ==> outputs[i].name == name && forall j :: i < j < |outputs| ==> outputs[j].name != name
    ensures i == |outputs| ==> forall j :: 0 <= j < |outputs| ==> outputs[j].name != name
  {
    if outputs == [] then 0
    else
      var n := |outputs| - 1;
      if outputs[n].name == name then n
      else
        var i := LastAsk(outputs[..n], name);
        assert forall j :: 0 <= j < n ==> outputs[j] == outputs[..n][j];
        if i == n then n + 1 else i
  }

  function AskIn(outputs: seq<RequestOutput>, name: string): Option<RequestOutput> {
    var i := LastAsk(outputs, name);
    if i < |outputs| then Some(outputs[i]) else None
  }

  /** What a request says about an output, the last time it asks for it. */
  function Ask(request: InferenceRequest, name: string): Option<RequestOutput> {
    if request.outputs.Some? then AskIn(request.outputs.value, name) else None
  }

  /** The value a request gives a parameter of an output it asks for. */
  function Wanted(request: InferenceRequest, name: string, key: string): Option<ParamValue> {
    match Ask(request, name)
    case None => None
    case Some(output) =>
      if output.parameters.Some? && key in output.parameters.value then Some(output.parameters.value[key]) else None
  }

  // ---------- What is filed under an output ----------

  function EntriesOf(index: OutputHeads, name: string): Odict<Id, RequestOutput> {
    if Has(index, name) then Get(index, name) else []
  }

  function Asks(reqs: Requests, name: string): Odict<Id, RequestOutput> {
    if reqs == [] then []
    else
      var before, last := Asks(reqs[..|reqs| - 1], name), reqs[|reqs| - 1];
      match Ask(last.value, name)
      case None => before
      case Some(output) => before + [Entry(last.key, output)]
  }

  lemma {:induction false} PutTwice<V>(d: Odict<Id, V>, id: Id, v: V, w: V)
    ensures Put(Put(d, id, v), id, w) == Put(d, id, w)
  {
  }

  lemma {:induction false} AddOutputEntries(index: OutputHeads, id: Id, output: RequestOutput, name: string)
    ensures EntriesOf(AddOutput(index, id, output), name)
         == if output.name == name then Put(EntriesOf(index, name), id, output) else EntriesOf(index, name)
  {
    PutGets(index, output.name, Put(EntriesOf(index, output.name), id, output), name);
  }

  function Filed(entries: Odict<Id, RequestOutput>, id: Id, ask: Option<RequestOutput>): Odict<Id, RequestOutput> {
    if ask.Some? then Put(entries, id, ask.value) else entries
  }

  lemma {:induction false} FiledTwice(d: Odict<Id, RequestOutput>, id: Id,
                                          ask: Option<RequestOutput>, last: RequestOutput)
    ensures Put(Filed(d, id, ask), id, last) == Filed(d, id, Some(last))
  {
    if ask.Some? { PutTwice(d, id, ask.value, last); }
  }

  lemma {:induction false} AskInSnoc(outputs: seq<RequestOutput>, last: RequestOutput, name: string)
    ensures AskIn(outputs + [last], name) == if last.name == name then Some(last) else AskIn(outputs, name)
  {
    assert (outputs + [last])[..|outputs|] == outputs;
  }

  lemma {:induction false} AddOutputsEntries(index: OutputHeads, id: Id, outputs: seq<RequestOutput>, name: string)
    ensures EntriesOf(AddOutputs(index, id, outputs), name) == Filed(EntriesOf(index, name), id, AskIn(outputs, name))
  {
    if outputs != [] {
      var before, last := outputs[..|outputs| - 1], outputs[|outputs| - 1];
      AddOutputsEntries(index, id, before, name);
      AddOutputEntries(AddOutputs(index, id, before), id, last, name);
      assert outputs == before + [last];
      AskInSnoc(before, last, name);
      FiledTwice(EntriesOf(index, name), id, AskIn(before, name), last);
    }
  }

  lemma {:induction false} AsksKeys(reqs: Requests, name: string, id: Id)
    requires forall k :: 0 <= k < |reqs| ==> reqs[k].key != id
    ensures forall i :: 0 <= i < |Asks(reqs, name)| ==> Asks(reqs, name)[i].key != id
  {
    if reqs != [] { AsksKeys(reqs[..|reqs| - 1], name, id); }
  }

  lemma {:induction false} EntriesAreAsks(reqs: Requests, name: string)
    requires Distinct(reqs)
    ensures EntriesOf(IndexOutputs(reqs), name) == Asks(reqs, name)
  {
    if reqs != [] {
      var init, last := reqs[..|reqs| - 1], reqs[|reqs| - 1];
      EntriesAreAsks(init, name);
      if last.value.outputs.Some? {
        AddOutputsEntries(IndexOutputs(init), last.key, last.value.outputs.value, name);
        AsksKeys(init, name, last.key);
        if Ask(last.value, name).Some? { PutNew(Asks(init, name), last.key, Ask(last.value, name).value); }
      }
    }
  }

  // ---------- The parameters of a merged output ----------

  function WantedValues(reqs: Requests, name: string, key: string): seq<ParamValue> {
    if reqs == [] then []
    else
      var before, wanted := WantedValues(reqs[..|reqs| - 1], name, key), Wanted(reqs[|reqs| - 1].value, name, key);
      before + if wanted.Some? then [wanted.value] else []
  }

  lemma {:induction false} HeldAreWanted(reqs: Requests, name: string, key: string)
    ensures Held(OutputParameters(Asks(reqs, name)), key) == WantedValues(reqs, name, key)
  {
    if reqs != [] {
      var init, last := reqs[..|reqs| - 1], reqs[|reqs| - 1];
      HeldAreWanted(init, name, key);
      var before, after := OutputParameters(Asks(init, name)), OutputParameters(Asks(reqs, name));
      if Ask(last.value, name).Some? {
        assert after[..|before|] == before && after == before + [Ask(last.value, name).value.parameters];
      } else {
        assert after == before;
      }
    }
  }

  lemma {:induction false} LastWanted(reqs: Requests, name: string, key: string, k: nat)
    requires k < |reqs| && Wanted(reqs[k].value, name, key).Some?
    requires forall l :: k < l < |reqs| ==> Wanted(reqs[l].value, name, key).None?
    ensures var values := WantedValues(reqs, name, key);
            values != [] && values[|values| - 1] == Wanted(reqs[k].value, name, key).value
  {
    var n := |reqs| - 1;
    if k < n { LastWanted(reqs[..n], name, key, k); }
  }

  lemma {:induction false} NoneWanted(reqs: Requests, name: string, key: string)
    requires forall k :: 0 <= k < |reqs| ==> Wanted(reqs[k].value, name, key).None?
    ensures WantedValues(reqs, name, key) == []
  {
    if reqs != [] { NoneWanted(reqs[..|reqs| - 1], name, key); }
  }

  lemma {:induction false} LastWanter(reqs: Requests, name: string, key: string) returns (k: nat)
    requires exists k :: 0 <= k < |reqs| && Wanted(reqs[k].value, name, key).Some?
    ensures k < |reqs| && Wanted(reqs[k].value, name, key).Some?
    ensures forall l :: k < l < |reqs| ==> Wanted(reqs[l].value, name, key).None?
  {
    k := |reqs| - 1;
    while Wanted(reqs[k].value, name, key).None?
      invariant k < |reqs|
      invariant forall l :: k < l < |reqs| ==> Wanted(reqs[l].value, name, key).None?
      decreases k
    {
      k := k - 1;
    }
  }

  lemma {:induction false} ValuesAreWanted(reqs: Requests, name: string, key: string)
    ensures var values := WantedValues(reqs, name, key);
            && (values != [] <==> exists k :: 0 <= k < |reqs| && Wanted(reqs[k].value, name, key).Some?)
            && forall k ::
                 && 0 <= k < |reqs| && Wanted(reqs[k].value, name, key).Some?
                 && (forall l :: k < l < |reqs| ==> Wanted(reqs[l].value, name, key).None?) ==>
                   values != [] && values[|values| - 1] == Wanted(reqs[k].value, name, key).value
  {
    forall k | && 0 <= k < |reqs| && Wanted(reqs[k].value, name, key).Some?
               && (forall l :: k < l < |reqs| ==> Wanted(reqs[l].value, name, key).None?)
      ensures var values := WantedValues(reqs, name, key);
              values != [] && values[|values| - 1] == Wanted(reqs[k].value, name, key).value
    {
      LastWanted(reqs, name, key, k);
    }
    if exists k :: 0 <= k < |reqs| && Wanted(reqs[k].value, name, key).Some? {
      var k := LastWanter(reqs, name, key);
    } else {
      NoneWanted(reqs, name, key);
    }
  }

  lemma {:induction false} MergedParameters(reqs: Requests, i: nat, key: string)
    requires Distinct(reqs) && Mergeable(reqs)
    requires Merged(reqs).outputs.Some? && i < |Merged(reqs).outputs.value|
    ensures var output := Merged(reqs).outputs.value[i];
            var values := WantedValues(reqs, output.name, key);
            && (output.parameters.Some? ==> output.parameters.value != map[])
            && (output.parameters.Some? && key in output.parameters.value <==> values != [])
            && (values != [] ==> output.parameters.value[key] == values[|values| - 1])
  {
    var index, output := IndexOutputs(reqs), Merged(reqs).outputs.value[i];
    MergedAsksForEachOutputOnce(reqs, output.name);
    FindAt(index, i);
    EntriesAreAsks(reqs, output.name);
    FoldUpdatesKeepsLast(OutputParameters(Asks(reqs, output.name)), key);
    HeldAreWanted(reqs, output.name, key);
  }

  /** Every output the merged request asks for has a parameter exactly when some request wants it, and the
      value is that of the last such request, in request order. */
  lemma {:induction false} MergedOutputKeepsLastWanted(reqs: Requests, i: nat, key: string)
    requires Distinct(reqs) && Mergeable(reqs)
    requires Merged(reqs).outputs.Some? && i < |Merged(reqs).outputs.value|
    ensures var output := Merged(reqs).outputs.value[i];
            && (output.parameters.Some? ==> output.parameters.value != map[])
            && (output.parameters.Some? && key in output.parameters.value
                <==> exists k :: 0 <= k < |reqs| && Wanted(reqs[k].value, output.name, key).Some?)
            && forall k ::
                 && 0 <= k < |reqs| && Wanted(reqs[k].value, output.name, key).Some?
                 && (forall l :: k < l < |reqs| ==> Wanted(reqs[l].value, output.name, key).None?) ==>
                   output.parameters.value[key] == Wanted(reqs[k].value, output.name, key).value
  {
    MergedParameters(reqs, i, key);
    ValuesAreWanted(reqs, Merged(reqs).outputs.value[i].name, key);
  }
}
