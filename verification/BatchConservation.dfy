/** Which lines of a batch of the offline pipeline get an output. */
module BatchConservation {
  import opened OrderedDict
  import opened Batching
  import opened BatchItems
  import AdaptiveBatching

  predicate NoRepeats<T(==)>(s: seq<T>) {
    forall i, j :: 0 <= i < j < |s| ==> s[i] != s[j]
  }

  lemma {:induction false} NoRepeatsConcat<T>(a: seq<T>, b: seq<T>)
    requires NoRepeats(a) && NoRepeats(b) && forall x :: x in a ==> x !in b
    ensures NoRepeats(a + b)
  {
    forall i, j | 0 <= i < j < |a + b| ensures (a + b)[i] != (a + b)[j] {
      if i < |a| <= j { assert a[i] in a && b[j - |a|] in b; }
    }
  }

  function InputIndices(items: seq<BatchInputItem>): seq<nat> {
    seq(|items|, i requires 0 <= i < |items| => items[i].index)
  }

  function OutputIndices(out: seq<BatchOutputItem>): seq<nat> {
    seq(|out|, i requires 0 <= i < |out| => out[i].index)
  }

  // ---------- Ids ----------

  lemma {:induction false} KeyListHas<V>(d: Odict<Id, V>, id: Id)
    ensures id in KeyList(d) <==> Has(d, id)
    ensures Distinct(d) ==> NoRepeats(KeyList(d))
  {
    if Has(d, id) { assert KeyList(d)[Find(d, id)] == id; }
    if id in KeyList(d) {
      var k :| 0 <= k < |KeyList(d)| && KeyList(d)[k] == id;
      assert d[k].key == id;
    }
  }

  lemma {:induction false} HasInputsOf(reqs: Requests, id: Id)
    requires Distinct(reqs)
    ensures HasInputs(reqs, id) <==> Has(reqs, id) && Get(reqs, id).inputs != []
  {
    if HasInputs(reqs, id) {
      var k :| 0 <= k < |reqs| && reqs[k].key == id && reqs[k].value.inputs != [];
      FindAt(reqs, k);
    }
    if Has(reqs, id) && Get(reqs, id).inputs != [] { assert reqs[Find(reqs, id)].key == id; }
  }

  lemma {:induction false} PartsHave(reqs: Requests, response: InferenceResponse, id: Id)
    requires Distinct(reqs) && Mergeable(reqs) && Splittable(response)
    ensures var parts := AdaptiveBatching.PartsOf(reqs, response);
            && Distinct(parts)
            && (Has(parts, id) <==> response.outputs != [] && Has(reqs, id) && Get(reqs, id).inputs != [])
  {
    var parts, sizes := AdaptiveBatching.PartsOf(reqs, response), Sizes(reqs);
    SizesAreDistinctKnownIds(reqs);
    AnsweredExactlyTheIdsWithInputs(reqs, id);
    HasInputsOf(reqs, id);
    if response.outputs != [] {
      assert forall k :: 0 <= k < |parts| ==> parts[k].key == sizes[k].key;
      if Has(parts, id) { assert sizes[Find(parts, id)].key == id; }
      if Has(sizes, id) { assert parts[Find(sizes, id)].key == id; }
    }
  }

  /** The request of the id is the last one of that id, and is answered when sending fails, or when it
      has an input and the response has an output. */
  predicate AnswersRequest(items: seq<BatchInputItem>, end: SendEnd, k: nat)
    requires k < |items|
  {
    && items[k].line.Request? && NotReplaced(items, k)
    && (end.Answered? ==> end.response.outputs != [] && items[k].line.request.inputs != [])
  }

  lemma {:induction false} OutputIdsAre(items: seq<BatchInputItem>, end: SendEnd, id: Id)
    requires Prepares(items) && Delivers(end)
    ensures NoRepeats(OutputIds(items, end))
    ensures var k := LastWith(items, id);
            id in OutputIds(items, end) <==> k < |items| && AnswersRequest(items, end, k)
  {
    CollectedUnder(items, id);
    RequestsAreDistinct(items);
    var k := LastWith(items, id);
    if k < |items| { NotReplacedIsLast(items, k); }
    match end
    case SendRaised(_) => KeyListHas(ItemIndices(items), id);
    case Answered(response) =>
      PartsHave(RequestsOf(items), response, id);
      KeyListHas(AdaptiveBatching.PartsOf(RequestsOf(items), response), id);
  }

  // ---------- Indices ----------

  function Tagged(items: seq<BatchInputItem>, ids: seq<Id>): (r: seq<nat>)
    requires forall i :: 0 <= i < |ids| ==> LastWith(items, ids[i]) < |items|
  {
    seq(|ids|, i requires 0 <= i < |ids| => items[LastWith(items, ids[i])].index)
  }

  lemma {:induction false} OutputIdsExist(items: seq<BatchInputItem>, end: SendEnd)
    requires Prepares(items) && Delivers(end)
    ensures NoRepeats(OutputIds(items, end))
    ensures forall i :: 0 <= i < |OutputIds(items, end)| ==> LastWith(items, OutputIds(items, end)[i]) < |items|
  {
    OutputIdsAre(items, end, "");
    forall i | 0 <= i < |OutputIds(items, end)| ensures LastWith(items, OutputIds(items, end)[i]) < |items| {
      OutputIdsAre(items, end, OutputIds(items, end)[i]);
    }
  }

  lemma {:induction false} FailedIndices(items: seq<BatchInputItem>, error: string)
    requires forall i :: 0 <= i < |KeyList(ItemIndices(items))| ==>
                           LastWith(items, KeyList(ItemIndices(items))[i]) < |items|
    ensures OutputIndices(FailedResults(ItemIndices(items), error)) == Tagged(items, KeyList(ItemIndices(items)))
  {
    RequestsAreDistinct(items);
    var ids := KeyList(ItemIndices(items));
    forall i | 0 <= i < |ids| ensures ItemIndices(items)[i].value == items[LastWith(items, ids[i])].index {
      CollectedUnder(items, ids[i]);
      FindAt(ItemIndices(items), i);
    }
  }

  lemma {:induction false} AnsweredIndices(items: seq<BatchInputItem>, parts: Odict<Id, InferenceResponse>)
    requires forall i :: 0 <= i < |KeyList(parts)| ==> LastWith(items, KeyList(parts)[i]) < |items|
    requires AllKnown(ItemIndices(items), parts)
    ensures OutputIndices(OutputItems(ItemIndices(items), parts)) == Tagged(items, KeyList(parts))
  {
    var ids := KeyList(parts);
    forall i | 0 <= i < |ids| ensures Get(ItemIndices(items), parts[i].key) == items[LastWith(items, ids[i])].index {
      CollectedUnder(items, ids[i]);
    }
  }

  lemma {:induction false} OutputIndicesConcat(a: seq<BatchOutputItem>, b: seq<BatchOutputItem>)
    ensures OutputIndices(a + b) == OutputIndices(a) + OutputIndices(b)
  {
  }

  lemma {:induction false} ProcessedIndices(items: seq<BatchInputItem>, end: SendEnd)
    requires Process(items, end).Some? && |InvalidInputs(items)| != |items|
    ensures Delivers(end)
    ensures forall i :: 0 <= i < |OutputIds(items, end)| ==> LastWith(items, OutputIds(items, end)[i]) < |items|
    ensures OutputIndices(Process(items, end).value)
         == Tagged(items, OutputIds(items, end)) + OutputIndices(InvalidInputs(items))
  {
    OutputIdsExist(items, end);
    match end
    case SendRaised(error) =>
      FailedIndices(items, error);
      OutputIndicesConcat(FailedResults(ItemIndices(items), error), InvalidInputs(items));
    case Answered(response) =>
      PartsAreKnown(items, response);
      var parts := AdaptiveBatching.PartsOf(RequestsOf(items), response);
      AnsweredIndices(items, parts);
      OutputIndicesConcat(OutputItems(ItemIndices(items), parts), InvalidInputs(items));
  }

  lemma {:induction false} InvalidIndices(items: seq<BatchInputItem>, idx: nat)
    ensures idx in OutputIndices(InvalidInputs(items))
        <==> exists k :: 0 <= k < |items| && items[k].line.Invalid? && items[k].index == idx
    ensures |InvalidInputs(items)| <= |items|
    ensures |InvalidInputs(items)| == |items| ==> forall k :: 0 <= k < |items| ==> items[k].line.Invalid?
  {
    if items != [] {
      var init, last := items[..|items| - 1], items[|items| - 1];
      InvalidIndices(init, idx);
      assert forall k :: 0 <= k < |init| ==> items[k] == init[k];
      if last.line.Invalid? {
        assert OutputIndices(InvalidInputs(items)) == OutputIndices(InvalidInputs(init)) + [last.index];
        assert items[|items| - 1].index == last.index;
      }
    }
  }

  lemma {:induction false} InvalidOnce(items: seq<BatchInputItem>)
    requires NoRepeats(InputIndices(items))
    ensures NoRepeats(OutputIndices(InvalidInputs(items)))
  {
    if items != [] {
      var n := |items| - 1;
      assert InputIndices(items)[..n] == InputIndices(items[..n]);
      InvalidOnce(items[..n]);
      InvalidIndices(items[..n], items[n].index);
      forall k | 0 <= k < n ensures items[..n][k].index != items[n].index {
        assert InputIndices(items)[k] != InputIndices(items)[n];
      }
      if items[n].line.Invalid? {
        assert OutputIndices(InvalidInputs(items)) == OutputIndices(InvalidInputs(items[..n])) + [items[n].index];
        NoRepeatsConcat(OutputIndices(InvalidInputs(items[..n])), [items[n].index]);
      }
    }
  }

  lemma {:induction false} TaggedOnce(items: seq<BatchInputItem>, ids: seq<Id>)
    requires forall i :: 0 <= i < |ids| ==> LastWith(items, ids[i]) < |items|
    requires NoRepeats(InputIndices(items)) && NoRepeats(ids)
    ensures NoRepeats(Tagged(items, ids))
  {
    forall i, j | 0 <= i < j < |ids| ensures Tagged(items, ids)[i] != Tagged(items, ids)[j] {
      SameIndexSameItem(items, LastWith(items, ids[i]), LastWith(items, ids[j]));
    }
  }

  lemma {:induction false} SameIndexSameItem(items: seq<BatchInputItem>, i: nat, j: nat)
    requires NoRepeats(InputIndices(items)) && i < |items| && j < |items|
    ensures items[i].index == items[j].index ==> i == j
  {
    assert InputIndices(items)[i] == items[i].index && InputIndices(items)[j] == items[j].index;
  }

  // ---------- The result ----------

  /** An item gets an output of its own. */
  predicate AnswersItem(items: seq<BatchInputItem>, end: SendEnd, k: nat)
    requires k < |items|
  {
    items[k].line.Invalid? || AnswersRequest(items, end, k)
  }

  lemma {:induction false} TaggedExactly(items: seq<BatchInputItem>, end: SendEnd, k: nat)
    requires NoRepeats(InputIndices(items)) && Prepares(items) && Delivers(end) && k < |items|
    requires forall i :: 0 <= i < |OutputIds(items, end)| ==> LastWith(items, OutputIds(items, end)[i]) < |items|
    ensures items[k].index in Tagged(items, OutputIds(items, end)) <==> AnswersRequest(items, end, k)
  {
    var ids := OutputIds(items, end);
    if items[k].index in Tagged(items, ids) {
      var i :| 0 <= i < |ids| && Tagged(items, ids)[i] == items[k].index;
      SameIndexSameItem(items, LastWith(items, ids[i]), k);
      OutputIdsAre(items, end, ids[i]);
    }
    if AnswersRequest(items, end, k) {
      NotReplacedIsLast(items, k);
      OutputIdsAre(items, end, EffectiveId(items[k]));
      var i :| 0 <= i < |ids| && ids[i] == EffectiveId(items[k]);
      assert Tagged(items, ids)[i] == items[k].index;
    }
  }

  /** When a batch does not raise: exactly the lines that fail validation, and the requests that no later
      one of the same id has replaced and that the end of sending reaches, are in its output. */
  lemma {:induction false} LineIsAnsweredExactly(items: seq<BatchInputItem>, end: SendEnd, k: nat)
    requires NoRepeats(InputIndices(items)) && Process(items, end).Some? && k < |items|
    ensures items[k].index in OutputIndices(Process(items, end).value) <==> AnswersItem(items, end, k)
  {
    InvalidIndices(items, items[k].index);
    if |InvalidInputs(items)| != |items| {
      ProcessedIndices(items, end);
      TaggedExactly(items, end, k);
      forall j | 0 <= j < |items| && items[j].line.Invalid? && items[j].index == items[k].index ensures j == k {
        SameIndexSameItem(items, j, k);
      }
    }
  }

  lemma {:induction false} InvalidAreInputs(items: seq<BatchInputItem>, x: nat)
    requires x in OutputIndices(InvalidInputs(items))
    ensures x in InputIndices(items)
  {
    InvalidIndices(items, x);
    var k :| 0 <= k < |items| && items[k].line.Invalid? && items[k].index == x;
    assert InputIndices(items)[k] == x;
  }

  lemma {:induction false} TaggedAreInputs(items: seq<BatchInputItem>, ids: seq<Id>, x: nat)
    requires forall i :: 0 <= i < |ids| ==> LastWith(items, ids[i]) < |items|
    requires x in Tagged(items, ids)
    ensures x in InputIndices(items)
  {
    var i :| 0 <= i < |ids| && Tagged(items, ids)[i] == x;
    assert InputIndices(items)[LastWith(items, ids[i])] == x;
  }

  /** No line is answered twice, and nothing is answered that was not asked. */
  lemma {:induction false} EachLineIsAnsweredOnce(items: seq<BatchInputItem>, end: SendEnd)
    requires NoRepeats(InputIndices(items)) && Process(items, end).Some?
    ensures var out := OutputIndices(Process(items, end).value);
            && NoRepeats(out) && forall x :: x in out ==> x in InputIndices(items)
  {
    var invalid := OutputIndices(InvalidInputs(items));
    InvalidOnce(items);
    forall x | x in invalid ensures x in InputIndices(items) { InvalidAreInputs(items, x); }
    if |InvalidInputs(items)| != |items| {
      ProcessedIndices(items, end);
      OutputIdsExist(items, end);
      var tagged := Tagged(items, OutputIds(items, end));
      TaggedOnce(items, OutputIds(items, end));
      TaggedAndInvalidDiffer(items, OutputIds(items, end));
      forall x | x in tagged ensures x in InputIndices(items) { TaggedAreInputs(items, OutputIds(items, end), x); }
      NoRepeatsConcat(tagged, invalid);
    }
  }

  lemma {:induction false} TaggedAndInvalidDiffer(items: seq<BatchInputItem>, ids: seq<Id>)
    requires forall i :: 0 <= i < |ids| ==> LastWith(items, ids[i]) < |items|
    requires NoRepeats(InputIndices(items))
    ensures forall x :: x in Tagged(items, ids) ==> x !in OutputIndices(InvalidInputs(items))
  {
    forall x | x in Tagged(items, ids) ensures x !in OutputIndices(InvalidInputs(items)) {
      var i :| 0 <= i < |ids| && Tagged(items, ids)[i] == x;
      InvalidIndices(items, x);
      forall k | 0 <= k < |items| && items[k].index == x ensures !items[k].line.Invalid? {
        SameIndexSameItem(items, k, LastWith(items, ids[i]));
      }
    }
  }

  // ---------- As multisets ----------

  lemma {:induction false} NoRepeatsCount<T>(s: seq<T>, x: T)
    requires NoRepeats(s)
    ensures multiset(s)[x] == if x in s then 1 else 0
  {
    if s != [] {
      var n := |s| - 1;
      NoRepeatsCount(s[..n], x);
      assert s == s[..n] + [s[n]];
    }
  }

  lemma {:induction false} LeftOver<T>(before: seq<T>, out: seq<T>)
    requires NoRepeats(before) && NoRepeats(out) && forall x :: x in out ==> x in before
    ensures multiset(out) + (multiset(before) - multiset(out)) == multiset(before)
    ensures multiset(before) - multiset(out) == multiset{} <==> forall k :: 0 <= k < |before| ==> before[k] in out
  {
    var rest := multiset(before) - multiset(out);
    forall x ensures multiset(out)[x] <= multiset(before)[x] && (rest[x] > 0 <==> x in before && x !in out) {
      NoRepeatsCount(before, x);
      NoRepeatsCount(out, x);
    }
    assert forall k :: 0 <= k < |before| ==> (rest[before[k]] > 0 <==> before[k] !in out);
    if forall k :: 0 <= k < |before| ==> before[k] in out {
      assert forall x :: rest[x] == 0;
    }
  }

  /** What the output of a batch leaves out of it; everything when processing raises. */
  function LostIn(items: seq<BatchInputItem>, end: SendEnd): multiset<nat> {
    if Process(items, end).None? then multiset(InputIndices(items))
    else multiset(InputIndices(items)) - multiset(OutputIndices(Process(items, end).value))
  }

  predicate AnswersAll(items: seq<BatchInputItem>, end: SendEnd) {
    forall k :: 0 <= k < |items| ==> AnswersItem(items, end, k)
  }

  /** Conservation in one batch that does not raise: its output and what it loses add up to the batch,
      and it loses nothing exactly when every item is answered. */
  lemma {:induction false} BatchConservesExactly(items: seq<BatchInputItem>, end: SendEnd)
    requires NoRepeats(InputIndices(items)) && Process(items, end).Some?
    ensures multiset(OutputIndices(Process(items, end).value)) + LostIn(items, end) == multiset(InputIndices(items))
    ensures LostIn(items, end) == multiset{} <==> AnswersAll(items, end)
  {
    var before, out := InputIndices(items), OutputIndices(Process(items, end).value);
    EachLineIsAnsweredOnce(items, end);
    LeftOver(before, out);
    forall k: nat | k < |items| ensures before[k] in out <==> AnswersItem(items, end, k) {
      LineIsAnsweredExactly(items, end, k);
    }
  }
}
