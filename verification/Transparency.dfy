/** Batching is invisible: for any model that acts row by row, the part of the batched response that
    is handed to a request is the response the model gives to that request alone. */
module Transparency {
  import opened OrderedDict
  import opened Parameters
  import opened Shapes
  import opened Batching

  // ---------- Rows and row models ----------

  /** One datapoint: the items of every input head. */
  type Row = map<string, seq<Item>>

  /** What a model sees of an input head besides its items; the content type says how to decode them. */
  datatype HeadType = HeadType(dtype: string, kind: Kind, trail: seq<nat>, contentType: Option<ParamValue>)
  type Schema = map<string, HeadType>
  datatype OutputHead = OutputHead(name: string, dtype: string, kind: Kind, trail: seq<nat>)

  function Names(inputs: seq<RequestInput>): set<string> {
    if inputs == [] then {}
    else Names(inputs[..|inputs| - 1]) + {inputs[|inputs| - 1].name}
  }

  /** The input of that name; the last one when a request repeats a name. */
  function InputNamed(inputs: seq<RequestInput>, name: string): (r: RequestInput)
    requires name in Names(inputs)
    ensures r in inputs && r.name == name
  {
    var last := inputs[|inputs| - 1];
    if last.name == name then last
    else InputNamed(inputs[..|inputs| - 1], name)
  }

  /** Flat data, and one leading dimension across the heads. */
  predicate Uniform(req: InferenceRequest) {
    && req.inputs != []
    && forall input :: input in req.inputs ==>
                         && input.shape != [] && input.shape[0] == RowCount(req)
                         && |input.data.items| == Area(RowCount(req), ElemSize(input.shape))
  }

  /** Flat data holds as many items as the product of the shape. */
  lemma {:induction false} FlatDataFillsItsShape(req: InferenceRequest, input: RequestInput)
    requires Uniform(req) && input in req.inputs
    ensures |input.data.items| == Product(input.shape)
  {
    AreaIsProduct(RowCount(req), ElemSize(input.shape));
    ProductSplitsBatchAxis(input.shape);
  }

  function RowCount(req: InferenceRequest): nat {
    if req.inputs == [] || req.inputs[0].shape == [] then 0 else req.inputs[0].shape[0]
  }

  function ContentType(parameters: Option<Params>): Option<ParamValue> {
    if parameters.Some? && "content_type" in parameters.value then Some(parameters.value["content_type"]) else None
  }

  function TypeOf(input: RequestInput): HeadType
    requires input.shape != []
  {
    HeadType(input.dtype, input.data.kind, input.shape[1..], ContentType(input.parameters))
  }

  function SchemaOf(req: InferenceRequest): Schema
    requires Uniform(req)
  {
    map name | name in Names(req.inputs) :: TypeOf(InputNamed(req.inputs, name))
  }

  /** Cuts flat data into `n` rows of `e` items. */
  function Chunks(items: seq<Item>, n: nat, e: nat): (r: seq<seq<Item>>)
    requires |items| == Area(n, e)
    ensures |r| == n
  {
    if n == 0 then []
    else [items[..e]] + Chunks(items[e..], n - 1, e)
  }

  function Cells(req: InferenceRequest, name: string): (r: seq<seq<Item>>)
    requires Uniform(req) && name in Names(req.inputs)
    ensures |r| == RowCount(req)
  {
    var input := InputNamed(req.inputs, name);
    Chunks(input.data.items, RowCount(req), ElemSize(input.shape))
  }

  function RowsOf(req: InferenceRequest): seq<Row>
    requires Uniform(req)
  {
    seq(RowCount(req), i requires 0 <= i < RowCount(req) =>
      map name | name in Names(req.inputs) :: Cells(req, name)[i])
  }

  /** A model that maps every row on its own: its output heads may depend on the input heads' types,
      the items of an output row on the row and those types, on nothing else. */
  datatype RowModel = RowModel(
    name: string, version: Option<string>, parameters: Option<Params>,
    heads: Schema -> seq<OutputHead>, row: (Schema, Row) -> seq<seq<Item>>)

  ghost predicate FillsItsHeads(m: RowModel) {
    forall schema, row ::
      && |m.row(schema, row)| == |m.heads(schema)|
      && forall j :: 0 <= j < |m.row(schema, row)| ==>
                       |m.row(schema, row)[j]| == Product(m.heads(schema)[j].trail)
  }

  ghost function OutItems(m: RowModel, schema: Schema, rows: seq<Row>, j: nat): seq<Item>
    requires FillsItsHeads(m) && j < |m.heads(schema)|
  {
    if rows == [] then []
    else m.row(schema, rows[0])[j] + OutItems(m, schema, rows[1..], j)
  }

  ghost function PredictOutput(m: RowModel, req: InferenceRequest, j: nat): ResponseOutput
    requires FillsItsHeads(m) && Uniform(req) && j < |m.heads(SchemaOf(req))|
  {
    var head := m.heads(SchemaOf(req))[j];
    ResponseOutput(head.name, head.dtype, [RowCount(req)] + head.trail,
                   TensorData(head.kind, OutItems(m, SchemaOf(req), RowsOf(req), j)))
  }

  /** The response of the model to one request; it echoes the request's external id. */
  ghost function Predict(m: RowModel, req: InferenceRequest): InferenceResponse
    requires FillsItsHeads(m) && Uniform(req)
  {
    InferenceResponse(req.id, m.name, m.version, m.parameters,
                      seq(|m.heads(SchemaOf(req))|, j requires 0 <= j < |m.heads(SchemaOf(req))| =>
                        PredictOutput(m, req, j)))
  }

  // ---------- Requests that may share a batch ----------

  predicate AllOfSchema(reqs: Requests, schema: Schema) {
    forall k :: 0 <= k < |reqs| ==> Uniform(reqs[k].value) && SchemaOf(reqs[k].value) == schema
  }

  predicate Compatible(reqs: Requests) {
    && reqs != [] && Distinct(reqs)
    && Uniform(reqs[0].value) && AllOfSchema(reqs, SchemaOf(reqs[0].value))
  }

  /** The inputs of one head across the requests. */
  function Column(reqs: Requests, name: string): Head
    requires forall k :: 0 <= k < |reqs| ==> name in Names(reqs[k].value.inputs)
  {
    seq(|reqs|, k requires 0 <= k < |reqs| =>
      Entry(reqs[k].key, InputNamed(reqs[k].value.inputs, name)))
  }

  lemma {:induction false} SchemaNames(reqs: Requests, schema: Schema)
    requires AllOfSchema(reqs, schema)
    ensures forall k :: 0 <= k < |reqs| ==> Names(reqs[k].value.inputs) == schema.Keys
  {
    forall k | 0 <= k < |reqs| ensures Names(reqs[k].value.inputs) == schema.Keys {
      assert SchemaOf(reqs[k].value).Keys == Names(reqs[k].value.inputs);
    }
  }

  // ---------- The index has one full column per head ----------

  lemma {:induction false} PutTwice<V>(d: Odict<string, V>, k: string, v: V, w: V)
    ensures Put(Put(d, k, v), k, w) == Put(d, k, w)
  {
  }

  /** What one more input leaves under a head. */
  lemma {:induction false} AddInputHead(index: Heads, id: Id, input: RequestInput, name: string)
    ensures HeadOf(AddInput(index, id, input), name)
         == if name == input.name then Put(HeadOf(index, name), id, input) else HeadOf(index, name)
    ensures Has(AddInput(index, id, input), name) <==> Has(index, name) || name == input.name
    ensures Distinct(index) ==> Distinct(AddInput(index, id, input))
  {
    PutGets(index, input.name, Put(HeadOf(index, input.name), id, input), name);
  }

  lemma {:induction false} AddInputsHead(index: Heads, id: Id, inputs: seq<RequestInput>, name: string)
    ensures HeadOf(AddInputs(index, id, inputs), name)
         == if name in Names(inputs) then Put(HeadOf(index, name), id, InputNamed(inputs, name))
            else HeadOf(index, name)
    ensures Has(AddInputs(index, id, inputs), name) <==> Has(index, name) || name in Names(inputs)
    ensures Distinct(index) ==> Distinct(AddInputs(index, id, inputs))
  {
    if inputs != [] {
      var init, last := inputs[..|inputs| - 1], inputs[|inputs| - 1];
      AddInputsHead(index, id, init, name);
      AddInputHead(AddInputs(index, id, init), id, last, name);
      if name == last.name && name in Names(init) { PutTwice(HeadOf(index, name), id, InputNamed(init, name), last); }
    }
  }

  lemma {:induction false} ColumnSnoc(reqs: Requests, name: string)
    requires Distinct(reqs) && reqs != []
    requires forall k :: 0 <= k < |reqs| ==> name in Names(reqs[k].value.inputs)
    ensures Column(reqs, name) == Put(Column(reqs[..|reqs| - 1], name), reqs[|reqs| - 1].key,
                                      InputNamed(reqs[|reqs| - 1].value.inputs, name))
  {
    var column, last := Column(reqs[..|reqs| - 1], name), reqs[|reqs| - 1];
    assert forall i :: 0 <= i < |column| ==> column[i].key == reqs[i].key;
    PutNew(column, last.key, InputNamed(last.value.inputs, name));
  }

  lemma {:induction false} HeadIsColumn(reqs: Requests, names: set<string>, name: string)
    requires Distinct(reqs)
    requires forall k :: 0 <= k < |reqs| ==> Names(reqs[k].value.inputs) == names
    ensures HeadOf(IndexInputs(reqs), name) == if name in names then Column(reqs, name) else []
    ensures Has(IndexInputs(reqs), name) <==> reqs != [] && name in names
    ensures Distinct(IndexInputs(reqs))
  {
    if reqs != [] {
      var init, last := reqs[..|reqs| - 1], reqs[|reqs| - 1];
      HeadIsColumn(init, names, name);
      AddInputsHead(IndexInputs(init), last.key, last.value.inputs, name);
      if name in names { ColumnSnoc(reqs, name); }
    }
  }

  /** Every head of the index is the full column of that name, and there is a head for every name. */
  lemma {:induction false} IndexIsColumns(reqs: Requests, schema: Schema)
    requires Distinct(reqs) && reqs != [] && AllOfSchema(reqs, schema)
    ensures forall k :: 0 <= k < |reqs| ==> Names(reqs[k].value.inputs) == schema.Keys
    ensures Distinct(IndexInputs(reqs))
    ensures var heads := IndexInputs(reqs);
            && (forall name :: Has(heads, name) <==> name in schema)
            && forall i :: 0 <= i < |heads| ==>
                             heads[i].key in schema && heads[i].value == Column(reqs, heads[i].key)
  {
    SchemaNames(reqs, schema);
    var heads := IndexInputs(reqs);
    forall name ensures Has(heads, name) <==> name in schema {
      HeadIsColumn(reqs, schema.Keys, name);
    }
    HeadIsColumn(reqs, schema.Keys, "");
    forall i | 0 <= i < |heads|
      ensures heads[i].key in schema && heads[i].value == Column(reqs, heads[i].key)
    {
      FindAt(heads, i);
      HeadIsColumn(reqs, schema.Keys, heads[i].key);
    }
  }

  // ---------- The merged request ----------

  function RowTotal(reqs: Requests): nat {
    if reqs == [] then 0 else RowTotal(reqs[..|reqs| - 1]) + RowCount(reqs[|reqs| - 1].value)
  }

  /** The rows of all requests, one request after the other. */
  function AllRows(reqs: Requests): seq<Row>
    requires forall k :: 0 <= k < |reqs| ==> Uniform(reqs[k].value)
  {
    if reqs == [] then [] else AllRows(reqs[..|reqs| - 1]) + RowsOf(reqs[|reqs| - 1].value)
  }

  lemma {:induction false} ChunksConcat(a: seq<Item>, b: seq<Item>, na: nat, nb: nat, e: nat)
    requires |a| == Area(na, e) && |b| == Area(nb, e)
    ensures |a + b| == Area(na + nb, e)
    ensures Chunks(a + b, na + nb, e) == Chunks(a, na, e) + Chunks(b, nb, e)
  {
    AreaAdds(na, nb, e);
    if na == 0 {
      assert a + b == b;
      assert Chunks(a, na, e) == [];
    } else {
      ChunksConcat(a[e..], b, na - 1, nb, e);
      ChunksSplit(a + b, na + nb, e);
      ChunksSplit(a, na, e);
      assert (a + b)[..e] == a[..e] && (a + b)[e..] == a[e..] + b;
    }
  }

  lemma {:induction false} ChunksSplit(items: seq<Item>, n: nat, e: nat)
    requires n > 0 && |items| == Area(n, e)
    ensures e <= |items| && Chunks(items, n, e) == [items[..e]] + Chunks(items[e..], n - 1, e)
  {
  }

  /** Every input of the head is flat, with `e` items per row. */
  predicate FlatHead(head: Head, e: nat) {
    forall k :: 0 <= k < |head| ==>
                  && head[k].value.shape != []
                  && |head[k].value.data.items| == Area(head[k].value.shape[0], e)
  }

  function HeadCells(head: Head, e: nat): seq<seq<Item>>
    requires FlatHead(head, e)
  {
    if head == [] then []
    else
      var last := head[|head| - 1].value;
      HeadCells(head[..|head| - 1], e) + Chunks(last.data.items, last.shape[0], e)
  }

  /** Cutting the joined data into rows gives the rows of the parts, in order. */
  lemma {:induction false} JoinedCells(head: Head, e: nat)
    requires FlatHead(head, e)
    ensures |JoinItems(head)| == Area(TotalRows(head), e)
    ensures Chunks(JoinItems(head), TotalRows(head), e) == HeadCells(head, e)
  {
    if head != [] {
      var init, last := head[..|head| - 1], head[|head| - 1].value;
      JoinedCells(init, e);
      ChunksConcat(JoinItems(init), last.data.items, TotalRows(init), last.shape[0], e);
    }
  }

  /** The head `name` of every request is typed as the schema says. */
  predicate TypedColumn(reqs: Requests, name: string, headType: HeadType) {
    forall k :: 0 <= k < |reqs| ==>
                  && Uniform(reqs[k].value) && name in Names(reqs[k].value.inputs)
                  && var input := InputNamed(reqs[k].value.inputs, name);
                     input.shape != [] && TypeOf(input) == headType
  }

  lemma {:induction false} SchemaTypesColumns(reqs: Requests, schema: Schema, name: string)
    requires AllOfSchema(reqs, schema) && name in schema
    ensures TypedColumn(reqs, name, schema[name])
  {
    forall k | 0 <= k < |reqs|
      ensures && name in Names(reqs[k].value.inputs)
              && InputNamed(reqs[k].value.inputs, name).shape != []
              && TypeOf(InputNamed(reqs[k].value.inputs, name)) == schema[name]
    {
      assert SchemaOf(reqs[k].value).Keys == Names(reqs[k].value.inputs);
      assert SchemaOf(reqs[k].value)[name] == TypeOf(InputNamed(reqs[k].value.inputs, name));
    }
  }

  /** The cells one request's rows hold under `name`. */
  lemma {:induction false} RequestCells(req: InferenceRequest, name: string, headType: HeadType)
    requires Uniform(req) && name in Names(req.inputs)
    requires var input := InputNamed(req.inputs, name); input.shape != [] && TypeOf(input) == headType
    ensures var input := InputNamed(req.inputs, name);
            && input.shape[0] == RowCount(req)
            && |input.data.items| == Area(RowCount(req), Product(headType.trail))
            && forall i :: 0 <= i < RowCount(req) ==>
                             && name in RowsOf(req)[i]
                             && RowsOf(req)[i][name]
                             == Chunks(input.data.items, RowCount(req), Product(headType.trail))[i]
  {
    assert InputNamed(req.inputs, name) in req.inputs;
    forall i | 0 <= i < RowCount(req) ensures RowsOf(req)[i][name] == Cells(req, name)[i] {
    }
  }

  lemma {:induction false} ColumnInit(reqs: Requests, name: string, headType: HeadType)
    requires reqs != [] && TypedColumn(reqs, name, headType)
    ensures TypedColumn(reqs[..|reqs| - 1], name, headType)
    ensures Column(reqs, name)[..|reqs| - 1] == Column(reqs[..|reqs| - 1], name)
    ensures var last := reqs[|reqs| - 1];
            Column(reqs, name)[|reqs| - 1] == Entry(last.key, InputNamed(last.value.inputs, name))
  {
  }

  lemma {:induction false} ColumnIsFlat(reqs: Requests, name: string, headType: HeadType)
    requires TypedColumn(reqs, name, headType)
    ensures FlatHead(Column(reqs, name), Product(headType.trail))
    ensures forall k :: 0 <= k < |reqs| ==> Column(reqs, name)[k].value.shape[0] == RowCount(reqs[k].value)
  {
    forall k | 0 <= k < |reqs|
      ensures var input := Column(reqs, name)[k].value;
              && input.shape != [] && input.shape[0] == RowCount(reqs[k].value)
              && |input.data.items| == Area(input.shape[0], Product(headType.trail))
    {
      RequestCells(reqs[k].value, name, headType);
    }
  }

  /** The cells of a column are the cells of all rows. */
  lemma {:induction false} ColumnCells(reqs: Requests, name: string, headType: HeadType)
    requires TypedColumn(reqs, name, headType)
    requires FlatHead(Column(reqs, name), Product(headType.trail))
    ensures TotalRows(Column(reqs, name)) == RowTotal(reqs) == |AllRows(reqs)|
    ensures var cells := HeadCells(Column(reqs, name), Product(headType.trail));
            && |cells| == RowTotal(reqs)
            && forall i :: 0 <= i < |cells| ==> name in AllRows(reqs)[i] && AllRows(reqs)[i][name] == cells[i]
  {
    if reqs != [] {
      var init, last := reqs[..|reqs| - 1], reqs[|reqs| - 1].value;
      ColumnInit(reqs, name, headType);
      ColumnCells(init, name, headType);
      RequestCells(last, name, headType);
    }
  }

  lemma {:induction false} RowKeys(reqs: Requests, names: set<string>)
    requires forall k :: 0 <= k < |reqs| ==> Uniform(reqs[k].value) && Names(reqs[k].value.inputs) == names
    ensures forall i :: 0 <= i < |AllRows(reqs)| ==> AllRows(reqs)[i].Keys == names
  {
    if reqs != [] { RowKeys(reqs[..|reqs| - 1], names); }
  }

  predicate AgreeOnContent(ps: seq<Option<Params>>, contentType: Option<ParamValue>) {
    forall i :: 0 <= i < |ps| ==> ContentType(ps[i]) == contentType
  }

  lemma {:induction false} HeldContent(ps: seq<Option<Params>>, contentType: Option<ParamValue>)
    requires ps != [] && AgreeOnContent(ps, contentType)
    ensures var held := Held(ps, "content_type");
            if contentType.None? then held == [] else held != [] && held[|held| - 1] == contentType.value
  {
    var n := |ps| - 1;
    assert ContentType(ps[n]) == contentType;
    if n > 0 { HeldContent(ps[..n], contentType); }
  }

  /** Requests that agree on a head's content type keep it when they are merged. */
  lemma {:induction false} MergingKeepsContentType(head: Head, contentType: Option<ParamValue>)
    requires MergeableHead(head) && AgreeOnContent(ParametersOf(head), contentType)
    ensures ContentType(MergeHead(head).parameters) == contentType
  {
    HeldContent(ParametersOf(head), contentType);
    MergedHeadCollectsParameters(head, "content_type");
  }

  lemma {:induction false} ColumnMergesType(reqs: Requests, name: string, headType: HeadType)
    requires reqs != [] && TypedColumn(reqs, name, headType) && MergeableHead(Column(reqs, name))
    ensures var merged := MergeHead(Column(reqs, name)); merged.shape != [] && TypeOf(merged) == headType
  {
    var ps := ParametersOf(Column(reqs, name));
    forall k | 0 <= k < |ps| ensures ContentType(ps[k]) == headType.contentType {
      assert TypeOf(InputNamed(reqs[k].value.inputs, name)) == headType;
    }
    MergingKeepsContentType(Column(reqs, name), headType.contentType);
  }

  lemma {:induction false} ColumnIsMergeable(reqs: Requests, name: string, headType: HeadType)
    requires reqs != [] && TypedColumn(reqs, name, headType)
    ensures MergeableHead(Column(reqs, name))
  {
    var head := Column(reqs, name);
    forall k | 0 <= k < |head| ensures head[k].value.shape != [] && head[k].value.data.kind == headType.kind {
      assert TypeOf(InputNamed(reqs[k].value.inputs, name)) == headType;
    }
  }

  lemma {:induction false} ColumnMerges(reqs: Requests, name: string, headType: HeadType)
    requires reqs != [] && TypedColumn(reqs, name, headType)
    ensures MergeableHead(Column(reqs, name))
    ensures var merged := MergeHead(Column(reqs, name));
            && merged.name == name && merged.shape != [] && TypeOf(merged) == headType
            && merged.shape[0] == RowTotal(reqs)
            && |merged.data.items| == Area(RowTotal(reqs), Product(headType.trail))
            && Chunks(merged.data.items, RowTotal(reqs), Product(headType.trail))
            == HeadCells(Column(reqs, name), Product(headType.trail))
  {
    ColumnIsMergeable(reqs, name, headType);
    ColumnMergesType(reqs, name, headType);
    ColumnIsFlat(reqs, name, headType);
    ColumnCells(reqs, name, headType);
    JoinedCells(Column(reqs, name), Product(headType.trail));
  }

  // ---------- The merged request ----------

  lemma {:induction false} NamesFollowHeads(inputs: seq<RequestInput>, heads: Heads, name: string)
    requires |inputs| == |heads|
    requires forall i :: 0 <= i < |heads| ==> inputs[i].name == heads[i].key
    ensures name in Names(inputs) <==> Has(heads, name)
  {
    if inputs != [] {
      var n := |heads| - 1;
      NamesFollowHeads(inputs[..n], heads[..n], name);
      HasSnoc(heads, name);
    }
  }

  /** What the merged input of one head is. */
  ghost predicate IsMergedColumn(reqs: Requests, schema: Schema, input: RequestInput) {
    && input.name in schema && TypedColumn(reqs, input.name, schema[input.name])
    && MergeableHead(Column(reqs, input.name))
    && input == MergeHead(Column(reqs, input.name))
  }

  lemma {:induction false} HeadMerges(reqs: Requests, schema: Schema, i: nat)
    requires Distinct(reqs) && reqs != [] && AllOfSchema(reqs, schema) && i < |IndexInputs(reqs)|
    ensures var head := IndexInputs(reqs)[i];
            && head.key in schema && TypedColumn(reqs, head.key, schema[head.key])
            && head.value == Column(reqs, head.key) && MergeableHead(head.value)
            && MergeHead(head.value).name == head.key
            && IsMergedColumn(reqs, schema, MergeHead(head.value))
  {
    IndexIsColumns(reqs, schema);
    var name := IndexInputs(reqs)[i].key;
    SchemaTypesColumns(reqs, schema, name);
    ColumnMerges(reqs, name, schema[name]);
  }

  lemma {:induction false} SameSchemaMerges(reqs: Requests, schema: Schema)
    requires Distinct(reqs) && reqs != [] && AllOfSchema(reqs, schema)
    ensures Mergeable(reqs)
  {
    forall i | 0 <= i < |IndexInputs(reqs)| ensures MergeableHead(IndexInputs(reqs)[i].value) {
      HeadMerges(reqs, schema, i);
    }
  }

  lemma {:induction false} MergedNames(reqs: Requests, schema: Schema)
    requires Distinct(reqs) && reqs != [] && AllOfSchema(reqs, schema) && Mergeable(reqs)
    ensures Names(Merged(reqs).inputs) == schema.Keys
  {
    var heads, inputs := IndexInputs(reqs), Merged(reqs).inputs;
    forall i | 0 <= i < |heads| ensures inputs[i].name == heads[i].key {
      HeadMerges(reqs, schema, i);
    }
    forall name ensures name in Names(inputs) <==> name in schema {
      IndexIsColumns(reqs, schema);
      NamesFollowHeads(inputs, heads, name);
    }
  }

  /** The merged request has one input per head: that head's merged column. */
  lemma {:induction false} MergedInputs(reqs: Requests, schema: Schema)
    requires Distinct(reqs) && reqs != [] && AllOfSchema(reqs, schema)
    ensures Mergeable(reqs) && Names(Merged(reqs).inputs) == schema.Keys
    ensures forall input :: input in Merged(reqs).inputs ==> IsMergedColumn(reqs, schema, input)
  {
    SameSchemaMerges(reqs, schema);
    MergedNames(reqs, schema);
    forall input | input in Merged(reqs).inputs ensures IsMergedColumn(reqs, schema, input) {
      var i :| 0 <= i < |Merged(reqs).inputs| && Merged(reqs).inputs[i] == input;
      HeadMerges(reqs, schema, i);
    }
  }

  lemma {:induction false} MergedInputIsFlat(reqs: Requests, schema: Schema, input: RequestInput)
    requires reqs != [] && IsMergedColumn(reqs, schema, input)
    ensures && input.shape != [] && input.shape[0] == RowTotal(reqs)
            && |input.data.items| == Area(RowTotal(reqs), ElemSize(input.shape))
            && TypeOf(input) == schema[input.name]
  {
    ColumnMerges(reqs, input.name, schema[input.name]);
  }

  /** Merging keeps the schema ... */
  lemma {:induction false} MergedSchema(reqs: Requests, schema: Schema)
    requires Distinct(reqs) && reqs != [] && AllOfSchema(reqs, schema) && schema.Keys != {}
    ensures Mergeable(reqs) && Uniform(Merged(reqs))
    ensures SchemaOf(Merged(reqs)) == schema
    ensures RowCount(Merged(reqs)) == RowTotal(reqs)
  {
    MergedInputs(reqs, schema);
    assert Merged(reqs).inputs != [];
    MergedIsUniform(reqs, schema);
    SchemaFromInputs(Merged(reqs), schema);
  }

  lemma {:induction false} SchemaFromInputs(req: InferenceRequest, schema: Schema)
    requires Uniform(req) && Names(req.inputs) == schema.Keys
    requires forall input :: input in req.inputs ==> input.name in schema && TypeOf(input) == schema[input.name]
    ensures SchemaOf(req) == schema
  {
  }

  lemma {:induction false} MergedIsUniform(reqs: Requests, schema: Schema)
    requires reqs != [] && Mergeable(reqs) && Merged(reqs).inputs != []
    requires forall input :: input in Merged(reqs).inputs ==> IsMergedColumn(reqs, schema, input)
    ensures Uniform(Merged(reqs)) && RowCount(Merged(reqs)) == RowTotal(reqs)
    ensures forall input :: input in Merged(reqs).inputs ==>
                              input.name in schema && TypeOf(input) == schema[input.name]
  {
    var inputs := Merged(reqs).inputs;
    MergedInputIsFlat(reqs, schema, inputs[0]);
    forall input | input in inputs
      ensures && input.shape != [] && input.shape[0] == RowTotal(reqs)
              && |input.data.items| == Area(RowTotal(reqs), ElemSize(input.shape))
              && input.name in schema && TypeOf(input) == schema[input.name]
    {
      MergedInputIsFlat(reqs, schema, input);
    }
  }

  /** ... and lines the rows of the requests up. */
  lemma {:induction false} MergedRows(reqs: Requests, schema: Schema)
    requires Distinct(reqs) && reqs != [] && AllOfSchema(reqs, schema) && schema.Keys != {}
    ensures Mergeable(reqs) && Uniform(Merged(reqs))
    ensures RowsOf(Merged(reqs)) == AllRows(reqs)
  {
    MergedSchema(reqs, schema);
    MergedNames(reqs, schema);
    SchemaNames(reqs, schema);
    RowKeys(reqs, schema.Keys);
    AllRowsCount(reqs);
    MergedCells(reqs, schema, Merged(reqs), AllRows(reqs));
    SameCellsSameRows(Merged(reqs), AllRows(reqs));
  }

  lemma {:induction false} MergedCells(reqs: Requests, schema: Schema, merged: InferenceRequest, rows: seq<Row>)
    requires Distinct(reqs) && reqs != [] && AllOfSchema(reqs, schema)
    requires Mergeable(reqs) && merged == Merged(reqs) && Uniform(merged) && RowCount(merged) == RowTotal(reqs)
    requires Names(merged.inputs) == schema.Keys
    requires rows == AllRows(reqs) && |rows| == RowTotal(reqs)
    requires forall i :: 0 <= i < |rows| ==> rows[i].Keys == schema.Keys
    ensures SameCells(merged, rows)
  {
    forall i: nat, name | i < |rows| && name in rows[i] ensures Cells(merged, name)[i] == rows[i][name] {
      MergedCell(reqs, schema, name, i);
    }
  }

  predicate SameCells(req: InferenceRequest, rows: seq<Row>)
    requires Uniform(req) && |rows| == RowCount(req)
    requires forall i :: 0 <= i < |rows| ==> rows[i].Keys == Names(req.inputs)
  {
    forall i: nat, name :: i < |rows| && name in rows[i] ==> Cells(req, name)[i] == rows[i][name]
  }

  lemma {:induction false} SameCellsSameRows(req: InferenceRequest, rows: seq<Row>)
    requires Uniform(req) && |rows| == RowCount(req)
    requires forall i :: 0 <= i < |rows| ==> rows[i].Keys == Names(req.inputs)
    requires SameCells(req, rows)
    ensures RowsOf(req) == rows
  {
    forall i | 0 <= i < |rows| ensures RowsOf(req)[i] == rows[i] {
      assert RowsOf(req)[i].Keys == rows[i].Keys;
    }
  }

  lemma {:induction false} AllRowsCount(reqs: Requests)
    requires forall k :: 0 <= k < |reqs| ==> Uniform(reqs[k].value)
    ensures RowTotal(reqs) == |AllRows(reqs)|
  {
    if reqs != [] { AllRowsCount(reqs[..|reqs| - 1]); }
  }

  lemma {:induction false} MergedCell(reqs: Requests, schema: Schema, name: string, i: nat)
    requires Distinct(reqs) && reqs != [] && AllOfSchema(reqs, schema) && name in schema
    requires Mergeable(reqs) && Uniform(Merged(reqs)) && name in Names(Merged(reqs).inputs)
    requires RowCount(Merged(reqs)) == RowTotal(reqs) && i < RowTotal(reqs) == |AllRows(reqs)|
    ensures name in AllRows(reqs)[i] && Cells(Merged(reqs), name)[i] == AllRows(reqs)[i][name]
  {
    MergedInputs(reqs, schema);
    var input := InputNamed(Merged(reqs).inputs, name);
    assert IsMergedColumn(reqs, schema, input);
    ColumnMerges(reqs, name, schema[name]);
    ColumnIsFlat(reqs, name, schema[name]);
    ColumnCells(reqs, name, schema[name]);
  }

  lemma {:induction false} SchemaIsNotEmpty(req: InferenceRequest)
    requires Uniform(req)
    ensures SchemaOf(req).Keys != {}
  {
    assert req.inputs[|req.inputs| - 1].name in SchemaOf(req);
  }

  // ---------- The minibatch sizes ----------

  function RowCounts(reqs: Requests): Odict<Id, nat> {
    seq(|reqs|, k requires 0 <= k < |reqs| => Entry(reqs[k].key, RowCount(reqs[k].value)))
  }

  /** The head has an input of every one of the first requests, with that request's number of rows. */
  predicate SizedLike(reqs: Requests, head: Head) {
    && |head| <= |reqs|
    && forall k :: 0 <= k < |head| ==>
                     && head[k].key == reqs[k].key && head[k].value.shape != []
                     && head[k].value.shape[0] == RowCount(reqs[k].value)
  }

  lemma {:induction false} RowCountsSnoc(reqs: Requests)
    requires Distinct(reqs) && reqs != []
    ensures var last := reqs[|reqs| - 1];
            Put(RowCounts(reqs[..|reqs| - 1]), last.key, RowCount(last.value)) == RowCounts(reqs)
  {
    var sizes, last := RowCounts(reqs[..|reqs| - 1]), reqs[|reqs| - 1];
    assert forall i :: 0 <= i < |sizes| ==> sizes[i].key == reqs[i].key;
    PutNew(sizes, last.key, RowCount(last.value));
  }

  lemma {:induction false} FirstHeadSizes(reqs: Requests, head: Head)
    requires Distinct(reqs) && SizedLike(reqs, head) && |head| == |reqs|
    ensures HeadSizes([], head) == RowCounts(reqs)
  {
    if reqs != [] {
      FirstHeadSizes(reqs[..|reqs| - 1], head[..|reqs| - 1]);
      RowCountsSnoc(reqs);
    }
  }

  lemma {:induction false} RowCountsAreDistinct(reqs: Requests)
    requires Distinct(reqs)
    ensures Distinct(RowCounts(reqs))
  {
    var sizes := RowCounts(reqs);
    assert forall i :: 0 <= i < |sizes| ==> sizes[i].key == reqs[i].key;
  }

  lemma {:induction false} LaterHeadSizes(reqs: Requests, head: Head)
    requires Distinct(reqs) && SizedLike(reqs, head)
    ensures HeadSizes(RowCounts(reqs), head) == RowCounts(reqs)
  {
    if head != [] {
      var n := |head| - 1;
      LaterHeadSizes(reqs, head[..n]);
      RowCountsAreDistinct(reqs);
      FindAt(RowCounts(reqs), n);
    }
  }

  lemma {:induction false} ColumnIsSized(reqs: Requests, name: string, headType: HeadType)
    requires TypedColumn(reqs, name, headType)
    ensures SizedLike(reqs, Column(reqs, name))
  {
    ColumnIsFlat(reqs, name, headType);
  }

  lemma {:induction false} HeadsSizesAreRowCounts(reqs: Requests, schema: Schema, heads: Heads)
    requires Distinct(reqs) && MergeableHeads(heads)
    requires forall i :: 0 <= i < |heads| ==>
                           && heads[i].key in schema && TypedColumn(reqs, heads[i].key, schema[heads[i].key])
                           && heads[i].value == Column(reqs, heads[i].key)
    ensures HeadsSizes(heads) == if heads == [] then [] else RowCounts(reqs)
  {
    if heads != [] {
      var n := |heads| - 1;
      HeadsSizesAreRowCounts(reqs, schema, heads[..n]);
      ColumnIsSized(reqs, heads[n].key, schema[heads[n].key]);
      if n == 0 { FirstHeadSizes(reqs, heads[n].value); } else { LaterHeadSizes(reqs, heads[n].value); }
    }
  }

  lemma {:induction false} SizesAreRowCounts(reqs: Requests, schema: Schema)
    requires Distinct(reqs) && reqs != [] && AllOfSchema(reqs, schema) && schema.Keys != {}
    ensures Mergeable(reqs) && Sizes(reqs) == RowCounts(reqs)
  {
    MergedInputs(reqs, schema);
    var heads := IndexInputs(reqs);
    forall i | 0 <= i < |heads|
      ensures && heads[i].key in schema && TypedColumn(reqs, heads[i].key, schema[heads[i].key])
              && heads[i].value == Column(reqs, heads[i].key)
    {
      HeadMerges(reqs, schema, i);
    }
    HeadsSizesAreRowCounts(reqs, schema, heads);
  }

  // ---------- The response ----------

  lemma {:induction false} OutItemsConcat(m: RowModel, schema: Schema, a: seq<Row>, b: seq<Row>, j: nat)
    requires FillsItsHeads(m) && j < |m.heads(schema)|
    ensures OutItems(m, schema, a + b, j) == OutItems(m, schema, a, j) + OutItems(m, schema, b, j)
  {
    if a == [] {
      assert a + b == b;
    } else {
      assert (a + b)[1..] == a[1..] + b;
      OutItemsConcat(m, schema, a[1..], b, j);
    }
  }

  lemma {:induction false} OutItemsLength(m: RowModel, schema: Schema, rows: seq<Row>, j: nat)
    requires FillsItsHeads(m) && j < |m.heads(schema)|
    ensures |OutItems(m, schema, rows, j)| == Area(|rows|, Product(m.heads(schema)[j].trail))
  {
    if rows != [] {
      OutItemsLength(m, schema, rows[1..], j);
      assert |m.row(schema, rows[0])| == |m.heads(schema)|;
    }
  }

  lemma {:induction false} Regroup(a: seq<Row>, b: seq<Row>, c: seq<Row>, d: seq<Row>)
    ensures (a + b + c) + d == a + b + (c + d)
  {
  }

  lemma {:induction false} AllRowsAround(reqs: Requests, k: nat) returns (rest: seq<Row>)
    requires k < |reqs| && forall i :: 0 <= i < |reqs| ==> Uniform(reqs[i].value)
    ensures AllRows(reqs) == AllRows(reqs[..k]) + RowsOf(reqs[k].value) + rest
  {
    var n := |reqs| - 1;
    if k == n {
      rest := [];
    } else {
      var before := AllRowsAround(reqs[..n], k);
      assert reqs[..n][..k] == reqs[..k] && reqs[..n][k] == reqs[k];
      rest := before + RowsOf(reqs[n].value);
      Regroup(AllRows(reqs[..k]), RowsOf(reqs[k].value), before, RowsOf(reqs[n].value));
    }
  }

  lemma {:induction false} OffsetOfRequest(reqs: Requests, width: nat, k: nat)
    requires k <= |reqs|
    ensures Offset(Lengths(RowCounts(reqs), width), k) == Area(RowTotal(reqs[..k]), width)
  {
    if k > 0 {
      OffsetOfRequest(reqs, width, k - 1);
      assert reqs[..k][..k - 1] == reqs[..k - 1];
      AreaAdds(RowTotal(reqs[..k - 1]), RowCount(reqs[k - 1].value), width);
    }
  }

  /** The slice of the batched data at a request's offset is that request's own data. */
  lemma {:induction false} SliceIsOwnData(m: RowModel, reqs: Requests, schema: Schema, j: nat, k: nat)
    requires FillsItsHeads(m) && AllOfSchema(reqs, schema) && j < |m.heads(schema)| && k < |reqs|
    ensures DataPart(Lengths(RowCounts(reqs), Product(m.heads(schema)[j].trail)),
                     OutItems(m, schema, AllRows(reqs), j), k)
         == OutItems(m, schema, RowsOf(reqs[k].value), j)
  {
    var width, own := Product(m.heads(schema)[j].trail), RowsOf(reqs[k].value);
    var before := AllRows(reqs[..k]);
    var rest := AllRowsAround(reqs, k);
    OutItemsConcat(m, schema, before + own, rest, j);
    OutItemsConcat(m, schema, before, own, j);
    OutItemsLength(m, schema, before, j);
    OutItemsLength(m, schema, own, j);
    AllRowsCount(reqs[..k]);
    OffsetOfRequest(reqs, width, k);
  }

  ghost function Alone(m: RowModel, reqs: Requests): Odict<Id, InferenceResponse>
    requires FillsItsHeads(m) && forall k :: 0 <= k < |reqs| ==> Uniform(reqs[k].value)
  {
    seq(|reqs|, k requires 0 <= k < |reqs| => Entry(reqs[k].key, Predict(m, reqs[k].value)))
  }

  lemma {:induction false} ExternalIdAt(reqs: Requests, k: nat)
    requires Distinct(reqs) && k < |reqs|
    ensures Has(ExternalIds(reqs), reqs[k].key)
    ensures Get(ExternalIds(reqs), reqs[k].key) == reqs[k].value.id
  {
    var ids := ExternalIds(reqs);
    assert forall i :: 0 <= i < |ids| ==> ids[i].key == reqs[i].key;
    FindAt(ids, k);
  }

  lemma {:induction false} OutputPartIsAlone(m: RowModel, reqs: Requests, schema: Schema, j: nat, k: nat)
    requires FillsItsHeads(m) && AllOfSchema(reqs, schema) && k < |reqs| && j < |m.heads(schema)|
    requires Mergeable(reqs) && Uniform(Merged(reqs)) && SchemaOf(Merged(reqs)) == schema
    requires RowsOf(Merged(reqs)) == AllRows(reqs)
    ensures OutputPart(RowCounts(reqs), PredictOutput(m, Merged(reqs), j), k) == PredictOutput(m, reqs[k].value, j)
  {
    SliceIsOwnData(m, reqs, schema, j, k);
    assert SchemaOf(reqs[k].value) == schema;
    assert PredictOutput(m, Merged(reqs), j).shape[1..] == m.heads(schema)[j].trail;
  }

  lemma {:induction false} OutputsAreAlone(m: RowModel, reqs: Requests, schema: Schema, k: nat)
    requires FillsItsHeads(m) && AllOfSchema(reqs, schema) && k < |reqs|
    requires Mergeable(reqs) && Uniform(Merged(reqs)) && SchemaOf(Merged(reqs)) == schema
    requires RowsOf(Merged(reqs)) == AllRows(reqs)
    ensures var response, own := Predict(m, Merged(reqs)), Predict(m, reqs[k].value);
            && |response.outputs| == |own.outputs| && Splittable(response)
            && forall j :: 0 <= j < |own.outputs| ==>
                             OutputPart(RowCounts(reqs), response.outputs[j], k) == own.outputs[j]
  {
    assert SchemaOf(reqs[k].value) == schema;
    forall j | 0 <= j < |m.heads(schema)|
      ensures OutputPart(RowCounts(reqs), PredictOutput(m, Merged(reqs), j), k) == PredictOutput(m, reqs[k].value, j)
    {
      OutputPartIsAlone(m, reqs, schema, j, k);
    }
  }

  lemma {:induction false} PartIsAlone(m: RowModel, reqs: Requests, schema: Schema, k: nat)
    requires FillsItsHeads(m) && Distinct(reqs) && AllOfSchema(reqs, schema) && k < |reqs|
    requires Mergeable(reqs) && Uniform(Merged(reqs)) && SchemaOf(Merged(reqs)) == schema
    requires RowsOf(Merged(reqs)) == AllRows(reqs)
    requires Splittable(Predict(m, Merged(reqs)))
    requires KnownIds(ExternalIds(reqs), RowCounts(reqs))
    ensures var response := Predict(m, Merged(reqs));
            ResponsePart(ExternalIds(reqs), RowCounts(reqs), response, |response.outputs|, k)
            == Predict(m, reqs[k].value)
  {
    ExternalIdAt(reqs, k);
    OutputsAreAlone(m, reqs, schema, k);
  }

  /** Batching transparency. For any batch of requests with the same heads (in any order), one
      leading dimension per request and equal trailing dimensions and types per head, and any model
      that acts row by row and has an output: the split of the batched response gives every internal
      id, in request order, exactly the response the model gives to that request alone. */
  lemma {:induction false} BatchingIsTransparent(m: RowModel, reqs: Requests)
    requires FillsItsHeads(m) && Compatible(reqs)
    requires m.heads(SchemaOf(reqs[0].value)) != []
    ensures Mergeable(reqs) && Uniform(Merged(reqs)) && Splittable(Predict(m, Merged(reqs)))
    ensures KnownIds(ExternalIds(reqs), Sizes(reqs))
    ensures Parts(ExternalIds(reqs), Sizes(reqs), Predict(m, Merged(reqs))) == Alone(m, reqs)
  {
    var schema := SchemaOf(reqs[0].value);
    SchemaIsNotEmpty(reqs[0].value);
    MergedSchema(reqs, schema);
    MergedNames(reqs, schema);
    MergedRows(reqs, schema);
    SizesAreRowCounts(reqs, schema);
    SizesAreDistinctKnownIds(reqs);
    PartsAreAlone(m, reqs, schema);
  }

  lemma {:induction false} OutputsSplit(m: RowModel, req: InferenceRequest)
    requires FillsItsHeads(m) && Uniform(req)
    ensures Splittable(Predict(m, req)) && |Predict(m, req).outputs| == |m.heads(SchemaOf(req))|
  {
  }

  lemma {:induction false} PartsAreAlone(m: RowModel, reqs: Requests, schema: Schema)
    requires FillsItsHeads(m) && Distinct(reqs) && AllOfSchema(reqs, schema) && m.heads(schema) != []
    requires Mergeable(reqs) && Uniform(Merged(reqs)) && SchemaOf(Merged(reqs)) == schema
    requires RowsOf(Merged(reqs)) == AllRows(reqs)
    requires KnownIds(ExternalIds(reqs), RowCounts(reqs))
    ensures Splittable(Predict(m, Merged(reqs)))
    ensures Parts(ExternalIds(reqs), RowCounts(reqs), Predict(m, Merged(reqs))) == Alone(m, reqs)
  {
    var response := Predict(m, Merged(reqs));
    OutputsSplit(m, Merged(reqs));
    forall k | 0 <= k < |reqs|
      ensures ResponsePart(ExternalIds(reqs), RowCounts(reqs), response, |response.outputs|, k)
           == Predict(m, reqs[k].value)
    {
      PartIsAlone(m, reqs, schema, k);
    }
    SameParts(ExternalIds(reqs), RowCounts(reqs), response, Alone(m, reqs));
  }

  lemma {:induction false} SameParts(ids: Odict<Id, Option<string>>, sizes: Odict<Id, nat>,
                                     response: InferenceResponse, parts: Odict<Id, InferenceResponse>)
    requires Splittable(response) && KnownIds(ids, sizes) && response.outputs != [] && |parts| == |sizes|
    requires forall k :: 0 <= k < |parts| ==>
                           parts[k] == Entry(sizes[k].key, ResponsePart(ids, sizes, response, |response.outputs|, k))
    ensures Parts(ids, sizes, response) == parts
  {
  }
}
