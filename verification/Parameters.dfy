/** mlserver/batching/requests.py:35-79: merging the parameters of requests, outputs and input heads. */
module Parameters {
  import opened OrderedDict

  datatype ParamValue = Atom(text: string) | Many(items: seq<ParamValue>)

  /** What `model_dump` yields: set, non-null entries only. */
  type Params = map<string, ParamValue>

  const CONTENT_TYPE := "content_type"
  const HEADERS := "headers"

  predicate KeepsLast(key: string) {
    key == CONTENT_TYPE || key == HEADERS
  }

  /** How a key held on both sides is combined. */
  function Append(collected: ParamValue, value: ParamValue): ParamValue {
    if collected.Many? then Many(collected.items + [value]) else Many([collected, value])
  }

  function MergeInputParameters(all: Params, obj: Option<Params>): Params {
    if obj.None? then all
    else
      map key | key in all.Keys + obj.value.Keys ::
        if key !in obj.value then all[key]
        else if key !in all || KeepsLast(key) then obj.value[key]
        else Append(all[key], obj.value[key])
  }

  /** `_merge_input_parameters`, with its two loops over the common and the other keys. */
  method MergeInputParametersLoop(all: Params, obj: Option<Params>) returns (r: Params)
    ensures r == MergeInputParameters(all, obj)
  {
    if obj.None? { return all; }
    var objParams := obj.value;
    if all == map[] { return objParams; }
    var commonKeys := (all.Keys * objParams.Keys) - {CONTENT_TYPE, HEADERS};
    var uncommonKeys := (all.Keys + objParams.Keys) - commonKeys;
    r := map[];
    var todo := commonKeys;
    while todo != {}
      invariant todo <= commonKeys
      invariant r.Keys == commonKeys - todo
      invariant forall key :: key in r ==> r[key] == Append(all[key], objParams[key])
      decreases todo
    {
      var key :| key in todo;
      if all[key].Many? {
        r := r[key := Many(all[key].items + [objParams[key]])];
      } else {
        r := r[key := Many([all[key]] + [objParams[key]])];
      }
      todo := todo - {key};
    }
    todo := uncommonKeys;
    while todo != {}
      invariant todo <= uncommonKeys
      invariant r.Keys == commonKeys + (uncommonKeys - todo)
      invariant forall key :: key in commonKeys ==> r[key] == Append(all[key], objParams[key])
      invariant forall key :: key in uncommonKeys - todo ==>
                                r[key] == if key in objParams then objParams[key] else all[key]
      decreases todo
    {
      var key :| key in todo;
      if key in all { r := r[key := all[key]]; }
      if key in objParams { r := r[key := objParams[key]]; }
      todo := todo - {key};
    }
  }

  /** `_merge_parameters`: later values overwrite earlier ones. */
  function MergeParameters(all: Params, obj: Option<Params>): Params {
    if obj.None? then all else all + obj.value
  }

  function FoldUpdates(ps: seq<Option<Params>>): Params {
    if ps == [] then map[] else MergeParameters(FoldUpdates(ps[..|ps| - 1]), ps[|ps| - 1])
  }

  /** Overwriting keeps of each key the last value that anyone holds. */
  lemma {:induction false} FoldUpdatesKeepsLast(ps: seq<Option<Params>>, key: string)
    ensures key in FoldUpdates(ps) <==> Held(ps, key) != []
    ensures key in FoldUpdates(ps) ==> FoldUpdates(ps)[key] == Held(ps, key)[|Held(ps, key)| - 1]
  {
    if ps != [] { FoldUpdatesKeepsLast(ps[..|ps| - 1], key); }
  }

  /** The accumulated parameters of a head after all its requests, from `{}`. */
  function Fold(ps: seq<Option<Params>>): Params {
    if ps == [] then map[] else MergeInputParameters(Fold(ps[..|ps| - 1]), ps[|ps| - 1])
  }

  /** The values the requests hold for `key`, in request order. */
  function Held(ps: seq<Option<Params>>, key: string): seq<ParamValue> {
    if ps == [] then []
    else
      var last := ps[|ps| - 1];
      Held(ps[..|ps| - 1], key) + (if last.Some? && key in last.value then [last.value[key]] else [])
  }

  /** What the fold leaves under a key, on every input: a key nobody holds is absent; one holder's
      value is untouched; several holders' values are collected in request order, the list being
      the first value itself when that is already a list; `content_type` and `headers` keep the last. */
  lemma {:induction false} FoldCollectsHeldValues(ps: seq<Option<Params>>, key: string)
    ensures key in Fold(ps) <==> Held(ps, key) != []
    ensures var vs := Held(ps, key);
            vs != [] ==>
              Fold(ps)[key] ==
                if key == "content_type" || key == "headers" then vs[|vs| - 1]
                else if |vs| == 1 then vs[0]
                else if vs[0].Many? then Many(vs[0].items + vs[1..])
                else Many(vs)
  {
    if ps != [] {
      var before := ps[..|ps| - 1];
      FoldCollectsHeldValues(before, key);
      var vs, vs' := Held(before, key), Held(ps, key);
      if vs' != vs && vs != [] {
        var v := vs'[|vs|];
        assert vs' == vs + [v];
        assert vs'[1..] == vs[1..] + [v];
        if vs[0].Many? {
          assert vs[0].items + (vs[1..] + [v]) == (vs[0].items + vs[1..]) + [v];
        }
      }
    }
  }

  /** A key held by several requests becomes the list of their values exactly when the first value
      is not itself a list. */
  lemma {:induction false} FoldListsHeldValuesIffFirstIsNoList(ps: seq<Option<Params>>, key: string)
    requires key != "content_type" && key != "headers" && |Held(ps, key)| >= 2
    ensures key in Fold(ps)
    ensures Fold(ps)[key] == Many(Held(ps, key)) <==> !Held(ps, key)[0].Many?
  {
    FoldCollectsHeldValues(ps, key);
  }
}
