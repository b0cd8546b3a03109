/** Python's insertion-ordered `dict`, as the list of its entries: overwriting a value does not move
    its key, a new key goes to the end, and iteration follows that order. */
module OrderedDict {

  datatype Option<+T> = None | Some(value: T)

  datatype Entry<K, V> = Entry(key: K, value: V)

  type Odict<K, V> = seq<Entry<K, V>>

  /** What makes a list of entries a dictionary: no key occurs twice. */
  predicate Distinct<K(==), V>(d: Odict<K, V>) {
    forall i, j :: 0 <= i < j < |d| ==> d[i].key != d[j].key
  }

  /** The place of `k`, or the length when `k` is no key. */
  function Find<K(==), V>(d: Odict<K, V>, k: K): (i: nat)
    ensures i <= |d|
    ensures i < |d| ==> d[i].key == k
    ensures forall j :: 0 <= j < i ==> d[j].key != k
  {
    if d == [] then 0
    else if d[0].key == k then 0
    else 1 + Find(d[1..], k)
  }

  predicate Has<K(==), V>(d: Odict<K, V>, k: K) {
    Find(d, k) < |d|
  }

  function Get<K(==), V>(d: Odict<K, V>, k: K): V
    requires Has(d, k)
  {
    d[Find(d, k)].value
  }

  /** `d[k] = v` */
  function Put<K(==), V>(d: Odict<K, V>, k: K, v: V): (r: Odict<K, V>)
    ensures Distinct(d) ==> Distinct(r)
    ensures Find(r, k) == Find(d, k) < |r| && r[Find(d, k)] == Entry(k, v)
  {
    var i := Find(d, k);
    assert var r := if i < |d| then d[i := Entry(k, v)] else d + [Entry(k, v)]; r[i].key == k;
    if i < |d| then d[i := Entry(k, v)] else d + [Entry(k, v)]
  }

  /** `del d[k]` */
  function Remove<K(==), V>(d: Odict<K, V>, k: K): (r: Odict<K, V>)
    requires Has(d, k)
    ensures Distinct(d) ==> Distinct(r) && !Has(r, k)
  {
    var i := Find(d, k);
    d[..i] + d[i + 1..]
  }

  lemma {:induction false} FindAt<K, V>(d: Odict<K, V>, i: nat)
    requires Distinct(d) && i < |d|
    ensures Find(d, d[i].key) == i
  {
  }

  lemma {:induction false} PutNew<K, V>(d: Odict<K, V>, k: K, v: V)
    requires forall i :: 0 <= i < |d| ==> d[i].key != k
    ensures Put(d, k, v) == d + [Entry(k, v)]
  {
    assert Find(d, k) == |d|;
  }

  lemma {:induction false} PutOther<K, V>(d: Odict<K, V>, k: K, v: V, other: K)
    requires other != k
    ensures Has(Put(d, k, v), other) <==> Has(d, other)
    ensures Has(d, other) ==> Get(Put(d, k, v), other) == Get(d, other)
  {
    var r := Put(d, k, v);
    var i, j := Find(d, other), Find(r, other);
    if i < |d| { assert r[i].key == other; }
    if j < |r| { assert d[j].key == other; }
  }

  lemma {:induction false} PutGets<K, V>(d: Odict<K, V>, k: K, v: V, other: K)
    ensures Has(Put(d, k, v), other) <==> Has(d, other) || other == k
    ensures Has(Put(d, k, v), other) ==> Get(Put(d, k, v), other) == if other == k then v else Get(d, other)
  {
    if other != k { PutOther(d, k, v, other); }
  }
}
