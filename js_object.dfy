/** A plain JavaScript object with string keys, as the list of its own entries
    in insertion order. That is the order `Object.keys`/`Object.values` report
    for keys that are not array indices; JavaScript lists index-like keys such
    as "3" first, in numeric order, and that reordering is not modelled. */
module JsObject {
  import opened Optional

  datatype Entry<V> = Entry(key: string, value: V)

  type Obj<V> = seq<Entry<V>>

  /** `Object.keys(o)` */
  function Keys<V>(o: Obj<V>): (ks: seq<string>)
    ensures |ks| == |o|
    ensures forall i :: 0 <= i < |o| ==> ks[i] == o[i].key
  {
    if o == [] then [] else [o[0].key] + Keys(o[1..])
  }

  /** `Object.values(o)` */
  function Values<V>(o: Obj<V>): (vs: seq<V>)
    ensures |vs| == |o|
    ensures forall i :: 0 <= i < |o| ==> vs[i] == o[i].value
  {
    if o == [] then [] else [o[0].value] + Values(o[1..])
  }

  /** An object never holds the same key twice. */
  predicate UniqueKeys<V>(o: Obj<V>)
  {
    forall i, j :: 0 <= i < j < |o| ==> o[i].key != o[j].key
  }

  /** `o[k]`, `None` standing for `undefined`. */
  function Get<V>(o: Obj<V>, k: string): (r: Option<V>)
    ensures r.Some? <==> k in Keys(o)
  {
    if o == [] then None
    else if o[0].key == k then Some(o[0].value)
    else Get(o[1..], k)
  }

  /** In an object with unique keys, looking up the key of an entry gives that entry's value. */
  lemma {:induction false} GetEntry<V>(o: Obj<V>, i: nat)
    requires UniqueKeys(o) && i < |o|
    ensures Get(o, o[i].key) == Some(o[i].value)
  {
    if i > 0 {
      GetEntry(o[1..], i - 1);
    }
  }

  /** `{...o, [k]: v}`: an existing key keeps its place and takes the new
      value; a new key is added at the end. */
  function Put<V>(o: Obj<V>, k: string, v: V): (r: Obj<V>)
    ensures Get(r, k) == Some(v)
    ensures forall k' :: k' != k ==> Get(r, k') == Get(o, k')
  {
    if o == [] then [Entry(k, v)]
    else if o[0].key == k then [Entry(k, v)] + o[1..]
    else
      var rest := Put(o[1..], k, v);
      assert ([o[0]] + rest)[1..] == rest;
      [o[0]] + rest
  }

  /** `Put` keeps the key order and appends a new key at the end. */
  lemma {:induction false} PutKeys<V>(o: Obj<V>, k: string, v: V)
    ensures Keys(Put(o, k, v)) == if k in Keys(o) then Keys(o) else Keys(o) + [k]
  {
    if o != [] && o[0].key != k {
      PutKeys(o[1..], k, v);
      assert Keys(o) == [o[0].key] + Keys(o[1..]);
      assert Keys(Put(o, k, v)) == [o[0].key] + Keys(Put(o[1..], k, v));
    }
  }

  /** `Put` never introduces a duplicate key. */
  lemma PutUnique<V>(o: Obj<V>, k: string, v: V)
    requires UniqueKeys(o)
    ensures UniqueKeys(Put(o, k, v))
  {
    PutKeys(o, k, v);
    var r := Put(o, k, v);
    assert forall i :: 0 <= i < |r| ==> r[i].key == Keys(r)[i];
  }
}
