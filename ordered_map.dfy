/**
 * A JavaScript object used as a dictionary: its own string-keyed properties in insertion
 * order, as `Object.values` and `Object.entries` enumerate them. (JavaScript lists
 * integer-like keys first; this model assumes keys are not integer-like.)
 */
module OrderedMap {
  import opened Wrappers

  type Entries<V> = seq<(string, V)>

  /** `Object.keys(e)`. */
  function Keys<V>(e: Entries<V>): (r: seq<string>)
    ensures |r| == |e|
    ensures forall i :: 0 <= i < |e| ==> r[i] == e[i].0
  {
    if |e| == 0 then [] else [e[0].0] + Keys(e[1..])
  }

  /** No key is listed twice. */
  ghost predicate UniqueKeys<V>(e: Entries<V>) {
    forall i, j :: 0 <= i < j < |e| ==> e[i].0 != e[j].0
  }

  /** `e[k]`: the value of the first entry with key `k`, `None` for `undefined`. */
  function Get<V>(e: Entries<V>, k: string): (r: Option<V>)
    ensures r.Some? <==> k in Keys(e)
    ensures r.Some? ==> (k, r.value) in e
  {
    if |e| == 0 then None else if e[0].0 == k then Some(e[0].1) else Get(e[1..], k)
  }

  /** `e[k] = v`: an existing key keeps its place, a new key goes last. */
  function Put<V>(e: Entries<V>, k: string, v: V): (r: Entries<V>)
    ensures Get(r, k) == Some(v)
    ensures forall k' :: k' != k ==> Get(r, k') == Get(e, k')
  {
    if |e| == 0 then [(k, v)]
    else if e[0].0 == k then [(k, v)] + e[1..]
    else [e[0]] + Put(e[1..], k, v)
  }

  /** Assignment keeps the key order: an existing key stays in place, a new key is appended. */
  lemma {:induction false} PutKeys<V>(e: Entries<V>, k: string, v: V)
    ensures Keys(Put(e, k, v)) == if k in Keys(e) then Keys(e) else Keys(e) + [k]
    decreases |e|
  {
    if |e| > 0 && e[0].0 != k {
      PutKeys(e[1..], k, v);
      assert Keys(e) == [e[0].0] + Keys(e[1..]);
    }
  }

  /** `delete e[k]`: every entry with key `k` goes, the others keep their order. */
  function Remove<V>(e: Entries<V>, k: string): (r: Entries<V>)
    ensures Get(r, k) == None
    ensures forall k' :: k' != k ==> Get(r, k') == Get(e, k')
    ensures forall x :: x in Keys(r) <==> x in Keys(e) && x != k
    ensures |r| <= |e|
  {
    if |e| == 0 then []
    else if e[0].0 == k then Remove(e[1..], k)
    else [e[0]] + Remove(e[1..], k)
  }

  /** Deleting a key that is not there changes nothing. */
  lemma {:induction false} RemoveAbsent<V>(e: Entries<V>, k: string)
    requires k !in Keys(e)
    ensures Remove(e, k) == e
    decreases |e|
  {
    if |e| > 0 {
      assert Keys(e) == [e[0].0] + Keys(e[1..]);
      RemoveAbsent(e[1..], k);
    }
  }

  /** `Object.values(e)`. */
  function Values<V>(e: Entries<V>): (r: seq<V>)
    ensures |r| == |e|
    ensures forall i :: 0 <= i < |e| ==> r[i] == e[i].1
  {
    if |e| == 0 then [] else [e[0].1] + Values(e[1..])
  }

  /** With unique keys, every entry is the one `Get` finds for its key. */
  lemma {:induction false} GetUnique<V>(e: Entries<V>, i: nat)
    requires UniqueKeys(e) && i < |e|
    ensures Get(e, e[i].0) == Some(e[i].1)
    decreases |e|
  {
    if i > 0 {
      assert e[0].0 != e[i].0;
      GetUnique(e[1..], i - 1);
    }
  }

  /** Assigning a key never lists a key twice. */
  lemma PutUnique<V>(e: Entries<V>, k: string, v: V)
    requires UniqueKeys(e)
    ensures UniqueKeys(Put(e, k, v))
  {
    var r := Put(e, k, v);
    var ks := Keys(r);
    PutKeys(e, k, v);
    forall i, j | 0 <= i < j < |r| ensures r[i].0 != r[j].0 {
      assert ks[i] == r[i].0 && ks[j] == r[j].0;
      if k in Keys(e) {
        assert Keys(e)[i] == e[i].0 && Keys(e)[j] == e[j].0;
      } else if j < |e| {
        assert Keys(e)[i] == e[i].0 && Keys(e)[j] == e[j].0;
      } else {
        assert Keys(e)[i] == e[i].0;
      }
    }
  }
}
