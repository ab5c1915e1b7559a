/** Python's insertion-ordered `dict`, as a sequence of key/value pairs.
    Assigning to a key that is already present keeps its position and replaces
    its value; a new key goes to the end. */
module Dicts {
  import opened Wrappers

  // Keys are strings throughout the modelled code.

  predicate DistinctKeys<V>(d: seq<(string, V)>) {
    forall i, j :: 0 <= i < j < |d| ==> d[i].0 != d[j].0
  }

  /** `d.keys()`, in iteration order. */
  function Keys<V>(d: seq<(string, V)>): (ks: seq<string>)
    ensures |ks| == |d|
    ensures forall i :: 0 <= i < |d| ==> ks[i] == d[i].0
  {
    if d == [] then [] else [d[0].0] + Keys(d[1..])
  }

  /** `d.get(k)`. */
  function Get<V>(d: seq<(string, V)>, k: string): (r: Option<V>)
    ensures r.Some? <==> k in Keys(d)
  {
    if d == [] then None else if d[0].0 == k then Some(d[0].1) else Get(d[1..], k)
  }

  /** `d[k] = v`. */
  function Put<V>(d: seq<(string, V)>, k: string, v: V): (r: seq<(string, V)>)
    ensures k !in Keys(d) ==> r == d + [(k, v)]
  {
    if d == [] then [(k, v)]
    else if d[0].0 == k then [(k, v)] + d[1..]
    else
      assert k !in Keys(d) ==> k !in Keys(d[1..]);
      [d[0]] + Put(d[1..], k, v)
  }

  /** After `d[k] = v`, `k` maps to `v` and every other key keeps its value. */
  lemma {:induction false} PutGet<V>(d: seq<(string, V)>, k: string, v: V, k': string)
    ensures Get(Put(d, k, v), k') == if k' == k then Some(v) else Get(d, k')
  {
    if d != [] && d[0].0 != k {
      PutGet(d[1..], k, v, k');
    }
  }

  /** Assigning to a present key keeps the key order; the keys stay distinct. */
  lemma {:induction false} PutKeys<V>(d: seq<(string, V)>, k: string, v: V)
    ensures k in Keys(d) ==> Keys(Put(d, k, v)) == Keys(d)
    ensures DistinctKeys(d) ==> DistinctKeys(Put(d, k, v))
  {
    if d != [] && d[0].0 != k {
      PutKeys(d[1..], k, v);
      assert Keys(d) == [d[0].0] + Keys(d[1..]);
      var r := Put(d, k, v);
      assert r == [d[0]] + Put(d[1..], k, v);
      if DistinctKeys(d) {
        assert DistinctKeys(d[1..]) by {
          forall i, j | 0 <= i < j < |d[1..]| ensures d[1..][i].0 != d[1..][j].0 {
            assert d[1..][i] == d[i + 1] && d[1..][j] == d[j + 1];
          }
        }
        PutGet(d[1..], k, v, d[0].0);
        assert d[0].0 !in Keys(d[1..]) by {
          forall j | 0 <= j < |d[1..]| ensures Keys(d[1..])[j] != d[0].0 {
            assert Keys(d[1..])[j] == d[j + 1].0;
          }
        }
        assert Get(Put(d[1..], k, v), d[0].0) == None;
        forall i, j | 0 <= i < j < |r| ensures r[i].0 != r[j].0 {
          if i == 0 {
            assert r[j].0 in Keys(Put(d[1..], k, v)) by { assert Keys(Put(d[1..], k, v))[j - 1] == r[j].0; }
          }
        }
      }
    }
  }

  /** Assigning each pair of `kvs` in turn, as a loop of `d[k] = v` does. */
  function PutAll<V>(d: seq<(string, V)>, kvs: seq<(string, V)>): seq<(string, V)>
  {
    if kvs == [] then d else var n := |kvs| - 1; Put(PutAll(d, kvs[..n]), kvs[n].0, kvs[n].1)
  }

  /** The value of the last pair in `kvs` whose key is `k`. */
  function LastValue<V>(kvs: seq<(string, V)>, k: string): Option<V>
  {
    if kvs == [] then None
    else if kvs[|kvs| - 1].0 == k then Some(kvs[|kvs| - 1].1)
    else LastValue(kvs[..|kvs| - 1], k)
  }

  /** After a run of assignments every key is present once, and holds the value it
      was assigned last; keys never assigned keep their old value. */
  lemma {:induction false} PutAllLastWins<V>(d: seq<(string, V)>, kvs: seq<(string, V)>, k: string)
    requires DistinctKeys(d)
    ensures DistinctKeys(PutAll(d, kvs))
    ensures Get(PutAll(d, kvs), k) == if LastValue(kvs, k).Some? then LastValue(kvs, k) else Get(d, k)
  {
    if kvs != [] {
      var n := |kvs| - 1;
      PutAllLastWins(d, kvs[..n], k);
      PutGet(PutAll(d, kvs[..n]), kvs[n].0, kvs[n].1, k);
      PutKeys(PutAll(d, kvs[..n]), kvs[n].0, kvs[n].1);
    }
  }
}
