/** Python dictionaries with string keys, keeping insertion order: a sequence of key/value
    pairs. `Put` is `d[k] = v` (a present key keeps its position, a new key is appended), `Get`
    is `d.get(k)`, `FromPairs` is `dict(pairs)` (a later duplicate overwrites the value in the
    earlier position). */
module Dicts {
  import opened Wrappers

  type Dict<V> = seq<(string, V)>

  /** The keys of a real Python dict are pairwise distinct. */
  predicate DistinctKeys<V>(d: Dict<V>)
  {
    forall i, j :: 0 <= i < j < |d| ==> d[i].0 != d[j].0
  }

  type PyDict<V> = d: Dict<V> | DistinctKeys(d) witness []

  /** `list(d.keys())`, in order. */
  function Keys<V>(d: Dict<V>): (ks: seq<string>)
    ensures |ks| == |d| && forall i :: 0 <= i < |d| ==> ks[i] == d[i].0
  {
    seq(|d|, i requires 0 <= i < |d| => d[i].0)
  }

  /** `d.get(k)`: the value paired with the first occurrence of `k`. */
  function Get<V>(d: Dict<V>, k: string): (r: Option<V>)
    ensures r.Some? <==> k in Keys(d)
    ensures r.Some? ==> (k, r.value) in d
  {
    if d == [] then None
    else if d[0].0 == k then Some(d[0].1)
    else
      assert Keys(d) == [d[0].0] + Keys(d[1..]);
      Get(d[1..], k)
  }

  /** `d[k] = v`: `k` now maps to `v` and every other key keeps its value. */
  function Put<V>(d: Dict<V>, k: string, v: V): (r: Dict<V>)
    ensures Get(r, k) == Some(v)
    ensures forall k' :: k' != k ==> Get(r, k') == Get(d, k')
  {
    if d == [] then [(k, v)]
    else if d[0].0 == k then [(k, v)] + d[1..]
    else [d[0]] + Put(d[1..], k, v)
  }

  /** The keys of a dict with a first pair in front. */
  lemma KeysCons<V>(x: (string, V), t: Dict<V>)
    ensures Keys([x] + t) == [x.0] + Keys(t)
  {
    var a, b := Keys([x] + t), [x.0] + Keys(t);
    assert |a| == |b|;
    forall i | 0 <= i < |a| ensures a[i] == b[i] {
      if i > 0 {
        assert ([x] + t)[i] == t[i - 1];
      }
    }
  }

  /** A present key keeps its position, a new key is appended at the end. */
  lemma {:induction false} PutKeys<V>(d: Dict<V>, k: string, v: V)
    ensures Keys(Put(d, k, v)) == if k in Keys(d) then Keys(d) else Keys(d) + [k]
  {
    if d != [] {
      var t := d[1..];
      assert Keys(d) == [d[0].0] + Keys(t) by {
        assert d == [d[0]] + t;
        KeysCons(d[0], t);
      }
      if d[0].0 == k {
        assert Keys(Put(d, k, v)) == [k] + Keys(t) by {
          KeysCons((k, v), t);
        }
      } else {
        PutKeys(t, k, v);
        assert Keys(Put(d, k, v)) == [d[0].0] + Keys(Put(t, k, v)) by {
          KeysCons(d[0], Put(t, k, v));
        }
        if k !in Keys(t) {
          assert [d[0].0] + (Keys(t) + [k]) == Keys(d) + [k];
        }
      }
    }
  }

  /** Assignment keeps the keys of a dict distinct. */
  lemma PutDistinct<V>(d: Dict<V>, k: string, v: V)
    requires DistinctKeys(d)
    ensures DistinctKeys(Put(d, k, v))
  {
    PutKeys(d, k, v);
    var r := Put(d, k, v);
    var ks, dks := Keys(r), Keys(d);
    if k in dks {
      assert ks == dks;
      forall i, j | 0 <= i < j < |r| ensures r[i].0 != r[j].0 {
        assert r[i].0 == dks[i] == d[i].0;
        assert r[j].0 == dks[j] == d[j].0;
      }
    } else {
      assert ks == dks + [k];
      forall i, j | 0 <= i < j < |r| ensures r[i].0 != r[j].0 {
        assert r[i].0 == dks[i] == d[i].0;
        if j < |d| {
          assert r[j].0 == dks[j] == d[j].0;
        } else {
          assert r[j].0 == k;
        }
      }
    }
  }

  /** `dict(pairs)`: the pairs are assigned one after the other. */
  function FromPairs<V>(ps: Dict<V>): (r: PyDict<V>)
    ensures forall k :: k in Keys(r) <==> k in Keys(ps)
    ensures ps != [] ==> Get(r, ps[|ps| - 1].0) == Some(ps[|ps| - 1].1)
  {
    if ps == [] then []
    else
      var init := FromPairs(ps[..|ps| - 1]);
      var (k, v) := ps[|ps| - 1];
      assert Keys(ps) == Keys(ps[..|ps| - 1]) + [k];
      PutKeys(init, k, v);
      PutDistinct(init, k, v);
      Put(init, k, v)
  }

  /** Assigning the same key twice in a row leaves the same dict as assigning it once. */
  lemma {:induction false} PutTwice<V>(d: Dict<V>, k: string, v: V)
    ensures Put(Put(d, k, v), k, v) == Put(d, k, v)
  {
    if d != [] && d[0].0 != k {
      PutTwice(d[1..], k, v);
      assert Put(d, k, v)[1..] == Put(d[1..], k, v);
    }
  }

  /** On a dict whose keys are distinct, the value `Get` finds is the one at the key's position. */
  lemma {:induction false} GetAt<V>(d: Dict<V>, i: nat)
    requires DistinctKeys(d) && i < |d|
    ensures Get(d, d[i].0) == Some(d[i].1)
  {
    if i > 0 {
      GetAt(d[1..], i - 1);
    }
  }
}
