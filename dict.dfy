/** An ordered dictionary with string keys: the model of a JavaScript object
    used as a map and of a Python `dict`. Both keep their keys in insertion
    order, which is the order `Object.values` and `dict.items()` report them
    in; assigning to a key that is already present keeps its position. */
module Dict {
  import opened Util

  type Dict<V> = seq<(string, V)>

  function Keys<V>(d: Dict<V>): (ks: seq<string>)
    ensures |ks| == |d| && forall i :: 0 <= i < |d| ==> ks[i] == d[i].0
  {
    seq(|d|, i requires 0 <= i < |d| => d[i].0)
  }

  /** Keys are unique, as they are in every JavaScript object and Python dict. */
  ghost predicate DistinctKeys<V>(d: Dict<V>) {
    forall i, j :: 0 <= i < j < |d| ==> d[i].0 != d[j].0
  }

  /** `d[k]`, or `None` when `k` is absent. */
  function Get<V>(d: Dict<V>, k: string): (r: Option<V>)
    ensures r.None? <==> forall i :: 0 <= i < |d| ==> d[i].0 != k
    ensures r.Some? ==> exists i :: 0 <= i < |d| && d[i] == (k, r.value)
    decreases |d|
  {
    if |d| == 0 then None
    else if d[0].0 == k then Some(d[0].1)
    else
      var r := Get(d[1..], k);
      assert r.Some? ==> exists i :: 0 <= i < |d| && d[i] == (k, r.value) by {
        if r.Some? {
          var i :| 0 <= i < |d[1..]| && d[1..][i] == (k, r.value);
          assert d[i + 1] == (k, r.value);
        }
      }
      assert r.None? ==> forall i :: 0 <= i < |d| ==> d[i].0 != k by {
        if r.None? {
          forall i | 0 <= i < |d| ensures d[i].0 != k {
            if i > 0 { assert d[i] == d[1..][i - 1]; }
          }
        }
      }
      r
  }

  /** `d[k] = v` on a copy: an existing key keeps its position and gets the new
      value, a new key is appended at the end. All other keys are untouched. */
  function Set<V>(d: Dict<V>, k: string, v: V): (r: Dict<V>)
    ensures Get(r, k) == Some(v)
    ensures forall k' :: k' != k ==> Get(r, k') == Get(d, k')
    ensures DistinctKeys(d) ==> DistinctKeys(r)
    ensures forall i :: 0 <= i < |r| ==> r[i] == (k, v) || r[i] in d
    decreases |d|
  {
    if |d| == 0 then [(k, v)]
    else if d[0].0 == k then
      var r := [(k, v)] + d[1..];
      assert forall k' :: k' != k ==> Get(r, k') == Get(d[1..], k');
      r
    else
      var rest := Set(d[1..], k, v);
      var r := [d[0]] + rest;
      assert r[1..] == rest;
      assert DistinctKeys(d) ==> DistinctKeys(r) by {
        if DistinctKeys(d) {
          TailDistinct(d);
          ConsDistinct(d[0], rest);
        }
      }
      r
  }

  /** Where `Set` puts the entry: a new key goes at the end, and an existing
      key is overwritten where it stands while every other entry stays put. */
  lemma SetKeepsPositions<V>(d: Dict<V>, k: string, v: V)
    ensures Get(d, k).None? ==> Set(d, k, v) == d + [(k, v)]
    ensures Get(d, k).Some? && DistinctKeys(d) ==>
      |Set(d, k, v)| == |d| && forall i :: 0 <= i < |d| ==> Set(d, k, v)[i] == if d[i].0 == k then (k, v) else d[i]
  {
    if Get(d, k).None? {
      SetAppendsNew(d, k, v);
    } else if DistinctKeys(d) {
      SetOverwritesInPlace(d, k, v);
    }
  }

  lemma {:induction false} SetAppendsNew<V>(d: Dict<V>, k: string, v: V)
    requires forall i :: 0 <= i < |d| ==> d[i].0 != k
    ensures Set(d, k, v) == d + [(k, v)]
    decreases |d|
  {
    if |d| > 0 {
      var t := d[1..];
      assert forall i :: 0 <= i < |t| ==> t[i] == d[i + 1];
      SetAppendsNew(t, k, v);
      SetCons(d, k, v);
      ConsSnoc(d[0], t, (k, v));
      assert d == [d[0]] + t;
    }
  }

  lemma SetCons<V>(d: Dict<V>, k: string, v: V)
    requires |d| > 0 && d[0].0 != k
    ensures Set(d, k, v) == [d[0]] + Set(d[1..], k, v)
  {
  }

  lemma ConsSnoc<T>(x: T, s: seq<T>, y: T)
    ensures [x] + (s + [y]) == ([x] + s) + [y]
  {
  }

  lemma {:induction false} SetOverwritesInPlace<V>(d: Dict<V>, k: string, v: V)
    requires Get(d, k).Some? && DistinctKeys(d)
    ensures |Set(d, k, v)| == |d|
    ensures forall i :: 0 <= i < |d| ==> Set(d, k, v)[i] == if d[i].0 == k then (k, v) else d[i]
    decreases |d|
  {
    if d[0].0 == k {
      assert forall i :: 0 < i < |d| ==> d[i].0 != d[0].0;
    } else {
      TailDistinct(d);
      SetOverwritesInPlace(d[1..], k, v);
      var rest := Set(d[1..], k, v);
      SetCons(d, k, v);
      forall i | 0 < i < |d| ensures Set(d, k, v)[i] == if d[i].0 == k then (k, v) else d[i] {
        assert Set(d, k, v)[i] == rest[i - 1] && d[i] == d[1..][i - 1];
      }
    }
  }

  /** The tail of a dictionary with distinct keys has distinct keys and
      lacks the head's key. */
  lemma TailDistinct<V>(d: Dict<V>)
    requires |d| > 0 && DistinctKeys(d)
    ensures DistinctKeys(d[1..]) && Get(d[1..], d[0].0).None?
  {
    assert forall i :: 0 <= i < |d[1..]| ==> d[1..][i].0 == d[i + 1].0;
  }

  /** An entry whose key a dictionary lacks can be put in front of it. */
  lemma ConsDistinct<V>(e: (string, V), rest: Dict<V>)
    requires DistinctKeys(rest) && Get(rest, e.0).None?
    ensures DistinctKeys([e] + rest)
  {
    var r := [e] + rest;
    assert r[1..] == rest;
  }

  /** `delete d[k]` on a copy: the entry for `k` goes, the order of the rest is kept. */
  function Delete<V>(d: Dict<V>, k: string): (r: Dict<V>)
    ensures Get(r, k).None?
    ensures forall k' :: k' != k ==> Get(r, k') == Get(d, k')
    ensures IsSubsequence(r, d)
    ensures DistinctKeys(d) ==> DistinctKeys(r)
    decreases |d|
  {
    if |d| == 0 then []
    else
      var rest := Delete(d[1..], k);
      if d[0].0 == k then
        rest
      else
        var r := [d[0]] + rest;
        assert r[1..] == rest && r[0] == d[0];
        assert DistinctKeys(d) ==> DistinctKeys(r) by {
          if DistinctKeys(d) {
            assert forall i :: 0 <= i < |d[1..]| ==> d[1..][i].0 == d[i + 1].0;
            assert Get(d[1..], d[0].0).None?;
            assert Get(rest, d[0].0).None?;
          }
        }
        r
  }
}
