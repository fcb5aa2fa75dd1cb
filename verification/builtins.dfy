/**
 * The parts of Python's built-in `dict` and `zip` that the gateway and the
 * orchestrator rely on.
 *
 * A dict is an association list in insertion order whose keys are pairwise
 * distinct. Assigning to a key that is present replaces its value where it
 * stands; assigning to a new key appends it. `dict(pairs)` performs those
 * assignments from left to right, so the last value given for a repeated key
 * wins while the key keeps the position of its first occurrence.
 */
module Builtins {
  import opened Wrappers

  type Dict<K, V> = seq<(K, V)>

  /** The smaller of two lengths, as `zip` and slicing use it. */
  function Min(a: int, b: int): (m: int)
    ensures m <= a && m <= b
    ensures m == a || m == b
  {
    if a <= b then a else b
  }

  /** The keys of an association list, in order. */
  function Keys<K, V>(d: seq<(K, V)>): (ks: seq<K>)
    ensures |ks| == |d|
    ensures forall i :: 0 <= i < |d| ==> ks[i] == d[i].0
  {
    seq(|d|, i requires 0 <= i < |d| => d[i].0)
  }

  /** `k in d`. */
  predicate Has<K(==), V>(d: seq<(K, V)>, k: K)
  {
    exists i :: 0 <= i < |d| && d[i].0 == k
  }

  /** The invariant of every Python dict: no key occurs twice. */
  predicate Unique<K(==), V>(d: seq<(K, V)>)
  {
    forall i, j :: 0 <= i < j < |d| ==> d[i].0 != d[j].0
  }

  /** The position of the first entry with key `k`, or `|d|` when there is none. */
  function Find<K(==), V>(d: seq<(K, V)>, k: K): (i: nat)
    ensures i <= |d|
    ensures i < |d| ==> d[i].0 == k
    ensures forall j :: 0 <= j < i ==> d[j].0 != k
  {
    if d == [] then 0
    else if d[0].0 == k then 0
    else 1 + Find(d[1..], k)
  }

  /** `d.get(k)`: the value stored under `k`, or `None`. */
  function Get<K(==), V>(d: Dict<K, V>, k: K): (r: Option<V>)
    ensures r.None? <==> !Has(d, k)
  {
    var i := Find(d, k);
    if i < |d| then Some(d[i].1) else None
  }

  /** In a dict, the entry at position `i` is what `get` finds for its key. */
  lemma GetAt<K, V>(d: Dict<K, V>, i: nat)
    requires Unique(d)
    requires i < |d|
    ensures Get(d, d[i].0) == Some(d[i].1)
  {
    var j := Find(d, d[i].0);
    assert j <= i;
  }

  /** `d[k] = v`: a present key keeps its position and takes the new value;
      a new key is appended. */
  function Put<K(==), V>(d: Dict<K, V>, k: K, v: V): (r: Dict<K, V>)
    requires Unique(d)
    ensures Unique(r)
    ensures |r| == if Has(d, k) then |d| else |d| + 1
    ensures forall i :: 0 <= i < |d| ==> r[i] == if d[i].0 == k then (k, v) else d[i]
    ensures !Has(d, k) ==> r[|d|] == (k, v)
  {
    var i := Find(d, k);
    if i < |d| then d[i := (k, v)] else d + [(k, v)]
  }

  /** After `d[k] = v`, `d.get(k)` is `v`. */
  lemma PutGet<K, V>(d: Dict<K, V>, k: K, v: V)
    requires Unique(d)
    ensures Get(Put(d, k, v), k) == Some(v)
  {
    var r := Put(d, k, v);
    var i := Find(d, k);
    GetAt(r, i);
  }

  /** Assigning to `k` leaves every other key's value as it was. */
  lemma PutOther<K, V>(d: Dict<K, V>, k: K, v: V, k': K)
    requires Unique(d)
    requires k' != k
    ensures Get(Put(d, k, v), k') == Get(d, k')
  {
    var r := Put(d, k, v);
    if Has(d, k') {
      var j := Find(d, k');
      GetAt(d, j);
      GetAt(r, j);
    } else {
      assert !Has(r, k');
    }
  }

  /** `zip(xs, ys)`: pairs up positions, stopping at the end of the shorter input. */
  function Zip<A, B>(xs: seq<A>, ys: seq<B>): (ps: seq<(A, B)>)
    ensures |ps| == Min(|xs|, |ys|)
    ensures forall i :: 0 <= i < |ps| ==> ps[i] == (xs[i], ys[i])
  {
    if xs == [] || ys == [] then [] else [(xs[0], ys[0])] + Zip(xs[1..], ys[1..])
  }

  /** `dict(pairs)`: assigns each pair in turn. */
  function FromPairs<K(==), V>(ps: seq<(K, V)>): (d: Dict<K, V>)
    ensures Unique(d)
    ensures |d| <= |ps|
  {
    if ps == [] then []
    else
      var n := |ps| - 1;
      Put(FromPairs(ps[..n]), ps[n].0, ps[n].1)
  }

  /** After `d[k] = v` the keys present are those of `d` and `k`. */
  lemma PutHas<K, V>(d: Dict<K, V>, k: K, v: V, k': K)
    requires Unique(d)
    ensures Has(Put(d, k, v), k') <==> Has(d, k') || k' == k
  {
    var r := Put(d, k, v);
    if Has(d, k') {
      var i :| 0 <= i < |d| && d[i].0 == k';
      assert r[i].0 == k';
    }
    if k' == k {
      var i := Find(d, k);
      assert r[i].0 == k;
    }
  }

  /** Some pair carries `k` exactly when an earlier one or the last one does. */
  lemma HasSnoc<K, V>(ps: seq<(K, V)>, k: K)
    requires ps != []
    ensures Has(ps, k) <==> Has(ps[..|ps| - 1], k) || ps[|ps| - 1].0 == k
  {
    var n := |ps| - 1;
    if Has(ps, k) {
      var i :| 0 <= i < |ps| && ps[i].0 == k;
      if i < n {
        assert ps[..n][i].0 == k;
      }
    }
    if Has(ps[..n], k) {
      var i :| 0 <= i < n && ps[..n][i].0 == k;
      assert ps[i].0 == k;
    }
  }

  /** A key is in `dict(pairs)` exactly when some pair carries it. */
  lemma {:induction false} FromPairsHas<K, V>(ps: seq<(K, V)>, k: K)
    ensures Has(FromPairs(ps), k) <==> Has(ps, k)
  {
    if ps != [] {
      var n := |ps| - 1;
      var d := FromPairs(ps[..n]);
      assert FromPairs(ps) == Put(d, ps[n].0, ps[n].1);
      FromPairsHas(ps[..n], k);
      PutHas(d, ps[n].0, ps[n].1, k);
      HasSnoc(ps, k);
    }
  }

  /** For a repeated key, the value of its last pair is the one kept. */
  lemma {:induction false} FromPairsLastWins<K, V>(ps: seq<(K, V)>, j: nat)
    requires j < |ps|
    requires forall i :: j < i < |ps| ==> ps[i].0 != ps[j].0
    ensures Get(FromPairs(ps), ps[j].0) == Some(ps[j].1)
  {
    var n := |ps| - 1;
    var d := FromPairs(ps[..n]);
    assert FromPairs(ps) == Put(d, ps[n].0, ps[n].1);
    if j < n {
      assert ps[..n][j] == ps[j];
      FromPairsLastWins(ps[..n], j);
      assert ps[n].0 != ps[j].0;
      PutOther(d, ps[n].0, ps[n].1, ps[j].0);
    } else {
      PutGet(d, ps[n].0, ps[n].1);
    }
  }

  /** With pairwise distinct keys, `dict(pairs)` keeps every pair, in order. */
  lemma {:induction false} FromPairsOfUnique<K, V>(ps: seq<(K, V)>)
    requires Unique(ps)
    ensures FromPairs(ps) == ps
  {
    if ps != [] {
      var n := |ps| - 1;
      FromPairsOfUnique(ps[..n]);
      assert !Has(ps[..n], ps[n].0);
      assert ps[..n] + [ps[n]] == ps;
    }
  }
}
