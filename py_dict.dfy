/** Python's `zip` and the insertion-ordered `dict` that
    `dict(zip(labels, raw_data))` builds and that `paths.items()` walks. */
module PyDict {
  import opened PyRuntime

  /** `zip(a, b)`: pairs by position, as many as the shorter list has. */
  function Zip<A, B>(a: seq<A>, b: seq<B>): (z: seq<(A, B)>)
    ensures |z| == if |a| <= |b| then |a| else |b|
    ensures forall i :: 0 <= i < |z| ==> z[i] == (a[i], b[i])
  {
    if a == [] || b == [] then []
    else [(a[0], b[0])] + Zip(a[1..], b[1..])
  }

  /** A dict is its items in insertion order; no key occurs twice. */
  type Dict<K, V> = seq<(K, V)>

  ghost predicate DistinctKeys<K, V>(d: Dict<K, V>)
  {
    forall i, j :: 0 <= i < j < |d| ==> d[i].0 != d[j].0
  }

  /** Where key `k` sits in `d`: the index of its first item, or `|d|`
      when no item has that key. */
  function IndexOf<K(==), V>(d: Dict<K, V>, k: K): (i: nat)
    ensures i <= |d|
    ensures forall j :: 0 <= j < i ==> d[j].0 != k
    ensures i < |d| ==> d[i].0 == k
  {
    if d == [] then 0
    else if d[0].0 == k then 0
    else
      var i := IndexOf(d[1..], k);
      assert forall j :: 1 <= j < |d| ==> d[j] == d[1..][j - 1];
      1 + i
  }

  /** `d[k]`, or `None` where Python raises `KeyError`. */
  function Get<K(==), V>(d: Dict<K, V>, k: K): (r: Option<V>)
    ensures r == None <==> forall i :: 0 <= i < |d| ==> d[i].0 != k
  {
    var i := IndexOf(d, k);
    if i < |d| then Some(d[i].1) else None
  }

  /** In a dict the value of a key is the value of its item. */
  lemma GetAt<K, V>(d: Dict<K, V>, i: nat)
    requires DistinctKeys(d) && i < |d|
    ensures Get(d, d[i].0) == Some(d[i].1)
  {
    var j := IndexOf(d, d[i].0);
    assert !(j < i) && !(i < j);
  }

  /** `d[k] = v`: a key already present keeps its place and takes the new
      value; a new key goes after all others. */
  function Put<K(==), V>(d: Dict<K, V>, k: K, v: V): (r: Dict<K, V>)
    requires DistinctKeys(d)
    ensures DistinctKeys(r)
    ensures (exists i :: 0 <= i < |d| && d[i].0 == k) ==>
              |r| == |d| && forall i :: 0 <= i < |d| ==> r[i] == (if d[i].0 == k then (k, v) else d[i])
    ensures (forall i :: 0 <= i < |d| ==> d[i].0 != k) ==> r == d + [(k, v)]
  {
    var i := IndexOf(d, k);
    if i < |d| then d[i := (k, v)] else d + [(k, v)]
  }

  lemma GetPutSame<K, V>(d: Dict<K, V>, k: K, v: V)
    requires DistinctKeys(d)
    ensures Get(Put(d, k, v), k) == Some(v)
  {
    var r := Put(d, k, v);
    var i := IndexOf(d, k);
    GetAt(r, i);
  }

  lemma GetPutOther<K, V>(d: Dict<K, V>, k: K, v: V, k': K)
    requires DistinctKeys(d) && k' != k
    ensures Get(Put(d, k, v), k') == Get(d, k')
  {
    var r := Put(d, k, v);
    var i := IndexOf(d, k');
    if i < |d| {
      assert r[i] == d[i];
      GetAt(r, i);
      GetAt(d, i);
    } else {
      assert forall j :: 0 <= j < |r| ==> r[j].0 != k' by {
        if IndexOf(d, k) == |d| {
          assert forall j :: 0 <= j < |d| ==> r[j] == d[j];
        }
      }
    }
  }

  /** `dict(pairs)`: the pairs put into an empty dict one after another. */
  function DictOf<K(==), V>(ps: seq<(K, V)>): (d: Dict<K, V>)
    ensures DistinctKeys(d)
    ensures |d| <= |ps|
  {
    if ps == [] then []
    else Put(DictOf(ps[..|ps| - 1]), ps[|ps| - 1].0, ps[|ps| - 1].1)
  }

  /** A key that no pair carries is not in the dict. */
  lemma {:induction false} DictOfMissing<K, V>(ps: seq<(K, V)>, k: K)
    requires forall j :: 0 <= j < |ps| ==> ps[j].0 != k
    ensures Get(DictOf(ps), k) == None
  {
    if ps != [] {
      DictOfMissing(ps[..|ps| - 1], k);
    }
  }

  /** A repeated key keeps the value of its last pair. */
  lemma {:induction false} DictOfLastWins<K, V>(ps: seq<(K, V)>, j: nat)
    requires j < |ps|
    requires forall j' :: j < j' < |ps| ==> ps[j'].0 != ps[j].0
    ensures Get(DictOf(ps), ps[j].0) == Some(ps[j].1)
  {
    var n := |ps| - 1;
    var init := ps[..n];
    var prev := DictOf(init);
    var k := ps[j].0;
    assert DictOf(ps) == Put(prev, ps[n].0, ps[n].1);
    if j < n {
      assert init[j] == ps[j];
      assert forall j' :: j < j' < |init| ==> init[j'].0 != init[j].0 by {
        assert forall j' :: j < j' < |init| ==> init[j'] == ps[j'];
      }
      DictOfLastWins(init, j);
      assert ps[n].0 != k;
      GetPutOther(prev, ps[n].0, ps[n].1, k);
    } else {
      GetPutSame(prev, k, ps[j].1);
    }
  }

  /** Pairs whose keys are all distinct make a dict that holds exactly
      those pairs, in their order. */
  lemma {:induction false} DictOfDistinct<K, V>(ps: seq<(K, V)>)
    requires DistinctKeys(ps)
    ensures DictOf(ps) == ps
  {
    if ps != [] {
      var n := |ps| - 1;
      assert DistinctKeys(ps[..n]);
      DictOfDistinct(ps[..n]);
      assert forall i :: 0 <= i < n ==> ps[..n][i].0 != ps[n].0;
      assert ps[..n] + [ps[n]] == ps;
    }
  }

  /** Every item of the dict is one of the pairs it was built from. */
  lemma {:induction false} DictOfItems<K, V>(ps: seq<(K, V)>)
    ensures forall i :: 0 <= i < |DictOf(ps)| ==> DictOf(ps)[i] in ps
  {
    if ps != [] {
      var n := |ps| - 1;
      DictOfItems(ps[..n]);
      var prev := DictOf(ps[..n]);
      var d := DictOf(ps);
      forall i | 0 <= i < |d|
        ensures d[i] in ps
      {
        if i < |prev| && d[i] == prev[i] {
          assert prev[i] in ps[..n];
        } else {
          assert d[i] == ps[n];
        }
      }
    }
  }
}
