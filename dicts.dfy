/**
 * Python's dict as the pipeline uses it: assigning a key that is not present
 * appends it to the insertion order; assigning a key that is present replaces
 * its value and leaves the order alone. Iteration (`.keys()`) follows that order.
 */
module Dicts {
  import opened Common

  datatype Dict<K(==,!new), V> = Dict(keys: seq<K>, entries: map<K, V>) {

    /** The insertion order lists every key exactly once. */
    ghost predicate Valid()
    {
      Distinct(keys) && forall k :: k in entries <==> k in keys
    }

    /** `d[k] = v` */
    function Put(k: K, v: V): (d: Dict<K, V>)
      ensures k in d.entries && d.entries[k] == v
      ensures forall j :: j != k && j in entries ==> j in d.entries && d.entries[j] == entries[j]
    {
      if k in entries then Dict(keys, entries[k := v]) else Dict(keys + [k], entries[k := v])
    }
  }

  /** An assignment keeps the insertion order and the entries in step. */
  lemma PutValid<K(!new), V>(d: Dict<K, V>, k: K, v: V)
    requires d.Valid()
    ensures d.Put(k, v).Valid()
  {
  }

  /** `{}` */
  function Empty<K(==,!new), V>(): (d: Dict<K, V>)
    ensures d.Valid() && d.keys == [] && d.entries == map[]
  {
    Dict([], map[])
  }

  /** The keys of a sequence of assignments, in assignment order. */
  function KeysOf<K(==,!new), V>(ps: seq<(K, V)>): (ks: seq<K>)
    ensures |ks| == |ps| && forall i :: 0 <= i < |ps| ==> ks[i] == ps[i].0
  {
    seq(|ps|, i requires 0 <= i < |ps| => ps[i].0)
  }

  /** The dict after performing the assignments `d[k] = v` for each `(k, v)` of `ps` in order. */
  function PutAll<K(==,!new), V>(d: Dict<K, V>, ps: seq<(K, V)>): Dict<K, V>
    decreases |ps|
  {
    if ps == [] then d
    else PutAll(d, ps[..|ps| - 1]).Put(ps[|ps| - 1].0, ps[|ps| - 1].1)
  }

  /** Any sequence of assignments keeps a dict valid. */
  lemma {:induction false} PutAllValid<K(!new), V>(d: Dict<K, V>, ps: seq<(K, V)>)
    requires d.Valid()
    ensures PutAll(d, ps).Valid()
    decreases |ps|
  {
    if ps != [] {
      PutAllValid(d, ps[..|ps| - 1]);
      PutValid(PutAll(d, ps[..|ps| - 1]), ps[|ps| - 1].0, ps[|ps| - 1].1);
    }
  }

  /** Position of the first occurrence of `k`. */
  function FirstIndexOf<K(==,!new)>(ks: seq<K>, k: K): (i: nat)
    requires k in ks
    ensures i < |ks| && ks[i] == k && forall j :: 0 <= j < i ==> ks[j] != k
  {
    if ks[0] == k then 0 else 1 + FirstIndexOf(ks[1..], k)
  }

  /** Position of the last occurrence of `k`. */
  function LastIndexOf<K(==,!new)>(ks: seq<K>, k: K): (i: nat)
    requires k in ks
    ensures i < |ks| && ks[i] == k && forall j :: i < j < |ks| ==> ks[j] != k
  {
    if ks[|ks| - 1] == k then |ks| - 1 else LastIndexOf(ks[..|ks| - 1], k)
  }

  /** One more assignment is one more `Put`. */
  lemma PutAllSnoc<K(!new), V>(d: Dict<K, V>, ps: seq<(K, V)>, k: K, v: V)
    ensures PutAll(d, ps + [(k, v)]) == PutAll(d, ps).Put(k, v)
  {
    assert (ps + [(k, v)])[..|ps|] == ps;
  }

  /** Performing two batches of assignments one after the other is performing their concatenation. */
  lemma {:induction false} PutAllAppend<K(!new), V>(d: Dict<K, V>, ps: seq<(K, V)>, qs: seq<(K, V)>)
    ensures PutAll(d, ps + qs) == PutAll(PutAll(d, ps), qs)
    decreases |qs|
  {
    if qs == [] {
      assert ps + qs == ps;
    } else {
      var q, init := qs[|qs| - 1], qs[..|qs| - 1];
      assert qs == init + [q];
      assert ps + qs == (ps + init) + [q];
      PutAllSnoc(d, ps + init, q.0, q.1);
      PutAllAppend(d, ps, init);
      PutAllSnoc(PutAll(d, ps), init, q.0, q.1);
    }
  }

  /** Keys present before the assignments keep their positions; new keys only go after them. */
  lemma {:induction false} PutAllKeepsOrder<K(!new), V>(d: Dict<K, V>, ps: seq<(K, V)>)
    ensures |d.keys| <= |PutAll(d, ps).keys| && PutAll(d, ps).keys[..|d.keys|] == d.keys
    decreases |ps|
  {
    if ps != [] {
      PutAllKeepsOrder(d, ps[..|ps| - 1]);
    }
  }

  /** A key is present afterwards exactly when it was present before or was assigned. */
  lemma {:induction false} PutAllDomain<K(!new), V>(d: Dict<K, V>, ps: seq<(K, V)>, k: K)
    ensures k in PutAll(d, ps).entries <==> k in d.entries || k in KeysOf(ps)
    decreases |ps|
  {
    if ps != [] {
      var init := ps[..|ps| - 1];
      PutAllDomain(d, init, k);
      assert KeysOf(ps) == KeysOf(init) + [ps[|ps| - 1].0];
    }
  }

  /** An assigned key holds the value of its LAST assignment. */
  lemma {:induction false} PutAllLastWins<K(!new), V>(d: Dict<K, V>, ps: seq<(K, V)>, i: nat)
    requires i < |ps|
    requires forall j :: i < j < |ps| ==> ps[j].0 != ps[i].0
    ensures ps[i].0 in PutAll(d, ps).entries && PutAll(d, ps).entries[ps[i].0] == ps[i].1
    decreases |ps|
  {
    if i < |ps| - 1 {
      PutAllLastWins(d, ps[..|ps| - 1], i);
    }
  }

  /** A key that is never assigned keeps its old value. */
  lemma {:induction false} PutAllUntouched<K(!new), V>(d: Dict<K, V>, ps: seq<(K, V)>, k: K)
    requires k in d.entries && k !in KeysOf(ps)
    ensures k in PutAll(d, ps).entries && PutAll(d, ps).entries[k] == d.entries[k]
    decreases |ps|
  {
    if ps != [] {
      var init := ps[..|ps| - 1];
      assert KeysOf(ps) == KeysOf(init) + [ps[|ps| - 1].0];
      PutAllUntouched(d, init, k);
    }
  }

  /**
   * The dict grows by at most one entry per assignment, and by exactly one per
   * assignment precisely when the assigned keys are distinct and all new.
   */
  lemma {:induction false} PutAllSize<K(!new), V>(d: Dict<K, V>, ps: seq<(K, V)>)
    requires d.Valid()
    ensures |PutAll(d, ps).keys| <= |d.keys| + |ps|
    ensures |PutAll(d, ps).keys| == |d.keys| + |ps| <==>
              Distinct(KeysOf(ps)) && forall i :: 0 <= i < |ps| ==> ps[i].0 !in d.entries
    decreases |ps|
  {
    if ps != [] {
      var init, p := ps[..|ps| - 1], ps[|ps| - 1];
      var before := PutAll(d, init);
      PutAllSize(d, init);
      PutAllDomain(d, init, p.0);
      assert KeysOf(ps) == KeysOf(init) + [p.0];
      if Distinct(KeysOf(ps)) && forall i :: 0 <= i < |ps| ==> ps[i].0 !in d.entries {
        assert Distinct(KeysOf(init));
        assert p.0 !in KeysOf(init);
        assert p.0 !in before.entries;
      }
      if |PutAll(d, ps).keys| == |d.keys| + |ps| {
        assert p.0 !in before.entries;
        assert |before.keys| == |d.keys| + |init|;
        forall i, j | 0 <= i < j < |ps| ensures KeysOf(ps)[i] != KeysOf(ps)[j] {
          if j == |ps| - 1 {
            assert KeysOf(init)[i] == KeysOf(ps)[i];
          } else {
            assert KeysOf(init)[i] == KeysOf(ps)[i] && KeysOf(init)[j] == KeysOf(ps)[j];
          }
        }
      }
    }
  }

  /** Into an empty dict, distinct keys come out exactly in assignment order. */
  lemma {:induction false} PutAllDistinctKeys<K(!new), V>(ps: seq<(K, V)>)
    requires Distinct(KeysOf(ps))
    ensures PutAll(Empty(), ps).keys == KeysOf(ps)
    decreases |ps|
  {
    if ps != [] {
      var init, p := ps[..|ps| - 1], ps[|ps| - 1];
      assert KeysOf(ps) == KeysOf(init) + [p.0];
      assert Distinct(KeysOf(init));
      PutAllDistinctKeys(init);
      PutAllDomain(Empty(), init, p.0);
    }
  }

  /** Into an empty dict, the first assignment's key is the first key. */
  lemma PutAllFirstKey<K(!new), V>(ps: seq<(K, V)>)
    requires |ps| > 0
    ensures |PutAll(Empty(), ps).keys| > 0 && PutAll(Empty(), ps).keys[0] == ps[0].0
  {
    PutAllAppend(Empty(), [ps[0]], ps[1..]);
    assert [ps[0]] + ps[1..] == ps;
    assert PutAll(Empty<K, V>(), [ps[0]]).keys == [ps[0].0];
    PutAllKeepsOrder(PutAll(Empty<K, V>(), [ps[0]]), ps[1..]);
  }

  /**
   * Keys added by the assignments appear in the order of their FIRST assignment:
   * a later re-assignment never moves a key.
   */
  lemma {:induction false} PutAllFirstOccurrenceOrder<K(!new), V>(d: Dict<K, V>, ps: seq<(K, V)>, a: nat, b: nat)
    requires d.Valid()
    requires |d.keys| <= a < b < |PutAll(d, ps).keys|
    ensures PutAll(d, ps).keys[a] in KeysOf(ps) && PutAll(d, ps).keys[b] in KeysOf(ps)
    ensures FirstIndexOf(KeysOf(ps), PutAll(d, ps).keys[a]) < FirstIndexOf(KeysOf(ps), PutAll(d, ps).keys[b])
    decreases |ps|
  {
    var r := PutAll(d, ps);
    NewKeysAssigned(d, ps, a);
    NewKeysAssigned(d, ps, b);
    var init, p := ps[..|ps| - 1], ps[|ps| - 1];
    var before := PutAll(d, init);
    assert KeysOf(ps) == KeysOf(init) + [p.0];
    if b < |before.keys| {
      PutAllFirstOccurrenceOrder(d, init, a, b);
      NewKeysAssigned(d, init, a);
      NewKeysAssigned(d, init, b);
      FirstIndexOfPrefix(KeysOf(init), [p.0], before.keys[a]);
      FirstIndexOfPrefix(KeysOf(init), [p.0], before.keys[b]);
    } else {
      // b is the key appended by the last assignment, which was assigned for the first time
      assert r.keys == before.keys + [p.0];
      PutAllDomain(d, init, p.0);
      NewKeysAssigned(d, init, a);
      FirstIndexOfPrefix(KeysOf(init), [p.0], before.keys[a]);
      assert FirstIndexOf(KeysOf(ps), p.0) == |ps| - 1;
    }
  }

  /** A key beyond the old ones was assigned and was not present before. */
  lemma {:induction false} NewKeysAssigned<K(!new), V>(d: Dict<K, V>, ps: seq<(K, V)>, a: nat)
    requires d.Valid()
    requires |d.keys| <= a < |PutAll(d, ps).keys|
    ensures PutAll(d, ps).keys[a] in KeysOf(ps) && PutAll(d, ps).keys[a] !in d.entries
  {
    var r := PutAll(d, ps);
    PutAllValid(d, ps);
    PutAllKeepsOrder(d, ps);
    PutAllDomain(d, ps, r.keys[a]);
    forall i | 0 <= i < |d.keys| ensures d.keys[i] != r.keys[a] {
      assert r.keys[i] == d.keys[i];
    }
  }

  lemma FirstIndexOfPrefix<K(!new)>(ks: seq<K>, ls: seq<K>, k: K)
    requires k in ks
    ensures k in ks + ls && FirstIndexOf(ks + ls, k) == FirstIndexOf(ks, k)
  {
    var i, j := FirstIndexOf(ks + ls, k), FirstIndexOf(ks, k);
    assert (ks + ls)[j] == k;
  }
}
