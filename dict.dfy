/**
 * Python dictionaries as the sequence of their items in insertion order:
 * `d[k] = v` keeps an existing key where it is and appends a new one, and
 * `{k: d[k] for k in sorted(d.keys())}` re-orders the items by key.
 */
module Dict {
  import opened Wrappers

  predicate KeysDistinct<K(==), V(==)>(d: seq<(K, V)>) {
    forall i, j :: 0 <= i < j < |d| ==> d[i].0 != d[j].0
  }

  predicate HasKey<K(==), V(==)>(d: seq<(K, V)>, k: K) {
    exists i :: 0 <= i < |d| && d[i].0 == k
  }

  function Keys<K(==), V(==)>(d: seq<(K, V)>): (r: seq<K>)
    ensures |r| == |d| && forall i :: 0 <= i < |d| ==> r[i] == d[i].0
  {
    if |d| == 0 then [] else [d[0].0] + Keys(d[1..])
  }

  function Values<K(==), V(==)>(d: seq<(K, V)>): (r: seq<V>)
    ensures |r| == |d| && forall i :: 0 <= i < |d| ==> r[i] == d[i].1
  {
    if |d| == 0 then [] else [d[0].1] + Values(d[1..])
  }

  /** `d.get(k)`. */
  function Lookup<K(==), V(==)>(d: seq<(K, V)>, k: K): (r: Option<V>)
    ensures r.None? <==> !HasKey(d, k)
    ensures r.Some? ==> (k, r.value) in d
  {
    if |d| == 0 then None
    else if d[0].0 == k then Some(d[0].1)
    else Lookup(d[1..], k)
  }

  /** `d[k] = v`. */
  function Put<K(==), V(==)>(d: seq<(K, V)>, k: K, v: V): seq<(K, V)> {
    if |d| == 0 then [(k, v)]
    else if d[0].0 == k then [(k, v)] + d[1..]
    else [d[0]] + Put(d[1..], k, v)
  }

  lemma {:induction false} HasKeyTail<K, V>(d: seq<(K, V)>, k: K)
    requires |d| > 0 && d[0].0 != k
    ensures HasKey(d, k) <==> HasKey(d[1..], k)
  {
    if HasKey(d, k) {
      var i :| 0 <= i < |d| && d[i].0 == k;
      assert d[1..][i - 1].0 == k;
    }
    if HasKey(d[1..], k) {
      var i :| 0 <= i < |d| - 1 && d[1..][i].0 == k;
      assert d[i + 1].0 == k;
    }
  }

  /** Assignment binds `k` to `v` and leaves every other key alone. */
  lemma {:induction false} PutLookup<K, V>(d: seq<(K, V)>, k: K, v: V)
    ensures Lookup(Put(d, k, v), k) == Some(v)
    ensures forall k' :: k' != k ==> Lookup(Put(d, k, v), k') == Lookup(d, k')
  {
    if |d| > 0 && d[0].0 != k {
      PutLookup(d[1..], k, v);
      assert Put(d, k, v)[1..] == Put(d[1..], k, v);
    } else if |d| > 0 {
      assert Put(d, k, v)[1..] == d[1..];
    }
  }

  /** An existing key keeps its place; a new key goes last. */
  lemma {:induction false} PutOrder<K, V>(d: seq<(K, V)>, k: K, v: V)
    ensures HasKey(d, k) ==> Keys(Put(d, k, v)) == Keys(d)
    ensures !HasKey(d, k) ==> Put(d, k, v) == d + [(k, v)]
  {
    if |d| > 0 {
      var r := Put(d, k, v);
      assert Keys(d) == [d[0].0] + Keys(d[1..]);
      assert Keys(r) == [r[0].0] + Keys(r[1..]);
      if d[0].0 != k {
        PutOrder(d[1..], k, v);
        HasKeyTail(d, k);
        assert r[1..] == Put(d[1..], k, v);
      } else {
        assert r[1..] == d[1..];
      }
    }
  }

  /** Distinct keys stay distinct after an assignment. */
  lemma {:induction false} PutDistinct<K, V>(d: seq<(K, V)>, k: K, v: V)
    requires KeysDistinct(d)
    ensures KeysDistinct(Put(d, k, v))
  {
    if |d| > 0 && d[0].0 != k {
      PutDistinct(d[1..], k, v);
      PutLookup(d[1..], k, v);
      var r := Put(d, k, v);
      var t := Put(d[1..], k, v);
      assert r == [d[0]] + t;
      assert !HasKey(d[1..], d[0].0) by {
        forall j | 0 <= j < |d| - 1
          ensures d[1..][j].0 != d[0].0
        {
          assert d[1..][j] == d[j + 1];
        }
      }
      assert Lookup(t, d[0].0) == None;
      forall i | 0 <= i < |t|
        ensures t[i].0 != d[0].0
      {
      }
    } else if |d| > 0 {
      assert Put(d, k, v)[1..] == d[1..];
    }
  }

  ghost predicate StrictTotalOrder<K(!new)>(lt: (K, K) -> bool) {
    && (forall a :: !lt(a, a))
    && (forall a, b, c :: lt(a, b) && lt(b, c) ==> lt(a, c))
    && (forall a, b :: a != b ==> lt(a, b) || lt(b, a))
  }

  predicate SortedBy<K(==), V(==)>(d: seq<(K, V)>, lt: (K, K) -> bool) {
    forall i, j :: 0 <= i < j < |d| ==> lt(d[i].0, d[j].0)
  }

  /** A strictly sorted sequence of items never repeats a key. */
  lemma SortedKeysDistinct<K(!new), V>(d: seq<(K, V)>, lt: (K, K) -> bool)
    requires StrictTotalOrder(lt) && SortedBy(d, lt)
    ensures KeysDistinct(d)
  {
  }

  function Insert<K(==), V(==)>(e: (K, V), d: seq<(K, V)>, lt: (K, K) -> bool): (r: seq<(K, V)>)
    ensures multiset(r) == multiset(d) + multiset{e}
  {
    if |d| == 0 then [e]
    else if lt(e.0, d[0].0) then [e] + d
    else
      assert d == [d[0]] + d[1..];
      [d[0]] + Insert(e, d[1..], lt)
  }

  lemma {:induction false} InsertSorted<K(!new), V>(e: (K, V), d: seq<(K, V)>, lt: (K, K) -> bool)
    requires StrictTotalOrder(lt) && SortedBy(d, lt)
    requires forall i :: 0 <= i < |d| ==> d[i].0 != e.0
    ensures SortedBy(Insert(e, d, lt), lt)
  {
    if |d| > 0 && !lt(e.0, d[0].0) {
      var rest := Insert(e, d[1..], lt);
      InsertSorted(e, d[1..], lt);
      assert lt(d[0].0, e.0);
      var r := [d[0]] + rest;
      forall j | 0 < j < |r|
        ensures lt(d[0].0, r[j].0)
      {
        assert r[j] == rest[j - 1];
        assert rest[j - 1] in multiset(rest);
        assert rest[j - 1] in multiset(d[1..]) + multiset{e};
        if rest[j - 1] != e {
          assert rest[j - 1] in d[1..];
        }
      }
    }
  }

  /** The items of `d` ordered by key: `{k: d[k] for k in sorted(d.keys())}`. */
  function SortByKey<K(!new,==), V(==)>(d: seq<(K, V)>, lt: (K, K) -> bool): (r: seq<(K, V)>)
    requires StrictTotalOrder(lt) && KeysDistinct(d)
    ensures SortedBy(r, lt)
    ensures multiset(r) == multiset(d)
    ensures |r| == |d|
  {
    if |d| == 0 then []
    else
      KeysDistinctTail(d);
      var rest := SortByKey(d[1..], lt);
      TailAvoidsHead(d, rest);
      InsertSorted(d[0], rest, lt);
      assert d == [d[0]] + d[1..];
      Insert(d[0], rest, lt)
  }

  lemma {:induction false} KeysDistinctTail<K, V>(d: seq<(K, V)>)
    requires |d| > 0 && KeysDistinct(d)
    ensures KeysDistinct(d[1..])
  {
    forall i, j | 0 <= i < j < |d| - 1
      ensures d[1..][i].0 != d[1..][j].0
    {
      assert d[1..][i] == d[i + 1] && d[1..][j] == d[j + 1];
    }
  }

  /** A re-ordering of the tail of a list with distinct keys never holds the head's key. */
  lemma {:induction false} TailAvoidsHead<K, V>(d: seq<(K, V)>, rest: seq<(K, V)>)
    requires |d| > 0 && KeysDistinct(d) && multiset(rest) == multiset(d[1..])
    ensures forall i :: 0 <= i < |rest| ==> rest[i].0 != d[0].0
  {
    forall i | 0 <= i < |rest|
      ensures rest[i].0 != d[0].0
    {
      assert rest[i] in multiset(d[1..]);
      var j :| 0 <= j < |d[1..]| && d[1..][j] == rest[i];
      assert d[j + 1] == rest[i];
    }
  }

  /** Re-ordering by key keeps exactly the items, so every lookup is unchanged. */
  lemma SortByKeyLookup<K(!new), V>(d: seq<(K, V)>, lt: (K, K) -> bool, k: K)
    requires StrictTotalOrder(lt) && KeysDistinct(d)
    ensures Lookup(SortByKey(d, lt), k) == Lookup(d, k)
  {
    var r := SortByKey(d, lt);
    SortedKeysDistinct(r, lt);
    LookupDistinct(r, k);
    LookupDistinct(d, k);
    forall e ensures e in r <==> e in d {
      assert e in r <==> e in multiset(r);
      assert e in d <==> e in multiset(d);
    }
  }

  /** With distinct keys, a lookup finds the one item carrying the key. */
  lemma {:induction false} LookupDistinct<K, V>(d: seq<(K, V)>, k: K)
    requires KeysDistinct(d)
    ensures forall v :: (k, v) in d <==> Lookup(d, k) == Some(v)
  {
    if |d| > 0 {
      LookupDistinct(d[1..], k);
      if d[0].0 == k {
        forall v | (k, v) in d
          ensures v == d[0].1
        {
          var i :| 0 <= i < |d| && d[i] == (k, v);
          assert i == 0;
        }
      }
    }
  }

  /** Every item after an assignment is an old item or the assigned one. */
  lemma {:induction false} PutMembers<K, V>(d: seq<(K, V)>, k: K, v: V)
    ensures forall e :: e in Put(d, k, v) ==> e in d || e == (k, v)
  {
    if |d| > 0 && d[0].0 != k {
      PutMembers(d[1..], k, v);
      assert Put(d, k, v) == [d[0]] + Put(d[1..], k, v);
      forall e | e in d[1..]
        ensures e in d
      {
      }
    } else if |d| > 0 {
      forall e | e in d[1..]
        ensures e in d
      {
      }
    }
  }

  /** Sorting by key neither adds nor drops an item. */
  lemma SortByKeyMembers<K(!new), V>(d: seq<(K, V)>, lt: (K, K) -> bool)
    requires StrictTotalOrder(lt) && KeysDistinct(d)
    ensures forall e :: e in SortByKey(d, lt) <==> e in d
  {
    var r := SortByKey(d, lt);
    forall e ensures e in r <==> e in d {
      assert e in r <==> e in multiset(r);
      assert e in d <==> e in multiset(d);
    }
  }

  /** Each item of the sorted list sits somewhere in the original list. */
  lemma SortByKeySource<K(!new), V>(d: seq<(K, V)>, lt: (K, K) -> bool, i: nat) returns (j: nat)
    requires StrictTotalOrder(lt) && KeysDistinct(d) && i < |SortByKey(d, lt)|
    ensures j < |d| && d[j] == SortByKey(d, lt)[i]
  {
    var r := SortByKey(d, lt);
    assert r[i] in multiset(r);
    assert r[i] in multiset(d);
    j :| 0 <= j < |d| && d[j] == r[i];
  }

  /** After `d[k] = v` the keys are the old keys and `k`. */
  lemma PutKeys<K, V>(d: seq<(K, V)>, k: K, v: V, k': K)
    ensures HasKey(Put(d, k, v), k') <==> HasKey(d, k') || k' == k
  {
    PutLookup(d, k, v);
  }

  /** Sorting by key keeps the key set. */
  lemma SortByKeyHasKey<K(!new), V>(d: seq<(K, V)>, lt: (K, K) -> bool, k: K)
    requires StrictTotalOrder(lt) && KeysDistinct(d)
    ensures HasKey(SortByKey(d, lt), k) <==> HasKey(d, k)
  {
    SortByKeyLookup(d, lt, k);
  }

  /** The ascending order on natural numbers, the order `sorted` gives integer keys. */
  predicate NatLess(a: nat, b: nat) { a < b }

  lemma NatLessIsStrictTotal()
    ensures StrictTotalOrder(NatLess)
  {
  }
}
