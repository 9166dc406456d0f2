/** A JavaScript Map: its entries are kept in the order their keys were first set
    (section 24.1 of ECMA-262). Deleting a key and setting it again moves it to the end. */
module JsMaps {
  datatype JsMap<K(==), V> = JsMap(keys: seq<K>, vals: map<K, V>)
  {
    ghost predicate Valid() {
      Distinct(keys) && (forall k :: k in keys ==> k in vals) && (forall k :: k in vals ==> k in keys)
    }

    function Delete(k: K): JsMap<K, V> {
      if k in vals then JsMap(Without(keys, k), vals - {k}) else this
    }

    function Put(k: K, v: V): JsMap<K, V> {
      JsMap(if k in vals then keys else keys + [k], vals[k := v])
    }
  }

  ghost predicate Distinct<K>(ks: seq<K>) {
    forall i, j :: 0 <= i < j < |ks| ==> ks[i] != ks[j]
  }

  lemma DistinctConcat<K>(a: seq<K>, b: seq<K>)
    requires Distinct(a) && Distinct(b) && forall x :: x in a ==> x !in b
    ensures Distinct(a + b)
  {
    forall i, j | 0 <= i < j < |a + b| ensures (a + b)[i] != (a + b)[j] {
      if i < |a| <= j { assert a[i] in a && b[j - |a|] in b; }
    }
  }

  function Without<K(==)>(ks: seq<K>, k: K): seq<K> {
    if ks == [] then []
    else if ks[0] == k then Without(ks[1..], k)
    else [ks[0]] + Without(ks[1..], k)
  }

  lemma {:induction false} WithoutIn<K>(ks: seq<K>, k: K)
    ensures forall x :: x in Without(ks, k) ==> x in ks && x != k
    ensures forall x :: x in ks && x != k ==> x in Without(ks, k)
    ensures |Without(ks, k)| <= |ks|
  {
    if ks != [] { WithoutIn(ks[1..], k); }
  }

  lemma {:induction false} WithoutAbsent<K>(ks: seq<K>, k: K)
    requires k !in ks
    ensures Without(ks, k) == ks
  {
    if ks != [] { WithoutAbsent(ks[1..], k); }
  }

  lemma {:induction false} WithoutConcat<K>(a: seq<K>, b: seq<K>, k: K)
    ensures Without(a + b, k) == Without(a, k) + Without(b, k)
  {
    if a == [] {
      assert a + b == b;
    } else {
      assert (a + b)[1..] == a[1..] + b;
      WithoutConcat(a[1..], b, k);
    }
  }

  lemma {:induction false} WithoutSwap<K>(ks: seq<K>, k: K, l: K)
    ensures Without(Without(ks, k), l) == Without(Without(ks, l), k)
  {
    if ks != [] {
      WithoutSwap(ks[1..], k, l);
    }
  }

  lemma {:induction false} WithoutDistinct<K>(ks: seq<K>, k: K)
    requires Distinct(ks)
    ensures Distinct(Without(ks, k))
    ensures k in ks ==> |Without(ks, k)| == |ks| - 1
  {
    if ks != [] {
      var rest := Without(ks[1..], k);
      WithoutDistinct(ks[1..], k);
      WithoutIn(ks[1..], k);
      if ks[0] == k {
        WithoutAbsent(ks[1..], k);
      } else {
        assert k in ks ==> k in ks[1..];
        forall j | 0 <= j < |rest| ensures rest[j] != ks[0] {
          assert rest[j] in ks[1..];
        }
      }
    }
  }

  lemma DeleteValid<K, V>(m: JsMap<K, V>, k: K)
    requires m.Valid()
    ensures m.Delete(k).Valid()
  {
    WithoutIn(m.keys, k);
    WithoutDistinct(m.keys, k);
  }

  lemma PutValid<K, V>(m: JsMap<K, V>, k: K, v: V)
    requires m.Valid()
    ensures m.Put(k, v).Valid()
  {
  }
}
