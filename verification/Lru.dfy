/** The LRU cache that the fetch tracker and the mindmodel injector build on the insertion order
    of a JavaScript Map, and its inclusion property over every trace. */
module Lru {
  import opened Wrappers
  import opened JsMaps

  type Cache<V> = JsMap<string, V>

  function Empty<V>(): Cache<V> {
    JsMap([], map[])
  }

  // ----- what each operation does to the Map -----

  function Lookup<V>(c: Cache<V>, key: string): Option<V> {
    if key in c.vals then Some(c.vals[key]) else None
  }

  function AfterGet<V>(c: Cache<V>, key: string): Cache<V> {
    if key in c.vals then c.Delete(key).Put(key, c.vals[key]) else c
  }

  function AfterSet<V>(c: Cache<V>, key: string, value: V, maxSize: nat): Cache<V> {
    if key in c.vals then c.Delete(key).Put(key, value)
    else if |c.keys| >= maxSize && c.keys != [] then c.Delete(c.keys[0]).Put(key, value)
    else c.Put(key, value)
  }

  /** The cache object of the source: its methods reassign the Map it closes over. */
  class LRUCache<V> {
    var cache: Cache<V>
    const maxSize: nat

    constructor (maxSize: nat)
      ensures cache == Empty() && this.maxSize == maxSize
    {
      cache := Empty();
      this.maxSize := maxSize;
    }

    method Get(key: string) returns (value: Option<V>)
      modifies this
      ensures value == Lookup(old(cache), key)
      ensures cache == AfterGet(old(cache), key)
    {
      if key !in cache.vals { return None; }
      value := Some(cache.vals[key]);
      cache := cache.Delete(key);
      cache := cache.Put(key, value.value);
    }

    method Has(key: string) returns (has: bool)
      ensures has <==> key in cache.vals
    {
      has := key in cache.vals;
    }

    method Set(key: string, value: V)
      modifies this
      ensures cache == AfterSet(old(cache), key, value, maxSize)
    {
      if key in cache.vals {
        cache := cache.Delete(key);
      } else if |cache.keys| >= maxSize {
        if cache.keys != [] { cache := cache.Delete(cache.keys[0]); }
      }
      cache := cache.Put(key, value);
    }

    method Delete(key: string)
      modifies this
      ensures cache == old(cache).Delete(key)
    {
      cache := cache.Delete(key);
    }

    method Clear()
      modifies this
      ensures cache == Empty()
    {
      cache := Empty();
    }
  }

  // ----- traces -----

  datatype Op<V> = Get(key: string) | Set(key: string, value: V) | Delete(key: string) | Clear

  function Apply<V>(c: Cache<V>, op: Op<V>, maxSize: nat): Cache<V> {
    match op
    case Get(key) => AfterGet(c, key)
    case Set(key, value) => AfterSet(c, key, value, maxSize)
    case Delete(key) => c.Delete(key)
    case Clear => Empty()
  }

  function Run<V>(ops: seq<Op<V>>, maxSize: nat): Cache<V> {
    if ops == [] then Empty() else Apply(Run(ops[..|ops| - 1], maxSize), ops[|ops| - 1], maxSize)
  }

  /** What was last set for the key and neither deleted nor cleared since. */
  function LastSet<V>(ops: seq<Op<V>>, key: string): Option<V> {
    if ops == [] then None
    else
      var earlier := LastSet(ops[..|ops| - 1], key);
      match ops[|ops| - 1]
      case Get(_) => earlier
      case Set(k, value) => if k == key then Some(value) else earlier
      case Delete(k) => if k == key then None else earlier
      case Clear => None
  }

  function Capacity(maxSize: nat): nat {
    if maxSize == 0 then 1 else maxSize
  }

  function Touched(ks: seq<string>, key: string): seq<string> {
    Without(ks, key) + [key]
  }

  lemma TouchedKeys<V>(c: Cache<V>, key: string, value: V)
    requires c.Valid() && key in c.vals
    ensures c.Delete(key).Put(key, value).Valid()
    ensures c.Delete(key).Put(key, value) == JsMap(Touched(c.keys, key), c.vals[key := value])
  {
    DeleteValid(c, key);
    PutValid(c.Delete(key), key, value);
    assert (c.vals - {key})[key := value] == c.vals[key := value];
  }

  lemma GetInvariant<V>(c: Cache<V>, key: string)
    requires c.Valid()
    ensures AfterGet(c, key).Valid() && |AfterGet(c, key).keys| == |c.keys|
    ensures AfterGet(c, key).vals == c.vals
  {
    if key in c.vals {
      TouchedKeys(c, key, c.vals[key]);
      WithoutDistinct(c.keys, key);
    }
  }

  lemma SetInvariant<V>(c: Cache<V>, key: string, value: V, maxSize: nat)
    requires c.Valid() && |c.keys| <= Capacity(maxSize)
    ensures AfterSet(c, key, value, maxSize).Valid()
    ensures |AfterSet(c, key, value, maxSize).keys| <= Capacity(maxSize)
    ensures AfterSet(c, key, value, maxSize).vals.Keys <= c.vals.Keys + {key}
    ensures forall k :: k in AfterSet(c, key, value, maxSize).vals ==>
              AfterSet(c, key, value, maxSize).vals[k] == if k == key then value else c.vals[k]
  {
    if key in c.vals {
      DeleteValid(c, key);
      WithoutDistinct(c.keys, key);
    } else if c.keys != [] {
      DeleteValid(c, c.keys[0]);
      WithoutDistinct(c.keys, c.keys[0]);
    }
  }

  lemma DeleteInvariant<V>(c: Cache<V>, key: string)
    requires c.Valid()
    ensures c.Delete(key).Valid() && |c.Delete(key).keys| <= |c.keys|
    ensures c.Delete(key).vals == c.vals - {key}
  {
    DeleteValid(c, key);
    WithoutIn(c.keys, key);
  }

  /** Keys stay distinct, the size stays within capacity, and each value is the last one set. */
  lemma {:induction false} RunInvariant<V>(ops: seq<Op<V>>, maxSize: nat)
    ensures Run(ops, maxSize).Valid()
    ensures |Run(ops, maxSize).keys| <= Capacity(maxSize)
    ensures forall k :: k in Run(ops, maxSize).vals ==> LastSet(ops, k) == Some(Run(ops, maxSize).vals[k])
  {
    hide AfterGet, AfterSet;
    if ops != [] {
      RunInvariant(ops[..|ops| - 1], maxSize);
      var c := Run(ops[..|ops| - 1], maxSize);
      match ops[|ops| - 1]
      case Get(key) => GetInvariant(c, key);
      case Set(key, value) => SetInvariant(c, key, value, maxSize);
      case Delete(key) => DeleteInvariant(c, key);
      case Clear =>
    }
  }

  // ----- inclusion -----

  /** The recency order of small is that of big without the entry extra, if there is one; and
      the values of small are those of big. */
  ghost predicate Below<V>(small: Cache<V>, big: Cache<V>, extra: Option<string>) {
    && small.Valid() && big.Valid()
    && small.keys == (if extra.Some? then Without(big.keys, extra.value) else big.keys)
    && (extra.Some? ==> extra.value in big.keys)
    && forall k :: k in small.vals ==> k in big.vals && big.vals[k] == small.vals[k]
  }

  lemma WithoutTouched(ks: seq<string>, key: string, x: string)
    ensures key != x ==> Without(Touched(ks, key), x) == Touched(Without(ks, x), key)
    ensures key == x ==> Without(Touched(ks, key), x) == Without(ks, x)
  {
    WithoutConcat(Without(ks, key), [key], x);
    WithoutSwap(ks, key, x);
    if key == x {
      WithoutIn(ks, key);
      WithoutAbsent(Without(ks, key), key);
    }
  }

  /** Touching a key that both caches hold. */
  lemma TouchBoth<V>(small: Cache<V>, big: Cache<V>, extra: Option<string>, key: string, value: V)
    requires Below(small, big, extra) && key in small.vals
    ensures Below(small.Delete(key).Put(key, value), big.Delete(key).Put(key, value), extra)
  {
    TouchedKeys(small, key, value);
    TouchedKeys(big, key, value);
    WithoutIn(big.keys, key);
    if extra.Some? {
      WithoutIn(big.keys, extra.value);
      WithoutTouched(big.keys, key, extra.value);
    }
  }

  lemma GetKeepsBelow<V>(small: Cache<V>, big: Cache<V>, extra: Option<string>, key: string)
    requires Below(small, big, extra)
    ensures Below(AfterGet(small, key), AfterGet(big, key), extra)
  {
    if extra.Some? { WithoutIn(big.keys, extra.value); }
    if key in small.vals {
      TouchBoth(small, big, extra, key, small.vals[key]);
    } else if key in big.vals {
      TouchedKeys(big, key, big.vals[key]);
      WithoutTouched(big.keys, key, extra.value);
    }
  }

  lemma DeleteKeepsBelow<V>(small: Cache<V>, big: Cache<V>, extra: Option<string>, key: string)
    requires Below(small, big, extra)
    ensures Below(small.Delete(key), big.Delete(key), if extra == Some(key) then None else extra)
  {
    DeleteValid(small, key);
    DeleteValid(big, key);
    WithoutIn(big.keys, key);
    if extra.Some? {
      WithoutIn(big.keys, extra.value);
      WithoutSwap(big.keys, key, extra.value);
    }
  }

  lemma SetKeepsBelow<V>(small: Cache<V>, big: Cache<V>, extra: Option<string>, key: string, value: V, k: nat)
    returns (extra': Option<string>)
    requires Below(small, big, extra) && k >= 1 && |small.keys| <= k
    ensures Below(AfterSet(small, key, value, k), AfterSet(big, key, value, k + 1), extra')
  {
    if key in small.vals {
      extra' := extra;
      TouchBoth(small, big, extra, key, value);
    } else if key in big.vals {
      if extra.Some? { WithoutIn(big.keys, extra.value); }
      extra' := SetExtra(small, big, key, value, k);
    } else {
      extra' := SetNew(small, big, extra, key, value, k);
    }
  }

  /** What setting a key leaves of the values. */
  ghost predicate ValuesAfterSet<V>(before: Cache<V>, after: Cache<V>, key: string, value: V) {
    && after.Valid() && key in after.vals && after.vals[key] == value
    && forall k :: k in after.vals && k != key ==> k in before.vals && after.vals[k] == before.vals[k]
  }

  lemma BelowAfterSet<V>(small: Cache<V>, big: Cache<V>, extra: Option<string>,
                         small': Cache<V>, big': Cache<V>, extra': Option<string>, key: string, value: V)
    requires Below(small, big, extra)
    requires ValuesAfterSet(small, small', key, value) && ValuesAfterSet(big, big', key, value)
    requires small'.keys == (if extra'.Some? then Without(big'.keys, extra'.value) else big'.keys)
    requires extra'.Some? ==> extra'.value in big'.keys
    ensures Below(small', big', extra')
  {
    forall k | k in small'.vals ensures k in big'.vals && big'.vals[k] == small'.vals[k] {
      assert k in small'.keys;
      if extra'.Some? { WithoutIn(big'.keys, extra'.value); }
      assert k in big'.keys;
    }
  }

  /** Setting the one key that only the larger cache holds. */
  lemma SetExtra<V>(small: Cache<V>, big: Cache<V>, key: string, value: V, k: nat) returns (extra': Option<string>)
    requires Below(small, big, Some(key)) && k >= 1 && |small.keys| <= k && key !in small.vals
    ensures Below(AfterSet(small, key, value, k), AfterSet(big, key, value, k + 1), extra')
  {
    TouchedKeys(big, key, value);
    SetFresh(small, key, value, k);
    extra' := if |small.keys| < k then None else Some(small.keys[0]);
    if |small.keys| == k { WithoutFirst(small.keys, key); }
    BelowAfterSet(small, big, Some(key), AfterSet(small, key, value, k),
                    AfterSet(big, key, value, k + 1), extra', key, value);
  }

  /** Setting a key that neither cache holds. */
  lemma SetNew<V>(small: Cache<V>, big: Cache<V>, extra: Option<string>, key: string, value: V, k: nat)
    returns (extra': Option<string>)
    requires Below(small, big, extra) && k >= 1 && |small.keys| <= k && key !in big.vals
    ensures Below(AfterSet(small, key, value, k), AfterSet(big, key, value, k + 1), extra')
  {
    assert Distinct(small.keys) && Distinct(big.keys) && key !in big.keys && key !in small.keys && key !in small.vals;
    assert small.keys == (if extra.Some? then Without(big.keys, extra.value) else big.keys);
    assert extra.Some? ==> extra.value in big.keys;
    assert small.Valid() && big.Valid();
    hide *;
    SetFresh(small, key, value, k);
    SetFresh(big, key, value, k + 1);
    extra' := KeysAfterNew(small.keys, big.keys, extra, key, k);
    BelowAfterSet(small, big, extra, AfterSet(small, key, value, k),
                    AfterSet(big, key, value, k + 1), extra', key, value);
  }

  function KeysWithNew(ks: seq<string>, key: string, maxSize: nat): seq<string>
    requires maxSize >= 1
  {
    (if |ks| >= maxSize then ks[1..] else ks) + [key]
  }

  lemma KeysAfterNew(small: seq<string>, big: seq<string>, extra: Option<string>, key: string, k: nat)
    returns (extra': Option<string>)
    requires Distinct(small) && Distinct(big) && key !in big && key !in small
    requires small == (if extra.Some? then Without(big, extra.value) else big)
    requires extra.Some? ==> extra.value in big
    requires k >= 1 && |small| <= k
    ensures KeysWithNew(small, key, k)
            == var ks := KeysWithNew(big, key, k + 1);
               if extra'.Some? then Without(ks, extra'.value) else ks
    ensures extra'.Some? ==> extra'.value in KeysWithNew(big, key, k + 1)
  {
    extra' := extra;
    if extra.None? {
      if |small| == k {
        extra' := Some(small[0]);
        WithoutFirst(small, key);
      }
    } else {
      var x := extra.value;
      WithoutDistinct(big, x);
      if |small| < k {
        WithoutConcat(big, [key], x);
      } else if big[0] == x {
        extra' := Some(small[0]);
        WithoutFirst(big, key);
        WithoutFirst(small, key);
      } else {
        WithoutConcat(big[1..], [key], x);
      }
    }
  }

  /** Dropping the least recent of distinct keys, with a new key added at the end. */
  lemma WithoutFirst(ks: seq<string>, key: string)
    requires Distinct(ks) && ks != [] && key !in ks
    ensures Without(ks, ks[0]) == ks[1..] && Without(ks + [key], ks[0]) == ks[1..] + [key]
  {
    WithoutAbsent(ks[1..], ks[0]);
    WithoutConcat(ks, [key], ks[0]);
  }

  lemma SetFresh<V>(c: Cache<V>, key: string, value: V, maxSize: nat)
    requires c.Valid() && key !in c.vals && maxSize >= 1
    ensures var c' := AfterSet(c, key, value, maxSize);
            && ValuesAfterSet(c, c', key, value)
            && c'.keys == KeysWithNew(c.keys, key, maxSize)
  {
    if |c.keys| >= maxSize {
      DeleteValid(c, c.keys[0]);
      WithoutFirst(c.keys, key);
    }
  }

  /** Over every trace, the cache of capacity k is the cache of capacity k + 1 with at most one
      entry missing: the same recency order and the same values. */
  lemma {:induction false} Inclusion<V>(ops: seq<Op<V>>, k: nat) returns (extra: Option<string>)
    requires k >= 1
    ensures Below(Run(ops, k), Run(ops, k + 1), extra)
  {
    if ops == [] {
      extra := None;
    } else {
      var before, op := ops[..|ops| - 1], ops[|ops| - 1];
      extra := Inclusion(before, k);
      RunInvariant(before, k);
      var small, big := Run(before, k), Run(before, k + 1);
      match op
      case Get(key) => GetKeepsBelow(small, big, extra, key);
      case Set(key, value) => extra := SetKeepsBelow(small, big, extra, key, value, k);
      case Delete(key) =>
        DeleteKeepsBelow(small, big, extra, key);
        extra := if extra == Some(key) then None else extra;
      case Clear => extra := None;
    }
  }

  /** Whatever hits in a smaller cache hits in a larger one, with the value that was set last. */
  lemma {:induction false} LargerCacheHits<V>(ops: seq<Op<V>>, k: nat, l: nat, key: string)
    requires 1 <= k <= l && key in Run(ops, k).vals
    ensures Lookup(Run(ops, l), key) == Lookup(Run(ops, k), key) == LastSet(ops, key)
    decreases l - k
  {
    hide Run, LastSet;
    RunInvariant(ops, k);
    if k < l {
      var extra := Inclusion(ops, k);
      LargerCacheHits(ops, k + 1, l, key);
    }
  }

  // ----- how far back a key is kept -----

  /** The other keys used since the key last was, after a use of k. */
  function Using(used: set<string>, k: string, key: string): set<string> {
    if k == key then {} else used + {k}
  }

  /** The other keys that were set, or found by a get, since the key last was, and not deleted since. */
  function UsedSince<V>(ops: seq<Op<V>>, key: string, maxSize: nat): set<string>
    decreases |ops|, 0
  {
    if ops == [] then {}
    else
      var before := ops[..|ops| - 1];
      var earlier := UsedSince(before, key, maxSize);
      match ops[|ops| - 1]
      case Get(k) => if Held(before, k, maxSize) then Using(earlier, k, key) else earlier
      case Set(k, _) => Using(earlier, k, key)
      case Delete(k) => earlier - {k}
      case Clear => {}
  }

  /** At some time since the key was last set or found there were as many such others as the cache holds. */
  predicate Crowded<V>(ops: seq<Op<V>>, key: string, maxSize: nat)
    decreases |ops|, 1
  {
    ops != [] &&
    (var before, op := ops[..|ops| - 1], ops[|ops| - 1];
     && !(op.Set? && op.key == key) && !(op == Get(key) && Held(before, key, maxSize))
     && (Crowded(before, key, maxSize) || |UsedSince(ops, key, maxSize)| >= Capacity(maxSize)))
  }

  /** The key was set, and since its last use never crowded out. No cache is needed to tell. */
  predicate Held<V>(ops: seq<Op<V>>, key: string, maxSize: nat)
    decreases |ops|, 2
  {
    LastSet(ops, key).Some? && !Crowded(ops, key, maxSize)
  }

  /** The keys behind the key. */
  function After(ks: seq<string>, key: string): seq<string> {
    if ks == [] then [] else if ks[0] == key then ks[1..] else After(ks[1..], key)
  }

  function KeySet(ks: seq<string>): set<string> {
    set k | k in ks
  }

  lemma {:induction false} AfterIn(ks: seq<string>, key: string)
    ensures forall k :: k in After(ks, key) ==> k in ks
    ensures key in ks ==> |After(ks, key)| < |ks|
  {
    if ks != [] && ks[0] != key { AfterIn(ks[1..], key); }
  }

  lemma {:induction false} AfterConcat(ks: seq<string>, more: seq<string>, key: string)
    requires key in ks
    ensures After(ks + more, key) == After(ks, key) + more
  {
    if ks[0] == key {
      assert (ks + more)[1..] == ks[1..] + more;
    } else {
      assert (ks + more)[1..] == ks[1..] + more;
      AfterConcat(ks[1..], more, key);
    }
  }

  lemma {:induction false} AfterLast(ks: seq<string>, key: string)
    requires key !in ks
    ensures After(ks + [key], key) == []
  {
    if ks != [] {
      assert (ks + [key])[1..] == ks[1..] + [key];
      AfterLast(ks[1..], key);
    }
  }

  lemma {:induction false} AfterWithout(ks: seq<string>, k: string, key: string)
    requires k != key
    ensures After(Without(ks, k), key) == Without(After(ks, key), k)
  {
    if ks != [] && ks[0] != key { AfterWithout(ks[1..], k, key); }
  }

  lemma {:induction false} KeySetSize(ks: seq<string>)
    ensures |KeySet(ks)| <= |ks|
    ensures Distinct(ks) ==> |KeySet(ks)| == |ks|
  {
    if ks != [] {
      KeySetSize(ks[1..]);
      assert KeySet(ks) == KeySet(ks[1..]) + {ks[0]};
    }
  }

  /** The keys behind the key are those used since, and all that was set and not crowded out is there. */
  ghost predicate Matches<V>(c: Cache<V>, key: string, used: set<string>, wasSet: bool, crowded: bool) {
    && (key in c.vals <==> wasSet && !crowded)
    && (key in c.vals ==> used == KeySet(After(c.keys, key)))
  }

  lemma FewBehind<V>(c: Cache<V>, key: string)
    requires c.Valid() && key in c.vals
    ensures |KeySet(After(c.keys, key))| < |c.keys|
  {
    AfterIn(c.keys, key);
    KeySetSize(After(c.keys, key));
  }

  lemma SameMatches<V>(c: Cache<V>, key: string, used: set<string>, wasSet: bool, crowded: bool, maxSize: nat)
    requires c.Valid() && |c.keys| <= Capacity(maxSize) && Matches(c, key, used, wasSet, crowded)
    ensures Matches(c, key, used, wasSet, crowded || |used| >= Capacity(maxSize))
  {
    if key in c.vals { FewBehind(c, key); }
  }

  lemma BehindAfterTouch<V>(c: Cache<V>, k: string, value: V, key: string)
    requires c.Valid() && k in c.vals && key in c.vals
    ensures KeySet(After(c.Delete(k).Put(k, value).keys, key)) == Using(KeySet(After(c.keys, key)), k, key)
  {
    var rest := Without(c.keys, k);
    TouchedKeys(c, k, value);
    WithoutIn(c.keys, k);
    if k == key {
      AfterLast(rest, key);
    } else {
      AfterConcat(rest, [k], key);
      AfterWithout(c.keys, k, key);
      WithoutIn(After(c.keys, key), k);
      hide Without, After;
      assert KeySet(Without(After(c.keys, key), k) + [k]) == KeySet(After(c.keys, key)) + {k};
    }
  }

  /** Touching a key moves it behind all others. */
  lemma TouchMatches<V>(c: Cache<V>, k: string, value: V, key: string, used: set<string>, wasSet: bool, crowded: bool,
                        maxSize: nat)
    requires c.Valid() && |c.keys| <= Capacity(maxSize) && k in c.vals && Matches(c, key, used, wasSet, crowded)
    ensures var others := Using(used, k, key);
            Matches(c.Delete(k).Put(k, value), key, others, wasSet || k == key,
                    k != key && (crowded || |others| >= Capacity(maxSize)))
  {
    var after := c.Delete(k).Put(k, value);
    TouchedKeys(c, k, value);
    WithoutDistinct(c.keys, k);
    hide After, KeySet, JsMap.Delete, JsMap.Put, Without;
    if key in c.vals {
      BehindAfterTouch(c, k, value, key);
      FewBehind(after, key);
    }
  }

  lemma GetMatches<V>(c: Cache<V>, k: string, key: string, used: set<string>, wasSet: bool, crowded: bool, maxSize: nat)
    requires c.Valid() && |c.keys| <= Capacity(maxSize) && Matches(c, key, used, wasSet, crowded)
    ensures var others := if k in c.vals then Using(used, k, key) else used;
            Matches(AfterGet(c, k), key, others, wasSet,
                    !(k == key && k in c.vals) && (crowded || |others| >= Capacity(maxSize)))
  {
    hide Matches, Using;
    MatchesSet(c, key, used, wasSet, crowded);
    if k in c.vals {
      TouchMatches(c, k, c.vals[k], key, used, wasSet, crowded, maxSize);
    } else {
      SameMatches(c, key, used, wasSet, crowded, maxSize);
    }
  }

  lemma MatchesSet<V>(c: Cache<V>, key: string, used: set<string>, wasSet: bool, crowded: bool)
    requires Matches(c, key, used, wasSet, crowded)
    ensures key in c.vals ==> wasSet
  {
  }

  lemma BehindAfterNew<V>(c: Cache<V>, k: string, value: V, key: string, maxSize: nat)
    requires c.Valid() && |c.keys| <= Capacity(maxSize) && k !in c.vals
    requires key in AfterSet(c, k, value, maxSize).vals
    ensures var behind := KeySet(After(AfterSet(c, k, value, maxSize).keys, key));
            if k == key then behind == {} else key in c.vals && behind == KeySet(After(c.keys, key)) + {k}
  {
    var kept := NewKeys(c, k, value, maxSize);
    hide AfterSet;
    if k == key {
      AfterLast(kept, key);
    } else {
      KeptBehind(c.keys, kept, key);
      AfterConcat(kept, [k], key);
      hide After;
      assert KeySet(After(c.keys, key) + [k]) == KeySet(After(c.keys, key)) + {k};
    }
  }

  /** The key that a new one pushes out has all the others behind it. */
  lemma PushedOut<V>(c: Cache<V>, k: string, value: V, key: string, maxSize: nat)
    requires c.Valid() && |c.keys| <= Capacity(maxSize) && k !in c.vals
    requires key in c.vals && key !in AfterSet(c, k, value, maxSize).vals
    ensures |KeySet(After(c.keys, key)) + {k}| >= Capacity(maxSize)
  {
    var kept := NewKeys(c, k, value, maxSize);
    hide AfterSet;
    assert kept == c.keys[1..] && key == c.keys[0] && After(c.keys, key) == kept;
    KeySetSize(kept);
    assert |KeySet(kept) + {k}| == |KeySet(kept)| + 1;
  }

  /** A new key is put behind all others, and pushes the first one out when the cache is full. */
  lemma NewMatches<V>(c: Cache<V>, k: string, value: V, key: string, used: set<string>, wasSet: bool, crowded: bool,
                      maxSize: nat)
    requires c.Valid() && |c.keys| <= Capacity(maxSize) && k !in c.vals && Matches(c, key, used, wasSet, crowded)
    ensures var others := Using(used, k, key);
            Matches(AfterSet(c, k, value, maxSize), key, others, wasSet || k == key,
                    k != key && (crowded || |others| >= Capacity(maxSize)))
  {
    var after := AfterSet(c, k, value, maxSize);
    SetInvariant(c, k, value, maxSize);
    SetHits(c, k, value, maxSize);
    hide After, KeySet, AfterSet;
    if key in after.vals {
      BehindAfterNew(c, k, value, key, maxSize);
      FewBehind(after, key);
    } else if key in c.vals {
      PushedOut(c, k, value, key, maxSize);
    }
  }

  lemma SetHits<V>(c: Cache<V>, k: string, value: V, maxSize: nat)
    ensures k in AfterSet(c, k, value, maxSize).vals
  {
  }

  lemma NewKeys<V>(c: Cache<V>, k: string, value: V, maxSize: nat) returns (kept: seq<string>)
    requires c.Valid() && |c.keys| <= Capacity(maxSize) && k !in c.vals
    ensures var full := |c.keys| == Capacity(maxSize);
            kept == if full then c.keys[1..] else c.keys
    ensures var after := AfterSet(c, k, value, maxSize);
            && after.Valid() && after.keys == kept + [k] && |after.keys| <= Capacity(maxSize)
            && after.vals.Keys == KeySet(kept) + {k} && k !in kept && Distinct(kept)
  {
    kept := if |c.keys| == Capacity(maxSize) then c.keys[1..] else c.keys;
    SetInvariant(c, k, value, maxSize);
    if |c.keys| == Capacity(maxSize) { WithoutFirst(c.keys, k); }
  }

  lemma KeptBehind(ks: seq<string>, kept: seq<string>, key: string)
    requires ks != [] && key in kept && Distinct(ks) && (kept == ks || kept == ks[1..])
    ensures After(kept, key) == After(ks, key)
  {
  }

  lemma SetMatches<V>(c: Cache<V>, k: string, value: V, key: string, used: set<string>, wasSet: bool, crowded: bool,
                      maxSize: nat)
    requires c.Valid() && |c.keys| <= Capacity(maxSize) && Matches(c, key, used, wasSet, crowded)
    ensures var others := Using(used, k, key);
            Matches(AfterSet(c, k, value, maxSize), key, others, wasSet || k == key,
                    k != key && (crowded || |others| >= Capacity(maxSize)))
  {
    hide Matches, Using;
    if k in c.vals {
      TouchMatches(c, k, value, key, used, wasSet, crowded, maxSize);
    } else {
      NewMatches(c, k, value, key, used, wasSet, crowded, maxSize);
    }
  }

  /** Deleting a key drops it from those behind every other one. */
  lemma BehindAfterDelete<V>(c: Cache<V>, k: string, key: string)
    requires c.Valid() && key in c.vals && k != key
    ensures KeySet(After(c.Delete(k).keys, key)) == KeySet(After(c.keys, key)) - {k}
  {
    if k in c.vals {
      AfterWithout(c.keys, k, key);
      WithoutIn(After(c.keys, key), k);
    } else {
      AfterIn(c.keys, key);
    }
  }

  lemma DeleteMatches<V>(c: Cache<V>, k: string, key: string, used: set<string>, wasSet: bool, crowded: bool,
                         maxSize: nat)
    requires c.Valid() && |c.keys| <= Capacity(maxSize) && Matches(c, key, used, wasSet, crowded)
    ensures Matches(c.Delete(k), key, used - {k}, wasSet && k != key,
                    crowded || |used - {k}| >= Capacity(maxSize))
  {
    var after := c.Delete(k);
    DeleteInvariant(c, k);
    assert key in after.vals <==> key in c.vals && key != k;
    hide After, KeySet, JsMap.Delete;
    if key in after.vals {
      BehindAfterDelete(c, k, key);
      FewBehind(after, key);
    }
  }

  lemma {:induction false} RunMatches<V>(ops: seq<Op<V>>, key: string, maxSize: nat)
    ensures Matches(Run(ops, maxSize), key, UsedSince(ops, key, maxSize), LastSet(ops, key).Some?,
                    Crowded(ops, key, maxSize))
  {
    hide Matches, Using, AfterGet, AfterSet;
    if ops == [] {
      EmptyMatches<V>(key, {}, false);
    } else {
      var before, op := ops[..|ops| - 1], ops[|ops| - 1];
      var c := Run(before, maxSize);
      RunMatches(before, key, maxSize);
      RunInvariant(before, maxSize);
      var used, wasSet := UsedSince(before, key, maxSize), LastSet(before, key).Some?;
      var crowded := Crowded(before, key, maxSize);
      match op
      case Get(k) =>
        RunMatches(before, k, maxSize);
        HeldIsMatched(before, k, maxSize);
        GetMatches(c, k, key, used, wasSet, crowded, maxSize);
      case Set(k, value) => SetMatches(c, k, value, key, used, wasSet, crowded, maxSize);
      case Delete(k) => DeleteMatches(c, k, key, used, wasSet, crowded, maxSize);
      case Clear => EmptyMatches<V>(key, {}, Crowded(ops, key, maxSize));
    }
  }

  lemma EmptyMatches<V>(key: string, used: set<string>, crowded: bool)
    ensures Matches<V>(Empty(), key, used, false, crowded)
  {
  }

  lemma HeldIsMatched<V>(ops: seq<Op<V>>, key: string, maxSize: nat)
    requires Matches(Run(ops, maxSize), key, UsedSince(ops, key, maxSize), LastSet(ops, key).Some?,
                     Crowded(ops, key, maxSize))
    ensures key in Run(ops, maxSize).vals <==> Held(ops, key, maxSize)
  {
  }

  /** Over every trace, a key is in the cache exactly when it was set and since its last use was never
      crowded out by other keys. */
  lemma {:induction false} HeldIff<V>(ops: seq<Op<V>>, key: string, maxSize: nat)
    ensures key in Run(ops, maxSize).vals <==> Held(ops, key, maxSize)
  {
    RunMatches(ops, key, maxSize);
    HeldIsMatched(ops, key, maxSize);
  }

  predicate NoDeletes<V>(ops: seq<Op<V>>) {
    forall i :: 0 <= i < |ops| ==> !ops[i].Delete?
  }

  /** Without deletes the count now decides: a key is in the cache exactly when it was set and fewer other
      keys than the cache holds were set or found since its last use. */
  lemma {:induction false} StackDistance<V>(ops: seq<Op<V>>, key: string, maxSize: nat)
    requires NoDeletes(ops)
    ensures key in Run(ops, maxSize).vals <==>
            LastSet(ops, key).Some? && |UsedSince(ops, key, maxSize)| < Capacity(maxSize)
  {
    HeldIff(ops, key, maxSize);
    CrowdedNow(ops, key, maxSize);
    hide Run, LastSet, Crowded, UsedSince;
  }

  lemma {:induction false} CrowdedNow<V>(ops: seq<Op<V>>, key: string, maxSize: nat)
    requires NoDeletes(ops)
    ensures LastSet(ops, key).Some? ==>
              (Crowded(ops, key, maxSize) <==> |UsedSince(ops, key, maxSize)| >= Capacity(maxSize))
  {
    if ops != [] {
      var before, op := ops[..|ops| - 1], ops[|ops| - 1];
      CrowdedNow(before, key, maxSize);
      var used, now := UsedSince(before, key, maxSize), UsedSince(ops, key, maxSize);
      assert !op.Delete?;
      if op.Set? || op.Get? {
        assert used + {op.key} == used || |used + {op.key}| == |used| + 1;
      }
      hide Held, Run;
    }
  }
}
