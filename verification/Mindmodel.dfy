/** The task hash of the mindmodel injector, and its cache of injections, which must agree with
    computing them anew. A task is a sequence of UTF-16 code units. */
module Mindmodel {
  import opened Wrappers
  import opened Str
  import Lru

  type CodeUnit = n: nat | n < 0x1_0000
  type Task = seq<CodeUnit>

  const WORD := 0x1_0000_0000
  const EXACT := 0x20_0000_0000_0000 - 1  // the largest safe integer of a double

  /** The signed 32-bit reduction of the bit operators (section 7.1.6 of ECMA-262). */
  function ToInt32(x: int): int {
    var low := x % WORD;
    if low >= WORD / 2 then low - WORD else low
  }

  /** (hash << 5) - hash + char, before it is reduced again. */
  function HashSum(hash: int, c: CodeUnit): int {
    ToInt32(hash * 32) - hash + c
  }

  function Hash(task: Task): int {
    if task == [] then 0 else ToInt32(HashSum(Hash(task[..|task| - 1]), task[|task| - 1]))
  }

  method HashTask(task: Task) returns (hash: int)
    ensures hash == Hash(task)
  {
    hash := 0;
    for i := 0 to |task|
      invariant hash == Hash(task[..i])
      invariant -WORD / 2 <= hash < WORD / 2
    {
      SumIsExact(hash, task[i]);
      assert task[..i + 1][..i] == task[..i];
      hash := ToInt32(hash * 32) - hash + task[i];
      assert -EXACT <= hash <= EXACT;
      hash := ToInt32(hash);
    }
    assert task[..|task|] == task;
  }

  /** No intermediate value leaves the range in which doubles are exact. */
  lemma SumIsExact(hash: int, c: CodeUnit)
    requires -WORD / 2 <= hash < WORD / 2
    ensures -EXACT <= HashSum(hash, c) <= EXACT && -EXACT <= hash * 32 <= EXACT
  {
  }

  // ----- the polynomial -----

  /** The base-31 polynomial of the code units, the first one most significant. */
  function Poly(task: Task): int {
    if task == [] then 0 else Poly(task[..|task| - 1]) * 31 + task[|task| - 1]
  }

  function Pow31(n: nat): nat {
    if n == 0 then 1 else Pow31(n - 1) * 31
  }

  lemma ToInt32Reduces(x: int) returns (k: int)
    ensures x == ToInt32(x) + k * WORD
    ensures -WORD / 2 <= ToInt32(x) < WORD / 2
  {
    k := x / WORD + if x % WORD >= WORD / 2 then 1 else 0;
  }

  lemma ToInt32Ignores(x: int, k: int)
    ensures ToInt32(x + k * WORD) == ToInt32(x)
  {
    assert (x + k * WORD) % WORD == x % WORD;
  }

  lemma {:induction false} HashIsPoly(task: Task)
    ensures Hash(task) == ToInt32(Poly(task))
  {
    if task != [] {
      var init, c := task[..|task| - 1], task[|task| - 1];
      HashIsPoly(init);
      var h, p := Hash(init), Poly(init);
      var j := ToInt32Reduces(p);
      var k := ToInt32Reduces(h * 32);
      hide ToInt32;
      assert HashSum(h, c) == p * 31 + c + (-31 * j - k) * WORD;
      ToInt32Ignores(p * 31 + c, -31 * j - k);
    }
  }

  lemma {:induction false} PolyConcat(s: Task, t: Task)
    ensures Poly(s + t) == Poly(s) * Pow31(|t|) + Poly(t)
  {
    if t == [] {
      assert s + t == s;
    } else {
      var init, c := t[..|t| - 1], t[|t| - 1];
      assert (s + t)[..|s + t| - 1] == s + init;
      PolyConcat(s, init);
      assert Poly(s) * Pow31(|init|) * 31 == Poly(s) * Pow31(|t|);
    }
  }

  /** The hash of a concatenation is determined by the two hashes and the length of the second. */
  lemma {:induction false} HashConcat(s: Task, t: Task)
    ensures Hash(s + t) == ToInt32(Hash(s) * Pow31(|t|) + Hash(t))
  {
    hide Hash, Poly, ToInt32;
    HashIsPoly(s + t);
    HashIsPoly(s);
    HashIsPoly(t);
    PolyConcat(s, t);
    var j := ToInt32Reduces(Poly(s));
    var k := ToInt32Reduces(Poly(t));
    var w := Pow31(|t|);
    ToInt32Ignores(Hash(s) * w + Hash(t), j * w + k);
  }

  // ----- the key under which an injection is cached -----

  function HashKey(task: Task): string {
    var h := Hash(task);
    if h < 0 then "-" + NatToBase(-h, 36) else NatToBase(h, 36)
  }

  lemma {:induction false} NoMinus(n: nat)
    ensures NatToBase(n, 36) != "" && NatToBase(n, 36)[0] != '-'
  {
    if n >= 36 { NoMinus(n / 36); }
  }

  /** Two tasks share a key exactly when they share a hash. */
  lemma {:induction false} KeyIffHash(s: Task, t: Task)
    ensures HashKey(s) == HashKey(t) <==> Hash(s) == Hash(t)
  {
    hide Hash, NatToBase;
    var a, b := Hash(s), Hash(t);
    var x, y: nat := if a < 0 then -a else a, if b < 0 then -b else b;
    NoMinus(x);
    NoMinus(y);
    ValueOfNat(x, 36);
    ValueOfNat(y, 36);
    if HashKey(s) == HashKey(t) {
      assert a < 0 <==> HashKey(s)[0] == '-';
      assert b < 0 <==> HashKey(t)[0] == '-';
      assert a < 0 ==> HashKey(s)[1..] == NatToBase(x, 36) && HashKey(t)[1..] == NatToBase(y, 36);
    }
  }

  // ----- resolving an injection -----

  /** What the uncached computation yields: None when no category or no example matches. */
  type Compute = Task -> Option<string>

  function Stored(injection: Option<string>): string {
    if injection == None then "" else injection.value
  }

  function FromCache(value: string): Option<string> {
    if value == "" then None else Some(value)
  }

  /** Equal up to the empty string versus null. */
  predicate SameInjection(a: Option<string>, b: Option<string>) {
    (if a.Some? then a.value else "") == (if b.Some? then b.value else "")
  }

  /** Loading examples is awaited between the lookup and the store, so these are two steps, and
      the steps of several resolutions interleave in any order. */
  datatype Event = Begin(task: Task) | Finish(task: Task)

  function HitOf(c: Lru.Cache<string>, task: Task): Option<Option<string>> {
    var found := Lru.Lookup(c, HashKey(task));
    if found == None then None else Some(FromCache(found.value))
  }

  function Step(c: Lru.Cache<string>, e: Event, compute: Compute, maxEntries: nat): Lru.Cache<string> {
    match e
    case Begin(task) => Lru.AfterGet(c, HashKey(task))
    case Finish(task) => Lru.AfterSet(c, HashKey(task), Stored(compute(task)), maxEntries)
  }

  /** A hit of nothing is read as nothing, and never as an empty injection. */
  lemma HitIsNotEmpty(c: Lru.Cache<string>, task: Task)
    ensures HitOf(c, task) != Some(Some(""))
    ensures HashKey(task) in c.vals ==>
              HitOf(c, task).Some? && SameInjection(HitOf(c, task).value, Some(c.vals[HashKey(task)]))
  {
    hide HashKey;
  }

  class Injector {
    const matchedTasks: Lru.LRUCache<string>

    constructor (maxEntries: nat)
      ensures fresh(matchedTasks) && matchedTasks.cache == Lru.Empty() && matchedTasks.maxSize == maxEntries
    {
      matchedTasks := new Lru.LRUCache(maxEntries);
    }

    /** Some(injection) when the task is found in the cache. */
    method BeginResolve(task: Task, ghost compute: Compute) returns (hit: Option<Option<string>>)
      modifies matchedTasks
      ensures hit == HitOf(old(matchedTasks.cache), task)
      ensures matchedTasks.cache == Step(old(matchedTasks.cache), Begin(task), compute, matchedTasks.maxSize)
    {
      var injection := matchedTasks.Get(HashKey(task));
      if injection != None { return Some(FromCache(injection.value)); }
      hit := None;
    }

    method FinishResolve(task: Task, compute: Compute) returns (injection: Option<string>)
      modifies matchedTasks
      ensures injection == compute(task)
      ensures matchedTasks.cache == Step(old(matchedTasks.cache), Finish(task), compute, matchedTasks.maxSize)
    {
      injection := compute(task);
      matchedTasks.Set(HashKey(task), if injection == None then "" else injection.value);
    }
  }

  function Run(events: seq<Event>, compute: Compute, maxEntries: nat): Lru.Cache<string> {
    if events == [] then Lru.Empty()
    else Step(Run(events[..|events| - 1], compute, maxEntries), events[|events| - 1], compute, maxEntries)
  }

  /** Every cached value was stored for a task of the run that has this key. */
  ghost predicate StoredInRun(key: string, value: string, events: seq<Event>, compute: Compute) {
    exists i :: 0 <= i < |events| && HashKey(events[i].task) == key && Stored(compute(events[i].task)) == value
  }

  lemma {:induction false} CacheIsOfRun(events: seq<Event>, compute: Compute, maxEntries: nat)
    ensures Run(events, compute, maxEntries).Valid()
    ensures |Run(events, compute, maxEntries).keys| <= Lru.Capacity(maxEntries)
    ensures forall k :: k in Run(events, compute, maxEntries).vals ==>
              StoredInRun(k, Run(events, compute, maxEntries).vals[k], events, compute)
  {
    hide HashKey, Lru.AfterGet, Lru.AfterSet;
    if events != [] {
      var before, e := events[..|events| - 1], events[|events| - 1];
      var c := Run(before, compute, maxEntries);
      CacheIsOfRun(before, compute, maxEntries);
      match e {
        case Begin(task) => Lru.GetInvariant(c, HashKey(task));
        case Finish(task) => Lru.SetInvariant(c, HashKey(task), Stored(compute(task)), maxEntries);
      }
      var c' := Run(events, compute, maxEntries);
      forall k | k in c'.vals ensures StoredInRun(k, c'.vals[k], events, compute) {
        if e.Finish? && k == HashKey(e.task) {
          assert events[|events| - 1] == e;
        } else {
          var i :| 0 <= i < |before| && HashKey(before[i].task) == k && Stored(compute(before[i].task)) == c.vals[k];
          assert events[i] == before[i];
        }
      }
    }
  }

  /** If the tasks of a run have distinct hashes, a hit is what the uncached computation yields,
      through any history of evictions and any interleaving. */
  lemma {:induction false} HitIsUncached(events: seq<Event>, task: Task, compute: Compute, maxEntries: nat)
    requires forall i :: 0 <= i < |events| && Hash(events[i].task) == Hash(task) ==> events[i].task == task
    ensures var hit := HitOf(Run(events, compute, maxEntries), task);
            hit.Some? ==> SameInjection(hit.value, compute(task))
  {
    hide Run, Hash, HashKey;
    CacheIsOfRun(events, compute, maxEntries);
    var c := Run(events, compute, maxEntries);
    var key := HashKey(task);
    if key in c.vals {
      var i :| 0 <= i < |events| && HashKey(events[i].task) == key && Stored(compute(events[i].task)) == c.vals[key];
      KeyIffHash(events[i].task, task);
    }
  }

  /** Without distinct hashes it can fail: two tasks of equal hash share one cached value. */
  lemma CollisionServesOtherTask(s: Task, t: Task, compute: Compute, maxEntries: nat)
    requires Hash(s) == Hash(t) && !SameInjection(compute(s), compute(t))
    ensures var hit := HitOf(Run([Finish(s)], compute, maxEntries), t);
            hit.Some? && !SameInjection(hit.value, compute(t))
  {
    hide Hash, HashKey;
    KeyIffHash(s, t);
    assert [Finish(s)][..0] == [];
    assert Run([], compute, maxEntries) == Lru.Empty();
  }

  /** The cache agrees with the uncached computation in every run exactly when that computation
      cannot tell tasks of equal hash apart. */
  lemma {:induction false} CacheAgreesIff(compute: Compute, maxEntries: nat)
    ensures (forall events, task :: HitOf(Run(events, compute, maxEntries), task).Some? ==>
               SameInjection(HitOf(Run(events, compute, maxEntries), task).value, compute(task)))
            <==> forall s, t :: Hash(s) == Hash(t) ==> SameInjection(compute(s), compute(t))
  {
    hide Hash, HashKey, Run, SameInjection;
    if forall s, t :: Hash(s) == Hash(t) ==> SameInjection(compute(s), compute(t)) {
      forall events, task | HitOf(Run(events, compute, maxEntries), task).Some?
        ensures SameInjection(HitOf(Run(events, compute, maxEntries), task).value, compute(task))
      {
        var s := HitTask(events, task, compute, maxEntries);
        assert SameInjection(compute(s), compute(task));
        HitIsOfTask(events, task, s, compute, maxEntries);
      }
    } else {
      var s, t :| Hash(s) == Hash(t) && !SameInjection(compute(s), compute(t));
      CollisionServesOtherTask(s, t, compute, maxEntries);
    }
  }

  /** The task of the run that a hit was stored for. */
  lemma HitTask(events: seq<Event>, task: Task, compute: Compute, maxEntries: nat) returns (s: Task)
    requires HitOf(Run(events, compute, maxEntries), task).Some?
    ensures Hash(s) == Hash(task)
    ensures HitOf(Run(events, compute, maxEntries), task).value == FromCache(Stored(compute(s)))
  {
    hide Run, Hash, HashKey;
    CacheIsOfRun(events, compute, maxEntries);
    var c, key := Run(events, compute, maxEntries), HashKey(task);
    var i :| 0 <= i < |events| && HashKey(events[i].task) == key && Stored(compute(events[i].task)) == c.vals[key];
    s := events[i].task;
    KeyIffHash(s, task);
  }

  lemma HitIsOfTask(events: seq<Event>, task: Task, s: Task, compute: Compute, maxEntries: nat)
    requires HitOf(Run(events, compute, maxEntries), task).Some?
    requires HitOf(Run(events, compute, maxEntries), task).value == FromCache(Stored(compute(s)))
    requires SameInjection(compute(s), compute(task))
    ensures SameInjection(HitOf(Run(events, compute, maxEntries), task).value, compute(task))
  {
    hide Run, Hash, HashKey;
  }

  /** Such tasks exist. */
  lemma CollisionExists()
    ensures Hash([0, 31]) == Hash([1, 0])
  {
    hide Hash;
    HashIsPoly([0, 31]);
    HashIsPoly([1, 0]);
  }
}
