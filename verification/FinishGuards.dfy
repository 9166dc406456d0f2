/** Which tasks keep a lifecycle from finishing: those whose latest completed review says blocked. */
module FinishGuards {
  import opened Wrappers
  import opened JsMaps
  import opened JournalTypes

  datatype LatestReview = LatestReview(seqNo: nat, outcome: Option<ReviewOutcome>)

  predicate IsReviewForTask(e: JournalEvent) {
    e.kind == ReviewCompleted && e.taskId.Some?
  }

  predicate ReviewsTask(e: JournalEvent, task: string) {
    IsReviewForTask(e) && e.taskId.value == task
  }

  predicate ShouldReplace(prior: Option<LatestReview>, seqNo: nat) {
    prior == None || prior.value.seqNo < seqNo
  }

  /** events[i] is the task's review with the highest sequence number, the first if several share it. */
  ghost predicate IsLatest(events: seq<JournalEvent>, i: nat, task: string) {
    && i < |events| && ReviewsTask(events[i], task)
    && forall j :: 0 <= j < |events| && ReviewsTask(events[j], task) ==>
         events[j].seqNo <= events[i].seqNo && (j < i ==> events[j].seqNo < events[i].seqNo)
  }

  ghost predicate IsBlocked(events: seq<JournalEvent>, task: string) {
    exists i: nat :: IsLatest(events, i, task) && events[i].reviewOutcome == Some(Blocked)
  }

  // ----- the order of strings: by code unit, a prefix first -----

  predicate NotAfter(a: string, b: string) {
    a == "" || (b != "" && (a[0] < b[0] || (a[0] == b[0] && NotAfter(a[1..], b[1..]))))
  }

  ghost predicate Sorted(names: seq<string>) {
    forall i, j :: 0 <= i < j < |names| ==> NotAfter(names[i], names[j])
  }

  lemma {:induction false} NotAfterTotal(a: string, b: string)
    ensures NotAfter(a, b) || NotAfter(b, a)
    ensures NotAfter(a, b) && NotAfter(b, a) ==> a == b
  {
    if a != "" && b != "" {
      NotAfterTotal(a[1..], b[1..]);
      assert a == [a[0]] + a[1..] && b == [b[0]] + b[1..];
    }
  }

  lemma {:induction false} NotAfterTransitive(a: string, b: string, c: string)
    requires NotAfter(a, b) && NotAfter(b, c)
    ensures NotAfter(a, c)
  {
    if a != "" && a[0] == b[0] == c[0] {
      NotAfterTransitive(a[1..], b[1..], c[1..]);
    }
  }

  function Insert(name: string, names: seq<string>): seq<string> {
    if names == [] then [name]
    else if NotAfter(name, names[0]) then [name] + names
    else [names[0]] + Insert(name, names[1..])
  }

  /** What Array.prototype.sort makes of strings. */
  function Sort(names: seq<string>): seq<string> {
    if names == [] then [] else Insert(names[0], Sort(names[1..]))
  }

  lemma {:induction false} InsertAdds(name: string, names: seq<string>)
    ensures multiset(Insert(name, names)) == multiset(names) + multiset{name}
  {
    if names != [] {
      InsertAdds(name, names[1..]);
      assert names == [names[0]] + names[1..];
    }
  }

  lemma {:induction false} InsertSorts(name: string, names: seq<string>)
    requires Sorted(names)
    ensures Sorted(Insert(name, names))
  {
    if names != [] {
      NotAfterTotal(name, names[0]);
      if NotAfter(name, names[0]) {
        forall i | 0 <= i < |names| ensures NotAfter(name, names[i]) {
          if i > 0 { NotAfterTransitive(name, names[0], names[i]); }
        }
      } else {
        var rest := Insert(name, names[1..]);
        InsertSorts(name, names[1..]);
        InsertAdds(name, names[1..]);
        forall i | 0 <= i < |rest| ensures NotAfter(names[0], rest[i]) {
          assert rest[i] in multiset(rest);
          assert rest[i] == name || rest[i] in names[1..];
        }
      }
    }
  }

  lemma {:induction false} SortSorts(names: seq<string>)
    ensures multiset(Sort(names)) == multiset(names) && Sorted(Sort(names))
  {
    if names != [] {
      SortSorts(names[1..]);
      InsertAdds(names[0], Sort(names[1..]));
      InsertSorts(names[0], Sort(names[1..]));
      assert names == [names[0]] + names[1..];
    }
  }

  lemma OccursOnce<T>(xs: seq<T>, i: nat)
    requires Distinct(xs) && i < |xs|
    ensures multiset(xs)[xs[i]] == 1
  {
    var before, after := xs[..i], xs[i + 1..];
    assert xs == before + [xs[i]] + after;
    assert xs[i] !in before && xs[i] !in after;
    hide *;
    assert multiset(xs) == multiset(before) + multiset{xs[i]} + multiset(after);
  }

  lemma OccursTwice<T>(xs: seq<T>, i: nat, j: nat)
    requires i < j < |xs| && xs[i] == xs[j]
    ensures multiset(xs)[xs[i]] >= 2
  {
    var before, between, after := xs[..i], xs[i + 1..j], xs[j + 1..];
    assert xs == before + [xs[i]] + between + [xs[i]] + after;
  }

  lemma DistinctIff<T>(xs: seq<T>)
    ensures Distinct(xs) <==> forall x :: x in xs ==> multiset(xs)[x] == 1
  {
    if Distinct(xs) {
      forall i | 0 <= i < |xs| ensures multiset(xs)[xs[i]] == 1 {
        OccursOnce(xs, i);
      }
    } else {
      var i, j :| 0 <= i < j < |xs| && xs[i] == xs[j];
      OccursTwice(xs, i, j);
    }
  }

  lemma SameElements<T>(a: seq<T>, b: seq<T>)
    requires multiset(a) == multiset(b)
    ensures forall x :: x in a <==> x in b
    ensures Distinct(a) <==> Distinct(b)
  {
    hide Distinct;
    forall x ensures x in a <==> x in b {
      assert x in multiset(a) <==> x in multiset(b);
    }
    DistinctIff(a);
    DistinctIff(b);
  }

  /** A sorted list without duplicates is determined by its elements. */
  lemma {:induction false} SortedUnique(a: seq<string>, b: seq<string>)
    requires Sorted(a) && Sorted(b) && Distinct(a) && Distinct(b)
    requires forall n :: n in a <==> n in b
    ensures a == b
  {
    assert a != [] ==> a[0] in b;
    assert b != [] ==> b[0] in a;
    if a != [] && b != [] {
      NotAfterTotal(a[0], b[0]);
      forall n ensures n in a[1..] <==> n in b[1..] {
        InTail(a, n);
        InTail(b, n);
      }
      SortedUnique(a[1..], b[1..]);
    }
  }

  lemma InTail(a: seq<string>, n: string)
    requires a != [] && Distinct(a)
    ensures n in a[1..] <==> n in a && n != a[0]
  {
  }

  // ----- the guard -----

  method CollectBlockedTasks(latest: JsMap<string, LatestReview>) returns (blocked: seq<string>)
    requires latest.Valid()
    ensures Sorted(blocked) && Distinct(blocked)
    ensures forall t :: t in blocked <==> t in latest.vals && latest.vals[t].outcome == Some(Blocked)
  {
    hide Sorted, NotAfter, Sort;
    blocked := [];
    for i := 0 to |latest.keys|
      invariant Distinct(blocked)
      invariant forall t :: t in blocked <==> t in latest.keys[..i] && latest.vals[t].outcome == Some(Blocked)
    {
      assert latest.keys[..i + 1] == latest.keys[..i] + [latest.keys[i]];
      if latest.vals[latest.keys[i]].outcome == Some(Blocked) {
        blocked := blocked + [latest.keys[i]];
      }
    }
    assert latest.keys[..|latest.keys|] == latest.keys;
    SortSorts(blocked);
    SameElements(Sort(blocked), blocked);
    blocked := Sort(blocked);
  }

  /** The map holds, for every task reviewed so far, its latest review. */
  ghost predicate HoldsLatest(latest: JsMap<string, LatestReview>, events: seq<JournalEvent>) {
    && latest.Valid()
    && (forall j :: 0 <= j < |events| && IsReviewForTask(events[j]) ==> events[j].taskId.value in latest.vals)
    && (forall t :: t in latest.vals ==> HasLatest(events, t, latest.vals[t]))
  }

  ghost predicate HasLatest(events: seq<JournalEvent>, task: string, review: LatestReview) {
    exists i: nat :: IsLatest(events, i, task) && review == LatestReview(events[i].seqNo, events[i].reviewOutcome)
  }

  lemma {:induction false} LatestStays(events: seq<JournalEvent>, e: JournalEvent, task: string, review: LatestReview)
    requires HasLatest(events, task, review) && !(ReviewsTask(e, task) && review.seqNo < e.seqNo)
    ensures HasLatest(events + [e], task, review)
  {
    var i: nat :| IsLatest(events, i, task) && review == LatestReview(events[i].seqNo, events[i].reviewOutcome);
    assert IsLatest(events + [e], i, task);
  }

  lemma {:induction false} LatestReplaced(latest: JsMap<string, LatestReview>, events: seq<JournalEvent>,
                                      e: JournalEvent)
    requires HoldsLatest(latest, events) && IsReviewForTask(e)
    requires e.taskId.value in latest.vals ==> latest.vals[e.taskId.value].seqNo < e.seqNo
    ensures HasLatest(events + [e], e.taskId.value, LatestReview(e.seqNo, e.reviewOutcome))
  {
    var more, task := events + [e], e.taskId.value;
    if task in latest.vals {
      var i: nat :| IsLatest(events, i, task)
                    && latest.vals[task] == LatestReview(events[i].seqNo, events[i].reviewOutcome);
      assert forall j :: 0 <= j < |events| && ReviewsTask(events[j], task) ==> events[j].seqNo < e.seqNo;
    }
    assert forall j :: 0 <= j < |events| ==> more[j] == events[j];
    assert IsLatest(more, |events|, task);
  }

  function After(latest: JsMap<string, LatestReview>, e: JournalEvent): JsMap<string, LatestReview> {
    if !IsReviewForTask(e) then latest
    else
      var task := e.taskId.value;
      var prior := if task in latest.vals then Some(latest.vals[task]) else None;
      if ShouldReplace(prior, e.seqNo) then latest.Put(task, LatestReview(e.seqNo, e.reviewOutcome)) else latest
  }

  lemma AfterHoldsLatest(latest: JsMap<string, LatestReview>, events: seq<JournalEvent>, e: JournalEvent)
    requires HoldsLatest(latest, events)
    ensures HoldsLatest(After(latest, e), events + [e])
  {
    hide HasLatest, JsMap.Valid;
    var after := After(latest, e);
    if IsReviewForTask(e) {
      PutValid(latest, e.taskId.value, LatestReview(e.seqNo, e.reviewOutcome));
    }
    forall t | t in after.vals ensures HasLatest(events + [e], t, after.vals[t]) {
      if t in latest.vals && after.vals[t] == latest.vals[t] && !(ReviewsTask(e, t) && latest.vals[t].seqNo < e.seqNo) {
        LatestStays(events, e, t, latest.vals[t]);
      } else {
        LatestReplaced(latest, events, e);
      }
    }
  }

  /** The result is the sorted, duplicate-free list of exactly the tasks whose latest review is blocked. */
  method DetectBlockedTasks(events: seq<JournalEvent>) returns (blocked: seq<string>)
    ensures Sorted(blocked) && Distinct(blocked)
    ensures forall t :: t in blocked <==> IsBlocked(events, t)
  {
    hide IsBlocked, HasLatest, Sorted;
    var latest: JsMap<string, LatestReview> := JsMap([], map[]);
    for i := 0 to |events|
      invariant HoldsLatest(latest, events[..i])
    {
      assert events[..i + 1] == events[..i] + [events[i]];
      AfterHoldsLatest(latest, events[..i], events[i]);
      if IsReviewForTask(events[i]) {
        var task := events[i].taskId.value;
        var prior := if task in latest.vals then Some(latest.vals[task]) else None;
        if ShouldReplace(prior, events[i].seqNo) {
          latest := latest.Put(task, LatestReview(events[i].seqNo, events[i].reviewOutcome));
        }
      }
    }
    assert events[..|events|] == events;
    blocked := CollectBlockedTasks(latest);
    forall t ensures t in latest.vals && latest.vals[t].outcome == Some(Blocked) <==> IsBlocked(events, t) {
      LatestIsBlocked(latest, events, t);
    }
  }

  lemma LatestIsBlocked(latest: JsMap<string, LatestReview>, events: seq<JournalEvent>, t: string)
    requires HoldsLatest(latest, events)
    ensures t in latest.vals && latest.vals[t].outcome == Some(Blocked) <==> IsBlocked(events, t)
  {
    if IsBlocked(events, t) {
      var i: nat :| IsLatest(events, i, t) && events[i].reviewOutcome == Some(Blocked);
      assert events[i].taskId.value in latest.vals;
      var j: nat :| IsLatest(events, j, t) && latest.vals[t] == LatestReview(events[j].seqNo, events[j].reviewOutcome);
    }
  }

  ghost predicate DistinctSeqs(events: seq<JournalEvent>) {
    Distinct(events) && forall e, f :: e in events && f in events && e.seqNo == f.seqNo ==> e == f
  }

  /** When no two events share a number, the latest review is the one with the highest number. */
  ghost predicate HasBlockedReview(events: seq<JournalEvent>, task: string) {
    exists e :: e in events && ReviewsTask(e, task) && e.reviewOutcome == Some(Blocked)
                && forall f :: f in events && ReviewsTask(f, task) ==> f.seqNo <= e.seqNo
  }

  lemma {:induction false} BlockedIff(events: seq<JournalEvent>, task: string)
    requires DistinctSeqs(events)
    ensures IsBlocked(events, task) <==> HasBlockedReview(events, task)
  {
    if IsBlocked(events, task) {
      var i: nat :| IsLatest(events, i, task) && events[i].reviewOutcome == Some(Blocked);
      assert events[i] in events;
    }
    if HasBlockedReview(events, task) {
      var e :| e in events && ReviewsTask(e, task) && e.reviewOutcome == Some(Blocked)
               && forall f :: f in events && ReviewsTask(f, task) ==> f.seqNo <= e.seqNo;
      var i: nat :| i < |events| && events[i] == e;
      assert IsLatest(events, i, task);
    }
  }

  /** Any two answers the guard may give for a permutation of the journal are equal. */
  lemma {:induction false} OrderOfEventsIsIrrelevant(events: seq<JournalEvent>, shuffled: seq<JournalEvent>,
                                  a: seq<string>, b: seq<string>)
    requires DistinctSeqs(events) && multiset(events) == multiset(shuffled)
    requires Sorted(a) && Distinct(a) && forall t :: t in a <==> IsBlocked(events, t)
    requires Sorted(b) && Distinct(b) && forall t :: t in b <==> IsBlocked(shuffled, t)
    ensures a == b
  {
    SameElements(events, shuffled);
    hide IsBlocked, HasBlockedReview, Sorted, Distinct;
    forall t ensures t in a <==> t in b {
      BlockedIff(events, t);
      BlockedIff(shuffled, t);
    }
    SortedUnique(a, b);
  }
}
