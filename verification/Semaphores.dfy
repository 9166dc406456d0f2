/** The counting semaphore of the atlas workers: acquire, release and the queue of waiters.
    A ticket stands for the promise an acquire returns; it is granted when the promise resolves. */
module Semaphores {
  import opened Wrappers

  type Ticket = nat

  datatype State = State(cap: int, inFlight: int, queue: seq<Ticket>, next: Ticket,
                         granted: seq<Ticket>, holders: set<Ticket>)

  datatype Op = Acquire | Release(holder: Ticket)

  function Initial(cap: int): State {
    State(cap, 0, [], 0, [], {})
  }

  function AfterAcquire(s: State): State {
    if s.inFlight < s.cap then
      s.(inFlight := s.inFlight + 1, next := s.next + 1, granted := s.granted + [s.next],
         holders := s.holders + {s.next})
    else s.(queue := s.queue + [s.next], next := s.next + 1)
  }

  /** The waiter that release wakes counts itself in before its promise resolves. */
  function AfterRelease(s: State, holder: Ticket): State {
    if s.queue == [] then s.(inFlight := s.inFlight - 1, holders := s.holders - {holder})
    else
      var woken := s.queue[0];
      s.(queue := s.queue[1..], granted := s.granted + [woken], holders := s.holders - {holder} + {woken})
  }

  function Step(s: State, op: Op): State {
    match op
    case Acquire => AfterAcquire(s)
    case Release(t) => AfterRelease(s, t)
  }

  class Semaphore {
    const cap: int
    var inFlight: int
    var queue: seq<Ticket>
    var next: Ticket

    constructor (cap: int)
      requires cap > 0
      ensures this.cap == cap && inFlight == 0 && queue == [] && next == 0
    {
      this.cap := cap;
      inFlight, queue, next := 0, [], 0;
    }

    /** The state these fields are in, given which tickets were granted and are held. */
    ghost function View(granted: seq<Ticket>, holders: set<Ticket>): State
      reads this
    {
      State(cap, inFlight, queue, next, granted, holders)
    }

    method Acquire(ghost granted: seq<Ticket>, ghost holders: set<Ticket>) returns (ticket: Ticket, now: bool)
      modifies this
      ensures ticket == old(next) && (now <==> old(inFlight) < cap)
      ensures var after := Step(old(View(granted, holders)), Op.Acquire);
              View(after.granted, after.holders) == after
              && after.granted == if now then granted + [ticket] else granted
    {
      ticket := next;
      next := next + 1;
      if inFlight < cap {
        inFlight := inFlight + 1;
        return ticket, true;
      }
      queue := queue + [ticket];
      now := false;
    }

    method Release(ghost holder: Ticket, ghost granted: seq<Ticket>, ghost holders: set<Ticket>)
      returns (woken: Option<Ticket>)
      modifies this
      ensures var after := Step(old(View(granted, holders)), Op.Release(holder));
              View(after.granted, after.holders) == after
              && after.granted == if woken == None then granted else granted + [woken.value]
    {
      inFlight := inFlight - 1;
      woken := None;
      if queue != [] {
        woken := Some(queue[0]);
        queue := queue[1..];
        inFlight := inFlight + 1;
      }
    }
  }

  method CreateSemaphore(cap: int) returns (r: Result<Semaphore>)
    ensures cap <= 0 ==> r == Err("semaphore cap must be positive")
    ensures cap > 0 ==> r.Ok? && fresh(r.value) && r.value.View([], {}) == Initial(cap)
  {
    if cap <= 0 { return Err("semaphore cap must be positive"); }
    var s := new Semaphore(cap);
    r := Ok(s);
  }

  // ----- runs in which only holders release -----

  function Run(ops: seq<Op>, s: State): State {
    if ops == [] then s else Step(Run(ops[..|ops| - 1], s), ops[|ops| - 1])
  }

  predicate OnlyHoldersRelease(ops: seq<Op>, s: State) {
    ops == [] ||
    (var before := ops[..|ops| - 1];
     var op := ops[|ops| - 1];
     OnlyHoldersRelease(before, s) && (op.Release? ==> op.holder in Run(before, s).holders))
  }

  function Requests(ops: seq<Op>): nat {
    if ops == [] then 0 else Requests(ops[..|ops| - 1]) + if ops[|ops| - 1].Acquire? then 1 else 0
  }

  function Releases(ops: seq<Op>): nat {
    if ops == [] then 0 else Releases(ops[..|ops| - 1]) + if ops[|ops| - 1].Release? then 1 else 0
  }

  lemma {:induction false} RequestsAndReleases(ops: seq<Op>)
    ensures Requests(ops) + Releases(ops) == |ops|
  {
    if ops != [] { RequestsAndReleases(ops[..|ops| - 1]); }
  }

  function From(start: nat, n: nat): seq<Ticket> {
    seq(n, i => start + i)
  }

  ghost predicate Invariant(s: State) {
    && s.inFlight == |s.holders| && 0 <= s.inFlight <= s.cap
    && (s.queue != [] ==> s.inFlight == s.cap)
    && s.granted == From(0, |s.granted|)
    && s.queue == From(|s.granted|, |s.queue|)
    && s.next == |s.granted| + |s.queue|
    && forall t :: t in s.holders ==> t < |s.granted|
  }

  lemma StepKeepsInvariant(s: State, op: Op)
    requires Invariant(s) && (op.Release? ==> op.holder in s.holders)
    ensures Invariant(Step(s, op))
  {
    if op.Release? && s.queue != [] {
      var woken := s.queue[0];
      assert woken == |s.granted| && woken !in s.holders;
      assert |s.holders - {op.holder} + {woken}| == |s.holders|;
    }
  }

  /** In flight is the number of holders, within the cap; nobody waits while there is room; tickets
      are granted in the order of the acquire calls; and every request is granted or waiting. */
  lemma {:induction false} RunInvariant(ops: seq<Op>, cap: int)
    requires cap > 0 && OnlyHoldersRelease(ops, Initial(cap))
    ensures var s := Run(ops, Initial(cap));
            && Invariant(s) && s.cap == cap
            && Requests(ops) == |s.granted| + |s.queue|
  {
    if ops != [] {
      RunInvariant(ops[..|ops| - 1], cap);
      StepKeepsInvariant(Run(ops[..|ops| - 1], Initial(cap)), ops[|ops| - 1]);
    }
  }

  /** Every release serves the front of the queue. */
  lemma {:induction false} QueueMovesUp(ops: seq<Op>, s: State)
    requires Invariant(s) && OnlyHoldersRelease(ops, s)
    ensures var after := Run(ops, s);
            && Invariant(after) && after.next >= s.next
            && |after.granted| >= |s.granted| + if Releases(ops) < |s.queue| then Releases(ops) else |s.queue|
  {
    if ops != [] {
      QueueMovesUp(ops[..|ops| - 1], s);
      StepKeepsInvariant(Run(ops[..|ops| - 1], s), ops[|ops| - 1]);
    }
  }

  /** No wake-up is lost: a waiter behind p others is granted after p + 1 releases at the latest,
      whoever acquires meanwhile. */
  lemma WaiterIsGranted(ops: seq<Op>, s: State, p: nat)
    requires Invariant(s) && OnlyHoldersRelease(ops, s)
    requires p < |s.queue| && Releases(ops) > p
    ensures s.queue[p] in Run(ops, s).granted
  {
    QueueMovesUp(ops, s);
    assert Run(ops, s).granted[s.queue[p]] == s.queue[p];
  }

  /** A release keeps the guarantees exactly when it is by a holder: any other one leaves the count
      below the holders, or wakes a waiter for a place that is taken. */
  lemma ReleaseKeepsIff(s: State, holder: Ticket)
    requires Invariant(s)
    ensures Invariant(Step(s, Release(holder))) <==> holder in s.holders
  {
    if holder in s.holders { StepKeepsInvariant(s, Release(holder)); }
    if holder !in s.holders {
      assert s.holders - {holder} == s.holders;
      if s.queue != [] {
        var woken := s.queue[0];
        assert woken == |s.granted| && woken !in s.holders;
        assert |s.holders + {woken}| == |s.holders| + 1;
      }
    }
  }

  /** With somebody waiting, a stray release lets more than cap hold at once. */
  lemma StrayReleaseOverfills(s: State, holder: Ticket)
    requires Invariant(s) && holder !in s.holders
    ensures |Step(s, Release(holder)).holders| > s.cap <==> s.queue != []
  {
    assert s.holders - {holder} == s.holders;
    if s.queue != [] {
      var woken := s.queue[0];
      assert woken == |s.granted| && woken !in s.holders;
      assert |s.holders + {woken}| == |s.holders| + 1;
    }
  }

  function Acquires(n: nat): seq<Op> {
    if n == 0 then [] else Acquires(n - 1) + [Acquire]
  }

  /** While there is room, every acquire adds a holder. */
  lemma {:induction false} AcquiresFill(s: State, n: nat)
    requires s.inFlight + n <= s.cap && forall t :: t in s.holders ==> t < s.next
    ensures OnlyHoldersRelease(Acquires(n), s)
    ensures var after := Run(Acquires(n), s);
            && after.cap == s.cap && after.inFlight == s.inFlight + n && |after.holders| == |s.holders| + n
            && forall t :: t in after.holders ==> t < after.next
  {
    if n > 0 {
      AcquiresFill(s, n - 1);
      AcquireLast(Acquires(n - 1), s);
      hide Run, OnlyHoldersRelease, AfterAcquire;
      AcquireFills(Run(Acquires(n - 1), s));
    }
  }

  lemma AcquireLast(ops: seq<Op>, s: State)
    ensures OnlyHoldersRelease(ops + [Acquire], s) <==> OnlyHoldersRelease(ops, s)
    ensures Run(ops + [Acquire], s) == AfterAcquire(Run(ops, s))
  {
    hide AfterAcquire;
    assert (ops + [Acquire])[..|ops|] == ops;
  }

  lemma AcquireFills(s: State)
    requires s.inFlight < s.cap && forall t :: t in s.holders ==> t < s.next
    ensures var after := AfterAcquire(s);
            && after.cap == s.cap && after.inFlight == s.inFlight + 1 && |after.holders| == |s.holders| + 1
            && forall t :: t in after.holders ==> t < after.next
  {
    assert |s.holders + {s.next}| == |s.holders| + 1;
  }

  lemma {:induction false} CapStays(ops: seq<Op>, s: State)
    ensures Run(ops, s).cap == s.cap
  {
    if ops != [] { CapStays(ops[..|ops| - 1], s); }
  }

  /** A release is by a holder exactly when no proper use of the semaphore afterwards lets more than cap
      hold at once: a stray one always costs the cap, now or as soon as the room it made is used. */
  lemma StrayReleaseIff(s: State, holder: Ticket)
    requires Invariant(s)
    ensures holder in s.holders <==>
            forall ops :: OnlyHoldersRelease(ops, Step(s, Release(holder))) ==>
                            |Run(ops, Step(s, Release(holder))).holders| <= s.cap
  {
    var after := Step(s, Release(holder));
    if holder in s.holders {
      StepKeepsInvariant(s, Release(holder));
      forall ops | OnlyHoldersRelease(ops, after) ensures |Run(ops, after).holders| <= s.cap {
        QueueMovesUp(ops, after);
        CapStays(ops, after);
      }
    } else {
      var ops := StrayReleaseCosts(s, holder);
    }
  }

  /** The use that shows it. */
  lemma StrayReleaseCosts(s: State, holder: Ticket) returns (ops: seq<Op>)
    requires Invariant(s) && holder !in s.holders
    ensures var after := Step(s, Release(holder));
            OnlyHoldersRelease(ops, after) && |Run(ops, after).holders| > s.cap
  {
    var after := Step(s, Release(holder));
    StrayReleaseOverfills(s, holder);
    if s.queue == [] {
      assert s.holders - {holder} == s.holders;
      ops := Acquires(s.cap - after.inFlight);
      hide Run, OnlyHoldersRelease;
      AcquiresFill(after, s.cap - after.inFlight);
    } else {
      ops := [];
    }
  }
}
