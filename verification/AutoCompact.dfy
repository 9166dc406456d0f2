/** Automatic compaction of a session: the flow that asks for a summary, the waiter that the summary
    message or a timeout settles, and the cooldown. Every await ends a step, so messages, timeouts
    and failures come in between in any order. */
module AutoCompact {
  import opened Wrappers

  type FlowId = nat

  datatype Config = Config(cooldownMs: nat, timeoutMs: nat)

  /** Where a flow is suspended: showing the first toast, inside summarize, waiting for the summary,
      in the steps after success, or showing the error toast. */
  datatype Phase = Toasting | Summarizing | Waiting | Finishing | Failing

  /** One session: the entries the hook keeps for it, the flows that are running, the armed timeouts
      with their due times, and as history which waiters there were, how often each was resolved or
      rejected, and when compactions succeeded since the last deletion. */
  datatype Session = Session(
    inProgress: bool, lastCompact: nat, pending: Option<FlowId>,
    now: nat, next: FlowId, flows: map<FlowId, Phase>, timers: map<FlowId, nat>,
    waiters: set<FlowId>, resolved: map<FlowId, nat>, rejected: map<FlowId, nat>, successes: set<nat>)

  const INITIAL := Session(false, 0, None, 0, 0, map[], map[], {}, map[], map[], {})

  function Count(m: map<FlowId, nat>, f: FlowId): nat {
    if f in m then m[f] else 0
  }

  datatype Event =
    | Tick(to: nat)
    | Message(summary: bool, overThreshold: bool)
    | ToastShown(flow: FlowId)
    | SummarizeReturned(flow: FlowId)
    | SummarizeFailed(flow: FlowId)
    | Resumed(flow: FlowId)
    | FlowEnded(flow: FlowId)
    | TimedOut(flow: FlowId)
    | Deleted

  /** A timeout fires when it is armed and due; a flow moves on from where it is suspended. */
  predicate Enabled(s: Session, e: Event) {
    match e
    case Tick(to) => s.now <= to
    case Message(_, _) => true
    case ToastShown(f) => f in s.flows && s.flows[f] == Toasting
    case SummarizeReturned(f) => f in s.flows && s.flows[f] == Summarizing
    case SummarizeFailed(f) => f in s.flows && s.flows[f] == Summarizing
    case Resumed(f) => f in s.flows && s.flows[f] == Waiting && Count(s.resolved, f) + Count(s.rejected, f) > 0
    case FlowEnded(f) => f in s.flows && (s.flows[f] == Finishing || s.flows[f] == Failing)
    case TimedOut(f) => f in s.timers && s.timers[f] <= s.now
    case Deleted => true
  }

  predicate Starts(s: Session, cfg: Config) {
    s.pending == None && !s.inProgress && s.now - s.lastCompact >= cfg.cooldownMs
  }

  function Started(s: Session): Session {
    s.(inProgress := true, flows := s.flows[s.next := Toasting], next := s.next + 1)
  }

  function Settled(s: Session, complete: bool): Session {
    if s.pending == None then s
    else
      var f := s.pending.value;
      var cleared := s.(pending := None, timers := s.timers - {f});
      if complete then cleared.(resolved := s.resolved[f := Count(s.resolved, f) + 1])
      else cleared.(rejected := s.rejected[f := Count(s.rejected, f) + 1])
  }

  function AfterMessage(s: Session, summary: bool, overThreshold: bool, cfg: Config): Session {
    if summary then Settled(s, true)
    else if overThreshold && Starts(s, cfg) then Started(s)
    else s
  }

  /** The waiter is entered, and its timeout armed, just before summarize is called. */
  function AfterToast(s: Session, f: FlowId, cfg: Config): Session {
    s.(pending := Some(f), timers := s.timers[f := s.now + cfg.timeoutMs], waiters := s.waiters + {f},
       flows := s.flows[f := Summarizing])
  }

  /** A timeout drops whatever entry the session has. */
  function AfterTimeout(s: Session, f: FlowId): Session {
    s.(timers := s.timers - {f}, pending := None, rejected := s.rejected[f := Count(s.rejected, f) + 1])
  }

  function AfterWait(s: Session, f: FlowId): Session {
    if Count(s.resolved, f) > 0 then
      s.(flows := s.flows[f := Finishing], lastCompact := s.now, successes := s.successes + {s.now})
    else s.(flows := s.flows[f := Failing])
  }

  function AfterDeletion(s: Session): Session {
    Settled(s.(inProgress := false, lastCompact := 0, successes := {}), false)
  }

  function Step(s: Session, e: Event, cfg: Config): Session
    requires Enabled(s, e)
  {
    match e
    case Tick(to) => s.(now := to)
    case Message(summary, overThreshold) => AfterMessage(s, summary, overThreshold, cfg)
    case ToastShown(f) => AfterToast(s, f, cfg)
    case SummarizeReturned(f) => s.(flows := s.flows[f := Waiting])
    case SummarizeFailed(f) => s.(flows := s.flows[f := Failing])
    case Resumed(f) => AfterWait(s, f)
    case FlowEnded(f) => s.(flows := s.flows - {f}, inProgress := false)
    case TimedOut(f) => AfterTimeout(s, f)
    case Deleted => AfterDeletion(s)
  }

  // ----- the invariant -----

  ghost predicate OneFlow(s: Session) {
    if s.inProgress then exists f :: s.flows.Keys == {f} && f < s.next else s.flows == map[]
  }

  /** A waiter has been settled exactly once, or is the pending one with its timeout armed. */
  ghost predicate SettledOnce(s: Session) {
    && (forall f :: f in s.waiters ==>
          f < s.next && Count(s.resolved, f) + Count(s.rejected, f) == if s.pending == Some(f) then 0 else 1)
    && (forall f :: f !in s.waiters ==> Count(s.resolved, f) + Count(s.rejected, f) == 0)
    && s.timers.Keys == (if s.pending == None then {} else {s.pending.value})
    && (s.pending.Some? ==> s.pending.value in s.waiters)
  }

  /** A flow that has not yet entered its waiter is alone: nothing is pending. */
  ghost predicate PhasesMatch(s: Session) {
    forall f :: f in s.flows ==>
      && (s.flows[f] == Toasting ==> s.pending == None && f !in s.waiters)
      && (s.flows[f] != Toasting ==> f in s.waiters && (s.pending == None || s.pending == Some(f)))
  }

  ghost predicate Invariant(s: Session) {
    && OneFlow(s) && SettledOnce(s) && PhasesMatch(s)
    && forall t :: t in s.successes ==> t <= s.lastCompact <= s.now
  }

  lemma MessageKeeps(s: Session, summary: bool, overThreshold: bool, cfg: Config)
    requires Invariant(s)
    ensures Invariant(AfterMessage(s, summary, overThreshold, cfg))
  {
    var after := AfterMessage(s, summary, overThreshold, cfg);
    if after == Started(s) { assert after.flows.Keys == {s.next}; }
  }

  lemma ToastKeeps(s: Session, f: FlowId, cfg: Config)
    requires Invariant(s) && Enabled(s, ToastShown(f))
    ensures Invariant(AfterToast(s, f, cfg))
  {
    assert s.timers == map[] && s.timers[f := s.now + cfg.timeoutMs].Keys == {f};
  }

  lemma WaitKeeps(s: Session, f: FlowId)
    requires Invariant(s) && Enabled(s, Resumed(f))
    ensures Invariant(AfterWait(s, f))
  {
  }

  lemma MoveKeeps(s: Session, f: FlowId, to: Phase)
    requires Invariant(s) && f in s.flows && s.flows[f] == Summarizing && to != Toasting
    ensures Invariant(s.(flows := s.flows[f := to]))
  {
  }

  lemma EndKeeps(s: Session, f: FlowId)
    requires Invariant(s) && Enabled(s, FlowEnded(f))
    ensures Invariant(s.(flows := s.flows - {f}, inProgress := false))
  {
  }

  lemma TimeoutKeeps(s: Session, f: FlowId)
    requires Invariant(s) && Enabled(s, TimedOut(f))
    ensures Invariant(AfterTimeout(s, f))
  {
    assert f in s.timers.Keys && s.pending == Some(f);
    assert AfterTimeout(s, f).timers.Keys == {};
  }

  lemma DeletionKeeps(s: Session)
    requires Invariant(s) && s.flows == map[]
    ensures Invariant(AfterDeletion(s))
  {
    assert s.inProgress ==> s.flows.Keys != {};
  }

  lemma StepKeeps(s: Session, e: Event, cfg: Config)
    requires Invariant(s) && Enabled(s, e) && (e.Deleted? ==> s.flows == map[])
    ensures Invariant(Step(s, e, cfg))
  {
    match e
    case Tick(_) =>
    case Message(summary, over) => hide Invariant; MessageKeeps(s, summary, over, cfg);
    case ToastShown(f) => hide Invariant; ToastKeeps(s, f, cfg);
    case SummarizeReturned(f) => hide Invariant; MoveKeeps(s, f, Waiting);
    case SummarizeFailed(f) => hide Invariant; MoveKeeps(s, f, Failing);
    case Resumed(f) => hide Invariant; WaitKeeps(s, f);
    case FlowEnded(f) => hide Invariant; EndKeeps(s, f);
    case TimedOut(f) => hide Invariant; TimeoutKeeps(s, f);
    case Deleted => hide Invariant; DeletionKeeps(s);
  }

  // ----- runs -----

  function Run(s: Session, events: seq<Event>, cfg: Config): Option<Session>
    decreases |events|
  {
    if events == [] then Some(s)
    else if Enabled(s, events[0]) then Run(Step(s, events[0], cfg), events[1..], cfg)
    else None
  }

  /** The session is deleted only while no flow of it is running. */
  predicate DeletedAtRest(s: Session, events: seq<Event>, cfg: Config)
    decreases |events|
  {
    events == [] || !Enabled(s, events[0]) ||
    ((events[0].Deleted? ==> s.flows == map[]) && DeletedAtRest(Step(s, events[0], cfg), events[1..], cfg))
  }

  lemma {:induction false} RunKeeps(s: Session, events: seq<Event>, cfg: Config)
    requires Invariant(s) && Run(s, events, cfg).Some? && DeletedAtRest(s, events, cfg)
    ensures Invariant(Run(s, events, cfg).value)
    decreases |events|
  {
    hide Invariant, Step, Enabled;
    if events != [] {
      StepKeeps(s, events[0], cfg);
      RunKeeps(Step(s, events[0], cfg), events[1..], cfg);
    }
  }

  /** Every run deleted at rest: at most one flow runs; and each waiter that there ever was has been
      settled exactly once, unless it is the pending one, whose timeout is armed. */
  lemma {:induction false} RunInvariant(events: seq<Event>, cfg: Config)
    requires Run(INITIAL, events, cfg).Some? && DeletedAtRest(INITIAL, events, cfg)
    ensures var s := Run(INITIAL, events, cfg).value;
            && Invariant(s) && |s.flows| <= 1
            && (forall f :: f in s.waiters && s.pending != Some(f) ==> Count(s.resolved, f) + Count(s.rejected, f) == 1)
            && (s.pending.Some? ==>
                  s.pending.value in s.timers &&
                  Count(s.resolved, s.pending.value) + Count(s.rejected, s.pending.value) == 0)
  {
    assert Invariant(INITIAL);
    RunKeeps(INITIAL, events, cfg);
    var s := Run(INITIAL, events, cfg).value;
    assert s.inProgress ==> |s.flows.Keys| == 1;
    assert |s.flows| == |s.flows.Keys|;
    assert s.pending.Some? ==> s.pending.value in s.timers.Keys;
  }

  lemma {:induction false} RunSplits(s: Session, events: seq<Event>, k: nat, cfg: Config)
    requires k <= |events| && Run(s, events, cfg).Some?
    ensures Run(s, events[..k], cfg).Some?
    ensures Run(Run(s, events[..k], cfg).value, events[k..], cfg) == Run(s, events, cfg)
    decreases k
  {
    hide Step, Enabled;
    if k == 0 {
      assert events[..0] == [] && events[0..] == events;
    } else {
      assert events[..k][1..] == events[1..][..k - 1] && events[k..] == events[1..][k - 1..];
      RunSplits(Step(s, events[0], cfg), events[1..], k - 1, cfg);
    }
  }

  /** The flow goes on after a summary: the compaction has succeeded. */
  predicate Succeeds(s: Session, e: Event) {
    e.Resumed? && Enabled(s, e) && Count(s.resolved, e.flow) > 0
  }

  predicate NoDeletion(events: seq<Event>) {
    forall i :: 0 <= i < |events| ==> !events[i].Deleted?
  }

  lemma {:induction false} SuccessStays(s: Session, events: seq<Event>, t: nat, cfg: Config)
    requires t in s.successes && NoDeletion(events) && Run(s, events, cfg).Some?
    ensures t in Run(s, events, cfg).value.successes
    decreases |events|
  {
    if events != [] {
      assert !events[0].Deleted?;
      assert t in Step(s, events[0], cfg).successes;
      assert NoDeletion(events[1..]);
      hide Step, Enabled;
      SuccessStays(Step(s, events[0], cfg), events[1..], t, cfg);
    }
  }

  lemma StartsRested(s: Session, e: Event, cfg: Config)
    requires Invariant(s) && Enabled(s, e) && exists f :: f in Step(s, e, cfg).flows && f !in s.flows
    ensures e.Message? && s.pending == None && s.flows == map[]
    ensures forall t :: t in s.successes ==> s.now >= t + cfg.cooldownMs
  {
  }

  /** In every run, a new flow appears only on a message, when nothing is pending and no flow runs; and
      no sooner than the cooldown after every success that no deletion follows. */
  lemma {:induction false} FlowStartsRested(events: seq<Event>, e: Event, cfg: Config)
    requires Run(INITIAL, events, cfg).Some? && DeletedAtRest(INITIAL, events, cfg)
    requires var s := Run(INITIAL, events, cfg).value;
             Enabled(s, e) && exists f :: f in Step(s, e, cfg).flows && f !in s.flows
    ensures var s := Run(INITIAL, events, cfg).value;
            e.Message? && s.pending == None && s.flows == map[]
    ensures forall i :: 0 <= i < |events| && SucceedsAt(events, i, cfg) && NoDeletion(events[i + 1..]) ==>
              Run(INITIAL, events, cfg).value.now >= Run(INITIAL, events[..i], cfg).value.now + cfg.cooldownMs
  {
    var s := Run(INITIAL, events, cfg).value;
    RunInvariant(events, cfg);
    StartsRested(s, e, cfg);
    hide Invariant, Step, Enabled;
    forall i | 0 <= i < |events| && SucceedsAt(events, i, cfg) && NoDeletion(events[i + 1..])
      ensures s.now >= Run(INITIAL, events[..i], cfg).value.now + cfg.cooldownMs
    {
      SuccessIsRecorded(events, i, cfg);
    }
  }

  /** The event at place i of the run is a success. */
  predicate SucceedsAt(events: seq<Event>, i: nat, cfg: Config)
    requires i < |events|
  {
    Run(INITIAL, events[..i], cfg).Some? && Succeeds(Run(INITIAL, events[..i], cfg).value, events[i])
  }

  lemma SuccessIsRecorded(events: seq<Event>, i: nat, cfg: Config)
    requires Run(INITIAL, events, cfg).Some? && i < |events|
    requires SucceedsAt(events, i, cfg) && NoDeletion(events[i + 1..])
    ensures Run(INITIAL, events[..i], cfg).value.now in Run(INITIAL, events, cfg).value.successes
  {
    RunSplits(INITIAL, events, i, cfg);
    var before := Run(INITIAL, events[..i], cfg).value;
    assert events[i..][0] == events[i] && events[i..][1..] == events[i + 1..];
    assert before.now in Step(before, events[i], cfg).successes;
    hide Step, Enabled;
    SuccessStays(Step(before, events[i], cfg), events[i + 1..], before.now, cfg);
  }

  // ----- told from the events: the clock, settled waiters, timeouts, and when a flow starts -----

  /** What the clock shows after these events. */
  function Clock(events: seq<Event>): nat {
    if events == [] then 0
    else if events[|events| - 1].Tick? then events[|events| - 1].to
    else Clock(events[..|events| - 1])
  }

  lemma {:induction false} RunLast(events: seq<Event>, cfg: Config) returns (s: Session)
    requires events != [] && Run(INITIAL, events, cfg).Some?
    ensures var before, e := events[..|events| - 1], events[|events| - 1];
            && Run(INITIAL, before, cfg) == Some(s) && Enabled(s, e)
            && Run(INITIAL, events, cfg) == Some(Step(s, e, cfg))
  {
    hide Step, Enabled;
    var n := |events| - 1;
    RunSplits(INITIAL, events, n, cfg);
    s := Run(INITIAL, events[..n], cfg).value;
    assert events[n..] == [events[n]] && [events[n]][1..] == [];
    assert Run(Step(s, events[n], cfg), [], cfg) == Some(Step(s, events[n], cfg));
  }

  lemma {:induction false} ClockIsNow(events: seq<Event>, cfg: Config)
    requires Run(INITIAL, events, cfg).Some?
    ensures Run(INITIAL, events, cfg).value.now == Clock(events)
  {
    if events != [] {
      var s := RunLast(events, cfg);
      ClockIsNow(events[..|events| - 1], cfg);
      hide Run, Enabled;
    }
  }

  /** The flow has shown its first toast, at this time; its timeout, if armed, is due the configured time later. */
  predicate Toasted(s: Session, f: FlowId, at: nat, cfg: Config) {
    && f < s.next && (f in s.flows ==> s.flows[f] != Toasting)
    && (f in s.timers ==> s.timers[f] == at + cfg.timeoutMs)
  }

  ghost predicate Timed(s: Session, events: seq<Event>, cfg: Config) {
    && (forall f :: f in s.flows ==> f < s.next)
    && (forall i :: 0 <= i < |events| && events[i].ToastShown? ==> Toasted(s, events[i].flow, Clock(events[..i]), cfg))
    && (forall f :: f in s.timers ==> ToastShown(f) in events)
    && (s.pending.Some? ==> s.pending.value in s.timers)
  }

  lemma StepKeepsToasted(s: Session, e: Event, f: FlowId, at: nat, cfg: Config)
    requires Enabled(s, e) && forall g :: g in s.flows ==> g < s.next
    ensures Toasted(s, f, at, cfg) ==> Toasted(Step(s, e, cfg), f, at, cfg)
    ensures e == ToastShown(f) ==> Toasted(Step(s, e, cfg), f, s.now, cfg)
  {
  }

  lemma StepArms(s: Session, e: Event, cfg: Config)
    requires Enabled(s, e) && (forall g :: g in s.flows ==> g < s.next)
    requires s.pending.Some? ==> s.pending.value in s.timers
    ensures var after := Step(s, e, cfg);
            && (forall f :: f in after.flows ==> f < after.next)
            && (forall f :: f in after.timers ==> f in s.timers || e == ToastShown(f))
            && (after.pending.Some? ==> after.pending.value in after.timers)
  {
  }

  lemma StepKeepsTimed(s: Session, events: seq<Event>, e: Event, cfg: Config)
    requires Timed(s, events, cfg) && Enabled(s, e) && s.now == Clock(events)
    ensures Timed(Step(s, e, cfg), events + [e], cfg)
  {
    var after, all := Step(s, e, cfg), events + [e];
    StepArms(s, e, cfg);
    hide Step, Enabled, Toasted, Clock;
    assert all[..|events|] == events && all[|events|] == e;
    forall i | 0 <= i < |all| && all[i].ToastShown? ensures Toasted(after, all[i].flow, Clock(all[..i]), cfg) {
      StepKeepsToasted(s, e, all[i].flow, Clock(all[..i]), cfg);
      if i < |events| { assert all[..i] == events[..i] && events[i] == all[i]; }
    }
    forall f | f in after.timers ensures ToastShown(f) in all {
      if f in s.timers { assert ToastShown(f) in events; }
    }
  }

  lemma {:induction false} RunIsTimed(events: seq<Event>, cfg: Config)
    requires Run(INITIAL, events, cfg).Some?
    ensures Timed(Run(INITIAL, events, cfg).value, events, cfg)
  {
    if events != [] {
      var before := events[..|events| - 1];
      var s := RunLast(events, cfg);
      RunIsTimed(before, cfg);
      ClockIsNow(before, cfg);
      assert before + [events[|events| - 1]] == events;
      hide Run, Step, Enabled, Timed;
      StepKeepsTimed(s, before, events[|events| - 1], cfg);
    }
  }

  /** In every run: the timeout of a flow fires only after its toast, and no sooner than the configured time after
      it; and while its waiter is pending, it can fire from then on. */
  lemma TimeoutIsOnTime(events: seq<Event>, f: FlowId, cfg: Config)
    requires Run(INITIAL, events, cfg).Some?
    ensures var s := Run(INITIAL, events, cfg).value;
            && (Enabled(s, TimedOut(f)) ==> ToastShown(f) in events)
            && forall i :: 0 <= i < |events| && events[i] == ToastShown(f) ==>
                 && (Enabled(s, TimedOut(f)) ==> Clock(events) >= Clock(events[..i]) + cfg.timeoutMs)
                 && (s.pending == Some(f) && Clock(events) >= Clock(events[..i]) + cfg.timeoutMs ==>
                       Enabled(s, TimedOut(f)))
  {
    RunIsTimed(events, cfg);
    ClockIsNow(events, cfg);
    hide Run, Clock;
    assert forall i :: 0 <= i < |events| && events[i] == ToastShown(f) ==>
                         Toasted(Run(INITIAL, events, cfg).value, f, Clock(events[..i]), cfg);
  }

  /** How far a flow has come: not started, in one of its phases, or over. */
  function Rank(s: Session, f: FlowId): int {
    if f in s.flows then
      match s.flows[f]
      case Toasting => 0
      case Summarizing => 1
      case Waiting => 2
      case Finishing => 3
      case Failing => 3
    else if f >= s.next then -1
    else 4
  }

  predicate IsFlowStep(e: Event) {
    e.ToastShown? || e.SummarizeReturned? || e.SummarizeFailed? || e.Resumed? || e.FlowEnded?
  }

  lemma StepRaisesRank(s: Session, e: Event, f: FlowId, cfg: Config)
    requires Enabled(s, e) && forall g :: g in s.flows ==> g < s.next
    ensures Rank(s, f) <= Rank(Step(s, e, cfg), f)
    ensures IsFlowStep(e) && e.flow == f ==> Rank(s, f) < Rank(Step(s, e, cfg), f)
  {
  }

  /** A flow can take this step only where it stands at this rank. */
  lemma StepNeedsRank(s: Session, e: Event)
    requires Enabled(s, e) && IsFlowStep(e)
    ensures Rank(s, e.flow) == match e case ToastShown(_) => 0
                                       case SummarizeReturned(_) => 1
                                       case SummarizeFailed(_) => 1
                                       case Resumed(_) => 2
                                       case _ => 3
  {
  }

  lemma {:induction false} RankAfter(events: seq<Event>, i: nat, cfg: Config)
    requires i < |events| && Run(INITIAL, events, cfg).Some? && IsFlowStep(events[i])
    ensures Run(INITIAL, events[..i], cfg).Some? && Enabled(Run(INITIAL, events[..i], cfg).value, events[i])
    ensures Rank(Run(INITIAL, events[..i], cfg).value, events[i].flow)
            < Rank(Run(INITIAL, events, cfg).value, events[i].flow)
  {
    var last := |events| - 1;
    var s := RunLast(events, cfg);
    RunIsTimed(events[..last], cfg);
    hide Run, Step, Enabled, Rank, IsFlowStep;
    StepRaisesRank(s, events[last], events[i].flow, cfg);
    if i < last {
      assert events[..last][..i] == events[..i] && events[..last][i] == events[i];
      RankAfter(events[..last], i, cfg);
    }
  }

  /** In every run a flow takes each of its steps once at the most, its summarize call returns or fails but not both,
      and nothing follows its end. */
  lemma {:induction false} FlowStepsOnce(events: seq<Event>, i: nat, j: nat, cfg: Config)
    requires i < j < |events| && Run(INITIAL, events, cfg).Some?
    requires IsFlowStep(events[i]) && IsFlowStep(events[j]) && events[i].flow == events[j].flow
    ensures events[i] != events[j]
    ensures events[i].SummarizeReturned? ==> !events[j].SummarizeFailed?
    ensures events[i].SummarizeFailed? ==> !events[j].SummarizeReturned?
    ensures !events[i].FlowEnded?
  {
    RunSplits(INITIAL, events, j + 1, cfg);
    RunSplits(INITIAL, events, j, cfg);
    assert events[..j][..i] == events[..i] && events[..j][i] == events[i];
    RankAfter(events[..j], i, cfg);
    assert events[..j + 1][..j] == events[..j] && events[..j + 1][j] == events[j];
    RankAfter(events[..j + 1], j, cfg);
    StepNeedsRank(Run(INITIAL, events[..i], cfg).value, events[i]);
    StepNeedsRank(Run(INITIAL, events[..j], cfg).value, events[j]);
    hide Run, Step, Enabled, Rank;
  }

  /** The waiter pending after these events. */
  function PendingAfter(events: seq<Event>, cfg: Config): Option<FlowId> {
    var s := Run(INITIAL, events, cfg);
    if s == None then None else s.value.pending
  }

  predicate IsResolution(events: seq<Event>, i: nat, f: FlowId, cfg: Config)
    requires i < |events|
  {
    events[i].Message? && events[i].summary && PendingAfter(events[..i], cfg) == Some(f)
  }

  predicate IsRejection(events: seq<Event>, i: nat, f: FlowId, cfg: Config)
    requires i < |events|
  {
    events[i] == TimedOut(f) || (events[i].Deleted? && PendingAfter(events[..i], cfg) == Some(f))
  }

  lemma {:induction false} EarlierSettled(events: seq<Event>, i: nat, f: FlowId, cfg: Config)
    requires i < |events| - 1
    ensures IsResolution(events, i, f, cfg) <==> IsResolution(events[..|events| - 1], i, f, cfg)
    ensures IsRejection(events, i, f, cfg) <==> IsRejection(events[..|events| - 1], i, f, cfg)
  {
    assert events[..|events| - 1][..i] == events[..i];
  }

  /** In every run: a waiter was resolved exactly if a summary came while it was pending, and rejected exactly if
      it timed out, or the session was deleted while it was pending. */
  lemma {:induction false} SettledIff(events: seq<Event>, f: FlowId, cfg: Config)
    requires Run(INITIAL, events, cfg).Some?
    ensures var s := Run(INITIAL, events, cfg).value;
            && (Count(s.resolved, f) > 0 <==> exists i :: 0 <= i < |events| && IsResolution(events, i, f, cfg))
            && (Count(s.rejected, f) > 0 <==> exists i :: 0 <= i < |events| && IsRejection(events, i, f, cfg))
  {
    if events != [] {
      var last := |events| - 1;
      var before, e := events[..last], events[last];
      var s := RunLast(events, cfg);
      SettledIff(before, f, cfg);
      StepSettles(s, e, f, cfg);
      assert PendingAfter(before, cfg) == s.pending;
      assert IsResolution(events, last, f, cfg) <==> e.Message? && e.summary && s.pending == Some(f);
      assert IsRejection(events, last, f, cfg) <==> e == TimedOut(f) || (e.Deleted? && s.pending == Some(f));
      hide Run, Step, Enabled, IsResolution, IsRejection, PendingAfter, Count;
      forall i | 0 <= i < last
        ensures IsResolution(events, i, f, cfg) <==> IsResolution(before, i, f, cfg)
        ensures IsRejection(events, i, f, cfg) <==> IsRejection(before, i, f, cfg)
      {
        EarlierSettled(events, i, f, cfg);
      }
    }
  }

  /** In every run, a flow goes on from its wait only after its waiter was settled, and succeeds exactly if a summary
      settled it. */
  lemma {:induction false} WaitEndsSettled(events: seq<Event>, k: nat, cfg: Config)
    requires Run(INITIAL, events, cfg).Some? && k < |events| && events[k].Resumed?
    ensures exists i :: 0 <= i < k && (IsResolution(events, i, events[k].flow, cfg)
                                       || IsRejection(events, i, events[k].flow, cfg))
    ensures SucceedsAt(events, k, cfg) <==> exists i :: 0 <= i < k && IsResolution(events, i, events[k].flow, cfg)
  {
    var f := events[k].flow;
    RunSplits(INITIAL, events, k, cfg);
    RunSplits(INITIAL, events, k + 1, cfg);
    assert events[..k + 1][..k] == events[..k] && events[..k + 1][k] == events[k];
    var s := RunLast(events[..k + 1], cfg);
    SettledIff(events[..k], f, cfg);
    assert Count(s.resolved, f) + Count(s.rejected, f) > 0;
    hide Run, Step, Enabled, PendingAfter, Count;
    forall i | 0 <= i < k
      ensures IsResolution(events, i, f, cfg) <==> IsResolution(events[..k], i, f, cfg)
      ensures IsRejection(events, i, f, cfg) <==> IsRejection(events[..k], i, f, cfg)
    {
      assert events[..k][..i] == events[..i] && events[..k][i] == events[i];
    }
  }

  lemma StepSettles(s: Session, e: Event, f: FlowId, cfg: Config)
    requires Enabled(s, e)
    ensures var after := Step(s, e, cfg);
            && (Count(after.resolved, f) > 0 <==>
                  Count(s.resolved, f) > 0 || (e.Message? && e.summary && s.pending == Some(f)))
            && (Count(after.rejected, f) > 0 <==>
                  Count(s.rejected, f) > 0 || e == TimedOut(f) || (e.Deleted? && s.pending == Some(f)))
  {
  }

  /** The event at place i is the success of some compaction, and no deletion came after it. */
  ghost predicate StandingSuccess(events: seq<Event>, i: nat, cfg: Config)
    requires i < |events|
  {
    SucceedsAt(events, i, cfg) && NoDeletion(events[i + 1..])
  }

  lemma SuccessStands(events: seq<Event>, i: nat, cfg: Config)
    requires i < |events| - 1
    ensures StandingSuccess(events, i, cfg) <==>
            StandingSuccess(events[..|events| - 1], i, cfg) && !events[|events| - 1].Deleted?
  {
    var before := events[..|events| - 1];
    assert before[..i] == events[..i] && events[i + 1..] == before[i + 1..] + [events[|events| - 1]];
    var rest, shorter := events[i + 1..], before[i + 1..];
    hide Run, Succeeds;
    assert rest[|shorter|] == events[|events| - 1];
    assert forall j :: 0 <= j < |shorter| ==> rest[j] == shorter[j];
  }

  /** The stamp is that of a success that no deletion followed, or none. */
  lemma {:induction false} StampIsSuccess(events: seq<Event>, cfg: Config)
    requires Run(INITIAL, events, cfg).Some?
    ensures var stamp := Run(INITIAL, events, cfg).value.lastCompact;
            stamp == 0
            || exists i :: 0 <= i < |events| && StandingSuccess(events, i, cfg) && Clock(events[..i]) == stamp
  {
    if events != [] {
      var last := |events| - 1;
      var before, e := events[..last], events[last];
      var s := RunLast(events, cfg);
      StampIsSuccess(before, cfg);
      ClockIsNow(before, cfg);
      StepStamps(s, e, cfg);
      if Succeeds(s, e) {
        assert events[last + 1..] == [];
        assert StandingSuccess(events, last, cfg);
      } else if !e.Deleted? && s.lastCompact != 0 {
        var i :| 0 <= i < |before| && StandingSuccess(before, i, cfg) && Clock(before[..i]) == s.lastCompact;
        assert before[..i] == events[..i];
        hide Run, Step, Enabled, SucceedsAt, Clock;
        SuccessStands(events, i, cfg);
      }
    }
  }

  lemma StepStamps(s: Session, e: Event, cfg: Config)
    requires Enabled(s, e)
    ensures Step(s, e, cfg).lastCompact
            == if Succeeds(s, e) then s.now else if e.Deleted? then 0 else s.lastCompact
  {
  }

  /** In every run, a message starts a flow exactly when it is over the threshold and no summary, nothing is
      pending, no flow runs, and the cooldown is over: since the beginning of time and since every success that
      no deletion followed. */
  lemma {:induction false} FlowStartsIff(events: seq<Event>, e: Event, cfg: Config)
    requires Run(INITIAL, events, cfg).Some? && DeletedAtRest(INITIAL, events, cfg) && e.Message?
    ensures var s := Run(INITIAL, events, cfg).value;
            |Step(s, e, cfg).flows| > |s.flows| <==>
              && e.overThreshold && !e.summary && s.pending == None && s.flows == map[]
              && Clock(events) >= cfg.cooldownMs
              && forall i :: 0 <= i < |events| && StandingSuccess(events, i, cfg) ==>
                               Clock(events) >= Clock(events[..i]) + cfg.cooldownMs
  {
    var s := Run(INITIAL, events, cfg).value;
    RunInvariant(events, cfg);
    ClockIsNow(events, cfg);
    StampIsSuccess(events, cfg);
    MessageStarts(s, e, cfg);
    forall i | 0 <= i < |events| && StandingSuccess(events, i, cfg) ensures Clock(events[..i]) <= s.lastCompact {
      RunSplits(INITIAL, events, i, cfg);
      ClockIsNow(events[..i], cfg);
      SuccessIsRecorded(events, i, cfg);
    }
    hide Run, Step, StandingSuccess, Clock;
  }

  lemma MessageStarts(s: Session, e: Event, cfg: Config)
    requires Invariant(s) && e.Message?
    ensures |Step(s, e, cfg).flows| > |s.flows| <==>
              e.overThreshold && !e.summary && s.pending == None && s.flows == map[]
              && s.now >= s.lastCompact + cfg.cooldownMs
  {
    if Step(s, e, cfg).flows == s.flows[s.next := Toasting] {
      assert s.flows == map[] ==> s.flows[s.next := Toasting].Keys == {s.next};
      assert |s.flows[s.next := Toasting]| == |s.flows[s.next := Toasting].Keys|;
    }
  }

  /** In every run, an entry is never overwritten: it stays, or it goes by being settled, once. */
  lemma {:induction false} NoWaiterOverwritten(events: seq<Event>, e: Event, cfg: Config)
    requires Run(INITIAL, events, cfg).Some? && DeletedAtRest(INITIAL, events, cfg)
    requires var s := Run(INITIAL, events, cfg).value;
             Enabled(s, e) && s.pending.Some? && (e.Deleted? ==> s.flows == map[])
    ensures var s := Run(INITIAL, events, cfg).value;
            var after := Step(s, e, cfg);
            after.pending == s.pending ||
            (after.pending == None
             && Count(after.resolved, s.pending.value) + Count(after.rejected, s.pending.value) == 1)
  {
    RunInvariant(events, cfg);
    var s := Run(INITIAL, events, cfg).value;
    if e.TimedOut? { assert e.flow in s.timers.Keys; }
    hide Run, DeletedAtRest;
  }

  /** Nothing settles the entry: no summary, no timeout, no deletion. */
  predicate Unsettled(events: seq<Event>) {
    forall i :: 0 <= i < |events| ==>
      !events[i].TimedOut? && !events[i].Deleted? && !(events[i].Message? && events[i].summary)
  }

  lemma PendingBlocks(s: Session, e: Event, cfg: Config)
    requires Invariant(s) && Enabled(s, e) && s.pending.Some? && Unsettled([e])
    ensures Step(s, e, cfg).pending == s.pending && Step(s, e, cfg).next == s.next
  {
    assert [e][0] == e;
  }

  /** A failing summarize leaves its waiter pending; however long the run goes on without settling it,
      nothing new starts. */
  lemma {:induction false} FailedFlowBlocks(s: Session, events: seq<Event>, cfg: Config)
    requires Invariant(s) && s.pending.Some? && Unsettled(events) && Run(s, events, cfg).Some?
    ensures var after := Run(s, events, cfg).value;
            after.pending == s.pending && after.next == s.next
    decreases |events|
  {
    hide Invariant, Step, Enabled;
    if events != [] {
      assert [events[0]][0] == events[0];
      PendingBlocks(s, events[0], cfg);
      StepKeeps(s, events[0], cfg);
      FailedFlowBlocks(Step(s, events[0], cfg), events[1..], cfg);
    }
  }

  /** Where the guarantee ends: a deletion is safe exactly when no flow was running. Otherwise a message over
      the threshold starts a second one once the cooldown is over, with no further deletion. */
  lemma {:induction false} DeletionIsSafeIff(s: Session, cfg: Config)
    requires Invariant(s)
    ensures !s.inProgress <==>
            forall events :: Run(AfterDeletion(s), events, cfg).Some?
                                && DeletedAtRest(AfterDeletion(s), events, cfg) ==>
                                  |Run(AfterDeletion(s), events, cfg).value.flows| <= 1
  {
    var deleted := AfterDeletion(s);
    if s.inProgress {
      var events := [Tick(s.now + cfg.cooldownMs), Message(false, true)];
      SecondFlowStarts(s, cfg);
      assert |Run(deleted, events, cfg).value.flows| == 2;
    } else {
      DeletionKeeps(s);
      forall events | Run(deleted, events, cfg).Some? && DeletedAtRest(deleted, events, cfg)
        ensures |Run(deleted, events, cfg).value.flows| <= 1
      {
        RunKeeps(deleted, events, cfg);
        AtMostOneFlow(Run(deleted, events, cfg).value);
      }
    }
  }

  lemma AtMostOneFlow(s: Session)
    requires Invariant(s)
    ensures |s.flows| <= 1
  {
    assert s.inProgress ==> |s.flows.Keys| == 1;
    assert |s.flows| == |s.flows.Keys|;
  }

  lemma SecondFlowStarts(s: Session, cfg: Config)
    requires Invariant(s) && s.inProgress
    ensures var events := [Tick(s.now + cfg.cooldownMs), Message(false, true)];
            var deleted := AfterDeletion(s);
            && Run(deleted, events, cfg).Some? && DeletedAtRest(deleted, events, cfg)
            && |Run(deleted, events, cfg).value.flows| == 2
  {
    var deleted, e1, e2 := AfterDeletion(s), Tick(s.now + cfg.cooldownMs), Message(false, true);
    var ticked := Step(deleted, e1, cfg);
    assert Enabled(deleted, e1) && Enabled(ticked, e2);
    assert Starts(ticked, cfg) && ticked.flows == s.flows && ticked.next == s.next;
    assert Step(ticked, e2, cfg) == Started(ticked);
    hide Step, Enabled, AfterDeletion, Starts, Invariant;
    RunOfTwo(deleted, e1, e2, cfg);
    OneMoreFlow(s);
  }

  lemma RunOfTwo(s: Session, e1: Event, e2: Event, cfg: Config)
    requires Enabled(s, e1) && Enabled(Step(s, e1, cfg), e2) && !e1.Deleted? && !e2.Deleted?
    ensures Run(s, [e1, e2], cfg) == Some(Step(Step(s, e1, cfg), e2, cfg)) && DeletedAtRest(s, [e1, e2], cfg)
  {
    hide Step, Enabled;
    var mid := Step(s, e1, cfg);
    assert [e1, e2][1..] == [e2] && [e2][1..] == [];
    assert Run(mid, [e2], cfg) == Some(Step(mid, e2, cfg)) && DeletedAtRest(mid, [e2], cfg);
  }

  lemma OneMoreFlow(s: Session)
    requires Invariant(s) && s.inProgress
    ensures |s.flows[s.next := Toasting]| == 2
  {
    var f :| s.flows.Keys == {f} && f < s.next;
    assert s.flows[s.next := Toasting].Keys == {f, s.next};
    assert |s.flows[s.next := Toasting]| == |s.flows[s.next := Toasting].Keys|;
  }

  /** At once, a message over the threshold leaves two flows running exactly when one was running at the
      deletion and the clock is past the cooldown. */
  lemma DeletionOfRunningFlow(s: Session, cfg: Config)
    requires Invariant(s)
    ensures var after := Step(Step(s, Deleted, cfg), Message(false, true), cfg);
            |after.flows| == 2 <==> s.inProgress && s.now >= cfg.cooldownMs
  {
    var deleted := Step(s, Deleted, cfg);
    var after := Step(deleted, Message(false, true), cfg);
    assert deleted.flows == s.flows && deleted.next == s.next;
    if s.inProgress {
      var f :| s.flows.Keys == {f} && f < s.next;
      assert s.flows[s.next := Toasting].Keys == {f, s.next};
      assert |s.flows[s.next := Toasting]| == |s.flows[s.next := Toasting].Keys|;
      assert |s.flows| == |s.flows.Keys|;
    } else {
      assert |map[s.next := Toasting]| == |{s.next}|;
    }
  }

  // ----- the hook -----

  class Hook {
    const cfg: Config
    var inProgress: set<string>
    var lastCompactTime: map<string, nat>
    var pendingCompactions: map<string, FlowId>

    constructor (cfg: Config)
      ensures this.cfg == cfg && forall id :: View(id, INITIAL) == INITIAL
    {
      this.cfg := cfg;
      inProgress, lastCompactTime, pendingCompactions := {}, map[], map[];
    }

    /** A session as these fields have it; its clock, flows and history come from the event loop. */
    ghost function View(id: string, loop: Session): Session
      reads this
    {
      loop.(inProgress := id in inProgress,
            lastCompact := if id in lastCompactTime then lastCompactTime[id] else 0,
            pending := if id in pendingCompactions then Some(pendingCompactions[id]) else None)
    }

    /** Nothing that is kept for other sessions has changed. */
    twostate predicate OnlyChanges(id: string)
      reads this
    {
      forall other, loop :: other != id ==> View(other, loop) == old(View(other, loop))
    }

    /** The settled waiter's promise resolves; started says that triggerCompaction ran up to its
        first await. */
    method HandleMessageUpdated(id: string, summary: bool, overThreshold: bool, now: nat, ghost loop: Session)
      returns (settled: Option<FlowId>, started: bool)
      requires loop.now == now
      modifies this
      ensures OnlyChanges(id)
      ensures var before := old(View(id, loop));
              var after := Step(before, Message(summary, overThreshold), cfg);
              View(id, after) == after
              && settled == (if summary then before.pending else None)
              && (started <==> after.next == before.next + 1)
    {
      settled, started := None, false;
      if summary {
        settled := TakePending(id);
        return;
      }
      if id in pendingCompactions { return; }
      if overThreshold {
        started := TriggerCompaction(id, now);
      }
    }

    /** Takes the entry and its waiter, whose promise the caller resolves or rejects. */
    method TakePending(id: string) returns (settled: Option<FlowId>)
      modifies this
      ensures inProgress == old(inProgress) && lastCompactTime == old(lastCompactTime)
      ensures pendingCompactions == old(pendingCompactions) - {id}
      ensures settled == if id in old(pendingCompactions) then Some(old(pendingCompactions)[id]) else None
    {
      if id !in pendingCompactions { return None; }
      settled := Some(pendingCompactions[id]);
      pendingCompactions := pendingCompactions - {id};
    }

    method TriggerCompaction(id: string, now: nat) returns (started: bool)
      modifies this
      ensures lastCompactTime == old(lastCompactTime) && pendingCompactions == old(pendingCompactions)
      ensures started <==> id !in old(inProgress)
                           && now - (if id in lastCompactTime then lastCompactTime[id] else 0) >= cfg.cooldownMs
      ensures inProgress == if started then old(inProgress) + {id} else old(inProgress)
    {
      if id in inProgress { return false; }
      var lastCompact := if id in lastCompactTime then lastCompactTime[id] else 0;
      if now - lastCompact < cfg.cooldownMs { return false; }
      inProgress := inProgress + {id};
      started := true;
    }

    /** After the first toast: the waiter is entered and its timeout armed. */
    method WaitForCompaction(id: string, flow: FlowId, now: nat, ghost loop: Session) returns (due: nat)
      requires loop.now == now && Enabled(View(id, loop), ToastShown(flow))
      modifies this
      ensures OnlyChanges(id)
      ensures var after := Step(old(View(id, loop)), ToastShown(flow), cfg);
              View(id, after) == after && after.timers == loop.timers[flow := due]
    {
      due := now + cfg.timeoutMs;
      pendingCompactions := pendingCompactions[id := flow];
    }

    method CompactionTimedOut(id: string, flow: FlowId, ghost loop: Session)
      requires Enabled(View(id, loop), TimedOut(flow))
      modifies this
      ensures OnlyChanges(id)
      ensures var after := Step(old(View(id, loop)), TimedOut(flow), cfg);
              View(id, after) == after
    {
      pendingCompactions := pendingCompactions - {id};
    }

    /** The flow goes on after its waiter has been settled. */
    method CompactionSettled(id: string, flow: FlowId, resolved: bool, now: nat, ghost loop: Session)
      requires loop.now == now && Enabled(View(id, loop), Resumed(flow))
      requires resolved <==> Count(loop.resolved, flow) > 0
      modifies this
      ensures OnlyChanges(id)
      ensures var after := Step(old(View(id, loop)), Resumed(flow), cfg);
              View(id, after) == after
    {
      if resolved {
        lastCompactTime := lastCompactTime[id := now];
      }
    }

    method CompactionFinally(id: string, flow: FlowId, ghost loop: Session)
      requires Enabled(View(id, loop), FlowEnded(flow))
      modifies this
      ensures OnlyChanges(id)
      ensures var after := Step(old(View(id, loop)), FlowEnded(flow), cfg);
              View(id, after) == after
    {
      inProgress := inProgress - {id};
    }

    method HandleSessionDeleted(id: string, ghost loop: Session) returns (settled: Option<FlowId>)
      modifies this
      ensures OnlyChanges(id)
      ensures var before := old(View(id, loop));
              var after := Step(before, Deleted, cfg);
              View(id, after) == after && settled == before.pending
    {
      inProgress := inProgress - {id};
      lastCompactTime := lastCompactTime - {id};
      settled := TakePending(id);
    }
  }
}
