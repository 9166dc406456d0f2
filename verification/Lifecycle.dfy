/** The lifecycle record of an issue through start, recordArtifact, commit and finish. A call loads
    the record and saves it later; whatever other calls save in between is overwritten. */
module Lifecycle {
  import opened Wrappers
  import opened LifecycleTypes
  import opened JournalTypes
  import opened Str
  import FinishGuards

  type CallId = nat

  datatype LifecycleRecord = LifecycleRecord(
    issueNumber: nat, branch: string, worktree: string, state: LifecycleState, artifacts: Artifacts,
    notes: seq<string>, updatedAt: nat)

  datatype CommitOutcome = CommitOutcome(committed: bool, sha: Option<string>, note: Option<string>)

  datatype FinishOutcome = FinishOutcome(merged: bool, prUrl: Option<string>, note: Option<string>)

  const STATE_PATH := [
    Proposed, IssueOpen, BranchReady, InDesign, InPlan, InProgress, Tested, Merging, Closed, Cleaned
  ]

  /** The position in STATE_PATH, or -1. */
  function PathIndex(s: LifecycleState): (i: int)
    ensures -1 <= i < |STATE_PATH| && (i < 0 <==> s == Aborted) && (i >= 0 ==> STATE_PATH[i] == s)
  {
    match s
    case Proposed => 0
    case IssueOpen => 1
    case BranchReady => 2
    case InDesign => 3
    case InPlan => 4
    case InProgress => 5
    case Tested => 6
    case Merging => 7
    case Closed => 8
    case Cleaned => 9
    case Aborted => -1
  }

  function Successors(s: LifecycleState): seq<LifecycleState> {
    match s
    case Proposed => [IssueOpen]
    case IssueOpen => [BranchReady]
    case BranchReady => [InDesign]
    case InDesign => [InPlan]
    case InPlan => [InProgress]
    case InProgress => [Tested]
    case Tested => [Merging]
    case Merging => [Closed]
    case Closed => [Cleaned]
    case Cleaned => []
    case Aborted => []
  }

  predicate IsValidTransition(current: LifecycleState, next: LifecycleState) {
    current == next || next in Successors(current)
  }

  function TransitionTo(r: LifecycleRecord, next: LifecycleState, now: nat): Result<LifecycleRecord> {
    if !IsValidTransition(r.state, next) then
      Err("Invalid lifecycle transition: " + StateName(r.state) + " -> " + StateName(next))
    else Ok(r.(state := next, updatedAt := now))
  }

  function Touch(r: LifecycleRecord, now: nat): LifecycleRecord {
    r.(updatedAt := now)
  }

  function AddArtifact(r: LifecycleRecord, kind: ArtifactKind, pointer: string): LifecycleRecord {
    if pointer in r.artifacts.Get(kind) then r else r.(artifacts := r.artifacts.Push(kind, pointer))
  }

  function AppendNote(r: LifecycleRecord, note: string): LifecycleRecord {
    r.(notes := r.notes + [note])
  }

  predicate IsPresent(s: Option<string>) {
    s.Some? && s.value != ""
  }

  /** The result of advancing: straight along the path, or whatever transitionTo makes of it. */
  function Advanced(r: LifecycleRecord, state: LifecycleState, now: nat): Result<LifecycleRecord> {
    if r.state == state then Ok(r)
    else if 0 <= PathIndex(r.state) < PathIndex(state) then Ok(r.(state := state, updatedAt := now))
    else TransitionTo(r, state, now)
  }

  lemma NextOnPath(index: nat)
    requires 0 < index < |STATE_PATH|
    ensures IsValidTransition(STATE_PATH[index - 1], STATE_PATH[index])
  {
  }

  /** Off the path, or backwards on it, there is no valid transition. */
  lemma NoWayBack(current: LifecycleState, next: LifecycleState)
    requires PathIndex(current) < 0 || PathIndex(next) < 0 || PathIndex(current) > PathIndex(next)
    ensures IsValidTransition(current, next) <==> current == next
  {
  }

  lemma AdvancedIff(r: LifecycleRecord, state: LifecycleState, now: nat)
    ensures Advanced(r, state, now).Ok? <==> r.state == state || 0 <= PathIndex(r.state) <= PathIndex(state)
    ensures Advanced(r, state, now).Ok? ==> Advanced(r, state, now).value.state == state
  {
    hide StateName, Successors;
    if r.state != state && !(0 <= PathIndex(r.state) < PathIndex(state)) { NoWayBack(r.state, state); }
  }

  /** Walks the path one valid transition at a time; everything else is left to transitionTo. */
  method AdvanceTo(r: LifecycleRecord, state: LifecycleState, now: nat) returns (advanced: Result<LifecycleRecord>)
    ensures advanced == Advanced(r, state, now)
  {
    hide StateName, IsValidTransition;
    var current, target := PathIndex(r.state), PathIndex(state);
    if current == target { return Ok(r); }
    if current < 0 || target < 0 || current > target {
      return TransitionTo(r, state, now);
    }
    var next := r;
    for index := current + 1 to target + 1
      invariant next == if index == current + 1 then r else r.(state := STATE_PATH[index - 1], updatedAt := now)
    {
      NextOnPath(index);
      var step := TransitionTo(next, STATE_PATH[index], now);
      if step.Err? { return step; }
      next := step.value;
    }
    advanced := Ok(next);
  }

  function AfterCommit(r: LifecycleRecord, outcome: CommitOutcome, now: nat): LifecycleRecord {
    var withSha := if IsPresent(outcome.sha) then AddArtifact(r, ArtifactKind.Commit, outcome.sha.value) else r;
    Touch(if IsPresent(outcome.note) then AppendNote(withSha, outcome.note.value) else withSha, now)
  }

  function Annotated(r: LifecycleRecord, outcome: FinishOutcome): LifecycleRecord {
    var withPr := if IsPresent(outcome.prUrl) then AddArtifact(r, Pr, outcome.prUrl.value) else r;
    if IsPresent(outcome.note) then AppendNote(withPr, outcome.note.value) else withPr
  }

  function AfterFinish(r: LifecycleRecord, outcome: FinishOutcome, now: nat): Result<LifecycleRecord> {
    var next := Annotated(r, outcome);
    if !outcome.merged then Ok(Touch(next, now))
    else
      var closed := Advanced(next, Closed, now);
      if closed.Err? then closed
      else
        var cleaned := Advanced(closed.value, Cleaned, now);
        if cleaned.Err? then cleaned else Ok(Touch(cleaned.value, now))
  }

  method ApplyFinishOutcome(r: LifecycleRecord, outcome: FinishOutcome, now: nat)
    returns (applied: Result<LifecycleRecord>)
    ensures applied == AfterFinish(r, outcome, now)
  {
    hide Advanced, AddArtifact, AppendNote;
    var next := r;
    if IsPresent(outcome.prUrl) { next := AddArtifact(next, Pr, outcome.prUrl.value); }
    if IsPresent(outcome.note) { next := AppendNote(next, outcome.note.value); }
    if !outcome.merged { return Ok(Touch(next, now)); }
    var closed := AdvanceTo(next, Closed, now);
    if closed.Err? { return closed; }
    var cleaned := AdvanceTo(closed.value, Cleaned, now);
    if cleaned.Err? { return cleaned; }
    applied := Ok(Touch(cleaned.value, now));
  }

  /** A merged outcome cleans exactly the records still on the path and not cleaned yet. */
  lemma FinishIff(r: LifecycleRecord, outcome: FinishOutcome, now: nat)
    ensures AfterFinish(r, outcome, now).Ok? <==> !outcome.merged || 0 <= PathIndex(r.state) <= PathIndex(Closed)
    ensures AfterFinish(r, outcome, now).Ok? ==>
              AfterFinish(r, outcome, now).value.state == if outcome.merged then Cleaned else r.state
  {
    hide Advanced, StateName;
    var next := Annotated(r, outcome);
    assert next.state == r.state;
    AdvancedIff(next, Closed, now);
    if Advanced(next, Closed, now).Ok? { AdvancedIff(Advanced(next, Closed, now).value, Cleaned, now); }
  }

  // ----- the steps of the calls on one issue -----

  /** The stored record; the record each call in flight has loaded, or is merging; and as history the
      journal that each merging call found free of blocked tasks, and which calls saw a merge. */
  datatype Issue = Issue(
    record: Option<LifecycleRecord>, loaded: map<CallId, LifecycleRecord>, merging: map<CallId, LifecycleRecord>,
    cleared: map<CallId, seq<JournalEvent>>, mergedBy: set<CallId>)

  const UNKNOWN := Issue(None, map[], map[], map[], {})

  datatype Event =
    | Started(record: LifecycleRecord)
    | Loads(call: CallId)
    | Dropped(call: CallId)
    | RecordsArtifact(call: CallId, kind: ArtifactKind, pointer: string, now: nat)
    | Commits(call: CallId, commit: CommitOutcome, now: nat)
    | FinishGated(call: CallId, events: seq<JournalEvent>, note: string, now: nat)
    | Finishes(call: CallId, branch: string, worktree: string, outcome: FinishOutcome, now: nat)

  ghost predicate NoneBlocked(events: seq<JournalEvent>) {
    forall t :: !FinishGuards.IsBlocked(events, t)
  }

  predicate Idle(s: Issue, c: CallId) {
    c !in s.loaded && c !in s.merging && c !in s.cleared && c !in s.mergedBy
  }

  /** A start files a new issue, opened up to its branch or aborted. */
  predicate Enabled(s: Issue, e: Event) {
    match e
    case Started(r) => s.record == None && (r.state == BranchReady || r.state == Aborted)
    case Loads(c) => s.record.Some? && Idle(s, c)
    case Dropped(c) => c in s.loaded || c in s.merging
    case RecordsArtifact(c, _, _, _) => c in s.loaded
    case Commits(c, _, _) => c in s.loaded
    case FinishGated(c, _, _, _) => c in s.loaded
    case Finishes(c, _, _, _, _) => c in s.merging
  }

  function Saved(s: Issue, c: CallId, r: LifecycleRecord): Issue {
    s.(record := Some(r), loaded := s.loaded - {c}, merging := s.merging - {c})
  }

  function Discarded(s: Issue, c: CallId): Issue {
    s.(loaded := s.loaded - {c}, merging := s.merging - {c})
  }

  /** With a task blocked the finish only leaves a note; otherwise the record goes to merging. */
  ghost function AfterGate(s: Issue, c: CallId, events: seq<JournalEvent>, note: string, now: nat): Issue
    requires c in s.loaded
  {
    if !NoneBlocked(events) then
      Saved(s, c, AfterFinish(s.loaded[c], FinishOutcome(false, None, Some(note)), now).value)
    else
      var merging := Advanced(s.loaded[c], Merging, now);
      if merging.Err? then Discarded(s, c)
      else
        s.(record := Some(merging.value), loaded := s.loaded - {c},
           merging := s.merging[c := merging.value], cleared := s.cleared[c := events])
  }

  /** The branch and worktree may have been resolved from the issue instead of the record. */
  function AfterMerge(s: Issue, c: CallId, branch: string, worktree: string, outcome: FinishOutcome, now: nat): Issue
    requires c in s.merging
  {
    var finished := AfterFinish(s.merging[c].(branch := branch, worktree := worktree), outcome, now);
    var seen := s.(mergedBy := if outcome.merged then s.mergedBy + {c} else s.mergedBy);
    if finished.Err? then Discarded(seen, c) else Saved(seen, c, finished.value)
  }

  ghost function Step(s: Issue, e: Event): Issue
    requires Enabled(s, e)
  {
    match e
    case Started(r) => s.(record := Some(r))
    case Loads(c) => s.(loaded := s.loaded[c := s.record.value])
    case Dropped(c) => Discarded(s, c)
    case RecordsArtifact(c, kind, pointer, now) => Saved(s, c, Touch(AddArtifact(s.loaded[c], kind, pointer), now))
    case Commits(c, outcome, now) => Saved(s, c, AfterCommit(s.loaded[c], outcome, now))
    case FinishGated(c, events, note, now) => AfterGate(s, c, events, note, now)
    case Finishes(c, branch, worktree, outcome, now) => AfterMerge(s, c, branch, worktree, outcome, now)
  }

  ghost function Run(s: Issue, events: seq<Event>): Option<Issue>
    decreases |events|
  {
    if events == [] then Some(s)
    else if Enabled(s, events[0]) then Run(Step(s, events[0]), events[1..])
    else None
  }

  // ----- closed only after a merge that nothing blocked -----

  /** Some call saw its branch merged after a journal in which no task's latest review is blocked. */
  ghost predicate MergeSeen(s: Issue) {
    exists c :: c in s.mergedBy && c in s.cleared && NoneBlocked(s.cleared[c])
  }

  predicate IsClosed(r: LifecycleRecord) {
    r.state == Closed || r.state == Cleaned
  }

  ghost predicate ClosedIsMerged(s: Issue) {
    && (s.record.Some? && IsClosed(s.record.value) ==> MergeSeen(s))
    && (forall c :: c in s.loaded ==> (IsClosed(s.loaded[c]) ==> MergeSeen(s)) && c !in s.cleared)
    && (forall c :: c in s.merging ==>
          s.merging[c].state == Merging && c in s.cleared && NoneBlocked(s.cleared[c]))
    && (forall c :: c in s.mergedBy ==> c in s.cleared)
  }

  lemma MergeStaysSeen(s: Issue, after: Issue)
    requires MergeSeen(s) && s.mergedBy <= after.mergedBy
    requires forall c :: c in s.mergedBy && c in s.cleared ==> c in after.cleared && after.cleared[c] == s.cleared[c]
    ensures MergeSeen(after)
  {
    hide NoneBlocked;
    var c :| c in s.mergedBy && c in s.cleared && NoneBlocked(s.cleared[c]);
    assert c in after.mergedBy && NoneBlocked(after.cleared[c]);
  }

  lemma SavesKeepMerged(s: Issue, c: CallId, r: LifecycleRecord)
    requires ClosedIsMerged(s) && c in s.loaded && r.state == s.loaded[c].state
    ensures ClosedIsMerged(Saved(s, c, r)) && ClosedIsMerged(Discarded(s, c))
  {
    hide NoneBlocked;
    if MergeSeen(s) {
      MergeStaysSeen(s, Saved(s, c, r));
      MergeStaysSeen(s, Discarded(s, c));
    }
  }

  lemma GateKeepsMerged(s: Issue, c: CallId, events: seq<JournalEvent>, note: string, now: nat)
    requires ClosedIsMerged(s) && c in s.loaded
    ensures ClosedIsMerged(AfterGate(s, c, events, note, now))
  {
    hide NoneBlocked, MergeSeen;
    var after := AfterGate(s, c, events, note, now);
    if !NoneBlocked(events) {
      SavesKeepMerged(s, c, after.record.value);
    } else if Advanced(s.loaded[c], Merging, now).Err? {
      SavesKeepMerged(s, c, s.loaded[c]);
    } else if MergeSeen(s) {
      MergeStaysSeen(s, after);
    }
  }

  lemma MergeKeepsMerged(s: Issue, c: CallId, branch: string, worktree: string, outcome: FinishOutcome, now: nat)
    requires ClosedIsMerged(s) && c in s.merging
    ensures ClosedIsMerged(AfterMerge(s, c, branch, worktree, outcome, now))
  {
    hide NoneBlocked, MergeSeen;
    var after := AfterMerge(s, c, branch, worktree, outcome, now);
    if MergeSeen(s) { MergeStaysSeen(s, after); }
    if outcome.merged { assert MergeSeen(after) by { SeenBy(after, c); } }
  }

  lemma SeenBy(s: Issue, c: CallId)
    requires c in s.mergedBy && c in s.cleared && NoneBlocked(s.cleared[c])
    ensures MergeSeen(s)
  {
  }

  lemma StepKeepsMerged(s: Issue, e: Event)
    requires ClosedIsMerged(s) && Enabled(s, e)
    ensures ClosedIsMerged(Step(s, e))
  {
    hide NoneBlocked, MergeSeen;
    match e
    case Started(_) => if MergeSeen(s) { MergeStaysSeen(s, Step(s, e)); }
    case Loads(_) => if MergeSeen(s) { MergeStaysSeen(s, Step(s, e)); }
    case Dropped(_) => if MergeSeen(s) { MergeStaysSeen(s, Step(s, e)); }
    case RecordsArtifact(c, kind, pointer, now) =>
     SavesKeepMerged(s, c, Touch(AddArtifact(s.loaded[c], kind, pointer), now));
    case Commits(c, outcome, now) => SavesKeepMerged(s, c, AfterCommit(s.loaded[c], outcome, now));
    case FinishGated(c, events, note, now) => GateKeepsMerged(s, c, events, note, now);
    case Finishes(c, branch, worktree, outcome, now) => MergeKeepsMerged(s, c, branch, worktree, outcome, now);
  }

  lemma {:induction false} RunKeepsMerged(s: Issue, events: seq<Event>)
    requires ClosedIsMerged(s) && Run(s, events).Some?
    ensures ClosedIsMerged(Run(s, events).value)
    decreases |events|
  {
    hide ClosedIsMerged, Step, Enabled;
    if events != [] {
      StepKeepsMerged(s, events[0]);
      RunKeepsMerged(Step(s, events[0]), events[1..]);
    }
  }

  /** However calls interleave, a record is closed or cleaned only after a finish that saw a merge and
      whose journal had no blocked task. */
  lemma {:induction false} ClosedOnlyAfterMerge(events: seq<Event>)
    requires Run(UNKNOWN, events).Some?
    ensures var s := Run(UNKNOWN, events).value;
            s.record.Some? && IsClosed(s.record.value) ==> MergeSeen(s)
  {
    RunKeepsMerged(UNKNOWN, events);
  }

  // ----- the state never goes back, unless a call saves what it loaded too long ago -----

  function StateIndex(s: Issue): int {
    if s.record == None then -1 else PathIndex(s.record.value.state)
  }

  /** The step is about to save a state before the stored one. */
  ghost predicate SavesBehind(s: Issue, e: Event)
    requires Enabled(s, e)
  {
    match e
    case Started(_) => false
    case Loads(_) => false
    case Dropped(_) => false
    case RecordsArtifact(c, _, _, _) => PathIndex(s.loaded[c].state) < StateIndex(s)
    case Commits(c, _, _) => PathIndex(s.loaded[c].state) < StateIndex(s)
    case FinishGated(c, events, _, _) =>
      if NoneBlocked(events)
      then 0 <= PathIndex(s.loaded[c].state) <= PathIndex(Merging) < StateIndex(s)
      else PathIndex(s.loaded[c].state) < StateIndex(s)
    case Finishes(c, _, _, outcome, _) => !outcome.merged && PathIndex(Merging) < StateIndex(s)
  }

  lemma GateState(s: Issue, c: CallId, events: seq<JournalEvent>, note: string, now: nat)
    requires c in s.loaded
    ensures var after := AfterGate(s, c, events, note, now);
            if !NoneBlocked(events) then StateIndex(after) == PathIndex(s.loaded[c].state)
            else if 0 <= PathIndex(s.loaded[c].state) <= PathIndex(Merging) then StateIndex(after) == PathIndex(Merging)
            else StateIndex(after) == StateIndex(s)
  {
    hide NoneBlocked, Advanced, AfterFinish;
    AdvancedIff(s.loaded[c], Merging, now);
    FinishIff(s.loaded[c], FinishOutcome(false, None, Some(note)), now);
  }

  lemma MergeState(s: Issue, c: CallId, branch: string, worktree: string, outcome: FinishOutcome, now: nat)
    requires c in s.merging && s.merging[c].state == Merging
    ensures StateIndex(AfterMerge(s, c, branch, worktree, outcome, now))
            == PathIndex(if outcome.merged then Cleaned else Merging)
  {
    hide AfterFinish;
    FinishIff(s.merging[c].(branch := branch, worktree := worktree), outcome, now);
  }

  lemma StepDropsIff(s: Issue, e: Event)
    requires ClosedIsMerged(s) && Enabled(s, e)
    ensures StateIndex(Step(s, e)) < StateIndex(s) <==> SavesBehind(s, e)
  {
    hide NoneBlocked, MergeSeen, AfterGate, AfterMerge;
    match e
    case Started(_) =>
    case Loads(_) =>
    case Dropped(_) =>
    case RecordsArtifact(_, _, _, _) =>
    case Commits(_, _, _) =>
    case FinishGated(c, events, note, now) => GateState(s, c, events, note, now);
    case Finishes(c, branch, worktree, outcome, now) => MergeState(s, c, branch, worktree, outcome, now);
  }

  ghost predicate NeverBehind(s: Issue, events: seq<Event>)
    decreases |events|
  {
    events == [] || !Enabled(s, events[0]) ||
    (!SavesBehind(s, events[0]) && NeverBehind(Step(s, events[0]), events[1..]))
  }

  ghost predicate NeverDrops(s: Issue, events: seq<Event>)
    decreases |events|
  {
    events == [] || !Enabled(s, events[0]) ||
    (StateIndex(s) <= StateIndex(Step(s, events[0])) && NeverDrops(Step(s, events[0]), events[1..]))
  }

  /** In every run, the place in the path never drops exactly when no save is behind. */
  lemma {:induction false} NeverDropsIff(s: Issue, events: seq<Event>)
    requires ClosedIsMerged(s)
    ensures NeverDrops(s, events) <==> NeverBehind(s, events)
    decreases |events|
  {
    hide ClosedIsMerged, Step, Enabled, SavesBehind, StateIndex;
    if events != [] && Enabled(s, events[0]) {
      StepDropsIff(s, events[0]);
      StepKeepsMerged(s, events[0]);
      NeverDropsIff(Step(s, events[0]), events[1..]);
    }
  }

  /** Calls one after another: nothing is loaded while a call is in flight. */
  ghost predicate OneAtATime(s: Issue, events: seq<Event>)
    decreases |events|
  {
    events == [] || !Enabled(s, events[0]) ||
    ((events[0].Loads? ==> s.loaded == map[] && s.merging == map[]) && OneAtATime(Step(s, events[0]), events[1..]))
  }

  /** The one call in flight has the stored state. */
  ghost predicate InFlightIsCurrent(s: Issue) {
    && (forall c :: c in s.loaded ==> s.record.Some? && s.loaded[c].state == s.record.value.state)
    && (forall c :: c in s.merging ==> s.record.Some? && s.merging[c].state == s.record.value.state)
    && (forall c, d :: InFlight(s, c) && InFlight(s, d) ==> c == d)
    && (forall c :: !(c in s.loaded && c in s.merging))
  }

  predicate InFlight(s: Issue, c: CallId) {
    c in s.loaded || c in s.merging
  }

  lemma AloneInFlight(s: Issue, c: CallId)
    requires InFlightIsCurrent(s) && InFlight(s, c)
    ensures s.loaded - {c} == map[] && s.merging - {c} == map[]
    ensures c in s.loaded ==> s.merging == map[]
  {
    forall d | d in s.loaded || d in s.merging ensures d == c {
      assert InFlight(s, d) && InFlight(s, c);
    }
  }

  lemma GateKeepsCurrent(s: Issue, c: CallId, events: seq<JournalEvent>, note: string, now: nat)
    requires InFlightIsCurrent(s) && c in s.loaded
    ensures InFlightIsCurrent(AfterGate(s, c, events, note, now))
  {
    hide NoneBlocked, Advanced, AfterFinish;
    AloneInFlight(s, c);
    var after := AfterGate(s, c, events, note, now);
    assert after.loaded == map[];
    assert forall d :: d in after.merging ==> d == c;
  }

  lemma StepKeepsCurrent(s: Issue, e: Event)
    requires ClosedIsMerged(s) && InFlightIsCurrent(s) && Enabled(s, e)
    requires e.Loads? ==> s.loaded == map[] && s.merging == map[]
    ensures InFlightIsCurrent(Step(s, e)) && !SavesBehind(s, e)
  {
    hide NoneBlocked, MergeSeen, AfterGate, AfterFinish, Touch, AddArtifact, AfterCommit;
    match e
    case Started(_) =>
    case Loads(_) =>
    case Dropped(c) => AloneInFlight(s, c);
    case RecordsArtifact(c, _, _, _) => AloneInFlight(s, c);
    case Commits(c, _, _) => AloneInFlight(s, c);
    case FinishGated(c, events, note, now) => GateKeepsCurrent(s, c, events, note, now);
    case Finishes(c, _, _, _, _) => MergeKeepsCurrent(s, e);
  }

  lemma MergeKeepsCurrent(s: Issue, e: Event)
    requires InFlightIsCurrent(s) && e.Finishes? && Enabled(s, e)
    ensures InFlightIsCurrent(Step(s, e))
  {
    hide AfterFinish;
    AloneInFlight(s, e.call);
    assert Step(s, e).merging == map[];
  }

  lemma {:induction false} OneAtATimeNeverDrops(s: Issue, events: seq<Event>)
    requires ClosedIsMerged(s) && InFlightIsCurrent(s) && OneAtATime(s, events)
    ensures NeverDrops(s, events)
    decreases |events|
  {
    hide ClosedIsMerged, InFlightIsCurrent, Step, Enabled, SavesBehind, StateIndex;
    if events != [] && Enabled(s, events[0]) {
      StepKeepsCurrent(s, events[0]);
      StepKeepsMerged(s, events[0]);
      StepDropsIff(s, events[0]);
      OneAtATimeNeverDrops(Step(s, events[0]), events[1..]);
    }
  }

  // ----- the same, told from the schedule -----

  lemma {:induction false} RunLast(s: Issue, events: seq<Event>)
    requires events != [] && Run(s, events).Some?
    ensures var before, e := events[..|events| - 1], events[|events| - 1];
            && Run(s, before).Some? && Enabled(Run(s, before).value, e)
            && Run(s, events) == Some(Step(Run(s, before).value, e))
    decreases |events|
  {
    hide Step, Enabled;
    if |events| > 1 {
      var rest := events[1..];
      RunLast(Step(s, events[0]), rest);
      assert events[..|events| - 1][1..] == rest[..|rest| - 1];
    } else {
      assert events[..0] == [] && events[1..] == [];
    }
  }

  lemma {:induction false} RunPrefix(events: seq<Event>, i: nat)
    requires i <= |events| && Run(UNKNOWN, events).Some?
    ensures Run(UNKNOWN, events[..i]).Some?
    decreases |events|
  {
    hide Run;
    if i == |events| {
      assert events[..i] == events;
    } else {
      RunLast(UNKNOWN, events);
      assert events[..|events| - 1][..i] == events[..i];
      RunPrefix(events[..|events| - 1], i);
    }
  }

  /** The place of the stored state after the first i events. */
  ghost function Place(events: seq<Event>, i: nat): int
    requires i <= |events|
  {
    var s := Run(UNKNOWN, events[..i]);
    if s.None? then -1 else StateIndex(s.value)
  }

  predicate IsSave(e: Event) {
    e.RecordsArtifact? || e.Commits? || e.FinishGated? || e.Finishes?
  }

  /** The call, by event i, has last loaded at event l. */
  ghost predicate LoadedAt(events: seq<Event>, c: CallId, l: nat, i: nat)
    requires i <= |events|
  {
    l < i && events[l] == Loads(c) && forall j :: l < j < i ==> events[j] != Loads(c)
  }

  /** A call saves at k what it loaded at l, and in between, at m, the state was taken past what it saves. */
  ghost predicate Overtaken(events: seq<Event>, l: nat, m: nat, k: nat)
    requires k < |events|
  {
    && IsSave(events[k]) && l <= m < k && LoadedAt(events, events[k].call, l, k)
    && Place(events, m) <= Place(events, k + 1) < Place(events, m + 1)
  }

  /** One step leaves what is in flight, but for the call it is of. */
  lemma InFlightStep(s: Issue, e: Event, c: CallId)
    requires Enabled(s, e)
    ensures e == Loads(c) ==> c !in s.loaded && c !in s.merging && s.record.Some?
    ensures var after := Step(s, e);
            && (c in after.loaded ==>
                  if e == Loads(c) then after.loaded[c] == s.record.value
                  else c in s.loaded && after.loaded[c] == s.loaded[c])
            && (c in after.merging ==>
                  c in s.merging || (c in s.loaded && 0 <= PathIndex(s.loaded[c].state) <= PathIndex(Merging)))
  {
    hide NoneBlocked, AfterFinish, Advanced, AddArtifact, AfterCommit, Touch, PathIndex;
    if e.FinishGated? && c == e.call { AdvancedIff(s.loaded[c], Merging, e.now); }
  }

  lemma LoadedLater(events: seq<Event>, c: CallId, l: nat)
    requires events != [] && LoadedAt(events[..|events| - 1], c, l, |events| - 1) && events[|events| - 1] != Loads(c)
    ensures LoadedAt(events, c, l, |events|) && Place(events, l) == Place(events[..|events| - 1], l)
  {
    assert events[..|events| - 1][..l] == events[..l];
  }

  /** What is in flight was loaded, and the call that merges was not past merging then. */
  lemma {:induction false} InFlightWasLoaded(events: seq<Event>, c: CallId) returns (l: nat)
    requires Run(UNKNOWN, events).Some? && InFlight(Run(UNKNOWN, events).value, c)
    ensures LoadedAt(events, c, l, |events|)
    ensures var s := Run(UNKNOWN, events).value;
            && (c in s.loaded ==> Place(events, l) == PathIndex(s.loaded[c].state))
            && (c in s.merging ==> 0 <= Place(events, l) <= PathIndex(Merging))
    decreases |events|
  {
    hide Step, Enabled, PathIndex, Run, Place;
    if events == [] {
      NothingInFlight(c);
    } else {
      var before, e := events[..|events| - 1], events[|events| - 1];
      RunLast(UNKNOWN, events);
      var s := Run(UNKNOWN, before).value;
      InFlightStep(s, e, c);
      NeverBoth(before, c);
      if e == Loads(c) {
        l := |before|;
        PlaceIs(events, l);
        assert StateIndex(s) == PathIndex(s.record.value.state);
      } else {
        l := InFlightWasLoaded(before, c);
        LoadedLater(events, c, l);
      }
    }
  }

  lemma NeverBoth(events: seq<Event>, c: CallId)
    requires Run(UNKNOWN, events).Some?
    ensures var s := Run(UNKNOWN, events).value; !(c in s.loaded && c in s.merging)
  {
    RunKeepsMerged(UNKNOWN, events);
    hide Run, NoneBlocked, MergeSeen;
  }

  lemma NothingInFlight(c: CallId)
    ensures Run(UNKNOWN, []).Some? && !InFlight(Run(UNKNOWN, []).value, c)
  {
  }

  lemma PlaceIs(events: seq<Event>, i: nat)
    requires i <= |events| && Run(UNKNOWN, events[..i]).Some?
    ensures Place(events, i) == StateIndex(Run(UNKNOWN, events[..i]).value)
  {
  }

  /** What one step of a run does to the place. */
  lemma PlaceSteps(events: seq<Event>, k: nat) returns (s: Issue)
    requires k < |events| && Run(UNKNOWN, events).Some?
    ensures Run(UNKNOWN, events[..k]) == Some(s) && Enabled(s, events[k]) && ClosedIsMerged(s)
    ensures Place(events, k) == StateIndex(s) && Place(events, k + 1) == StateIndex(Step(s, events[k]))
  {
    hide Step, Enabled, StateIndex, Run, ClosedIsMerged;
    RunPrefix(events, k);
    RunPrefix(events, k + 1);
    RunLast(UNKNOWN, events[..k + 1]);
    assert events[..k + 1][..k] == events[..k];
    s := Run(UNKNOWN, events[..k]).value;
    RunKeepsMerged(UNKNOWN, events[..k]) by { NothingClosed(); }
  }

  lemma NothingClosed()
    ensures ClosedIsMerged(UNKNOWN)
  {
  }

  /** What a save that is behind writes is no less than what its call loaded. */
  lemma SavesAtLeastLoaded(s: Issue, e: Event, loadedAt: int)
    requires ClosedIsMerged(s) && Enabled(s, e) && SavesBehind(s, e)
    requires IsSave(e) && (e.call in s.loaded ==> loadedAt == PathIndex(s.loaded[e.call].state))
    requires e.call in s.merging ==> 0 <= loadedAt <= PathIndex(Merging)
    ensures loadedAt <= StateIndex(Step(s, e))
  {
    hide NoneBlocked, MergeSeen, AfterGate, AfterMerge, PathIndex;
    match e
    case RecordsArtifact(_, _, _, _) =>
    case Commits(_, _, _) =>
    case FinishGated(c, events, note, now) => GateState(s, c, events, note, now);
    case Finishes(c, branch, worktree, outcome, now) => MergeState(s, c, branch, worktree, outcome, now);
  }

  lemma {:induction false} PassesOnTheWay(events: seq<Event>, l: nat, k: nat, w: int) returns (m: nat)
    requires l <= k <= |events| && Place(events, l) <= w < Place(events, k)
    ensures l <= m < k && Place(events, m) <= w < Place(events, m + 1)
    decreases k
  {
    hide Place;
    if Place(events, k - 1) <= w { m := k - 1; } else { m := PassesOnTheWay(events, l, k - 1, w); }
  }

  lemma {:induction false} DropsOnTheWay(events: seq<Event>, i: nat, j: nat) returns (k: nat)
    requires i < j <= |events| && Place(events, j) < Place(events, i)
    ensures i <= k < j && Place(events, k + 1) < Place(events, k)
    decreases j
  {
    hide Place;
    if Place(events, j) < Place(events, j - 1) { k := j - 1; } else { k := DropsOnTheWay(events, i, j - 1); }
  }

  /** A step that lowers the place saves what another one has overtaken since it was loaded. */
  lemma {:induction false} DropIsOvertaken(events: seq<Event>, k: nat) returns (l: nat, m: nat)
    requires k < |events| && Run(UNKNOWN, events).Some? && Place(events, k + 1) < Place(events, k)
    ensures Overtaken(events, l, m, k)
  {
    var s := PlaceSteps(events, k);
    StepDropsIff(s, events[k]);
    var e := events[k];
    assert IsSave(e) && InFlight(s, e.call) by { SavesAreInFlight(s, e); }
    hide Step, Enabled, StateIndex, Run, ClosedIsMerged, Place, SavesBehind;
    l := InFlightWasLoaded(events[..k], e.call);
    assert LoadedAt(events, e.call, l, k) && Place(events, l) == Place(events[..k], l) by {
      hide *;
      PrefixLoaded(events, e.call, l, k);
    }
    SavesAtLeastLoaded(s, e, Place(events, l));
    m := PassesOnTheWay(events, l, k, Place(events, k + 1));
  }

  lemma SavesAreInFlight(s: Issue, e: Event)
    requires Enabled(s, e) && SavesBehind(s, e)
    ensures IsSave(e) && InFlight(s, e.call)
  {
  }

  lemma PrefixLoaded(events: seq<Event>, c: CallId, l: nat, k: nat)
    requires k <= |events| && LoadedAt(events[..k], c, l, k)
    ensures LoadedAt(events, c, l, k) && Place(events, l) == Place(events[..k], l)
  {
    hide Run;
    assert events[..k][..l] == events[..l];
    assert forall j :: 0 <= j < k ==> events[..k][j] == events[j];
  }

  lemma {:induction false} NeverDropsPlaces(s: Issue, done: seq<Event>, events: seq<Event>)
    requires Run(UNKNOWN, done + events).Some? && Run(UNKNOWN, done) == Some(s)
    ensures NeverDrops(s, events) <==>
            forall k :: |done| <= k < |done + events| ==> Place(done + events, k) <= Place(done + events, k + 1)
    decreases |events|
  {
    hide Step, Enabled, StateIndex, Run, ClosedIsMerged, Place;
    if events != [] {
      var all, more := done + events, done + [events[0]];
      assert all == more + events[1..] && all[..|done|] == done && all[|done|] == events[0];
      var at := PlaceSteps(all, |done|);
      RunPrefix(all, |more|);
      assert all[..|more|] == more && more[..|more| - 1] == done && more[|more| - 1] == events[0];
      RunLast(UNKNOWN, more);
      NeverDropsPlaces(Step(s, events[0]), more, events[1..]);
    }
  }

  /** Some call saves what a step after its load has overtaken. */
  ghost predicate SomeOvertaken(events: seq<Event>) {
    exists l: nat, m: nat, k: nat :: k < |events| && Overtaken(events, l, m, k)
  }

  lemma OvertakenIsSome(events: seq<Event>, l: nat, m: nat, k: nat)
    requires k < |events| && Overtaken(events, l, m, k)
    ensures SomeOvertaken(events)
  {
  }

  lemma {:induction false} OvertakenDrops(events: seq<Event>) returns (j: nat)
    requires SomeOvertaken(events)
    ensures j < |events| && Place(events, j + 1) < Place(events, j)
  {
    var l: nat, m: nat, k: nat :| k < |events| && Overtaken(events, l, m, k);
    assert m < k && Place(events, k + 1) < Place(events, m + 1) by { hide Place, LoadedAt; }
    hide *;
    j := DropsOnTheWay(events, m + 1, k + 1);
  }

  /** In every run, the place in the path never drops exactly when no call saves what a step after its load has
      overtaken. */
  lemma {:induction false} NeverDropsIffNotOvertaken(events: seq<Event>)
    requires Run(UNKNOWN, events).Some?
    ensures NeverDrops(UNKNOWN, events) <==> !SomeOvertaken(events)
  {
    hide *;
    assert [] + events == events;
    RunNothing(UNKNOWN);
    NeverDropsPlaces(UNKNOWN, [], events);
    if !NeverDrops(UNKNOWN, events) {
      var k :| 0 <= k < |events| && Place(events, k) > Place(events, k + 1);
      var l, m := DropIsOvertaken(events, k);
      OvertakenIsSome(events, l, m, k);
    }
    if SomeOvertaken(events) { var j := OvertakenDrops(events); }
  }

  /** Calls that overlap can drop it: recordArtifact saves the record it loaded before a finish
      cleaned it. */
  lemma OverlapDrops(r: LifecycleRecord, outcome: FinishOutcome)
    requires r.state == BranchReady && outcome.merged
    ensures var finished := Run(UNKNOWN, [Started(r), Loads(1), Loads(2), FinishGated(2, [], "", 0),
                                          Finishes(2, r.branch, r.worktree, outcome, 0)]);
            finished.Some? && StateIndex(finished.value) == PathIndex(Cleaned)
            && Enabled(finished.value, RecordsArtifact(1, Plan, "p", 0))
            && StateIndex(Step(finished.value, RecordsArtifact(1, Plan, "p", 0))) == PathIndex(BranchReady)
  {
    hide AfterGate, AfterMerge, Run, NoneBlocked;
    assert NoneBlocked([]) by { NothingBlocked(); }
    var s1 := Step(UNKNOWN, Started(r));
    var s2 := Step(s1, Loads(1));
    var s3 := Step(s2, Loads(2));
    var s4 := Step(s3, FinishGated(2, [], "", 0));
    assert s4 == AfterGate(s3, 2, [], "", 0);
    CleanGate(s3, 2);
    var s5 := Step(s4, Finishes(2, r.branch, r.worktree, outcome, 0));
    MergeState(s4, 2, r.branch, r.worktree, outcome, 0);
    CleanMerge(s4, 2, 1, r.branch, r.worktree, outcome);
    RunOne(s4, Finishes(2, r.branch, r.worktree, outcome, 0), []);
    assert [Finishes(2, r.branch, r.worktree, outcome, 0)] + [] == [Finishes(2, r.branch, r.worktree, outcome, 0)];
    RunNothing(s5);
    RunOne(s3, FinishGated(2, [], "", 0), [Finishes(2, r.branch, r.worktree, outcome, 0)]);
    var last2 := [FinishGated(2, [], "", 0), Finishes(2, r.branch, r.worktree, outcome, 0)];
    assert [FinishGated(2, [], "", 0)] + [Finishes(2, r.branch, r.worktree, outcome, 0)] == last2;
    RunOne(s2, Loads(2), last2);
    RunOne(s1, Loads(1), [Loads(2)] + last2);
    RunOne(UNKNOWN, Started(r), [Loads(1), Loads(2)] + last2);
    assert [Started(r)] + ([Loads(1), Loads(2)] + last2)
           == [Started(r), Loads(1), Loads(2), FinishGated(2, [], "", 0),
               Finishes(2, r.branch, r.worktree, outcome, 0)];
    assert [Loads(1)] + ([Loads(2)] + last2) == [Loads(1), Loads(2)] + last2;
  }

  lemma NothingBlocked()
    ensures NoneBlocked([])
  {
  }

  lemma RunNothing(s: Issue)
    ensures Run(s, []) == Some(s)
  {
  }

  lemma RunOne(s: Issue, e: Event, rest: seq<Event>)
    requires Enabled(s, e)
    ensures Run(s, [e] + rest) == Run(Step(s, e), rest)
  {
    assert ([e] + rest)[1..] == rest;
  }

  lemma CleanGate(s: Issue, c: CallId)
    requires c in s.loaded && s.loaded[c].state == BranchReady && NoneBlocked([])
    ensures var after := AfterGate(s, c, [], "", 0);
            && after.loaded == s.loaded - {c} && c in after.merging && after.merging[c].state == Merging
  {
    AdvancedIff(s.loaded[c], Merging, 0);
    hide Advanced;
  }

  lemma CleanMerge(s: Issue, c: CallId, d: CallId, branch: string, worktree: string, outcome: FinishOutcome)
    requires c in s.merging && d in s.loaded && d != c
    ensures var after := AfterMerge(s, c, branch, worktree, outcome, 0);
            d in after.loaded && after.loaded[d] == s.loaded[d]
  {
    hide AfterFinish;
  }

  /** Every call that saves stamps the record with its time; a finish that goes on to merging does so unless it is
      there already. */
  lemma SavesStamp(s: Issue, e: Event)
    requires ClosedIsMerged(s) && Enabled(s, e)
    requires e.RecordsArtifact? || e.Commits? || e.Finishes? || (e.FinishGated? && !NoneBlocked(e.events))
    ensures Step(s, e).record.Some? && Step(s, e).record.value.updatedAt == e.now
  {
    hide AddArtifact, AppendNote, NoneBlocked, MergeSeen, Advanced;
    match e
    case Finishes(c, branch, worktree, outcome, now) =>
      assert s.merging[c].state == Merging;
      FinishIff(s.merging[c].(branch := branch, worktree := worktree), outcome, now);
    case FinishGated(c, events, note, now) => FinishIff(s.loaded[c], FinishOutcome(false, None, Some(note)), now);
    case _ =>
  }

  // ----- what a record holds, told from the calls -----

  /** The pointers of a kind that an event brings. */
  function NewPointers(e: Event, kind: ArtifactKind): seq<string> {
    match e
    case RecordsArtifact(_, k, pointer, _) => if k == kind then [pointer] else []
    case Commits(_, commit, _) =>
      if kind == ArtifactKind.Commit && commit.sha.Some? && commit.sha.value != "" then [commit.sha.value] else []
    case Finishes(_, _, _, outcome, _) =>
      if kind == Pr && outcome.prUrl.Some? && outcome.prUrl.value != "" then [outcome.prUrl.value] else []
    case _ => []
  }

  ghost function NewNotes(e: Event): seq<string> {
    match e
    case Commits(_, commit, _) => if commit.note.Some? && commit.note.value != "" then [commit.note.value] else []
    case FinishGated(_, events, note, _) => if !NoneBlocked(events) && note != "" then [note] else []
    case Finishes(_, _, _, outcome, _) =>
      if outcome.note.Some? && outcome.note.value != "" then [outcome.note.value] else []
    case _ => []
  }

  /** The record an issue was started with, and what the events brought since. */
  function StartOf(events: seq<Event>): Option<LifecycleRecord> {
    if events == [] then None
    else if events[|events| - 1].Started? then Some(events[|events| - 1].record)
    else StartOf(events[..|events| - 1])
  }

  function PointersIn(events: seq<Event>, kind: ArtifactKind): seq<string> {
    if events == [] then [] else PointersIn(events[..|events| - 1], kind) + NewPointers(events[|events| - 1], kind)
  }

  ghost function NotesIn(events: seq<Event>): seq<string> {
    if events == [] then [] else NotesIn(events[..|events| - 1]) + NewNotes(events[|events| - 1])
  }

  /** Where the last finish, or else the start, found the work. */
  function PlaceOfWork(events: seq<Event>): (string, string) {
    if events == [] then ("", "")
    else
      match events[|events| - 1]
      case Started(r) => (r.branch, r.worktree)
      case Finishes(_, branch, worktree, _, _) => (branch, worktree)
      case _ => PlaceOfWork(events[..|events| - 1])
  }

  /** Those of ps that are not in old, each once. */
  function Fresh(known: seq<string>, ps: seq<string>): seq<string> {
    if ps == [] then []
    else
      var seen, last := Fresh(known, ps[..|ps| - 1]), ps[|ps| - 1];
      if last in known || last in seen then seen else seen + [last]
  }

  /** Exactly those that are not in the old ones, each once, in the order in which they first appear. */
  lemma {:induction false} FreshIs(known: seq<string>, ps: seq<string>)
    ensures forall x :: x in Fresh(known, ps) <==> x in ps && x !in known
    ensures forall i, j :: 0 <= i < j < |Fresh(known, ps)| ==> Fresh(known, ps)[i] != Fresh(known, ps)[j]
    ensures forall i, m :: 0 <= i < |Fresh(known, ps)| && 0 <= m < |ps| && ps[m] == Fresh(known, ps)[i] ==>
              forall h :: 0 <= h < i ==> Fresh(known, ps)[h] in ps[..m]
  {
    if ps != [] {
      var n := |ps| - 1;
      var shorter, last := ps[..n], ps[n];
      FreshIs(known, shorter);
      var seen, all := Fresh(known, shorter), Fresh(known, ps);
      assert ps == shorter + [last];
      forall i, m | 0 <= i < |all| && 0 <= m < |ps| && ps[m] == all[i]
        ensures forall h :: 0 <= h < i ==> all[h] in ps[..m]
      {
        if m < n {
          assert shorter[m] == ps[m] && shorter[..m] == ps[..m] && i < |seen|;
        } else {
          assert ps[..m] == shorter;
        }
      }
    }
  }

  lemma FreshOne(known: seq<string>, ps: seq<string>, more: seq<string>)
    requires |more| <= 1
    ensures var now := known + Fresh(known, ps);
            known + Fresh(known, ps + more) == now + if more == [] || more[0] in now then [] else more
  {
    if more == [] {
      assert ps + more == ps;
    } else {
      assert (ps + more)[..|ps|] == ps;
    }
  }

  /** The parts of a record that calls bring. */
  datatype Content = Content(
    issueNumber: nat, branch: string, worktree: string, artifacts: Artifacts, notes: seq<string>)

  function ContentOf(r: LifecycleRecord): Content {
    Content(r.issueNumber, r.branch, r.worktree, r.artifacts, r.notes)
  }

  /** The content is that of the start and of everything brought since. */
  ghost predicate IsHistory(c: Content, events: seq<Event>) {
    && StartOf(events).Some?
    && (c.branch, c.worktree) == PlaceOfWork(events)
    && var start := StartOf(events).value;
       && c.issueNumber == start.issueNumber && c.notes == start.notes + NotesIn(events)
       && forall kind :: c.artifacts.Get(kind)
                         == start.artifacts.Get(kind) + Fresh(start.artifacts.Get(kind), PointersIn(events, kind))
  }

  /** What one event makes of the content. */
  ghost predicate Brings(e: Event, c: Content, after: Content) {
    && after.issueNumber == c.issueNumber && after.notes == c.notes + NewNotes(e)
    && (after.branch, after.worktree) == (if e.Finishes? then (e.branch, e.worktree) else (c.branch, c.worktree))
    && forall kind :: after.artifacts.Get(kind)
                      == c.artifacts.Get(kind)
                         + var more := NewPointers(e, kind);
                           if more == [] || more[0] in c.artifacts.Get(kind) then [] else more
  }

  lemma FewPointers(e: Event, kind: ArtifactKind)
    ensures |NewPointers(e, kind)| <= 1
  {
  }

  lemma BroughtIsHistory(e: Event, c: Content, after: Content, events: seq<Event>)
    requires IsHistory(c, events) && Brings(e, c, after) && !e.Started?
    ensures IsHistory(after, events + [e])
  {
    var all := events + [e];
    assert all[..|events|] == events && all[|events|] == e;
    assert StartOf(all) == StartOf(events) && NotesIn(all) == NotesIn(events) + NewNotes(e);
    assert (after.branch, after.worktree) == PlaceOfWork(all);
    var start := StartOf(events).value;
    hide NewPointers, NewNotes, StartOf, NotesIn, PlaceOfWork, Fresh;
    forall kind
      ensures after.artifacts.Get(kind)
              == start.artifacts.Get(kind) + Fresh(start.artifacts.Get(kind), PointersIn(all, kind))
    {
      FewPointers(e, kind);
      FreshOne(start.artifacts.Get(kind), PointersIn(events, kind), NewPointers(e, kind));
      assert PointersIn(all, kind) == PointersIn(events, kind) + NewPointers(e, kind);
    }
  }

  lemma PushIs(a: Artifacts, kind: ArtifactKind, pointer: string, k: ArtifactKind)
    ensures a.Push(kind, pointer).Get(k) == a.Get(k) + if k == kind then [pointer] else []
  {
  }

  /** Recording a pointer: it is in the list of its kind, after what was there, and once more only if it was not;
      nothing else of the record changes. */
  lemma ArtifactIsAdded(r: LifecycleRecord, kind: ArtifactKind, pointer: string)
    ensures var after := AddArtifact(r, kind, pointer);
            && after.(artifacts := r.artifacts) == r
            && pointer in after.artifacts.Get(kind)
            && (forall k :: after.artifacts.Get(k)
                            == r.artifacts.Get(k)
                               + if k != kind || pointer in r.artifacts.Get(kind) then [] else [pointer])
  {
    hide Artifacts.Push, Artifacts.Get;
    forall k
      ensures r.artifacts.Push(kind, pointer).Get(k) == r.artifacts.Get(k) + if k == kind then [pointer] else []
    {
      PushIs(r.artifacts, kind, pointer, k);
    }
  }

  lemma CommitBrings(r: LifecycleRecord, c: CallId, outcome: CommitOutcome, now: nat)
    ensures Brings(Event.Commits(c, outcome, now), ContentOf(r), ContentOf(AfterCommit(r, outcome, now)))
  {
    hide AddArtifact, Artifacts.Get;
    if IsPresent(outcome.sha) { ArtifactIsAdded(r, ArtifactKind.Commit, outcome.sha.value); }
  }

  lemma AdvanceKeepsContent(r: LifecycleRecord, state: LifecycleState, now: nat)
    ensures Advanced(r, state, now).Ok? ==> ContentOf(Advanced(r, state, now).value) == ContentOf(r)
  {
    hide StateName, IsValidTransition, PathIndex;
  }

  lemma FinishKeepsContent(r: LifecycleRecord, outcome: FinishOutcome, now: nat)
    ensures AfterFinish(r, outcome, now).Ok? ==>
              ContentOf(AfterFinish(r, outcome, now).value) == ContentOf(Annotated(r, outcome))
  {
    var next := Annotated(r, outcome);
    AdvanceKeepsContent(next, Closed, now);
    hide Advanced, Annotated;
    if Advanced(next, Closed, now).Ok? { AdvanceKeepsContent(Advanced(next, Closed, now).value, Cleaned, now); }
  }

  lemma AnnotatedBrings(r: LifecycleRecord, branch: string, worktree: string, c: CallId, outcome: FinishOutcome,
                        now: nat)
    ensures Brings(Finishes(c, branch, worktree, outcome, now), ContentOf(r),
                   ContentOf(Annotated(r.(branch := branch, worktree := worktree), outcome)))
  {
    hide AddArtifact, Artifacts.Get;
    if IsPresent(outcome.prUrl) {
      ArtifactIsAdded(r.(branch := branch, worktree := worktree), Pr, outcome.prUrl.value);
    }
  }

  lemma BlockedBrings(r: LifecycleRecord, c: CallId, events: seq<JournalEvent>, note: string, now: nat)
    requires !NoneBlocked(events)
    ensures Brings(FinishGated(c, events, note, now), ContentOf(r),
                   ContentOf(Annotated(r, FinishOutcome(false, None, Some(note)))))
  {
    hide NoneBlocked, Artifacts.Get;
  }

  lemma NothingBrought(e: Event, c: Content)
    requires e.Loads? || e.Dropped? || (e.FinishGated? && NoneBlocked(e.events))
    ensures Brings(e, c, c)
  {
    hide NoneBlocked, Artifacts.Get;
  }

  /** Every record in flight has the content of the stored one. */
  ghost predicate InFlightIsWhole(s: Issue) {
    && (forall c :: c in s.loaded ==> s.record.Some? && ContentOf(s.loaded[c]) == ContentOf(s.record.value))
    && (forall c :: c in s.merging ==> s.record.Some? && ContentOf(s.merging[c]) == ContentOf(s.record.value))
  }

  lemma SavedIsWhole(s: Issue, c: CallId, r: LifecycleRecord)
    requires InFlightIsCurrent(s) && InFlight(s, c)
    ensures InFlightIsWhole(Saved(s, c, r)) && InFlightIsWhole(Discarded(s, c))
  {
    AloneInFlight(s, c);
  }

  lemma GateBrings(s: Issue, e: Event)
    requires InFlightIsCurrent(s) && InFlightIsWhole(s) && e.FinishGated? && Enabled(s, e)
    ensures var after := Step(s, e);
            InFlightIsWhole(after) && after.record.Some?
            && Brings(e, ContentOf(s.record.value), ContentOf(after.record.value))
  {
    var r := s.loaded[e.call];
    AloneInFlight(s, e.call);
    if !NoneBlocked(e.events) {
      FinishKeepsContent(r, FinishOutcome(false, None, Some(e.note)), e.now);
      FinishIff(r, FinishOutcome(false, None, Some(e.note)), e.now);
      BlockedBrings(r, e.call, e.events, e.note, e.now);
    } else {
      AdvanceKeepsContent(r, Merging, e.now);
      NothingBrought(e, ContentOf(s.record.value));
    }
    hide NoneBlocked, AfterFinish, Advanced, Annotated, Brings, ContentOf;
  }

  lemma MergeBrings(s: Issue, e: Event)
    requires ClosedIsMerged(s) && InFlightIsCurrent(s) && InFlightIsWhole(s) && e.Finishes? && Enabled(s, e)
    ensures var after := Step(s, e);
            InFlightIsWhole(after) && after.record.Some?
            && Brings(e, ContentOf(s.record.value), ContentOf(after.record.value))
  {
    var r := s.merging[e.call];
    var moved := r.(branch := e.branch, worktree := e.worktree);
    AloneInFlight(s, e.call);
    assert r.state == Merging;
    FinishIff(moved, e.outcome, e.now);
    FinishKeepsContent(moved, e.outcome, e.now);
    AnnotatedBrings(r, e.branch, e.worktree, e.call, e.outcome, e.now);
    ContentDecides(e, r, s.record.value, AfterFinish(moved, e.outcome, e.now).value);
    hide NoneBlocked, MergeSeen, AfterFinish, Advanced, Annotated, Brings, ContentOf, Artifacts.Get;
  }

  lemma ContentDecides(e: Event, r: LifecycleRecord, stored: LifecycleRecord, after: LifecycleRecord)
    requires ContentOf(r) == ContentOf(stored)
    ensures Brings(e, ContentOf(r), ContentOf(after)) <==> Brings(e, ContentOf(stored), ContentOf(after))
  {
    hide Brings;
  }

  lemma StepBrings(s: Issue, e: Event)
    requires ClosedIsMerged(s) && InFlightIsCurrent(s) && InFlightIsWhole(s) && Enabled(s, e)
    requires e.Loads? ==> s.loaded == map[] && s.merging == map[]
    ensures var after := Step(s, e);
            && InFlightIsWhole(after)
            && (s.record.Some? ==>
                  after.record.Some? && Brings(e, ContentOf(s.record.value), ContentOf(after.record.value)))
            && (s.record.None? && !e.Started? ==> after.record.None?)
            && (e.Started? ==> after.record == Some(e.record))
  {
    match e
    case Started(_) =>
    case Loads(c) => if s.record.Some? { NothingBrought(e, ContentOf(s.record.value)); } hide Brings;
    case Dropped(c) =>
      if s.record.Some? { NothingBrought(e, ContentOf(s.record.value)); }
      hide Brings;
      SavedIsWhole(s, c, if c in s.loaded then s.loaded[c] else s.merging[c]);
    case RecordsArtifact(c, kind, pointer, now) =>
      ArtifactIsAdded(s.loaded[c], kind, pointer);
      SavedIsWhole(s, c, Touch(AddArtifact(s.loaded[c], kind, pointer), now));
      hide AddArtifact, Artifacts.Get, NoneBlocked, MergeSeen;
    case Commits(c, outcome, now) =>
      CommitBrings(s.loaded[c], c, outcome, now);
      SavedIsWhole(s, c, AfterCommit(s.loaded[c], outcome, now));
      hide AfterCommit, Brings, NoneBlocked, MergeSeen;
    case FinishGated(_, _, _, _) => GateBrings(s, e);
    case Finishes(_, _, _, _, _) => MergeBrings(s, e);
  }

  /** Nothing can happen before the start. */
  ghost predicate HistorySoFar(s: Issue, done: seq<Event>) {
    && ClosedIsMerged(s) && InFlightIsCurrent(s) && InFlightIsWhole(s)
    && (s.record.None? ==> done == [] && s.loaded == map[] && s.merging == map[])
    && (s.record.Some? ==> done != [] && IsHistory(ContentOf(s.record.value), done))
  }

  lemma StepKeepsHistory(s: Issue, e: Event, done: seq<Event>)
    requires HistorySoFar(s, done) && Enabled(s, e)
    requires e.Loads? ==> s.loaded == map[] && s.merging == map[]
    ensures HistorySoFar(Step(s, e), done + [e])
  {
    StepKeepsMerged(s, e);
    StepKeepsCurrent(s, e);
    StepBrings(s, e);
    if e.Started? { StartIsHistory(e.record, done + [e]); }
    hide ClosedIsMerged, InFlightIsCurrent, InFlightIsWhole, Step, Brings, IsHistory, ContentOf;
    if s.record.Some? {
      assert Enabled(s, e) ==> !e.Started?;
      BroughtIsHistory(e, ContentOf(s.record.value), ContentOf(Step(s, e).record.value), done);
    }
  }

  lemma StartIsHistory(r: LifecycleRecord, events: seq<Event>)
    ensures events == [Started(r)] ==> IsHistory(ContentOf(r), events)
  {
    if events == [Started(r)] {
      assert events[..0] == [] && events[0] == Started(r);
      StartBrings(r, events);
      hide Artifacts.Get, NoneBlocked, StartOf, NotesIn, PlaceOfWork, PointersIn;
      forall kind
        ensures r.artifacts.Get(kind)
                == r.artifacts.Get(kind) + Fresh(r.artifacts.Get(kind), PointersIn(events, kind))
      {
        assert PointersIn(events, kind) == [];
      }
      assert r.notes + NotesIn(events) == r.notes;
    }
  }

  lemma StartBrings(r: LifecycleRecord, events: seq<Event>)
    requires |events| == 1 && events[0] == Started(r) && events[..0] == []
    ensures StartOf(events) == Some(r) && PlaceOfWork(events) == (r.branch, r.worktree)
    ensures NotesIn(events) == [] && forall kind :: PointersIn(events, kind) == []
  {
    hide NoneBlocked;
    assert NewNotes(events[0]) == [] && NotesIn(events[..0]) == [];
    forall kind ensures PointersIn(events, kind) == [] {
      assert NewPointers(events[0], kind) == [] && PointersIn(events[..0], kind) == [];
    }
  }

  lemma {:induction false} RunKeepsHistory(s: Issue, done: seq<Event>, events: seq<Event>)
    requires HistorySoFar(s, done) && Run(s, events).Some? && OneAtATime(s, events)
    ensures HistorySoFar(Run(s, events).value, done + events)
    decreases |events|
  {
    hide HistorySoFar, Step, Enabled;
    if events == [] {
      assert done + events == done;
    } else {
      StepKeepsHistory(s, events[0], done);
      assert done + [events[0]] + events[1..] == done + events;
      RunKeepsHistory(Step(s, events[0]), done + [events[0]], events[1..]);
    }
  }

  /** With calls one after another nothing is lost and nothing is made up: of every kind a record holds the
      pointers it was started with and then exactly those recorded, committed or linked since, each once and in
      the order in which they first appear; all its notes in order; and the branch and worktree of the last
      finish, or else of the start. */
  lemma {:induction false} RecordIsHistory(events: seq<Event>)
    requires Run(UNKNOWN, events).Some? && OneAtATime(UNKNOWN, events)
    ensures var s := Run(UNKNOWN, events).value;
            && (s.record.Some? <==> events != [])
            && (s.record.Some? ==> IsHistory(ContentOf(s.record.value), events))
  {
    assert [] + events == events;
    assert HistorySoFar(UNKNOWN, []);
    RunKeepsHistory(UNKNOWN, [], events);
    hide IsHistory;
  }

  // ----- the handle -----

  const EXECUTOR_BLOCKED := "executor_blocked"

  /** The records by issue number. Each method is what a call does between two of its awaits. */
  class LifecycleHandle {
    var records: map<nat, LifecycleRecord>

    constructor ()
      ensures records == map[]
    {
      records := map[];
    }

    /** One issue as the store has it; the calls in flight and the history come from elsewhere. */
    ghost function View(issue: nat, calls: Issue): Issue
      reads this
    {
      calls.(record := if issue in records then Some(records[issue]) else None)
    }

    /** The records of other issues are untouched. */
    twostate predicate OnlyChanges(issue: nat)
      reads this
    {
      records - {issue} == old(records) - {issue}
    }

    method RequireRecord(issue: nat) returns (r: Result<LifecycleRecord>)
      ensures r.Ok? <==> issue in records
      ensures r.Ok? ==> r.value == records[issue]
    {
      if issue in records { return Ok(records[issue]); }
      r := Err("Lifecycle record not found: " + NatToString(issue));
    }

    method SaveAndSync(record: LifecycleRecord)
      modifies this
      ensures records == old(records)[record.issueNumber := record]
    {
      records := records[record.issueNumber := record];
    }

    method RecordArtifact(record: LifecycleRecord, kind: ArtifactKind, pointer: string, now: nat,
                          ghost c: CallId, ghost calls: Issue)
      requires c in calls.loaded && calls.loaded[c] == record
      modifies this
      ensures OnlyChanges(record.issueNumber)
      ensures var after := Step(old(View(record.issueNumber, calls)), RecordsArtifact(c, kind, pointer, now));
              View(record.issueNumber, after) == after
      ensures record.issueNumber in records
      ensures forall k :: records[record.issueNumber].artifacts.Get(k)
                          == record.artifacts.Get(k)
                             + if k != kind || pointer in record.artifacts.Get(kind) then [] else [pointer]
    {
      ArtifactIsAdded(record, kind, pointer);
      hide AddArtifact, Artifacts.Get;
      SaveAndSync(Touch(AddArtifact(record, kind, pointer), now));
    }

    method ApplyCommitOutcome(record: LifecycleRecord, outcome: CommitOutcome, now: nat,
                              ghost c: CallId, ghost calls: Issue)
      requires c in calls.loaded && calls.loaded[c] == record
      modifies this
      ensures OnlyChanges(record.issueNumber)
      ensures var after := Step(old(View(record.issueNumber, calls)), Event.Commits(c, outcome, now));
              View(record.issueNumber, after) == after
    {
      var next := record;
      if IsPresent(outcome.sha) { next := AddArtifact(next, ArtifactKind.Commit, outcome.sha.value); }
      if IsPresent(outcome.note) { next := AppendNote(next, outcome.note.value); }
      SaveAndSync(Touch(next, now));
    }

    /** The finish gate: a note for blocked tasks, or on to merging if the record can get there. */
    method FinishGate(record: LifecycleRecord, events: seq<JournalEvent>, now: nat,
                      ghost c: CallId, ghost calls: Issue)
      returns (note: string, merging: Result<LifecycleRecord>)
      requires c in calls.loaded && calls.loaded[c] == record
      modifies this
      ensures OnlyChanges(record.issueNumber)
      ensures var after := Step(old(View(record.issueNumber, calls)), FinishGated(c, events, note, now));
              View(record.issueNumber, after) == after
              && (merging.Ok? ==> c in after.merging && after.merging[c] == merging.value)
      ensures merging.Ok? <==> NoneBlocked(events)
                               && (record.state == Merging || 0 <= PathIndex(record.state) <= PathIndex(Merging))
    {
      hide Advanced, AfterFinish, FinishGuards.IsBlocked, StateName;
      var blocked := FinishGuards.DetectBlockedTasks(events);
      if blocked != [] {
        assert FinishGuards.IsBlocked(events, blocked[0]);
        note := EXECUTOR_BLOCKED + ": " + Join(blocked, ",");
        var outcome := FinishOutcome(false, None, Some(note));
        var applied := ApplyFinishOutcome(record, outcome, now);
        FinishIff(record, outcome, now);
        Untouched(record, outcome, now);
        SaveAndSync(applied.value);
        return note, Err(note);
      }
      note := "";
      AdvancedIff(record, Merging, now);
      merging := AdvanceTo(record, Merging, now);
      if merging.Ok? {
        AdvanceKeepsIssue(record, Merging, now);
        SaveAndSync(merging.value);
      }
    }

    method PersistFinishMergeOutcome(merging: LifecycleRecord, branch: string, worktree: string,
                                     outcome: FinishOutcome, now: nat, ghost c: CallId, ghost calls: Issue)
      returns (r: Result<LifecycleRecord>)
      requires c in calls.merging && calls.merging[c] == merging
      modifies this
      ensures OnlyChanges(merging.issueNumber)
      ensures var after := Step(old(View(merging.issueNumber, calls)), Finishes(c, branch, worktree, outcome, now));
              View(merging.issueNumber, after) == after
              && (r.Ok? ==> after.record == Some(r.value))
    {
      hide AfterFinish;
      var mergeRecord := merging.(branch := branch, worktree := worktree);
      r := ApplyFinishOutcome(mergeRecord, outcome, now);
      if r.Ok? {
        Untouched(mergeRecord, outcome, now);
        SaveAndSync(r.value);
      }
    }
  }

  lemma AdvanceKeepsIssue(r: LifecycleRecord, state: LifecycleState, now: nat)
    ensures Advanced(r, state, now).Ok? ==> Advanced(r, state, now).value.issueNumber == r.issueNumber
  {
    hide StateName, IsValidTransition;
  }

  lemma Untouched(r: LifecycleRecord, outcome: FinishOutcome, now: nat)
    ensures AfterFinish(r, outcome, now).Ok? ==> AfterFinish(r, outcome, now).value.issueNumber == r.issueNumber
  {
    hide Advanced;
    var next := Annotated(r, outcome);
    AdvanceKeepsIssue(next, Closed, now);
    if Advanced(next, Closed, now).Ok? { AdvanceKeepsIssue(Advanced(next, Closed, now).value, Cleaned, now); }
  }
}
