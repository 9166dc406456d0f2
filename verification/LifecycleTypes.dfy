/** The states, artifact kinds and record of a lifecycle. */
module LifecycleTypes {
  import opened Wrappers

  datatype LifecycleState =
    | Proposed | IssueOpen | BranchReady | InDesign | InPlan | InProgress
    | Tested | Merging | Closed | Cleaned | Aborted

  const LIFECYCLE_STATES := [
    Proposed, IssueOpen, BranchReady, InDesign, InPlan, InProgress, Tested, Merging, Closed, Cleaned, Aborted
  ]

  function StateName(s: LifecycleState): string {
    match s
    case Proposed => "proposed"
    case IssueOpen => "issue_open"
    case BranchReady => "branch_ready"
    case InDesign => "in_design"
    case InPlan => "in_plan"
    case InProgress => "in_progress"
    case Tested => "tested"
    case Merging => "merging"
    case Closed => "closed"
    case Cleaned => "cleaned"
    case Aborted => "aborted"
  }

  datatype ArtifactKind = Design | Plan | Ledger | Commit | Pr | Worktree

  function KindName(k: ArtifactKind): string {
    match k
    case Design => "design"
    case Plan => "plan"
    case Ledger => "ledger"
    case Commit => "commit"
    case Pr => "pr"
    case Worktree => "worktree"
  }

  const ARTIFACT_KINDS := [Design, Plan, Ledger, Commit, Pr, Worktree]

  function StateAmong(name: string, states: seq<LifecycleState>): Option<LifecycleState> {
    if states == [] then None
    else if StateName(states[0]) == name then Some(states[0])
    else StateAmong(name, states[1..])
  }

  function StateNamed(name: string): Option<LifecycleState> {
    StateAmong(name, LIFECYCLE_STATES)
  }

  function KindAmong(name: string, kinds: seq<ArtifactKind>): Option<ArtifactKind> {
    if kinds == [] then None
    else if KindName(kinds[0]) == name then Some(kinds[0])
    else KindAmong(name, kinds[1..])
  }

  function KindNamed(name: string): Option<ArtifactKind> {
    KindAmong(name, ARTIFACT_KINDS)
  }

  // length and first letter already tell the names apart

  lemma StateNamesDiffer(s: LifecycleState, t: LifecycleState)
    requires |StateName(s)| == |StateName(t)| && StateName(s)[0] == StateName(t)[0]
    ensures s == t
  {
  }

  lemma KindNamesDiffer(k: ArtifactKind, l: ArtifactKind)
    requires |KindName(k)| == |KindName(l)| && KindName(k)[0] == KindName(l)[0]
    ensures k == l
  {
  }

  lemma {:induction false} StateIsFound(s: LifecycleState, states: seq<LifecycleState>)
    requires s in states
    ensures StateAmong(StateName(s), states) == Some(s)
  {
    hide StateName;
    if StateName(states[0]) == StateName(s) {
      StateNamesDiffer(s, states[0]);
    } else {
      StateIsFound(s, states[1..]);
    }
  }

  lemma {:induction false} KindIsFound(k: ArtifactKind, kinds: seq<ArtifactKind>)
    requires k in kinds
    ensures KindAmong(KindName(k), kinds) == Some(k)
  {
    hide KindName;
    if KindName(kinds[0]) == KindName(k) {
      KindNamesDiffer(k, kinds[0]);
    } else {
      KindIsFound(k, kinds[1..]);
    }
  }

  lemma StateRoundTrip(s: LifecycleState)
    ensures StateNamed(StateName(s)) == Some(s)
  {
    hide StateName, StateAmong;
    assert s in LIFECYCLE_STATES;
    StateIsFound(s, LIFECYCLE_STATES);
  }

  lemma KindRoundTrip(k: ArtifactKind)
    ensures KindNamed(KindName(k)) == Some(k)
  {
    hide KindName, KindAmong;
    assert k in ARTIFACT_KINDS;
    KindIsFound(k, ARTIFACT_KINDS);
  }

  lemma {:induction false} StateAmongIs(name: string, states: seq<LifecycleState>)
    ensures StateAmong(name, states).Some? ==> StateName(StateAmong(name, states).value) == name
  {
    hide StateName;
    if states != [] { StateAmongIs(name, states[1..]); }
  }

  lemma {:induction false} KindAmongIs(name: string, kinds: seq<ArtifactKind>)
    ensures KindAmong(name, kinds).Some? ==> KindName(KindAmong(name, kinds).value) == name
  {
    hide KindName;
    if kinds != [] { KindAmongIs(name, kinds[1..]); }
  }

  /** A text names a state or a kind exactly when it is its name. */
  lemma NamedIff(name: string, s: LifecycleState, k: ArtifactKind)
    ensures StateNamed(name) == Some(s) <==> name == StateName(s)
    ensures KindNamed(name) == Some(k) <==> name == KindName(k)
  {
    StateAmongIs(name, LIFECYCLE_STATES);
    KindAmongIs(name, ARTIFACT_KINDS);
    StateRoundTrip(s);
    KindRoundTrip(k);
    hide StateAmong, KindAmong;
  }

  datatype Artifacts = Artifacts(
    design: seq<string>, plan: seq<string>, ledger: seq<string>,
    commit: seq<string>, pr: seq<string>, worktree: seq<string>)
  {
    function Get(k: ArtifactKind): seq<string> {
      match k
      case Design => design
      case Plan => plan
      case Ledger => ledger
      case Commit => commit
      case Pr => pr
      case Worktree => worktree
    }

    function Push(k: ArtifactKind, pointer: string): Artifacts {
      match k
      case Design => this.(design := design + [pointer])
      case Plan => this.(plan := plan + [pointer])
      case Ledger => this.(ledger := ledger + [pointer])
      case Commit => this.(commit := commit + [pointer])
      case Pr => this.(pr := pr + [pointer])
      case Worktree => this.(worktree := worktree + [pointer])
    }
  }

  const NO_ARTIFACTS := Artifacts([], [], [], [], [], [])
}
