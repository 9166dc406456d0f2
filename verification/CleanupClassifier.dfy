/** Whether a worktree may be removed, decided from what git reports. */
module CleanupClassifier {
  import opened Str

  datatype CleanupKind = Clean | Missing | Dirty | HasUserWork | Ambiguous | UnknownExternal

  datatype CleanupClassification = CleanupClassification(kind: CleanupKind, reason: string)

  datatype CleanupQuery = CleanupQuery(
    worktreeExists: bool, branchMerged: bool, issueClosed: bool, workingTreeStatus: string,
    untrackedPaths: seq<string>, worktreeIsRegistered: bool, worktreeIsExternalClone: bool)

  const MAX_REASON_PATHS := 5

  /** The lines of an output, trimmed, without the blank ones. */
  function NonBlank(lines: seq<string>): seq<string> {
    if lines == [] then []
    else if Trim(lines[0]) == "" then NonBlank(lines[1..])
    else [Trim(lines[0])] + NonBlank(lines[1..])
  }

  function SplitLines(s: string): seq<string> {
    NonBlank(Split(s, '\n'))
  }

  function WithoutStatusCode(line: string): string {
    if |line| >= 3 && line[2] == ' ' then line[3..] else line
  }

  function TrackedDirtyPaths(status: string): seq<string> {
    Map(WithoutStatusCode, SplitLines(status))
  }

  function FirstOf(paths: seq<string>): string {
    Join(if |paths| <= MAX_REASON_PATHS then paths else paths[..MAX_REASON_PATHS], ", ")
  }

  function ClassifyCleanup(q: CleanupQuery): CleanupClassification {
    if !q.worktreeExists then CleanupClassification(Missing, "worktree path does not exist on disk")
    else if !q.worktreeIsRegistered || q.worktreeIsExternalClone then
      CleanupClassification(UnknownExternal, "worktree is not registered with this repository")
    else if !q.issueClosed then CleanupClassification(HasUserWork, "lifecycle issue is still open")
    else if !q.branchMerged then CleanupClassification(HasUserWork, "branch has not been merged into base")
    else if TrackedDirtyPaths(q.workingTreeStatus) != [] then
      CleanupClassification(Dirty, "tracked changes present: " + FirstOf(TrackedDirtyPaths(q.workingTreeStatus)))
    else if q.untrackedPaths != [] then
      CleanupClassification(Ambiguous, "untracked files present: " + FirstOf(q.untrackedPaths))
    else CleanupClassification(Clean, "worktree merged, issue closed, working tree empty")
  }

  /** At most five paths are named. */
  lemma FirstOfIs(paths: seq<string>)
    ensures |paths| <= 5 ==> FirstOf(paths) == Join(paths, ", ")
    ensures |paths| > 5 ==> FirstOf(paths) == Join(paths[..5], ", ")
  {
    hide Join;
  }

  /** A status line is named by its path: what follows the two letters of the code and the space. */
  lemma PathOfLine(code: string, path: string)
    requires |code| == 2
    ensures WithoutStatusCode(code + " " + path) == path
    ensures |path| < 3 || path[2] != ' ' ==> WithoutStatusCode(path) == path
  {
    assert (code + " " + path)[3..] == path;
  }

  /** The reasons say what speaks against the removal, and which paths. */
  lemma ReasonReads(q: CleanupQuery)
    ensures var c := ClassifyCleanup(q);
            && (c.kind == Dirty ==>
                  c.reason == "tracked changes present: " + FirstOf(TrackedDirtyPaths(q.workingTreeStatus)))
            && (c.kind == Ambiguous ==> c.reason == "untracked files present: " + FirstOf(q.untrackedPaths))
            && (c.kind == HasUserWork ==>
                  c.reason == if q.issueClosed then "branch has not been merged into base"
                              else "lifecycle issue is still open")
            && (c.kind == Missing <==> !q.worktreeExists)
            && (c.kind == UnknownExternal <==>
                  q.worktreeExists && (!q.worktreeIsRegistered || q.worktreeIsExternalClone))
            && (c.kind == HasUserWork <==>
                  q.worktreeExists && q.worktreeIsRegistered && !q.worktreeIsExternalClone
                  && (!q.issueClosed || !q.branchMerged))
  {
    hide FirstOf, TrackedDirtyPaths;
  }

  // ----- tracked changes in a porcelain status -----

  const UNTRACKED_MARK := "?? "

  function TrackedLines(lines: seq<string>): seq<string> {
    if lines == [] then []
    else if StartsWith(lines[0], UNTRACKED_MARK) then TrackedLines(lines[1..])
    else [lines[0]] + TrackedLines(lines[1..])
  }

  function FilterUntrackedStatus(status: string): string {
    Join(TrackedLines(Split(status, '\n')), "\n")
  }

  /** Some line reports something other than an untracked path. */
  ghost predicate ReportsTrackedChange(status: string) {
    exists line :: line in Split(status, '\n') && !StartsWith(line, UNTRACKED_MARK) && Trim(line) != ""
  }

  lemma {:induction false} NonBlankIff(lines: seq<string>)
    ensures NonBlank(lines) == [] <==> forall l :: l in lines ==> Trim(l) == ""
  {
    if lines != [] { NonBlankIff(lines[1..]); }
  }

  lemma {:induction false} TrackedLinesAre(lines: seq<string>)
    ensures forall l :: l in TrackedLines(lines) <==> l in lines && !StartsWith(l, UNTRACKED_MARK)
  {
    if lines != [] { TrackedLinesAre(lines[1..]); }
  }

  lemma TrackedChangeIff(status: string)
    ensures TrackedDirtyPaths(FilterUntrackedStatus(status)) != [] <==> ReportsTrackedChange(status)
  {
    var lines := Split(status, '\n');
    var tracked := TrackedLines(lines);
    JoinSplit(status, '\n');
    TrackedLinesAre(lines);
    var text := FilterUntrackedStatus(status);
    assert forall i :: 0 <= i < |tracked| ==> tracked[i] in tracked && tracked[i] in lines;
    forall l | l in tracked ensures '\n' !in l {
      var i :| 0 <= i < |lines| && lines[i] == l;
    }
    if tracked == [] {
      assert Split(text, '\n') == [""];
      NonBlankIff([""]);
    } else {
      SplitJoin(tracked, '\n');
      NonBlankIff(tracked);
    }
    hide Split, TrackedLines, Join, Trim, NonBlank, StartsWith;
  }

  /** The worktree is for removal exactly when nothing speaks against it; a path to put aside makes the
      difference between clean and ambiguous. */
  lemma ClassifiedIff(q: CleanupQuery)
    ensures ClassifyCleanup(q).kind == Clean || ClassifyCleanup(q).kind == Ambiguous <==>
              q.worktreeExists && q.worktreeIsRegistered && !q.worktreeIsExternalClone && q.issueClosed
              && q.branchMerged && TrackedDirtyPaths(q.workingTreeStatus) == []
    ensures ClassifyCleanup(q).kind == Ambiguous ==> q.untrackedPaths != []
    ensures ClassifyCleanup(q).kind == Clean ==> q.untrackedPaths == []
  {
  }
}
