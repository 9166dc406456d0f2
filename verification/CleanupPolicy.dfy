/** Removing a finished worktree: what git and the file system are asked to do, and that no reported
    file is lost. */
module CleanupPolicy {
  import opened Wrappers
  import opened Str
  import opened CleanupClassifier

  type Files = map<string, string>

  datatype RunResult = RunResult(stdout: string, stderr: string, exitCode: int)

  datatype Command =
    | ListWorktrees | Status | ListUntracked | MakeDirectory(path: string) | Rename(source: string, dest: string)
    | RemoveWorktree | Prune

  datatype OutcomeKind =
    | Removed | AlreadyMissing | BlockedDirty | BlockedUserWork | BlockedAmbiguous | BlockedExternal | Failed

  datatype CleanupOutcome = CleanupOutcome(kind: OutcomeKind, reason: string, retried: bool)

  /** What the policy is given: where it runs, the answers of git, which paths the quarantine refuses and why,
      the time as it is written into the backup directory, and the paths whose rename the file system fails. */
  datatype Input = Input(
    cwd: string, worktree: string, worktreeExists: bool, branchMerged: bool, issueClosed: bool,
    issueNumber: int, stamp: string, list: RunResult, status: RunResult, untracked: RunResult,
    firstRemove: RunResult, secondRemove: RunResult, refused: map<string, string>, failing: set<string>)

  predicate Completed(run: RunResult) {
    run.exitCode == 0
  }

  predicate IsWorktreeRegistered(output: string, worktree: string) {
    "worktree " + worktree in SplitLines(output)
  }

  predicate IsRegistered(input: Input) {
    Completed(input.list) && IsWorktreeRegistered(input.list.stdout, input.worktree)
  }

  function UntrackedPaths(input: Input): seq<string> {
    if Completed(input.untracked) then SplitLines(input.untracked.stdout) else []
  }

  /** A failed status counts as an empty one. */
  function Classification(input: Input): CleanupClassification {
    ClassifyCleanup(CleanupQuery(
      true, input.branchMerged, input.issueClosed,
      if Completed(input.status) then FilterUntrackedStatus(input.status.stdout) else "",
      UntrackedPaths(input), IsRegistered(input), !IsRegistered(input)))
  }

  function Under(dir: string, rel: string): string {
    dir + "/" + rel
  }

  function BackupBase(input: Input): string {
    input.cwd + "/" + "thoughts/lifecycle/backups/issue-" + IntToString(input.issueNumber) + "/" + input.stamp
  }

  function SourceOf(input: Input, rel: string): string {
    Under(input.worktree, rel)
  }

  function BackupOf(input: Input, rel: string): string {
    Under(BackupBase(input), rel)
  }

  function ParentOf(path: string): string {
    if path == "" then "" else if path[|path| - 1] == '/' then path[..|path| - 1] else ParentOf(path[..|path| - 1])
  }

  function FormatRunFailure(run: RunResult): string {
    var pieces := (if Trim(run.stderr) == "" then [] else [Trim(run.stderr)])
                  + (if Trim(run.stdout) == "" then [] else [Trim(run.stdout)]);
    if pieces == [] then "exit " + IntToString(run.exitCode) else Join(pieces, " ")
  }

  function IntToString(n: int): string {
    if n < 0 then "-" + NatToString(-n) else NatToString(n)
  }

  function Blocked(c: CleanupClassification): CleanupOutcome {
    match c.kind
    case Dirty => CleanupOutcome(BlockedDirty, c.reason, false)
    case HasUserWork => CleanupOutcome(BlockedUserWork, c.reason, false)
    case Ambiguous => CleanupOutcome(BlockedAmbiguous, c.reason, false)
    case UnknownExternal => CleanupOutcome(BlockedExternal, c.reason, false)
    case Missing => CleanupOutcome(AlreadyMissing, c.reason, false)
    case Clean => CleanupOutcome(Failed, "internal: clean classification routed to blocked()", false)
  }

  // ----- moving files aside -----

  /** How far the moves got, and the files then. A move fails when its file is gone or when the file
      system says so; nothing after it is moved. */
  datatype Moves = Moves(files: Files, done: nat)

  function Renamed(files: Files, source: string, dest: string): Files {
    if source in files then (files - {source})[dest := files[source]] else files
  }

  function Moved(files: Files, input: Input, paths: seq<string>): (m: Moves)
    ensures m.done <= |paths|
  {
    if paths == [] then Moves(files, 0)
    else
      var before := Moved(files, input, paths[..|paths| - 1]);
      var rel := paths[|paths| - 1];
      var source := SourceOf(input, rel);
      if before.done < |paths| - 1 || rel in input.failing || source !in before.files then before
      else Moves(Renamed(before.files, source, BackupOf(input, rel)), |paths|)
  }

  function MoveCommands(input: Input, paths: seq<string>): seq<Command> {
    if paths == [] then []
    else
      var rel := paths[|paths| - 1];
      MoveCommands(input, paths[..|paths| - 1])
      + [MakeDirectory(ParentOf(BackupOf(input, rel))),
         Rename(SourceOf(input, rel), BackupOf(input, rel))]
  }

  predicate AnyRefused(input: Input) {
    exists p :: p in UntrackedPaths(input) && p in input.refused
  }

  /** Everything the cleanup does to the files: the moves, unless a path is refused. */
  function MovesOf(files: Files, input: Input): (m: Moves)
    ensures m.done <= |UntrackedPaths(input)|
  {
    if Classification(input).kind == Ambiguous && !AnyRefused(input) then Moved(files, input, UntrackedPaths(input))
    else Moves(files, 0)
  }

  /** The worktree is asked to be removed. */
  predicate ReachesRemove(files: Files, input: Input) {
    && input.worktreeExists
    && (Classification(input).kind == Clean ||
        (Classification(input).kind == Ambiguous && !AnyRefused(input)
         && MovesOf(files, input).done == |UntrackedPaths(input)|))
  }

  /** git drops the directory; the files outside stay. */
  function Outside(files: Files, worktree: string): Files {
    map p | p in files && !StartsWith(p, worktree + "/") :: files[p]
  }

  /** The worktree is removed. */
  predicate RemoveCompletes(files: Files, input: Input) {
    ReachesRemove(files, input) && (Completed(input.firstRemove) || Completed(input.secondRemove))
  }

  /** The files once the moves are over. */
  function MovedFiles(files: Files, input: Input): Files {
    if input.worktreeExists then MovesOf(files, input).files else files
  }

  function FilesAfter(files: Files, input: Input): Files {
    if RemoveCompletes(files, input) then Outside(MovedFiles(files, input), input.worktree)
    else MovedFiles(files, input)
  }

  // ----- the files and git -----

  class Machine {
    var files: Files
    var commands: seq<Command>

    constructor (files: Files)
      ensures this.files == files && commands == []
    {
      this.files := files;
      commands := [];
    }

    method MoveAside(input: Input, rel: string) returns (ok: bool)
      modifies this
      ensures ok <==> rel !in input.failing && SourceOf(input, rel) in old(files)
      ensures files == if ok then Renamed(old(files), SourceOf(input, rel), BackupOf(input, rel))
                       else old(files)
      ensures commands == old(commands) + MoveCommands(input, [rel])
    {
      var source, dest := SourceOf(input, rel), BackupOf(input, rel);
      assert MoveCommands(input, [rel]) == [MakeDirectory(ParentOf(dest)), Rename(source, dest)] by {
        assert [rel][..0] == [];
      }
      commands := commands + [MakeDirectory(ParentOf(dest)), Rename(source, dest)];
      if rel in input.failing || source !in files { return false; }
      files := Renamed(files, source, dest);
      ok := true;
    }

    /** The first refused path blocks the quarantine before anything moves. */
    method QuarantineUntracked(input: Input, paths: seq<string>) returns (blocked: Option<string>, ok: bool)
      modifies this
      ensures blocked.Some? <==> exists p :: p in paths && p in input.refused
      ensures blocked.Some? ==> files == old(files) && commands == old(commands)
      ensures blocked == var refused := FirstRefused(input, paths);
                         if refused.Some? then Some(input.refused[refused.value]) else None
      ensures blocked == None ==>
                var m := Moved(old(files), input, paths);
                files == m.files && (ok <==> m.done == |paths|)
                && commands == old(commands) + MoveCommands(input, paths[..if ok then |paths| else m.done + 1])
    {
      hide Renamed, SourceOf, BackupOf, ParentOf;
      blocked, ok := None, true;
      NoMoves(files, input);
      hide Moved, MoveCommands;
      for i := 0 to |paths|
        invariant forall p :: p in paths[..i] ==> p !in input.refused
      {
        if paths[i] in input.refused {
          FirstRefusedIs(input, paths, i);
          return Some(input.refused[paths[i]]), false;
        }
      }
      FirstRefusedIs(input, paths, |paths|);
      ghost var was, issued := files, commands;
      assert paths[..0] == [];
      for i := 0 to |paths|
        invariant files == Moved(was, input, paths[..i]).files && Moved(was, input, paths[..i]).done == i
        invariant commands == issued + MoveCommands(input, paths[..i])
      {
        MovedMore(was, input, paths, i);
        ok := MoveAside(input, paths[i]);
        if !ok {
          MovedNoMore(was, input, paths, i);
          return None, false;
        }
      }
      assert paths[..|paths|] == paths;
    }

    method RemoveTheWorktree(input: Input, reason: string) returns (outcome: CleanupOutcome)
      modifies this
      ensures files == if Completed(input.firstRemove) || Completed(input.secondRemove)
                       then Outside(old(files), input.worktree) else old(files)
      ensures commands == old(commands) + if Completed(input.firstRemove) then [RemoveWorktree]
                                          else [RemoveWorktree, Prune, RemoveWorktree]
      ensures outcome == RemovalOutcome(input, reason)
    {
      commands := commands + [RemoveWorktree];
      if Completed(input.firstRemove) {
        files := Outside(files, input.worktree);
        return CleanupOutcome(Removed, reason, false);
      }
      commands := commands + [Prune];
      commands := commands + [RemoveWorktree];
      if Completed(input.secondRemove) {
        files := Outside(files, input.worktree);
        return CleanupOutcome(Removed, reason, true);
      }
      outcome := CleanupOutcome(Failed, "git_worktree_remove: " + FormatRunFailure(input.secondRemove), true);
    }

    /** An error result is the exception of a failed move. The commands are the three queries, the
        moves, and then at most two removes with one prune between. */
    method RunCleanup(input: Input) returns (outcome: Result<CleanupOutcome>)
      modifies this
      ensures files == FilesAfter(old(files), input)
      ensures commands == old(commands) + CommandsOf(old(files), input)
      ensures outcome == OutcomeFor(old(files), input)
    {
      hide Classification, UntrackedPaths, Moved, MoveCommands, Outside, FormatRunFailure, BackupBase,
           NatToString, RemovalOutcome, Blocked;
      if !input.worktreeExists {
        return Ok(CleanupOutcome(AlreadyMissing, "worktree path does not exist on disk", false));
      }
      commands := commands + [ListWorktrees];
      commands := commands + [Status];
      commands := commands + [ListUntracked];
      var paths := UntrackedPaths(input);
      var classification := Classification(input);
      if classification.kind != Clean {
        if classification.kind != Ambiguous { return Ok(Blocked(classification)); }
        var blocked, moved := QuarantineUntracked(input, paths);
        if blocked.Some? {
          return Ok(CleanupOutcome(BlockedAmbiguous, "quarantine_blocked: " + blocked.value, false));
        }
        if !moved { return Err("rename failed"); }
        assert paths[..|paths|] == paths;
        var removed := RemoveTheWorktree(
          input, "quarantined " + NatToString(|paths|) + " files to " + BackupBase(input));
        return Ok(removed);
      }
      var cleaned := RemoveTheWorktree(input, classification.reason);
      outcome := Ok(cleaned);
    }
  }

  const QUERIES := [ListWorktrees, Status, ListUntracked]

  function MovesIssued(files: Files, input: Input): seq<Command> {
    var paths, done := UntrackedPaths(input), MovesOf(files, input).done;
    if Classification(input).kind != Ambiguous || AnyRefused(input) then []
    else MoveCommands(input, if done == |paths| then paths else paths[..done + 1])
  }

  function RemovesIssued(files: Files, input: Input): seq<Command> {
    if !ReachesRemove(files, input) then []
    else if Completed(input.firstRemove) then [RemoveWorktree]
    else [RemoveWorktree, Prune, RemoveWorktree]
  }

  function CommandsOf(files: Files, input: Input): seq<Command> {
    if !input.worktreeExists then [] else QUERIES + MovesIssued(files, input) + RemovesIssued(files, input)
  }

  lemma MovedMore(files: Files, input: Input, paths: seq<string>, i: nat)
    requires i < |paths|
    ensures MoveCommands(input, paths[..i + 1]) == MoveCommands(input, paths[..i]) + MoveCommands(input, [paths[i]])
    ensures var before, rel := Moved(files, input, paths[..i]), paths[i];
            var source := SourceOf(input, rel);
            Moved(files, input, paths[..i + 1])
            == if before.done < i || rel in input.failing || source !in before.files then before
               else Moves(Renamed(before.files, source, BackupOf(input, rel)), i + 1)
  {
    assert paths[..i + 1][..i] == paths[..i] && [paths[i]][..0] == [];
  }

  /** After a failed move nothing more is moved. */
  lemma {:induction false} MovedNoMore(files: Files, input: Input, paths: seq<string>, i: nat)
    requires i <= |paths| && (i < |paths| ==> Moved(files, input, paths[..i + 1]).done <= i)
    requires Moved(files, input, paths[..i]).done == i
    ensures i < |paths| ==> Moved(files, input, paths) == Moved(files, input, paths[..i])
    decreases |paths|
  {
    if i + 1 < |paths| {
      var shorter := paths[..|paths| - 1];
      assert shorter[..i] == paths[..i] && shorter[..i + 1] == paths[..i + 1];
      MovedNoMore(files, input, shorter, i);
    } else if i < |paths| {
      assert paths[..i + 1] == paths;
    }
  }

  lemma NoMoves(files: Files, input: Input)
    ensures Moved(files, input, []) == Moves(files, 0) && MoveCommands(input, []) == []
  {
  }

  /** The path that is refused first, if there is one. */
  function FirstRefused(input: Input, paths: seq<string>): (refused: Option<string>)
    ensures refused.Some? ==> refused.value in input.refused
  {
    if paths == [] then None
    else if paths[0] in input.refused then Some(paths[0])
    else FirstRefused(input, paths[1..])
  }

  lemma {:induction false} FirstRefusedIs(input: Input, paths: seq<string>, i: nat)
    requires i <= |paths| && forall p :: p in paths[..i] ==> p !in input.refused
    ensures FirstRefused(input, paths) == FirstRefused(input, paths[i..])
    ensures FirstRefused(input, paths).Some? <==> exists p :: p in paths && p in input.refused
  {
    if i == 0 {
      assert paths[0..] == paths;
      if paths != [] && paths[0] !in input.refused {
        FirstRefusedIs(input, paths[1..], 0);
        assert forall p :: p in paths <==> p == paths[0] || p in paths[1..];
      }
    } else {
      FirstRefusedIs(input, paths, i - 1);
      assert forall p :: p in paths[..i - 1] ==> p in paths[..i];
      assert paths[i - 1] in paths[..i] && paths[i - 1..][1..] == paths[i..];
    }
  }

  function RemovalOutcome(input: Input, reason: string): CleanupOutcome {
    if Completed(input.firstRemove) then CleanupOutcome(Removed, reason, false)
    else if Completed(input.secondRemove) then CleanupOutcome(Removed, reason, true)
    else CleanupOutcome(Failed, "git_worktree_remove: " + FormatRunFailure(input.secondRemove), true)
  }

  /** What the cleanup answers; an error is the exception of a failed move. */
  function OutcomeFor(files: Files, input: Input): Result<CleanupOutcome> {
    var paths, classification := UntrackedPaths(input), Classification(input);
    if !input.worktreeExists then Ok(CleanupOutcome(AlreadyMissing, "worktree path does not exist on disk", false))
    else if classification.kind == Clean then Ok(RemovalOutcome(input, classification.reason))
    else if classification.kind != Ambiguous then Ok(Blocked(classification))
    else
      var refused := FirstRefused(input, paths);
      if refused.Some? then
        Ok(CleanupOutcome(BlockedAmbiguous, "quarantine_blocked: " + input.refused[refused.value], false))
      else if MovesOf(files, input).done < |paths| then Err("rename failed")
      else Ok(RemovalOutcome(input, "quarantined " + NatToString(|paths|) + " files to " + BackupBase(input)))
  }

  /** The kind of answer, told from what git reports: the first of these that holds. */
  lemma OutcomeIff(files: Files, input: Input)
    ensures var outcome := OutcomeFor(files, input);
            var tracked := Completed(input.status) && ReportsTrackedChange(input.status.stdout);
            var refused := exists p :: p in UntrackedPaths(input) && p in input.refused;
            if !input.worktreeExists then outcome.Ok? && outcome.value.kind == AlreadyMissing
            else if !IsRegistered(input) then outcome.Ok? && outcome.value.kind == BlockedExternal
            else if !input.issueClosed || !input.branchMerged then outcome.Ok? && outcome.value.kind == BlockedUserWork
            else if tracked then outcome.Ok? && outcome.value.kind == BlockedDirty
            else if refused then outcome.Ok? && outcome.value.kind == BlockedAmbiguous
            else if Moved(files, input, UntrackedPaths(input)).done < |UntrackedPaths(input)| then outcome.Err?
            else
              && outcome.Ok? && (outcome.value.retried <==> input.firstRemove.exitCode != 0)
              && outcome.value.kind == if input.firstRemove.exitCode == 0 || input.secondRemove.exitCode == 0
                                       then Removed else Failed
  {
    ClassificationIff(input);
    ClassifiedKinds(input);
    NoMovesMade(files, input);
    OutcomeByKind(files, input);
    hide Classification, UntrackedPaths, ReportsTrackedChange, IsRegistered, OutcomeFor, Moved;
  }

  /** The same by what the classifier makes of it. */
  lemma OutcomeByKind(files: Files, input: Input)
    ensures var outcome, kind := OutcomeFor(files, input), Classification(input).kind;
            var refused := exists p :: p in UntrackedPaths(input) && p in input.refused;
            var removal := && outcome.Ok? && (outcome.value.retried <==> input.firstRemove.exitCode != 0)
                           && outcome.value.kind
                              == if input.firstRemove.exitCode == 0 || input.secondRemove.exitCode == 0 then Removed
                                 else Failed;
            if !input.worktreeExists then outcome.Ok? && outcome.value.kind == AlreadyMissing
            else if kind == Clean then removal
            else if kind != Ambiguous then outcome == Ok(Blocked(Classification(input)))
            else if refused then outcome.Ok? && outcome.value.kind == BlockedAmbiguous
            else if Moved(files, input, UntrackedPaths(input)).done < |UntrackedPaths(input)| then outcome.Err?
            else removal
  {
    var paths, classification := UntrackedPaths(input), Classification(input);
    FirstRefusedIs(input, paths, 0);
    RemovalKind(input, classification.reason);
    RemovalKind(input, "quarantined " + NatToString(|paths|) + " files to " + BackupBase(input));
    hide Classification, UntrackedPaths, NatToString, BackupBase, Moved, RemovalOutcome, Blocked;
  }

  /** Only a worktree that was removed is called removed, and only a failed move is an exception. */
  lemma OutcomeTells(files: Files, input: Input)
    ensures var outcome := OutcomeFor(files, input);
            && (outcome.Ok? && outcome.value.kind == Removed <==> RemoveCompletes(files, input))
            && (outcome.Err? ==> !ReachesRemove(files, input))
  {
    BlockedIsNotRemoved(Classification(input));
    OutcomeByKind(files, input);
    hide Classification, UntrackedPaths, Moved, OutcomeFor, Blocked;
  }

  lemma BlockedIsNotRemoved(c: CleanupClassification)
    ensures Blocked(c).kind != Removed
  {
  }

  lemma RemovalKind(input: Input, reason: string)
    ensures RemovalOutcome(input, reason).kind
            == if Completed(input.firstRemove) || Completed(input.secondRemove) then Removed else Failed
    ensures RemovalOutcome(input, reason).retried <==> input.firstRemove.exitCode != 0
  {
    hide FormatRunFailure;
  }

  /** A worktree is registered when a list that succeeded names it on a line of its own. */
  lemma RegisteredIff(input: Input)
    ensures IsRegistered(input) <==>
              input.list.exitCode == 0
              && exists line :: line in Split(input.list.stdout, '\n') && Trim(line) == "worktree " + input.worktree
  {
    NonBlankAre(Split(input.list.stdout, '\n'), "worktree " + input.worktree);
    hide Split, Trim;
  }

  lemma {:induction false} NonBlankAre(lines: seq<string>, x: string)
    requires x != ""
    ensures x in NonBlank(lines) <==> exists line :: line in lines && Trim(line) == x
  {
    hide Trim;
    if lines != [] {
      NonBlankAre(lines[1..], x);
      assert forall line :: line in lines <==> line == lines[0] || line in lines[1..];
    }
  }

  lemma NoMovesMade(files: Files, input: Input)
    ensures UntrackedPaths(input) == [] ==> Moved(files, input, UntrackedPaths(input)).done == 0
  {
    hide UntrackedPaths;
  }

  lemma ClassifiedKinds(input: Input)
    ensures var kind := Classification(input).kind;
            && (!IsRegistered(input) ==> kind == UnknownExternal)
            && (IsRegistered(input) && (!input.issueClosed || !input.branchMerged) ==> kind == HasUserWork)
            && (IsRegistered(input) && input.issueClosed && input.branchMerged && kind != Clean && kind != Ambiguous ==>
                  kind == Dirty)
  {
    hide IsRegistered, FilterUntrackedStatus, UntrackedPaths, TrackedDirtyPaths, FirstOf;
  }

  // ----- when a remove is issued -----

  /** git is asked to remove the worktree exactly when it exists and is registered, the issue is closed
      and the branch merged, a status that succeeded shows no tracked change, and every reported path
      could be moved aside, none being refused. */
  lemma {:induction false} RemoveIssuedIff(files: Files, input: Input)
    ensures RemoveWorktree in CommandsOf(files, input) <==>
              && input.worktreeExists && IsRegistered(input) && input.issueClosed && input.branchMerged
              && (Completed(input.status) ==> !ReportsTrackedChange(input.status.stdout))
              && !AnyRefused(input) && Moved(files, input, UntrackedPaths(input)).done == |UntrackedPaths(input)|
  {
    ClassificationIff(input);
    NoRemovesBefore(files, input);
    hide Classification, UntrackedPaths, MovesIssued, IsRegistered, ReportsTrackedChange;
  }

  lemma NoRemovesBefore(files: Files, input: Input)
    ensures RemoveWorktree !in QUERIES + MovesIssued(files, input) && Prune !in QUERIES + MovesIssued(files, input)
  {
    var moves := MovesIssued(files, input);
    assert RemoveWorktree !in moves && Prune !in moves by { IssuedAreMoves(files, input); }
    hide *;
    assert RemoveWorktree !in QUERIES && Prune !in QUERIES;
  }

  lemma IssuedAreMoves(files: Files, input: Input)
    ensures RemoveWorktree !in MovesIssued(files, input) && Prune !in MovesIssued(files, input)
  {
    var paths, done := UntrackedPaths(input), MovesOf(files, input).done;
    MovesAreNoRemoves(input, paths);
    if done < |paths| { MovesAreNoRemoves(input, paths[..done + 1]); }
    hide Classification, UntrackedPaths, MoveCommands, AnyRefused, Moved;
  }

  lemma ClassificationIff(input: Input)
    ensures var kind := Classification(input).kind;
            (kind == Clean || kind == Ambiguous) <==>
              IsRegistered(input) && input.issueClosed && input.branchMerged
              && (Completed(input.status) ==> !ReportsTrackedChange(input.status.stdout))
    ensures Classification(input).kind == Clean ==> UntrackedPaths(input) == []
    ensures Classification(input).kind == Ambiguous ==> UntrackedPaths(input) != []
  {
    if Completed(input.status) { TrackedChangeIff(input.status.stdout); }
    NothingDirty();
    ClassifiedIff(CleanupQuery(
      true, input.branchMerged, input.issueClosed,
      if Completed(input.status) then FilterUntrackedStatus(input.status.stdout) else "",
      UntrackedPaths(input), IsRegistered(input), !IsRegistered(input)));
    hide ClassifyCleanup, TrackedDirtyPaths, FilterUntrackedStatus, ReportsTrackedChange, UntrackedPaths, IsRegistered;
  }

  lemma NothingDirty()
    ensures TrackedDirtyPaths("") == []
  {
  }

  lemma {:induction false} MovesAreNoRemoves(input: Input, paths: seq<string>)
    ensures RemoveWorktree !in MoveCommands(input, paths) && Prune !in MoveCommands(input, paths)
  {
    if paths != [] { MovesAreNoRemoves(input, paths[..|paths| - 1]); }
  }

  function Removes(commands: seq<Command>): nat {
    if commands == [] then 0
    else Removes(commands[..|commands| - 1]) + if commands[|commands| - 1] == RemoveWorktree then 1 else 0
  }

  lemma {:induction false} RemovesConcat(a: seq<Command>, b: seq<Command>)
    ensures Removes(a + b) == Removes(a) + Removes(b)
  {
    if b == [] {
      assert a + b == a;
    } else {
      assert (a + b)[..|a + b| - 1] == a + b[..|b| - 1];
      RemovesConcat(a, b[..|b| - 1]);
    }
  }

  lemma {:induction false} NoRemoves(commands: seq<Command>)
    requires RemoveWorktree !in commands
    ensures Removes(commands) == 0
  {
    if commands != [] { NoRemoves(commands[..|commands| - 1]); }
  }

  /** At most two removes are issued, and two only with a prune between them. */
  lemma RemovesAreBounded(files: Files, input: Input)
    ensures Removes(CommandsOf(files, input)) <= 2
    ensures Removes(CommandsOf(files, input)) == 2 ==>
              var commands := CommandsOf(files, input);
              |commands| >= 3 && commands[|commands| - 3..] == [RemoveWorktree, Prune, RemoveWorktree]
    ensures Prune in CommandsOf(files, input) ==> Removes(CommandsOf(files, input)) == 2
  {
    var front := QUERIES + MovesIssued(files, input);
    NoRemovesBefore(files, input);
    NoRemoves(front);
    TwoRemoves();
    hide Removes, MovesIssued, ReachesRemove;
    if input.worktreeExists {
      RemovesConcat(front, RemovesIssued(files, input));
      assert front + [] == front;
    }
    NoRemoves([]);
  }

  lemma TwoRemoves()
    ensures Removes([RemoveWorktree]) == 1 && Removes([RemoveWorktree, Prune, RemoveWorktree]) == 2
  {
    assert [RemoveWorktree][..0] == [];
    assert [RemoveWorktree, Prune, RemoveWorktree][..2] == [RemoveWorktree, Prune];
    assert [RemoveWorktree, Prune][..1] == [RemoveWorktree];
  }

  /** A refused path keeps everything where it is. */
  lemma RefusedMovesNothing(files: Files, input: Input)
    requires AnyRefused(input)
    ensures FilesAfter(files, input) == files
    ensures !input.worktreeExists || CommandsOf(files, input) == [ListWorktrees, Status, ListUntracked]
  {
    ClassificationIff(input);
    hide Classification, UntrackedPaths;
  }

  // ----- what is said and issued, spelled out -----

  /** The paths are the trimmed lines of a query that succeeded, without the blank ones. */
  lemma UntrackedIff(input: Input, x: string)
    ensures x in UntrackedPaths(input) <==>
              && x != "" && input.untracked.exitCode == 0
              && exists line :: line in Split(input.untracked.stdout, '\n') && Trim(line) == x
  {
    NonBlankNotEmpty(Split(input.untracked.stdout, '\n'));
    if x != "" { NonBlankAre(Split(input.untracked.stdout, '\n'), x); }
    hide Split, Trim, NonBlank;
  }

  lemma {:induction false} NonBlankNotEmpty(lines: seq<string>)
    ensures "" !in NonBlank(lines)
  {
    hide Trim;
    if lines != [] { NonBlankNotEmpty(lines[1..]); }
  }

  /** The parent is what stands before the last slash. */
  lemma {:induction false} ParentIs(dir: string, name: string)
    requires '/' !in name
    ensures ParentOf(dir + "/" + name) == dir
  {
    var path := dir + "/" + name;
    if name == "" {
      assert path == dir + "/" && path[..|path| - 1] == dir;
    } else {
      var shorter := name[..|name| - 1];
      assert path[..|path| - 1] == dir + "/" + shorter && path[|path| - 1] == name[|name| - 1];
      assert name[|name| - 1] in name;
      ParentIs(dir, shorter);
    }
  }

  /** A failure quotes what git wrote, the error first; the exit code only if it wrote nothing. */
  lemma FailureText(run: RunResult)
    ensures var err, out := Trim(run.stderr), Trim(run.stdout);
            FormatRunFailure(run)
            == if err != "" && out != "" then err + " " + out
               else if err != "" then err
               else if out != "" then out
               else "exit " + IntToString(run.exitCode)
  {
    hide Trim, IntToString;
    var err, out := Trim(run.stderr), Trim(run.stdout);
    assert [] + [out] == [out] && [err] + [] == [err];
    assert Join([err], " ") == err && Join([out], " ") == out;
    JoinAppend([err], [out], " ");
  }

  lemma IntReads(n: int)
    ensures IntToString(n) == if n >= 0 then NatToString(n) else "-" + NatToString(-n)
    ensures n >= 0 ==> AllDigits(IntToString(n)) && ValueInBase(IntToString(n), 10) == n
    ensures n < 0 ==> IntToString(n)[0] == '-' && ValueInBase(IntToString(n)[1..], 10) == -n
  {
    if n >= 0 { ValueOfNat(n, 10); NatIsDigits(n); } else { ValueOfNat(-n, 10); }
    hide NatToBase, ValueInBase, AllDigits;
    if n < 0 { assert ("-" + NatToString(-n))[1..] == NatToString(-n); }
  }

  /** The reasons: why the quarantine refuses the first path it refuses; how many files went where; what the
      second remove failed with. */
  lemma OutcomeReasons(files: Files, input: Input)
    ensures OutcomeFor(files, input).Ok? ==>
              var outcome, paths := OutcomeFor(files, input).value, UntrackedPaths(input);
              && (outcome.kind == BlockedAmbiguous ==>
                    exists i :: 0 <= i < |paths| && paths[i] in input.refused
                                && (forall j :: 0 <= j < i ==> paths[j] !in input.refused)
                                && outcome.reason == "quarantine_blocked: " + input.refused[paths[i]])
              && (outcome.kind == Removed && paths != [] ==>
                    outcome.reason
                    == "quarantined " + NatToString(|paths|) + " files to " + BackupBase(input))
              && (outcome.kind == Failed ==>
                    outcome.reason == "git_worktree_remove: " + FormatRunFailure(input.secondRemove))
  {
    ClassificationIff(input);
    FirstOfRefused(input, UntrackedPaths(input));
    hide Classification, UntrackedPaths, FormatRunFailure, BackupBase, MovesOf, IsRegistered, ReportsTrackedChange;
  }

  lemma {:induction false} FirstOfRefused(input: Input, paths: seq<string>)
    ensures FirstRefused(input, paths).Some? ==>
              exists i :: 0 <= i < |paths| && paths[i] in input.refused && paths[i] == FirstRefused(input, paths).value
                          && forall j :: 0 <= j < i ==> paths[j] !in input.refused
  {
    if paths != [] && paths[0] !in input.refused && FirstRefused(input, paths).Some? {
      var rest := paths[1..];
      FirstOfRefused(input, rest);
      var i :| 0 <= i < |rest| && rest[i] in input.refused && rest[i] == FirstRefused(input, rest).value
               && forall j :: 0 <= j < i ==> rest[j] !in input.refused;
      assert paths[i + 1] == rest[i];
      assert forall j :: 0 < j < i + 1 ==> paths[j] == rest[j - 1];
    }
  }

  /** The moves of some paths: for each in turn its directory is made and then it is renamed. */
  lemma {:induction false} MoveCommandsAre(input: Input, paths: seq<string>)
    ensures |MoveCommands(input, paths)| == 2 * |paths|
    ensures forall i :: 0 <= i < |paths| ==>
              && MoveCommands(input, paths)[2 * i] == MakeDirectory(ParentOf(BackupOf(input, paths[i])))
              && MoveCommands(input, paths)[2 * i + 1] == Rename(SourceOf(input, paths[i]), BackupOf(input, paths[i]))
  {
    hide SourceOf, BackupOf, ParentOf;
    if paths != [] { MoveCommandsAre(input, paths[..|paths| - 1]); }
  }

  /** All commands: none without a worktree; the queries; the moves up to the first that fails, if nothing else
      speaks against the removal and none is refused; and then the removes, if all of them were made. */
  lemma CommandsAre(files: Files, input: Input)
    ensures var paths := UntrackedPaths(input);
            var removable := IsRegistered(input) && input.issueClosed && input.branchMerged
                             && (Completed(input.status) ==> !ReportsTrackedChange(input.status.stdout));
            var refused := exists p :: p in paths && p in input.refused;
            var done := Moved(files, input, paths).done;
            CommandsOf(files, input)
            == if !input.worktreeExists then []
               else [ListWorktrees, Status, ListUntracked]
                    + if !removable || refused then []
                      else if done < |paths| then MoveCommands(input, paths[..done + 1])
                      else MoveCommands(input, paths)
                           + if input.firstRemove.exitCode == 0 then [RemoveWorktree]
                             else [RemoveWorktree, Prune, RemoveWorktree]
  {
    ClassificationIff(input);
    NoMovesMade(files, input);
    NoMoves(files, input);
    hide Classification, UntrackedPaths, IsRegistered, ReportsTrackedChange, MoveCommands, Moved;
  }

  // ----- the moves -----

  /** The first done paths are at their backups; any other file that is not a backup is as it was. */
  ghost predicate MovedRight(files: Files, after: Files, input: Input, moved: seq<string>) {
    && (forall rel :: rel in moved ==> MovedAside(files, after, input, rel))
    && (forall p :: !IsBackup(input, moved, p) ==> SameFile(files, after, p, IsMoved(input, moved, p)))
  }

  ghost predicate MovedAside(files: Files, after: Files, input: Input, rel: string) {
    var source, dest := SourceOf(input, rel), BackupOf(input, rel);
    source in files && dest in after && after[dest] == files[source]
  }

  predicate SameFile(files: Files, after: Files, p: string, gone: bool) {
    (p in after <==> p in files && !gone) && (p in after ==> after[p] == files[p])
  }

  ghost predicate IsMoved(input: Input, moved: seq<string>, p: string) {
    exists rel :: rel in moved && p == SourceOf(input, rel)
  }

  ghost predicate IsBackup(input: Input, moved: seq<string>, p: string) {
    exists rel :: rel in moved && p == BackupOf(input, rel)
  }

  /** No path is moved to where a later one lies. */
  ghost predicate InOrder(input: Input, paths: seq<string>) {
    forall i, j :: 0 <= i < j < |paths| ==> BackupOf(input, paths[i]) != SourceOf(input, paths[j])
  }

  lemma InOrderSnoc(input: Input, paths: seq<string>, rel: string)
    requires InOrder(input, paths + [rel])
    ensures InOrder(input, paths) && forall y :: y in paths ==> BackupOf(input, y) != SourceOf(input, rel)
  {
    hide SourceOf, BackupOf;
    var more := paths + [rel];
    assert more[|paths|] == rel && forall i :: 0 <= i < |paths| ==> more[i] == paths[i];
  }

  lemma SourcesDiffer(input: Input, x: string, y: string)
    requires SourceOf(input, x) == SourceOf(input, y)
    ensures x == y
  {
    UnderInjective(input.worktree, x, y);
  }

  /** Two reported paths never share a backup. */
  lemma BackupsAreDistinct(input: Input, x: string, y: string)
    requires x != y
    ensures BackupOf(input, x) != BackupOf(input, y)
  {
    if BackupOf(input, x) == BackupOf(input, y) { UnderInjective(BackupBase(input), x, y); }
  }

  lemma UnderInjective(dir: string, x: string, y: string)
    requires Under(dir, x) == Under(dir, y)
    ensures x == y
  {
    assert Under(dir, x)[|dir| + 1..] == x && Under(dir, y)[|dir| + 1..] == y;
  }

  lemma OneMorePath(input: Input, moved: seq<string>, rel: string, p: string)
    ensures IsMoved(input, moved + [rel], p) <==> IsMoved(input, moved, p) || p == SourceOf(input, rel)
    ensures IsBackup(input, moved + [rel], p) <==> IsBackup(input, moved, p) || p == BackupOf(input, rel)
  {
    hide SourceOf, BackupOf;
    assert rel in moved + [rel];
    assert forall x :: x in moved ==> x in moved + [rel];
  }

  lemma {:induction false} MovesAreRight(files: Files, input: Input, paths: seq<string>)
    requires InOrder(input, paths)
    ensures var m := Moved(files, input, paths);
            MovedRight(files, m.files, input, paths[..m.done])
    ensures Moved(files, input, paths).done < |paths| ==>
              var m := Moved(files, input, paths);
              paths[m.done] in input.failing || SourceOf(input, paths[m.done]) !in m.files
  {
    hide SourceOf, BackupOf, InOrder;
    if paths != [] {
      var shorter, rel := paths[..|paths| - 1], paths[|paths| - 1];
      assert shorter + [rel] == paths;
      InOrderSnoc(input, shorter, rel);
      MovesAreRight(files, input, shorter);
      var before := Moved(files, input, shorter);
      assert shorter[..before.done] == paths[..before.done];
      var source := SourceOf(input, rel);
      if before.done == |paths| - 1 && rel !in input.failing && source in before.files {
        assert shorter[..|shorter|] == shorter && paths[..|paths|] == paths && shorter + [rel] == paths;
        hide MovedRight, Renamed;
        OneMoreMoved(files, before.files, input, shorter, rel);
      }
    }
  }

  lemma SourceIsOriginal(files: Files, before: Files, input: Input, moved: seq<string>, rel: string)
    requires forall y :: y in moved ==> BackupOf(input, y) != SourceOf(input, rel)
    requires MovedRight(files, before, input, moved) && SourceOf(input, rel) in before
    ensures rel !in moved
    ensures var source := SourceOf(input, rel); source in files && before[source] == files[source]
  {
    var source := SourceOf(input, rel);
    hide SourceOf, BackupOf;
    assert !IsBackup(input, moved, source);
    assert rel in moved ==> IsMoved(input, moved, source);
  }

  lemma OneMoreMoved(files: Files, before: Files, input: Input, moved: seq<string>, rel: string)
    requires forall y :: y in moved ==> BackupOf(input, y) != SourceOf(input, rel)
    requires MovedRight(files, before, input, moved) && SourceOf(input, rel) in before
    ensures MovedRight(files, Renamed(before, SourceOf(input, rel), BackupOf(input, rel)), input, moved + [rel])
  {
    hide SourceOf, BackupOf;
    var source, dest := SourceOf(input, rel), BackupOf(input, rel);
    var after := Renamed(before, source, dest);
    SourceIsOriginal(files, before, input, moved, rel);
    assert rel in moved + [rel];
    forall x | x in moved + [rel] ensures MovedAside(files, after, input, x) {
      if x in moved { StaysAside(files, before, input, x, rel); }
    }
    hide IsMoved, IsBackup;
    forall p | !IsBackup(input, moved + [rel], p)
      ensures SameFile(files, after, p, IsMoved(input, moved + [rel], p))
    {
      OneMorePath(input, moved, rel, p);
    }
  }

  lemma StaysAside(files: Files, before: Files, input: Input, x: string, rel: string)
    requires BackupOf(input, x) != SourceOf(input, rel) && x != rel && MovedAside(files, before, input, x)
    ensures MovedAside(files, Renamed(before, SourceOf(input, rel), BackupOf(input, rel)), input, x)
  {
    BackupsAreDistinct(input, x, rel);
    hide SourceOf, BackupOf;
  }

  /** What a caller can see of the paths: no rename fails, every file is there, none is reported twice. */
  ghost predicate Movable(files: Files, input: Input, paths: seq<string>) {
    && (forall i :: 0 <= i < |paths| ==> paths[i] !in input.failing && SourceOf(input, paths[i]) in files)
    && forall i, j :: 0 <= i < j < |paths| ==> paths[i] != paths[j]
  }

  lemma MovableSnoc(files: Files, input: Input, paths: seq<string>, rel: string)
    ensures Movable(files, input, paths + [rel]) <==>
              Movable(files, input, paths) && rel !in input.failing && SourceOf(input, rel) in files
              && rel !in paths
  {
    hide SourceOf;
    var more := paths + [rel];
    assert more[|paths|] == rel;
    assert forall i :: 0 <= i < |paths| ==> more[i] == paths[i];
  }

  lemma NotMovedStays(files: Files, after: Files, input: Input, moved: seq<string>, rel: string)
    requires forall y :: y in moved ==> BackupOf(input, y) != SourceOf(input, rel)
    requires MovedRight(files, after, input, moved) && rel !in moved && SourceOf(input, rel) in files
    ensures var source := SourceOf(input, rel); source in after && after[source] == files[source]
  {
    var source := SourceOf(input, rel);
    forall x | x in moved ensures SourceOf(input, x) != source {
      if SourceOf(input, x) == source { SourcesDiffer(input, x, rel); }
    }
    hide SourceOf, BackupOf;
    assert !IsBackup(input, moved, source) && !IsMoved(input, moved, source);
  }

  lemma SourceStaysIff(files: Files, before: Files, input: Input, moved: seq<string>, rel: string)
    requires forall y :: y in moved ==> BackupOf(input, y) != SourceOf(input, rel)
    requires MovedRight(files, before, input, moved)
    ensures SourceOf(input, rel) in before <==> SourceOf(input, rel) in files && rel !in moved
  {
    hide SourceOf, BackupOf, MovedRight;
    if SourceOf(input, rel) in before {
      SourceIsOriginal(files, before, input, moved, rel);
    } else if SourceOf(input, rel) in files && rel !in moved {
      NotMovedStays(files, before, input, moved, rel);
    }
  }

  /** All paths are moved exactly when they are movable. */
  lemma {:induction false} AllMovedIff(files: Files, input: Input, paths: seq<string>)
    requires InOrder(input, paths)
    ensures Moved(files, input, paths).done == |paths| <==> Movable(files, input, paths)
  {
    hide Movable, MovedRight, SourceOf, BackupOf, InOrder, Renamed;
    if paths == [] {
      NothingMovable(files, input);
    } else {
      var shorter, rel := paths[..|paths| - 1], paths[|paths| - 1];
      assert paths == shorter + [rel] && shorter[..|shorter|] == shorter;
      InOrderSnoc(input, shorter, rel);
      AllMovedIff(files, input, shorter);
      MovableSnoc(files, input, shorter, rel);
      MovesAreRight(files, input, shorter);
      if Moved(files, input, shorter).done == |shorter| {
        SourceStaysIff(files, Moved(files, input, shorter).files, input, shorter, rel);
      }
    }
  }

  lemma NothingMovable(files: Files, input: Input)
    ensures Movable(files, input, [])
  {
  }

  /** Where no reported path is moved to where a later one lies, a remove is issued exactly when, besides, the
      paths are movable. */
  lemma RemoveIssuedIffMovable(files: Files, input: Input)
    requires InOrder(input, UntrackedPaths(input))
    ensures RemoveWorktree in CommandsOf(files, input) <==>
              && input.worktreeExists && IsRegistered(input) && input.issueClosed && input.branchMerged
              && (Completed(input.status) ==> !ReportsTrackedChange(input.status.stdout))
              && !AnyRefused(input) && Movable(files, input, UntrackedPaths(input))
  {
    hide *;
    RemoveIssuedIff(files, input);
    AllMovedIff(files, input, UntrackedPaths(input));
  }

  // ----- no reported file is lost -----

  predicate InWorktree(input: Input, p: string) {
    StartsWith(p, input.worktree + "/")
  }

  lemma SourceInWorktree(input: Input, rel: string)
    ensures InWorktree(input, SourceOf(input, rel))
  {
    assert SourceOf(input, rel)[..|input.worktree| + 1] == input.worktree + "/";
  }

  /** The reported paths that end up at their backups. */
  function MovedPaths(files: Files, input: Input): seq<string> {
    if input.worktreeExists then UntrackedPaths(input)[..MovesOf(files, input).done] else []
  }

  /** It is enough that the paths that were moved are in order. */
  lemma MovedFilesAreRight(files: Files, input: Input)
    requires InOrder(input, MovedPaths(files, input))
    ensures MovedRight(files, MovedFiles(files, input), input, MovedPaths(files, input))
    ensures forall rel :: rel in MovedPaths(files, input) ==> rel in UntrackedPaths(input)
  {
    var paths := UntrackedPaths(input);
    hide Moved, Classification, UntrackedPaths, AnyRefused, MovedRight, InOrder;
    NothingMoved(files, input);
    var done := Moved(files, input, paths).done;
    MovedIsPrefix(files, input, paths);
    if InOrder(input, paths[..done]) { MovesAreRight(files, input, paths[..done]); }
    assert paths[..done][..done] == paths[..done] && paths[..0] == [];
  }

  lemma {:induction false} MovedIsPrefix(files: Files, input: Input, paths: seq<string>)
    ensures Moved(files, input, paths[..Moved(files, input, paths).done]) == Moved(files, input, paths)
  {
    hide SourceOf, BackupOf, Renamed;
    if paths != [] {
      var shorter := paths[..|paths| - 1];
      MovedIsPrefix(files, input, shorter);
      var done := Moved(files, input, paths).done;
      if done == |paths| {
        assert paths[..done] == paths;
      } else {
        assert shorter[..done] == paths[..done];
      }
    }
  }

  /** No path that is moved goes to where a later one lies, moved or not. */
  ghost predicate MovesInOrder(files: Files, input: Input) {
    var paths := UntrackedPaths(input);
    forall i, j :: 0 <= i < |MovedPaths(files, input)| && i < j < |paths| ==>
      BackupOf(input, paths[i]) != SourceOf(input, paths[j])
  }

  lemma MovedAre(files: Files, input: Input)
    ensures var paths, moved := UntrackedPaths(input), MovedPaths(files, input);
            |moved| <= |paths| && forall i :: 0 <= i < |moved| ==> moved[i] == paths[i]
  {
    hide UntrackedPaths;
  }

  lemma MovedInOrder(files: Files, input: Input)
    requires MovesInOrder(files, input)
    ensures InOrder(input, MovedPaths(files, input))
  {
    MovedAre(files, input);
    hide UntrackedPaths, MovedPaths, SourceOf, BackupOf;
  }

  /** What a caller can see before: all reported paths in order. */
  lemma AllInOrder(files: Files, input: Input)
    requires InOrder(input, UntrackedPaths(input))
    ensures MovesInOrder(files, input)
  {
    MovedAre(files, input);
    hide UntrackedPaths, MovedPaths, SourceOf, BackupOf;
  }

  lemma NothingMoved(files: Files, input: Input)
    ensures MovedRight(files, files, input, [])
  {
    hide SourceOf, BackupOf;
  }

  /** Before a remove is issued every reported path is at its backup. */
  lemma AllMovedBeforeRemove(files: Files, input: Input)
    requires ReachesRemove(files, input)
    ensures MovedPaths(files, input) == UntrackedPaths(input)
  {
    ClassificationIff(input);
    var paths := UntrackedPaths(input);
    assert paths[..|paths|] == paths;
    hide Moved, Classification, UntrackedPaths, AnyRefused;
  }

  /** The file at this path is at its own backup, where it was moved, or still in place. */
  ghost predicate Kept(files: Files, now: Files, input: Input, rel: string)
    requires SourceOf(input, rel) in files
  {
    var source, dest := SourceOf(input, rel), BackupOf(input, rel);
    || (rel in MovedPaths(files, input) && dest in now && now[dest] == files[source])
    || (rel !in MovedPaths(files, input) && source in now && now[source] == files[source])
  }

  /** Until the worktree is removed every reported file is at its own backup or in place; and when a remove is
      issued, all of them are at their backups. */
  lemma {:induction false} MovesLoseNothing(files: Files, input: Input, rel: string)
    requires MovesInOrder(files, input)
    requires rel in UntrackedPaths(input) && SourceOf(input, rel) in files
    ensures Kept(files, MovedFiles(files, input), input, rel)
    ensures ReachesRemove(files, input) ==> rel in MovedPaths(files, input)
  {
    var paths, moved := UntrackedPaths(input), MovedPaths(files, input);
    MovedInOrder(files, input);
    MovedAre(files, input);
    MovedFilesAreRight(files, input);
    if ReachesRemove(files, input) { AllMovedBeforeRemove(files, input); }
    var j :| 0 <= j < |paths| && paths[j] == rel;
    hide UntrackedPaths, MovedPaths, MovedFiles, ReachesRemove, SourceOf, BackupOf;
    if rel in moved {
      assert MovedAside(files, MovedFiles(files, input), input, rel);
    } else {
      assert j >= |moved|;
      NotMovedStays(files, MovedFiles(files, input), input, moved, rel);
    }
  }

  /** However the cleanup ends, a reported file is at its own backup or in place, exactly unless the worktree is
      removed with the backup inside. */
  lemma {:induction false} NoReportedFileIsLost(files: Files, input: Input, rel: string)
    requires MovesInOrder(files, input)
    requires rel in UntrackedPaths(input) && SourceOf(input, rel) in files
    ensures Kept(files, FilesAfter(files, input), input, rel)
            <==> !(RemoveCompletes(files, input) && InWorktree(input, BackupOf(input, rel)))
  {
    MovesLoseNothing(files, input, rel);
    hide UntrackedPaths, MovedPaths, MovedFiles, ReachesRemove, SourceOf, BackupOf, MovesInOrder, StartsWith;
  }

  /** The caller can tell: if the worktree is not strictly inside the backup directory, reported files survive a
      removed worktree exactly when the backup directory is not in it. */
  lemma BackupInWorktreeIff(input: Input, rel: string)
    requires !(StartsWith(input.worktree + "/", BackupBase(input) + "/") && input.worktree != BackupBase(input))
    ensures InWorktree(input, BackupOf(input, rel)) <==> StartsWith(BackupBase(input) + "/", input.worktree + "/")
  {
    var base, dir, dest := BackupBase(input) + "/", input.worktree + "/", BackupOf(input, rel);
    hide BackupBase;
    assert dest == base + rel;
    if InWorktree(input, dest) { PrefixesNest(base, dir, dest); }
    if StartsWith(base, dir) { assert dest[..|dir|] == base[..|dir|] == dir; }
  }

  lemma PrefixesNest(a: string, b: string, s: string)
    requires StartsWith(s, a) && StartsWith(s, b)
    ensures if |a| <= |b| then StartsWith(b, a) else StartsWith(a, b)
  {
    assert s[..|a|] == a && s[..|b|] == b;
  }

  /** With neither directory in the other, nothing reported lies at a backup path and no backup is lost. */
  predicate Apart(a: string, b: string) {
    !StartsWith(a + "/", b + "/") && !StartsWith(b + "/", a + "/")
  }

  lemma ApartIsSafe(input: Input, x: string, y: string)
    requires Apart(input.worktree, BackupBase(input))
    ensures SourceOf(input, x) != BackupOf(input, y) && !InWorktree(input, BackupOf(input, y))
  {
    var base := BackupBase(input);
    hide BackupBase;
    BackupInWorktreeIff(input, y);
    SourceInWorktree(input, x);
  }

  /** A reported path is moved to where another one lies only if that one lies in the backup directory. */
  lemma OutsideBackupInOrder(input: Input, paths: seq<string>)
    requires forall x :: x in paths ==> !StartsWith(SourceOf(input, x), BackupBase(input) + "/")
    ensures InOrder(input, paths)
  {
    hide BackupBase, SourceOf;
    forall i, j | 0 <= i < j < |paths| ensures BackupOf(input, paths[i]) != SourceOf(input, paths[j]) {
      assert BackupOf(input, paths[i])[..|BackupBase(input)| + 1] == BackupBase(input) + "/";
      assert paths[j] in paths;
    }
  }

  /** Run in the worktree that it removes, or below, a cleanup moves every reported file into the tree that is
      then deleted: no backup is left. */
  lemma RunInsideLosesBackups(files: Files, input: Input, rel: string)
    requires StartsWith(input.cwd + "/", input.worktree + "/") && RemoveCompletes(files, input)
    ensures SourceOf(input, rel) !in FilesAfter(files, input) && BackupOf(input, rel) !in FilesAfter(files, input)
  {
    CwdHasBackups(input, rel);
    SourceInWorktree(input, rel);
    hide ReachesRemove, MovedFiles, SourceOf, BackupOf;
  }

  lemma CwdHasBackups(input: Input, rel: string)
    requires StartsWith(input.cwd + "/", input.worktree + "/")
    ensures InWorktree(input, BackupOf(input, rel))
  {
    var dir := input.worktree + "/";
    var more := "thoughts/lifecycle/backups/issue-" + IntToString(input.issueNumber) + "/" + input.stamp + "/" + rel;
    hide IntToString;
    assert BackupOf(input, rel) == input.cwd + "/" + more;
    assert (input.cwd + "/")[..|dir|] == dir;
    assert BackupOf(input, rel)[..|dir|] == dir;
  }

  // ----- a cleanup that loses a file -----

  const DONE := RunResult("", "", 0)

  /** One untracked file in the worktree that the cleanup runs in. */
  function RunInside(cwd: string, rel: string, issueNumber: int, stamp: string): Input {
    Input(cwd, cwd, true, true, true, issueNumber, stamp, RunResult("worktree " + cwd, "", 0), DONE,
          RunResult(rel, "", 0), DONE, DONE, map[], {})
  }

  lemma OneLine(line: string)
    requires Trimmed(line) && line != "" && '\n' !in line
    ensures SplitLines(line) == [line]
  {
    SplitNone(line, '\n');
    hide Split;
    assert Trim(line) == line;
    hide Trim;
    assert [line][1..] == [] && NonBlank([]) == [];
  }

  /** Everything speaks for the removal. */
  lemma RunInsideIsRemovable(cwd: string, rel: string, issueNumber: int, stamp: string)
    requires Trimmed("worktree " + cwd) && '\n' !in cwd && Trimmed(rel) && rel != "" && '\n' !in rel
    ensures var input := RunInside(cwd, rel, issueNumber, stamp);
            && UntrackedPaths(input) == [rel] && IsRegistered(input) && !ReportsTrackedChange(input.status.stdout)
            && SourceOf(input, rel) != BackupOf(input, rel)
  {
    var input := RunInside(cwd, rel, issueNumber, stamp);
    OneLine(rel);
    OneLine("worktree " + cwd);
    SplitNone("", '\n');
    hide SplitLines, Split;
    assert Trim("") == "";
    hide Trim;
    assert |BackupOf(input, rel)| > |SourceOf(input, rel)| by { hide IntToString; }
  }

  /** The issue is closed and merged, nothing tracked has changed, no rename and no command of git fails, and no
      file is left. */
  lemma RunInsideLosesFile(cwd: string, rel: string, content: string, issueNumber: int, stamp: string)
    requires Trimmed("worktree " + cwd) && '\n' !in cwd && Trimmed(rel) && rel != "" && '\n' !in rel
    ensures var input := RunInside(cwd, rel, issueNumber, stamp);
            var files: Files := map[SourceOf(input, rel) := content];
            RemoveWorktree in CommandsOf(files, input) && FilesAfter(files, input) == map[]
  {
    var input := RunInside(cwd, rel, issueNumber, stamp);
    var files: Files := map[SourceOf(input, rel) := content];
    RunInsideIsRemovable(cwd, rel, issueNumber, stamp);
    assert Movable(files, input, [rel]);
    assert InOrder(input, [rel]);
    hide Movable, SourceOf, BackupOf, InOrder, UntrackedPaths, IsRegistered, ReportsTrackedChange;
    RemoveIssuedIffMovable(files, input);
    RemoveIsReached(files, input);
    AllMovedBeforeRemove(files, input);
    MovedFilesAreRight(files, input);
    hide ReachesRemove, CommandsOf, MovedFiles, MovedPaths;
    var now := MovedFiles(files, input);
    assert MovedAside(files, now, input, rel);
    CwdHasBackups(input, rel);
    forall p | p in now ensures p == BackupOf(input, rel) {
      assert !IsBackup(input, [rel], p) ==> SameFile(files, now, p, IsMoved(input, [rel], p));
    }
  }

  lemma RemoveIsReached(files: Files, input: Input)
    requires RemoveWorktree in CommandsOf(files, input)
    ensures ReachesRemove(files, input)
  {
    NoRemovesBefore(files, input);
    hide ReachesRemove, MovesIssued;
  }

  // ----- what else changes -----

  /** A file that is no source and no backup of a path is not touched by the moves. */
  lemma {:induction false} MovesTouchOnly(files: Files, input: Input, paths: seq<string>, p: string)
    requires !IsMoved(input, paths, p) && !IsBackup(input, paths, p)
    ensures SameFile(files, Moved(files, input, paths).files, p, false)
  {
    hide SourceOf, BackupOf;
    if paths != [] {
      var shorter, rel := paths[..|paths| - 1], paths[|paths| - 1];
      assert paths == shorter + [rel];
      OneMorePath(input, shorter, rel, p);
      hide IsMoved, IsBackup;
      MovesTouchOnly(files, input, shorter, p);
    }
  }

  /** A file outside the worktree changes only if it was at the backup path of a reported file. */
  lemma OtherFilesStay(files: Files, input: Input, p: string)
    requires !InWorktree(input, p) && !IsBackup(input, UntrackedPaths(input), p)
    ensures SameFile(files, FilesAfter(files, input), p, false)
  {
    var paths := UntrackedPaths(input);
    forall x | x in paths ensures SourceOf(input, x) != p {
      SourceInWorktree(input, x);
    }
    assert !IsMoved(input, paths, p);
    MovesTouchOnly(files, input, paths, p);
    hide Moved, Classification, UntrackedPaths, AnyRefused, ReachesRemove, IsBackup, IsMoved, SourceOf, BackupOf;
  }

  /** Where the guarantee ends: a file already at the backup path of a reported one keeps its content exactly
      when no other content is moved there, it is not moved away itself, and the worktree is not removed with it
      inside. */
  lemma BackupIsOverwritten(files: Files, input: Input, rel: string)
    requires MovesInOrder(files, input)
    requires rel in UntrackedPaths(input) && BackupOf(input, rel) in files
    ensures var source, dest, moved := SourceOf(input, rel), BackupOf(input, rel), MovedPaths(files, input);
            && (rel in moved ==> source in files)
            && (SameFile(files, FilesAfter(files, input), dest, false)
                <==> (if rel in moved then files[source] == files[dest] else !IsMoved(input, moved, dest))
                     && !(RemoveCompletes(files, input) && InWorktree(input, dest)))
  {
    var dest, moved := BackupOf(input, rel), MovedPaths(files, input);
    var now := MovedFiles(files, input);
    MovedInOrder(files, input);
    MovedFilesAreRight(files, input);
    forall x | x in moved && x != rel ensures BackupOf(input, x) != dest {
      BackupsAreDistinct(input, x, rel);
    }
    hide MovedPaths, MovedFiles, ReachesRemove, UntrackedPaths, SourceOf, BackupOf, StartsWith, IsMoved;
    if rel in moved {
      assert MovedAside(files, now, input, rel);
    } else {
      assert !IsBackup(input, moved, dest);
      assert SameFile(files, now, dest, IsMoved(input, moved, dest));
    }
  }

  // ----- a path at a backup path -----

  lemma RenamedValues(files: Files, source: string, dest: string, content: string)
    requires content !in files.Values
    ensures content !in Renamed(files, source, dest).Values
  {
  }

  /** Only this file has the content. */
  ghost predicate OnlyAt(files: Files, p: string, content: string) {
    forall q :: q in files && files[q] == content ==> q == p
  }

  lemma RenamedOnlyAt(files: Files, source: string, dest: string, p: string, content: string)
    requires OnlyAt(files, p, content) && source != p
    ensures OnlyAt(Renamed(files, source, dest), p, content)
    ensures source in files && dest == p ==> content !in Renamed(files, source, dest).Values
  {
  }

  /** Where the guarantee ends before any remove: a path that is moved to where a later one lies overwrites it,
      and content that only the later one had is gone. */
  lemma {:induction false} EarlierMoveOverwrites(files: Files, input: Input, paths: seq<string>, i: nat, rel: string)
    requires i < Moved(files, input, paths).done && rel !in paths[..i + 1]
    requires SourceOf(input, rel) in files && BackupOf(input, paths[i]) == SourceOf(input, rel)
    requires OnlyAt(files, SourceOf(input, rel), files[SourceOf(input, rel)])
    ensures files[SourceOf(input, rel)] !in Moved(files, input, paths).files.Values
  {
    var last, shorter := paths[|paths| - 1], paths[..|paths| - 1];
    var source, content := SourceOf(input, rel), files[SourceOf(input, rel)];
    var before := Moved(files, input, shorter);
    assert shorter[..i] == paths[..i] && paths[..i + 1] == paths[..i] + [paths[i]];
    if i < before.done {
      assert shorter[..i + 1] == paths[..i + 1] && shorter[i] == paths[i];
      hide SourceOf, BackupOf;
      EarlierMoveOverwrites(files, input, shorter, i, rel);
      RenamedValues(before.files, SourceOf(input, last), BackupOf(input, last), content);
    } else {
      assert i == |shorter| && shorter[..i] == shorter;
      StaysOnlyThere(files, input, shorter, rel, content);
      if SourceOf(input, last) == source { SourcesDiffer(input, last, rel); }
      hide SourceOf, BackupOf;
      RenamedOnlyAt(before.files, SourceOf(input, last), BackupOf(input, last), source, content);
    }
  }

  lemma {:induction false} StaysOnlyThere(files: Files, input: Input, paths: seq<string>, rel: string, content: string)
    requires rel !in paths && OnlyAt(files, SourceOf(input, rel), content)
    ensures OnlyAt(Moved(files, input, paths).files, SourceOf(input, rel), content)
  {
    if paths != [] {
      var shorter, last := paths[..|paths| - 1], paths[|paths| - 1];
      var before := Moved(files, input, shorter);
      StaysOnlyThere(files, input, shorter, rel, content);
      if SourceOf(input, last) == SourceOf(input, rel) { SourcesDiffer(input, last, rel); }
      hide SourceOf, BackupOf, OnlyAt;
      RenamedOnlyAt(before.files, SourceOf(input, last), BackupOf(input, last), SourceOf(input, rel), content);
    }
  }

  /** Every reported path is a file, reported once, and has a content of its own. */
  ghost predicate ReportedFiles(files: Files, input: Input, paths: seq<string>) {
    && (forall i, j :: 0 <= i < j < |paths| ==> paths[i] != paths[j])
    && forall rel :: rel in paths ==>
         SourceOf(input, rel) in files && OnlyAt(files, SourceOf(input, rel), files[SourceOf(input, rel)])
  }

  lemma OutOfOrderLoses(files: Files, input: Input, i: nat, j: nat)
    requires ReportedFiles(files, input, UntrackedPaths(input))
    requires i < |MovedPaths(files, input)| && i < j < |UntrackedPaths(input)|
    requires BackupOf(input, UntrackedPaths(input)[i]) == SourceOf(input, UntrackedPaths(input)[j])
    ensures !Kept(files, MovedFiles(files, input), input, UntrackedPaths(input)[j])
  {
    var paths := UntrackedPaths(input);
    var rel := paths[j];
    assert input.worktreeExists && MovesOf(files, input) == Moved(files, input, paths) by {
      hide UntrackedPaths, Classification, AnyRefused;
    }
    assert rel !in paths[..i + 1] by { hide UntrackedPaths, SourceOf, BackupOf, MovedPaths; }
    hide UntrackedPaths, SourceOf, BackupOf, Moved;
    EarlierMoveOverwrites(files, input, paths, i, rel);
  }

  /** The moves keep every reported file exactly when none of them goes to where a later reported one lies. */
  lemma {:induction false} MovesLoseNothingIff(files: Files, input: Input)
    requires ReportedFiles(files, input, UntrackedPaths(input))
    ensures (forall rel :: rel in UntrackedPaths(input) ==> Kept(files, MovedFiles(files, input), input, rel))
            <==> MovesInOrder(files, input)
  {
    var paths := UntrackedPaths(input);
    hide UntrackedPaths, MovedPaths, MovedFiles, SourceOf, BackupOf, Kept;
    if MovesInOrder(files, input) {
      forall rel | rel in paths ensures Kept(files, MovedFiles(files, input), input, rel) {
        MovesLoseNothing(files, input, rel);
      }
    } else {
      var i, j :| 0 <= i < |MovedPaths(files, input)| && i < j < |paths|
                  && BackupOf(input, paths[i]) == SourceOf(input, paths[j]);
      OutOfOrderLoses(files, input, i, j);
    }
  }

  lemma KeptBefore(files: Files, input: Input, rel: string)
    requires SourceOf(input, rel) in files && Kept(files, FilesAfter(files, input), input, rel)
    ensures Kept(files, MovedFiles(files, input), input, rel)
  {
    hide UntrackedPaths, MovedPaths, MovedFiles, ReachesRemove, SourceOf, BackupOf, StartsWith;
  }

  /** The cleanup keeps every reported file, at its own backup or in place, exactly when no move goes to where a
      later one lies and the worktree is not removed with a backup inside. */
  lemma {:induction false} CleanupKeepsAllIff(files: Files, input: Input)
    requires ReportedFiles(files, input, UntrackedPaths(input))
    ensures (forall rel :: rel in UntrackedPaths(input) ==> Kept(files, FilesAfter(files, input), input, rel))
            <==> MovesInOrder(files, input)
                 && !(RemoveCompletes(files, input)
                      && exists rel :: rel in UntrackedPaths(input) && InWorktree(input, BackupOf(input, rel)))
  {
    var paths := UntrackedPaths(input);
    hide UntrackedPaths, MovedPaths, MovedFiles, SourceOf, BackupOf, Kept, RemoveCompletes, MovesInOrder, FilesAfter,
         InWorktree;
    MovesLoseNothingIff(files, input);
    if MovesInOrder(files, input) {
      forall rel | rel in paths
        ensures Kept(files, FilesAfter(files, input), input, rel)
                <==> !(RemoveCompletes(files, input) && InWorktree(input, BackupOf(input, rel)))
      {
        NoReportedFileIsLost(files, input, rel);
      }
    } else {
      var rel :| rel in paths && !Kept(files, MovedFiles(files, input), input, rel);
      if Kept(files, FilesAfter(files, input), input, rel) { KeptBefore(files, input, rel); }
    }
  }

  // ----- reported lines -----

  /** The lines git reports, as it reports them. */
  function ReportedLines(input: Input): seq<string> {
    if Completed(input.untracked) then Split(input.untracked.stdout, '\n') else []
  }

  lemma {:induction false} NonBlankIn(lines: seq<string>, line: string)
    requires line in lines && Trim(line) != ""
    ensures Trim(line) in NonBlank(lines)
  {
    hide Trim;
    if line != lines[0] {
      assert line in lines[1..];
      NonBlankIn(lines[1..], line);
    }
  }

  lemma {:induction false} NonBlankTrimmed(lines: seq<string>)
    ensures forall l :: l in NonBlank(lines) ==> Trimmed(l)
  {
    hide Trim, Trimmed;
    if lines != [] {
      TrimIsTrimmed(lines[0]);
      NonBlankTrimmed(lines[1..]);
    }
  }

  /** A reported line is moved as its trimmed path; the line itself is one of the paths exactly when it is
      trimmed. */
  lemma LineIsPathIff(input: Input, line: string)
    requires line in ReportedLines(input) && Trim(line) != ""
    ensures Trim(line) in UntrackedPaths(input)
    ensures line in UntrackedPaths(input) <==> Trimmed(line)
  {
    NonBlankIn(ReportedLines(input), line);
    NonBlankTrimmed(ReportedLines(input));
    if Trimmed(line) { assert Trim(line) == line; }
    hide Trim, Trimmed, Split;
  }

  /** However the cleanup ends, the file of a reported line is at its own backup or in place, exactly unless the
      worktree is removed and the line is not trimmed or the backup inside. */
  lemma {:induction false} NoReportedLineIsLost(files: Files, input: Input, line: string)
    requires MovesInOrder(files, input) && line in ReportedLines(input) && Trim(line) != ""
    requires SourceOf(input, line) in files
    requires forall x :: x in UntrackedPaths(input) ==> BackupOf(input, x) != SourceOf(input, line)
    ensures Kept(files, FilesAfter(files, input), input, line)
            <==> !(RemoveCompletes(files, input) && (!Trimmed(line) || InWorktree(input, BackupOf(input, line))))
  {
    LineIsPathIff(input, line);
    if Trimmed(line) {
      hide UntrackedPaths, MovedPaths, MovedFiles, ReachesRemove, SourceOf, BackupOf, MovesInOrder, StartsWith;
      NoReportedFileIsLost(files, input, line);
    } else {
      MovedInOrder(files, input);
      MovedFilesAreRight(files, input);
      SourceInWorktree(input, line);
      hide UntrackedPaths, MovedPaths, MovedFiles, ReachesRemove, SourceOf, BackupOf, MovesInOrder, StartsWith;
      NotMovedStays(files, MovedFiles(files, input), input, MovedPaths(files, input), line);
    }
  }

  /** While the path a line is trimmed to is absent, nothing is removed: a line that is not trimmed is dangerous
      only beside a file of the trimmed name. */
  lemma AbsentPathStopsRemove(files: Files, input: Input, line: string)
    requires InOrder(input, UntrackedPaths(input)) && line in ReportedLines(input) && Trim(line) != ""
    requires SourceOf(input, Trim(line)) !in files
    ensures RemoveWorktree !in CommandsOf(files, input)
  {
    LineIsPathIff(input, line);
    hide Trim, InOrder, SourceOf, ReportedLines, UntrackedPaths, CommandsOf, IsRegistered, ReportsTrackedChange;
    RemoveIssuedIffMovable(files, input);
  }
}
