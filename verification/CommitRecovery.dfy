/** The commit event of a batch, journalled after its commit; and how an event that a crash between
    the two lost is rebuilt from the marker in the commit message. */
module CommitRecovery {
  import opened Wrappers
  import opened Str
  import opened JournalTypes
  import opened Markers

  datatype CommitInput = CommitInput(
    summary: string, scope: string, batchId: Option<string>, taskId: Option<string>, attempt: Option<nat>)

  const COMMIT_TYPE := "chore"
  const RECOVERY_SUMMARY := "commit marker observed during recovery"

  // ----- the journal of one issue -----

  function LastSeq(events: seq<JournalEvent>): nat {
    if events == [] then 0 else events[|events| - 1].seqNo
  }

  predicate IsMonotonic(events: seq<JournalEvent>) {
    forall i :: 0 < i < |events| ==> events[i - 1].seqNo < events[i].seqNo
  }

  /** The store numbers an event one above the last, whatever number the input came with. */
  function Appended(events: seq<JournalEvent>, e: JournalEvent): seq<JournalEvent> {
    events + [e.(seqNo := LastSeq(events) + 1)]
  }

  function Journalled(inputs: seq<JournalEvent>): seq<JournalEvent> {
    if inputs == [] then [] else Appended(Journalled(inputs[..|inputs| - 1]), inputs[|inputs| - 1])
  }

  lemma {:induction false} JournalNumbers(inputs: seq<JournalEvent>)
    ensures |Journalled(inputs)| == |inputs|
    ensures forall i :: 0 <= i < |inputs| ==> Journalled(inputs)[i] == inputs[i].(seqNo := i + 1)
    ensures IsMonotonic(Journalled(inputs))
  {
    if inputs != [] { JournalNumbers(inputs[..|inputs| - 1]); }
  }

  // ----- a commit -----

  predicate IsPresent(s: Option<string>) {
    s.Some? && s.value != ""
  }

  function AttemptOf(input: CommitInput): nat {
    if input.attempt == None then 1 else input.attempt.value
  }

  function MarkerFor(issue: nat, input: CommitInput, lastSeq: nat): Option<ExecutionMarker> {
    if !IsPresent(input.batchId) then None
    else Some(ExecutionMarker(issue, input.batchId, input.taskId, AttemptOf(input), lastSeq + 1))
  }

  predicate IsScopeChar(c: char, first: bool) {
    'a' <= c <= 'z' || '0' <= c <= '9' || (!first && c == '-')
  }

  predicate IsScope(s: string) {
    s != "" && forall i :: 0 <= i < |s| ==> IsScopeChar(s[i], i == 0)
  }

  function Headline(issue: nat, input: CommitInput): string {
    COMMIT_TYPE + "(" + input.scope + "): " + input.summary + " (#" + NatToString(issue) + ")"
  }

  function CommitMessage(issue: nat, input: CommitInput, marker: Option<string>): Result<string> {
    if !IsScope(input.scope) then Err("Invalid commit scope: " + input.scope)
    else if '\r' in input.summary || '\n' in input.summary then Err("Commit summary must be single-line")
    else if issue == 0 then Err("Invalid issue number: 0")
    else if !IsPresent(marker) then Ok(Headline(issue, input))
    else Ok(Headline(issue, input) + "\n\n" + marker.value)
  }

  /** What is journalled once the commit has been made. */
  function ObservedEvent(issue: nat, input: CommitInput, sha: Option<string>, marker: string, at: nat): JournalEvent {
    JournalEvent(CommitObserved, issue, 0, at, input.batchId, input.taskId, AttemptOf(input),
                 if IsPresent(sha) then "commit " + sha.value else "commit (no sha)", Some(marker), None)
  }

  function AfterObserving(events: seq<JournalEvent>, issue: nat, input: CommitInput, committed: bool,
                          sha: Option<string>, marker: Option<string>, at: nat): seq<JournalEvent> {
    if !committed || !IsPresent(marker) then events
    else Appended(events, ObservedEvent(issue, input, sha, marker.value, at))
  }

  // ----- what a commit says and journals, spelled out -----

  /** A scope is letters a to z, digits and dashes, not empty and with no dash in front. */
  lemma ScopeIff(s: string)
    ensures IsScope(s) <==>
              s != "" && s[0] != '-' && forall c :: c in s ==> c in SMALL || c in DIGITS || c == '-'
  {
    forall c ensures IsScopeChar(c, false) <==> c in SMALL || c in DIGITS || c == '-' {
      SmallIff(c);
      DigitIff(c);
    }
    assert forall i :: 0 <= i < |s| ==> s[i] in s;
    assert forall c :: IsScopeChar(c, true) <==> IsScopeChar(c, false) && c != '-';
    hide IsScopeChar;
  }

  /** A commit is refused exactly for a bad scope, a summary of several lines or issue zero; its message is the
      headline and, two lines below, the marker if there is one. */
  lemma MessageReads(issue: nat, input: CommitInput, marker: Option<string>)
    ensures CommitMessage(issue, input, marker).Ok? <==>
              IsScope(input.scope) && '\r' !in input.summary && '\n' !in input.summary && issue > 0
    ensures CommitMessage(issue, input, marker).Ok? ==>
              CommitMessage(issue, input, marker).value
              == "chore(" + input.scope + "): " + input.summary + " (#" + NatToString(issue) + ")"
                 + if marker.Some? && marker.value != "" then "\n\n" + marker.value else ""
    ensures !IsScope(input.scope) ==>
              CommitMessage(issue, input, marker) == Err("Invalid commit scope: " + input.scope)
  {
    hide IsScope;
    assert COMMIT_TYPE + "(" + input.scope + "): " == "chore(" + input.scope + "): ";
  }

  /** A commit of a batch has a marker with the number after the last one, and attempt one unless told otherwise;
      any other commit has none. */
  lemma MarkerReads(issue: nat, input: CommitInput, lastSeq: nat)
    ensures MarkerFor(issue, input, lastSeq)
            == if input.batchId.Some? && input.batchId.value != "" then
                 Some(ExecutionMarker(issue, input.batchId, input.taskId,
                                      if input.attempt.Some? then input.attempt.value else 1, lastSeq + 1))
               else None
  {
  }

  /** One event is journalled for a commit that was made with a marker, and none otherwise. */
  lemma ObservedReads(events: seq<JournalEvent>, issue: nat, input: CommitInput, committed: bool, sha: Option<string>,
                      marker: Option<string>, at: nat)
    ensures AfterObserving(events, issue, input, committed, sha, marker, at)
            == if committed && marker.Some? && marker.value != "" then
                 events + [JournalEvent(CommitObserved, issue, LastSeq(events) + 1, at, input.batchId, input.taskId,
                                        if input.attempt.Some? then input.attempt.value else 1,
                                        if sha.Some? && sha.value != "" then "commit " + sha.value
                                        else "commit (no sha)",
                                        marker, None)]
               else events
  {
  }

  // ----- recovery -----

  predicate HasBatchEvent(events: seq<JournalEvent>, batch: string, kind: EventKind) {
    exists i :: 0 <= i < |events| && events[i].batchId == Some(batch) && events[i].kind == kind
  }

  /** The batch was dispatched, and neither completed nor observed. */
  predicate BatchNeedsCommitMarker(events: seq<JournalEvent>, batch: string) {
    && HasBatchEvent(events, batch, BatchDispatched)
    && !HasBatchEvent(events, batch, BatchCompleted)
    && !HasBatchEvent(events, batch, CommitObserved)
  }

  /** What git log prints of the last commit, trimmed; nothing when it fails or prints nothing. */
  function RecentCommitText(log: Option<string>): Option<string> {
    if log == None || Trim(log.value) == "" then None else Some(Trim(log.value))
  }

  function Rebuilt(issue: nat, events: seq<JournalEvent>, marker: ExecutionMarker, now: nat): seq<JournalEvent> {
    if marker.issueNumber != issue || marker.batchId == None then []
    else if marker.seqNo <= LastSeq(events) then []
    else if !BatchNeedsCommitMarker(events, marker.batchId.value) then []
    else
      [JournalEvent(CommitObserved, issue, marker.seqNo, now, marker.batchId, marker.taskId, marker.attempt,
                    RECOVERY_SUMMARY, Some(BuildExecutionMarker(marker)), None)]
  }

  function Recovered(issue: nat, events: seq<JournalEvent>, log: Option<string>, now: nat): seq<JournalEvent> {
    var text := RecentCommitText(log);
    var marker := if text == None then None else Parsed(text.value);
    if marker == None then [] else Rebuilt(issue, events, marker.value, now)
  }

  /** A log that failed or is blank says nothing. */
  lemma CommitTextIff(log: Option<string>)
    ensures RecentCommitText(log).Some? <==> log.Some? && exists i :: 0 <= i < |log.value| && !IsSpace(log.value[i])
    ensures RecentCommitText(log).Some? ==> RecentCommitText(log).value == Trim(log.value)
  {
    if log.Some? {
      var head, tail := TrimSplit(log.value);
      TrimIsTrimmed(log.value);
      var t := Trim(log.value);
      if t != "" { assert log.value[|head|] == t[0]; }
      hide Trim;
      assert t == "" ==> AllSpace(log.value);
    }
  }

  /** Told from the journal alone: an event is rebuilt exactly when the commit reads as a marker of this issue, for
      a batch that has some dispatch and neither a completion nor an observed commit, with a number after the
      last one; and it is the event of that marker. */
  lemma RecoversIff(issue: nat, events: seq<JournalEvent>, log: Option<string>, now: nat)
    ensures Recovered(issue, events, log, now) != [] <==>
              && RecentCommitText(log).Some? && Parsed(RecentCommitText(log).value).Some?
              && var m := Parsed(RecentCommitText(log).value).value;
                 && m.issueNumber == issue && m.batchId.Some?
                 && (events != [] ==> events[|events| - 1].seqNo < m.seqNo) && m.seqNo > 0
                 && (exists i :: 0 <= i < |events| && events[i].batchId == m.batchId
                                 && events[i].kind == BatchDispatched)
                 && forall i :: 0 <= i < |events| && events[i].batchId == m.batchId ==>
                                  events[i].kind != BatchCompleted && events[i].kind != CommitObserved
    ensures Recovered(issue, events, log, now) != [] ==>
              var m := Parsed(RecentCommitText(log).value).value;
              Recovered(issue, events, log, now)
              == [JournalEvent(CommitObserved, issue, m.seqNo, now, m.batchId, m.taskId, m.attempt, RECOVERY_SUMMARY,
                               Some(BuildExecutionMarker(m)), None)]
  {
    hide Parsed, RecentCommitText, BuildExecutionMarker;
  }

  /** Whatever the last commit says, recovery keeps the numbers strictly increasing, so that the
      journal is not taken for corrupt; and adds at most one event. */
  lemma RecoveryKeepsOrder(issue: nat, events: seq<JournalEvent>, log: Option<string>, now: nat)
    requires IsMonotonic(events)
    ensures IsMonotonic(events + Recovered(issue, events, log, now))
    ensures |Recovered(issue, events, log, now)| <= 1
  {
    hide Parsed, Trim, BatchNeedsCommitMarker, BuildExecutionMarker;
  }

  /** Recovering again from the same commit adds nothing, at whatever time. */
  lemma RecoveringAgainAddsNothing(issue: nat, events: seq<JournalEvent>, log: Option<string>, now: nat, later: nat)
    ensures Recovered(issue, events + Recovered(issue, events, log, now), log, later) == []
  {
    hide Parsed, Trim, BatchNeedsCommitMarker, BuildExecutionMarker;
    assert events + [] == events;
  }

  // ----- the crashed commit -----

  lemma TrimmedStays(s: string)
    requires Trimmed(s)
    ensures Trim(s) == s
  {
  }

  lemma MessageIsTrimmed(issue: nat, input: CommitInput, m: ExecutionMarker)
    ensures Trimmed(Headline(issue, input) + "\n\n" + BuildExecutionMarker(m))
    ensures BuildExecutionMarker(m) != "" && EndsInBracket(Headline(issue, input))
  {
    var headline := Headline(issue, input);
    assert headline == COMMIT_TYPE + ("(" + input.scope + "): " + input.summary + " (#" + NatToString(issue) + ")");
    assert headline[0] == 'c' && headline[|headline| - 1] == ')';
    var front := COMMENT_OPEN + " " + MARKER_NAME + " " + Join(Fields(m), " ");
    hide Join, Fields, Headline;
    assert BuildExecutionMarker(m) == front + " -->";
    var text := headline + "\n\n" + (front + " -->");
    assert text[|text| - 1] == '>';
  }

  /** What recovery reads of a commit: the message, whatever white space git prints after it. */
  lemma CommitTextIsMessage(issue: nat, input: CommitInput, m: ExecutionMarker, pad: string)
    requires AllSpace(pad)
    ensures RecentCommitText(Some(Headline(issue, input) + "\n\n" + BuildExecutionMarker(m) + pad))
            == Some(Headline(issue, input) + ("\n\n" + BuildExecutionMarker(m)))
  {
    var message := Headline(issue, input) + "\n\n" + BuildExecutionMarker(m);
    MessageIsTrimmed(issue, input, m);
    hide Headline, BuildExecutionMarker, Trim;
    TrimPadded("", message, pad);
    assert "" + message + pad == message + pad;
    TrimmedStays(message);
    assert message == Headline(issue, input) + ("\n\n" + BuildExecutionMarker(m));
  }

  /** Recovery reads the commit's own marker exactly when it is clean and the headline leaves it alone. */
  lemma {:induction false} CommitTextHasMarkerIff(issue: nat, input: CommitInput, m: ExecutionMarker, pad: string)
    requires AllSpace(pad)
    ensures var text := RecentCommitText(Some(Headline(issue, input) + "\n\n" + BuildExecutionMarker(m) + pad));
            text.Some? && (Parsed(text.value) == Some(m) <==> IsClean(m) && LeavesAlone(Headline(issue, input), m))
  {
    MessageIsTrimmed(issue, input, m);
    hide *;
    CommitTextIsMessage(issue, input, m, pad);
    MarkerIsReadIff(Headline(issue, input), m);
  }

  /** A marker that can be rebuilt at all is the one that was read. */
  lemma RebuiltIff(issue: nat, events: seq<JournalEvent>, m: ExecutionMarker, log: Option<string>, lost: JournalEvent,
                   now: nat)
    requires m.issueNumber == issue && m.batchId.Some?
    requires lost == JournalEvent(CommitObserved, issue, m.seqNo, now, m.batchId, m.taskId, m.attempt,
                                  RECOVERY_SUMMARY, Some(BuildExecutionMarker(m)), None)
    requires RecentCommitText(log).Some?
    ensures var parsed := Parsed(RecentCommitText(log).value);
            Recovered(issue, events, log, now) == [lost]
            <==> parsed == Some(m) && m.seqNo > LastSeq(events) && BatchNeedsCommitMarker(events, m.batchId.value)
  {
    hide Parsed, RecentCommitText, BuildExecutionMarker, BatchNeedsCommitMarker;
    var parsed := Parsed(RecentCommitText(log).value);
    if Recovered(issue, events, log, now) == [lost] {
      var q := parsed.value;
      assert Rebuilt(issue, events, q, now)[0] == lost;
      assert q == m;
    }
  }

  /** For any commit of a batch, and whatever journal there is at recovery: the event that would have
      been journalled is rebuilt, but for its summary and time, exactly when the marker is clean, the
      headline leaves it alone, the batch still needs the event, and no event took its number. */
  lemma {:induction false} CrashedCommitIsRebuilt(issue: nat, input: CommitInput, events: seq<JournalEvent>,
                                                  sha: Option<string>, later: seq<JournalEvent>, pad: string,
                                                  at: nat, now: nat)
    requires IsPresent(input.batchId) && AllSpace(pad)
    ensures var m := MarkerFor(issue, input, LastSeq(events)).value;
            var marker := BuildExecutionMarker(m);
            var uncrashed := AfterObserving(events, issue, input, true, sha, Some(marker), at);
            var lost := uncrashed[|uncrashed| - 1];
            var message := CommitMessage(issue, input, Some(marker));
            && uncrashed == events + [lost]
            && (message.Ok? ==>
                  (Recovered(issue, later, Some(message.value + pad), now)
                     == [lost.(summary := RECOVERY_SUMMARY, at := now)]
                   <==> && IsClean(m) && LeavesAlone(Headline(issue, input), m)
                        && (exists i :: 0 <= i < |later| && later[i].batchId == input.batchId
                                        && later[i].kind == BatchDispatched)
                        && (forall i :: 0 <= i < |later| && later[i].batchId == input.batchId ==>
                                          later[i].kind != BatchCompleted && later[i].kind != CommitObserved)
                        && LastSeq(later) <= LastSeq(events)))
  {
    var m := MarkerFor(issue, input, LastSeq(events)).value;
    MessageIsTrimmed(issue, input, m);
    CommitTextHasMarkerIff(issue, input, m, pad);
    hide Headline, BuildExecutionMarker, Parsed, IsClean, LeavesAlone, RecentCommitText, BatchNeedsCommitMarker,
         Recovered, IsScope;
    var marker := BuildExecutionMarker(m);
    var log := Some(Headline(issue, input) + "\n\n" + marker + pad);
    var lost := ObservedEvent(issue, input, sha, marker, at).(seqNo := LastSeq(events) + 1);
    RebuiltIff(issue, later, m, log, lost.(summary := RECOVERY_SUMMARY, at := now), now);
    NeedsIff(later, input.batchId.value);
  }

  lemma NeedsIff(events: seq<JournalEvent>, batch: string)
    ensures BatchNeedsCommitMarker(events, batch) <==>
              && (exists i :: 0 <= i < |events| && events[i].batchId == Some(batch)
                              && events[i].kind == BatchDispatched)
              && forall i :: 0 <= i < |events| && events[i].batchId == Some(batch) ==>
                               events[i].kind != BatchCompleted && events[i].kind != CommitObserved
  {
  }

  /** Recovery right after the crash completes the journal to the uncrashed one, but for the summary and
      time of the event, exactly when the marker is clean, the headline leaves it alone, and the batch
      needs the event. */
  lemma {:induction false} LostEventIsRebuilt(issue: nat, input: CommitInput, events: seq<JournalEvent>,
                                              sha: Option<string>, pad: string, at: nat, now: nat)
    requires IsPresent(input.batchId) && AllSpace(pad)
    ensures var m := MarkerFor(issue, input, LastSeq(events)).value;
            var marker := BuildExecutionMarker(m);
            var message := CommitMessage(issue, input, Some(marker));
            var uncrashed := AfterObserving(events, issue, input, true, sha, Some(marker), at);
            && |uncrashed| == |events| + 1 && uncrashed[..|events|] == events
            && (message.Ok? ==>
                  (events + Recovered(issue, events, Some(message.value + pad), now)
                     == events + [uncrashed[|events|].(summary := RECOVERY_SUMMARY, at := now)]
                   <==> && IsClean(m) && LeavesAlone(Headline(issue, input), m)
                        && (exists i :: 0 <= i < |events| && events[i].batchId == input.batchId
                                        && events[i].kind == BatchDispatched)
                        && forall i :: 0 <= i < |events| && events[i].batchId == input.batchId ==>
                                         events[i].kind != BatchCompleted && events[i].kind != CommitObserved))
  {
    CrashedCommitIsRebuilt(issue, input, events, sha, events, pad, at, now);
    hide Headline, BuildExecutionMarker, IsClean, LeavesAlone, Recovered, BatchNeedsCommitMarker, AfterObserving,
         CommitMessage;
    forall x: seq<JournalEvent>, y: seq<JournalEvent> ensures events + x == events + y <==> x == y {
      assert (events + x)[|events|..] == x && (events + y)[|events|..] == y;
    }
  }

  /** The headline quotes a marker of a commit that the journal has not seen, for a batch that needs it. */
  predicate QuotesUnseen(headline: string, issue: nat, events: seq<JournalEvent>) {
    match ReadingOf(headline)
    case Own => false
    case Swallowing(_) => false
    case Quoted(q) =>
      q.Some? && q.value.issueNumber == issue && q.value.batchId.Some? && q.value.seqNo > LastSeq(events)
      && BatchNeedsCommitMarker(events, q.value.batchId.value)
  }

  lemma NothingRebuiltIff(issue: nat, events: seq<JournalEvent>, log: Option<string>, now: nat)
    requires RecentCommitText(log).Some?
    ensures var q := Parsed(RecentCommitText(log).value);
            Recovered(issue, events, log, now) == []
            <==> !(q.Some? && q.value.issueNumber == issue && q.value.batchId.Some? && q.value.seqNo > LastSeq(events)
                   && BatchNeedsCommitMarker(events, q.value.batchId.value))
  {
    hide Parsed, RecentCommitText, BatchNeedsCommitMarker, BuildExecutionMarker;
  }

  /** After an uncrashed run recovery adds nothing, exactly unless the headline quotes an unseen marker;
      a swallowed field does no harm here, because the number is the commit's own. */
  lemma {:induction false} NothingLostNothingRebuilt(issue: nat, input: CommitInput, events: seq<JournalEvent>,
                                                     sha: Option<string>, pad: string, at: nat, now: nat)
    requires IsPresent(input.batchId) && AllSpace(pad)
    requires IsClean(MarkerFor(issue, input, LastSeq(events)).value)
    ensures var marker := BuildExecutionMarker(MarkerFor(issue, input, LastSeq(events)).value);
            var message := CommitMessage(issue, input, Some(marker));
            var uncrashed := AfterObserving(events, issue, input, true, sha, Some(marker), at);
            message.Ok? ==>
              (Recovered(issue, uncrashed, Some(message.value + pad), now) == []
               <==> !QuotesUnseen(Headline(issue, input), issue, uncrashed))
  {
    var m := MarkerFor(issue, input, LastSeq(events)).value;
    MessageIsTrimmed(issue, input, m);
    CommitTextIsMessage(issue, input, m, pad);
    HeadlineReads(Headline(issue, input), m);
    var marker := BuildExecutionMarker(m);
    var uncrashed := AfterObserving(events, issue, input, true, sha, Some(marker), at);
    assert LastSeq(uncrashed) == m.seqNo;
    NothingRebuiltIff(issue, uncrashed, Some(Headline(issue, input) + "\n\n" + marker + pad), now);
    hide Headline, BuildExecutionMarker, Parsed, IsClean, RecentCommitText, BatchNeedsCommitMarker, ReadingOf, IsScope,
         Entered, Recovered, LastSeq, AfterObserving;
  }

  /** A marker quoted in the summary, with no comment before it, is found instead of the commit's own. */
  lemma {:induction false} QuotedMarkerWins(issue: nat, input: CommitInput, before: string, quoted: ExecutionMarker,
                                            after: string, own: string)
    requires IsClean(quoted) && input.summary == before + BuildExecutionMarker(quoted) + after
    requires !Occurs(COMMIT_TYPE + "(" + input.scope + "): " + before, COMMENT_OPEN)
    ensures Parsed(Headline(issue, input) + "\n\n" + own) == Some(quoted)
  {
    var prefix := COMMIT_TYPE + "(" + input.scope + "): " + before;
    var suffix := after + (" (#" + NatToString(issue) + ")" + "\n\n" + own);
    hide IsClean, BuildExecutionMarker, Parsed, NatToString;
    MarkerIsFound(prefix, quoted, suffix);
    assert Headline(issue, input) + "\n\n" + own == prefix + (BuildExecutionMarker(quoted) + suffix);
  }

  // ----- the store and the committer -----

  /** The journals by issue number, and what git log prints of the last commit in the worktree. */
  class Committer {
    var journal: map<nat, seq<JournalEvent>>
    var log: Option<string>

    constructor ()
      ensures journal == map[] && log == None
    {
      journal, log := map[], None;
    }

    function Events(issue: nat): seq<JournalEvent>
      reads this
    {
      if issue in journal then journal[issue] else []
    }

    method Append(issue: nat, input: JournalEvent) returns (event: JournalEvent)
      modifies this
      ensures journal == old(journal)[issue := Appended(old(Events(issue)), input)] && log == old(log)
      ensures event == input.(seqNo := LastSeq(old(Events(issue))) + 1)
    {
      var events := Events(issue);
      event := input.(seqNo := LastSeq(events) + 1);
      journal := journal[issue := events + [event]];
    }

    method CreateCommitMarker(issue: nat, input: CommitInput) returns (marker: Option<string>)
      ensures var m := MarkerFor(issue, input, LastSeq(Events(issue)));
              marker == if m == None then None else Some(BuildExecutionMarker(m.value))
    {
      if !IsPresent(input.batchId) { return None; }
      var next := LastSeq(Events(issue)) + 1;
      marker := Some(BuildExecutionMarker(ExecutionMarker(issue, input.batchId, input.taskId, AttemptOf(input), next)));
    }

    /** The commit itself: git prints its message back, with white space after it. */
    method CommitAndPush(issue: nat, input: CommitInput, marker: Option<string>, gitCommits: bool, pad: string)
      returns (committed: bool)
      modifies this
      ensures journal == old(journal)
      ensures committed <==> gitCommits && CommitMessage(issue, input, marker).Ok?
      ensures log == if committed then Some(CommitMessage(issue, input, marker).value + pad) else old(log)
    {
      var message := CommitMessage(issue, input, marker);
      if message.Err? { return false; }
      if !gitCommits { return false; }
      log := Some(message.value + pad);
      committed := true;
    }

    method RecordCommitObserved(issue: nat, input: CommitInput, committed: bool, sha: Option<string>,
                                marker: Option<string>, at: nat)
      modifies this
      ensures Events(issue) == AfterObserving(old(Events(issue)), issue, input, committed, sha, marker, at)
      ensures log == old(log) && journal - {issue} == old(journal) - {issue}
    {
      if !committed || !IsPresent(marker) { return; }
      var _ := Append(issue, ObservedEvent(issue, input, sha, marker.value, at));
    }

    method RecoverCommitEvents(issue: nat, events: seq<JournalEvent>, now: nat) returns (recovered: seq<JournalEvent>)
      ensures recovered == Recovered(issue, events, log, now)
    {
      hide Trim, Parsed, BuildExecutionMarker;
      var text := RecentCommitText(log);
      if text == None { return []; }
      var marker := ParseExecutionMarker(text.value);
      if marker == None { return []; }
      var m := marker.value;
      if m.issueNumber != issue || m.batchId == None { return []; }
      if m.seqNo <= LastSeq(events) { return []; }
      if !BatchNeedsCommitMarker(events, m.batchId.value) { return []; }
      recovered := [JournalEvent(CommitObserved, issue, m.seqNo, now, m.batchId, m.taskId, m.attempt,
                                 RECOVERY_SUMMARY, Some(BuildExecutionMarker(m)), None)];
    }

    /** A commit that crashes before journalling, then recovery: the journal with what is recovered is
        the uncrashed one, but for the summary and time of the event, exactly when the marker is clean,
        the headline leaves it alone, and the batch needs the event. */
    method CrashAndRecover(issue: nat, input: CommitInput, pad: string, now: nat,
                           ghost sha: Option<string>, ghost at: nat)
      returns (recovered: seq<JournalEvent>, committed: bool)
      requires IsPresent(input.batchId) && AllSpace(pad)
      modifies this
      ensures journal == old(journal)
      ensures committed ==>
                var events := old(Events(issue));
                var m := MarkerFor(issue, input, LastSeq(events)).value;
                var uncrashed := AfterObserving(events, issue, input, true, sha, Some(BuildExecutionMarker(m)), at);
                && |uncrashed| == |events| + 1
                && (recovered == [uncrashed[|events|].(summary := RECOVERY_SUMMARY, at := now)]
                    <==> && IsClean(m) && LeavesAlone(Headline(issue, input), m)
                         && (exists i :: 0 <= i < |events| && events[i].batchId == input.batchId
                                         && events[i].kind == BatchDispatched)
                         && forall i :: 0 <= i < |events| && events[i].batchId == input.batchId ==>
                                          events[i].kind != BatchCompleted && events[i].kind != CommitObserved)
    {
      hide Trim, Parsed, BuildExecutionMarker, IsClean, LeavesAlone, Headline, BatchNeedsCommitMarker, Recovered,
           CommitMessage;
      var marker := CreateCommitMarker(issue, input);
      committed := CommitAndPush(issue, input, marker, true, pad);
      recovered := RecoverCommitEvents(issue, Events(issue), now);
      CrashedCommitIsRebuilt(issue, input, Events(issue), sha, Events(issue), pad, at, now);
    }
  }
}
