/** The events of a lifecycle journal. */
module JournalTypes {
  import opened Wrappers

  datatype EventKind =
    | BatchDispatched | BatchCompleted | ReviewCompleted | CommitObserved
    | LeaseAcquired | LeaseReleased | RecoveryInspected | RecoveryBlocked

  datatype ReviewOutcome = Approved | ChangesRequested | Blocked

  datatype JournalEvent = JournalEvent(
    kind: EventKind, issueNumber: nat, seqNo: nat, at: nat, batchId: Option<string>, taskId: Option<string>,
    attempt: nat, summary: string, commitMarker: Option<string>, reviewOutcome: Option<ReviewOutcome>)
}
