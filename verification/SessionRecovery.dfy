/** Automatic recovery of a session: retries of upstream failures by timer, and bounded resumes
    after semantic errors, with timers, deletions and resumes interleaving in any order. */
module SessionRecovery {
  import opened Str

  const MAX_RECOVERY_ATTEMPTS := 3
  const ERROR_KEY_EXPIRY_MS := 10000
  const UPSTREAM_ATTEMPT_EXPIRY_MS := 60000
  const MAX_ATTEMPTS := 20
  const INTERVAL_MS := 30000

  type SessionId = string
  type TimerId = nat

  datatype ErrorType = ToolResultMissing | ThinkingBlockOrder | ThinkingDisabled | EmptyContent | InvalidToolResult

  function TypeName(t: ErrorType): string {
    match t
    case ToolResultMissing => "TOOL_RESULT_MISSING"
    case ThinkingBlockOrder => "THINKING_BLOCK_ORDER"
    case ThinkingDisabled => "THINKING_DISABLED"
    case EmptyContent => "EMPTY_CONTENT"
    case InvalidToolResult => "INVALID_TOOL_RESULT"
  }

  function UpstreamKey(s: SessionId): string {
    s + ":" + "upstream_error"
  }

  function ErrorKey(s: SessionId, t: ErrorType): string {
    s + ":" + TypeName(t)
  }

  /** The test by which deleting a session picks the keys to drop. */
  predicate Owns(s: SessionId, key: string) {
    StartsWith(key, s + ":")
  }

  // ----- state -----

  datatype TimerKind = Retry(session: SessionId) | Expiry(key: string) | Dedup(errorKey: string)

  datatype Timer = Timer(kind: TimerKind, due: nat)

  /** The recovery state, the timers the event loop holds, and as history: how many retry prompts a session
      was sent since it was last deleted, and how many resumes of a key are under way, which a deletion does
      not stop. */
  datatype State = State(
    ids: set<SessionId>, now: nat, nextTimer: TimerId, armed: map<TimerId, Timer>,
    processingErrors: set<string>, recoveryAttempts: map<string, nat>,
    scheduled: map<string, nat>, processing: set<string>, expiryTimers: map<string, TimerId>,
    timers: map<SessionId, set<TimerId>>,
    prompted: map<SessionId, nat>, resuming: map<string, nat>)

  function Initial(ids: set<SessionId>): State {
    State(ids, 0, 0, map[], {}, map[], map[], {}, map[], map[], map[], map[])
  }

  function Count(m: map<string, nat>, key: string): nat {
    if key in m then m[key] else 0
  }

  function Pending(st: State, s: SessionId): set<TimerId> {
    if s in st.timers then st.timers[s] else {}
  }

  function SetTimer(st: State, kind: TimerKind, delay: nat): State {
    st.(armed := st.armed[st.nextTimer := Timer(kind, st.now + delay)], nextTimer := st.nextTimer + 1)
  }

  function ClearExpiry(st: State, key: string): State {
    if key in st.expiryTimers then
      st.(armed := st.armed - {st.expiryTimers[key]}, expiryTimers := st.expiryTimers - {key})
    else st
  }

  /** The lock taken: beginProcessing when the key is free. */
  function Locked(st: State, key: string): State {
    var cleared := ClearExpiry(st.(processing := st.processing + {key}), key);
    SetTimer(cleared, Expiry(key), UPSTREAM_ATTEMPT_EXPIRY_MS).(
      expiryTimers := cleared.expiryTimers[key := cleared.nextTimer])
  }

  function Unlocked(st: State, key: string): State {
    ClearExpiry(st.(processing := st.processing - {key}), key)
  }

  function AfterUpstreamError(st: State, s: SessionId): State {
    var key := UpstreamKey(s);
    if key in st.processing then st
    else
      var locked := Locked(st, key);
      var n := Count(st.scheduled, key);
      if n >= MAX_ATTEMPTS then Unlocked(locked, key)
      else
        SetTimer(locked.(scheduled := locked.scheduled[key := n + 1]), Retry(s), INTERVAL_MS).(
          timers := locked.timers[s := Pending(locked, s) + {locked.nextTimer}])
  }

  /** A new error is remembered until its dedup timer fires. */
  function Noted(st: State, key: string): State {
    SetTimer(st.(processingErrors := st.processingErrors + {key}), Dedup(key), ERROR_KEY_EXPIRY_MS)
  }

  function Attempted(st: State, key: string): State {
    var n := Count(st.recoveryAttempts, key);
    if n >= MAX_RECOVERY_ATTEMPTS then st
    else
      st.(recoveryAttempts := st.recoveryAttempts[key := n + 1],
          resuming := st.resuming[key := Count(st.resuming, key) + 1])
  }

  function AfterSemanticError(st: State, s: SessionId, t: ErrorType): State {
    var key := ErrorKey(s, t);
    if key in st.processingErrors then st else Attempted(Noted(st, key), key)
  }

  function RemovePending(st: State, s: SessionId, id: TimerId): State {
    var left := Pending(st, s) - {id};
    st.(timers := if left == {} then st.timers - {s} else st.timers[s := left])
  }

  function AfterRetry(st: State, s: SessionId, id: TimerId): State {
    Unlocked(RemovePending(st, s, id), UpstreamKey(s)).(prompted := st.prompted[s := Count(st.prompted, s) + 1])
  }

  function AfterExpiry(st: State, key: string): State {
    st.(processing := st.processing - {key}, expiryTimers := st.expiryTimers - {key})
  }

  function AfterDedup(st: State, key: string): State {
    st.(processingErrors := st.processingErrors - {key})
  }

  function AfterTimer(st: State, id: TimerId): State
    requires id in st.armed
  {
    var fired := st.(armed := st.armed - {id});
    match st.armed[id].kind
    case Retry(s) => AfterRetry(fired, s, id)
    case Expiry(key) => AfterExpiry(fired, key)
    case Dedup(key) => AfterDedup(fired, key)
  }

  function OwnedKeys(st: State, s: SessionId): set<string> {
    set k | k in st.processing && Owns(s, k)
  }

  function OwnedExpiries(st: State, s: SessionId): set<TimerId> {
    set k | k in OwnedKeys(st, s) && k in st.expiryTimers :: st.expiryTimers[k]
  }

  /** What deleting a session leaves of a map or set of keys. */
  function Kept(m: map<string, nat>, s: SessionId): map<string, nat> {
    map k | k in m && !Owns(s, k) :: m[k]
  }

  function KeptKeys(ks: set<string>, s: SessionId): set<string> {
    set k | k in ks && !Owns(s, k)
  }

  function WithoutTimers(st: State, s: SessionId): State {
    st.(armed := st.armed - Pending(st, s) - OwnedExpiries(st, s),
        timers := st.timers - {s},
        processing := st.processing - OwnedKeys(st, s),
        expiryTimers := st.expiryTimers - OwnedKeys(st, s))
  }

  function WithoutCounts(st: State, s: SessionId): State {
    st.(scheduled := Kept(st.scheduled, s),
        recoveryAttempts := Kept(st.recoveryAttempts, s),
        processingErrors := KeptKeys(st.processingErrors, s),
        prompted := st.prompted - {s})
  }

  function AfterDeletion(st: State, s: SessionId): State {
    WithoutCounts(WithoutTimers(st, s), s)
  }

  function AfterResume(st: State, key: string): State
    requires Count(st.resuming, key) > 0
  {
    st.(resuming := st.resuming[key := Count(st.resuming, key) - 1])
  }

  // ----- the hook, as it updates its state -----

  method DropOwnedCounts(m: map<string, nat>, s: SessionId) returns (left: map<string, nat>)
    ensures left == Kept(m, s)
  {
    left := m;
    var keys := m.Keys;
    while keys != {}
      invariant keys <= m.Keys && left.Keys <= m.Keys
      invariant forall k :: k in m ==> (k in left <==> k in keys || !Owns(s, k))
      invariant forall k :: k in left ==> left[k] == m[k]
      decreases keys
    {
      var key :| key in keys;
      if Owns(s, key) { left := left - {key}; }
      keys := keys - {key};
    }
  }

  class RecoveryHook {
    var processingErrors: set<string>
    var recoveryAttempts: map<string, nat>
    var upstreamScheduledAttempts: map<string, nat>
    var upstreamTimers: map<SessionId, set<TimerId>>
    // the attempt registry
    var processing: set<string>
    var expiryTimers: map<string, TimerId>
    // the event loop
    var now: nat
    var nextTimer: TimerId
    var armed: map<TimerId, Timer>
    // the sessions there are, and the history the claims are about
    ghost var ids: set<SessionId>
    ghost var prompted: map<SessionId, nat>
    ghost var resuming: map<string, nat>

    ghost function View(): State
      reads this
    {
      State(ids, now, nextTimer, armed, processingErrors, recoveryAttempts, upstreamScheduledAttempts, processing,
            expiryTimers, upstreamTimers, prompted, resuming)
    }

    constructor (ghost ids: set<SessionId>)
      ensures View() == Initial(ids)
    {
      processingErrors, recoveryAttempts, upstreamScheduledAttempts, upstreamTimers := {}, map[], map[], map[];
      processing, expiryTimers, now, nextTimer, armed := {}, map[], 0, 0, map[];
      this.ids, prompted, resuming := ids, map[], map[];
    }

    method StartTimer(kind: TimerKind, delay: nat) returns (id: TimerId)
      modifies this
      ensures id == old(nextTimer) && View() == SetTimer(old(View()), kind, delay)
    {
      id := nextTimer;
      armed := armed[id := Timer(kind, now + delay)];
      nextTimer := nextTimer + 1;
    }

    method CancelExpiry(key: string)
      modifies this
      ensures View() == ClearExpiry(old(View()), key)
    {
      if key in expiryTimers {
        armed := armed - {expiryTimers[key]};
        expiryTimers := expiryTimers - {key};
      }
    }

    method BeginProcessing(key: string) returns (began: bool)
      modifies this
      ensures began <==> key !in old(processing)
      ensures View() == if began then Locked(old(View()), key) else old(View())
    {
      if key in processing { return false; }
      processing := processing + {key};
      CancelExpiry(key);
      var timer := StartTimer(Expiry(key), UPSTREAM_ATTEMPT_EXPIRY_MS);
      expiryTimers := expiryTimers[key := timer];
      began := true;
    }

    method EndProcessing(key: string)
      modifies this
      ensures View() == Unlocked(old(View()), key)
    {
      processing := processing - {key};
      CancelExpiry(key);
    }

    method HandleUpstreamRecoverable(s: SessionId)
      modifies this
      ensures View() == AfterUpstreamError(old(View()), s)
    {
      hide Locked, Unlocked, UpstreamKey;
      var key := UpstreamKey(s);
      var began := BeginProcessing(key);
      if !began { return; }
      ghost var locked := View();
      assert upstreamScheduledAttempts == old(upstreamScheduledAttempts) by { LockLeavesAttempts(old(View()), key); }
      var scheduledAttempts := if key in upstreamScheduledAttempts then upstreamScheduledAttempts[key] else 0;
      if scheduledAttempts >= MAX_ATTEMPTS {
        EndProcessing(key);
        return;
      }
      upstreamScheduledAttempts := upstreamScheduledAttempts[key := scheduledAttempts + 1];
      var timer := StartTimer(Retry(s), INTERVAL_MS);
      upstreamTimers := upstreamTimers[s := (if s in upstreamTimers then upstreamTimers[s] else {}) + {timer}];
    }

    method RemovePendingTimer(s: SessionId, id: TimerId)
      requires s in upstreamTimers
      modifies this
      ensures View() == RemovePending(old(View()), s, id)
    {
      var timers := upstreamTimers[s] - {id};
      upstreamTimers := if timers == {} then upstreamTimers - {s} else upstreamTimers[s := timers];
    }

    method FireRetry(s: SessionId, id: TimerId)
      requires s in upstreamTimers
      modifies this
      ensures View() == AfterRetry(old(View()), s, id)
    {
      hide Unlocked, UpstreamKey, RemovePending;
      RemoveCountsNothing(View(), s, id);
      LocksCountNothing(RemovePending(View(), s, id), UpstreamKey(s));
      RemovePendingTimer(s, id);
      EndProcessing(UpstreamKey(s));
      prompted := prompted[s := (if s in prompted then prompted[s] else 0) + 1];
    }

    /** A timer callback; the prompt it sends is recorded. */
    method FireTimer(id: TimerId)
      requires id in armed && (armed[id].kind.Retry? ==> armed[id].kind.session in upstreamTimers)
      modifies this
      ensures View() == AfterTimer(old(View()), id)
    {
      hide AfterRetry;
      var kind := armed[id].kind;
      armed := armed - {id};
      match kind {
        case Retry(s) => FireRetry(s, id);
        case Expiry(key) =>
          processing := processing - {key};
          expiryTimers := expiryTimers - {key};
        case Dedup(key) =>
          processingErrors := processingErrors - {key};
      }
    }

    method DeduplicateError(key: string) returns (isNew: bool)
      modifies this
      ensures isNew <==> key !in old(processingErrors)
      ensures View() == if isNew then Noted(old(View()), key) else old(View())
    {
      if key in processingErrors { return false; }
      processingErrors := processingErrors + {key};
      var timer := StartTimer(Dedup(key), ERROR_KEY_EXPIRY_MS);
      isNew := true;
    }

    /** attemptRecovery up to its first suspension. */
    method AttemptRecovery(key: string) returns (recovering: bool)
      modifies this
      ensures View() == Attempted(old(View()), key)
      ensures recovering <==> Count(old(recoveryAttempts), key) < MAX_RECOVERY_ATTEMPTS
    {
      var attempts := if key in recoveryAttempts then recoveryAttempts[key] else 0;
      if attempts >= MAX_RECOVERY_ATTEMPTS { return false; }
      recoveryAttempts := recoveryAttempts[key := attempts + 1];
      resuming := resuming[key := (if key in resuming then resuming[key] else 0) + 1];
      recovering := true;
    }

    method HandleSemanticError(s: SessionId, t: ErrorType)
      modifies this
      ensures View() == AfterSemanticError(old(View()), s, t)
    {
      hide Noted, Attempted, ErrorKey;
      var isNew := DeduplicateError(ErrorKey(s, t));
      if !isNew { return; }
      var recovering := AttemptRecovery(ErrorKey(s, t));
    }

    method ClearTimersAndLocks(s: SessionId)
      modifies this
      ensures View() == WithoutTimers(old(View()), s)
    {
      hide Owns;
      if s in upstreamTimers { armed := armed - upstreamTimers[s]; }
      upstreamTimers := upstreamTimers - {s};
      var owned := set k | k in processing && Owns(s, k);
      var expiries := set k | k in owned && k in expiryTimers :: expiryTimers[k];
      assert owned == OwnedKeys(old(View()), s) && expiries == OwnedExpiries(old(View()), s);
      armed := armed - expiries;
      processing := processing - owned;
      expiryTimers := expiryTimers - owned;
    }

    method CleanupSession(s: SessionId)
      modifies this
      ensures View() == AfterDeletion(old(View()), s)
    {
      hide Owns, WithoutTimers, Kept, KeptKeys;
      ClearTimersAndLocks(s);
      upstreamScheduledAttempts := DropOwnedCounts(upstreamScheduledAttempts, s);
      recoveryAttempts := DropOwnedCounts(recoveryAttempts, s);
      processingErrors := KeptKeys(processingErrors, s);
      prompted := prompted - {s};
    }
  }

  lemma LockLeavesAttempts(st: State, key: string)
    ensures Locked(st, key).scheduled == st.scheduled
  {
  }

  // ----- runs -----

  datatype Event =
    | Tick(to: nat)
    | UpstreamError(session: SessionId)
    | SemanticError(session: SessionId, kind: ErrorType)
    | Resume(key: string, sends: bool)
    | Fire(id: TimerId)
    | Deleted(session: SessionId)

  /** No session id begins with another one and a colon: deleting one session then leaves the keys
      of every other alone. */
  ghost predicate Separate(ids: set<SessionId>) {
    forall s, t :: s in ids && t in ids ==> !Owns(s, t)
  }

  /** A resume ends with a prompt or, for a session without a user message, without one. It may end at any
      time after it began. Time never decreases, and timers fire when they are due and in the order of
      their due times. */
  predicate Enabled(st: State, e: Event) {
    match e
    case Tick(to) => st.now <= to
    case Resume(key, _) => Count(st.resuming, key) > 0
    case Fire(id) =>
      && id in st.armed && st.armed[id].due <= st.now
      && forall j :: j in st.armed ==> st.armed[id].due <= st.armed[j].due
    case _ => true
  }

  function Step(st: State, e: Event): State
    requires Enabled(st, e)
  {
    match e
    case Tick(to) => st.(now := to)
    case UpstreamError(s) => AfterUpstreamError(st, s)
    case SemanticError(s, t) => AfterSemanticError(st, s, t)
    case Resume(key, _) => AfterResume(st, key)
    case Fire(id) => AfterTimer(st, id)
    case Deleted(s) => AfterDeletion(st, s)
  }

  /** after is reached from st by the events, each of one of the given sessions. */
  ghost predicate Reaches(st: State, events: seq<Event>, after: State)
    decreases |events|
  {
    if events == [] then after == st
    else
      && Enabled(st, events[0])
      && (events[0].UpstreamError? || events[0].SemanticError? || events[0].Deleted? ==> events[0].session in st.ids)
      && Reaches(Step(st, events[0]), events[1..], after)
  }

  // ----- keys -----

  /** Deleting s drops a key of t exactly when s is t or t begins with s and a colon. */
  lemma OwnsIff(s: SessionId, t: SessionId, suffix: string)
    requires ':' !in suffix
    ensures Owns(s, t + ":" + suffix) <==> s == t || Owns(s, t)
  {
    var key := t + ":" + suffix;
    assert forall i :: 0 <= i < |suffix| ==> suffix[i] != ':' && key[|t| + 1 + i] == suffix[i];
    if Owns(s, key) {
      assert key[|s|] == ':';
      assert s == key[..|s|] && t == key[..|t|];
      if |s| < |t| { assert t[..|s| + 1] == key[..|s| + 1]; }
    }
  }

  lemma OwnsOwnKeyOnly(s: SessionId, t: SessionId, ids: set<SessionId>)
    requires Separate(ids) && s in ids && t in ids
    ensures Owns(s, UpstreamKey(t)) <==> t == s
  {
    assert ':' !in "upstream_error";
    OwnsIff(s, t, "upstream_error");
  }

  // ----- the invariant -----

  /** The part of the state that timers and locks live in. */
  datatype Wheel = Wheel(ids: set<SessionId>, next: TimerId, armed: map<TimerId, Timer>,
                         timers: map<SessionId, set<TimerId>>,
                         processing: set<string>, expiryTimers: map<string, TimerId>)

  function WheelOf(st: State): Wheel {
    Wheel(st.ids, st.nextTimer, st.armed, st.timers, st.processing, st.expiryTimers)
  }

  /** The session whose upstream key this is. */
  function SessionOf(key: string): SessionId {
    if |key| >= 15 then key[..|key| - 15] else ""
  }

  /** An armed retry timer is the one recorded for its session; an armed expiry is that of its lock. */
  ghost predicate ArmedOk(w: Wheel, id: TimerId)
    requires id in w.armed
  {
    && id < w.next
    && match w.armed[id].kind
       case Retry(s) => s in w.ids && s in w.timers && w.timers[s] == {id}
       case Expiry(k) => k in w.expiryTimers && w.expiryTimers[k] == id
       case Dedup(_) => true
  }

  /** Session s has exactly the retry timer id, and its lock expires only after that timer is due. */
  ghost predicate RetryPending(w: Wheel, s: SessionId, id: TimerId) {
    && s in w.timers && w.timers[s] == {id} && id in w.armed && w.armed[id].kind == Retry(s)
    && UpstreamKey(s) in w.expiryTimers
    && var lock := w.expiryTimers[UpstreamKey(s)];
       lock in w.armed && w.armed[lock].kind == Expiry(UpstreamKey(s)) && w.armed[id].due < w.armed[lock].due
  }

  /** A locked key is that of a session with a retry timer. */
  ghost predicate LockOk(w: Wheel, k: string) {
    k == UpstreamKey(SessionOf(k)) && SessionOf(k) in w.timers
  }

  ghost predicate WheelOk(w: Wheel) {
    && Separate(w.ids) && w.processing == w.expiryTimers.Keys
    && (forall id :: id in w.armed ==> ArmedOk(w, id))
    && (forall s :: s in w.timers ==> exists id :: RetryPending(w, s, id))
    && (forall k :: k in w.expiryTimers ==> LockOk(w, k))
  }

  function Started(w: Wheel, s: SessionId, now: nat): Wheel {
    Wheel(w.ids, w.next + 2,
          w.armed[w.next := Timer(Expiry(UpstreamKey(s)), now + UPSTREAM_ATTEMPT_EXPIRY_MS)]
                 [w.next + 1 := Timer(Retry(s), now + INTERVAL_MS)],
          w.timers[s := {w.next + 1}], w.processing + {UpstreamKey(s)}, w.expiryTimers[UpstreamKey(s) := w.next])
  }

  function Stopped(w: Wheel, s: SessionId): Wheel
    requires s in w.timers && UpstreamKey(s) in w.expiryTimers
  {
    w.(armed := w.armed - w.timers[s] - {w.expiryTimers[UpstreamKey(s)]}, timers := w.timers - {s},
       processing := w.processing - {UpstreamKey(s)}, expiryTimers := w.expiryTimers - {UpstreamKey(s)})
  }

  lemma UpstreamKeys()
    ensures forall s :: SessionOf(UpstreamKey(s)) == s
  {
    assert |"upstream_error"| == 14;
    forall s ensures SessionOf(UpstreamKey(s)) == s {
      assert UpstreamKey(s)[..|s|] == s;
    }
  }

  lemma NotStarted(w: Wheel, s: SessionId)
    requires WheelOk(w) && UpstreamKey(s) !in w.processing
    ensures s !in w.timers && w.next !in w.armed && w.next + 1 !in w.armed
  {
    hide UpstreamKey, SessionOf, Separate;
    assert w.next in w.armed ==> ArmedOk(w, w.next);
    assert w.next + 1 in w.armed ==> ArmedOk(w, w.next + 1);
  }

  lemma StartKeepsPending(w: Wheel, s: SessionId, now: nat, t: SessionId)
    requires WheelOk(w) && UpstreamKey(s) !in w.processing && t in Started(w, s, now).timers
    ensures exists id :: RetryPending(Started(w, s, now), t, id)
  {
    hide UpstreamKey, SessionOf, ArmedOk, LockOk, Separate;
    NotStarted(w, s);
    var w' := Started(w, s, now);
    if t == s {
      assert RetryPending(w', t, w.next + 1);
    } else {
      UpstreamKeys();
      var id :| RetryPending(w, t, id);
      assert SessionOf(UpstreamKey(t)) == t && SessionOf(UpstreamKey(s)) == s;
      assert RetryPending(w', t, id);
    }
  }

  lemma StartKeeps(w: Wheel, s: SessionId, now: nat)
    requires WheelOk(w) && s in w.ids && UpstreamKey(s) !in w.processing
    ensures s !in w.timers && WheelOk(Started(w, s, now))
  {
    hide UpstreamKey, SessionOf, RetryPending, Separate;
    UpstreamKeys();
    NotStarted(w, s);
    var w' := Started(w, s, now);
    forall id | id in w'.armed ensures ArmedOk(w', id) {
      if id in w.armed { assert ArmedOk(w, id); }
    }
    forall t | t in w'.timers ensures exists id :: RetryPending(w', t, id) {
      StartKeepsPending(w, s, now, t);
    }
    forall k | k in w'.expiryTimers ensures LockOk(w', k) {
      if k in w.expiryTimers { assert LockOk(w, k); }
    }
  }

  lemma StopKeeps(w: Wheel, s: SessionId)
    requires WheelOk(w) && s in w.timers
    ensures UpstreamKey(s) in w.expiryTimers && WheelOk(Stopped(w, s))
  {
    hide UpstreamKey, SessionOf;
    UpstreamKeys();
    var mine :| RetryPending(w, s, mine);
    var w' := Stopped(w, s);
    forall id | id in w'.armed ensures ArmedOk(w', id) {
      assert ArmedOk(w, id);
    }
    forall t | t in w'.timers ensures exists id :: RetryPending(w', t, id) {
      var id :| RetryPending(w, t, id);
      assert SessionOf(UpstreamKey(t)) == t && SessionOf(UpstreamKey(s)) == s;
      assert ArmedOk(w, id) && ArmedOk(w, mine);
      assert RetryPending(w', t, id);
    }
    forall k | k in w'.expiryTimers ensures LockOk(w', k) {
      assert LockOk(w, k);
    }
  }

  lemma DedupKeeps(w: Wheel, timer: Timer)
    requires WheelOk(w) && timer.kind.Dedup?
    ensures WheelOk(w.(next := w.next + 1, armed := w.armed[w.next := timer]))
  {
    hide UpstreamKey, SessionOf;
    var w' := w.(next := w.next + 1, armed := w.armed[w.next := timer]);
    forall id | id in w'.armed ensures ArmedOk(w', id) {
      if id in w.armed { assert ArmedOk(w, id); }
    }
    forall t | t in w'.timers ensures exists id :: RetryPending(w', t, id) {
      var id :| RetryPending(w, t, id);
      assert ArmedOk(w, id) && ArmedOk(w, w.expiryTimers[UpstreamKey(t)]);
      assert RetryPending(w', t, id);
    }
    forall k | k in w'.expiryTimers ensures LockOk(w', k) { assert LockOk(w, k); }
  }

  lemma DedupFiredKeeps(w: Wheel, gone: TimerId)
    requires WheelOk(w) && gone in w.armed && w.armed[gone].kind.Dedup?
    ensures WheelOk(w.(armed := w.armed - {gone}))
  {
    hide UpstreamKey, SessionOf;
    var w' := w.(armed := w.armed - {gone});
    forall id | id in w'.armed ensures ArmedOk(w', id) { assert ArmedOk(w, id); }
    forall t | t in w'.timers ensures exists id :: RetryPending(w', t, id) {
      var id :| RetryPending(w, t, id);
      assert RetryPending(w', t, id);
    }
    forall k | k in w'.expiryTimers ensures LockOk(w', k) { assert LockOk(w, k); }
  }

  lemma NextKeeps(w: Wheel)
    requires WheelOk(w)
    ensures WheelOk(w.(next := w.next + 1))
  {
    hide UpstreamKey, SessionOf;
    var w' := w.(next := w.next + 1);
    forall id | id in w'.armed ensures ArmedOk(w', id) { assert ArmedOk(w, id); }
    forall t | t in w'.timers ensures exists id :: RetryPending(w', t, id) {
      var id :| RetryPending(w, t, id);
      assert RetryPending(w', t, id);
    }
    forall k | k in w'.expiryTimers ensures LockOk(w', k) { assert LockOk(w, k); }
  }

  lemma RetryIsDueEarlier(w: Wheel, lock: TimerId)
    requires WheelOk(w) && lock in w.armed
    ensures w.armed[lock].kind.Expiry? ==> exists id :: id in w.armed && w.armed[id].due < w.armed[lock].due
  {
    hide UpstreamKey, SessionOf;
    if w.armed[lock].kind.Expiry? {
      var k := w.armed[lock].kind.key;
      assert ArmedOk(w, lock) && LockOk(w, k);
      var id :| RetryPending(w, SessionOf(k), id);
      assert id in w.armed;
    }
  }

  /** An expiry timer is never the first one due: the retry timer of the same session is due earlier. */
  lemma ExpiryNeverFires(st: State, id: TimerId)
    requires WheelOk(WheelOf(st)) && id in st.armed && Enabled(st, Fire(id))
    ensures !st.armed[id].kind.Expiry?
  {
    hide WheelOk;
    RetryIsDueEarlier(WheelOf(st), id);
  }

  // ----- what each event does to timers and locks -----

  lemma LockWheel(st: State, key: string)
    requires WheelOk(WheelOf(st)) && key !in st.processing
    ensures Locked(st, key)
            == st.(nextTimer := st.nextTimer + 1,
                   armed := st.armed[st.nextTimer := Timer(Expiry(key), st.now + UPSTREAM_ATTEMPT_EXPIRY_MS)],
                   processing := st.processing + {key}, expiryTimers := st.expiryTimers[key := st.nextTimer])
  {
  }

  lemma LockUnlock(st: State, key: string)
    requires WheelOk(WheelOf(st)) && key !in st.processing
    ensures WheelOf(Unlocked(Locked(st, key), key)) == WheelOf(st).(next := st.nextTimer + 1)
  {
    hide UpstreamKey, SessionOf;
    LockWheel(st, key);
    assert st.processing + {key} - {key} == st.processing;
    assert st.armed[st.nextTimer := Timer(Expiry(key), st.now + UPSTREAM_ATTEMPT_EXPIRY_MS)] - {st.nextTimer}
           == st.armed;
    assert st.expiryTimers[key := st.nextTimer] - {key} == st.expiryTimers;
  }

  lemma UpstreamWheel(st: State, s: SessionId)
    requires WheelOk(WheelOf(st)) && s in st.ids
    ensures var key, after := UpstreamKey(s), AfterUpstreamError(st, s);
            && (key in st.processing ==> after == st)
            && (key !in st.processing && Count(st.scheduled, key) >= MAX_ATTEMPTS ==>
                  WheelOf(after) == WheelOf(st).(next := st.nextTimer + 1))
            && (key !in st.processing && Count(st.scheduled, key) < MAX_ATTEMPTS ==>
                  s !in st.timers && WheelOf(after) == Started(WheelOf(st), s, st.now))
  {
    hide UpstreamKey, SessionOf, Locked, Unlocked, WheelOk;
    var key := UpstreamKey(s);
    if key !in st.processing {
      StartKeeps(WheelOf(st), s, st.now);
      LockWheel(st, key);
      LockUnlock(st, key);
      assert Pending(Locked(st, key), s) + {st.nextTimer + 1} == {st.nextTimer + 1};
    }
  }

  lemma RetryWheel(st: State, id: TimerId)
    requires WheelOk(WheelOf(st)) && id in st.armed && st.armed[id].kind.Retry?
    ensures var s := st.armed[id].kind.session;
            && s in st.timers && UpstreamKey(s) in st.expiryTimers && s in st.ids
            && st.timers[s] == {id}
            && WheelOf(AfterTimer(st, id)) == Stopped(WheelOf(st), s)
  {
    hide UpstreamKey, SessionOf;
    var s := st.armed[id].kind.session;
    assert ArmedOk(WheelOf(st), id);
    var mine :| RetryPending(WheelOf(st), s, mine);
    assert {id} - {id} == {};
    assert st.armed - {id} - {st.expiryTimers[UpstreamKey(s)]}
           == st.armed - st.timers[s] - {st.expiryTimers[UpstreamKey(s)]};
  }

  lemma DedupWheel(st: State, id: TimerId)
    requires id in st.armed && st.armed[id].kind.Dedup?
    ensures WheelOf(AfterTimer(st, id)) == WheelOf(st).(armed := st.armed - {id})
  {
  }

  /** A session owns no lock but its own. */
  lemma OwnedLocks(w: Wheel, s: SessionId)
    requires WheelOk(w) && s in w.ids
    ensures forall k :: k in w.processing ==> (Owns(s, k) <==> k == UpstreamKey(s))
    ensures UpstreamKey(s) in w.processing <==> s in w.timers
  {
    hide UpstreamKey, SessionOf, Owns, Separate;
    UpstreamKeys();
    forall k | k in w.processing ensures Owns(s, k) <==> k == UpstreamKey(s) {
      assert LockOk(w, k);
      var id :| RetryPending(w, SessionOf(k), id);
      assert ArmedOk(w, id);
      OwnsOwnKeyOnly(s, SessionOf(k), w.ids);
      assert SessionOf(UpstreamKey(s)) == s;
    }
    if UpstreamKey(s) in w.processing { assert LockOk(w, UpstreamKey(s)); }
  }

  lemma OwnedByDeletion(st: State, s: SessionId)
    requires WheelOk(WheelOf(st)) && s in st.ids
    ensures s in st.timers ==>
              && UpstreamKey(s) in st.expiryTimers
              && OwnedKeys(st, s) == {UpstreamKey(s)} && OwnedExpiries(st, s) == {st.expiryTimers[UpstreamKey(s)]}
    ensures s !in st.timers ==> OwnedKeys(st, s) == {} && OwnedExpiries(st, s) == {}
  {
    hide UpstreamKey, SessionOf, Owns, ArmedOk, RetryPending, LockOk;
    OwnedLocks(WheelOf(st), s);
    assert s in st.timers ==> OwnedKeys(st, s) == {UpstreamKey(s)};
    assert s !in st.timers ==> OwnedKeys(st, s) == {};
  }

  lemma DeletionWheel(st: State, s: SessionId)
    requires WheelOk(WheelOf(st)) && s in st.ids
    ensures s in st.timers ==> UpstreamKey(s) in st.expiryTimers
    ensures WheelOf(AfterDeletion(st, s)) == if s in st.timers then Stopped(WheelOf(st), s) else WheelOf(st)
  {
    hide UpstreamKey, Owns, WheelOk, OwnedKeys, OwnedExpiries;
    OwnedByDeletion(st, s);
    if s !in st.timers {
      assert st.armed - {} - {} == st.armed;
      assert st.timers - {s} == st.timers;
    }
  }

  lemma FireKeepsWheel(st: State, id: TimerId)
    requires WheelOk(WheelOf(st)) && Enabled(st, Fire(id))
    ensures WheelOk(WheelOf(AfterTimer(st, id)))
  {
    hide WheelOk, Stopped, UpstreamKey, AfterTimer;
    ExpiryNeverFires(st, id);
    if st.armed[id].kind.Retry? {
      RetryWheel(st, id);
      StopKeeps(WheelOf(st), st.armed[id].kind.session);
    } else {
      DedupWheel(st, id);
      DedupFiredKeeps(WheelOf(st), id);
    }
  }

  lemma UpstreamKeepsWheel(st: State, s: SessionId)
    requires WheelOk(WheelOf(st)) && s in st.ids
    ensures WheelOk(WheelOf(AfterUpstreamError(st, s)))
  {
    hide WheelOk, Started, UpstreamKey, AfterUpstreamError;
    UpstreamWheel(st, s);
    NextKeeps(WheelOf(st));
    if UpstreamKey(s) !in st.processing { StartKeeps(WheelOf(st), s, st.now); }
  }

  lemma SemanticKeepsWheel(st: State, s: SessionId, t: ErrorType)
    requires WheelOk(WheelOf(st))
    ensures WheelOk(WheelOf(AfterSemanticError(st, s, t)))
  {
    hide WheelOk, ErrorKey;
    DedupKeeps(WheelOf(st), Timer(Dedup(ErrorKey(s, t)), st.now + ERROR_KEY_EXPIRY_MS));
  }

  lemma DeletionKeepsWheel(st: State, s: SessionId)
    requires WheelOk(WheelOf(st)) && s in st.ids
    ensures WheelOk(WheelOf(AfterDeletion(st, s)))
  {
    hide WheelOk, Stopped, AfterDeletion, UpstreamKey;
    DeletionWheel(st, s);
    if s in st.timers { StopKeeps(WheelOf(st), s); }
  }

  lemma StepKeepsWheel(st: State, e: Event)
    requires WheelOk(WheelOf(st)) && Enabled(st, e)
    requires e.UpstreamError? || e.SemanticError? || e.Deleted? ==> e.session in st.ids
    ensures WheelOk(WheelOf(Step(st, e)))
  {
    hide WheelOk, AfterUpstreamError, AfterSemanticError, AfterDeletion, AfterTimer;
    match e
    case Tick(_) =>
    case Resume(_, _) =>
    case UpstreamError(s) => UpstreamKeepsWheel(st, s);
    case SemanticError(s, t) => SemanticKeepsWheel(st, s, t);
    case Fire(id) => FireKeepsWheel(st, id);
    case Deleted(s) => DeletionKeepsWheel(st, s);
  }

  // ----- counting retries and attempts -----

  /** The event deletes a session whose keys this one is among. */
  predicate Drops(e: Event, key: string) {
    e.Deleted? && Owns(e.session, key)
  }

  function Ends(e: Event, key: string): nat {
    if e.Resume? && e.key == key then 1 else 0
  }

  /** Prompts sent plus timers pending are the scheduled attempts, at most maxAttempts. */
  ghost predicate RetryCounted(st: State, s: SessionId) {
    Count(st.scheduled, UpstreamKey(s)) == Count(st.prompted, s) + |Pending(st, s)| <= MAX_ATTEMPTS
  }

  ghost predicate RetriesCounted(st: State) {
    forall s :: s in st.ids ==> RetryCounted(st, s)
  }

  ghost predicate AttemptsBounded(st: State) {
    forall key :: Count(st.recoveryAttempts, key) <= MAX_RECOVERY_ATTEMPTS
  }

  /** The part of the state that counts. */
  datatype Counters = Counters(ids: set<SessionId>, scheduled: map<string, nat>, prompted: map<SessionId, nat>,
                               recoveryAttempts: map<string, nat>, resuming: map<string, nat>)

  function CountersOf(st: State): Counters {
    Counters(st.ids, st.scheduled, st.prompted, st.recoveryAttempts, st.resuming)
  }

  lemma LocksCountNothing(st: State, key: string)
    ensures CountersOf(Locked(st, key)) == CountersOf(st) && CountersOf(Unlocked(st, key)) == CountersOf(st)
  {
  }

  lemma UpstreamCounters(st: State, s: SessionId)
    ensures var key := UpstreamKey(s);
            CountersOf(AfterUpstreamError(st, s))
            == CountersOf(st).(scheduled :=
                 if key !in st.processing && Count(st.scheduled, key) < MAX_ATTEMPTS
                 then st.scheduled[key := Count(st.scheduled, key) + 1] else st.scheduled)
  {
    hide Locked, Unlocked, UpstreamKey, Pending;
    LocksCountNothing(st, UpstreamKey(s));
    LocksCountNothing(Locked(st, UpstreamKey(s)), UpstreamKey(s));
  }

  lemma RemoveCountsNothing(st: State, s: SessionId, id: TimerId)
    ensures CountersOf(RemovePending(st, s, id)) == CountersOf(st)
  {
  }

  lemma RetryCounters(st: State, id: TimerId)
    requires id in st.armed && st.armed[id].kind.Retry?
    ensures var s := st.armed[id].kind.session;
            CountersOf(AfterTimer(st, id)) == CountersOf(st).(prompted := st.prompted[s := Count(st.prompted, s) + 1])
  {
    hide Unlocked, UpstreamKey, Pending, RemovePending, Count;
    var s := st.armed[id].kind.session;
    var fired := st.(armed := st.armed - {id});
    RemoveCountsNothing(fired, s, id);
    LocksCountNothing(RemovePending(fired, s, id), UpstreamKey(s));
  }

  lemma ExpiryCounters(st: State, key: string)
    ensures CountersOf(AfterExpiry(st, key)) == CountersOf(st) && CountersOf(AfterDedup(st, key)) == CountersOf(st)
  {
  }

  lemma DisarmCounters(st: State, id: TimerId)
    ensures CountersOf(st.(armed := st.armed - {id})) == CountersOf(st)
  {
  }

  lemma OtherTimerCounters(st: State, id: TimerId)
    requires id in st.armed && !st.armed[id].kind.Retry?
    ensures CountersOf(AfterTimer(st, id)) == CountersOf(st)
  {
    hide AfterRetry, AfterExpiry, AfterDedup, CountersOf;
    var fired := st.(armed := st.armed - {id});
    DisarmCounters(st, id);
    match st.armed[id].kind
    case Expiry(key) => ExpiryCounters(fired, key);
    case Dedup(key) => ExpiryCounters(fired, key);
    case Retry(_) =>
  }

  lemma TimerCounters(st: State, id: TimerId)
    requires id in st.armed
    ensures CountersOf(AfterTimer(st, id))
            == if st.armed[id].kind.Retry? then
                 var s := st.armed[id].kind.session;
                 CountersOf(st).(prompted := st.prompted[s := Count(st.prompted, s) + 1])
               else CountersOf(st)
  {
    hide *;
    if st.armed[id].kind.Retry? { RetryCounters(st, id); } else { OtherTimerCounters(st, id); }
  }

  lemma UpstreamCounts(st: State, s: SessionId)
    requires WheelOk(WheelOf(st)) && s in st.ids && RetriesCounted(st)
    ensures RetriesCounted(AfterUpstreamError(st, s))
  {
    hide UpstreamKey, WheelOk, AfterUpstreamError;
    UpstreamKeys();
    UpstreamWheel(st, s);
    UpstreamCounters(st, s);
    var after := AfterUpstreamError(st, s);
    forall t | t in st.ids
      ensures RetryCounted(after, t)
    {
      assert SessionOf(UpstreamKey(t)) == t && SessionOf(UpstreamKey(s)) == s;
      assert RetryCounted(st, t);
    }
  }

  lemma RetryCounts(st: State, id: TimerId)
    requires WheelOk(WheelOf(st)) && id in st.armed && st.armed[id].kind.Retry? && RetriesCounted(st)
    ensures RetriesCounted(AfterTimer(st, id))
  {
    hide UpstreamKey, WheelOk, AfterTimer;
    RetryWheel(st, id);
    TimerCounters(st, id);
    var s, after := st.armed[id].kind.session, AfterTimer(st, id);
    forall t | t in st.ids
      ensures RetryCounted(after, t)
    {
      assert RetryCounted(st, t);
      assert Pending(after, t) == if t == s then {} else Pending(st, t);
    }
  }

  lemma DeletionFields(st: State, s: SessionId, key: string)
    ensures var after := AfterDeletion(st, s);
            && after.ids == st.ids && after.timers == st.timers - {s} && after.prompted == st.prompted - {s}
            && Count(after.scheduled, key) == (if Owns(s, key) then 0 else Count(st.scheduled, key))
            && Count(after.recoveryAttempts, key) == (if Owns(s, key) then 0 else Count(st.recoveryAttempts, key))
            && after.resuming == st.resuming
            && (key in after.processingErrors <==> key in st.processingErrors && !Owns(s, key))
  {
    hide Owns, OwnedKeys, OwnedExpiries;
  }

  lemma DeletionCountsOne(st: State, s: SessionId, t: SessionId)
    requires Separate(st.ids) && s in st.ids && t in st.ids && RetryCounted(st, t)
    ensures RetryCounted(AfterDeletion(st, s), t)
  {
    hide UpstreamKey, Owns, AfterDeletion;
    OwnsOwnKeyOnly(s, t, st.ids);
    DeletionFields(st, s, UpstreamKey(t));
  }

  lemma DeletionCounts(st: State, s: SessionId)
    requires WheelOk(WheelOf(st)) && s in st.ids && RetriesCounted(st)
    ensures RetriesCounted(AfterDeletion(st, s))
  {
    DeletionFields(st, s, "");
    hide RetryCounted, AfterDeletion;
    forall t | t in st.ids ensures RetryCounted(AfterDeletion(st, s), t) {
      DeletionCountsOne(st, s, t);
    }
  }

  lemma SameRetries(st: State, after: State)
    requires RetriesCounted(st)
    requires after.ids == st.ids && after.scheduled == st.scheduled && after.prompted == st.prompted
    requires after.timers == st.timers
    ensures RetriesCounted(after)
  {
    hide UpstreamKey;
    forall s | s in st.ids ensures RetryCounted(after, s) {
      assert RetryCounted(st, s);
    }
  }

  lemma FireKeepsRetries(st: State, id: TimerId)
    requires WheelOk(WheelOf(st)) && Enabled(st, Fire(id)) && RetriesCounted(st)
    ensures RetriesCounted(AfterTimer(st, id))
  {
    hide WheelOk, UpstreamKey, AfterTimer, RetriesCounted;
    ExpiryNeverFires(st, id);
    if st.armed[id].kind.Retry? {
      RetryCounts(st, id);
    } else {
      DedupWheel(st, id);
      TimerCounters(st, id);
      SameRetries(st, AfterTimer(st, id));
    }
  }

  lemma SemanticKeepsRetries(st: State, s: SessionId, t: ErrorType)
    requires RetriesCounted(st)
    ensures RetriesCounted(AfterSemanticError(st, s, t))
  {
    hide RetriesCounted, ErrorKey;
    SemanticFields(st, s, t);
    SameRetries(st, AfterSemanticError(st, s, t));
  }

  lemma SemanticFields(st: State, s: SessionId, t: ErrorType)
    ensures var key, after := ErrorKey(s, t), AfterSemanticError(st, s, t);
            && after.timers == st.timers
            && CountersOf(after)
               == if key !in st.processingErrors && Count(st.recoveryAttempts, key) < MAX_RECOVERY_ATTEMPTS then
                    CountersOf(st).(recoveryAttempts := st.recoveryAttempts[key := Count(st.recoveryAttempts, key) + 1],
                                    resuming := st.resuming[key := Count(st.resuming, key) + 1])
                  else CountersOf(st)
  {
    hide ErrorKey, SetTimer, Count;
    var key := ErrorKey(s, t);
    NotedCountsNothing(st, key);
  }

  lemma NotedCountsNothing(st: State, key: string)
    ensures CountersOf(Noted(st, key)) == CountersOf(st) && Noted(st, key).timers == st.timers
  {
  }

  lemma StepKeepsRetries(st: State, e: Event)
    requires WheelOk(WheelOf(st)) && Enabled(st, e) && RetriesCounted(st)
    requires e.UpstreamError? || e.SemanticError? || e.Deleted? ==> e.session in st.ids
    ensures RetriesCounted(Step(st, e))
  {
    hide WheelOk, AfterUpstreamError, AfterSemanticError, AfterDeletion, AfterTimer, RetriesCounted;
    match e
    case Tick(_) => SameRetries(st, Step(st, e));
    case Resume(_, _) => SameRetries(st, Step(st, e));
    case UpstreamError(s) => UpstreamCounts(st, s);
    case SemanticError(s, t) => SemanticKeepsRetries(st, s, t);
    case Fire(id) => FireKeepsRetries(st, id);
    case Deleted(s) => DeletionCounts(st, s);
  }

  /** How one step changes the attempts and the resumes under way of a key. */
  lemma StepResumes(st: State, e: Event, key: string)
    requires Enabled(st, e)
    ensures var attempts, now := Count(st.recoveryAttempts, key), Count(Step(st, e).recoveryAttempts, key);
            var resuming, left := Count(st.resuming, key), Count(Step(st, e).resuming, key);
            && (attempts <= MAX_RECOVERY_ATTEMPTS ==> now <= MAX_RECOVERY_ATTEMPTS)
            && (Drops(e, key) ==> now == 0 && left == resuming)
            && (!Drops(e, key) ==> left + Ends(e, key) + attempts == resuming + now)
  {
    hide AfterUpstreamError, AfterDeletion, AfterTimer, AfterSemanticError, Owns, ErrorKey;
    match e
    case Tick(_) =>
    case Resume(_, _) =>
    case UpstreamError(s) => UpstreamCounters(st, s);
    case SemanticError(s, t) => SemanticFields(st, s, t);
    case Fire(id) => TimerCounters(st, id);
    case Deleted(s) => DeletionFields(st, s, key);
  }

  lemma StepKeepsAttempts(st: State, e: Event)
    requires Enabled(st, e) && AttemptsBounded(st)
    ensures AttemptsBounded(Step(st, e))
  {
    hide Enabled, Step, Count;
    forall key ensures Count(Step(st, e).recoveryAttempts, key) <= MAX_RECOVERY_ATTEMPTS {
      assert Count(st.recoveryAttempts, key) <= MAX_RECOVERY_ATTEMPTS;
      StepResumes(st, e, key);
    }
  }

  ghost predicate Invariant(st: State) {
    WheelOk(WheelOf(st)) && RetriesCounted(st) && AttemptsBounded(st)
  }

  lemma InitialInvariant(ids: set<SessionId>)
    requires Separate(ids)
    ensures Invariant(Initial(ids))
  {
  }

  lemma StepKeepsIds(st: State, e: Event)
    requires Enabled(st, e)
    ensures Step(st, e).ids == st.ids
  {
    hide Unlocked, Locked, UpstreamKey, ErrorKey, Owns, OwnedKeys, OwnedExpiries;
    match e
    case UpstreamError(s) => UpstreamCounters(st, s);
    case Fire(id) => TimerCounters(st, id);
    case _ =>
  }

  /** Over every run of errors, resumes, timers and deletions. */
  lemma {:induction false} RunInvariant(st: State, events: seq<Event>, after: State)
    requires Invariant(st) && Reaches(st, events, after)
    ensures Invariant(after) && after.ids == st.ids
    decreases |events|
  {
    hide WheelOk, RetriesCounted, AttemptsBounded, Enabled, Step;
    if events != [] {
      StepKeepsWheel(st, events[0]);
      StepKeepsRetries(st, events[0]);
      StepKeepsAttempts(st, events[0]);
      StepKeepsIds(st, events[0]);
      RunInvariant(Step(st, events[0]), events[1..], after);
    }
  }

  /** In every reachable state a session has at most one retry timer, exactly when its key is being
      processed; it was sent as many prompts as were scheduled and are no longer pending. */
  lemma {:induction false} RetriesAreBounded(ids: set<SessionId>, events: seq<Event>, after: State, s: SessionId)
    requires Separate(ids) && s in ids && Reaches(Initial(ids), events, after)
    ensures |Pending(after, s)| <= 1
    ensures Pending(after, s) != {} <==> UpstreamKey(s) in after.processing
    ensures Count(after.prompted, s) + |Pending(after, s)| == Count(after.scheduled, UpstreamKey(s)) <= MAX_ATTEMPTS
    ensures forall id :: id in Pending(after, s) <==> id in after.armed && after.armed[id].kind == Retry(s)
  {
    hide UpstreamKey, Reaches, Count, WheelOk;
    InitialInvariant(ids);
    RunInvariant(Initial(ids), events, after);
    OwnedLocks(WheelOf(after), s);
    PendingIsArmed(after, s);
  }

  lemma PendingIsArmed(st: State, s: SessionId)
    requires WheelOk(WheelOf(st))
    ensures |Pending(st, s)| <= 1 && (Pending(st, s) != {} <==> s in st.timers)
    ensures forall id :: id in Pending(st, s) <==> id in st.armed && st.armed[id].kind == Retry(s)
  {
    hide UpstreamKey, SessionOf;
    var w := WheelOf(st);
    if s in st.timers { var mine :| RetryPending(w, s, mine); }
    forall id ensures id in Pending(st, s) <==> id in st.armed && st.armed[id].kind == Retry(s) {
      assert id in st.armed ==> ArmedOk(w, id);
    }
  }

  // ----- resumes over runs -----

  /** The resumes of a key that end in a run. */
  function Ended(events: seq<Event>, key: string): nat {
    if events == [] then 0 else Ends(events[0], key) + Ended(events[1..], key)
  }

  /** The resume prompts that are sent in a run for a key. */
  function Sent(events: seq<Event>, key: string): nat {
    if events == [] then 0
    else (if events[0] == Resume(key, true) then 1 else 0) + Sent(events[1..], key)
  }

  /** The deletions in a run that drop the key. */
  function Dropped(events: seq<Event>, key: string): nat {
    if events == [] then 0 else (if Drops(events[0], key) then 1 else 0) + Dropped(events[1..], key)
  }

  lemma {:induction false} SentHaveEnded(events: seq<Event>, key: string)
    ensures Sent(events, key) <= Ended(events, key)
  {
    if events != [] { SentHaveEnded(events[1..], key); }
  }

  /** Every resume that begins ends once or is under way: without a deletion of the key the attempts count
      what began, and each deletion forgets at most three. */
  lemma {:induction false} ResumesAreConserved(st: State, events: seq<Event>, after: State, key: string)
    requires Reaches(st, events, after) && Count(st.recoveryAttempts, key) <= MAX_RECOVERY_ATTEMPTS
    ensures var out := Ended(events, key) + Count(after.resuming, key) + Count(st.recoveryAttempts, key);
            var begun := Count(st.resuming, key) + Count(after.recoveryAttempts, key);
            && Count(after.recoveryAttempts, key) <= MAX_RECOVERY_ATTEMPTS
            && (Dropped(events, key) == 0 ==> out == begun)
            && begun <= out <= begun + MAX_RECOVERY_ATTEMPTS * Dropped(events, key)
    decreases |events|
  {
    hide Enabled, Step, Count, Owns;
    if events != [] {
      StepResumes(st, events[0], key);
      ResumesAreConserved(Step(st, events[0]), events[1..], after, key);
    }
  }

  /** From a state on, a key is resumed at most as often as it has attempts left and resumes under way; over a
      whole run at most three times for each deletion and three times more. */
  lemma {:induction false} ResumesAreBounded(st: State, events: seq<Event>, after: State, key: string)
    requires Reaches(st, events, after) && Count(st.recoveryAttempts, key) <= MAX_RECOVERY_ATTEMPTS
    ensures Dropped(events, key) == 0 ==>
              Sent(events, key) <= MAX_RECOVERY_ATTEMPTS - Count(st.recoveryAttempts, key) + Count(st.resuming, key)
    ensures st == Initial(st.ids) ==> Sent(events, key) <= MAX_RECOVERY_ATTEMPTS * (Dropped(events, key) + 1)
  {
    hide Reaches, Ended, Sent, Dropped;
    ResumesAreConserved(st, events, after, key);
    SentHaveEnded(events, key);
  }

  // ----- dedup timers -----

  /** Timer numbers are given out once, and those recorded for retries and locks are never dedup timers. */
  ghost predicate KindsMatch(st: State) {
    && (forall id :: id in st.armed ==> id < st.nextTimer)
    && (forall s, id {:trigger id in st.timers[s]} :: s in st.timers && id in st.timers[s] ==>
          id < st.nextTimer && (id in st.armed ==> st.armed[id].kind == Retry(s)))
    && forall k :: k in st.expiryTimers ==>
         var id := st.expiryTimers[k];
         id < st.nextTimer && (id in st.armed ==> st.armed[id].kind == Expiry(k))
  }

  /** Timers stay matched, and every armed dedup timer stays armed. */
  ghost predicate DedupsStay(st: State, after: State) {
    && KindsMatch(after)
    && forall id :: id in st.armed && st.armed[id].kind.Dedup? ==> id in after.armed && after.armed[id] == st.armed[id]
  }

  lemma StayTransitive(a: State, b: State, c: State)
    requires DedupsStay(a, b) && DedupsStay(b, c)
    ensures DedupsStay(a, c)
  {
    hide KindsMatch;
  }

  lemma SetStays(st: State, kind: TimerKind, delay: nat)
    requires KindsMatch(st)
    ensures DedupsStay(st, SetTimer(st, kind, delay))
  {
  }

  lemma SameStays(st: State, after: State)
    requires KindsMatch(st) && after.nextTimer == st.nextTimer && after.armed == st.armed
    requires after.timers == st.timers && after.expiryTimers == st.expiryTimers
    ensures DedupsStay(st, after)
  {
  }

  lemma ClearStays(st: State, key: string)
    requires KindsMatch(st)
    ensures DedupsStay(st, ClearExpiry(st, key))
  {
  }

  lemma UnlockStays(st: State, key: string)
    requires KindsMatch(st)
    ensures DedupsStay(st, Unlocked(st, key))
  {
    hide KindsMatch, ClearExpiry;
    var freed := st.(processing := st.processing - {key});
    SameStays(st, freed);
    ClearStays(freed, key);
    StayTransitive(st, freed, Unlocked(st, key));
  }

  lemma NumberedStays(st: State, key: string)
    requires KindsMatch(st)
    ensures var timed := SetTimer(st, Expiry(key), UPSTREAM_ATTEMPT_EXPIRY_MS);
            DedupsStay(st, timed.(expiryTimers := st.expiryTimers[key := st.nextTimer]))
  {
    SetStays(st, Expiry(key), UPSTREAM_ATTEMPT_EXPIRY_MS);
  }

  lemma LockStays(st: State, key: string)
    requires KindsMatch(st)
    ensures DedupsStay(st, Locked(st, key))
  {
    hide KindsMatch, ClearExpiry;
    var taken := st.(processing := st.processing + {key});
    var cleared := ClearExpiry(taken, key);
    SameStays(st, taken);
    ClearStays(taken, key);
    NumberedStays(cleared, key);
    StayTransitive(st, taken, cleared);
    StayTransitive(st, cleared, Locked(st, key));
  }

  lemma ScheduledStays(st: State, s: SessionId)
    requires KindsMatch(st)
    ensures var timed := SetTimer(st, Retry(s), INTERVAL_MS);
            DedupsStay(st, timed.(timers := st.timers[s := Pending(st, s) + {st.nextTimer}]))
  {
    SetStays(st, Retry(s), INTERVAL_MS);
  }

  lemma UpstreamStays(st: State, s: SessionId)
    requires KindsMatch(st)
    ensures DedupsStay(st, AfterUpstreamError(st, s))
  {
    hide KindsMatch, Locked, Unlocked, UpstreamKey, Count, SetTimer;
    var key := UpstreamKey(s);
    var locked := Locked(st, key);
    LockStays(st, key);
    if key in st.processing {
      SameStays(st, st);
    } else if Count(st.scheduled, key) >= MAX_ATTEMPTS {
      UnlockStays(locked, key);
      StayTransitive(st, locked, Unlocked(locked, key));
    } else {
      var counted := locked.(scheduled := locked.scheduled[key := Count(st.scheduled, key) + 1]);
      SameStays(locked, counted);
      StayTransitive(st, locked, counted);
      ScheduledStays(counted, s);
      StayTransitive(st, counted, AfterUpstreamError(st, s));
    }
  }

  lemma SemanticStays(st: State, s: SessionId, t: ErrorType)
    requires KindsMatch(st)
    ensures DedupsStay(st, AfterSemanticError(st, s, t))
  {
    hide ErrorKey;
    SetStays(st, Dedup(ErrorKey(s, t)), ERROR_KEY_EXPIRY_MS);
  }

  lemma RetryStays(st: State, s: SessionId, id: TimerId)
    requires KindsMatch(st)
    ensures DedupsStay(st, AfterRetry(st, s, id))
  {
    hide UpstreamKey, Unlocked;
    var gone := RemovePending(st, s, id);
    assert DedupsStay(st, gone);
    UnlockStays(gone, UpstreamKey(s));
    StayTransitive(st, gone, Unlocked(gone, UpstreamKey(s)));
  }

  lemma DisarmMatches(st: State, id: TimerId)
    requires KindsMatch(st)
    ensures KindsMatch(st.(armed := st.armed - {id}))
  {
  }

  lemma ExpiryStays(st: State, key: string)
    requires KindsMatch(st)
    ensures DedupsStay(st, AfterExpiry(st, key)) && DedupsStay(st, AfterDedup(st, key))
  {
    SameStays(st, AfterDedup(st, key));
  }

  lemma FireStays(st: State, id: TimerId)
    requires KindsMatch(st) && id in st.armed
    ensures DedupsStay(st.(armed := st.armed - {id}), AfterTimer(st, id))
  {
    hide KindsMatch, DedupsStay, AfterRetry, AfterExpiry, AfterDedup;
    var fired := st.(armed := st.armed - {id});
    DisarmMatches(st, id);
    match st.armed[id].kind
    case Retry(s) => RetryStays(fired, s, id);
    case Expiry(key) => ExpiryStays(fired, key);
    case Dedup(key) => ExpiryStays(fired, key);
  }

  lemma DeletionStays(st: State, s: SessionId)
    requires KindsMatch(st)
    ensures DedupsStay(st, AfterDeletion(st, s))
  {
    hide Owns;
  }

  /** Whatever the session ids: timers stay matched, and only its own firing disarms a dedup timer. */
  lemma StepKeepsKinds(st: State, e: Event)
    requires KindsMatch(st) && Enabled(st, e)
    ensures KindsMatch(Step(st, e))
    ensures forall id :: id in st.armed && st.armed[id].kind.Dedup? && e != Fire(id) ==>
                           id in Step(st, e).armed && Step(st, e).armed[id] == st.armed[id]
  {
    hide AfterUpstreamError, AfterSemanticError, AfterDeletion, AfterTimer;
    match e
    case UpstreamError(s) => UpstreamStays(st, s);
    case SemanticError(s, t) => SemanticStays(st, s, t);
    case Fire(id) => FireStays(st, id);
    case Deleted(s) => DeletionStays(st, s);
    case _ =>
  }

  lemma {:induction false} RunKeepsKinds(st: State, events: seq<Event>, after: State)
    requires KindsMatch(st) && AttemptsBounded(st) && Reaches(st, events, after)
    ensures KindsMatch(after) && AttemptsBounded(after) && after.ids == st.ids
    decreases |events|
  {
    hide KindsMatch, AttemptsBounded, Enabled, Step;
    if events != [] {
      StepKeepsKinds(st, events[0]);
      StepKeepsAttempts(st, events[0]);
      StepKeepsIds(st, events[0]);
      RunKeepsKinds(Step(st, events[0]), events[1..], after);
    }
  }

  lemma ReachedIsMatched(ids: set<SessionId>, past: seq<Event>, st: State)
    requires Reaches(Initial(ids), past, st)
    ensures KindsMatch(st) && AttemptsBounded(st) && st.ids == ids
  {
    hide Reaches;
    RunKeepsKinds(Initial(ids), past, st);
  }

  // ----- and the bound is reached -----

  lemma {:induction false} ReachesConcat(st: State, first: seq<Event>, mid: State, rest: seq<Event>, after: State)
    requires Reaches(st, first, mid) && Reaches(mid, rest, after)
    ensures Reaches(st, first + rest, after)
    decreases |first|
  {
    if first == [] {
      assert first + rest == rest;
    } else {
      hide Enabled, Step;
      assert (first + rest)[1..] == first[1..] + rest;
      ReachesConcat(Step(st, first[0]), first[1..], mid, rest, after);
    }
  }

  lemma {:induction false} CountsConcat(a: seq<Event>, b: seq<Event>, key: string)
    ensures Sent(a + b, key) == Sent(a, key) + Sent(b, key)
    ensures Dropped(a + b, key) == Dropped(a, key) + Dropped(b, key)
  {
    if a == [] {
      assert a + b == b;
    } else {
      hide Drops;
      assert (a + b)[1..] == a[1..] + b;
      CountsConcat(a[1..], b, key);
    }
  }

  lemma ReachesOne(st: State, e: Event)
    requires Enabled(st, e)
    requires e.UpstreamError? || e.SemanticError? || e.Deleted? ==> e.session in st.ids
    ensures Reaches(st, [e], Step(st, e))
  {
    hide Enabled, Step;
    assert [e][1..] == [];
    assert Reaches(Step(st, e), [], Step(st, e));
  }

  lemma CountsOne(e: Event, key: string)
    ensures Sent([e], key) == if e == Resume(key, true) then 1 else 0
    ensures Dropped([e], key) == if Drops(e, key) then 1 else 0
  {
    hide Drops;
    assert [e][1..] == [];
  }

  /** A continuation that leaves locks and timers matched and the key alone, but for n prompts. */
  ghost predicate Leads(st: State, events: seq<Event>, after: State, key: string, n: nat) {
    && KindsMatch(st) && Reaches(st, events, after) && KindsMatch(after) && after.ids == st.ids
    && Sent(events, key) == n && Dropped(events, key) == 0
  }

  lemma LeadsOne(st: State, e: Event, key: string)
    requires KindsMatch(st) && Enabled(st, e) && !Drops(e, key)
    requires e.UpstreamError? || e.SemanticError? || e.Deleted? ==> e.session in st.ids
    ensures Leads(st, [e], Step(st, e), key, if e == Resume(key, true) then 1 else 0)
  {
    hide *;
    StepKeepsKinds(st, e);
    StepKeepsIds(st, e);
    ReachesOne(st, e);
    CountsOne(e, key);
    LeadsIs(st, [e], Step(st, e), key, if e == Resume(key, true) then 1 else 0);
  }

  lemma LeadsIs(st: State, events: seq<Event>, after: State, key: string, n: nat)
    ensures Leads(st, events, after, key, n) <==>
            && KindsMatch(st) && Reaches(st, events, after) && KindsMatch(after) && after.ids == st.ids
            && Sent(events, key) == n && Dropped(events, key) == 0
  {
  }

  lemma LeadsConcat(st: State, first: seq<Event>, mid: State, rest: seq<Event>, after: State,
                    key: string, n: nat, m: nat)
    requires Leads(st, first, mid, key, n) && Leads(mid, rest, after, key, m)
    ensures Leads(st, first + rest, after, key, n + m)
  {
    hide KindsMatch, Reaches, Sent, Dropped;
    ReachesConcat(st, first, mid, rest, after);
    CountsConcat(first, rest, key);
  }

  lemma {:induction false} FirstDue(armed: map<TimerId, Timer>, ids: set<TimerId>) returns (first: TimerId)
    requires ids <= armed.Keys && ids != {}
    ensures first in ids && forall id :: id in ids ==> armed[first].due <= armed[id].due
  {
    first :| first in ids;
    if ids != {first} {
      var other := FirstDue(armed, ids - {first});
      if armed[other].due < armed[first].due { first := other; }
    }
  }

  /** Timers can be fired one after another until a given dedup timer has fired. */
  lemma {:induction false} WaitFor(st: State, id: TimerId, key: string) returns (events: seq<Event>, after: State)
    requires KindsMatch(st) && id in st.armed && st.armed[id].kind == Dedup(key)
    ensures Leads(st, events, after, key, 0)
    ensures after.recoveryAttempts == st.recoveryAttempts && after.resuming == st.resuming
    ensures key !in after.processingErrors
    decreases |st.armed.Keys|
  {
    hide *;
    var first := FirstDue(st.armed, st.armed.Keys);
    var e1, e2 := Tick(if st.now < st.armed[first].due then st.armed[first].due else st.now), Fire(first);
    Ticked(st, first, key);
    var ticked := Step(st, e1);
    LeadsOne(st, e1, key);
    LeadsIs(st, [e1], ticked, key, 0);
    LeadsOne(ticked, e2, key);
    var fired := Step(ticked, e2);
    LeadsConcat(st, [e1], ticked, [e2], fired, key, 0, 0);
    FiredFields(ticked, first, key);
    events, after := [e1] + [e2], fired;
    if first != id {
      StepKeepsKinds(ticked, e2);
      LeadsIs(st, [e1] + [e2], fired, key, 0);
      Smaller(fired.armed.Keys, st.armed.Keys, first);
      var rest, last := WaitFor(fired, id, key);
      LeadsConcat(st, events, fired, rest, last, key, 0, 0);
      events, after := events + rest, last;
    }
  }

  lemma Smaller(a: set<TimerId>, b: set<TimerId>, gone: TimerId)
    requires a <= b && gone in b && gone !in a
    ensures |a| < |b|
  {
    assert |b - {gone}| == |b| - 1 && a <= b - {gone};
    SubsetSize(a, b - {gone});
  }

  lemma {:induction false} SubsetSize(a: set<TimerId>, b: set<TimerId>)
    requires a <= b
    ensures |a| <= |b|
  {
    if a != {} {
      var x :| x in a;
      SubsetSize(a - {x}, b - {x});
    }
  }

  lemma Ticked(st: State, first: TimerId, key: string)
    requires first in st.armed && forall id :: id in st.armed ==> st.armed[first].due <= st.armed[id].due
    ensures var e := Tick(if st.now < st.armed[first].due then st.armed[first].due else st.now);
            && Enabled(st, e) && Enabled(Step(st, e), Fire(first)) && !Drops(e, key) && !Drops(Fire(first), key)
            && var ticked := Step(st, e);
               && ticked.armed == st.armed && ticked.recoveryAttempts == st.recoveryAttempts
               && ticked.resuming == st.resuming
  {
    hide AfterTimer;
  }

  lemma RetryDisarms(st: State, s: SessionId, id: TimerId)
    ensures AfterRetry(st, s, id).armed.Keys <= st.armed.Keys
  {
    hide UpstreamKey, Pending, Count;
  }

  /** A firing disarms the timer, and perhaps the expiry of a lock. */
  lemma FireDisarms(st: State, id: TimerId)
    requires id in st.armed
    ensures id !in AfterTimer(st, id).armed && AfterTimer(st, id).armed.Keys <= st.armed.Keys
  {
    hide AfterRetry;
    if st.armed[id].kind.Retry? { RetryDisarms(st.(armed := st.armed - {id}), st.armed[id].kind.session, id); }
  }

  lemma FiredFields(st: State, id: TimerId, key: string)
    requires KindsMatch(st) && Enabled(st, Fire(id))
    ensures var after := Step(st, Fire(id));
            && id !in after.armed && after.armed.Keys <= st.armed.Keys
            && after.recoveryAttempts == st.recoveryAttempts && after.resuming == st.resuming
            && (st.armed[id].kind == Dedup(key) ==> key !in after.processingErrors)
  {
    TimerCounters(st, id);
    FireDisarms(st, id);
    hide KindsMatch, AfterRetry, AfterExpiry;
  }

  lemma ErrorFields(st: State, s: SessionId, t: ErrorType)
    requires ErrorKey(s, t) !in st.processingErrors &&
             Count(st.recoveryAttempts, ErrorKey(s, t)) < MAX_RECOVERY_ATTEMPTS
    ensures var key, after := ErrorKey(s, t), AfterSemanticError(st, s, t);
            && st.nextTimer in after.armed && after.armed[st.nextTimer].kind == Dedup(key)
            && Count(after.recoveryAttempts, key) == Count(st.recoveryAttempts, key) + 1
            && Count(after.resuming, key) == Count(st.resuming, key) + 1
  {
    hide ErrorKey;
  }

  lemma ResumeFields(st: State, key: string)
    requires Count(st.resuming, key) > 0
    ensures var after := AfterResume(st, key);
            && after.recoveryAttempts == st.recoveryAttempts && after.processingErrors == st.processingErrors
            && Count(after.resuming, key) == Count(st.resuming, key) - 1
  {
  }

  /** One more attempt: the error, its window, and the prompt. */
  lemma OneRound(st: State, s: SessionId, t: ErrorType) returns (events: seq<Event>, after: State)
    requires KindsMatch(st) && s in st.ids && ErrorKey(s, t) !in st.processingErrors
    requires Count(st.recoveryAttempts, ErrorKey(s, t)) < MAX_RECOVERY_ATTEMPTS
    ensures Leads(st, events, after, ErrorKey(s, t), 1) && ErrorKey(s, t) !in after.processingErrors
    ensures Count(after.recoveryAttempts, ErrorKey(s, t)) == Count(st.recoveryAttempts, ErrorKey(s, t)) + 1
    ensures Count(after.resuming, ErrorKey(s, t)) == Count(st.resuming, ErrorKey(s, t))
  {
    hide KindsMatch, Leads, AfterSemanticError, AfterResume, Count, ErrorKey;
    var key := ErrorKey(s, t);
    ErrorFields(st, s, t);
    LeadsOne(st, SemanticError(s, t), key);
    var noted := AfterSemanticError(st, s, t);
    LeadsIs(st, [SemanticError(s, t)], noted, key, 0);
    var wait, waited := WaitFor(noted, st.nextTimer, key);
    LeadsIs(noted, wait, waited, key, 0);
    LeadsOne(waited, Resume(key, true), key);
    ResumeFields(waited, key);
    after := AfterResume(waited, key);
    LeadsConcat(st, [SemanticError(s, t)], noted, wait, waited, key, 0, 0);
    LeadsConcat(st, [SemanticError(s, t)] + wait, waited, [Resume(key, true)], after, key, 0, 1);
    events := [SemanticError(s, t)] + wait + [Resume(key, true)];
  }

  lemma LeadsNowhere(st: State, key: string)
    requires KindsMatch(st)
    ensures Leads(st, [], st, key, 0)
  {
    hide KindsMatch;
  }

  lemma {:induction false} AllRounds(st: State, s: SessionId, t: ErrorType) returns (events: seq<Event>, after: State)
    requires KindsMatch(st) && s in st.ids && ErrorKey(s, t) !in st.processingErrors
    requires Count(st.recoveryAttempts, ErrorKey(s, t)) <= MAX_RECOVERY_ATTEMPTS
    ensures Leads(st, events, after, ErrorKey(s, t), MAX_RECOVERY_ATTEMPTS - Count(st.recoveryAttempts, ErrorKey(s, t)))
    ensures Count(after.resuming, ErrorKey(s, t)) == Count(st.resuming, ErrorKey(s, t))
    decreases MAX_RECOVERY_ATTEMPTS - Count(st.recoveryAttempts, ErrorKey(s, t))
  {
    hide KindsMatch, Leads, Count, ErrorKey;
    var key := ErrorKey(s, t);
    if Count(st.recoveryAttempts, key) == MAX_RECOVERY_ATTEMPTS {
      events, after := [], st;
      LeadsNowhere(st, key);
    } else {
      var first, mid := OneRound(st, s, t);
      LeadsIs(st, first, mid, key, 1);
      var rest, last := AllRounds(mid, s, t);
      LeadsConcat(st, first, mid, rest, last, key, 1, MAX_RECOVERY_ATTEMPTS - Count(mid.recoveryAttempts, key));
      events, after := first + rest, last;
    }
  }

  lemma {:induction false} AllUnderWay(st: State, key: string) returns (events: seq<Event>, after: State)
    requires KindsMatch(st)
    ensures Leads(st, events, after, key, Count(st.resuming, key))
    decreases Count(st.resuming, key)
  {
    hide KindsMatch, Leads, Count;
    if Count(st.resuming, key) == 0 {
      events, after := [], st;
      LeadsNowhere(st, key);
    } else {
      LeadsOne(st, Resume(key, true), key);
      ResumeFields(st, key);
      var mid := AfterResume(st, key);
      LeadsIs(st, [Resume(key, true)], mid, key, 1);
      var rest, last := AllUnderWay(mid, key);
      LeadsConcat(st, [Resume(key, true)], mid, rest, last, key, 1, Count(mid.resuming, key));
      events, after := [Resume(key, true)] + rest, last;
    }
  }

  /** The bound of ResumesAreBounded is reached: some continuation without a deletion sends as many prompts. */
  lemma MostResumes(st: State, s: SessionId, t: ErrorType) returns (events: seq<Event>, after: State)
    requires KindsMatch(st) && AttemptsBounded(st) && s in st.ids && ErrorKey(s, t) !in st.processingErrors
    ensures Reaches(st, events, after) && Dropped(events, ErrorKey(s, t)) == 0
    ensures Sent(events, ErrorKey(s, t))
            == MAX_RECOVERY_ATTEMPTS - Count(st.recoveryAttempts, ErrorKey(s, t)) + Count(st.resuming, ErrorKey(s, t))
  {
    hide KindsMatch, Leads, Count, ErrorKey, Reaches, Sent, Dropped;
    var key := ErrorKey(s, t);
    assert Count(st.recoveryAttempts, key) <= MAX_RECOVERY_ATTEMPTS;
    var rounds, mid := AllRounds(st, s, t);
    var left := MAX_RECOVERY_ATTEMPTS - Count(st.recoveryAttempts, key);
    LeadsIs(st, rounds, mid, key, left);
    var rest, last := AllUnderWay(mid, key);
    LeadsConcat(st, rounds, mid, rest, last, key, left, Count(mid.resuming, key));
    events, after := rounds + rest, last;
    LeadsIs(st, events, after, key, left + Count(mid.resuming, key));
  }

  lemma OwnKey(s: SessionId, t: ErrorType)
    ensures Owns(s, ErrorKey(s, t))
  {
    assert (s + ":" + TypeName(t))[..|s + ":"|] == s + ":";
  }

  lemma KeyIsDropped(st: State, s: SessionId, t: ErrorType)
    requires KindsMatch(st) && AttemptsBounded(st) && s in st.ids
    ensures var deleted := AfterDeletion(st, s);
            && KindsMatch(deleted) && AttemptsBounded(deleted) && deleted.ids == st.ids
            && ErrorKey(s, t) !in deleted.processingErrors
            && Count(deleted.recoveryAttempts, ErrorKey(s, t)) == 0 && deleted.resuming == st.resuming
  {
    OwnKey(s, t);
    DeletionFields(st, s, ErrorKey(s, t));
    hide KindsMatch, AfterDeletion, Owns, ErrorKey, AttemptsBounded;
    assert Step(st, Deleted(s)) == AfterDeletion(st, s);
    StepKeepsKinds(st, Deleted(s));
    StepKeepsAttempts(st, Deleted(s));
  }

  /** In every state a run reaches: after a deletion a key is resumed at most three times, whatever follows,
      exactly when no resume of it was under way at the deletion. */
  lemma ThreeIffNoneUnderWay(ids: set<SessionId>, past: seq<Event>, st: State, s: SessionId, t: ErrorType)
    requires s in ids && Reaches(Initial(ids), past, st)
    ensures Count(st.resuming, ErrorKey(s, t)) == 0 <==>
            forall events, after ::
              Reaches(AfterDeletion(st, s), events, after) && Dropped(events, ErrorKey(s, t)) == 0 ==>
                Sent(events, ErrorKey(s, t)) <= 3
  {
    hide Reaches, Sent, Dropped, KindsMatch, AttemptsBounded, AfterDeletion, Count, ErrorKey, Initial;
    var key, deleted := ErrorKey(s, t), AfterDeletion(st, s);
    ReachedIsMatched(ids, past, st);
    KeyIsDropped(st, s, t);
    if Count(st.resuming, key) == 0 {
      forall events, after | Reaches(deleted, events, after) && Dropped(events, key) == 0
        ensures Sent(events, key) <= MAX_RECOVERY_ATTEMPTS
      {
        ResumesAreBounded(deleted, events, after, key);
      }
    } else {
      var events, after := MostResumes(deleted, s, t);
    }
  }

  /** An error, a deletion while its resume is under way, and four prompts after it. */
  lemma FourResumes(ids: set<SessionId>, s: SessionId, t: ErrorType) returns (events: seq<Event>, after: State)
    requires s in ids
    ensures Reaches(Initial(ids), [SemanticError(s, t), Deleted(s)] + events, after)
    ensures Dropped(events, ErrorKey(s, t)) == 0 && Sent(events, ErrorKey(s, t)) == 4
  {
    hide Reaches, Sent, Dropped, KindsMatch, AttemptsBounded, AfterDeletion, AfterSemanticError, ErrorKey;
    var st := Initial(ids);
    var noted := AfterSemanticError(st, s, t);
    var deleted := AfterDeletion(noted, s);
    SemanticFields(st, s, t);
    ReachesOne(st, SemanticError(s, t));
    ReachedIsMatched(ids, [SemanticError(s, t)], noted);
    ReachesOne(noted, Deleted(s));
    KeyIsDropped(noted, s, t);
    events, after := MostResumes(deleted, s, t);
    ReachesConcat(st, [SemanticError(s, t)], noted, [Deleted(s)], deleted);
    ReachesConcat(st, [SemanticError(s, t)] + [Deleted(s)], deleted, events, after);
    assert [SemanticError(s, t)] + [Deleted(s)] == [SemanticError(s, t), Deleted(s)];
  }

  // ----- after a deletion -----

  /** No timer of the session with an earlier number than from is armed. */
  ghost predicate NoOldTimer(st: State, s: SessionId, from: TimerId) {
    st.nextTimer >= from && forall id :: id in st.armed && id < from ==> st.armed[id].kind != Retry(s)
  }

  /** Timers that are armed afterwards were armed before or are new. */
  ghost predicate OnlyNewArmed(st: State, after: State) {
    && st.nextTimer <= after.nextTimer
    && forall id :: id in after.armed && id < st.nextTimer ==> id in st.armed && after.armed[id] == st.armed[id]
  }

  lemma OnlyNewTransitive(a: State, b: State, c: State)
    requires OnlyNewArmed(a, b) && OnlyNewArmed(b, c)
    ensures OnlyNewArmed(a, c)
  {
  }

  lemma ClearArmsNothing(st: State, after: State)
    requires after.nextTimer == st.nextTimer && after.armed.Keys <= st.armed.Keys
    requires forall id :: id in after.armed ==> after.armed[id] == st.armed[id]
    ensures OnlyNewArmed(st, after)
  {
  }

  lemma SetArmsNew(st: State, kind: TimerKind, delay: nat)
    ensures OnlyNewArmed(st, SetTimer(st, kind, delay))
  {
  }

  lemma UnlockArms(st: State, key: string)
    ensures OnlyNewArmed(st, Unlocked(st, key))
  {
    ClearArmsNothing(st, Unlocked(st, key));
  }

  lemma SameArms(st: State, b: State, c: State)
    requires OnlyNewArmed(st, b) && c.armed == b.armed && c.nextTimer == b.nextTimer
    ensures OnlyNewArmed(st, c)
  {
  }

  lemma LockArms(st: State, key: string)
    ensures OnlyNewArmed(st, Locked(st, key))
  {
    hide OnlyNewArmed;
    var cleared := ClearExpiry(st.(processing := st.processing + {key}), key);
    ClearArmsNothing(st, cleared);
    SetArmsNew(cleared, Expiry(key), UPSTREAM_ATTEMPT_EXPIRY_MS);
    OnlyNewTransitive(st, cleared, SetTimer(cleared, Expiry(key), UPSTREAM_ATTEMPT_EXPIRY_MS));
    SameArms(st, SetTimer(cleared, Expiry(key), UPSTREAM_ATTEMPT_EXPIRY_MS), Locked(st, key));
  }

  lemma UpstreamArms(st: State, s: SessionId)
    ensures OnlyNewArmed(st, AfterUpstreamError(st, s))
  {
    hide Locked, Unlocked, UpstreamKey, Pending, OnlyNewArmed, SetTimer;
    var key := UpstreamKey(s);
    var locked := Locked(st, key);
    LockArms(st, key);
    if key in st.processing {
      ClearArmsNothing(st, st);
    } else if Count(st.scheduled, key) >= MAX_ATTEMPTS {
      UnlockArms(locked, key);
      OnlyNewTransitive(st, locked, Unlocked(locked, key));
    } else {
      var noted := locked.(scheduled := locked.scheduled[key := Count(st.scheduled, key) + 1]);
      SameArms(st, locked, noted);
      SetArmsNew(noted, Retry(s), INTERVAL_MS);
      OnlyNewTransitive(st, noted, SetTimer(noted, Retry(s), INTERVAL_MS));
      SameArms(st, SetTimer(noted, Retry(s), INTERVAL_MS), AfterUpstreamError(st, s));
    }
  }

  lemma RetryArms(st: State, s: SessionId, id: TimerId)
    ensures OnlyNewArmed(st, AfterRetry(st, s, id))
  {
    hide Unlocked, UpstreamKey, OnlyNewArmed, Pending;
    var gone := RemovePending(st, s, id);
    ClearArmsNothing(st, gone);
    UnlockArms(gone, UpstreamKey(s));
    OnlyNewTransitive(st, gone, Unlocked(gone, UpstreamKey(s)));
    SameArms(st, Unlocked(gone, UpstreamKey(s)), AfterRetry(st, s, id));
  }

  lemma ExpiryArms(st: State, key: string)
    ensures OnlyNewArmed(st, AfterExpiry(st, key)) && OnlyNewArmed(st, AfterDedup(st, key))
  {
  }

  lemma TimerArms(st: State, id: TimerId)
    requires id in st.armed
    ensures OnlyNewArmed(st, AfterTimer(st, id))
  {
    hide OnlyNewArmed, AfterRetry, AfterExpiry, AfterDedup;
    var fired := st.(armed := st.armed - {id});
    ClearArmsNothing(st, fired);
    OnlyNewTransitive(st, fired, AfterTimer(st, id)) by {
      match st.armed[id].kind
      case Retry(s) => RetryArms(fired, s, id);
      case Expiry(key) => ExpiryArms(fired, key);
      case Dedup(key) => ExpiryArms(fired, key);
    }
  }

  lemma SemanticArms(st: State, s: SessionId, t: ErrorType)
    ensures OnlyNewArmed(st, AfterSemanticError(st, s, t))
  {
    hide OnlyNewArmed, ErrorKey, SetTimer;
    var key := ErrorKey(s, t);
    var noted := st.(processingErrors := st.processingErrors + {key});
    ClearArmsNothing(st, st);
    ClearArmsNothing(st, noted);
    SetArmsNew(noted, Dedup(key), ERROR_KEY_EXPIRY_MS);
    OnlyNewTransitive(st, noted, SetTimer(noted, Dedup(key), ERROR_KEY_EXPIRY_MS));
    if key !in st.processingErrors {
      SameArms(st, SetTimer(noted, Dedup(key), ERROR_KEY_EXPIRY_MS), AfterSemanticError(st, s, t));
    }
  }

  lemma StepArms(st: State, e: Event)
    requires Enabled(st, e)
    ensures OnlyNewArmed(st, Step(st, e))
  {
    hide AfterUpstreamError, AfterTimer, AfterSemanticError, Owns, OwnedKeys, OwnedExpiries, OnlyNewArmed;
    match e
    case UpstreamError(s) => UpstreamArms(st, s);
    case Fire(id) => TimerArms(st, id);
    case SemanticError(s, t) => SemanticArms(st, s, t);
    case Tick(_) => ClearArmsNothing(st, Step(st, e));
    case Resume(_, _) => ClearArmsNothing(st, Step(st, e));
    case Deleted(_) => ClearArmsNothing(st, Step(st, e));
  }

  lemma NoOldTimerReturns(st: State, after: State, s: SessionId, from: TimerId)
    requires NoOldTimer(st, s, from) && OnlyNewArmed(st, after)
    ensures NoOldTimer(after, s, from)
  {
  }

  lemma StepKeepsNoOldTimer(st: State, e: Event, s: SessionId, from: TimerId)
    requires NoOldTimer(st, s, from) && Enabled(st, e)
    ensures NoOldTimer(Step(st, e), s, from)
  {
    hide Step, Enabled, NoOldTimer, OnlyNewArmed;
    StepArms(st, e);
    NoOldTimerReturns(st, Step(st, e), s, from);
  }

  /** Every armed retry timer is recorded under its session, whatever the session ids. */
  ghost predicate Recorded(st: State) {
    forall id :: id in st.armed && st.armed[id].kind.Retry? ==>
                   id in Pending(st, st.armed[id].kind.session)
  }

  lemma ScheduleRecords(st: State, s: SessionId)
    requires Recorded(st)
    ensures Recorded(SetTimer(st, Retry(s), INTERVAL_MS).(timers := st.timers[s := Pending(st, s) + {st.nextTimer}]))
  {
  }

  /** Nothing is recorded any less, and no retry timer is armed. */
  ghost predicate NoneAdded(st: State, after: State) {
    && after.timers == st.timers
    && forall id :: id in after.armed && after.armed[id].kind.Retry? ==>
                      id in st.armed && after.armed[id] == st.armed[id]
  }

  lemma NoneAddedRecords(st: State, after: State)
    requires Recorded(st) && NoneAdded(st, after)
    ensures Recorded(after)
  {
  }

  lemma LocksRecord(st: State, key: string)
    ensures NoneAdded(st, Locked(st, key)) && NoneAdded(st, Unlocked(st, key))
  {
  }

  lemma UpstreamRecords(st: State, s: SessionId)
    requires Recorded(st)
    ensures Recorded(AfterUpstreamError(st, s))
  {
    hide Recorded, Locked, Unlocked, UpstreamKey, Count;
    var key := UpstreamKey(s);
    var locked := Locked(st, key);
    LocksRecord(st, key);
    NoneAddedRecords(st, locked);
    if key !in st.processing {
      if Count(st.scheduled, key) >= MAX_ATTEMPTS {
        LocksRecord(locked, key);
        NoneAddedRecords(locked, Unlocked(locked, key));
      } else {
        var counted := locked.(scheduled := locked.scheduled[key := Count(st.scheduled, key) + 1]);
        SameRecords(locked, counted);
        ScheduleRecords(counted, s);
      }
    }
  }

  lemma SameRecords(st: State, after: State)
    requires Recorded(st) && after.timers == st.timers && after.armed == st.armed
    ensures Recorded(after)
  {
  }

  lemma SemanticRecords(st: State, s: SessionId, t: ErrorType)
    requires Recorded(st)
    ensures Recorded(AfterSemanticError(st, s, t))
  {
    hide ErrorKey, Count;
  }

  /** A retry that fires is dropped from the record and from the armed timers. */
  lemma RetryRecords(st: State, s: SessionId, id: TimerId)
    requires Recorded(st) && KindsMatch(st) && id in st.armed && st.armed[id].kind == Retry(s)
    ensures Recorded(AfterTimer(st, id))
  {
    hide UpstreamKey, Unlocked, Count, KindsMatch;
    var gone := RemovePending(st.(armed := st.armed - {id}), s, id);
    LocksRecord(gone, UpstreamKey(s));
    NoneAddedRecords(gone, Unlocked(gone, UpstreamKey(s)));
  }

  lemma FireRecords(st: State, id: TimerId)
    requires Recorded(st) && KindsMatch(st) && id in st.armed
    ensures Recorded(AfterTimer(st, id))
  {
    hide KindsMatch, AfterRetry;
    match st.armed[id].kind
    case Retry(s) => RetryRecords(st, s, id);
    case _ => NoneAddedRecords(st, AfterTimer(st, id));
  }

  lemma DeletionRecords(st: State, s: SessionId)
    requires Recorded(st)
    ensures Recorded(AfterDeletion(st, s))
  {
    hide Owns, OwnedKeys;
  }

  lemma StepRecords(st: State, e: Event)
    requires Recorded(st) && KindsMatch(st) && Enabled(st, e)
    ensures Recorded(Step(st, e))
  {
    hide KindsMatch, Recorded, AfterUpstreamError, AfterSemanticError, AfterDeletion, AfterTimer;
    match e
    case Tick(_) => SameRecords(st, Step(st, e));
    case Resume(_, _) => SameRecords(st, Step(st, e));
    case UpstreamError(s) => UpstreamRecords(st, s);
    case SemanticError(s, t) => SemanticRecords(st, s, t);
    case Fire(id) => FireRecords(st, id);
    case Deleted(s) => DeletionRecords(st, s);
  }

  lemma {:induction false} RunRecords(st: State, events: seq<Event>, after: State)
    requires Recorded(st) && KindsMatch(st) && Reaches(st, events, after)
    ensures Recorded(after)
    decreases |events|
  {
    hide KindsMatch, Recorded, Enabled, Step;
    if events != [] {
      StepKeepsKinds(st, events[0]);
      StepRecords(st, events[0]);
      RunRecords(Step(st, events[0]), events[1..], after);
    }
  }

  lemma ReachedIsRecorded(ids: set<SessionId>, past: seq<Event>, st: State)
    requires Reaches(Initial(ids), past, st)
    ensures Recorded(st)
  {
    hide Reaches;
    RunRecords(Initial(ids), past, st);
  }

  /** After a deletion no retry timer that was set before it ever fires for that session, in any continuation
      of any run. */
  lemma {:induction false} NothingFiresAfterDeletion(ids: set<SessionId>, past: seq<Event>, st: State, s: SessionId,
                                                     events: seq<Event>, after: State, id: TimerId)
    requires Reaches(Initial(ids), past, st) && Reaches(AfterDeletion(st, s), events, after)
    requires id < st.nextTimer && Enabled(after, Fire(id))
    ensures after.armed[id].kind != Retry(s)
  {
    hide Reaches, Initial, KindsMatch, AttemptsBounded;
    ReachedIsRecorded(ids, past, st);
    DeletionDisarms(st, s);
    StaysWithoutOldTimer(AfterDeletion(st, s), events, after, s, st.nextTimer);
  }

  lemma DeletionDisarms(st: State, s: SessionId)
    requires Recorded(st)
    ensures NoOldTimer(AfterDeletion(st, s), s, st.nextTimer)
  {
    hide Owns, OwnedKeys;
  }

  lemma {:induction false} StaysWithoutOldTimer(st: State, events: seq<Event>, after: State,
                                                s: SessionId, from: TimerId)
    requires NoOldTimer(st, s, from) && Reaches(st, events, after)
    ensures NoOldTimer(after, s, from)
    decreases |events|
  {
    hide NoOldTimer, Enabled, Step;
    if events != [] {
      StepKeepsNoOldTimer(st, events[0], s, from);
      StaysWithoutOldTimer(Step(st, events[0]), events[1..], after, s, from);
    }
  }

  // ----- dedup timers that outlive a deletion -----

  /** The event is an error that is remembered under the key, unless it already is. */
  predicate Notes(e: Event, key: string) {
    e.SemanticError? && ErrorKey(e.session, e.kind) == key
  }

  /** A run that drops the key in no way: neither a deletion nor a firing of one of its dedup timers. */
  ghost predicate Quiet(st: State, events: seq<Event>, key: string)
    decreases |events|
  {
    events == [] ||
    (&& Enabled(st, events[0]) && !Drops(events[0], key)
     && (events[0].Fire? ==> st.armed[events[0].id].kind != Dedup(key))
     && Quiet(Step(st, events[0]), events[1..], key))
  }

  /** A remembered key has a dedup timer numbered from or later. */
  ghost predicate Watched(st: State, key: string, from: TimerId) {
    && st.nextTimer >= from
    && (key in st.processingErrors ==> exists id :: id >= from && id in st.armed && st.armed[id].kind == Dedup(key))
  }

  lemma StepRemembers(st: State, e: Event, key: string)
    requires Enabled(st, e) && !Drops(e, key) && (e.Fire? ==> st.armed[e.id].kind != Dedup(key))
    ensures key in Step(st, e).processingErrors <==> key in st.processingErrors || Notes(e, key)
  {
    hide Locked, Unlocked, UpstreamKey, ErrorKey, Owns, OwnedKeys, OwnedExpiries, Pending, SetTimer, Count;
    match e
    case UpstreamError(s) => UpstreamRemembers(st, s);
    case Fire(id) => TimerRemembers(st, id, key);
    case Deleted(s) => DeletionFields(st, s, key);
    case SemanticError(s, t) => ErrorRemembers(st, s, t);
    case _ =>
  }

  lemma UpstreamRemembers(st: State, s: SessionId)
    ensures AfterUpstreamError(st, s).processingErrors == st.processingErrors
  {
    hide Locked, Unlocked, UpstreamKey, Pending, Count;
    LocksRemember(st, UpstreamKey(s));
    LocksRemember(Locked(st, UpstreamKey(s)), UpstreamKey(s));
  }

  lemma LocksRemember(st: State, key: string)
    ensures Locked(st, key).processingErrors == st.processingErrors
    ensures Unlocked(st, key).processingErrors == st.processingErrors
  {
  }

  lemma TimerRemembers(st: State, id: TimerId, key: string)
    requires id in st.armed && st.armed[id].kind != Dedup(key)
    ensures key in AfterTimer(st, id).processingErrors <==> key in st.processingErrors
  {
    hide UpstreamKey, Pending, Count;
  }

  lemma ErrorRemembers(st: State, s: SessionId, t: ErrorType)
    ensures var key, after := ErrorKey(s, t), AfterSemanticError(st, s, t);
            && after.processingErrors == st.processingErrors + {key}
            && (key !in st.processingErrors ==>
                  st.nextTimer in after.armed && after.armed[st.nextTimer].kind == Dedup(key))
  {
    hide ErrorKey;
  }

  lemma StepKeepsWatched(st: State, e: Event, key: string, from: TimerId)
    requires KindsMatch(st) && Enabled(st, e) && Watched(st, key, from)
    requires e.UpstreamError? || e.SemanticError? || e.Deleted? ==> e.session in st.ids
    requires !Drops(e, key) && (e.Fire? ==> st.armed[e.id].kind != Dedup(key))
    ensures Watched(Step(st, e), key, from)
  {
    hide KindsMatch, ErrorKey, Drops, AfterUpstreamError, AfterDeletion, AfterTimer, AfterSemanticError, AfterResume;
    StepArms(st, e);
    StepRemembers(st, e, key);
    StepKeepsKinds(st, e);
    if key in st.processingErrors {
      var id :| id >= from && id in st.armed && st.armed[id].kind == Dedup(key);
    } else if e.SemanticError? {
      ErrorRemembers(st, e.session, e.kind);
    }
  }

  lemma {:induction false} QuietRun(st: State, events: seq<Event>, after: State, key: string, from: TimerId)
    requires KindsMatch(st) && Reaches(st, events, after) && Quiet(st, events, key) && Watched(st, key, from)
    ensures Watched(after, key, from)
    ensures key in after.processingErrors <==>
            key in st.processingErrors || exists i :: 0 <= i < |events| && Notes(events[i], key)
    decreases |events|
  {
    hide KindsMatch, Enabled, Step, Watched, Notes, Drops;
    if events != [] {
      var rest := events[1..];
      StepKeepsKinds(st, events[0]);
      StepRemembers(st, events[0], key);
      StepKeepsWatched(st, events[0], key, from);
      QuietRun(Step(st, events[0]), rest, after, key, from);
      assert forall i :: 0 <= i < |rest| ==> rest[i] == events[i + 1];
      assert forall i :: 0 < i < |events| ==> events[i] == rest[i - 1];
    }
  }

  /** A deletion leaves the dedup timers of the session armed. The first one of a key to fire afterwards drops
      the key exactly when an error of that key was noted meanwhile, although the timer set for that error is
      still armed and due no earlier; otherwise it drops nothing. */
  lemma OldDedupCutsShort(ids: set<SessionId>, past: seq<Event>, st: State, s: SessionId, t: ErrorType,
                          events: seq<Event>, after: State, id: TimerId)
    requires s in ids && Reaches(Initial(ids), past, st)
    requires Reaches(AfterDeletion(st, s), events, after) && Quiet(AfterDeletion(st, s), events, ErrorKey(s, t))
    requires id < st.nextTimer && Enabled(after, Fire(id)) && after.armed[id].kind == Dedup(ErrorKey(s, t))
    ensures var key, fired := ErrorKey(s, t), Step(after, Fire(id));
            && fired.processingErrors == after.processingErrors - {key}
            && (key in after.processingErrors <==> exists i :: 0 <= i < |events| && Notes(events[i], key))
            && (key in after.processingErrors ==>
                  exists j :: && st.nextTimer <= j && j in fired.armed && fired.armed[j].kind == Dedup(key)
                              && after.armed[id].due <= fired.armed[j].due)
  {
    hide KindsMatch, AttemptsBounded, AfterDeletion, Reaches, Quiet, ErrorKey, Notes, AfterTimer;
    var key, deleted := ErrorKey(s, t), AfterDeletion(st, s);
    ReachedIsMatched(ids, past, st);
    KeyIsDropped(st, s, t);
    DeletionArms(st, s);
    QuietRun(deleted, events, after, key, st.nextTimer);
    DedupFires(after, id, key);
    if key in after.processingErrors {
      var j :| j >= st.nextTimer && j in after.armed && after.armed[j].kind == Dedup(key);
      assert j in Step(after, Fire(id)).armed;
    }
  }

  lemma DeletionArms(st: State, s: SessionId)
    ensures AfterDeletion(st, s).nextTimer == st.nextTimer
  {
  }

  lemma DedupFires(st: State, id: TimerId, key: string)
    requires id in st.armed && st.armed[id].kind == Dedup(key)
    ensures AfterTimer(st, id) == st.(armed := st.armed - {id}, processingErrors := st.processingErrors - {key})
  {
  }

  // ----- keys, windows and due times, told from the events -----

  /** No two sessions or error types share a key. */
  lemma ErrorKeysDiffer(s: SessionId, t: ErrorType, s': SessionId, t': ErrorType)
    ensures ErrorKey(s, t) == ErrorKey(s', t') ==> s == s' && t == t'
    ensures ErrorKey(s, t) != UpstreamKey(s')
  {
    TypeNames(t, t');
    assert ':' !in "upstream_error" && TypeName(t) != "upstream_error";
    hide TypeName;
    if ErrorKey(s, t) == ErrorKey(s', t') { SameKey(s, TypeName(t), s', TypeName(t')); }
    if ErrorKey(s, t) == UpstreamKey(s') { SameKey(s, TypeName(t), s', "upstream_error"); }
  }

  lemma TypeNames(t: ErrorType, t': ErrorType)
    ensures ':' !in TypeName(t) && ':' !in TypeName(t') && TypeName(t) != "upstream_error"
    ensures TypeName(t) == TypeName(t') ==> t == t'
  {
    assert TypeName(t) == TypeName(t') ==> |TypeName(t)| == |TypeName(t')|;
    assert TypeName(t)[0] != "upstream_error"[0];
  }

  lemma NoLonger(s: SessionId, x: string, s': SessionId, x': string)
    requires ':' !in x && s + ":" + x == s' + ":" + x'
    ensures |s'| <= |s|
  {
    var key := s + ":" + x;
    assert key[|s'|] == ':' by { assert (s' + ":" + x')[|s'|] == ':'; }
    assert forall i :: |s| < i < |key| ==> key[i] == x[i - |s| - 1];
  }

  lemma SameKey(s: SessionId, x: string, s': SessionId, x': string)
    requires ':' !in x && ':' !in x' && s + ":" + x == s' + ":" + x'
    ensures s == s' && x == x'
  {
    NoLonger(s, x, s', x');
    NoLonger(s', x', s, x);
    var key := s + ":" + x;
    assert key[..|s|] == s && key[|s| + 1..] == x;
    assert (s' + ":" + x')[..|s'|] == s' && (s' + ":" + x')[|s'| + 1..] == x';
  }

  /** An error of one session and type leaves the attempts, resumes and window of every other alone. */
  lemma OtherErrorsStay(st: State, s: SessionId, t: ErrorType, s': SessionId, t': ErrorType)
    requires (s, t) != (s', t')
    ensures var key, after := ErrorKey(s', t'), Step(st, SemanticError(s, t));
            && Count(after.recoveryAttempts, key) == Count(st.recoveryAttempts, key)
            && Count(after.resuming, key) == Count(st.resuming, key)
            && (key in after.processingErrors <==> key in st.processingErrors)
  {
    ErrorKeysDiffer(s, t, s', t');
    SemanticFields(st, s, t);
    ErrorRemembers(st, s, t);
    hide ErrorKey, AfterSemanticError;
  }

  /** An upstream error schedules a retry exactly when none is pending for the session and fewer than maxAttempts
      prompts were sent since it was last deleted. */
  lemma ErrorSchedulesIff(st: State, s: SessionId)
    requires Invariant(st) && s in st.ids
    ensures |Pending(Step(st, UpstreamError(s)), s)| > |Pending(st, s)|
            <==> Pending(st, s) == {} && Count(st.prompted, s) < 20
  {
    hide WheelOk, AfterUpstreamError, Owns, UpstreamKey, SessionOf, Separate, Locked, Unlocked;
    UpstreamWheel(st, s);
    OwnedLocks(WheelOf(st), s);
    PendingIsArmed(st, s);
    assert RetryCounted(st, s);
    PendingOfWheel(st, AfterUpstreamError(st, s), s);
  }

  /** What the timers tell of the pending retries. */
  lemma PendingOfWheel(st: State, after: State, s: SessionId)
    ensures s !in st.timers ==> Pending(st, s) == {}
    ensures WheelOf(after) == WheelOf(st) ==> Pending(after, s) == Pending(st, s)
    ensures WheelOf(after) == WheelOf(st).(next := st.nextTimer + 1) ==> Pending(after, s) == Pending(st, s)
    ensures WheelOf(after) == Started(WheelOf(st), s, st.now) ==> Pending(after, s) == {st.nextTimer + 1}
  {
    hide UpstreamKey;
  }

  function Clock(events: seq<Event>): nat {
    if events == [] then 0
    else if events[|events| - 1].Tick? then events[|events| - 1].to
    else Clock(events[..|events| - 1])
  }

  /** The timer is one that this event sets at this time, and when it is due. */
  predicate SetBy(timer: Timer, e: Event, at: nat) {
    match timer.kind
    case Retry(s) => e == UpstreamError(s) && timer.due == at + INTERVAL_MS
    case Expiry(key) =>
      e.UpstreamError? && key == UpstreamKey(e.session) && timer.due == at + UPSTREAM_ATTEMPT_EXPIRY_MS
    case Dedup(key) => Notes(e, key) && timer.due == at + ERROR_KEY_EXPIRY_MS
  }

  ghost predicate ArmedBefore(st: State, after: State, id: TimerId)
    requires id in after.armed
  {
    id in st.armed && after.armed[id] == st.armed[id]
  }

  lemma UnlockSets(st: State, key: string, id: TimerId)
    ensures id in Unlocked(st, key).armed ==> ArmedBefore(st, Unlocked(st, key), id)
  {
  }

  lemma LockSets(st: State, key: string, id: TimerId)
    ensures id in Locked(st, key).armed ==>
              ArmedBefore(st, Locked(st, key), id)
              || Locked(st, key).armed[id] == Timer(Expiry(key), st.now + UPSTREAM_ATTEMPT_EXPIRY_MS)
    ensures Locked(st, key).now == st.now
  {
  }

  lemma UpstreamSets(st: State, s: SessionId, id: TimerId)
    requires id in AfterUpstreamError(st, s).armed
    ensures ArmedBefore(st, AfterUpstreamError(st, s), id)
            || SetBy(AfterUpstreamError(st, s).armed[id], UpstreamError(s), st.now)
  {
    hide Locked, Unlocked, UpstreamKey, Count, Pending;
    var key := UpstreamKey(s);
    LockSets(st, key, id);
    UnlockSets(Locked(st, key), key, id);
  }

  lemma RetrySets(st: State, s: SessionId, id: TimerId, j: TimerId)
    ensures j in AfterRetry(st, s, id).armed ==> ArmedBefore(st, AfterRetry(st, s, id), j)
    ensures AfterRetry(st, s, id).now == st.now
  {
    hide Unlocked, UpstreamKey, Count, Pending;
    UnlockSets(RemovePending(st, s, id), UpstreamKey(s), j);
    UnlockTime(RemovePending(st, s, id), UpstreamKey(s));
  }

  lemma UnlockTime(st: State, key: string)
    ensures Unlocked(st, key).now == st.now
  {
  }

  lemma TimerSets(st: State, id: TimerId, j: TimerId)
    requires id in st.armed
    ensures j in AfterTimer(st, id).armed ==> ArmedBefore(st, AfterTimer(st, id), j)
    ensures AfterTimer(st, id).now == st.now
  {
    hide AfterRetry;
    match st.armed[id].kind
    case Retry(s) => RetrySets(st.(armed := st.armed - {id}), s, id, j);
    case _ =>
  }

  lemma UpstreamTime(st: State, s: SessionId)
    ensures AfterUpstreamError(st, s).now == st.now
  {
    hide Locked, Unlocked, UpstreamKey, Count, Pending;
    LockSets(st, UpstreamKey(s), 0);
    UnlockTime(Locked(st, UpstreamKey(s)), UpstreamKey(s));
  }

  lemma StepSets(st: State, e: Event, id: TimerId)
    requires Enabled(st, e) && id in Step(st, e).armed
    ensures ArmedBefore(st, Step(st, e), id) || SetBy(Step(st, e).armed[id], e, st.now)
    ensures SetBy(Step(st, e).armed[id], e, st.now) && e.SemanticError? && !ArmedBefore(st, Step(st, e), id) ==>
              ErrorKey(e.session, e.kind) !in st.processingErrors && id == st.nextTimer
  {
    hide AfterUpstreamError, AfterTimer, ErrorKey, UpstreamKey, Owns, OwnedKeys, Count;
    match e
    case UpstreamError(s) => UpstreamSets(st, s, id);
    case Fire(j) => TimerSets(st, j, id);
    case _ =>
  }

  lemma {:induction false} ReachesLast(st: State, events: seq<Event>, after: State) returns (mid: State)
    requires events != [] && Reaches(st, events, after)
    ensures var before, e := events[..|events| - 1], events[|events| - 1];
            && Reaches(st, before, mid) && Takes(mid, e, after)
    decreases |events|
  {
    hide Enabled, Step;
    var e, rest := events[0], events[1..];
    if rest == [] {
      mid := st;
      assert events[..0] == [];
    } else {
      mid := ReachesLast(Step(st, e), rest, after);
      var before := events[..|events| - 1];
      assert before[1..] == rest[..|rest| - 1] && before[0] == e;
      assert Reaches(st, before, mid);
    }
  }

  lemma StepTime(st: State, e: Event)
    requires Enabled(st, e)
    ensures Step(st, e).now == if e.Tick? then e.to else st.now
    ensures st.now <= Step(st, e).now
  {
    hide AfterUpstreamError, AfterTimer, ErrorKey, Owns, OwnedKeys, OwnedExpiries, Count, Kept, KeptKeys;
    match e
    case UpstreamError(s) => UpstreamTime(st, s);
    case Fire(id) => TimerSets(st, id, id);
    case _ =>
  }

  /** In every run: a timer that is armed was set by an error of its session or key, and is due the configured time
      after that error: 30 s for a retry, 60 s for a lock, 10 s for the window of an error. */
  lemma {:induction false} TimersAreDue(ids: set<SessionId>, events: seq<Event>, st: State, id: TimerId)
    requires Reaches(Initial(ids), events, st)
    ensures st.now == Clock(events)
    ensures id in st.armed ==> exists i :: 0 <= i < |events| && SetBy(st.armed[id], events[i], Clock(events[..i]))
    decreases |events|
  {
    if events == [] {
      assert st == Initial(ids);
    } else {
      var last := |events| - 1;
      var before, e := events[..last], events[last];
      var mid := ReachesLast(Initial(ids), events, st);
      TimersAreDue(ids, before, mid, id);
      StepTime(mid, e);
      hide Reaches, Step, Enabled, SetBy;
      if id in st.armed {
        StepSets(mid, e, id);
        if ArmedBefore(mid, st, id) {
          var i :| 0 <= i < |before| && SetBy(mid.armed[id], before[i], Clock(before[..i]));
          assert before[i] == events[i] && before[..i] == events[..i];
        }
      }
    }
  }

  /** A timer that fires does so no sooner than the configured time after the error that set it. */
  lemma FiresOnTime(ids: set<SessionId>, events: seq<Event>, st: State, id: TimerId)
    requires Reaches(Initial(ids), events, st) && Enabled(st, Fire(id))
    ensures exists i :: && 0 <= i < |events| && SetBy(st.armed[id], events[i], Clock(events[..i]))
                        && Clock(events) >= st.armed[id].due
                        && st.armed[id].due == Clock(events[..i]) + match st.armed[id].kind
                                                                    case Retry(_) => 30000
                                                                    case Expiry(_) => 60000
                                                                    case Dedup(_) => 10000
  {
    TimersAreDue(ids, events, st, id);
    hide Reaches, Clock, UpstreamKey, Notes;
  }

  /** Without a deletion of the key: it is remembered exactly while its one dedup timer is armed; and, once it was
      noted at a time from, it is remembered until the window is over. */
  ghost predicate Windowed(st: State, key: string, from: Noting) {
    && (forall id, j ::
          id in st.armed && j in st.armed && st.armed[id].kind == st.armed[j].kind == Dedup(key) ==> id == j)
    && (forall id :: id in st.armed && st.armed[id].kind == Dedup(key) ==> key in st.processingErrors)
    && (from.Since? ==>
          && (forall id :: id in st.armed && st.armed[id].kind == Dedup(key) ==>
                             st.armed[id].due >= from.at + ERROR_KEY_EXPIRY_MS)
          && (key !in st.processingErrors ==> st.now >= from.at + ERROR_KEY_EXPIRY_MS))
  }

  datatype Noting = Ever | Since(at: nat)

  lemma FiringKeepsWindow(st: State, id: TimerId, key: string, from: Noting)
    requires Windowed(st, key, from) && Enabled(st, Fire(id)) && st.armed[id].kind == Dedup(key)
    ensures Windowed(Step(st, Fire(id)), key, from)
  {
    DedupFires(st, id, key);
    hide AfterTimer;
  }

  /** A step that is no firing of the key's timer sets one only for an error that is taken up. */
  lemma WindowStep(st: State, after: State, noted: bool, key: string, from: Noting)
    requires Windowed(st, key, from) && st.now <= after.now && (from.Since? ==> from.at <= st.now)
    requires key in after.processingErrors <==> key in st.processingErrors || noted
    requires forall id :: id in after.armed && after.armed[id].kind == Dedup(key) ==>
               ArmedBefore(st, after, id)
               || (noted && key !in st.processingErrors && id == st.nextTimer
                   && after.armed[id].due == st.now + ERROR_KEY_EXPIRY_MS)
    ensures Windowed(after, key, from)
    ensures noted && key !in st.processingErrors ==> Windowed(after, key, Since(st.now))
  {
  }

  lemma NewDedup(st: State, e: Event, key: string, id: TimerId)
    requires Enabled(st, e) && id in Step(st, e).armed && Step(st, e).armed[id].kind == Dedup(key)
    ensures ArmedBefore(st, Step(st, e), id)
            || (Notes(e, key) && key !in st.processingErrors && id == st.nextTimer
                && Step(st, e).armed[id].due == st.now + ERROR_KEY_EXPIRY_MS)
  {
    hide Step, Enabled;
    StepSets(st, e, id);
  }

  lemma StepKeepsWindow(st: State, e: Event, key: string, from: Noting)
    requires Windowed(st, key, from) && Enabled(st, e) && !Drops(e, key)
    requires from.Since? ==> from.at <= st.now
    ensures Windowed(Step(st, e), key, from)
    ensures Notes(e, key) && key !in st.processingErrors ==> Windowed(Step(st, e), key, Since(st.now))
  {
    if e.Fire? && st.armed[e.id].kind == Dedup(key) {
      FiringKeepsWindow(st, e.id, key, from);
    } else {
      var after := Step(st, e);
      StepTime(st, e);
      StepRemembers(st, e, key);
      hide Step, Enabled, Drops, Notes, Windowed, ArmedBefore;
      forall id | id in after.armed && after.armed[id].kind == Dedup(key)
        ensures ArmedBefore(st, after, id)
                || (Notes(e, key) && key !in st.processingErrors && id == st.nextTimer
                    && after.armed[id].due == st.now + ERROR_KEY_EXPIRY_MS)
      {
        NewDedup(st, e, key, id);
      }
      WindowStep(st, after, Notes(e, key), key, from);
    }
  }

  lemma {:induction false} WindowHolds(st: State, events: seq<Event>, after: State, key: string, from: Noting)
    requires Windowed(st, key, from) && Reaches(st, events, after) && Dropped(events, key) == 0
    requires from.Since? ==> from.at <= st.now
    ensures Windowed(after, key, from)
    decreases |events|
  {
    hide Windowed, Enabled, Step, Drops;
    if events != [] {
      StepKeepsWindow(st, events[0], key, from);
      StepTime(st, events[0]);
      WindowHolds(Step(st, events[0]), events[1..], after, key, from);
    }
  }

  lemma StartsWindowed(ids: set<SessionId>, key: string)
    ensures Windowed(Initial(ids), key, Ever)
  {
  }

  /** Without a deletion in between, no error of the same session and type is taken up again within 10 s. */
  lemma {:induction false} DedupWindow(ids: set<SessionId>, past: seq<Event>, st: State, e: Event, key: string,
                                       events: seq<Event>, after: State)
    requires Reaches(Initial(ids), past, st) && Enabled(st, e) && Notes(e, key) && key !in st.processingErrors
    requires Reaches(Step(st, e), events, after) && key !in after.processingErrors
    requires Dropped(past, key) == 0 && Dropped(events, key) == 0
    ensures after.now >= st.now + 10000
  {
    StartsWindowed(ids, key);
    WindowHolds(Initial(ids), past, st, key, Ever);
    assert !Drops(e, key);
    StepKeepsWindow(st, e, key, Ever);
    StepTime(st, e);
    hide Step, Enabled, Reaches, Dropped;
    WindowHolds(Step(st, e), events, after, key, Since(st.now));
  }

  /** An expiry that fires releases its lock. */
  lemma ExpiryReleases(st: State, id: TimerId)
    requires Enabled(st, Fire(id)) && st.armed[id].kind.Expiry?
    ensures var key, after := st.armed[id].kind.key, Step(st, Fire(id));
            && after.processing == st.processing - {key} && after.expiryTimers == st.expiryTimers - {key}
            && after.armed == st.armed - {id}
  {
  }

  // ----- session ids that begin with another id and a colon -----

  /** The run that goes wrong: an error of t, the deletion of s, and a second error of t. */
  function TwoTimersRun(s: SessionId, t: SessionId): seq<Event> {
    [UpstreamError(t), Deleted(s), UpstreamError(t)]
  }

  /** When t begins with s and a colon, deleting s releases the lock of t but not its timer, and the
      next error of t arms a second one. */
  lemma DeletionReleasesOther(ids: set<SessionId>, s: SessionId, t: SessionId) returns (after: State)
    requires s in ids && t in ids && Owns(s, t)
    ensures Reaches(Initial(ids), TwoTimersRun(s, t), after)
    ensures |Pending(after, t)| == 2
  {
    hide AfterUpstreamError, AfterDeletion, UpstreamKey, Owns, Reaches, Pending;
    var key := UpstreamKey(t);
    assert Owns(s, key) && s != t by { PrefixOwnsKey(s, t); }
    var st0 := Initial(ids);
    var st1, st2 := AfterUpstreamError(st0, t), AfterDeletion(AfterUpstreamError(st0, t), s);
    FirstError(st0, t);
    OtherDeleted(st1, s, t);
    FirstError(st2, t);
    after := AfterUpstreamError(st2, t);
    ReachesThree(st0, UpstreamError(t), st1, Deleted(s), st2, UpstreamError(t), after);
    assert Pending(st0, t) == {} by { NothingPending(ids, t); }
    assert Pending(after, t) == {} + {1} + {3};
  }

  lemma NothingPending(ids: set<SessionId>, t: SessionId)
    ensures Pending(Initial(ids), t) == {}
  {
  }

  lemma PrefixOwnsKey(s: SessionId, t: SessionId)
    requires Owns(s, t)
    ensures s != t && Owns(s, UpstreamKey(t))
  {
    assert ':' !in "upstream_error";
    OwnsIff(s, t, "upstream_error");
    assert |s + ":"| <= |t|;
  }

  ghost predicate Takes(st: State, e: Event, after: State) {
    && Enabled(st, e) && after == Step(st, e)
    && (e.UpstreamError? || e.SemanticError? || e.Deleted? ==> e.session in st.ids)
  }

  lemma ReachesThree(st0: State, e1: Event, st1: State, e2: Event, st2: State, e3: Event, st3: State)
    requires Takes(st0, e1, st1) && Takes(st1, e2, st2) && Takes(st2, e3, st3)
    ensures Reaches(st0, [e1, e2, e3], st3)
  {
    hide Enabled, Step;
    assert [e3][1..] == [] && [e2, e3][1..] == [e3] && [e1, e2, e3][1..] == [e2, e3];
    assert Reaches(st2, [e3], st3);
    assert Reaches(st1, [e2, e3], st3);
  }

  lemma FirstError(st: State, t: SessionId)
    requires UpstreamKey(t) !in st.processing && UpstreamKey(t) !in st.expiryTimers
    requires Count(st.scheduled, UpstreamKey(t)) == 0 && st.processing == st.expiryTimers.Keys
    ensures var after := AfterUpstreamError(st, t);
            && Pending(after, t) == Pending(st, t) + {st.nextTimer + 1} && after.nextTimer == st.nextTimer + 2
            && after.ids == st.ids && after.processing == after.expiryTimers.Keys
  {
    hide UpstreamKey;
  }

  lemma OtherDeleted(st: State, s: SessionId, t: SessionId)
    requires s != t && Owns(s, UpstreamKey(t)) && st.expiryTimers.Keys == st.processing
    ensures var after := AfterDeletion(st, s);
            && Pending(after, t) == Pending(st, t) && after.nextTimer == st.nextTimer && after.ids == st.ids
            && UpstreamKey(t) !in after.processing && UpstreamKey(t) !in after.expiryTimers
            && Count(after.scheduled, UpstreamKey(t)) == 0 && after.processing == after.expiryTimers.Keys
  {
    hide UpstreamKey, Owns, OwnedExpiries;
  }

  /** Sessions never have two retry timers in any run exactly when no session id begins with another
      one and a colon. */
  lemma OneTimerIffSeparate(ids: set<SessionId>)
    ensures Separate(ids) <==>
            forall events, after, s :: s in ids && Reaches(Initial(ids), events, after) ==> |Pending(after, s)| <= 1
  {
    hide Reaches, Pending, Owns;
    if Separate(ids) {
      forall events, after, s | s in ids && Reaches(Initial(ids), events, after) ensures |Pending(after, s)| <= 1 {
        RetriesAreBounded(ids, events, after, s);
      }
    } else {
      var s, t :| s in ids && t in ids && Owns(s, t);
      var after := DeletionReleasesOther(ids, s, t);
    }
  }
}
