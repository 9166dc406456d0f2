/** The fetch tracker: per-session call counts and result caches, over any interleaving of
    sessions. The key of a call is computed elsewhere; None is an untracked or malformed call. */
module FetchTracker {
  import opened Wrappers
  import opened Str
  import Lru

  datatype Config = Config(warnThreshold: nat, maxCallsPerResource: nat, cacheTtlMs: nat, cacheMaxEntries: nat)

  datatype Entry = Entry(content: string, timestamp: nat)

  datatype Session = Session(counts: map<string, nat>, cache: Lru.Cache<Entry>)

  const NEW_SESSION := Session(map[], Lru.Empty())

  datatype Outcome = Ignored | Blocked(count: nat) | Served(entry: Entry, count: nat) | Fresh

  // ----- one call -----

  function CountOf(s: Session, key: string): nat {
    if key in s.counts then s.counts[key] else 0
  }

  predicate HasOutput(output: Option<string>) {
    output.Some? && output.value != ""
  }

  function Call(s: Session, key: string, output: Option<string>, now: nat, cfg: Config): (Session, Outcome) {
    var count := CountOf(s, key) + 1;
    var counted := s.(counts := s.counts[key := count]);
    if count > cfg.maxCallsPerResource then (counted, Blocked(count))
    else
      var cached := Lru.Lookup(s.cache, key);
      var touched := Lru.AfterGet(s.cache, key);
      if count > 1 && cached.Some? && now - cached.value.timestamp <= cfg.cacheTtlMs then
        (counted.(cache := touched), Served(cached.value, count))
      else if HasOutput(output) then
        (counted.(cache := Lru.AfterSet(touched, key, Entry(output.value, now), cfg.cacheMaxEntries)), Fresh)
      else (counted.(cache := touched), Fresh)
  }

  function BlockedText(count: nat): string {
    "<fetch-blocked>This resource has been fetched " + NatToString(count)
    + " times this session. The content is already available in the conversation above."
    + " Use the information already available instead of re-fetching.</fetch-blocked>"
  }

  function CachedOpening(count: nat): string {
    "<from-cache>Returning cached result (fetched " + NatToString(count) + " time"
    + (if count != 1 then "s" else "") + " previously).</from-cache>\n\n"
  }

  function FetchWarning(count: nat): string {
    "\n\n<fetch-warning>You have fetched this resource " + NatToString(count)
    + " times. The content is cached and identical."
    + " Consider using the information you already have instead of re-fetching.</fetch-warning>"
  }

  function CachedText(entry: Entry, count: nat, cfg: Config): string {
    CachedOpening(count) + entry.content + if count >= cfg.warnThreshold then FetchWarning(count) else ""
  }

  lemma NatsDiffer(a: nat, b: nat)
    ensures NatToString(a) == NatToString(b) ==> a == b
  {
    ValueOfNat(a, 10);
    ValueOfNat(b, 10);
  }

  lemma BlockedTellsCount(a: nat, b: nat)
    ensures BlockedText(a) == BlockedText(b) ==> a == b
  {
    NatsDiffer(a, b);
    hide NatToString;
    var front, back := "<fetch-blocked>This resource has been fetched ",
                       " times this session. The content is already available in the conversation above."
                       + " Use the information already available instead of re-fetching.</fetch-blocked>";
    assert BlockedText(a) == front + NatToString(a) + back && BlockedText(b) == front + NatToString(b) + back;
    Between(front, NatToString(a), NatToString(b), back);
  }

  lemma OpeningIs(a: nat)
    requires a > 1
    ensures CachedOpening(a)
            == "<from-cache>Returning cached result (fetched " + NatToString(a)
               + " times previously).</from-cache>\n\n"
  {
    hide NatToString;
    assert " time" + "s" + " previously).</from-cache>\n\n" == " times previously).</from-cache>\n\n";
    var front := "<from-cache>Returning cached result (fetched " + NatToString(a);
    assert front + " time" + "s" + " previously).</from-cache>\n\n"
           == front + (" time" + "s" + " previously).</from-cache>\n\n");
  }

  lemma OpeningTellsCount(a: nat, b: nat)
    requires a > 1 && b > 1
    ensures CachedOpening(a) == CachedOpening(b) ==> a == b
  {
    NatsDiffer(a, b);
    OpeningIs(a);
    OpeningIs(b);
    hide NatToString, CachedOpening;
    var front, back := "<from-cache>Returning cached result (fetched ", " times previously).</from-cache>\n\n";
    Between(front, NatToString(a), NatToString(b), back);
  }

  lemma WarningTellsCount(a: nat, b: nat)
    ensures FetchWarning(a) == FetchWarning(b) ==> a == b
  {
    NatsDiffer(a, b);
    hide NatToString;
    var front, back := "\n\n<fetch-warning>You have fetched this resource ",
                       " times. The content is cached and identical."
                       + " Consider using the information you already have instead of re-fetching.</fetch-warning>";
    assert FetchWarning(a) == front + NatToString(a) + back && FetchWarning(b) == front + NatToString(b) + back;
    Between(front, NatToString(a), NatToString(b), back);
  }

  /** Each text that is added to an output tells the count. */
  lemma TextsTellCount(a: nat, b: nat)
    ensures BlockedText(a) == BlockedText(b) ==> a == b
    ensures a > 1 && b > 1 && CachedOpening(a) == CachedOpening(b) ==> a == b
    ensures FetchWarning(a) == FetchWarning(b) ==> a == b
  {
    BlockedTellsCount(a, b);
    if a > 1 && b > 1 { OpeningTellsCount(a, b); }
    WarningTellsCount(a, b);
    hide *;
  }

  lemma Between(front: string, x: string, y: string, back: string)
    ensures front + x + back == front + y + back ==> x == y
  {
    if front + x + back == front + y + back {
      assert |x| == |y|;
      assert (front + x + back)[|front|..|front| + |x|] == x && (front + y + back)[|front|..|front| + |y|] == y;
    }
  }

  function OutputAfter(outcome: Outcome, output: Option<string>, cfg: Config): Option<string> {
    match outcome
    case Ignored => output
    case Blocked(count) => Some(BlockedText(count))
    case Served(entry, count) => Some(CachedText(entry, count, cfg))
    case Fresh => output
  }

  // ----- the module-level state and its handlers -----

  class Tracker {
    var sessionCallCounts: map<string, map<string, nat>>
    var sessionCaches: map<string, Lru.Cache<Entry>>
    const cfg: Config

    constructor (cfg: Config)
      ensures this.cfg == cfg && forall s :: View(s) == NEW_SESSION
    {
      sessionCallCounts := map[];
      sessionCaches := map[];
      this.cfg := cfg;
    }

    function View(sessionID: string): Session
      reads this
    {
      Session(if sessionID in sessionCallCounts then sessionCallCounts[sessionID] else map[],
              if sessionID in sessionCaches then sessionCaches[sessionID] else Lru.Empty())
    }

    method ClearSession(sessionID: string)
      modifies this
      ensures View(sessionID) == NEW_SESSION
      ensures forall s :: s != sessionID ==> View(s) == old(View(s))
    {
      sessionCallCounts := sessionCallCounts - {sessionID};
      sessionCaches := sessionCaches - {sessionID};
    }

    method IncrementCount(sessionID: string, key: string) returns (next: nat)
      modifies this`sessionCallCounts
      ensures next == CountOf(old(View(sessionID)), key) + 1
      ensures View(sessionID) == old(View(sessionID)).(counts := old(View(sessionID)).counts[key := next])
      ensures forall s :: s != sessionID ==> View(s) == old(View(s))
    {
      if sessionID !in sessionCallCounts {
        sessionCallCounts := sessionCallCounts[sessionID := map[]];
      }
      var counts: map<string, nat> := sessionCallCounts[sessionID];
      var current := if key in counts then counts[key] else 0;
      next := current + 1;
      counts := counts[key := next];
      sessionCallCounts := sessionCallCounts[sessionID := counts];
    }

    /** Returns what output.output is afterwards. */
    method HandleFetchAfter(sessionID: string, key: Option<string>, output: Option<string>, now: nat)
      returns (result: Option<string>, ghost outcome: Outcome)
      modifies this
      ensures key.Some? ==> (View(sessionID), outcome) == Call(old(View(sessionID)), key.value, output, now, cfg)
      ensures key.None? ==> View(sessionID) == old(View(sessionID)) && outcome == Ignored
      ensures forall s :: s != sessionID ==> View(s) == old(View(s))
      ensures result == OutputAfter(outcome, output, cfg)
    {
      hide Lru.AfterGet, Lru.AfterSet, BlockedText, CachedText;
      if key == None { return output, Ignored; }
      var count := IncrementCount(sessionID, key.value);
      if count > cfg.maxCallsPerResource {
        return Some(BlockedText(count)), Blocked(count);
      }
      if sessionID !in sessionCaches {
        sessionCaches := sessionCaches[sessionID := Lru.Empty()];
      }
      var cached := Lru.Lookup(sessionCaches[sessionID], key.value);
      sessionCaches := sessionCaches[sessionID := Lru.AfterGet(sessionCaches[sessionID], key.value)];
      if count > 1 && cached.Some? && !(now - cached.value.timestamp > cfg.cacheTtlMs) {
        return Some(CachedText(cached.value, count, cfg)), Served(cached.value, count);
      }
      if HasOutput(output) {
        sessionCaches := sessionCaches[sessionID := Lru.AfterSet(sessionCaches[sessionID], key.value,
                                                                 Entry(output.value, now), cfg.cacheMaxEntries)];
      }
      return output, Fresh;
    }
  }

  // ----- runs -----

  datatype Event =
    | CallEvent(session: string, key: Option<string>, output: Option<string>, now: nat)
    | ClearEvent(session: string)

  type Global = map<string, Session>

  function ViewOf(g: Global, s: string): Session {
    if s in g then g[s] else NEW_SESSION
  }

  function OutcomeOf(g: Global, e: Event, cfg: Config): Outcome {
    if e.CallEvent? && e.key.Some? then Call(ViewOf(g, e.session), e.key.value, e.output, e.now, cfg).1 else Ignored
  }

  function Step(g: Global, e: Event, cfg: Config): Global {
    match e
    case CallEvent(s, key, output, now) =>
      if key.Some? then g[s := Call(ViewOf(g, s), key.value, output, now, cfg).0] else g
    case ClearEvent(s) => g[s := NEW_SESSION]
  }

  function Run(events: seq<Event>, cfg: Config): Global {
    if events == [] then map[] else Step(Run(events[..|events| - 1], cfg), events[|events| - 1], cfg)
  }

  /** The outputs that calls of one session end with, in order. */
  function Outputs(events: seq<Event>, s: string, cfg: Config): seq<Option<string>> {
    if events == [] then []
    else
      var before, e := events[..|events| - 1], events[|events| - 1];
      Outputs(before, s, cfg)
      + if e.session == s && e.CallEvent? then [OutputAfter(OutcomeOf(Run(before, cfg), e, cfg), e.output, cfg)] else []
  }

  /** The events of one session. */
  function Project(events: seq<Event>, s: string): seq<Event> {
    if events == [] then []
    else
      Project(events[..|events| - 1], s)
      + if events[|events| - 1].session == s then [events[|events| - 1]] else []
  }

  lemma RunSnoc(events: seq<Event>, e: Event, s: string, cfg: Config)
    ensures Run(events + [e], cfg) == Step(Run(events, cfg), e, cfg)
    ensures Outputs(events + [e], s, cfg)
            == Outputs(events, s, cfg)
               + if e.session == s && e.CallEvent?
                 then [OutputAfter(OutcomeOf(Run(events, cfg), e, cfg), e.output, cfg)] else []
    ensures Project(events + [e], s) == Project(events, s) + if e.session == s then [e] else []
  {
    hide Step, OutcomeOf, OutputAfter;
    assert (events + [e])[..|events|] == events;
  }

  lemma StepIsLocal(g: Global, h: Global, e: Event, s: string, cfg: Config)
    requires ViewOf(g, s) == ViewOf(h, s)
    ensures e.session == s ==> ViewOf(Step(g, e, cfg), s) == ViewOf(Step(h, e, cfg), s)
    ensures e.session == s ==> OutcomeOf(g, e, cfg) == OutcomeOf(h, e, cfg)
    ensures e.session != s ==> ViewOf(Step(g, e, cfg), s) == ViewOf(g, s)
  {
    hide Call;
  }

  /** Other sessions leave no trace: a session's state and outputs are those of running it alone. */
  lemma {:induction false} SessionsAreIndependent(events: seq<Event>, s: string, cfg: Config)
    ensures ViewOf(Run(events, cfg), s) == ViewOf(Run(Project(events, s), cfg), s)
    ensures Outputs(events, s, cfg) == Outputs(Project(events, s), s, cfg)
  {
    hide Step, OutcomeOf, OutputAfter;
    if events != [] {
      var before, e := events[..|events| - 1], events[|events| - 1];
      hide Run, Outputs, Project, ViewOf;
      assert events == before + [e];
      SessionsAreIndependent(before, s, cfg);
      StepIsLocal(Run(before, cfg), Run(Project(before, s), cfg), e, s, cfg);
      RunSnoc(before, e, s, cfg);
      if e.session == s {
        RunSnoc(Project(before, s), e, s, cfg);
      } else {
        assert Project(before, s) + [] == Project(before, s) && Outputs(before, s, cfg) + [] == Outputs(before, s, cfg);
      }
    }
  }

  // ----- counting and blocking -----

  /** Tracked calls of the session for the key since it was last cleared. */
  function CallsSince(events: seq<Event>, s: string, key: string): nat {
    if events == [] then 0
    else
      var before, e := events[..|events| - 1], events[|events| - 1];
      if e == ClearEvent(s) then 0
      else CallsSince(before, s, key) + if e.CallEvent? && e.session == s && e.key == Some(key) then 1 else 0
  }

  lemma CallCounts(s: Session, key: string, output: Option<string>, now: nat, cfg: Config)
    ensures Call(s, key, output, now, cfg).0.counts == s.counts[key := CountOf(s, key) + 1]
  {
  }

  lemma {:induction false} CountsAreCalls(events: seq<Event>, s: string, key: string, cfg: Config)
    ensures CountOf(ViewOf(Run(events, cfg), s), key) == CallsSince(events, s, key)
  {
    hide Call;
    if events != [] {
      var before, e := events[..|events| - 1], events[|events| - 1];
      CountsAreCalls(before, s, key, cfg);
      if e.CallEvent? && e.key.Some? {
        CallCounts(ViewOf(Run(before, cfg), e.session), e.key.value, e.output, e.now, cfg);
      }
    }
  }

  /** A tracked call is blocked exactly from call maxCallsPerResource + 1 on, until the clear. */
  lemma {:induction false} BlockedIff(events: seq<Event>, e: Event, cfg: Config)
    requires e.CallEvent? && e.key.Some?
    ensures OutcomeOf(Run(events, cfg), e, cfg).Blocked?
            <==> CallsSince(events, e.session, e.key.value) >= cfg.maxCallsPerResource
    ensures OutcomeOf(Run(events, cfg), e, cfg).Blocked? ==>
              OutcomeOf(Run(events, cfg), e, cfg).count == CallsSince(events, e.session, e.key.value) + 1
  {
    CountsAreCalls(events, e.session, e.key.value, cfg);
  }

  // ----- what is served, told from the calls alone -----

  /** A call that is let through to the tool and not answered from the cache. */
  predicate IsFresh(events: seq<Event>, e: Event, cfg: Config)
    requires e.CallEvent? && e.key.Some?
    decreases |events|, 3
  {
    CallsSince(events, e.session, e.key.value) < cfg.maxCallsPerResource && !IsServed(events, e, cfg)
  }

  /** A repeated call within the limit, with a fresh output of its key within the time to live that the cache
      still holds. */
  predicate IsServed(events: seq<Event>, e: Event, cfg: Config): (served: bool)
    requires e.CallEvent? && e.key.Some?
    ensures served ==> LatestFresh(events, e.session, e.key.value, cfg).Some?
    decreases |events|, 2
  {
    var latest := LatestFresh(events, e.session, e.key.value, cfg);
    && 1 <= CallsSince(events, e.session, e.key.value) < cfg.maxCallsPerResource
    && Held(events, e.session, e.key.value, cfg) && e.now - latest.value.timestamp <= cfg.cacheTtlMs
  }

  /** The latest output of the session for the key that was neither blocked, served nor empty,
      since the session was last cleared. */
  function LatestFresh(events: seq<Event>, s: string, key: string, cfg: Config): Option<Entry>
    decreases |events|, 0
  {
    if events == [] then None
    else
      var before, e := events[..|events| - 1], events[|events| - 1];
      if e == ClearEvent(s) then None
      else if e.CallEvent? && e.session == s && e.key == Some(key) && HasOutput(e.output) && IsFresh(before, e, cfg)
      then Some(Entry(e.output.value, e.now))
      else LatestFresh(before, s, key, cfg)
  }

  /** The call set the key's entry, or found it: it was served, or it was fresh and had an output or found an
      entry that was too old. */
  predicate Uses(events: seq<Event>, e: Event, cfg: Config)
    requires e.CallEvent? && e.key.Some?
    decreases |events|, 4
  {
    || IsServed(events, e, cfg)
    || (IsFresh(events, e, cfg) && (HasOutput(e.output) || Held(events, e.session, e.key.value, cfg)))
  }

  /** The other keys that calls of the session used since one used this key, or since the clear. */
  function UsedSince(events: seq<Event>, s: string, key: string, cfg: Config): set<string>
    decreases |events|, 0
  {
    if events == [] then {}
    else
      var before, e := events[..|events| - 1], events[|events| - 1];
      if e == ClearEvent(s) then {}
      else if e.CallEvent? && e.session == s && e.key.Some? && Uses(before, e, cfg)
      then Lru.Using(UsedSince(before, s, key, cfg), e.key.value, key)
      else UsedSince(before, s, key, cfg)
  }

  /** The session's cache must have the key: there is a fresh output of it, and fewer other keys than the
      cache holds were used since. */
  predicate Held(events: seq<Event>, s: string, key: string, cfg: Config)
    decreases |events|, 1
  {
    && LatestFresh(events, s, key, cfg).Some?
    && |UsedSince(events, s, key, cfg)| < Lru.Capacity(cfg.cacheMaxEntries)
  }

  // ----- what the cache does -----

  lemma CallCache(s: Session, key: string, output: Option<string>, now: nat, cfg: Config)
    requires s.cache.Valid() && |s.cache.keys| <= Lru.Capacity(cfg.cacheMaxEntries)
    ensures var (s', outcome) := Call(s, key, output, now, cfg);
            && s'.cache.Valid() && |s'.cache.keys| <= Lru.Capacity(cfg.cacheMaxEntries)
            && (outcome == Fresh && HasOutput(output) ==>
                  && s'.cache.vals.Keys <= s.cache.vals.Keys + {key}
                  && key in s'.cache.vals && s'.cache.vals[key] == Entry(output.value, now)
                  && forall k :: k in s'.cache.vals && k != key ==> s'.cache.vals[k] == s.cache.vals[k])
            && (!(outcome == Fresh && HasOutput(output)) ==> s'.cache.vals == s.cache.vals)
  {
    hide Lru.AfterGet, Lru.AfterSet;
    Lru.GetInvariant(s.cache, key);
    if HasOutput(output) {
      var touched := Lru.AfterGet(s.cache, key);
      Lru.SetInvariant(touched, key, Entry(output.value, now), cfg.cacheMaxEntries);
      Lru.SetHits(touched, key, Entry(output.value, now), cfg.cacheMaxEntries);
    }
  }

  lemma UsingGrows(used: set<string>, k: string, key: string, capacity: nat)
    requires capacity > 0
    ensures var others := Lru.Using(used, k, key);
            && (|others| >= capacity <==> k != key && (|used| >= capacity || |others| >= capacity))
            && Lru.Using(others, k, key) == others
  {
    assert k in used ==> used + {k} == used;
    assert k !in used ==> |used + {k}| == |used| + 1;
  }

  /** What a call does to the keys behind one key of its session's cache. */
  lemma CallMatches(s: Session, k: string, output: Option<string>, now: nat, key: string, used: set<string>,
                    wasFresh: bool, cfg: Config)
    requires s.cache.Valid() && |s.cache.keys| <= Lru.Capacity(cfg.cacheMaxEntries)
    requires Lru.Matches(s.cache, key, used, wasFresh, |used| >= Lru.Capacity(cfg.cacheMaxEntries))
    ensures var (after, outcome) := Call(s, k, output, now, cfg);
            var stored := outcome == Fresh && HasOutput(output);
            var others := if outcome.Served? || stored || (outcome == Fresh && k in s.cache.vals)
                          then Lru.Using(used, k, key) else used;
            Lru.Matches(after.cache, key, others, wasFresh || (stored && k == key),
                        |others| >= Lru.Capacity(cfg.cacheMaxEntries))
  {
    hide Lru.Matches, Lru.AfterGet, Lru.AfterSet, Lru.Using;
    var capacity := Lru.Capacity(cfg.cacheMaxEntries);
    var found := if k in s.cache.vals then Lru.Using(used, k, key) else used;
    var touched := Lru.AfterGet(s.cache, k);
    UsingGrows(used, k, key, capacity);
    Lru.GetMatches(s.cache, k, key, used, wasFresh, |used| >= capacity, cfg.cacheMaxEntries);
    Lru.GetInvariant(s.cache, k);
    if HasOutput(output) {
      UsingGrows(found, k, key, capacity);
      Lru.SetMatches(touched, k, Entry(output.value, now), key, found, wasFresh, |found| >= capacity,
                     cfg.cacheMaxEntries);
    }
  }

  /** The three facts about a run, each of which needs the others for the run before: every cached entry is the
      latest fresh output, the keys behind one key are those used since, and outcomes are as told. */
  lemma {:induction false} CacheIsLatestFresh(events: seq<Event>, s: string, cfg: Config)
    ensures var c := ViewOf(Run(events, cfg), s).cache;
            && c.Valid() && |c.keys| <= Lru.Capacity(cfg.cacheMaxEntries)
            && forall k :: k in c.vals ==> LatestFresh(events, s, k, cfg) == Some(c.vals[k])
    decreases |events|, 0
  {
    hide Call, IsFresh, IsServed, Lru.Using;
    if events != [] {
      var before, e := events[..|events| - 1], events[|events| - 1];
      CacheIsLatestFresh(before, s, cfg);
      if e.CallEvent? && e.key.Some? && e.session == s {
        OutcomesAre(before, e, cfg);
        CallCache(ViewOf(Run(before, cfg), s), e.key.value, e.output, e.now, cfg);
      }
    }
  }

  lemma {:induction false} CacheMatches(events: seq<Event>, s: string, key: string, cfg: Config)
    ensures Lru.Matches(ViewOf(Run(events, cfg), s).cache, key, UsedSince(events, s, key, cfg),
                        LatestFresh(events, s, key, cfg).Some?,
                        |UsedSince(events, s, key, cfg)| >= Lru.Capacity(cfg.cacheMaxEntries))
    decreases |events|, 0
  {
    hide Lru.Matches, Call, Lru.Using, IsFresh, IsServed, Held;
    if events == [] {
      Lru.EmptyMatches<Entry>(key, {}, 0 >= Lru.Capacity(cfg.cacheMaxEntries));
    } else {
      var before, e := events[..|events| - 1], events[|events| - 1];
      var view := ViewOf(Run(before, cfg), s);
      CacheMatches(before, s, key, cfg);
      if e == ClearEvent(s) {
        Lru.EmptyMatches<Entry>(key, {}, 0 >= Lru.Capacity(cfg.cacheMaxEntries));
      } else if e.CallEvent? && e.session == s && e.key.Some? {
        OutcomesAre(before, e, cfg);
        HeldIff(before, s, e.key.value, cfg);
        CacheIsLatestFresh(before, s, cfg);
        CallMatches(view, e.key.value, e.output, e.now, key, UsedSince(before, s, key, cfg),
                    LatestFresh(before, s, key, cfg).Some?, cfg);
      }
    }
  }

  /** Over every run, the cache of a session has a key exactly when there is a fresh output of it and fewer
      other keys than the cache holds were used since. */
  lemma {:induction false} HeldIff(events: seq<Event>, s: string, key: string, cfg: Config)
    ensures key in ViewOf(Run(events, cfg), s).cache.vals <==> Held(events, s, key, cfg)
    decreases |events|, 1
  {
    CacheMatches(events, s, key, cfg);
    hide Run, LatestFresh, UsedSince;
  }

  lemma {:induction false} OutcomesAre(events: seq<Event>, e: Event, cfg: Config)
    requires e.CallEvent? && e.key.Some?
    ensures OutcomeOf(Run(events, cfg), e, cfg).Served? <==> IsServed(events, e, cfg)
    ensures OutcomeOf(Run(events, cfg), e, cfg) == Fresh <==> IsFresh(events, e, cfg)
    decreases |events|, 2
  {
    CountsAreCalls(events, e.session, e.key.value, cfg);
    CacheIsLatestFresh(events, e.session, cfg);
    HeldIff(events, e.session, e.key.value, cfg);
    hide Run, LatestFresh, UsedSince, CallsSince, Lru.AfterGet, Lru.AfterSet;
  }

  /** In every run, a call is served exactly when it is a repeated one within the limit, a fresh output within
      its time to live exists, and fewer other keys than the cache holds were used since its own. What is fresh
      and what is used is told by the same rule from the calls before, without a cache. */
  lemma {:induction false} ServedIff(events: seq<Event>, e: Event, cfg: Config)
    requires e.CallEvent? && e.key.Some?
    ensures var calls := CallsSince(events, e.session, e.key.value);
            var latest := LatestFresh(events, e.session, e.key.value, cfg);
            OutcomeOf(Run(events, cfg), e, cfg).Served?
            <==> && 1 <= calls < cfg.maxCallsPerResource
                 && latest.Some? && e.now - latest.value.timestamp <= cfg.cacheTtlMs
                 && |UsedSince(events, e.session, e.key.value, cfg)| < Lru.Capacity(cfg.cacheMaxEntries)
  {
    hide OutcomeOf;
    OutcomesAre(events, e, cfg);
  }

  /** A cached result that is served is exactly the latest fresh output, within its time to live. */
  lemma ServedIsLatestFresh(events: seq<Event>, e: Event, cfg: Config)
    requires e.CallEvent? && e.key.Some?
    ensures var outcome := OutcomeOf(Run(events, cfg), e, cfg);
            outcome.Served? ==>
              && LatestFresh(events, e.session, e.key.value, cfg) == Some(outcome.entry)
              && e.now - outcome.entry.timestamp <= cfg.cacheTtlMs
              && outcome.count == CallsSince(events, e.session, e.key.value) + 1
  {
    CountsAreCalls(events, e.session, e.key.value, cfg);
    CacheIsLatestFresh(events, e.session, cfg);
  }

  /** Nothing empty is ever cached or served. */
  lemma {:induction false} CachedIsNotEmpty(events: seq<Event>, s: string, key: string, cfg: Config)
    ensures LatestFresh(events, s, key, cfg).Some? ==> LatestFresh(events, s, key, cfg).value.content != ""
    ensures var c := ViewOf(Run(events, cfg), s).cache; key in c.vals ==> c.vals[key].content != ""
  {
    CacheIsLatestFresh(events, s, cfg);
    hide Run, IsFresh;
    if events != [] { CachedIsNotEmpty(events[..|events| - 1], s, key, cfg); }
  }

  /** What a call of a run ends with, told from the calls before it: a fixed text of the count once the limit is
      reached; between a fixed opening and, from the threshold on, a fixed warning the latest fresh output, if
      that is served; and otherwise the output it came with. */
  lemma {:induction false} OutputIs(events: seq<Event>, e: Event, cfg: Config)
    requires e.CallEvent?
    ensures var outputs := Outputs(events + [e], e.session, cfg);
            && |outputs| == |Outputs(events, e.session, cfg)| + 1
            && outputs[|outputs| - 1]
               == if e.key == None then e.output
                  else
                    var count := CallsSince(events, e.session, e.key.value) + 1;
                    var latest := LatestFresh(events, e.session, e.key.value, cfg);
                    if count > cfg.maxCallsPerResource then Some(BlockedText(count))
                    else if IsServed(events, e, cfg) then
                      Some(CachedOpening(count) + latest.value.content
                           + if count >= cfg.warnThreshold then FetchWarning(count) else "")
                    else e.output
  {
    hide Run, Outputs, LatestFresh, IsServed, IsFresh, CallsSince, BlockedText, CachedOpening, FetchWarning, OutcomeOf,
         Call;
    RunSnoc(events, e, e.session, cfg);
    if e.key.Some? {
      OutcomesAre(events, e, cfg);
      BlockedIff(events, e, cfg);
      ServedIsLatestFresh(events, e, cfg);
      CountsAreCalls(events, e.session, e.key.value, cfg);
      OutcomeKinds(Run(events, cfg), e, cfg);
    } else {
      NotTracked(Run(events, cfg), e, cfg);
    }
  }

  lemma NotTracked(g: Global, e: Event, cfg: Config)
    requires e.CallEvent? && e.key.None?
    ensures OutcomeOf(g, e, cfg) == Ignored
  {
  }

  lemma OutcomeKinds(g: Global, e: Event, cfg: Config)
    requires e.CallEvent? && e.key.Some?
    ensures OutcomeOf(g, e, cfg) != Ignored
  {
  }

  /** All keys the session is called with. */
  ghost predicate KeysWithin(events: seq<Event>, s: string, within: set<string>) {
    forall i :: 0 <= i < |events| && events[i].session == s && events[i].CallEvent? && events[i].key.Some? ==>
      events[i].key.value in within
  }

  lemma {:induction false} UsedWithin(events: seq<Event>, s: string, key: string, within: set<string>, cfg: Config)
    requires KeysWithin(events, s, within)
    ensures UsedSince(events, s, key, cfg) <= within - {key}
  {
    hide Uses;
    if events != [] { UsedWithin(events[..|events| - 1], s, key, within, cfg); }
  }

  /** While a session uses no more keys than the cache holds, nothing is evicted: a call is served exactly when
      it is a repeated one within the limit and a fresh output within its time to live exists. */
  lemma ServedInSmallSession(events: seq<Event>, e: Event, within: set<string>, cfg: Config)
    requires e.CallEvent? && e.key.Some?
    requires KeysWithin(events + [e], e.session, within) && |within| <= cfg.cacheMaxEntries
    ensures var calls := CallsSince(events, e.session, e.key.value);
            var latest := LatestFresh(events, e.session, e.key.value, cfg);
            OutcomeOf(Run(events, cfg), e, cfg).Served?
            <==> 1 <= calls < cfg.maxCallsPerResource && latest.Some?
                 && e.now - latest.value.timestamp <= cfg.cacheTtlMs
  {
    var key := e.key.value;
    forall i | 0 <= i < |events| ensures (events + [e])[i] == events[i] {
    }
    assert (events + [e])[|events|] == e;
    UsedWithin(events, e.session, key, within, cfg);
    SmallerSet(UsedSince(events, e.session, key, cfg), within - {key});
    assert |within - {key}| == |within| - 1;
    hide Run, LatestFresh, UsedSince, CallsSince, OutcomeOf;
    ServedIff(events, e, cfg);
  }

  lemma {:induction false} SmallerSet(a: set<string>, b: set<string>)
    requires a <= b
    ensures |a| <= |b|
  {
    if a != {} {
      var x :| x in a;
      SmallerSet(a - {x}, b - {x});
    }
  }
}
