/** Reconciling what the atlas workers claim: claims are grouped by target and text, and each target
    gets its agreed claims and, where workers disagree, one conflict. */
module Reconciler {
  import opened JsMaps
  import opened Str

  datatype WorkerClaim = WorkerClaim(target: string, claim: string)

  datatype WorkerOutput = WorkerOutput(worker: string, claims: seq<WorkerClaim>)

  datatype AgreedClaim = AgreedClaim(target: string, claim: string, workers: seq<string>)

  datatype ConflictRecord =
    ConflictRecord(target: string, reason: string, proposedChange: string, sources: seq<string>)

  datatype ReconcileResult = ReconcileResult(agreed: seq<AgreedClaim>, conflicts: seq<ConflictRecord>)

  datatype Entry = Entry(claim: string, workers: seq<string>)

  type ClaimsByText = JsMap<string, seq<string>>

  const CONFLICT_REASON := "Workers disagreed about this node"

  // ----- the claims as one list, and what it says about a target -----

  datatype Mention = Mention(target: string, claim: string, worker: string)

  function MentionsOf(worker: string, claims: seq<WorkerClaim>): seq<Mention> {
    if claims == [] then []
    else
      var last := claims[|claims| - 1];
      MentionsOf(worker, claims[..|claims| - 1]) + [Mention(last.target, last.claim, worker)]
  }

  function Mentions(outputs: seq<WorkerOutput>): seq<Mention> {
    if outputs == [] then []
    else
      var last := outputs[|outputs| - 1];
      Mentions(outputs[..|outputs| - 1]) + MentionsOf(last.worker, last.claims)
  }

  function TargetsIn(mentions: seq<Mention>): seq<string> {
    if mentions == [] then [] else TargetsIn(mentions[..|mentions| - 1]) + [mentions[|mentions| - 1].target]
  }

  /** The texts claimed about a target, one for every mention. */
  function TextsFor(mentions: seq<Mention>, target: string): seq<string> {
    if mentions == [] then []
    else
      var last := mentions[|mentions| - 1];
      TextsFor(mentions[..|mentions| - 1], target) + if last.target == target then [last.claim] else []
  }

  /** The workers that make a claim, one for every time they make it. */
  function WorkersFor(mentions: seq<Mention>, target: string, claim: string): seq<string> {
    if mentions == [] then []
    else
      var last := mentions[|mentions| - 1];
      WorkersFor(mentions[..|mentions| - 1], target, claim)
      + if last.target == target && last.claim == claim then [last.worker] else []
  }

  function FirstSeen(xs: seq<string>): seq<string> {
    if xs == [] then []
    else
      var seen := FirstSeen(xs[..|xs| - 1]);
      if xs[|xs| - 1] in seen then seen else seen + [xs[|xs| - 1]]
  }

  lemma {:induction false} FirstSeenIs(xs: seq<string>)
    ensures Distinct(FirstSeen(xs))
    ensures forall x :: x in FirstSeen(xs) <==> x in xs
  {
    if xs != [] {
      FirstSeenIs(xs[..|xs| - 1]);
      assert xs == xs[..|xs| - 1] + [xs[|xs| - 1]];
    }
  }

  // ----- grouping -----

  ghost predicate GroupHolds(group: ClaimsByText, mentions: seq<Mention>, target: string) {
    && group.Valid()
    && group.keys == FirstSeen(TextsFor(mentions, target))
    && forall c :: c in group.vals ==> group.vals[c] == WorkersFor(mentions, target, c)
  }

  /** The structure holds exactly the mentions: targets and texts in the order they were first seen,
      and under each the workers in order. */
  ghost predicate Holds(targets: JsMap<string, ClaimsByText>, mentions: seq<Mention>) {
    && targets.Valid()
    && targets.keys == FirstSeen(TargetsIn(mentions))
    && forall t :: t in targets.vals ==> GroupHolds(targets.vals[t], mentions, t)
  }

  const NO_CLAIMS: ClaimsByText := JsMap([], map[])

  /** The target's bucket, entered empty when the target is new. */
  method ClaimBucketFor(targets: JsMap<string, ClaimsByText>, target: string)
    returns (entered: JsMap<string, ClaimsByText>, bucket: ClaimsByText)
    ensures bucket == if target in targets.vals then targets.vals[target] else NO_CLAIMS
    ensures entered == if target in targets.vals then targets else targets.Put(target, NO_CLAIMS)
  {
    if target in targets.vals { return targets, targets.vals[target]; }
    bucket := NO_CLAIMS;
    entered := targets.Put(target, bucket);
  }

  method AddClaim(claims: ClaimsByText, worker: string, claim: string) returns (grown: ClaimsByText)
    ensures grown == claims.Put(claim, (if claim in claims.vals then claims.vals[claim] else []) + [worker])
  {
    var workers := if claim in claims.vals then claims.vals[claim] else [];
    workers := workers + [worker];
    grown := claims.Put(claim, workers);
  }

  lemma OneMore(mentions: seq<Mention>, m: Mention)
    ensures TargetsIn(mentions + [m]) == TargetsIn(mentions) + [m.target]
    ensures forall t :: TextsFor(mentions + [m], t)
              == if m.target == t then TextsFor(mentions, t) + [m.claim] else TextsFor(mentions, t)
    ensures forall t, c :: WorkersFor(mentions + [m], t, c)
              == if m.target == t && m.claim == c then WorkersFor(mentions, t, c) + [m.worker]
                 else WorkersFor(mentions, t, c)
  {
    assert (mentions + [m])[..|mentions|] == mentions;
  }

  lemma {:induction false} FirstSeenMore(xs: seq<string>, x: string)
    ensures FirstSeen(xs + [x]) == if x in xs then FirstSeen(xs) else FirstSeen(xs) + [x]
  {
    assert (xs + [x])[..|xs|] == xs;
    FirstSeenIs(xs);
  }

  /** Every worker entered for a text made that claim. */
  lemma {:induction false} WorkersIffText(mentions: seq<Mention>, t: string, c: string)
    ensures c in TextsFor(mentions, t) <==> WorkersFor(mentions, t, c) != []
    ensures t in TargetsIn(mentions) <==> TextsFor(mentions, t) != []
  {
    if mentions != [] {
      WorkersIffText(mentions[..|mentions| - 1], t, c);
    }
  }

  function Grown(group: ClaimsByText, m: Mention): ClaimsByText {
    group.Put(m.claim, (if m.claim in group.vals then group.vals[m.claim] else []) + [m.worker])
  }

  lemma GroupGrows(group: ClaimsByText, mentions: seq<Mention>, m: Mention)
    requires GroupHolds(group, mentions, m.target)
    ensures GroupHolds(Grown(group, m), mentions + [m], m.target)
  {
    hide JsMap.Valid, TextsFor, WorkersFor, FirstSeen, TargetsIn;
    OneMore(mentions, m);
    FirstSeenMore(TextsFor(mentions, m.target), m.claim);
    FirstSeenIs(TextsFor(mentions, m.target));
    PutValid(group, m.claim, (if m.claim in group.vals then group.vals[m.claim] else []) + [m.worker]);
    KeysAreVals(group);
    if m.claim !in group.vals { WorkersIffText(mentions, m.target, m.claim); }
  }

  lemma KeysAreVals<V>(m: JsMap<string, V>)
    requires m.Valid()
    ensures forall k :: k in m.vals <==> k in m.keys
  {
  }

  lemma GroupStays(group: ClaimsByText, mentions: seq<Mention>, m: Mention, t: string)
    requires GroupHolds(group, mentions, t) && t != m.target
    ensures GroupHolds(group, mentions + [m], t)
  {
    hide JsMap.Valid, TextsFor, WorkersFor, FirstSeen, TargetsIn;
    OneMore(mentions, m);
  }

  lemma EmptyGroupHolds(mentions: seq<Mention>, t: string)
    requires t !in TargetsIn(mentions)
    ensures GroupHolds(NO_CLAIMS, mentions, t)
  {
    WorkersIffText(mentions, t, "");
  }

  lemma MentionGroups(targets: JsMap<string, ClaimsByText>, mentions: seq<Mention>, m: Mention)
    requires Holds(targets, mentions)
    ensures var group := if m.target in targets.vals then targets.vals[m.target] else NO_CLAIMS;
            Holds(targets.Put(m.target, Grown(group, m)), mentions + [m])
  {
    hide JsMap.Valid, TextsFor, WorkersFor, FirstSeen, TargetsIn, GroupHolds, Grown;
    var group := if m.target in targets.vals then targets.vals[m.target] else NO_CLAIMS;
    OneMore(mentions, m);
    FirstSeenMore(TargetsIn(mentions), m.target);
    FirstSeenIs(TargetsIn(mentions));
    KeysAreVals(targets);
    PutValid(targets, m.target, Grown(group, m));
    if m.target !in targets.vals { EmptyGroupHolds(mentions, m.target); }
    GroupGrows(group, mentions, m);
    forall t | t in targets.vals && t != m.target ensures GroupHolds(targets.vals[t], mentions + [m], t) {
      GroupStays(targets.vals[t], mentions, m, t);
    }
  }

  lemma PutTwice<V>(m: JsMap<string, V>, k: string, v: V, w: V)
    ensures m.Put(k, v).Put(k, w) == m.Put(k, w)
  {
    assert m.vals[k := v][k := w] == m.vals[k := w];
  }

  lemma {:induction false} MentionsStart(outputs: seq<WorkerOutput>, i: nat)
    requires i < |outputs|
    ensures Mentions(outputs[..0]) == [] && Mentions(outputs[..|outputs|]) == Mentions(outputs)
    ensures Mentions(outputs[..i]) + MentionsOf(outputs[i].worker, outputs[i].claims[..0]) == Mentions(outputs[..i])
    ensures Mentions(outputs[..i]) + MentionsOf(outputs[i].worker, outputs[i].claims[..|outputs[i].claims|])
            == Mentions(outputs[..i + 1])
  {
    assert outputs[..|outputs|] == outputs && outputs[..i + 1][..i] == outputs[..i];
    assert outputs[i].claims[..|outputs[i].claims|] == outputs[i].claims;
  }

  lemma MentionsStep(before: seq<Mention>, output: WorkerOutput, j: nat)
    requires j < |output.claims|
    ensures before + MentionsOf(output.worker, output.claims[..j + 1])
            == before + MentionsOf(output.worker, output.claims[..j])
               + [Mention(output.claims[j].target, output.claims[j].claim, output.worker)]
  {
    assert output.claims[..j + 1][..j] == output.claims[..j];
  }

  lemma NothingHolds()
    ensures Mentions([]) == [] && Holds(JsMap([], map[]), [])
  {
  }

  method CollectClaims(outputs: seq<WorkerOutput>) returns (targets: JsMap<string, ClaimsByText>)
    ensures Holds(targets, Mentions(outputs))
  {
    hide *;
    targets := JsMap([], map[]);
    NothingHolds();
    assert outputs[..0] == [];
    for i := 0 to |outputs|
      invariant Holds(targets, Mentions(outputs[..i]))
    {
      var output := outputs[i];
      ghost var before := Mentions(outputs[..i]);
      MentionsStart(outputs, i);
      for j := 0 to |output.claims|
        invariant Holds(targets, before + MentionsOf(output.worker, output.claims[..j]))
      {
        var claim := output.claims[j];
        ghost var m := Mention(claim.target, claim.claim, output.worker);
        MentionsStep(before, output, j);
        MentionGroups(targets, before + MentionsOf(output.worker, output.claims[..j]), m);
        Regrown(targets, m);
        var entered, bucket := ClaimBucketFor(targets, claim.target);
        var grown := AddClaim(bucket, output.worker, claim.claim);
        targets := entered.Put(claim.target, grown);
      }
    }
    assert outputs[..|outputs|] == outputs;
  }

  lemma Regrown(targets: JsMap<string, ClaimsByText>, m: Mention)
    ensures var group := if m.target in targets.vals then targets.vals[m.target] else NO_CLAIMS;
            var grown := group.Put(m.claim, (if m.claim in group.vals then group.vals[m.claim] else []) + [m.worker]);
            var entered := if m.target in targets.vals then targets else targets.Put(m.target, NO_CLAIMS);
            grown == Grown(group, m) && entered.Put(m.target, grown) == targets.Put(m.target, grown)
  {
    var group := if m.target in targets.vals then targets.vals[m.target] else NO_CLAIMS;
    PutTwice(targets, m.target, NO_CLAIMS, Grown(group, m));
  }

  // ----- conservation -----

  /** Every mention is held exactly as often as it was made, in the bucket of its target and text. */
  lemma {:induction false} WorkersCount(mentions: seq<Mention>, t: string, c: string, w: string)
    ensures multiset(WorkersFor(mentions, t, c))[w] == multiset(mentions)[Mention(t, c, w)]
  {
    if mentions != [] {
      var rest, last := mentions[..|mentions| - 1], mentions[|mentions| - 1];
      hide *;
      WorkersCount(rest, t, c, w);
      WorkersSnoc(rest, last, t, c);
      assert mentions == rest + [last];
      CountSnoc(rest, last, Mention(t, c, w));
      CountSnoc(WorkersFor(rest, t, c), last.worker, w);
    }
  }

  lemma WorkersSnoc(rest: seq<Mention>, last: Mention, t: string, c: string)
    ensures WorkersFor(rest + [last], t, c)
            == if last.target == t && last.claim == c then WorkersFor(rest, t, c) + [last.worker]
               else WorkersFor(rest, t, c)
  {
    assert (rest + [last])[..|rest|] == rest;
  }

  lemma CountSnoc<T>(xs: seq<T>, last: T, x: T)
    ensures multiset(xs + [last])[x] == multiset(xs)[x] + if last == x then 1 else 0
  {
  }

  /** What the grouped structure says of a worker making a claim about a target. */
  ghost function Held(targets: JsMap<string, ClaimsByText>, m: Mention): nat {
    if m.target in targets.vals && m.claim in targets.vals[m.target].vals
    then multiset(targets.vals[m.target].vals[m.claim])[m.worker]
    else 0
  }

  lemma {:induction false} GroupingConserves(targets: JsMap<string, ClaimsByText>, mentions: seq<Mention>, m: Mention)
    requires Holds(targets, mentions)
    ensures Held(targets, m) == multiset(mentions)[m]
    ensures m.target in targets.vals ==> targets.vals[m.target].keys != []
    ensures m.target in targets.vals && m.claim in targets.vals[m.target].vals ==>
              targets.vals[m.target].vals[m.claim] != []
  {
    WorkersCount(mentions, m.target, m.claim, m.worker);
    WorkersIffText(mentions, m.target, m.claim);
    FirstSeenIs(TargetsIn(mentions));
    FirstSeenIs(TextsFor(mentions, m.target));
    if TextsFor(mentions, m.target) != [] {
      assert TextsFor(mentions, m.target)[0] in FirstSeen(TextsFor(mentions, m.target));
    }
    hide TextsFor, WorkersFor, FirstSeen, TargetsIn;
  }

  // ----- the results -----

  function EntriesFor(mentions: seq<Mention>, target: string, texts: seq<string>): seq<Entry> {
    if texts == [] then []
    else
      var last := texts[|texts| - 1];
      EntriesFor(mentions, target, texts[..|texts| - 1]) + [Entry(last, WorkersFor(mentions, target, last))]
  }

  function Texts(mentions: seq<Mention>, target: string): seq<string> {
    FirstSeen(TextsFor(mentions, target))
  }

  /** The map's entries, in its order. */
  method EntriesOf(claims: ClaimsByText, ghost mentions: seq<Mention>, ghost target: string)
    returns (entries: seq<Entry>)
    requires GroupHolds(claims, mentions, target)
    ensures entries == EntriesFor(mentions, target, Texts(mentions, target)) && |entries| == |claims.keys|
  {
    hide WorkersFor, TextsFor, FirstSeen;
    entries := [];
    for i := 0 to |claims.keys|
      invariant entries == EntriesFor(mentions, target, claims.keys[..i]) && |entries| == i
    {
      assert claims.keys[..i + 1][..i] == claims.keys[..i];
      entries := entries + [Entry(claims.keys[i], claims.vals[claims.keys[i]])];
    }
    assert claims.keys[..|claims.keys|] == claims.keys;
  }

  function AgreedAmong(target: string, entries: seq<Entry>, sole: bool): seq<AgreedClaim> {
    if entries == [] then []
    else
      var last := entries[|entries| - 1];
      AgreedAmong(target, entries[..|entries| - 1], sole)
      + if !sole && |last.workers| <= 1 then [] else [AgreedClaim(target, last.claim, last.workers)]
  }

  method AppendAgreedClaims(agreed: seq<AgreedClaim>, target: string, entries: seq<Entry>)
    returns (grown: seq<AgreedClaim>)
    ensures grown == agreed + AgreedAmong(target, entries, |entries| == 1)
  {
    grown := agreed;
    for i := 0 to |entries|
      invariant grown == agreed + AgreedAmong(target, entries[..i], |entries| == 1)
    {
      assert entries[..i + 1][..i] == entries[..i];
      if |entries| != 1 && |entries[i].workers| <= 1 { continue; }
      grown := grown + [AgreedClaim(target, entries[i].claim, entries[i].workers)];
    }
    assert entries[..|entries|] == entries;
  }

  function Summary(e: Entry): string {
    "- \"" + e.claim + "\" (" + Join(e.workers, ", ") + ")"
  }

  function CreateConflict(target: string, entries: seq<Entry>): ConflictRecord {
    ConflictRecord(target, CONFLICT_REASON, Join(Map(Summary, entries), "\n"), [])
  }

  function Reconciled(mentions: seq<Mention>, targets: seq<string>): ReconcileResult {
    if targets == [] then ReconcileResult([], [])
    else
      var target := targets[|targets| - 1];
      var entries := EntriesFor(mentions, target, Texts(mentions, target));
      var before := Reconciled(mentions, targets[..|targets| - 1]);
      ReconcileResult(before.agreed + AgreedAmong(target, entries, |entries| == 1),
                      if |entries| <= 1 then before.conflicts
                      else before.conflicts + [CreateConflict(target, entries)])
  }

  function ResultFor(mentions: seq<Mention>): ReconcileResult {
    Reconciled(mentions, FirstSeen(TargetsIn(mentions)))
  }

  method ReconcileWorkerOutput(outputs: seq<WorkerOutput>) returns (result: ReconcileResult)
    ensures result == ResultFor(Mentions(outputs))
  {
    hide FirstSeen, TargetsIn, EntriesFor, AgreedAmong, Texts, GroupHolds, Summary, Join;
    ghost var mentions := Mentions(outputs);
    var targets := CollectClaims(outputs);
    var agreed: seq<AgreedClaim>, conflicts: seq<ConflictRecord> := [], [];
    for i := 0 to |targets.keys|
      invariant ReconcileResult(agreed, conflicts) == Reconciled(mentions, targets.keys[..i])
    {
      var target := targets.keys[i];
      assert targets.keys[..i + 1][..i] == targets.keys[..i];
      var entries := EntriesOf(targets.vals[target], mentions, target);
      agreed := AppendAgreedClaims(agreed, target, entries);
      if |entries| <= 1 { continue; }
      conflicts := conflicts + [CreateConflict(target, entries)];
    }
    assert targets.keys[..|targets.keys|] == targets.keys;
    result := ReconcileResult(agreed, conflicts);
  }

  // ----- what the results mean -----

  /** A text is agreed about a target if it is the only one, or is claimed at least twice. */
  ghost predicate IsAgreed(mentions: seq<Mention>, target: string, claim: string) {
    && claim in TextsFor(mentions, target)
    && ((forall c :: c in TextsFor(mentions, target) ==> c == claim) || |WorkersFor(mentions, target, claim)| >= 2)
  }

  ghost predicate Disagreed(mentions: seq<Mention>, target: string) {
    exists c, d :: c in TextsFor(mentions, target) && d in TextsFor(mentions, target) && c != d
  }

  lemma {:induction false} EntriesAre(mentions: seq<Mention>, target: string, texts: seq<string>)
    ensures var entries := EntriesFor(mentions, target, texts);
            |entries| == |texts|
            && forall i :: 0 <= i < |texts| ==> entries[i] == Entry(texts[i], WorkersFor(mentions, target, texts[i]))
  {
    if texts != [] { EntriesAre(mentions, target, texts[..|texts| - 1]); }
  }

  lemma {:induction false} AgreedAmongAre(target: string, entries: seq<Entry>, sole: bool)
    ensures forall a :: a in AgreedAmong(target, entries, sole) <==>
              a.target == target && Entry(a.claim, a.workers) in entries && (sole || |a.workers| >= 2)
  {
    if entries != [] {
      AgreedAmongAre(target, entries[..|entries| - 1], sole);
      assert entries == entries[..|entries| - 1] + [entries[|entries| - 1]];
    }
  }

  lemma TextsAre(mentions: seq<Mention>, target: string)
    ensures Distinct(Texts(mentions, target))
    ensures forall c :: c in Texts(mentions, target) <==> c in TextsFor(mentions, target)
    ensures |Texts(mentions, target)| >= 2 <==> Disagreed(mentions, target)
  {
    FirstSeenIs(TextsFor(mentions, target));
    var texts := Texts(mentions, target);
    assert texts == FirstSeen(TextsFor(mentions, target));
    hide FirstSeen, TextsFor, Texts;
    if |texts| >= 2 {
      assert texts[0] in texts && texts[1] in texts && texts[0] != texts[1];
    }
    if Disagreed(mentions, target) {
      var c, d :| c in TextsFor(mentions, target) && d in TextsFor(mentions, target) && c != d;
      assert c in texts && d in texts;
    }
  }

  lemma AgreedOfTarget(mentions: seq<Mention>, target: string, a: AgreedClaim)
    ensures var entries := EntriesFor(mentions, target, Texts(mentions, target));
            a in AgreedAmong(target, entries, |entries| == 1) <==>
              a.target == target && IsAgreed(mentions, target, a.claim)
              && a.workers == WorkersFor(mentions, target, a.claim)
  {
    var texts := Texts(mentions, target);
    EntriesAre(mentions, target, texts);
    AgreedAmongAre(target, EntriesFor(mentions, target, texts), |texts| == 1);
    TextsAre(mentions, target);
    hide Texts, TextsFor, WorkersFor, EntriesFor, AgreedAmong;
    assert Entry(a.claim, a.workers) in EntriesFor(mentions, target, texts) <==>
           a.claim in texts && a.workers == WorkersFor(mentions, target, a.claim) by {
      if a.claim in texts {
        var i :| 0 <= i < |texts| && texts[i] == a.claim;
        assert EntriesFor(mentions, target, texts)[i] == Entry(a.claim, WorkersFor(mentions, target, a.claim));
      }
    }
    if |texts| == 1 {
      assert texts[0] in texts;
    } else if a.claim in texts {
      assert Disagreed(mentions, target) by { assert texts[0] in texts && texts[1] in texts; }
    }
  }

  /** Exactly the agreed texts are reported, each with its workers. */
  lemma {:induction false} AgreedIff(mentions: seq<Mention>, targets: seq<string>, a: AgreedClaim)
    ensures a in Reconciled(mentions, targets).agreed <==>
              a.target in targets && IsAgreed(mentions, a.target, a.claim)
              && a.workers == WorkersFor(mentions, a.target, a.claim)
  {
    hide IsAgreed, WorkersFor, AgreedAmong, EntriesFor, Texts;
    if targets != [] {
      var before, last := targets[..|targets| - 1], targets[|targets| - 1];
      AgreedIff(mentions, before, a);
      AgreedOfTarget(mentions, last, a);
      assert targets == before + [last];
    }
  }

  ghost predicate ConflictFor(mentions: seq<Mention>, c: ConflictRecord) {
    && Disagreed(mentions, c.target)
    && c == CreateConflict(c.target, EntriesFor(mentions, c.target, Texts(mentions, c.target)))
  }

  /** One conflict for each target with two or more texts, which lists them all, and no other. */
  lemma {:induction false} ConflictIff(mentions: seq<Mention>, targets: seq<string>, c: ConflictRecord)
    ensures c in Reconciled(mentions, targets).conflicts <==> c.target in targets && ConflictFor(mentions, c)
  {
    hide Disagreed, Texts, EntriesFor, AgreedAmong, Summary, Join;
    if targets != [] {
      var before, last := targets[..|targets| - 1], targets[|targets| - 1];
      ConflictIff(mentions, before, c);
      TextsAre(mentions, last);
      EntriesAre(mentions, last, Texts(mentions, last));
      assert targets == before + [last];
    }
  }

  lemma {:induction false} ConflictsDistinct(mentions: seq<Mention>, targets: seq<string>)
    requires Distinct(targets)
    ensures Distinct(Reconciled(mentions, targets).conflicts)
  {
    hide Disagreed, Texts, EntriesFor, AgreedAmong, Summary, Join;
    if targets != [] {
      var before, last := targets[..|targets| - 1], targets[|targets| - 1];
      ConflictsDistinct(mentions, before);
      assert last !in before;
      forall c | c in Reconciled(mentions, before).conflicts ensures c.target in before {
        ConflictIff(mentions, before, c);
      }
    }
  }

  lemma MentionedTargets(mentions: seq<Mention>, t: string)
    ensures Distinct(FirstSeen(TargetsIn(mentions)))
    ensures TextsFor(mentions, t) != [] ==> t in FirstSeen(TargetsIn(mentions))
  {
    FirstSeenIs(TargetsIn(mentions));
    WorkersIffText(mentions, t, "");
  }

  /** What is agreed. */
  lemma {:induction false} AgreedAreRight(mentions: seq<Mention>, a: AgreedClaim)
    ensures a in ResultFor(mentions).agreed <==>
              IsAgreed(mentions, a.target, a.claim) && a.workers == WorkersFor(mentions, a.target, a.claim)
  {
    MentionedTargets(mentions, a.target);
    AgreedIff(mentions, FirstSeen(TargetsIn(mentions)), a);
  }

  /** What is in conflict: a target is, exactly once, when two texts were claimed about it. */
  lemma {:induction false} ConflictsAreRight(mentions: seq<Mention>, c: ConflictRecord)
    ensures c in ResultFor(mentions).conflicts <==> ConflictFor(mentions, c)
    ensures Distinct(ResultFor(mentions).conflicts)
  {
    MentionedTargets(mentions, c.target);
    ConflictIff(mentions, FirstSeen(TargetsIn(mentions)), c);
    ConflictsDistinct(mentions, FirstSeen(TargetsIn(mentions)));
  }

  /** What a conflict says: a line for each of the texts in dispute, once, with all the workers that claimed it. */
  lemma ConflictReads(mentions: seq<Mention>, x: ConflictRecord) returns (lines: seq<string>)
    requires x in ResultFor(mentions).conflicts
    ensures x == ConflictRecord(x.target, "Workers disagreed about this node", Join(lines, "\n"), [])
    ensures |lines| == |Texts(mentions, x.target)| > 1 && Distinct(Texts(mentions, x.target))
    ensures forall c :: c in Texts(mentions, x.target) <==> c in TextsFor(mentions, x.target)
    ensures forall i :: 0 <= i < |lines| ==>
              var c := Texts(mentions, x.target)[i];
              lines[i] == "- \"" + c + "\" (" + Join(WorkersFor(mentions, x.target, c), ", ") + ")"
  {
    var texts := Texts(mentions, x.target);
    var entries := EntriesFor(mentions, x.target, texts);
    ConflictsAreRight(mentions, x);
    TextsAre(mentions, x.target);
    EntriesAre(mentions, x.target, texts);
    lines := Map(Summary, entries);
    hide Texts, EntriesFor, TextsFor, WorkersFor, Join;
  }

  // ----- order does not matter -----

  /** The same workers, as often. */
  lemma {:induction false} WorkersIgnoreOrder(a: seq<Mention>, b: seq<Mention>, t: string, c: string)
    requires multiset(a) == multiset(b)
    ensures multiset(WorkersFor(a, t, c)) == multiset(WorkersFor(b, t, c))
    ensures |WorkersFor(a, t, c)| == |WorkersFor(b, t, c)|
    ensures c in TextsFor(a, t) <==> c in TextsFor(b, t)
  {
    forall w ensures multiset(WorkersFor(a, t, c))[w] == multiset(WorkersFor(b, t, c))[w] {
      WorkersCount(a, t, c, w);
      WorkersCount(b, t, c, w);
    }
    assert |WorkersFor(a, t, c)| == |multiset(WorkersFor(a, t, c))|;
    assert |WorkersFor(b, t, c)| == |multiset(WorkersFor(b, t, c))|;
    WorkersIffText(a, t, c);
    WorkersIffText(b, t, c);
  }

  ghost predicate SameButOrder(a: AgreedClaim, b: AgreedClaim) {
    a.target == b.target && a.claim == b.claim && multiset(a.workers) == multiset(b.workers)
  }

  /** Permuting the claims only reorders what is agreed: each agreed claim stays, with its workers. */
  lemma {:induction false} AgreementIgnoresOrder(a: seq<Mention>, b: seq<Mention>, x: AgreedClaim)
    returns (y: AgreedClaim)
    requires multiset(a) == multiset(b) && x in ResultFor(a).agreed
    ensures y in ResultFor(b).agreed && SameButOrder(x, y)
  {
    hide ResultFor, TextsFor, WorkersFor;
    y := AgreedClaim(x.target, x.claim, WorkersFor(b, x.target, x.claim));
    AgreedAreRight(a, x);
    AgreedAreRight(b, y);
    WorkersIgnoreOrder(a, b, x.target, x.claim);
    forall c ensures c in TextsFor(a, x.target) <==> c in TextsFor(b, x.target) {
      WorkersIgnoreOrder(a, b, x.target, c);
    }
  }

  /** And only reorders the lines of a conflict: the same texts, each by the same workers. */
  lemma {:induction false} ConflictIgnoresOrder(a: seq<Mention>, b: seq<Mention>, x: ConflictRecord)
    returns (y: ConflictRecord)
    requires multiset(a) == multiset(b) && x in ResultFor(a).conflicts
    ensures y in ResultFor(b).conflicts && y.target == x.target
    ensures x == CreateConflict(x.target, EntriesFor(a, x.target, Texts(a, x.target)))
    ensures y == CreateConflict(y.target, EntriesFor(b, y.target, Texts(b, y.target)))
    ensures multiset(Texts(a, x.target)) == multiset(Texts(b, x.target))
    ensures forall c :: multiset(WorkersFor(a, x.target, c)) == multiset(WorkersFor(b, x.target, c))
  {
    hide ResultFor, TextsFor, WorkersFor, Texts, EntriesFor, CreateConflict;
    var t := x.target;
    y := CreateConflict(t, EntriesFor(b, t, Texts(b, t)));
    ConflictTarget(t, EntriesFor(b, t, Texts(b, t)));
    ConflictsAreRight(a, x);
    ConflictsAreRight(b, y);
    forall c
      ensures c in TextsFor(a, t) <==> c in TextsFor(b, t)
      ensures multiset(WorkersFor(a, t, c)) == multiset(WorkersFor(b, t, c))
    {
      WorkersIgnoreOrder(a, b, t, c);
    }
    TextsAre(a, t);
    TextsAre(b, t);
    DistinctBag(Texts(a, t), Texts(b, t));
  }

  lemma ConflictTarget(t: string, entries: seq<Entry>)
    ensures CreateConflict(t, entries).target == t
  {
  }

  lemma {:induction false} DistinctBag<T>(a: seq<T>, b: seq<T>)
    requires Distinct(a) && Distinct(b) && forall c :: c in a <==> c in b
    ensures multiset(a) == multiset(b)
  {
    assert b != [] ==> b[0] in a;
    if a != [] {
      assert a[0] in b;
      var k :| 0 <= k < |b| && b[k] == a[0];
      var rest := b[..k] + b[k + 1..];
      WithoutOne(b, k);
      DistinctBag(a[1..], rest);
      assert a == [a[0]] + a[1..];
    }
  }

  lemma WithoutOne<T>(b: seq<T>, k: nat)
    requires k < |b|
    ensures var rest := b[..k] + b[k + 1..];
            && multiset(b) == multiset(rest) + multiset{b[k]}
            && (Distinct(b) ==> Distinct(rest) && forall c :: c in rest <==> c in b && c != b[k])
  {
    assert b == b[..k] + [b[k]] + b[k + 1..];
  }

  lemma {:induction false} MentionsConcat(a: seq<WorkerOutput>, b: seq<WorkerOutput>)
    ensures Mentions(a + b) == Mentions(a) + Mentions(b)
  {
    hide MentionsOf;
    if b == [] {
      assert a + b == a;
    } else {
      assert (a + b)[..|a + b| - 1] == a + b[..|b| - 1];
      MentionsConcat(a, b[..|b| - 1]);
    }
  }

  lemma RestPermuted<T>(a: seq<T>, b: seq<T>, k: nat)
    requires multiset(a) == multiset(b) && k < |b| && a != [] && b[k] == a[|a| - 1]
    ensures multiset(a[..|a| - 1]) == multiset(b[..k] + b[k + 1..])
  {
    var last := |a| - 1;
    WithoutOne(a, last);
    WithoutOne(b, k);
    assert a[..last] + a[last + 1..] == a[..last];
    var x, y, one := multiset(a[..last]), multiset(b[..k] + b[k + 1..]), multiset{a[last]};
    assert x == (x + one) - one && y == (y + one) - one;
  }

  lemma MentionsSnoc(front: seq<WorkerOutput>, last: WorkerOutput)
    ensures Mentions(front + [last]) == Mentions(front) + MentionsOf(last.worker, last.claims)
  {
    hide MentionsOf;
    assert (front + [last])[..|front|] == front;
  }

  lemma MentionsOfRest(b: seq<WorkerOutput>, k: nat)
    requires k < |b|
    ensures multiset(Mentions(b))
            == multiset(Mentions(b[..k] + b[k + 1..])) + multiset(MentionsOf(b[k].worker, b[k].claims))
  {
    hide *;
    var front, back := b[..k], b[k + 1..];
    assert b == front + [b[k]] + back;
    MentionsSnoc(front, b[k]);
    MentionsConcat(front + [b[k]], back);
    MentionsConcat(front, back);
  }

  /** Permuting the workers leaves the mentions the same, as a multiset. */
  lemma {:induction false} PermutedWorkers(a: seq<WorkerOutput>, b: seq<WorkerOutput>)
    requires multiset(a) == multiset(b)
    ensures multiset(Mentions(a)) == multiset(Mentions(b))
    decreases |a|
  {
    if a == [] {
      assert |multiset(b)| == |b|;
    } else {
      var last, before := a[|a| - 1], a[..|a| - 1];
      assert a == before + [last];
      assert last in multiset(b);
      var k :| 0 <= k < |b| && b[k] == last;
      var rest := b[..k] + b[k + 1..];
      RestPermuted(a, b, k);
      PermutedWorkers(before, rest);
      MentionsOfRest(b, k);
    }
  }

  lemma {:induction false} MentionsOfCount(worker: string, claims: seq<WorkerClaim>, m: Mention)
    ensures multiset(MentionsOf(worker, claims))[m]
            == if m.worker == worker then multiset(claims)[WorkerClaim(m.target, m.claim)] else 0
  {
    if claims != [] {
      var rest, last := claims[..|claims| - 1], claims[|claims| - 1];
      assert MentionsOf(worker, claims) == MentionsOf(worker, rest) + [Mention(last.target, last.claim, worker)];
      hide *;
      MentionsOfCount(worker, rest, m);
      assert claims == rest + [last];
    }
  }

  /** So does permuting the claims each worker makes. */
  lemma {:induction false} PermutedClaims(a: seq<WorkerOutput>, b: seq<WorkerOutput>)
    requires |a| == |b|
    requires forall i :: 0 <= i < |a| ==> a[i].worker == b[i].worker && multiset(a[i].claims) == multiset(b[i].claims)
    ensures multiset(Mentions(a)) == multiset(Mentions(b))
  {
    if a != [] {
      PermutedClaims(a[..|a| - 1], b[..|b| - 1]);
      var x, y := a[|a| - 1], b[|b| - 1];
      forall m ensures multiset(MentionsOf(x.worker, x.claims))[m] == multiset(MentionsOf(y.worker, y.claims))[m] {
        MentionsOfCount(x.worker, x.claims, m);
        MentionsOfCount(y.worker, y.claims, m);
      }
    }
  }

  // ----- each result is listed once -----

  /** What the agreed claims are about. */
  function Topics(agreed: seq<AgreedClaim>): seq<(string, string)> {
    if agreed == [] then []
    else
      var last := agreed[|agreed| - 1];
      Topics(agreed[..|agreed| - 1]) + [(last.target, last.claim)]
  }

  lemma {:induction false} TopicsConcat(a: seq<AgreedClaim>, b: seq<AgreedClaim>)
    ensures Topics(a + b) == Topics(a) + Topics(b)
  {
    if b == [] {
      assert a + b == a;
    } else {
      assert (a + b)[..|a + b| - 1] == a + b[..|b| - 1];
      TopicsConcat(a, b[..|b| - 1]);
    }
  }

  lemma {:induction false} TopicsAre(agreed: seq<AgreedClaim>, x: (string, string))
    ensures x in Topics(agreed) <==> exists a :: a in agreed && (a.target, a.claim) == x
  {
    if agreed != [] {
      var before, last := agreed[..|agreed| - 1], agreed[|agreed| - 1];
      TopicsAre(before, x);
      assert agreed == before + [last];
      if x in Topics(before) {
        var a :| a in before && (a.target, a.claim) == x;
        assert a in agreed;
      }
    }
  }

  /** The claim is that of some entry. */
  ghost predicate Entered(entries: seq<Entry>, claim: string) {
    exists i :: 0 <= i < |entries| && entries[i].claim == claim
  }

  lemma {:induction false} AmongDistinct(target: string, entries: seq<Entry>, sole: bool)
    requires forall i, j :: 0 <= i < j < |entries| ==> entries[i].claim != entries[j].claim
    ensures Distinct(Topics(AgreedAmong(target, entries, sole)))
    ensures forall x :: x in Topics(AgreedAmong(target, entries, sole)) ==> x.0 == target && Entered(entries, x.1)
  {
    if entries != [] {
      var before, last := entries[..|entries| - 1], entries[|entries| - 1];
      AmongDistinct(target, before, sole);
      var added := if !sole && |last.workers| <= 1 then [] else [AgreedClaim(target, last.claim, last.workers)];
      var earlier := Topics(AgreedAmong(target, before, sole));
      TopicsConcat(AgreedAmong(target, before, sole), added);
      OneTopic(target, last, added);
      LastEntered(entries);
      forall x | x in earlier ensures x !in Topics(added) && Entered(entries, x.1) {
        EarlierEntered(entries, x.1);
      }
      assert Distinct(Topics(added));
      hide Topics, Distinct, Entered;
      DistinctConcat(earlier, Topics(added));
    }
  }

  lemma LastEntered(entries: seq<Entry>)
    requires entries != []
    ensures Entered(entries, entries[|entries| - 1].claim)
  {
    assert entries[|entries| - 1].claim == entries[|entries| - 1].claim;
  }

  lemma EarlierEntered(entries: seq<Entry>, claim: string)
    requires entries != [] && Entered(entries[..|entries| - 1], claim)
    requires forall i, j :: 0 <= i < j < |entries| ==> entries[i].claim != entries[j].claim
    ensures Entered(entries, claim) && claim != entries[|entries| - 1].claim
  {
    var i :| 0 <= i < |entries| - 1 && entries[..|entries| - 1][i].claim == claim;
    assert entries[i].claim == claim;
  }

  lemma OneTopic(target: string, entry: Entry, added: seq<AgreedClaim>)
    requires added == [] || added == [AgreedClaim(target, entry.claim, entry.workers)]
    ensures Topics(added) == [] || Topics(added) == [(target, entry.claim)]
  {
    assert added != [] ==> added[..|added| - 1] == [];
  }

  lemma TopicsAmong(mentions: seq<Mention>, target: string)
    ensures var entries := EntriesFor(mentions, target, Texts(mentions, target));
            var topics := Topics(AgreedAmong(target, entries, |entries| == 1));
            Distinct(topics) && forall x :: x in topics ==> x.0 == target
  {
    var texts := Texts(mentions, target);
    var entries := EntriesFor(mentions, target, texts);
    TextsAre(mentions, target);
    EntriesAre(mentions, target, texts);
    hide AgreedAmong, EntriesFor, Texts, Topics, WorkersFor;
    AmongDistinct(target, entries, |entries| == 1);
  }

  lemma TopicsOf(mentions: seq<Mention>, targets: seq<string>, x: (string, string))
    requires x in Topics(Reconciled(mentions, targets).agreed)
    ensures x.0 in targets
  {
    hide Reconciled, Topics, IsAgreed;
    TopicsAre(Reconciled(mentions, targets).agreed, x);
    var a :| a in Reconciled(mentions, targets).agreed && (a.target, a.claim) == x;
    AgreedIff(mentions, targets, a);
  }

  lemma {:induction false} AgreedDistinct(mentions: seq<Mention>, targets: seq<string>)
    requires Distinct(targets)
    ensures Distinct(Topics(Reconciled(mentions, targets).agreed))
  {
    if targets != [] {
      var before, last := targets[..|targets| - 1], targets[|targets| - 1];
      var entries := EntriesFor(mentions, last, Texts(mentions, last));
      var earlier, added := Reconciled(mentions, before).agreed, AgreedAmong(last, entries, |entries| == 1);
      assert last !in before;
      assert Reconciled(mentions, targets).agreed == earlier + added;
      AgreedDistinct(mentions, before);
      hide *;
      TopicsAmong(mentions, last);
      TopicsConcat(earlier, added);
      forall x | x in Topics(earlier) ensures x !in Topics(added) {
        TopicsOf(mentions, before, x);
      }
      DistinctConcat(Topics(earlier), Topics(added));
    }
  }

  /** No claim is agreed twice. */
  lemma AgreedOnce(mentions: seq<Mention>)
    ensures Distinct(Topics(ResultFor(mentions).agreed))
  {
    MentionedTargets(mentions, "");
    AgreedDistinct(mentions, FirstSeen(TargetsIn(mentions)));
  }

  /** Permuting the claims permutes the list of agreed claims: the two lists are about the same things,
      each once, and AgreementIgnoresOrder gives the workers. */
  lemma AgreedListsCorrespond(a: seq<Mention>, b: seq<Mention>)
    requires multiset(a) == multiset(b)
    ensures multiset(Topics(ResultFor(a).agreed)) == multiset(Topics(ResultFor(b).agreed))
    ensures |ResultFor(a).agreed| == |ResultFor(b).agreed|
  {
    var x, y := ResultFor(a).agreed, ResultFor(b).agreed;
    AgreedOnce(a);
    AgreedOnce(b);
    hide ResultFor, Topics, Distinct;
    forall t ensures t in Topics(x) <==> t in Topics(y) {
      SameTopics(a, b, t);
      SameTopics(b, a, t);
    }
    DistinctBag(Topics(x), Topics(y));
    TopicsMany(x);
    TopicsMany(y);
    assert |Topics(x)| == |multiset(Topics(x))| && |Topics(y)| == |multiset(Topics(y))|;
  }

  lemma SameTopics(a: seq<Mention>, b: seq<Mention>, t: (string, string))
    requires multiset(a) == multiset(b)
    ensures t in Topics(ResultFor(a).agreed) ==> t in Topics(ResultFor(b).agreed)
  {
    hide ResultFor, Topics;
    TopicsAre(ResultFor(a).agreed, t);
    TopicsAre(ResultFor(b).agreed, t);
    if t in Topics(ResultFor(a).agreed) {
      var x :| x in ResultFor(a).agreed && (x.target, x.claim) == t;
      var y := AgreementIgnoresOrder(a, b, x);
    }
  }

  lemma {:induction false} TopicsMany(agreed: seq<AgreedClaim>)
    ensures |Topics(agreed)| == |agreed|
  {
    if agreed != [] { TopicsMany(agreed[..|agreed| - 1]); }
  }

  // ----- occurrences and workers -----

  /** The rule that would count workers instead of occurrences. */
  ghost predicate AgreedByWorkers(mentions: seq<Mention>, target: string, claim: string) {
    && claim in TextsFor(mentions, target)
    && ((forall c :: c in TextsFor(mentions, target) ==> c == claim) ||
        exists v, w :: v in WorkersFor(mentions, target, claim) && w in WorkersFor(mentions, target, claim) && v != w)
  }

  ghost predicate OnlyBy(mentions: seq<Mention>, target: string, claim: string, worker: string) {
    forall v :: v in WorkersFor(mentions, target, claim) ==> v == worker
  }

  /** No worker that is alone with a text about a disputed target repeats it. */
  ghost predicate NobodyInsists(mentions: seq<Mention>) {
    forall t, c, w :: Disagreed(mentions, t) && OnlyBy(mentions, t, c, w) ==> multiset(mentions)[Mention(t, c, w)] <= 1
  }

  lemma {:induction false} AllBy(workers: seq<string>, w: string)
    requires forall v :: v in workers ==> v == w
    ensures multiset(workers)[w] == |workers|
  {
    if workers != [] {
      var before, last := workers[..|workers| - 1], workers[|workers| - 1];
      assert last in workers && forall v :: v in before ==> v in workers;
      AllBy(before, w);
      assert workers == before + [last];
    }
  }

  lemma AgreedEitherWay(mentions: seq<Mention>, t: string, c: string)
    requires NobodyInsists(mentions)
    ensures IsAgreed(mentions, t, c) <==> AgreedByWorkers(mentions, t, c)
  {
    var workers := WorkersFor(mentions, t, c);
    hide TextsFor, WorkersFor;
    if |workers| >= 2 && c in TextsFor(mentions, t) && !(forall d :: d in TextsFor(mentions, t) ==> d == c) {
      var w := workers[0];
      assert Disagreed(mentions, t);
      if OnlyBy(mentions, t, c, w) {
        AllBy(workers, w);
        WorkersCount(mentions, t, c, w);
      } else {
        var v :| v in workers && v != w;
        assert v in workers && w in workers;
      }
    }
    if v, w :| v in workers && w in workers && v != w {
      var i, j :| 0 <= i < |workers| && 0 <= j < |workers| && workers[i] == v && workers[j] == w;
      assert |workers| >= 2;
    }
  }

  lemma InsistingAgrees(mentions: seq<Mention>, t: string, c: string, w: string)
    requires Disagreed(mentions, t) && OnlyBy(mentions, t, c, w) && multiset(mentions)[Mention(t, c, w)] > 1
    ensures IsAgreed(mentions, t, c) && !AgreedByWorkers(mentions, t, c)
  {
    WorkersCount(mentions, t, c, w);
    WorkersIffText(mentions, t, c);
    var workers := WorkersFor(mentions, t, c);
    hide TextsFor, WorkersFor;
    AllBy(workers, w);
  }

  /** Occurrences are counted, not workers. Counting workers would agree on the same texts exactly
      when no worker that is alone with a text about a disputed target repeats it. */
  lemma CountingWorkersIff(mentions: seq<Mention>)
    ensures (forall t, c :: IsAgreed(mentions, t, c) <==> AgreedByWorkers(mentions, t, c)) <==> NobodyInsists(mentions)
  {
    hide IsAgreed, AgreedByWorkers, Disagreed, OnlyBy;
    if NobodyInsists(mentions) {
      forall t, c ensures IsAgreed(mentions, t, c) <==> AgreedByWorkers(mentions, t, c) {
        AgreedEitherWay(mentions, t, c);
      }
    } else {
      var t, c, w :| Disagreed(mentions, t) && OnlyBy(mentions, t, c, w) && multiset(mentions)[Mention(t, c, w)] > 1;
      InsistingAgrees(mentions, t, c, w);
    }
  }
}
