# micode, modelled and proved

A Dafny model of the algorithms, document formats and event-driven state machines inside micode, with
proofs of what they are for. Verify it with `dafny verify dfyconfig.toml`.

Where the source keeps state in closures and Maps, the model has a class with those fields, or a loop over
local ones, and every method is proved against a function of the old state; the theorems over whole runs
are then about those functions. Where the source is an expression, so is the model. Values that the source
returns as null or undefined are options, exceptions are error results.

What the modules are about:

- **EditDistance**: the distance matrix behind the agent name suggestions computes the least number of
  edits, not merely its own recurrence, and that number is a metric.
- **IssueMarkers, IssueBody, LifecycleTypes**: lifecycle state and artifacts live in marked blocks of an issue
  body. Text search runs across the seams of concatenated text, so the proofs rest on markers that no seam
  can complete.
- **Frontmatter, AtlasPage, Wikilink**: atlas pages are printed and read back; heads, sections, bullets and
  links survive exactly under conditions that are proved necessary as well as sufficient.
- **Lru, FetchTracker, Mindmodel, JsMaps**: caches built on the insertion order of JavaScript Maps
  (section 24.1 of ECMA-262) agree with the uncached thing; the task hash is a polynomial reduced to signed 32 bits
  (section 7.1.6 of ECMA-262).
- **SessionRecovery, AutoCompact, Semaphores**: event handlers and timers that interleave at every await. The
  claims hold over all runs.
- **Markers, CommitRecovery, FinishGuards, Lifecycle, CleanupClassifier, CleanupPolicy**: the lifecycle of an
  issue, with a crash between committing and journalling, the gate in front of a merge, and a cleanup of
  which it is proved exactly when it loses no reported file.
- **Reconciler**: the claims of the atlas workers are conserved and their order does not matter.

Several promises hold only under a condition. The model states it as an if and only if, or gives the run
that breaks the promise outside it:

- Deleting a session drops everything whose key starts with its id and a colon, so it also releases the lock
  of a session whose own id starts that way. One pending retry per session is exactly the case in which no
  session id starts with another one and a colon (`SessionRecovery.OneTimerIffSeparate`).
- Deleting a session keeps compactions one at a time exactly when none was running: otherwise a second one can
  start once the cooldown is over, with no further deletion (`AutoCompact.DeletionIsSafeIff`).
- A begin marker without its end makes every replacement append a new block that is never read
  (`IssueMarkers.ExtractAfterReplace`).
- A call that overlaps a finish saves the record it loaded before and reopens a cleaned lifecycle
  (`Lifecycle.OverlapDrops`). The state goes back exactly when some call saves what a step after its load has
  overtaken (`Lifecycle.NeverDropsIffNotOvertaken`).
- Two rewrites are one by the composed mapping, for every second mapping, exactly when no value of the first that
  can be written into a link holds a ] (`Wikilink.RewriteComposesIff`).
- Recovery reads the marker of a commit in its message, below the summary. A summary that quotes a marker, or
  that opens one and so swallows the fields up to the real one, is read instead; the event is rebuilt exactly
  when neither changes a field (`Markers.MarkerIsReadIff`, `CommitRecovery.CrashedCommitIsRebuilt`).
- Deleting a session stops no resume that is under way. The prompts sent after a deletion are at most three and
  those under way at it, and that many can be sent; they stay within three exactly when none was under way
  (`SessionRecovery.ResumesAreBounded`, `SessionRecovery.MostResumes`, `SessionRecovery.ThreeIffNoneUnderWay`).
- Deleting a session stops no dedup timer either. An old one cuts the window of a newer error of that type short
  (`SessionRecovery.OldDedupCutsShort`).
- A mapping with a blank key turns a blank link into whatever links its value makes between double brackets
  (`Wikilink.BlankKeyAddsLink`, `Wikilink.ExtractOfRewriteIff`).
- A cleanup keeps every reported file, in place or at its own backup, exactly when no move goes to where a later
  reported file lies and the worktree is not removed with the backups inside (`CleanupPolicy.CleanupKeepsAllIff`).
  The backups are below the directory the cleanup runs in, so one that runs in the worktree it removes, or below,
  moves every file into the tree that is then deleted (`CleanupPolicy.RunInsideLosesBackups`,
  `CleanupPolicy.RunInsideLosesFile`).
- A reported line is moved as its trimmed path. A file whose own name is not trimmed stays behind and is lost with
  the worktree, which needs a file of the trimmed name beside it (`CleanupPolicy.NoReportedLineIsLost`,
  `CleanupPolicy.AbsentPathStopsRemove`).
- A file that already lies at a backup path keeps its content exactly when no other content is moved there, it is
  not moved away itself and the worktree is not removed with it inside (`CleanupPolicy.BackupIsOverwritten`).
- A fetched result is served again only while fewer other resources than the cache holds were used since
  (`FetchTracker.ServedIff`).
- Two tasks of equal hash share one cached injection; the cache is right exactly when the computation does not
  tell them apart (`Mindmodel.CacheAgreesIff`).
- One worker that repeats a claim is enough to agree on it; counting workers would agree on the same texts
  exactly when no worker insists like that (`Reconciler.CountingWorkersIff`).
- A release by somebody who holds nothing always costs the cap: at once if somebody is waiting, and otherwise
  as soon as the room it made is used, however properly (`Semaphores.StrayReleaseIff`).

Assumptions about the surroundings: time is an input that never decreases; timers fire in the order in which
they are due; a Set or Map is walked in insertion order; a char is one UTF-16 code unit and white space is what
`trim` drops; git, gh, the file system, the clock and the client are answers given from outside.

## Model

| member | source | states |
|---|---|---|
| EditDistance.InitLevenshteinMatrix | src/hooks/fragment-injector.ts:95-104 | the first column and row count up from 0 |
| EditDistance.FillLevenshteinRow | src/hooks/fragment-injector.ts:109-117 | filling row i, with the shortcut on equal characters, makes every cell up to row i the distance of the two prefixes |
| EditDistance.LevenshteinDistance | src/hooks/fragment-injector.ts:122-130 | the last cell is the recurrence that LevIsEditDistance proves minimal |
| EditDistance.LevIsEditDistance | src/hooks/fragment-injector.ts:109-130 | the distance is exactly the least number of insertions, deletions and substitutions over all scripts: some script has that length and none is shorter |
| EditDistance.LevIsLowerBound | src/hooks/fragment-injector.ts:109-117 | no script that turns a into b is shorter than the distance |
| EditDistance.ShortestScript | src/hooks/fragment-injector.ts:109-117 | constructs a script of exactly that length |
| EditDistance.ZeroOnlyForEqual | src/hooks/fragment-injector.ts:122-130 | zero exactly for equal strings |
| EditDistance.LevSymmetric | src/hooks/fragment-injector.ts:122-130 | symmetric, although rows and columns are treated differently |
| EditDistance.TriangleInequality | src/hooks/fragment-injector.ts:122-130 | the triangle inequality on all strings |
| EditDistance.LengthBounds | src/hooks/fragment-injector.ts:122-130 | between the length difference and the longer length |
| EditDistance.FindClosestAgent | src/hooks/fragment-injector.ts:135-149 | the first of the closest names among those within half their length rounded up; none exactly when no name qualifies |
| IssueMarkers.MarkersAreMarkers | src/lifecycle/issue-body-markers.ts:1-11 | every marker has < only at its start and > only at its end, so none can straddle a seam |
| IssueMarkers.ReplaceFrame | src/lifecycle/issue-body-markers.ts:21-28 | the body after replacing is what was before the block, the new block, and what was after; appended after the trimmed body when there is no block |
| IssueMarkers.BodyFrame | src/lifecycle/issue-body-markers.ts:13-28 | what ReplaceFrame calls before and after is the body around its old block |
| IssueMarkers.ExtractAfterReplace | src/lifecycle/issue-body-markers.ts:13-28 | extracting after replacing gives the trimmed replacement if and only if the begin marker is not left without an end |
| IssueMarkers.ReplaceTwice | src/lifecycle/issue-body-markers.ts:21-28 | replacing twice is replacing once with the last value |
| IssueMarkers.ReplaceSame | src/lifecycle/issue-body-markers.ts:21-28 | replacing a block by what it holds changes nothing |
| IssueMarkers.ReplaceKeepsOthers | src/lifecycle/issue-body-markers.ts:13-28 | replacing one block keeps the raw text and the presence of every other disjoint pair |
| IssueMarkers.ReplaceKeepsExtracted | src/lifecycle/issue-body-markers.ts:13-28 | what is extracted for any other disjoint pair does not change |
| IssueMarkers.ReplaceKeepsPairs | src/lifecycle/issue-body-markers.ts:13-28 | a body with well-formed pairs keeps them well formed, so that replacements can be chained |
| IssueBody.ParseArtifacts | src/lifecycle/issue-body.ts:74-85 | the loop collects the pointers of each kind in the order of their rows |
| IssueBody.ParseIssueBody | src/lifecycle/issue-body.ts:104-114 | state and artifacts of a body, each only if its block is there |
| IssueBody.CellsOfRow | src/lifecycle/issue-body.ts:38-72 | what a printed row is read as, for any pointer: the pointer up to its first bar, trimmed |
| IssueBody.RowRoundTrip | src/lifecycle/issue-body.ts:38-72 | a row is read back if and only if its pointer is trimmed, not empty and free of bars |
| IssueBody.RowReadsIff | src/lifecycle/issue-body.ts:60-73 | for any line: it is a row if and only if, trimmed, it is two cells or more between bars, the first the name of a kind and the second not blank |
| IssueBody.TableRoundTrip | src/lifecycle/issue-body.ts:38-85 | a printed table is parsed back to the same lists |
| IssueBody.StateTextRoundTrip | src/lifecycle/issue-body.ts:36-57 | a printed state is parsed back |
| IssueBody.StateReadsIff | src/lifecycle/issue-body.ts:53-58 | for any text: a state is read if and only if the trimmed rest after the prefix, in capital or small letters and there or not, is its name |
| IssueBody.ChecklistTicks | src/lifecycle/issue-body.ts:46-52 | the checklist has a line for every state in order and ticks the one it is in and no other |
| IssueBody.RenderedHolds | src/lifecycle/issue-body.ts:87-102 | after rendering, each block holds its text and the body is still well formed |
| IssueBody.ParseOfRendered | src/lifecycle/issue-body.ts:87-114 | parsing what was rendered gives back the state and every artifact list in order, whatever else the body says |
| IssueBody.RenderIdempotent | src/lifecycle/issue-body.ts:87-102 | rendering twice is rendering once |
| Wikilink.StartsLinkIff | src/atlas/wikilink.ts:1 | the scanner finds a link exactly where the pattern matches |
| Wikilink.ExtractWikilinks | src/atlas/wikilink.ts:19-26 | the loop yields the trimmed, non-blank inner texts in order |
| Wikilink.RewriteIsRender | src/atlas/wikilink.ts:28-34 | rewriting is replacing the link tokens of a text and nothing else |
| Wikilink.ScanOfRewrite | src/atlas/wikilink.ts:28-34 | scanning after rewriting is rewriting the scan: no link appears, disappears or moves |
| Wikilink.TextBetweenLinksKept | src/atlas/wikilink.ts:28-34 | all text between links is unchanged |
| Wikilink.ExtractOfRewrite | src/atlas/wikilink.ts:19-34 | extracting after rewriting is mapping the extracted links, for every mapping whose values are trimmed and free of ] and whose blank key, if any, has a value that makes no link |
| Wikilink.ExtractOfRewriteIff | src/atlas/wikilink.ts:19-34 | for every mapping: it does so on every text if and only if its values are trimmed and free of ], and the value of a blank key, written between double brackets, holds no link |
| Wikilink.BlankKeyAddsLink | src/atlas/wikilink.ts:28-34 | a blank key turns the blank link into the links its value makes between double brackets; into the value itself when that is not blank and free of ] |
| Wikilink.RewriteComposes | src/atlas/wikilink.ts:28-34 | with values free of ], rewriting by one mapping and then another is one rewrite by their composition |
| Wikilink.RewriteComposesIff | src/atlas/wikilink.ts:28-34 | for every first mapping: it is so on every text and for every second mapping if and only if no value of a key that a link can have, the blank one included, holds a ] |
| Frontmatter.SerializeFrontmatter | src/atlas/frontmatter.ts:100-113 | the pushed lines, joined, are the text the round trip is about |
| Frontmatter.CollectListItems | src/atlas/frontmatter.ts:35-43 | the items from a line on, and where they end |
| Frontmatter.EnsureRequired | src/atlas/frontmatter.ts:55-59 | the first required key that is missing |
| Frontmatter.ParseFrontmatter | src/atlas/frontmatter.ts:61-98 | the loop over lines is the recursive reading of them, with the same errors in the same order |
| Frontmatter.DocumentSplits | src/atlas/frontmatter.ts:20-27 | the closing line is found where it was written, and the body after it is exact |
| Frontmatter.AnyDocumentSplits | src/atlas/frontmatter.ts:20-28 | any document: the head ends at the first line that starts with the delimiter; one character after it and then one line break, if there is one, are not part of the body |
| Frontmatter.NoDocument | src/atlas/frontmatter.ts:20-28 | the two errors: no delimiter in front, or none that closes the head |
| Frontmatter.RoundTrip | src/atlas/frontmatter.ts:61-113 | parsing inverts serializing exactly, body included |
| Frontmatter.RoundTripIff | src/atlas/frontmatter.ts:61-113 | it does so if and only if every field is trimmed and on one line and every extra key is plain |
| Frontmatter.ParsedIsReadable | src/atlas/frontmatter.ts:29-98 | whatever is parsed, from any text, is trimmed and on one line |
| Frontmatter.NamesReadIff | src/atlas/frontmatter.ts:45-53 | exactly the names are read as layers and statuses, and the errors quote the text |
| Frontmatter.NumberReadsAs | src/atlas/frontmatter.ts:93 | the time is the number of the leading digits after a sign, whatever follows |
| Frontmatter.NumberIsWritten | src/atlas/frontmatter.ts:99-113 | it is written without a sign unless it is below zero |
| Frontmatter.HeadReadsIff | src/atlas/frontmatter.ts:55-97 | a head is read if and only if all required keys are there and layer and status are names; the error is that of the first missing key, then of the layer, then of the status |
| Frontmatter.MissingIsFirst | src/atlas/frontmatter.ts:55-59 | the missing key named is the first one that is missing |
| Frontmatter.LaterFieldWins | src/atlas/frontmatter.ts:61-85 | of a field written twice the later value counts |
| Frontmatter.LaterSourcesWin | src/atlas/frontmatter.ts:61-85 | a list of sources replaces an earlier one |
| Frontmatter.DelimiterKeyIsLost | src/atlas/frontmatter.ts:20-27 | an extra key that starts with --- closes the head early and is never read back |
| AtlasPage.SplitSections | src/atlas/page-reader.ts:16-33 | the loop gives every section the lines that follow its headings |
| AtlasPage.HeadingIff | src/atlas/page-reader.ts:16-33 | exactly four lines begin a section |
| AtlasPage.ReadPage | src/atlas/page-reader.ts:44-57 | the node of a file; none for no file, an error for a head that does not parse |
| AtlasPage.CollectsBack | src/atlas/page-reader.ts:35-42 | a printed bullet list is collected back; it never looks like a heading |
| AtlasPage.CollectedAreItems | src/atlas/page-reader.ts:35-42 | whatever is collected is trimmed, on one line and not empty |
| AtlasPage.CollectsEveryLine | src/atlas/page-reader.ts:35-42 | for all texts: what is collected from two texts, one line after the other, is what each gives; a line that is no bullet gives nothing and a bullet gives its trimmed rest |
| AtlasPage.HeadingsLoseInk | src/atlas/page-reader.ts:16-33 | a section takes less text than its lines have as soon as one of them is a heading |
| AtlasPage.BodySplits | src/atlas/templates.ts:22-29 | the lines of a rendered body are the four blocks |
| AtlasPage.FrontIsBlank | src/atlas/templates.ts:22-29 | whatever white space and line breaks are around a title, and even if its own line looks like a section heading, it leaves only blank lines in any section |
| AtlasPage.SectionsAreBack | src/atlas/templates.ts:22-61 | with a summary free of headings, every section is read as its own text |
| AtlasPage.PageRoundTrip | src/atlas/templates.ts:42-61 | a rendered node is read back: head, trimmed summary, connections, sources as links, no notes |
| AtlasPage.PageRoundTripIff | src/atlas/templates.ts:42-61 | for every node: it is so if and only if the head is clean, the summary has no line that is a section heading, and all items are trimmed, not empty and on one line |
| AtlasPage.ExtrasAreValid | src/atlas/display-extras.ts:38-46 | the extra fields are at most title, aliases and source_path |
| AtlasPage.ExtrasRead | src/atlas/display-extras.ts:38-46 | the title if it is not blank, the id if it says something else, the path of the first code pointer if there is one |
| AtlasPage.PointerIff | src/atlas/pointer.ts:18-36 | a pointer is one of five kinds, a colon and any value |
| AtlasPage.LinkReads | src/atlas/source-link.ts:20-26 | a code pointer becomes a link to its value in the repository; any other text stays |
| AtlasPage.SlashesStripped | src/atlas/source-link.ts:8-26 | all slashes at the end of the repository address are taken off, and nothing else |
| AtlasPage.FirstCodeIff | src/atlas/display-extras.ts:19-25 | the path is that of the first code pointer, without its line anchor |
| AtlasPage.AnchorIff | src/atlas/display-extras.ts:3 | a line anchor is #L and digits, perhaps with a dash, perhaps an L, and digits |
| AtlasPage.AnchorStripped | src/atlas/display-extras.ts:17 | the anchor is taken off at the first place where the rest of the path is one |
| Lru.LRUCache.Get | src/hooks/fetch-tracker.ts:30-37 | a hit returns the value and moves the key to the end |
| Lru.LRUCache.Set | src/hooks/fetch-tracker.ts:39-47 | a new key of a full cache evicts the first one |
| Lru.RunInvariant | src/hooks/fetch-tracker.ts:26-57 | over every trace: distinct keys, size within capacity, each value the last one set |
| Lru.Inclusion | src/hooks/fetch-tracker.ts:26-57 | over every trace, the cache of capacity k is that of capacity k + 1 with at most one entry missing, in the same order |
| Lru.LargerCacheHits | src/hooks/fetch-tracker.ts:26-57 | what hits in a smaller cache hits in every larger one, with the last-set value |
| Lru.HeldIff | src/hooks/fetch-tracker.ts:26-57 | over every trace: a key is in the cache if and only if it was set and at no time since it was last set or found were as many other keys as the cache holds set or found; a definition without any cache |
| Lru.StackDistance | src/hooks/fetch-tracker.ts:26-57 | over every trace without deletes: a key is in the cache if and only if it was set and fewer other keys than the cache holds were set or found since its last use |
| FetchTracker.Tracker.ClearSession | src/hooks/fetch-tracker.ts:127-130 | the session is new again, no other session changes |
| FetchTracker.Tracker.IncrementCount | src/hooks/fetch-tracker.ts:152-158 | one more call of that key, nothing else changes |
| FetchTracker.Tracker.HandleFetchAfter | src/hooks/fetch-tracker.ts:197-236 | one call on a session: its new state, its output, and no other session changed |
| FetchTracker.SessionsAreIndependent | src/hooks/fetch-tracker.ts:62-65 | over any interleaving, a session has the state and outputs of running it alone |
| FetchTracker.CountsAreCalls | src/hooks/fetch-tracker.ts:152-158 | the count is the number of calls since the last clear |
| FetchTracker.BlockedIff | src/hooks/fetch-tracker.ts:206-211 | a call is blocked if and only if maxCallsPerResource calls came before it since the clear |
| FetchTracker.CacheIsLatestFresh | src/hooks/fetch-tracker.ts:213-224 | every cached entry is the latest non-empty fresh output of its key since the clear |
| FetchTracker.ServedIsLatestFresh | src/hooks/fetch-tracker.ts:213-219 | a served result is that output, no older than the time to live |
| FetchTracker.HeldIff | src/hooks/fetch-tracker.ts:206-224 | over every run, a session's cache has a key if and only if there is a fresh output of it and fewer other keys than the cache holds were used since; the right side is told from the calls alone |
| FetchTracker.ServedIff | src/hooks/fetch-tracker.ts:206-224 | over every run, a call is served if and only if it is a repeated one within the limit, a fresh output within its time to live exists, and fewer other keys than the cache holds were used since its own; which earlier calls were fresh or used their key is told by the same rule, without a cache |
| FetchTracker.ServedInSmallSession | src/hooks/fetch-tracker.ts:206-224 | while a session uses no more keys than the cache holds, the last condition holds by itself |
| FetchTracker.OutputIs | src/hooks/fetch-tracker.ts:197-236 | over every run, the output a call ends with: a text of the count alone once the limit is reached; the latest fresh output after a fixed opening, and before a fixed warning if and only if the count has reached the threshold, when it is served; and otherwise the output it came with |
| FetchTracker.TextsTellCount | src/hooks/fetch-tracker.ts:206-236 | each text that is added to an output tells the count |
| FetchTracker.CachedIsNotEmpty | src/hooks/fetch-tracker.ts:221-224 | nothing empty is ever cached or served |
| Mindmodel.HashTask | src/hooks/mindmodel-injector.ts:26-34 | the loop computes the 32-bit recurrence |
| Mindmodel.SumIsExact | src/hooks/mindmodel-injector.ts:28-32 | every intermediate value is inside the range of exact doubles |
| Mindmodel.HashIsPoly | src/hooks/mindmodel-injector.ts:26-34 | the hash is the base-31 polynomial of the characters reduced to signed 32 bits |
| Mindmodel.HashConcat | src/hooks/mindmodel-injector.ts:26-34 | the hash of a concatenation is determined by the two hashes and the second length |
| Mindmodel.KeyIffHash | src/hooks/mindmodel-injector.ts:26-34 | two tasks have the same base-36 key if and only if they have the same hash |
| Mindmodel.Injector.BeginResolve | src/hooks/mindmodel-injector.ts:91-95 | the look-up before the examples are loaded |
| Mindmodel.Injector.FinishResolve | src/hooks/mindmodel-injector.ts:97-111 | the entry after it, with an empty text for nothing |
| Mindmodel.CacheIsOfRun | src/hooks/mindmodel-injector.ts:86-112 | every entry was computed for some task of the run |
| Mindmodel.HitIsUncached | src/hooks/mindmodel-injector.ts:86-112 | with distinct hashes, a hit is what the uncached computation yields, up to empty versus null, through any evictions and interleavings |
| Mindmodel.HitIsNotEmpty | src/hooks/mindmodel-injector.ts:91-95 | a hit of nothing is read as nothing |
| Mindmodel.CollisionServesOtherTask | src/hooks/mindmodel-injector.ts:86-112 | tasks of equal hash are served each other's result |
| Mindmodel.CacheAgreesIff | src/hooks/mindmodel-injector.ts:86-112 | for every computation and capacity: every hit of every run is what the uncached computation yields if and only if it yields the same for all tasks of equal hash |
| Mindmodel.CollisionExists | src/hooks/mindmodel-injector.ts:26-34 | two tasks of equal hash |
| SessionRecovery.DropOwnedCounts | src/hooks/session-recovery.ts:275-280 | the loop drops exactly the keys that start with the session and a colon |
| SessionRecovery.RecoveryHook.HandleUpstreamRecoverable | src/hooks/session-recovery.ts:231-270 | one upstream error: lock, count, arm the retry |
| SessionRecovery.RecoveryHook.RemovePendingTimer | src/hooks/session-recovery.ts:211-221 | the timer leaves the session's set, an empty set is dropped |
| SessionRecovery.RecoveryHook.FireTimer | src/hooks/session-recovery.ts:252-268 | a timer callback: bookkeeping, unlock, prompt |
| SessionRecovery.RecoveryHook.DeduplicateError | src/hooks/session-recovery.ts:286-292 | new exactly when the key is not being processed; then its expiry is armed |
| SessionRecovery.RecoveryHook.AttemptRecovery | src/hooks/session-recovery.ts:144-181 | one more attempt, or none after three |
| SessionRecovery.RecoveryHook.HandleSemanticError | src/hooks/session-recovery.ts:300-315 | a recoverable error after deduplication |
| SessionRecovery.RecoveryHook.CleanupSession | src/hooks/session-recovery.ts:272-284 | timers, locks and counters whose keys start with the session and a colon are gone |
| SessionRecovery.OwnsIff | src/hooks/session-recovery.ts:272-284 | deleting a session drops a key of another exactly when that one's id starts with the first and a colon |
| SessionRecovery.StepKeepsWheel | src/hooks/session-recovery.ts:231-292 | every step keeps locks, timers and expiries matched |
| SessionRecovery.RunInvariant | src/hooks/session-recovery.ts:144-292 | every run of errors, timers, resumes and deletions keeps locks, timers and expiries matched, the retry prompts and pending timers equal to the scheduled attempts, and the recovery attempts within three |
| SessionRecovery.RetriesAreBounded | src/hooks/session-recovery.ts:231-270 | prompts fired plus timers pending equals scheduled attempts, at most maxAttempts; at most one pending timer, exactly while the key is processed |
| SessionRecovery.ErrorSchedulesIff | src/hooks/session-recovery.ts:231-270 | in every invariant state, an upstream error schedules a retry if and only if none is pending for the session and fewer than maxAttempts prompts were sent since its deletion |
| SessionRecovery.TimersAreDue | src/hooks/session-recovery.ts:252-292 | in every run, an armed timer was set by an error of its session or key and is due the configured time after it |
| SessionRecovery.FiresOnTime | src/hooks/session-recovery.ts:26-30 | in every run, a retry fires no sooner than 30 s after the error that set it, a window ends after 10 s, a lock expires after 60 s |
| SessionRecovery.DedupWindow | src/hooks/session-recovery.ts:286-292 | in every run without a deletion of the key, no error of the same session and type is taken up again within 10 s |
| SessionRecovery.ErrorKeysDiffer | src/hooks/session-recovery.ts:144-152 | no two sessions or error types share a key |
| SessionRecovery.OtherErrorsStay | src/hooks/session-recovery.ts:300-315 | an error of one session and type leaves the attempts, resumes and window of every other alone |
| SessionRecovery.ExpiryReleases | src/workflow-retry/attempt-registry.ts:76-98 | an expiry that fires releases its lock |
| SessionRecovery.ResumesAreConserved | src/hooks/session-recovery.ts:144-181 | every resume that begins ends once or is under way: ended plus under way after the run is under way before it plus the attempts made, and a deletion forgets at most three |
| SessionRecovery.ResumesAreBounded | src/hooks/session-recovery.ts:144-181 | from any state on and until the key is dropped by a deletion, the prompts really sent are at most the attempts left plus the resumes under way; over a whole run at most three for each deletion and three more |
| SessionRecovery.MostResumes | src/hooks/session-recovery.ts:144-181 | the bound is reached: a continuation of errors, waiting and resumes that sends exactly that many prompts |
| SessionRecovery.ThreeIffNoneUnderWay | src/hooks/session-recovery.ts:272-284 | in every reachable state: every continuation of a deletion sends at most three prompts for an error type if and only if no resume of it was under way at the deletion |
| SessionRecovery.FourResumes | src/hooks/session-recovery.ts:144-181 | a run with four prompts after a deletion that came while a resume was settling |
| SessionRecovery.NothingFiresAfterDeletion | src/hooks/session-recovery.ts:272-284 | in every run, whatever the session ids: after a deletion no retry timer set before it fires for that session in any continuation |
| SessionRecovery.StepKeepsKinds | src/hooks/session-recovery.ts:272-292 | whatever the session ids, only its own firing disarms a dedup timer: neither deletions nor unlocking do |
| SessionRecovery.OldDedupCutsShort | src/hooks/session-recovery.ts:286-292 | the first old dedup timer of a key that fires after a deletion drops the key if and only if an error of that key was noted meanwhile, and then before the timer set for that error; otherwise it drops nothing |
| SessionRecovery.DeletionReleasesOther | src/hooks/session-recovery.ts:272-284 | a run in which deleting one session leaves another with two timers |
| SessionRecovery.OneTimerIffSeparate | src/hooks/session-recovery.ts:231-284 | all runs keep at most one timer per session if and only if no session id starts with another one and a colon |
| SessionRecovery.ExpiryNeverFires | src/workflow-retry/attempt-registry.ts:76-98 | the expiry of a processing lock is never due before the retry of the same session |
| AutoCompact.Hook.HandleMessageUpdated | src/hooks/auto-compact.ts:82-121 | one message: a summary settles the waiter, an over-threshold one may start a flow; other sessions are untouched |
| AutoCompact.Hook.TriggerCompaction | src/hooks/auto-compact.ts:157-163 | starts exactly when none is in progress and the cooldown is over |
| AutoCompact.Hook.WaitForCompaction | src/hooks/auto-compact.ts:137-146 | the waiter is entered and its timeout armed |
| AutoCompact.Hook.CompactionTimedOut | src/hooks/auto-compact.ts:139-142 | the timeout drops the entry |
| AutoCompact.Hook.CompactionSettled | src/hooks/auto-compact.ts:177-184 | success is stamped only after a summary |
| AutoCompact.Hook.CompactionFinally | src/hooks/auto-compact.ts:185-187 | the flow is over |
| AutoCompact.Hook.HandleSessionDeleted | src/hooks/auto-compact.ts:64-80 | everything kept for the session is dropped, its waiter rejected |
| AutoCompact.StepKeeps | src/hooks/auto-compact.ts:82-188 | every step of messages, flows, timeouts and deletions at rest keeps the invariant |
| AutoCompact.RunInvariant | src/hooks/auto-compact.ts:82-188 | in every run deleted only at rest: at most one flow, and every waiter settled exactly once unless it is the pending one with its timeout armed |
| AutoCompact.FlowStartsRested | src/hooks/auto-compact.ts:100-163 | in every run, a new flow appears only on a message, when nothing is pending and none runs, and the cooldown is over for every success since the last deletion |
| AutoCompact.FlowStartsIff | src/hooks/auto-compact.ts:100-163 | in every run, a message starts a flow if and only if it is over the threshold and no summary, nothing is pending, no flow runs, and the cooldown is over: for the clock itself and for every success that no deletion followed |
| AutoCompact.TimeoutIsOnTime | src/hooks/auto-compact.ts:137-146 | in every run, the timeout of a flow fires only after its toast and no sooner than timeoutMs after it, and can fire from then on while its waiter is pending |
| AutoCompact.SettledIff | src/hooks/auto-compact.ts:73-146 | in every run, a waiter was resolved if and only if a summary came while it was pending, and rejected if and only if it timed out or the session was deleted while it was pending |
| AutoCompact.WaitEndsSettled | src/hooks/auto-compact.ts:165-187 | in every run, a flow goes on from its wait only after its waiter was settled, and succeeds if and only if a summary settled it |
| AutoCompact.FlowStepsOnce | src/hooks/auto-compact.ts:148-195 | in every run, a flow takes each of its steps once at the most; its summarize call returns or fails but not both; nothing follows its end |
| AutoCompact.NoWaiterOverwritten | src/hooks/auto-compact.ts:137-146 | in every run, a pending waiter stays the entry or goes by being settled exactly once |
| AutoCompact.FailedFlowBlocks | src/hooks/auto-compact.ts:171-187 | however long a run goes on without settling a pending waiter, as after a failed summarize, no new waiter or flow starts |
| AutoCompact.DeletionIsSafeIff | src/hooks/auto-compact.ts:64-71 | no flow is running when the session is deleted if and only if every continuation without a deletion of a running flow keeps at most one flow |
| AutoCompact.DeletionOfRunningFlow | src/hooks/auto-compact.ts:64-71 | at once, deleting a session and then an over-threshold message leave two flows if and only if one was running and the clock is past the cooldown |
| Semaphores.CreateSemaphore | src/atlas/concurrency.ts:6-9 | an error for a cap that is not positive, otherwise an empty semaphore |
| Semaphores.Semaphore.Acquire | src/atlas/concurrency.ts:10-21 | a place now, or the end of the queue |
| Semaphores.Semaphore.Release | src/atlas/concurrency.ts:22-26 | the front of the queue takes the place |
| Semaphores.RunInvariant | src/atlas/concurrency.ts:6-28 | when only holders release: in flight equals the holders, within the cap; a waiting queue means a full semaphore; grants follow the order of acquires; requests are granted or waiting |
| Semaphores.QueueMovesUp | src/atlas/concurrency.ts:22-26 | every release serves a waiter while there is one |
| Semaphores.WaiterIsGranted | src/atlas/concurrency.ts:22-26 | a waiter behind p others is granted after p + 1 releases at the latest |
| Semaphores.ReleaseKeepsIff | src/atlas/concurrency.ts:22-26 | a release keeps the invariant if and only if it is by a holder |
| Semaphores.StrayReleaseOverfills | src/atlas/concurrency.ts:22-26 | in the next state, a release by somebody who holds nothing leaves more than cap holders if and only if somebody is waiting |
| Semaphores.StrayReleaseIff | src/atlas/concurrency.ts:22-26 | a release is by a holder if and only if no proper use of the semaphore after it ever lets more than cap hold at once |
| Markers.ParseExecutionMarker | src/lifecycle/markers.ts:44-66 | the loop fills the fields, the last of a key winning |
| Markers.ParsedIsClean | src/lifecycle/markers.ts:38-66 | whatever is parsed, from any text, has a positive issue, safe integers, and tokens without space or > |
| Markers.OpeningIff | src/lifecycle/markers.ts:1 | a marker is opened by <!--, any white space, its name, and white space |
| Markers.BodyIff | src/lifecycle/markers.ts:1 | its body is what stands before the first -->, without white space at its end, and holds no > |
| Markers.FieldStartsIff | src/lifecycle/markers.ts:2 | a field is a key of word characters, =, and no white space |
| Markers.FieldsRead | src/lifecycle/markers.ts:38-65 | there is a marker if and only if the issue is a number from one to the largest safe integer; attempt and number are zero where they are none |
| Markers.MarkerIsFound | src/lifecycle/markers.ts:27-66 | a clean marker is read back from any text whose earlier part opens no comment, whatever follows |
| Markers.RoundTripIff | src/lifecycle/markers.ts:27-66 | a marker survives building and parsing if and only if it is clean |
| Markers.HeadlineReads | src/lifecycle/markers.ts:38-66 | what is read from a clean marker below any headline: the marker, what the headline quotes first, or the marker with the fields the headline swallowed |
| Markers.MarkerIsReadIff | src/lifecycle/markers.ts:38-66 | the marker below a headline is read back if and only if it is clean and the headline neither quotes another one nor swallows a batch or task that the marker does not set |
| CommitRecovery.JournalNumbers | src/lifecycle/journal/store.ts:90-110 | appending numbers the events 1, 2, 3 and so on |
| CommitRecovery.Committer.Append | src/lifecycle/journal/store.ts:103-110 | the event gets the last number plus one |
| CommitRecovery.Committer.CreateCommitMarker | src/lifecycle/index.ts:659-673 | a marker with the next number, only for a batch |
| CommitRecovery.Committer.RecordCommitObserved | src/lifecycle/index.ts:675-691 | the commit event, only after a commit with a marker |
| CommitRecovery.MessageReads | src/lifecycle/commit-message.ts:13-20 | a commit is refused if and only if the scope is bad, the summary has a line break or the issue is zero; the message is the headline and two lines below the marker |
| CommitRecovery.ScopeIff | src/lifecycle/commit-message.ts:1-2 | a scope is small letters, digits and dashes, not empty and with no dash in front |
| CommitRecovery.MarkerReads | src/lifecycle/index.ts:659-673 | a commit of a batch has a marker with the number after the last one and attempt one unless told otherwise; any other has none |
| CommitRecovery.ObservedReads | src/lifecycle/index.ts:675-691 | one event is journalled for a commit that was made with a marker, and none otherwise |
| CommitRecovery.CommitTextIff | src/lifecycle/index.ts:932-939 | a log that failed or is blank says nothing |
| CommitRecovery.Committer.RecoverCommitEvents | src/lifecycle/index.ts:953-980 | what is rebuilt from the last commit text |
| CommitRecovery.RecoveryKeepsOrder | src/lifecycle/index.ts:953-980 | whatever the text, the numbers stay strictly increasing and at most one event is added |
| CommitRecovery.RecoversIff | src/lifecycle/index.ts:945-980 | told from the journal: an event is rebuilt if and only if the text reads as a marker of this issue with a number after the last one, for a batch that has a dispatch and neither a completion nor an observed commit; and it is that marker's event |
| CommitRecovery.RecoveringAgainAddsNothing | src/lifecycle/index.ts:953-980 | recovering again from the same commit adds nothing |
| CommitRecovery.CrashedCommitIsRebuilt | src/lifecycle/index.ts:659-691 | for every commit of a batch whose message is accepted, and any journal at recovery time: what recovery returns is the event the uncrashed run would have journalled, but for summary and time, if and only if the marker is clean, the headline leaves it alone, the journal has a dispatch of the batch but no completion and no observed commit of it, and no event took its number |
| CommitRecovery.LostEventIsRebuilt | src/lifecycle/index.ts:945-980 | right after the crash, the journal with what is recovered is the uncrashed one but for summary and time, if and only if the marker is clean, the headline leaves it alone and the journal has a dispatch of the batch but no completion and no observed commit of it |
| CommitRecovery.NothingLostNothingRebuilt | src/lifecycle/index.ts:945-980 | after an uncrashed run, for a clean marker, nothing is rebuilt if and only if the headline quotes no unseen marker of a batch that needs its event |
| CommitRecovery.Committer.CrashAndRecover | src/lifecycle/index.ts:693-725 | a commit that crashes before journalling, then recovery, on the objects: the lost event is returned under the same condition |
| CommitRecovery.Committer.CommitAndPush | src/lifecycle/commits.ts:187-204 | the message of a commit that git makes becomes the last log text |
| CommitRecovery.CommitTextHasMarkerIff | src/lifecycle/commit-message.ts:13-20 | the trimmed log text of a commit reads as its own marker if and only if that is clean and the headline leaves it alone |
| CommitRecovery.QuotedMarkerWins | src/lifecycle/commit-message.ts:13-20 | a clean marker quoted anywhere in the summary, with no comment opened before it, is found instead of the commit's own |
| FinishGuards.CollectBlockedTasks | src/lifecycle/finish-guards.ts:20-26 | the sorted, duplicate-free list of the blocked entries |
| FinishGuards.DetectBlockedTasks | src/lifecycle/finish-guards.ts:28-37 | the sorted, duplicate-free list of exactly the tasks whose latest completed review, the first among equal numbers, is blocked |
| FinishGuards.BlockedIff | src/lifecycle/finish-guards.ts:28-37 | with distinct numbers, a task is listed if and only if a blocked review has the highest number of its reviews |
| FinishGuards.OrderOfEventsIsIrrelevant | src/lifecycle/finish-guards.ts:28-37 | with distinct numbers, any permutation of the events gives the same list |
| Lifecycle.AdvanceTo | src/lifecycle/index.ts:335-346 | the loop of single transitions |
| Lifecycle.AdvancedIff | src/lifecycle/index.ts:335-346 | succeeds if and only if the record is already there or on the path and not behind |
| Lifecycle.ApplyFinishOutcome | src/lifecycle/index.ts:575-581 | note, pull request and, when merged, the way to cleaned |
| Lifecycle.FinishIff | src/lifecycle/index.ts:575-581 | fails only for a merged outcome on a record off the path or already cleaned; otherwise the state is cleaned or unchanged |
| Lifecycle.LifecycleHandle.RequireRecord | src/lifecycle/index.ts:348-352 | the stored record or an error |
| Lifecycle.LifecycleHandle.RecordArtifact | src/lifecycle/index.ts:650-657 | a step of recordArtifact after its load: the pointer is added to its kind unless it is known, every other kind and every other issue is untouched |
| Lifecycle.LifecycleHandle.ApplyCommitOutcome | src/lifecycle/index.ts:568-573 | a step of commit after its load; other issues untouched |
| Lifecycle.LifecycleHandle.FinishGate | src/lifecycle/index.ts:751-764 | blocked tasks leave a note; otherwise the record goes to merging, if it can |
| Lifecycle.LifecycleHandle.PersistFinishMergeOutcome | src/lifecycle/index.ts:822-836 | the outcome of the merge is stored |
| Lifecycle.ClosedOnlyAfterMerge | src/lifecycle/index.ts:854-885 | however calls interleave, a record is closed or cleaned only after a finish that saw a merge and a journal without blocked tasks |
| Lifecycle.RecordIsHistory | src/lifecycle/index.ts:566-583 | in every run of calls one after another: of every kind the record holds the pointers of its start and then exactly those recorded, committed or linked since, each once; its notes in order; the branch and worktree of the last finish |
| Lifecycle.FreshIs | src/lifecycle/transitions.ts:18-29 | the pointers added are exactly the new ones, each once, in the order in which they first appear |
| Lifecycle.ArtifactIsAdded | src/lifecycle/transitions.ts:18-29 | recording a pointer puts it behind the list of its kind unless it is in there, and changes nothing else |
| Lifecycle.SavesStamp | src/lifecycle/index.ts:566-583 | every call that saves stamps the record with its time |
| Lifecycle.StepDropsIff | src/lifecycle/index.ts:627-728 | a step lowers the place in the state path if and only if it saves a record loaded at an earlier place |
| Lifecycle.NeverDropsIff | src/lifecycle/index.ts:627-885 | a run never lowers it if and only if no step saves behind |
| Lifecycle.NeverDropsIffNotOvertaken | src/lifecycle/index.ts:627-885 | over every run from the start: it never lowers it if and only if there is no call that saves at some event what it loaded at an earlier one, while a step in between took the state past what is saved |
| Lifecycle.OneAtATimeNeverDrops | src/lifecycle/index.ts:627-885 | calls one after another never lower it |
| Lifecycle.OverlapDrops | src/lifecycle/index.ts:650-653 | a recordArtifact that overlaps a finish puts a cleaned record back |
| Lifecycle.NoWayBack | src/lifecycle/transitions.ts:4-46 | off the path or backwards there is no valid transition |
| Lifecycle.NextOnPath | src/lifecycle/transitions.ts:4-46 | each next state of the path is a valid transition |
| CleanupClassifier.ClassifiedIff | src/lifecycle/cleanup-classifier.ts:53-83 | removable exactly when registered, closed, merged and without tracked change; ambiguous only with untracked paths, clean only without |
| CleanupClassifier.TrackedChangeIff | src/lifecycle/cleanup-policy.ts:61-65 | the filtered status shows a dirty path exactly when some line reports something tracked |
| CleanupClassifier.ReasonReads | src/lifecycle/cleanup-classifier.ts:50-82 | the reasons say what speaks against the removal and name the first five paths |
| CleanupClassifier.PathOfLine | src/lifecycle/cleanup-classifier.ts:44-75 | a status line is named by its path |
| CleanupPolicy.Machine.QuarantineUntracked | src/lifecycle/cleanup-policy.ts:112-138 | nothing moves if a path is refused; otherwise the paths move in order up to the first failure |
| CleanupPolicy.Machine.RemoveTheWorktree | src/lifecycle/cleanup-policy.ts:140-158 | remove, and on failure prune and remove once more |
| CleanupPolicy.Machine.RunCleanup | src/lifecycle/cleanup-policy.ts:179-208 | the files and the commands issued, and which outcomes are possible |
| CleanupPolicy.RemoveIssuedIff | src/lifecycle/cleanup-policy.ts:179-208 | git is asked to remove the worktree if and only if it exists and is registered, the issue is closed, the branch merged, a status that succeeded shows no tracked change (a failed status counts as showing none), no path is refused and every path was moved |
| CleanupPolicy.OutcomeIff | src/lifecycle/cleanup-policy.ts:179-208 | the kind of answer, told from what git reports: missing, not registered, user work, tracked changes, refused, a failed move, removed or failed, the first that holds |
| CleanupPolicy.OutcomeTells | src/lifecycle/cleanup-policy.ts:140-177 | the answer is removed if and only if the worktree was; a failed move never reaches a remove |
| CleanupPolicy.OutcomeReasons | src/lifecycle/cleanup-policy.ts:103-177 | the reasons name the refusal of the first refused path, the number of files and where they went, or the failure of the second remove |
| CleanupPolicy.CommandsAre | src/lifecycle/cleanup-policy.ts:129-208 | all commands: the queries, the moves up to the first that fails, unless something speaks against the removal or a path is refused, and then the removes |
| CleanupPolicy.MoveCommandsAre | src/lifecycle/cleanup-policy.ts:129-135 | for each path in turn its backup directory is made and then it is renamed into it |
| CleanupPolicy.RegisteredIff | src/lifecycle/cleanup-policy.ts:50-59 | a worktree is registered if and only if a list that succeeded names it on a line of its own |
| CleanupPolicy.UntrackedIff | src/lifecycle/cleanup-policy.ts:189-191 | the paths are exactly the trimmed, non-blank lines of a query that succeeded |
| CleanupPolicy.FailureText | src/lifecycle/cleanup-policy.ts:103-107 | a failure quotes what git wrote, the error first, and the exit code only if it wrote nothing |
| CleanupPolicy.RemoveIssuedIffMovable | src/lifecycle/cleanup-policy.ts:179-208 | where no reported path is moved to where a later one lies, the same in terms of what is there before: every path was moved means that none of the renames fails and the sources are present and distinct |
| CleanupPolicy.RemovesAreBounded | src/lifecycle/cleanup-policy.ts:140-158 | at most two removes, two only with one prune between |
| CleanupPolicy.RefusedMovesNothing | src/lifecycle/cleanup-policy.ts:123-127 | one refused path and every file stays, only the three queries are issued |
| CleanupPolicy.MovesLoseNothing | src/lifecycle/cleanup-policy.ts:129-135 | while no move goes to where a later reported path lies: before any remove each reported file is in place or at its own backup, at its backup whenever a remove is issued |
| CleanupPolicy.MovesLoseNothingIff | src/lifecycle/cleanup-policy.ts:129-135 | before any remove every reported file is kept if and only if no move goes to where a later one lies |
| CleanupPolicy.EarlierMoveOverwrites | src/lifecycle/cleanup-policy.ts:129-135 | a move to where a later path lies overwrites it: the content only that one had is gone |
| CleanupPolicy.NoReportedFileIsLost | src/lifecycle/cleanup-policy.ts:160-177 | while no move goes to where a later reported path lies: a reported file is at its own backup or in place, if and only if the worktree is not removed with that backup inside |
| CleanupPolicy.CleanupKeepsAllIff | src/lifecycle/cleanup-policy.ts:160-177 | every reported file, each reported once and with a content of its own, is kept if and only if no move goes to where a later one lies and the worktree is not removed with a backup inside |
| CleanupPolicy.BackupInWorktreeIff | src/lifecycle/cleanup-policy.ts:109-110 | unless the worktree lies strictly inside the backup directory, a backup is inside the worktree if and only if the backup directory is |
| CleanupPolicy.ApartIsSafe | src/lifecycle/cleanup-policy.ts:109-133 | with neither directory in the other, no reported path lies at a backup path and no backup is in the worktree |
| CleanupPolicy.OutsideBackupInOrder | src/lifecycle/cleanup-policy.ts:129-135 | a path is moved to where another one lies only if that one lies in the backup directory |
| CleanupPolicy.RunInsideLosesBackups | src/lifecycle/merge.ts:295-313 | run in the worktree it removes, or below, a cleanup that completes leaves neither a source nor a backup |
| CleanupPolicy.RunInsideLosesFile | src/lifecycle/merge.ts:295-313 | for every worktree path, file name and content: a cleanup run there with one untracked file issues the remove and leaves no file at all |
| CleanupPolicy.NoReportedLineIsLost | src/lifecycle/cleanup-policy.ts:50-54 | the same for the lines git reports: the file of a line is kept if and only if the worktree is not removed, or the line is trimmed and its backup is outside |
| CleanupPolicy.AbsentPathStopsRemove | src/lifecycle/cleanup-policy.ts:50-54 | while the path that a line is trimmed to is absent, no remove is issued |
| CleanupPolicy.OtherFilesStay | src/lifecycle/cleanup-policy.ts:112-138 | no file outside the worktree changes except at the backup path of a reported one, wherever the backups are |
| CleanupPolicy.BackupsAreDistinct | src/lifecycle/cleanup-policy.ts:129-135 | two paths never share a backup |
| CleanupPolicy.BackupIsOverwritten | src/lifecycle/cleanup-policy.ts:129-135 | while no move goes to where a later reported path lies: a file already at the backup path of a reported one keeps its content if and only if no other content is moved there, it is not moved away itself, and the worktree is not removed with it inside |
| Reconciler.CollectClaims | src/atlas/reconciler.ts:48-54 | the grouped structure: targets and texts in the order first seen, workers in order |
| Reconciler.GroupingConserves | src/atlas/reconciler.ts:48-54 | it holds every (target, claim, worker) exactly as often as the input, and nothing empty |
| Reconciler.AppendAgreedClaims | src/atlas/reconciler.ts:56-61 | the sole text of a target, or those with at least two mentions |
| Reconciler.ReconcileWorkerOutput | src/atlas/reconciler.ts:68-79 | agreed claims and conflicts, target by target |
| Reconciler.AgreedAreRight | src/atlas/reconciler.ts:56-79 | a text is agreed if and only if it is its target's only one or is claimed at least twice; it comes with its workers |
| Reconciler.ConflictsAreRight | src/atlas/reconciler.ts:63-79 | a target has a conflict, and just one, if and only if two distinct texts were claimed about it |
| Reconciler.ConflictReads | src/atlas/reconciler.ts:63-66 | a conflict has a line for each text in dispute, once, with all the workers that claimed it |
| Reconciler.AgreementIgnoresOrder | src/atlas/reconciler.ts:68-79 | permuting the claims keeps each agreed claim and, as a multiset, its workers |
| Reconciler.AgreedOnce | src/atlas/reconciler.ts:56-79 | no claim about a target is listed as agreed twice |
| Reconciler.AgreedListsCorrespond | src/atlas/reconciler.ts:68-79 | permuting the claims permutes the list of agreed claims: same length, the same target and text each exactly once |
| Reconciler.ConflictIgnoresOrder | src/atlas/reconciler.ts:63-79 | permuting the claims keeps each conflict, with the same lines in another order |
| Reconciler.PermutedWorkers | src/atlas/reconciler.ts:48-54 | permuting the workers permutes the claims |
| Reconciler.PermutedClaims | src/atlas/reconciler.ts:48-54 | permuting the claims of each worker permutes the claims |
| Reconciler.CountingWorkersIff | src/atlas/reconciler.ts:56-61 | counting distinct workers instead of occurrences gives the same agreed texts if and only if there is no target with several texts where one worker alone claims a text more than once |
| LifecycleTypes.StateRoundTrip | src/lifecycle/types.ts:3-15 | every state is found again by its name |
| LifecycleTypes.KindRoundTrip | src/lifecycle/types.ts:23-30 | every artifact kind is found again by its name |
| LifecycleTypes.NamedIff | src/lifecycle/issue-body.ts:33-35 | a text names a state or kind if and only if it is its name |

## Left out

- EditDistance.InitLevenshteinMatrix: the matrix is allocated at full size; the source grows rows of an array of arrays.
- FetchTracker.Tracker.HandleFetchAfter: the caches are values in the tracker's map, so sharing one cache object is not modelled; the key of a call is given, and the accessors of counts and entries are not modelled (reading an entry through `getCacheEntry` refreshes its place in the cache).
- Reconciler.CollectClaims: the nested maps are values put back after each change, so sharing of an inner map is not modelled.
- SessionRecovery.RunInvariant: the attempt counters of the registry are never read by this hook and are not modelled; a client call that fails counts as made. A resume may end at any time after its attempt: the delay of 500 ms before it and the calls it awaits are not timed.
- AutoCompact.RunInvariant: runs in which a session is deleted while its compaction runs are excluded by a condition on the run; what then goes wrong is in DeletionIsSafeIff. The usage ratio, ledger file, toasts and the continuing prompt are not modelled.
- Mindmodel.HitIsUncached: category matching and example loading are one given function of the task; the hook that calls it is not modelled.
- Wikilink.RewriteIsRender: the mapping is a map of own entries; names inherited from the object prototype are not modelled.
- Frontmatter.ParseFrontmatter: extra fields keep insertion order, while a JavaScript object puts integer-like keys first and treats `__proto__` specially; the time is an integer or not a number, fractions and exponents are left out.
- AtlasPage.PageRoundTripIff: the index and roadmap pages use the same printers and are left out.
- Markers.RoundTripIff: numbers are naturals; signs, fractions and exponents in a marker are left out.
- CommitRecovery.CrashedCommitIsRebuilt: git is assumed to print the message back with white space after it and to run no cleanup of its own; staging, pushing and hooks are left out, and journal lines that do not parse are not modelled.
- CommitRecovery.Committer.CommitAndPush: whether git commits is an input; the commit hash lookup is one as well.
- Lifecycle.ClosedOnlyAfterMerge: covers start, recordArtifact, commit and finish; `setState` moves one transition by hand, also from merging to closed, and is left out. Each issue has one record; the change of issue identity in finish, the remote write guard and the notes of a start are left out.
- CleanupPolicy.RunCleanup: paths are joined with a slash and not normalised, directories are not modelled, a failing rename is an input and a failing mkdir is not modelled; a worktree removal that git refuses changes no file, one that succeeds also drops files git ignores.
- CleanupPolicy.CleanupKeepsAllIff: about paths reported once, with contents of their own; NoReportedFileIsLost is about any.
- Quarantine rules (`classifyQuarantine`): any predicate on paths; recovery decisions beyond the rebuilt event, leases, default branch and pull requests are left out.
- Write lock of the atlas: check and write are separate file operations, so exclusion is not something that code alone gives.
- Token-aware truncation, the content guard, the comment checker and artifact indexing: heuristics without an independent specification.
- Agent prompts, command tables, configuration merging and plugin wiring: no computation to state.
- Characters beyond the basic plane, and locale-aware comparison, are left out.
