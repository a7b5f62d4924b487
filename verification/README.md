# A Dafny model of the orchestrator's protocols

The runtime coordinates several conductors that share durable files: a run
document with an event log, approval requests, a merge queue, and an event
stream that another process tails. This project models that logic and proves
what it keeps.

* **Run state** (`RunRecords`, `RunSpec`, `RunSteps`, `RunRecovery`,
  `RunSafety`, `RunHistory`, `RunPromotion`, `RunFencing`, `RunOutcomes`, `RunLeases`,
  `RunLog`, `RunManager`, `RunWitnesses`). A stored run is a snapshot and a log. Every call loads, checks
  the lease, edits a copy, appends events and replaces the snapshot; a crash keeps
  any prefix of those writes. `RunManager` has the manager as classes that change
  their fields; each method is proved equal to a function of `RunSpec`, and the
  theorems about whole runs are about those functions. `RunOutcomes`, `RunLeases` and
  `RunLog` say, without those functions, what a completed call stores and logs.
* **Plans** (`Dag`): cycle search and layering as loops over mutable state.
* **Scopes** (`Scope`, `GlobMeaning`, `GlobMeet`, `Conflicts`, `ConflictGaps`,
  `Dispatch`, `Lint`, `LintGaps`): a token matcher for globs, the overlap test used
  before dispatch and exactly what it misses, and the linter's quick tests.
* **Approvals and merging** (`Approvals`, `ApprovalOutcomes`, `CommitGraph`,
  `MergeQueue`, `QueueOutcomes`, `QueueRuns`, `InboxClaims`, `Reprocessing`): the broker and the queue as classes with a crash point at every
  save, Git as an immutable commit graph with movable refs, and a state machine
  that interleaves them with inbox consumers, the clock and outside commits.
* **Escalation** (`Escalation`, `EscalationOutcomes`, `EscalationGrants`): the attempt controller, its
  replay, and what grants do to it.
* **Logs and streams** (`Lines`, `Jsonl`, `Tailer`, `TailerBatch`, `Tailing`, `EventFlow`,
  `LineReader`): byte-level
  append, incremental reading and chunked line cutting against whole-content
  definitions.
* **Selection** (`Selection`, `SelectionRules`): runner selection, reviewer selection and review
  acceptance, with the agreement of the last two.

`Wrappers`, `Ordering` and `Text` hold option types, a stable sort and whitespace
stripping. A *discipline* (`RunSteps.Discipline`) says which promises the callers of the run manager keep,
because a plain transition accepts every legal edge. Rows that begin "Link to the
specification" tie a method to the function the theorems are about; they are not
results of their own.

## Where the code and its documentation differ

The model follows the code. Each point is a lemma.

* Creating a run writes the bare snapshot before the founding event; a crash
  between them leaves a log that creation no longer founds (`CreationAnchors`,
  `CreationWaits`); only a later replacement, logged first, would.
* A merge and its promotions are separate events; a crash between them leaves
  dependents pending (`CrashLeavesWaitingExactly`, `ReplacementWaits`, `MergeWaits`).
* Sending a stalled review back to reviewing makes a unit active again without
  an overlap check, and so does a reassignment (`HealOverlapExactly`,
  `ReassignOverlapExactly`, `HealOverlaps`, `ReassignOverlaps`).
* `patterns_overlap` calls itself conservative, and is not: for a literal against
  a glob (`MissedExactly`, `MissedFile`, `MissedDirectory`), for entries with
  whitespace around them, which the scope test does not strip (`PairExactly`,
  `MissedSpace`), and for globs spelled with a doubled slash (`MissedGlobs`).
* The linter reports overlaps for entries such as `.` that no path witnesses
  (`ReportedPairExactly`, `DotReportsTooMuch`), and does not detect a directory and a
  planned path beneath it that is given by a pattern (`GlobMissedExactly`, `MissedBeneath`).
* Replaying an escalation whose first attempt never fitted the ceiling stops at
  once (`ReplayFidelity`, `ReplayLoses`), and a second grant can rewrite decisions
  (`SecondGrantExactly`, `SecondGrantRewrites`).
* A decision file renamed over a name that a consumer has claimed breaks the claim
  (`ClaimsExactly`), and can be moved out of the inbox unread (`ReplacedIsLost`,
  `LostForever`).
* The tailer's two size tests overlap at exactly the limit
  (`BoundaryLineLost`).

## Model

| member | source | states |
|---|---|---|
| RunSteps.PerformTracks | src/openclaw_ecc_orchestrator/runs/manager.py:157-199 | For every mutation, folding the replay function over the events it appends, from the stored run, gives exactly the run it saves, and every event on the way is a legal step. A generated handoff id must be new. |
| RunSteps.StaleHandoffDiverges | src/openclaw_ecc_orchestrator/runs/manager.py:80-84 | Why the handoff id must be new: for a transfer, replay equals the saved run if and only if the id is not on file already. |
| RunSteps.FoundTracks | src/openclaw_ecc_orchestrator/runs/manager.py:344-366 | The same for founding a run: the founding event followed by the promotions leads to the document that is saved. |
| RunRecovery.CommitLoads | src/openclaw_ecc_orchestrator/runs/manager.py:183-192 | Crash recovery: however many of its writes a commit makes, a reload gives exactly the fold of the appended prefix; once the snapshot is written, it is what a reload gives. |
| RunRecovery.CommitCoherent | src/openclaw_ecc_orchestrator/runs/store.py:64-96 | A commit that stops anywhere keeps log, snapshot and reload in agreement for every log that begins with a founding event. |
| RunRecords.RebuildNeedsFounding | src/openclaw_ecc_orchestrator/runs/manager.py:70-85 | Replaying a log without a snapshot gives a run if and only if its first event founds one; any other nonempty log is an error. |
| RunHistory.ExecGood | src/openclaw_ecc_orchestrator/runs/manager.py:157-199 | One call of any kind, completed or cut short at any write, keeps every invariant of a stored run. |
| RunHistory.AllRunsGood | src/openclaw_ecc_orchestrator/runs/manager.py:157-410 | Every state reachable by any sequence of calls with any crashes satisfies those invariants. |
| RunHistory.RecoveryTheorem | src/openclaw_ecc_orchestrator/runs/manager.py:117-127 | In every reachable store the run reads back, and the log alone gives the same run if and only if its first event founds one. |
| RunHistory.OldSnapshotStillWorks | src/openclaw_ecc_orchestrator/runs/manager.py:117-127 | Any snapshot stored at any moment of a run, the bare first one included, replayed with the newer part of the final log, gives the same run as the final store. |
| RunHistory.LifecycleTheorem | src/openclaw_ecc_orchestrator/runs/manager.py:234-254 | In every reachable or recovered state a unit's history is a legal walk from pending to its state; attempts equals both the entries into assigned and the sum over tiers; no tier exceeds its budget plus the largest grant logged; every entry into verifying was preceded by a valid handoff logged for that attempt. |
| RunSafety.WalkIsLegal | src/openclaw_ecc_orchestrator/runs/state.py:17-52 | Such a walk starts at pending, is connected, uses only listed transitions and never leaves merged or cancelled. |
| UnitStates.LegalBackwards | src/openclaw_ecc_orchestrator/runs/state.py:17-52 | A second table, of the states each state is entered from, agrees with the table of moves: each is the inverse of the other. |
| RunSafety.MergedWasReviewed | src/openclaw_ecc_orchestrator/runs/state.py:17-52 | Every walk to merged ends reviewing, queued for merge, merged, and entered that review from verifying or from the user. |
| RunSafety.StepKeeps | src/openclaw_ecc_orchestrator/runs/manager.py:234-265 | Each single event keeps the unit accounts and, for callers that respect them, dependency order and parallel safety. |
| RunHistory.DependencyTheorem | src/openclaw_ecc_orchestrator/runs/manager.py:234-265 | Over whole runs with crashes: if callers never move a pending unit to ready or blocked themselves, every unit that is not pending or cancelled has all dependencies merged. |
| RunSafety.TransitionDepsExactly | src/openclaw_ecc_orchestrator/runs/manager.py:455-461 | A caller's transition keeps dependency order if and only if it does not take a unit with unmerged dependencies out of pending (cancelling it is fine). |
| RunHistory.ParallelTheorem | src/openclaw_ecc_orchestrator/merge_queue/dispatch.py:57-60 | Over whole runs: with the overlap guard at assignment, and checked reassignments and revivals, no two active units declare overlapping scopes. |
| RunSafety.ReassignOverlapExactly | src/openclaw_ecc_orchestrator/runs/manager.py:536-560 | A reassignment that starts work keeps active units overlap-free if and only if nothing active overlaps the unit; nothing in the code checks that. |
| RunSafety.HealOverlapExactly | src/openclaw_ecc_orchestrator/team/drive.py:206-209 | Sending a stalled review back to reviewing keeps active units overlap-free if and only if nothing active overlaps it; nothing in the code checks that. |
| RunWitnesses.ReassignOverlaps | src/openclaw_ecc_orchestrator/runs/manager.py:536-560 | The input: with one of two whole-repository units running, reassigning the other is accepted and both are active. |
| RunWitnesses.HealOverlaps | src/openclaw_ecc_orchestrator/team/drive.py:206-209 | The input: the same with the other sent back to reviewing. |
| RunPromotion.CutExactly | src/openclaw_ecc_orchestrator/runs/manager.py:259-265 | A founding or merging transaction cut after some of its events leaves no promotable unit pending if and only if it was cut before the first event of a promoted run, or after the last. |
| RunPromotion.CreationExactly | src/openclaw_ecc_orchestrator/runs/manager.py:355-366 | A creation that gets past its first write leaves no promotable unit pending if and only if the plan has no roots or all its events were written. |
| RunPromotion.PromotionTheorem | src/openclaw_ecc_orchestrator/runs/manager.py:234-265 | While no creation, replacement or merge dies halfway (other calls may), no stored state has a pending unit whose dependencies are all merged. |
| RunPromotion.CrashLeavesWaitingExactly | src/openclaw_ecc_orchestrator/runs/manager.py:185-189 | A call on a stored run without promotable pending units leaves one if and only if it merges or replaces and dies after its first event and before its last. |
| RunWitnesses.CreationWaits | src/openclaw_ecc_orchestrator/runs/manager.py:355-366 | The input: creating a one-unit run and dying after the bare snapshot leaves the unit pending. |
| RunWitnesses.ReplacementWaits | src/openclaw_ecc_orchestrator/runs/manager.py:371-410 | The input: replacing that run and dying after the first event leaves the unit pending. |
| RunWitnesses.MergeWaits | src/openclaw_ecc_orchestrator/runs/manager.py:259-265 | The input: of a merge that dies after its first event the replayed run keeps the dependent unit pending. |
| RunPromotion.NoDeadlock | src/openclaw_ecc_orchestrator/runs/dag.py:104-121 | A run of that kind in which only pending and merged units are left is complete: acyclic plans cannot deadlock. |
| RunFencing.HolderChanges | src/openclaw_ecc_orchestrator/runs/manager.py:142-171 | The lease holder changes only after expiry or by a transfer that the unexpired holder issued. |
| RunFencing.UnitsChange | src/openclaw_ecc_orchestrator/runs/manager.py:588-609 | Units change only by the holder, by the surrender of a caller's own in-flight unit to needs_user, or in a resume or replace that passed the lease check. |
| RunFencing.FencingTheorem | src/openclaw_ecc_orchestrator/runs/manager.py:142-171 | While a lease runs, no interleaving of other conductors' calls, with any crashes, moves the lease or changes a unit except by surrendering their own work. |
| RunFencing.CreationAnchors | src/openclaw_ecc_orchestrator/runs/manager.py:355-366 | Creation saves the bare snapshot before the founding event, so the log founds the run if and only if the crash did not come right after that first write. |
| RunOutcomes.CallOutcome | src/openclaw_ecc_orchestrator/runs/manager.py:412-732 | What every completed call leaves stored, read off the stored run's fields: allowed exactly when the lease, the unit's state, the recorded handoff, the owner, the overlap check and the arguments permit it; then exactly the stated new document (for a resume: each unit at work with no, a finished or a dead worker is interrupted with its reason, an unverified one goes to the user, a live one stays), and otherwise nothing changes. |
| RunOutcomes.ReplyOutcome | src/openclaw_ecc_orchestrator/runs/manager.py:157-199 | The reply to an allowed call is good exactly when the work was assigned, the handoff was valid, or the cost stayed within its limit. |
| RunLeases.ResumeLeavesLive | src/openclaw_ecc_orchestrator/runs/manager.py:684-732 | Whatever is still assigned or running after a completed resume has an unfinished worker that was found alive. |
| RunLeases.CreateOutcome | src/openclaw_ecc_orchestrator/runs/manager.py:296-369 | A completed creation on an empty store with an accepted plan stores every planned unit as planned, untried, and ready at once if it depends on nothing, with the lease for the caller; otherwise nothing changes. |
| RunLeases.ReplaceOutcome | src/openclaw_ecc_orchestrator/runs/manager.py:371-410 | The same for a replacement, allowed exactly while nothing has started and no one else holds the lease; the replaced plan is kept. |
| RunLeases.LeaseWindow | src/openclaw_ecc_orchestrator/runs/manager.py:134-156 | After a call that gives the lease, its holder may renew it exactly until it runs out, and anyone else may take it exactly from then on. |
| RunLeases.ReleasedIsFree | src/openclaw_ecc_orchestrator/runs/manager.py:433-437 | A released lease can be taken at once. |
| RunLog.LogOutcome | src/openclaw_ecc_orchestrator/runs/manager.py:412-732 | A completed call appends, numbered on without a gap, exactly the events its operation reports, of the right kind, about the right unit and in order of the units; a refused call appends nothing. |
| RunLog.FoundingLog | src/openclaw_ecc_orchestrator/runs/manager.py:355-406 | A completed creation or replacement appends one founding event with the whole new document, then the roots' moves in order. |
| RunManager.Transaction.SetUnitState | src/openclaw_ecc_orchestrator/runs/manager.py:234-254 | The state change as it runs, equal to its specification: refused if illegal, else history, event and, on a merge, promotions. |
| RunManager.Transaction.PromoteReady | src/openclaw_ecc_orchestrator/runs/manager.py:259-265 | The promotion loop equals the promotion of every unit in plan order. |
| RunManager.Transaction.AssignTo | src/openclaw_ecc_orchestrator/runs/manager.py:498-517 | Link to the specification: tier choice, budget stop and counters as specified. |
| RunManager.Transaction.ReassignTo | src/openclaw_ecc_orchestrator/runs/manager.py:536-560 | Reassignment equals its specification, including the handoff record and the intermediate ready state. |
| RunManager.Transaction.SweepInFlight | src/openclaw_ecc_orchestrator/runs/manager.py:684-732 | The resume loop over in-flight units equals its specification. |
| RunManager.Transaction.Record | src/openclaw_ecc_orchestrator/runs/manager.py:562-682 | Link to the specification: process, workspace, handoff, annotation and usage records as specified. |
| RunManager.Transaction.Apply | src/openclaw_ecc_orchestrator/runs/manager.py:412-732 | Each operation's closure, run on the working copy, gives exactly the specified document, events and reply, or is refused. |
| RunManager.Manager.LoadUnlocked | src/openclaw_ecc_orchestrator/runs/manager.py:117-127 | Loading equals the fold of the newer events over the snapshot. |
| RunManager.Manager.CommitTx | src/openclaw_ecc_orchestrator/runs/manager.py:183-192 | The append loop and the snapshot write equal the specified commit for every crash point. |
| RunManager.Manager.Mutate | src/openclaw_ecc_orchestrator/runs/manager.py:157-199 | Load, lease check, closure and commit equal the specified step; the reply is true exactly when it was allowed and accepted. |
| RunManager.Manager.CreateRun | src/openclaw_ecc_orchestrator/runs/manager.py:296-369 | Creation, with its first snapshot, founding event and promotions, equals the specified step for every crash point; accepted if and only if the plan is and there is no such run. |
| RunManager.Manager.ReplaceRun | src/openclaw_ecc_orchestrator/runs/manager.py:371-410 | Replacement equals the specified step for every crash point; accepted if and only if the plan is, the run exists, nothing has started and no one else holds the lease. |
| Dag.Search.Visit | src/openclaw_ecc_orchestrator/runs/dag.py:35-51 | The three-colour visit terminates on every graph; a result is a real cycle, no result means the node and everything it reaches is finished. |
| Dag.FindCycle | src/openclaw_ecc_orchestrator/runs/dag.py:29-57 | A list is returned if and only if the known-dependency graph has a cycle; it starts and ends at the same unit and each consecutive pair is an edge. |
| Dag.BottomExists | src/openclaw_ecc_orchestrator/runs/dag.py:104-121 | In an acyclic graph every nonempty set of units has one with no dependency in the set. |
| Dag.Layer | src/openclaw_ecc_orchestrator/runs/dag.py:104-121 | The empty-layer break is unreachable; the order lists every unit once with its dependencies before it, and each layer index is the length of the longest dependency chain. |
| Dag.LayersExplained | src/openclaw_ecc_orchestrator/runs/dag.py:104-121 | What the layering invariant gives when nothing is left. |
| Dag.AnalyzePlan | src/openclaw_ecc_orchestrator/runs/dag.py:60-121 | The errors are exactly the faults of the list (entries that are no objects, bad and repeated ids, bad and unknown dependencies), read off the list itself, and one real cycle if there is any; only without them are there an order and layers, as above, each layer sorted. |
| Scope.TranslateGlob | src/openclaw_ecc_orchestrator/tasks/scope.py:46-67 | The index loop over a pattern produces the token list the matcher is defined on. |
| Scope.NormalizeIdempotent | src/openclaw_ecc_orchestrator/tasks/scope.py:70-74 | A normalized path is a fixed point of normalization, and normalizing does not make a literal a glob. |
| Scope.MatchKeepsPrefix | src/openclaw_ecc_orchestrator/tasks/scope.py:46-67 | Whatever a glob matches begins with the glob's literal prefix. |
| Scope.NormalExtension | src/openclaw_ecc_orchestrator/tasks/scope.py:46-74 | A beginning that ends in a slash and that a normal pattern accepts extends to a full match that needs no normalizing. |
| Scope.MatchHasBeginning | src/openclaw_ecc_orchestrator/tasks/scope.py:46-67 | Every beginning of a match is accepted as a beginning. |
| GlobMeaning.ReadsExactly | src/openclaw_ecc_orchestrator/tasks/scope.py:46-67 | The parts a pattern is read as are the one way to spell it in which no wildcard is left as a literal and every run of stars is read in twos, taking a following slash. |
| GlobMeaning.MatchMeans | src/openclaw_ecc_orchestrator/tasks/scope.py:46-67 | A text matches if and only if it falls into pieces, one for each part, each of the kind its part allows. |
| GlobMeaning.AtAnyDepth | src/openclaw_ecc_orchestrator/tasks/scope.py:46-67 | Two stars and a slash before a name match that name at any depth and nothing else. |
| GlobMeaning.StarsStayInSegments | src/openclaw_ecc_orchestrator/tasks/scope.py:46-67 | Without doubled stars, every match has just as many slashes as the pattern. |
| Conflicts.ScopesOverlapSymmetric | src/openclaw_ecc_orchestrator/merge_queue/conflicts.py:57-63 | Overlap of scopes does not depend on the order of its arguments. |
| GlobMeaning.FnMatchMeans | src/openclaw_ecc_orchestrator/merge_queue/conflicts.py:46-54 | The overlap test's matcher: a text matches if and only if it falls into pieces, any text for a star and one character for every other part. |
| ConflictGaps.BlankOverlapsAll | src/openclaw_ecc_orchestrator/merge_queue/conflicts.py:13-17 | A blank entry, the root and `./` overlap every entry. |
| Conflicts.SameKindSound | src/openclaw_ecc_orchestrator/merge_queue/conflicts.py:35-54 | Two literal entries, or two globs, that both modules read alike (with a trailing slash or without) and that are reported disjoint never cover a common path. |
| Conflicts.OrdinaryIsPlain | src/openclaw_ecc_orchestrator/merge_queue/conflicts.py:13-17 | Every normal entry that names something, without surrounding whitespace or `[`, is read alike by the overlap test and the scope test, up to a trailing slash. |
| Conflicts.ReachIsExact | src/openclaw_ecc_orchestrator/merge_queue/conflicts.py:46-54 | For any literal that names something and any glob, a test on the two strings alone holds if and only if some normal path is covered by both; a literal that ends in a slash covers only what lies below it, and nothing lies below `.`. |
| Conflicts.MissedExactly | src/openclaw_ecc_orchestrator/merge_queue/conflicts.py:46-54 | A literal and a glob, read alike by both modules, that share a path are reported disjoint if and only if the glob reaches the literal, its fixed part stops strictly inside the directory, and neither the directory nor the directory followed by `/x` matches. Here and below, paths are all normal ones, absolute ones and ones with `..` included. |
| Conflicts.MissNeedsShortPrefix | src/openclaw_ecc_orchestrator/merge_queue/conflicts.py:46-54 | For every path that shows such a miss, the literal prefix of the glob is a beginning of the directory the literal names. |
| GlobMeet.MeetIsExact | src/openclaw_ecc_orchestrator/tasks/scope.py:46-79 | Two globs match a common normal path if and only if a search over their two token lists, which keeps what a normal path allows next, finds a meeting. |
| ConflictGaps.SharingIsDecided | src/openclaw_ecc_orchestrator/tasks/scope.py:92-111 | Any two entries, however they are spelled, cover a common normal path if and only if a test on the two strings holds. |
| ConflictGaps.PairExactly | src/openclaw_ecc_orchestrator/merge_queue/conflicts.py:13-54 | For any two entries without `[`: they cover a common path and are reported disjoint if and only if the strings meet and the guards let the pair through (literals not nested once stripped; a literal and a glob that do not meet once stripped; globs whose fixed beginnings, as spelled, are not comparable). |
| ConflictGaps.MissedFile | src/openclaw_ecc_orchestrator/merge_queue/conflicts.py:46-54 | `a` and `**/a` are reported disjoint although both cover `a`. |
| ConflictGaps.MissedDirectory | src/openclaw_ecc_orchestrator/merge_queue/conflicts.py:46-54 | `s` and `*/a` are reported disjoint although both cover `s/a`. |
| ConflictGaps.MissedSpace | src/openclaw_ecc_orchestrator/merge_queue/conflicts.py:13-17 | An entry that ends in a space and a path below it are reported disjoint, because only the overlap test strips. |
| ConflictGaps.MissedGlobs | src/openclaw_ecc_orchestrator/merge_queue/conflicts.py:43-45 | Globs of which one is spelled with a doubled slash are reported disjoint although both cover `a/b`. |
| Dispatch.PlanDispatch | src/openclaw_ecc_orchestrator/merge_queue/dispatch.py:29-44 | Candidates are split, in order, into dispatched and deferred; no dispatched unit overlaps another or an active one; each deferral names units it really overlaps, or the limit is reached. |
| Dispatch.TogetherExactly | src/openclaw_ecc_orchestrator/merge_queue/dispatch.py:18-44 | For any scopes at all: units that may run together can touch a common path if and only if two of their entries meet as strings. |
| Dispatch.PlainTogetherExactly | src/openclaw_ecc_orchestrator/merge_queue/dispatch.py:18-44 | For entries that both modules read alike, that takes a literal and a glob which reaches it and slips through the test. |
| Lint.AncestorsOf | src/openclaw_ecc_orchestrator/runs/plan_lint.py:74-84 | The worklist search terminates on cyclic graphs and returns exactly what the unit reaches. |
| Lint.Ancestors | src/openclaw_ecc_orchestrator/runs/plan_lint.py:74-84 | The same for every unit of the plan. |
| Lint.TargetCoversExactly | src/openclaw_ecc_orchestrator/runs/plan_lint.py:161-176 | On normalized paths the quick test differs from coverage only on the bare name of a literal entry. |
| Lint.TargetInScopeAgrees | src/openclaw_ecc_orchestrator/runs/plan_lint.py:161-176 | It accepts everything the scope covers, and agrees exactly for entries without a trailing slash. |
| Lint.BuildWitnesses | src/openclaw_ecc_orchestrator/runs/plan_lint.py:114-131 | The loop that grows sample strings equals the recursive generation, filtered by the pattern. |
| Lint.GeneratedMatch | src/openclaw_ecc_orchestrator/runs/plan_lint.py:114-131 | Every generated sample matches the pattern it was generated from. |
| Lint.PairOverlapReal | src/openclaw_ecc_orchestrator/runs/plan_lint.py:87-110 | A reported pair of entries that both name something always has a string both cover. |
| Lint.ReportedPairExactly | src/openclaw_ecc_orchestrator/runs/plan_lint.py:87-110 | Any reported pair has a string both cover if and only if each entry names something or has its own normal form covered by the other. |
| Lint.ReportedScopesExactly | src/openclaw_ecc_orchestrator/runs/plan_lint.py:87-110 | Some reported pair of two scopes has a common string if and only if some reported pair passes that test on both sides. |
| Lint.OverlapReal | src/openclaw_ecc_orchestrator/runs/plan_lint.py:87-110 | A report that rests on a target path or on such a pair has a string covered by both scopes. |
| Lint.NamedReportsReal | src/openclaw_ecc_orchestrator/runs/plan_lint.py:87-110 | Every report over entries that all name something is of that kind. |
| Lint.DotReportsTooMuch | src/openclaw_ecc_orchestrator/runs/plan_lint.py:87-110 | The input that shows the test is needed: `.` is reported against `x*` and no string is covered by both. |
| LintGaps.LiteralPairExactly | src/openclaw_ecc_orchestrator/runs/plan_lint.py:94-97 | Two literals that name something are reported if and only if some string is covered by both. |
| LintGaps.LiteralScopesExactly | src/openclaw_ecc_orchestrator/runs/plan_lint.py:87-111 | So are scopes of such literals, whatever the target paths. |
| LintGaps.GlobMissedExactly | src/openclaw_ecc_orchestrator/runs/plan_lint.py:98-101 | A literal and a glob share a path and are not reported if and only if the glob reaches the literal but matches neither it nor `x` directly beneath it. |
| LintGaps.MissedBeneath | src/openclaw_ecc_orchestrator/runs/plan_lint.py:98-101 | The input: `a` and `a/b*` are not reported although both cover `a/b`. |
| LintGaps.SamplesExactly | src/openclaw_ecc_orchestrator/runs/plan_lint.py:113-131 | For a glob of up to six stars, within the cap of 64, the samples are exactly the strings with nothing or the one sample for each star that still match. |
| LintGaps.GlobPairExactly | src/openclaw_ecc_orchestrator/runs/plan_lint.py:102-110 | Two such globs are reported if and only if both match such a string of one of them. |
| Approvals.ResolveEvolves | src/openclaw_ecc_orchestrator/plugin/approvals.py:154-191 | A decision loses and rebinds nothing, touches only pending requests, and decides one only if it names it with every bound field and it is unexpired. |
| Approvals.ConsumeEvolves | src/openclaw_ecc_orchestrator/plugin/approvals.py:194-227 | Only an approved, unexpired request with every bound field matching is consumed, and it is not usable again. |
| Approvals.ApprovalBroker.Expire | src/openclaw_ecc_orchestrator/plugin/approvals.py:65-72 | The loop over stored requests expires exactly the overdue pending ones. |
| Approvals.ApprovalBroker.AskFor | src/openclaw_ecc_orchestrator/plugin/approvals.py:83-121 | A request is stored as pending with its expiry if and only if its identifiers, action, plan digest, session and head are well formed; otherwise nothing changes. |
| Approvals.ApprovalBroker.ResolveDecision | src/openclaw_ecc_orchestrator/plugin/approvals.py:123-191 | The stored state after a decision, accepted or rejected, and when it is accepted. |
| Approvals.ApprovalBroker.ConsumeRequest | src/openclaw_ecc_orchestrator/plugin/approvals.py:213-227 | The stored state after a consume and when it succeeds. |
| ApprovalOutcomes.AskOutcome | src/openclaw_ecc_orchestrator/plugin/approvals.py:83-121 | Asking stores a pending request that runs out after its time if its names, digest and head, spelled out by character codes, are well formed, and changes nothing otherwise. |
| ApprovalOutcomes.DecisionOutcome | src/openclaw_ecc_orchestrator/plugin/approvals.py:123-191 | The status of every stored request after any decision: decided exactly if pending, in time, named with every bound field and, if the decision names a head, with that head, by someone who signs; else expired if overdue, else untouched. |
| ApprovalOutcomes.RejectionOutcome | src/openclaw_ecc_orchestrator/plugin/approvals.py:154-191 | A decision is noted as rejected exactly when it decides nothing. |
| ApprovalOutcomes.UseOutcome | src/openclaw_ecc_orchestrator/plugin/approvals.py:194-227 | A use takes effect exactly when the request is approved, in time and bound to just this run, unit, action, plan, session and head. |
| ApprovalOutcomes.RequestLife | src/openclaw_ecc_orchestrator/plugin/approvals.py:83-227 | From asking to use: a well-formed request, approved and then used with what it was asked for, is used up exactly if both came before it ran out; used again, it changes nothing. |
| ApprovalOutcomes.IdIsOneName | src/openclaw_ecc_orchestrator/plugin/approvals.py:83-121 | An accepted identifier is short, has no slash or doubled dot and does not start with a dot. |
| CommitGraph.MergeHasBoth | src/openclaw_ecc_orchestrator/merge_queue/queue.py:301-372 | The merge of a target and a head reaches both and changes no existing commit, also when it is a fast-forward or already contained. |
| MergeQueue.EnqueueConserves | src/openclaw_ecc_orchestrator/merge_queue/queue.py:187-250 | Enqueueing keeps settled ids followed by waiting ids equal to the consumed ids, in order. |
| MergeQueue.FinishConserves | src/openclaw_ecc_orchestrator/merge_queue/queue.py:290-299 | So does finishing an item, with a dirty target keeping it in the queue. |
| MergeQueue.MoveProvenance | src/openclaw_ecc_orchestrator/merge_queue/queue.py:275-372 | If the target moves, its old tip and the item's verified head are both ancestors of the new tip and the gates passed. |
| MergeQueue.ReprocessIsHarmless | src/openclaw_ecc_orchestrator/merge_queue/queue.py:301-372 | Processing an item whose head is already in the target moves no ref. |
| QueueOutcomes.ProcessOutcome | src/openclaw_ecc_orchestrator/merge_queue/queue.py:275-372 | What an uninterrupted processing of the first item comes to, each of the five outcomes exactly when its conditions on the inputs hold (tips agree with the record and the verified head; check, merge and gates pass; the checkout, if any, is clean; the target has not moved), with the refs, the queue and the record it leaves. |
| QueueOutcomes.FairQueueLands | src/openclaw_ecc_orchestrator/merge_queue/queue.py:301-372 | In good weather n processings merge the first n waiting items in order, and the target ends with every one of their heads. |
| QueueOutcomes.EnqueueOutcome | src/openclaw_ecc_orchestrator/merge_queue/queue.py:187-250 | An uninterrupted enqueue appends the item and uses up the approval exactly when the verification, an independent review by none of the authors, the refs, the approval and the queue, read field by field, permit it; otherwise nothing changes. |
| Reprocessing.ReprocessTheorem | src/openclaw_ecc_orchestrator/merge_queue/queue.py:275-372 | After a crash between the ref move and the queue save, and any steps that keep the merge in the target, the item is still first and processing it again moves no ref. |
| MergeQueue.MergeQueueState.Enqueue | src/openclaw_ecc_orchestrator/merge_queue/queue.py:187-250 | One locked section: when it succeeds, and that queue and broker are left as the section function says for a crash before, between or after their two saves; the theorems about runs use that function. |
| MergeQueue.MergeQueueState.FinishItem | src/openclaw_ecc_orchestrator/merge_queue/queue.py:290-299 | Link to the specification: the popped item and the history record. |
| MergeQueue.MergeQueueState.ProcessNext | src/openclaw_ecc_orchestrator/merge_queue/queue.py:301-372 | One locked section: verdict, and repository and queue left as the section function says for every crash point; the theorems about runs use that function. |
| QueueRuns.NextKeeps | src/openclaw_ecc_orchestrator/merge_queue/queue.py:187-372 | Every step of broker, queue, inbox consumers, outside commits and clock keeps the joint invariant, crashes included. |
| QueueRuns.AllRunsKeep | src/openclaw_ecc_orchestrator/merge_queue/queue.py:187-372 | So every reachable state satisfies it. |
| QueueRuns.ConservationTheorem | src/openclaw_ecc_orchestrator/merge_queue/queue.py:187-299 | In every reachable state settled ids followed by waiting ids are the consumed ids in order, without repetition; each is consumed in the broker and was approved, unexpired and fully bound when it was. |
| QueueRuns.ProvenanceTheorem | src/openclaw_ecc_orchestrator/merge_queue/queue.py:275-372 | Every move of the target ever made joined the old target and a verified, reviewed, approval-bound head, with gates passed. |
| QueueRuns.SingleDecision | src/openclaw_ecc_orchestrator/plugin/inbox.py:181-200 | No interleaving of consumers and direct deciders takes a request out of pending twice. |
| InboxClaims.ClaimsExactly | src/openclaw_ecc_orchestrator/plugin/inbox.py:129-136 | Whoever is past the lock and the re-check holds the file its name stands for, and a step ends that if and only if a writer renames another file over a claimed name. |
| InboxClaims.LocksStay | src/openclaw_ecc_orchestrator/plugin/inbox.py:50-67 | Through any step, exclusive locks on open files keep one holder each, and files still to come are new. |
| InboxClaims.ClaimTheorem | src/openclaw_ecc_orchestrator/plugin/inbox.py:159-200 | With fresh names no two consumers ever act on one name, and what a consumer moves out of the inbox is the file it resolved. |
| InboxClaims.ReplacedIsLost | src/openclaw_ecc_orchestrator/plugin/inbox.py:158-200 | A decision renamed over the name of a file that a consumer has resolved but not yet recorded is taken out of the inbox with that name: nobody has opened it and no request has changed. |
| InboxClaims.LostForever | src/openclaw_ecc_orchestrator/plugin/inbox.py:158-200 | A file that is in no inbox and that no consumer has open stays so in every later run: the decision in it is never made. |
| InboxClaims.SecondLook | src/openclaw_ecc_orchestrator/plugin/inbox.py:129-136 | The second look lets a claim stand exactly while the name still stands for the locked file. |
| InboxClaims.DecisionLands | src/openclaw_ecc_orchestrator/plugin/inbox.py:159-200 | A decision file, delivered and handled without being replaced, decides in the broker exactly what the decision decides, and is then gone from the inbox. |
| QueueRuns.LostRecordIsRefused | src/openclaw_ecc_orchestrator/plugin/inbox.py:181-200 | A decision resolved but lost before it was recorded is refused when its file is processed again. |
| Escalation.ReplayFidelity | src/openclaw_ecc_orchestrator/routing/escalation.py:52-66 | For any outcomes and grant, a controller rebuilt from its own history equals the live one if and only if the first attempt fits the ceiling or nothing is recorded. |
| Escalation.ReplayLoses | src/openclaw_ecc_orchestrator/routing/escalation.py:52-66 | The input that shows the condition is needed: one attempt paid for by a grant is missing from the replay of its own history. |
| Escalation.RewriteLast | src/openclaw_ecc_orchestrator/runs/conductor.py:361-428 | Replaying the history with another last outcome keeps every earlier attempt and the tier of the last. |
| Escalation.FirstGrantKeepsPath | src/openclaw_ecc_orchestrator/routing/escalation.py:104-127 | Adding a first grant to any history changes no tier or kind already decided; a stopped controller reopens with a repair. |
| EscalationGrants.SecondGrantExactly | src/openclaw_ecc_orchestrator/routing/escalation.py:114-118 | A second grant, accumulated into the total, keeps every recorded attempt if and only if nothing is recorded, or the first attempt fitted the ceiling and no attempt but the last climbed by the cap alone after the first grant was spent. |
| Escalation.SecondGrantRewrites | src/openclaw_ecc_orchestrator/routing/escalation.py:114-118 | The input that shows the condition is needed: an attempt that ran at tier 1 replays at tier 0. |
| Escalation.TierClimbs | src/openclaw_ecc_orchestrator/routing/escalation.py:198-252 | The tier never falls and rises by one only after an objective failure below the maximum. |
| Escalation.AttemptsBounded | src/openclaw_ecc_orchestrator/routing/escalation.py:104-127 | At most (max - start)(min(b, 2) + g) + b + g attempts are ever recorded. |
| Escalation.EscalationTerminates | src/openclaw_ecc_orchestrator/routing/escalation.py:163-252 | Any longer sequence of outcomes finishes the controller. |
| Escalation.SpendBounded | src/openclaw_ecc_orchestrator/routing/escalation.py:139-153 | With known estimates and costs within them, spend stays under the ceiling plus the tolerance, or plus one estimate with a grant. |
| EscalationOutcomes.StartExactly | src/openclaw_ecc_orchestrator/routing/escalation.py:148-155 | A fresh controller attempts the starting tier if its estimate fits the ceiling and is stopped otherwise. |
| EscalationOutcomes.RecordFollows | src/openclaw_ecc_orchestrator/routing/escalation.py:163-252 | The whole state after any recorded outcome, by conditions on the numbers: done, up a tier, repair here, or the end, where a grant in reserve buys a repair. |
| EscalationOutcomes.DoneExactly | src/openclaw_ecc_orchestrator/routing/escalation.py:198-201 | For every controller, live or rebuilt, with or without a grant: it is done if and only if the last recorded attempt passed. |
| EscalationOutcomes.PassEnds | src/openclaw_ecc_orchestrator/routing/escalation.py:198-201 | A passed attempt grants and spends nothing, leaves the reserve, and nothing more is accepted. |
| EscalationOutcomes.StopExactly | src/openclaw_ecc_orchestrator/routing/escalation.py:198-252 | A live controller stops if and only if the last outcome ends it and no grant is left; every stop follows a failure or an unaffordable start. |
| EscalationOutcomes.AttemptsBelowTop | src/openclaw_ecc_orchestrator/routing/escalation.py:104-112 | Below the top tier no attempt is ever numbered above two, or one for a budget of one, plus the grant. |
| Escalation.EscalationController.RecordOutcome | src/openclaw_ecc_orchestrator/routing/escalation.py:163-196 | Recording as it runs equals the specified step; refused with nothing changed when finished or when the cost is negative. |
| Escalation.EscalationController.DecideNext | src/openclaw_ecc_orchestrator/routing/escalation.py:198-230 | Link to the specification: the decision branches as specified. |
| Escalation.EscalationController.Climb | src/openclaw_ecc_orchestrator/routing/escalation.py:232-252 | Link to the specification: an escalation or a cost stop, counters reset and record kept. |
| Escalation.EscalationController.ReplayAttempts | src/openclaw_ecc_orchestrator/routing/escalation.py:52-66 | The replay loop, with its early exit, equals the specified reconstruction. |
| Jsonl.AppendReads | src/openclaw_ecc_orchestrator/runs/fsutil.py:76-88 | For any content, torn or not, reading after an append gives the earlier records and exactly the new one. |
| Jsonl.TornAppendReads | src/openclaw_ecc_orchestrator/runs/fsutil.py:76-88 | Stopping the append at any byte gives the old records or, once the record itself is written, the new ones. |
| Jsonl.EmitOneOrNone | src/openclaw_ecc_orchestrator/plugin/events.py:109-114 | A numbered append, cut anywhere, adds nothing or exactly one record with the next number, and never rewrites earlier bytes. |
| Jsonl.NumbersStayExact | src/openclaw_ecc_orchestrator/runs/store.py:78-96 | Over any sequence of appends cut anywhere, the records read back are numbered 1 to n. |
| Jsonl.LogFile.ReadRecords | src/openclaw_ecc_orchestrator/runs/fsutil.py:58-73 | The reading loop returns exactly the records of the content. |
| Jsonl.LogFile.Append | src/openclaw_ecc_orchestrator/runs/fsutil.py:76-88 | The file after an append that stops at any byte. |
| Tailer.ReadNewEvents | integrations/openclaw-plugin/src/tailer.js:58-151 | One poll as it runs (line loop, sort, repeat filter, cursor) equals its specification. |
| Tailer.NumbersRise | integrations/openclaw-plugin/src/tailer.js:58-151 | Over any polls, contents, truncations and rotations, delivered numbers strictly increase. |
| Tailer.SessionRemembers | integrations/openclaw-plugin/src/tailer.js:58-151 | Over any polls the cursor holds just the last number and the latest 5000 ids that were delivered. |
| TailerBatch.BatchExactly | integrations/openclaw-plugin/src/tailer.js:58-151 | One batch delivers rising numbers above the last one, and exactly the first line of each: of lines with new numbers and unseen ids, the first with its id, and of these the first with its number. |
| Tailing.DeliveredIsOnePass | integrations/openclaw-plugin/src/tailer.js:58-151 | For an append-only log with short lines and rising numbers, polled before it exists and in any states of its growth, torn or not, what was delivered is one pass over the log up to the cursor. |
| Tailing.RotationDelivers | integrations/openclaw-plugin/src/tailer.js:73-74 | After any polls of other files, whatever they delivered, polling a new file while it grows and often enough afterwards delivers in addition exactly the records of its complete lines that have a higher number and an id not among the latest 5000. |
| Tailing.ShrinkingDelivers | integrations/openclaw-plugin/src/tailer.js:73-74 | After any polls at all, a file found shorter than the place reached in it is read anew, with the same result. |
| EventFlow.PrefixIsEmitted | src/openclaw_ecc_orchestrator/runs/fsutil.py:76-88 | Every byte state of a log is what some of the same calls, the last cut somewhere, leave. |
| EventFlow.EveryByteState | src/openclaw_ecc_orchestrator/plugin/events.py:109-114 | What a crashing writer with fresh ids leaves, stopped at any byte, reads as strictly rising numbers and distinct ids. |
| EventFlow.ExactlyOnce | integrations/openclaw-plugin/src/tailer.js:58-151 | For a writer that may crash at any byte of any append and polls before there is a log and at any byte states of its growth, what is delivered is exactly the records up to the cursor, a leading part of what the writer recorded. |
| EventFlow.AllDelivered | integrations/openclaw-plugin/src/tailer.js:58-151 | Whatever byte states of the growing log earlier polls found, torn lines included, or found no log, enough polls after the writer stops deliver exactly the records of all complete lines, and all its records if the log ends with a newline. |
| Tailing.Drains | integrations/openclaw-plugin/src/tailer.js:58-151 | After any earlier polls of the growing log, enough polls of the finished one leave no complete line undelivered, and what was delivered is one pass over them. |
| Tailer.BoundaryLineLost | integrations/openclaw-plugin/src/tailer.js:86-93 | The size limit is strict: a line of exactly the limit is delivered when found complete and lost when found torn. |
| LineReader.CutExactly | src/openclaw_ecc_orchestrator/process/supervisor.py:311-343 | The pieces of a stream are exactly the well-cut pieces that make it up: each ends at its first newline or at the limit, only the last may be a tail. |
| LineReader.ReadyGrows | src/openclaw_ecc_orchestrator/process/supervisor.py:320-334 | What has been cut stays cut when more arrives, and only the rest is looked at again. |
| LineReader.Output.Reader | src/openclaw_ecc_orchestrator/process/supervisor.py:311-343 | For every chunking the queue receives the whole-stream pieces and one end mark, and the byte count is exact; if a read raises, only the unfinished rest is missing. |
| LineReader.ChunkingIsIrrelevant | src/openclaw_ecc_orchestrator/process/supervisor.py:311-343 | The pieces depend on the stream alone, concatenate to it and are never empty or longer than the limit. |
| Selection.SelectRunner | src/openclaw_ecc_orchestrator/routing/selection.py:119-241 | The selection loop, its two sorted lists and its choice equal the specification. |
| Selection.CandidatesExactly | src/openclaw_ecc_orchestrator/routing/selection.py:119-241 | The candidates are exactly the certified runners that pass every rule. |
| Selection.ChoiceIsCheapest | src/openclaw_ecc_orchestrator/routing/selection.py:219-233 | Someone is chosen whenever someone is eligible; the choice is the cheapest, and a fallback only if nobody else is eligible. |
| Selection.EveryoneJudged | src/openclaw_ecc_orchestrator/routing/selection.py:146-214 | Every certified runner is a candidate or rejected with its reason, once. |
| Selection.CandidatesGrow | src/openclaw_ecc_orchestrator/routing/selection.py:119-241 | Lifting exclusions never loses a candidate. |
| Selection.ChosenReviewerAccepted | src/openclaw_ecc_orchestrator/routing/selection.py:355-412 | A review by the chosen reviewer at the chosen tier is accepted if and only if the review is not strict, or personas make it independent, or the author's family is known. |
| Selection.AcceptedReviewMeansChoice | src/openclaw_ecc_orchestrator/routing/selection.py:244-297 | If some review at the required tier would be accepted, a reviewer is chosen. |
| Selection.ReviewerAgreement | src/openclaw_ecc_orchestrator/routing/selection.py:244-412 | A reviewer is chosen and independence can be shown if and only if some review at the required tier is acceptable. |
| Selection.BlockedExactly | src/openclaw_ecc_orchestrator/routing/selection.py:259-297 | Work is blocked exactly when no reviewer is found and the review is strict or the classification invalid. |
| Selection.OtherFamilyPreferred | src/openclaw_ecc_orchestrator/routing/selection.py:281-290 | A reviewer of another family is chosen whenever one is eligible, and the cheapest of them. |
| SelectionRules.EligibleExactly | src/openclaw_ecc_orchestrator/routing/selection.py:119-217 | A certified name has an entry if and only if no rule speaks against it, each rule read off the fields: registered, not retired, provider allowed, not excluded, breaker closed, author provider, role, class, high risk, large context, model, family; the entry is exactly the one stated. |
| SelectionRules.RefusedExactly | src/openclaw_ecc_orchestrator/routing/selection.py:146-214 | Everyone else is refused with the first rule against them. |
| SelectionRules.ChosenExactly | src/openclaw_ecc_orchestrator/routing/selection.py:219-241 | Someone is chosen if and only if someone is eligible, and nobody eligible of the same standing comes before by price and name. |
| SelectionRules.ReviewerEligible | src/openclaw_ecc_orchestrator/routing/selection.py:244-297 | Whoever is chosen to review may do so at the tier the review needs; a high-risk review never goes to a runner not permitted for it, and a strict one never to the author's runner or known family. |
| SelectionRules.IndependentExactly | src/openclaw_ecc_orchestrator/routing/selection.py:281-297 | The choice is marked as of an independent family if and only if its family is not known to be the author's. |
| SelectionRules.AcceptedReview | src/openclaw_ecc_orchestrator/routing/selection.py:355-412 | A recorded review counts only from the needed tier up, by a runner permitted for it, and if strict from another runner and a family known to be different. |

## Left out

- RunHistory.ParallelTheorem: assumes that a reassigned or revived unit was checked for overlap by its caller, because `reassign_unit` and the heal step do not check (`ReassignOverlapExactly` and `HealOverlapExactly` say exactly when that is safe); scopes overlap in the sense of `patterns_overlap`, gap included.
- RunHistory.DependencyTheorem: assumes that callers never move a pending unit to ready or blocked themselves; `TransitionDepsExactly` says what happens otherwise.
- RunSteps.PerformTracks: assumes that a generated handoff id is new; `StaleHandoffDiverges` shows it is needed.
- RunOutcomes.CallOutcome: is about calls that run to their end; for calls cut short, `RecoveryTheorem` and `CommitLoads` say what is stored. A liveness check that is not recorded for a unit counts as dead.
- LintGaps.SamplesExactly: covers globs of up to six stars; beyond that the cap of 64 drops samples.
- RunManager.Transaction.Record: usage in minutes, the over-time flag, timestamps of records and the free text of annotations are not modelled.
- RunManager.Manager.CreateRun: the verdict of the work-unit, policy and identifier validators is one input.
- RunManager.Manager.ReplaceRun: as for creation, the validators' verdict is one input.
- RunSpec.Routing: whether a routing's classification is valid is an input; the schema validators are not modelled.
- Conflicts.SameKindSound: covers entries that both modules read alike; `ConflictGaps.PairExactly` covers every spelling. Entries with `[` are excluded, there and in `MissedExactly`, because character sets of the shell-style matcher are not modelled.
- ConflictGaps.SharingIsDecided: paths range over all normal paths, absolute ones and ones with `..` included, which the scope test refuses as unsafe; restricted to safe paths, fewer entries meet.
- Scope.TranslateGlob: paths are assumed safe; the refusal of unsafe paths (Unicode forms, percent decoding, control characters) is not modelled.
- Lint.PairOverlapReal: covers entries that name something; `ReportedPairExactly` covers the rest.
- MergeQueue.MergeQueueState.Enqueue: the scope, classification and review-tier checks on the actual diff are one input.
- MergeQueue.MergeQueueState.ProcessNext: Git is a commit graph; conflicts, gate results, the id of a merge commit and the state of the checkout are inputs, and throwaway worktrees are not modelled; a Git command that fails outright leaves what a crash at that point leaves.
- QueueRuns.SingleDecision: inbox consumers are steps on values; links, size limits and result files are not modelled, and a file that cannot be read is set aside like any other.
- Approvals.ApprovalBroker.AskFor: ids are chosen by the caller; the summary text and the events that are emitted are not modelled.
- Escalation.EscalationController.RecordOutcome: elapsed time, the circuit breaker, usage totals, the runner noted on an escalation and the wording of reasons are not modelled; money is `real`, so rounding is not either.
- Jsonl.AppendReads: printing and parsing are given, under the assumption that a printed record is one line, reads back, and no proper part of it parses. Content is bytes split at line feeds: carriage returns, which text mode also reads as line breaks, and undecodable bytes are not modelled.
- Tailing.RotationDelivers: an id of the old file that comes again in the new one must be recent enough to be remembered throughout (among the latest 5000, the new file's records counted); otherwise what is delivered depends on where the polls cut the file.
- Tailing.DeliveredIsOnePass: the read limit is at least the line limit, the log is not rotated or truncated (`RotationDelivers` and `ShrinkingDelivers` cover that), and what makes an object an event is part of the given parser.
- EventFlow.ExactlyOnce: the ids given to the writer are distinct, as its generator makes them, and writer and tailer share one parser.
- LineReader.Output.Reader: pieces are bytes; decoding, stripping of line ends and the count of structured events are not modelled.
- Selection.SelectRunner: the catalog, prices and model families are given functions at one fixed time; runner names are already normalized.
- Dry runs, the notification of outside listeners, file locking, syncing to disk and temporary files are left out: a locked section is one step, and replacing a file is atomic.
- The conductor's skills pass, handoff repair, branch synchronisation, health events, and the command line, schemas, adapters, prompts and redaction are left out: they would add only field checks and heuristics.
