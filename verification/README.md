# The GitHub workflow coordinator, modelled and proved in Dafny

The coordinator drives GitHub issues to pull requests. It owns no database: the state of a work
item is one marked block inside an issue comment, the developer and the reviewers are remote agent
sessions with their own durable metadata, and any process may die between two durable writes and be
followed by another one. This project models the parts of that design where being wrong is
expensive, and proves what the design relies on.

| module | what it models |
|---|---|
| `Domain`, `Text`, `Sorting`, `Wrappers` | shared data, text normalisation, Python's stable sort, option and result types |
| `Findings`, `Deduplication` | dedup keys, merging reports of one defect, batch and incremental deduplication |
| `DisjointSets`, `Conflicts` | union-find with path halving, conflict edges, conflict groups and their names |
| `Settlement`, `Registry` | applying a decision, archiving, and the `FindingRegistry` object itself |
| `Arbitration` | the race of any number of claimants to create the state comment |
| `Leases`, `Compaction`, `Threads` | the versioned lease machine over the stored state, fitting the state into a comment, and what that costs |
| `StateBlock`, `Payloads` | embedding and extracting the marked block, and the record format inside it |
| `Foreman` | the development loop over its checkpoint: budgets, accounting, publishing and gating |
| `Adjudication`, `Answering` | who may settle a finding: proposals, review seats, answers, deferral, history; why a complete wave decides every proposal |
| `Cao` | the session controller and the lane executor against a remote control plane |
| `Capacity`, `Broker` | model leases and occupancy; ranking, fallback chain and quota arithmetic |
| `Reconcile`, `Stopping` | the recovery planner: decision table, cross-item protection, deduplication; what a whole plan says about one item |

How the environment enters: the clock, git, CI, the reviewers, the coder and the network are
nondeterministic. In `Arbitration`, `Leases` and `Adjudication` a run is an arbitrary sequence of
steps and the results hold for every sequence. In `Foreman` every durable write may be refused or
be cut off by death before or after it took effect, and in `Cao` every request may be lost on the
way out or on the way back; the methods are proved for every such choice, and `Foreman.Live` and
`Cao.RunWithRestarts` chain any number of processes. Digests are functions; where the original
relies on SHA-256 not colliding, the lemma requires them to be injective and says so.

## Where the code does less than its description

Three statements one would expect turn out false of the code. Each is kept as the code has it, shown
to fail on an input, and replaced by its exact condition.

* Applying a `rebut` decision. The registry's table maps it to an open status with a reason, which a
  finding refuses to be, so the call always fails: `Settlement.RebuttalFails` is an input,
  `Settlement.SettledExactly` the exact condition under which a decision is applied.
* The claimant with the earliest comment wins. It fails when a duplicate it is about to delete was
  already deleted by another claimant, because the client reports the missing comment as an error.
  `Arbitration.NobodyMayWin` is a race without any crash or lost response that leaves the item
  without an owner; `Arbitration.OwnerWinsExactly` is the exact condition.
* Once a plan holds a manual action for an item, it holds no further action for it
  (`reconcile.py:38-43`), and a finished item gets one no-op. Session cleanups are planned from every
  observation list and named after the session's item, whoever observed it. So an item stopped by a
  pre-check, or finished, is named again when another item that is not stopped lists an old session
  of it (`Stopping.StoppedItemNamedTwice`, `Stopping.TerminalItemNamedTwice`), and an item on a
  manual row of the table is named again for an old session of its own
  (`Stopping.ManualRowWithCleanup`). `Stopping.StoppedItemsGetOneAction` and
  `Stopping.StopsOnManualExactly` give the exact conditions over the whole plan. A worktree cleanup
  names no item, only a branch: `Stopping.WorktreesCleanedExactly` says when one is planned,
  `Stopping.ManualWithCleanup` shows one beside an escalation.

## Model

| member | source | states |
|---|---|---|
| Findings.KeyIdentifiesReport | src/ai_pr_orchestrator/v3/findings.py:77-143 | two keyed findings have one dedup key exactly when they report the same thing: same normalised claim, path, line, last line and head (with a collision-free digest) |
| Findings.JoinInjective | src/ai_pr_orchestrator/v3/findings.py:77-89 | rejecting the separator in components makes the joined key text unambiguous |
| Findings.MaxSeverityIsMaximum | src/ai_pr_orchestrator/v3/findings.py:146-188 | the merged severity was reported by some member and no member is more severe |
| Findings.MaxConfidenceIsMaximum | src/ai_pr_orchestrator/v3/findings.py:539-541 | the merged confidence is the largest reported one, absent exactly when none was reported |
| Findings.MergeSummarizes | src/ai_pr_orchestrator/v3/findings.py:167-198 | merging a group loses no evidence and no provenance, invents none, and takes the maxima |
| Findings.SummaryExtends | src/ai_pr_orchestrator/v3/findings.py:322-340 | merging one more report into a summary summarises the larger group |
| Deduplication.DeduplicationIgnoresOrder | src/ai_pr_orchestrator/v3/findings.py:342-381 | the outcome, survivors and errors alike, is the same for every order of the findings |
| Deduplication.DeduplicationConserves | src/ai_pr_orchestrator/v3/findings.py:342-381 | exactly one survivor per reported key, in key order, carrying all evidence and provenance of its group and the group's maxima |
| Deduplication.DeduplicationIdempotent | src/ai_pr_orchestrator/v3/findings.py:342-381 | deduplicating a deduplicated list changes nothing |
| Deduplication.ReconciledIds | src/ai_pr_orchestrator/v3/findings.py:322-340 | reconciling one report keeps ids unique, loses no id and adds at most the report's own |
| Deduplication.FoldSummarizes | src/ai_pr_orchestrator/v3/findings.py:322-340 | folding any list of open reports with distinct ids never fails and leaves one open summary per key with unique ids |
| Deduplication.IncrementalAgreesWithBatch | src/ai_pr_orchestrator/v3/findings.py:311-381 | incremental and batch merging agree: same keys, and per key the same severity, confidence, evidence and provenance |
| DisjointSets.HalvingKeepsForest | src/ai_pr_orchestrator/v3/findings.py:407-411 | one path-halving step keeps the parent map a forest with the same roots and moves strictly closer to the root |
| DisjointSets.JoinKeepsForest | src/ai_pr_orchestrator/v3/findings.py:413-418 | hanging one root under another keeps the parent map a forest |
| DisjointSets.ConstantAlongWalk | src/ai_pr_orchestrator/v3/findings.py:407-418 | nodes joined by any walk of edges share a root when the ends of each edge do |
| DisjointSets.UnionFind.Find | src/ai_pr_orchestrator/v3/findings.py:407-411 | terminates and returns the root of the node, without changing any node's root |
| DisjointSets.UnionFind.Union | src/ai_pr_orchestrator/v3/findings.py:413-418 | records exactly one more edge and keeps roots equal exactly for linked nodes |
| DisjointSets.UnionFind.RootsAgree | src/ai_pr_orchestrator/v3/findings.py:407-418 | in every valid structure two nodes share a root exactly when a chain of edges links them |
| Conflicts.EncodeInjective | src/ai_pr_orchestrator/v3/findings.py:440-446 | the length-prefixed member encoding distinguishes any two member lists, whatever characters the ids hold |
| Conflicts.SharedGroupMeansLinked | src/ai_pr_orchestrator/v3/findings.py:383-450 | two contested findings carry the same group id exactly when a chain of conflicts joins them |
| Conflicts.UncontestedStandsAlone | src/ai_pr_orchestrator/v3/findings.py:383-450 | a finding without a conflict of its own is linked to no other finding |
| Conflicts.GroupsIgnoreOrder | src/ai_pr_orchestrator/v3/findings.py:420-432 | every finding's group is the same for every order of the findings |
| Registry.ScanFindsAll | src/ai_pr_orchestrator/v3/findings.py:397-431 | the per-path scan over ordered pairs finds exactly the contradicting pairs of the whole list |
| Registry.ClassIsComponent | src/ai_pr_orchestrator/v3/findings.py:432-434 | the members collected under a root are the connected component of each of them |
| Registry.MergeReport | src/ai_pr_orchestrator/v3/findings.py:322-340 | the loop over the active findings merges into the first finding with the key or appends, as specified for one reconciliation |
| Registry.MergeGroups | src/ai_pr_orchestrator/v3/findings.py:342-381 | grouping, ordering the keys and merging group by group computes the specified deduplication |
| Registry.SurvivorsValid | src/ai_pr_orchestrator/v3/findings.py:342-381 | survivors of a valid registry are well formed and keep unique ids |
| Registry.FindingRegistry.Register | src/ai_pr_orchestrator/v3/findings.py:262-320 | fails exactly on a known id and changes nothing; otherwise quarantines or appends the seeded finding, and only that |
| Registry.FindingRegistry.Reconcile | src/ai_pr_orchestrator/v3/findings.py:322-340 | quarantine, error and merge each leave exactly the specified findings, whose agreement with batch merging is proved above |
| Registry.FindingRegistry.Deduplicate | src/ai_pr_orchestrator/v3/findings.py:342-381 | replaces the findings by the survivors, or keeps the seeded ones when lifecycles are mixed |
| Registry.FindingRegistry.DetectConflicts | src/ai_pr_orchestrator/v3/findings.py:383-450 | stamps every finding with the name of its component or with nothing, touches nothing else, and returns exactly the groups with their sorted members |
| Registry.FindingRegistry.ApplyDisposition | src/ai_pr_orchestrator/v3/findings.py:452-517 | an error leaves the registry as it was; success changes only the named finding |
| Registry.FindingRegistry.Compact | src/ai_pr_orchestrator/v3/findings.py:519-537 | moves exactly the settled findings to the archive, in order |
| Settlement.SettledExactly | src/ai_pr_orchestrator/v3/findings.py:452-517 | a decision is applied if and only if its finding is open or deferred, the threads agree, a required reply and the rationale are given, and the action is not a rebuttal |
| Settlement.RebuttalFails | src/ai_pr_orchestrator/v3/findings.py:507-515 | an open finding and a rebuttal that meets every stated guard and is refused all the same |
| Settlement.SettledEffect | src/ai_pr_orchestrator/v3/findings.py:490-517 | an applied decision changes one finding, and of it only status and reason; it is open no longer and still well formed |
| Settlement.CompactionConserves | src/ai_pr_orchestrator/v3/findings.py:519-537 | archiving loses no finding and invents no record |
| Sorting.SortPermutation | src/ai_pr_orchestrator/v3/findings.py:161-175 | sorting by a key that distinguishes all elements gives one result for all orders of the input |
| Sorting.FilterSort | src/ai_pr_orchestrator/v3/broker.py:332-361 | stable sorting commutes with leaving elements out |
| Arbitration.AtMostOneWinner | src/ai_pr_orchestrator/v3/queue.py:321-429 | under every interleaving, with crashes and lost responses, at most one claimant succeeds and it posted the earliest comment, which still exists |
| Arbitration.VisibleForever | src/ai_pr_orchestrator/v3/queue.py:836-847 | once readers can see a state they see the same comment ever after |
| Arbitration.PostedStaysVisible | src/ai_pr_orchestrator/v3/queue.py:405-419 | a claimant that posted always finds the first comment when it rescans |
| Arbitration.OneCommentRemains | src/ai_pr_orchestrator/v3/queue.py:405-434 | when every poster has finished, exactly the first comment is left |
| Arbitration.BrokenExactly | src/ai_pr_orchestrator/v3/queue.py:431-434 | a claimant fails on a vanished duplicate exactly when one of its deletes found nothing |
| Arbitration.OwnerWinsExactly | src/ai_pr_orchestrator/v3/queue.py:405-434 | the poster of the first comment, once finished, won if and only if none of its deletes found nothing |
| Arbitration.NobodyMayWin | src/ai_pr_orchestrator/github/client.py:436-543 | an undisturbed race of two after which neither holds the claim |
| Compaction.Compact | src/ai_pr_orchestrator/v3/queue.py:872-904 | the shrinking loop returns the compaction characterised by the next two rows |
| Compaction.CompactionIsMinimal | src/ai_pr_orchestrator/v3/queue.py:872-904 | the stored state fits, keeps every unthreaded finding, disposition and archive record, drops the fewest oldest threaded findings, and is refused exactly when no number of drops fits |
| Compaction.RefusedOnlyWhenHopeless | src/ai_pr_orchestrator/v3/queue.py:872-904 | for a size that shrinks with every drop, refusal means that dropping every threaded finding is not enough |
| Leases.StaleHandleFails | src/ai_pr_orchestrator/v3/queue.py:344-372 | no operation from a handle of another version than the stored one succeeds |
| Leases.SupersededForever | src/ai_pr_orchestrator/v3/queue.py:344-372 | after any write, every handle held before it fails for ever, whatever happens in between |
| Leases.TerminalForever | src/ai_pr_orchestrator/v3/domain.py:271-294 | a terminal phase and its reason survive every sequence of operations |
| Leases.ClaimRoundTrip | src/ai_pr_orchestrator/v3/queue.py:153-209 | a claim written over the extras is read back unchanged and foreign extras survive |
| Leases.HeartbeatTouchesLease | src/ai_pr_orchestrator/v3/queue.py:610-641 | a heartbeat is accepted only on a live lease and changes only the version, the expiry and the heartbeat time |
| Leases.RevivedOnlyByClaim | src/ai_pr_orchestrator/v3/queue.py:744-809 | a lease that has run out becomes live only through a reclaim, or by claiming a queued item |
| Leases.ExpiredStaysExpired | src/ai_pr_orchestrator/v3/queue.py:610-674 | without reclaim and claim an expired lease stays expired through every sequence |
| Leases.LiveLeaseIsExclusive | src/ai_pr_orchestrator/v3/queue.py:589-809 | while a lease is live no operation by anyone changes its host, run or claim time, unless the holder drains it or the item is queued and claimed anew |
| Leases.OwnershipPassesOnlyWhenFree | src/ai_pr_orchestrator/v3/queue.py:537-809 | over every sequence of operations the holder stays the same unless at some operation the lease had run out or was given up |
| Leases.ReclaimHandsOver | src/ai_pr_orchestrator/v3/queue.py:744-803 | a reclaim succeeds exactly from the current version of a live item whose lease is absent or over, and gives the claimant a lease of exactly the configured length |
| Leases.HistorySurvives | src/ai_pr_orchestrator/v3/queue.py:537-809 | from the empty store on, dispositions, archive, unthreaded findings and foreign extras survive every later sequence of operations |
| Threads.ThreadedSurvive | src/ai_pr_orchestrator/v3/queue.py:872-904 | from the empty store on, stored threaded findings stay stored through every later sequence of operations, unless one of them wrote a state that did not fit; then exactly some of the oldest are gone |
| Threads.StepWithin | src/ai_pr_orchestrator/v3/queue.py:307-372 | one operation loses no stored threaded finding unless its state did not fit |
| Leases.IssueQueue.Save | src/ai_pr_orchestrator/v3/queue.py:307-372 | a version conflict or a state that does not fit stores nothing; otherwise the compacted state is stored and the caller keeps the full one |
| Leases.IssueQueue.ClaimItem | src/ai_pr_orchestrator/v3/queue.py:537-608 | commits or refuses as the lease machine of the rows above does |
| Leases.IssueQueue.Heartbeat | src/ai_pr_orchestrator/v3/queue.py:610-641 | commits or refuses as the lease machine does |
| Leases.IssueQueue.Transition | src/ai_pr_orchestrator/v3/queue.py:643-674 | commits or refuses as the lease machine does |
| Leases.IssueQueue.Abandon | src/ai_pr_orchestrator/v3/queue.py:712-728 | commits, skips or refuses as the lease machine does |
| Leases.IssueQueue.ReclaimExpired | src/ai_pr_orchestrator/v3/queue.py:744-809 | commits or refuses as the lease machine does |
| StateBlock.FindBlockIsLeftmostShortest | src/ai_pr_orchestrator/v3/queue.py:247-250 | the search finds the leftmost opening marker with the nearest closing one, and fails only when there is no such pair |
| StateBlock.MarkerDelimiters | src/ai_pr_orchestrator/v3/queue.py:266-268 | any one-line marker name yields delimiter lines with the properties the round trips rest on |
| StateBlock.ReplaceRoundTrip | src/ai_pr_orchestrator/v3/queue.py:270-285 | replacing the block of any body makes the new payload the one read back, and leaves the text before and after unchanged, even when the payload holds marker text |
| StateBlock.CreateRoundTrip | src/ai_pr_orchestrator/v3/queue.py:266-277 | a freshly embedded payload is read back |
| StateBlock.AppendRoundTrip | src/ai_pr_orchestrator/v3/queue.py:279-285 | the helper's second branch: a payload appended to a body without a block is read back if and only if no opening marker stands alone in that body; the one caller takes this branch for no body, since it requires a block first |
| Payloads.RecordRoundTrip | src/ai_pr_orchestrator/v3/domain.py:296-340 | a record can be written exactly when no extra shadows a field, and what was written is read back |
| Payloads.PayloadRoundTrip | src/ai_pr_orchestrator/v3/domain.py:749-802 | reading and writing a payload keeps every entry, known or not, except omitted defaults |
| Payloads.SavedIsLoaded | src/ai_pr_orchestrator/v3/queue.py:266-305 | the state saved into a new or existing block is the state loaded from it |
| Foreman.AuthorizationIsSafe | src/ai_pr_orchestrator/v3/foreman.py:1886-1923 | an authorised ledger stays within the cap, only grows, holds the dispatch's charge, and authorising the same dispatch again changes nothing |
| Foreman.Run.Save | src/ai_pr_orchestrator/v3/foreman.py:1800-1818 | a durable write takes effect wholly or not at all, and reports success only when it did |
| Foreman.Run.Dispatch | src/ai_pr_orchestrator/v3/foreman.py:1946-1983 | can be called only for a durably recorded prompt while the durable token count is the cost of all recorded ones |
| Foreman.Run.Charge | src/ai_pr_orchestrator/v3/foreman.py:1937-1944 | adds the estimate exactly when the limit still holds, else escalates without charging |
| Foreman.Run.PrepareCoder | src/ai_pr_orchestrator/v3/foreman.py:868-891 | escalates without any write when the invocations are used up; otherwise goes on in the coding phase of the saved round |
| Foreman.Run.RecordTurn | src/ai_pr_orchestrator/v3/foreman.py:1985-2027 | one durable write records the turn, its invocation, its charge and the token count together |
| Foreman.Run.CoderAttempt | src/ai_pr_orchestrator/v3/foreman.py:844-866 | a resumed turn is not charged again; any other attempt uses up an invocation |
| Foreman.Run.RunCoder | src/ai_pr_orchestrator/v3/foreman.py:815-842 | the retry loop ends; success leaves a recorded turn, no failure count, and the accounting in step |
| Foreman.Run.BeginRound | src/ai_pr_orchestrator/v3/foreman.py:1220-1247 | opens exactly the round after the one held in memory, which no recorded decision carries yet, or escalates without any write when the round cap, the trigger budget or the lack of reviewers forbids it |
| Foreman.Run.RecordPrompts | src/ai_pr_orchestrator/v3/foreman.py:1193-1202 | records and charges the prompts of all seats in one durable write |
| Foreman.Run.SettleWave | src/ai_pr_orchestrator/v3/foreman.py:1037-1065 | whatever the seats answered, the saved book has no pending proposal when every answer was usable, and no open finding when none was counted |
| Foreman.SettleKeeps | src/ai_pr_orchestrator/v3/foreman.py:1249-1340 | settling a wave that is ready keeps decisions grounded, the wave ready to be settled again after a crash, and the round numbers within the round |
| Foreman.Run.FinishWave | src/ai_pr_orchestrator/v3/foreman.py:1037-1138 | a wave that ends well had no failed seat and is converging, has a durable report for the head it reviewed, and the saved decisions leave no proposal pending |
| Foreman.Run.ReviewRound | src/ai_pr_orchestrator/v3/foreman.py:927-987 | a finished review is complete and durable; a round not resumed is a new one |
| Foreman.Run.RecoverWave | src/ai_pr_orchestrator/v3/foreman.py:1140-1154 | an interrupted wave is completed without any new charge; one already reported is taken as it is, with nothing written or dispatched |
| Foreman.Run.Publish | src/ai_pr_orchestrator/v3/foreman.py:2615-2636 | success means that the reviewed head was pushed |
| Foreman.Run.EvaluateGate | src/ai_pr_orchestrator/v3/foreman.py:617-632 | a decision is returned only when the pull request had the reviewed head before and after the evaluation |
| Foreman.Run.SettleGate | src/ai_pr_orchestrator/v3/foreman.py:648-748 | a passed gate ends done, a pending one requeues, and another round follows only a failed gate with a failure never seen before, recorded first, within the iteration caps and not on a gate resume |
| Foreman.Run.RecordProposals | src/ai_pr_orchestrator/v3/foreman.py:1684-1705 | the worker's answers change the decisions alone, in the round of its turn |
| Foreman.Run.DevelopmentRound | src/ai_pr_orchestrator/v3/foreman.py:561-615 | going on means a complete durable wave for the reported head with nothing published since; never ends green by itself |
| Foreman.Run.Iterate | src/ai_pr_orchestrator/v3/foreman.py:513-555 | a turn that goes on used a review round or finished a recovery; a green end was reviewed, pushed and gated at one head |
| Foreman.Run.RunLoop | src/ai_pr_orchestrator/v3/foreman.py:495-555 | terminates on every behaviour of the environment; a green end without gate resume published and gated exactly the head of the last complete wave, and the saved findings and decisions hold nothing open and nothing pending; the reported outcome is the durable phase; no spend, progress or failure signature is forgotten |
| Foreman.Live | src/ai_pr_orchestrator/v3/foreman.py:295-351 | a run and any number of resuming processes keep coder, round, trigger and spend budgets, the token count stays the cost of all recorded prompts, and only recorded prompts are dispatched |
| Adjudication.AdjudicatorIsIndependent | src/ai_pr_orchestrator/v3/foreman.py:1416-1650 | the adjudicator is a configured reviewer, never the worker, and when independence is needed not an origin of the finding or of its conflict group |
| Adjudication.AcceptedOnlyByAnswer | src/ai_pr_orchestrator/v3/foreman.py:1278-1340 | whatever one wave newly accepts was accepted by a decision in the saved history that answers the worker's latest proposal |
| Adjudication.AcceptedOnlyAsProposed | src/ai_pr_orchestrator/v3/foreman.py:1606-1682 | in every run, a finding becomes accepted only through a reviewer's accept naming the round of the worker's latest fix or rebuttal |
| Adjudication.OnlyWavesSettle | src/ai_pr_orchestrator/v3/foreman.py:1684-1705 | proposing, planning and reporting settle nothing |
| Adjudication.HistoryGrows | src/ai_pr_orchestrator/v3/foreman.py:1750-1798 | no step removes or reorders recorded decisions |
| Adjudication.UnusableChangesNothing | src/ai_pr_orchestrator/v3/foreman.py:1249-1317 | an invalid reviewer result has the effect of no result, on its own seat and on all later ones |
| Adjudication.DeferExact | src/ai_pr_orchestrator/v3/foreman.py:1319-1347 | deferral changes exactly the open findings that are below major, without thread and without conflict |
| Adjudication.OnlyMinorIsDeferred | src/ai_pr_orchestrator/v3/foreman.py:1342-1347 | a finding newly deferred by a wave was open and is below major, without thread and in no conflict group |
| Adjudication.DeferredIsUncontested | src/ai_pr_orchestrator/v3/foreman.py:1319-1347 | with the real keys and groups, a newly deferred finding contradicts no other finding |
| Adjudication.RunKeeps | src/ai_pr_orchestrator/v3/foreman.py:1249-1347 | every run keeps ids unique, accepted findings out of the active list and the requests of a planned wave in step with the latest proposals |
| Adjudication.MergeIsUnion | src/ai_pr_orchestrator/v3/foreman.py:1842-1857 | merging decisions into the history keeps all of both and adds nothing |
| Adjudication.LatestMerged | src/ai_pr_orchestrator/v3/foreman.py:1842-1857 | after a merge the latest decision on a finding is the old one or one of the merged ones |
| Adjudication.CompleteWaveDecidesAll | src/ai_pr_orchestrator/v3/foreman.py:1349-1508 | when every seat of a planned wave delivered, each pending proposal has an answer naming its round |
| Answering.PlannedIsReady | src/ai_pr_orchestrator/v3/foreman.py:1349-1462 | a wave planned in a round no decision carries puts every pending proposal to a seat, under the proposal's own round |
| Answering.NewRoundBecomesLatest | src/ai_pr_orchestrator/v3/foreman.py:1842-1857 | merging a decision of a round the history does not hold for its finding makes the latest decision on it one of the merged ones, replays included |
| Answering.StillAwaiting | src/ai_pr_orchestrator/v3/foreman.py:1665-1682 | what awaits a decision after a wave awaited the same one before it, and the wave decided nothing about it |
| Answering.CompleteWaveLeavesNothing | src/ai_pr_orchestrator/v3/foreman.py:1750-1798 | when every seat of a ready wave was usable, the persisted findings and decisions leave no proposal pending |
| Answering.PersistedKeepsReady | src/ai_pr_orchestrator/v3/foreman.py:1750-1798 | after any persisted wave the same wave is still ready, so an interrupted one can be persisted again |
| Answering.CompleteWavesDecideEverything | src/ai_pr_orchestrator/v3/foreman.py:1037-1084 | in every run whose waves get new rounds, persisting a wave of usable seats leaves nothing pending |
| Answering.HigherRoundIsNew | src/ai_pr_orchestrator/v3/foreman.py:1652-1657 | a round numbered above the saved one occurs in no recorded decision |
| Answering.PersistedNumbers | src/ai_pr_orchestrator/v3/foreman.py:1249-1340 | a wave's decisions raise the highest round number to the wave's own at most |
| Cao.DeliveredAtMostOncePerChange | src/ai_pr_orchestrator/v3/cao.py:621-655 | if every delivery directly follows a change of the durable digest to it, a message is delivered at most as often as the digest was changed to it |
| Cao.ControlPlane.Patch | src/ai_pr_orchestrator/v3/cao.py:955-1012 | a metadata write is applied or not, whatever answer arrives, and logs a digest change exactly when one happened |
| Cao.ControlPlane.Post | src/ai_pr_orchestrator/v3/cao.py:636-655 | a delivery is possible only right after the digest was changed to it, and happens at most once per request |
| Cao.SessionController.MarkActive | src/ai_pr_orchestrator/v3/cao.py:955-988 | activity is claimed only for a turn in which activity was read, and the digest is not touched |
| Cao.SessionController.Interpret | src/ai_pr_orchestrator/v3/cao.py:1113-1136 | completed is answered only for a turn with activity read in it, or after enough idle readings in a row when inferred from idle |
| Cao.SessionController.Observe | src/ai_pr_orchestrator/v3/cao.py:705-734 | an observation keeps the registered turn, delivers nothing, and reports completion only on that evidence |
| Cao.SessionController.ClearActivity | src/ai_pr_orchestrator/v3/cao.py:990-1003 | success means the new digest is durable, recorded last, and registered without activity |
| Cao.SessionController.SubmitWork | src/ai_pr_orchestrator/v3/cao.py:621-655 | success means the digest was recorded and then the message delivered, in that order and once, for a turn in which no activity was read yet; any failure leaves at most the record, its withdrawal or one delivery |
| Cao.SessionController.StopSession | src/ai_pr_orchestrator/v3/cao.py:1014-1026 | success means the session is gone and forgotten; failure keeps the registration |
| Cao.SessionController.RecoverSession | src/ai_pr_orchestrator/v3/cao.py:781-805 | adopts only a session of the same identity and model, and delivers nothing |
| Cao.SessionController.StartSession | src/ai_pr_orchestrator/v3/cao.py:541-617 | ends with a registered session of the wanted identity and model, and delivers nothing |
| Cao.LaneExecutor.Collect | src/ai_pr_orchestrator/v3/cao_lane.py:168-202 | polling ends, delivers nothing, and reports completion of the recorded turn only on activity read during it |
| Cao.LaneExecutor.Turn | src/ai_pr_orchestrator/v3/cao_lane.py:146-166 | a matching durable digest is only collected, never delivered again |
| Cao.LaneExecutor.Execute | src/ai_pr_orchestrator/v3/cao_lane.py:124-166 | whatever is lost on the way, one call delivers at most its own message once, and reports completion only for its digest and context on activity read in that very turn |
| Cao.RunWithRestarts | src/ai_pr_orchestrator/v3/cao_lane.py:124-166 | over any sequence of calls, each from the running process or after a restart, each message is delivered at most once per change of the durable digest to it and never more often than calls asked for it, and each reported completion rests on activity read in a turn made for that call's digest and context |
| Capacity.LeaseIdsDiffer | src/ai_pr_orchestrator/v3/broker.py:408-423 | lease ids with different sequence numbers differ, whatever lanes and models they name |
| Capacity.GrantKeeps | src/ai_pr_orchestrator/v3/broker.py:377-423 | granting a lease under the cap keeps counts equal to live leases, occupancy within caps, and external occupancy only beside local leases |
| Capacity.ReturnKeeps | src/ai_pr_orchestrator/v3/broker.py:425-443 | returning any lease, known or not, keeps the same invariant and removes exactly that lease |
| Capacity.ReturnIsLocal | src/ai_pr_orchestrator/v3/broker.py:425-443 | a repeated or unknown return changes nothing, a first one frees one unit of its own model and touches no other model |
| Capacity.LiveLeasesFit | src/ai_pr_orchestrator/v3/broker.py:300-331 | the invariant bounds the live leases of every capped model by its cap |
| Capacity.PolicyBroker.Reserve | src/ai_pr_orchestrator/v3/broker.py:377-423 | grants exactly when the cap leaves room, with a lease id never issued before; a refusal changes nothing |
| Capacity.PolicyBroker.Release | src/ai_pr_orchestrator/v3/broker.py:425-443 | the ledger afterwards is the one described in the rows above |
| Capacity.Trace | src/ai_pr_orchestrator/v3/broker.py:377-443 | every sequence of calls ends with live leases within every cap |
| Broker.Select | src/ai_pr_orchestrator/v3/broker.py:332-373 | the loop over the catalog yields the specified ranking, rejections and choice |
| Broker.RankingIgnoresUnrelated | src/ai_pr_orchestrator/v3/broker.py:332-361 | a catalog entry the demand does not mention changes neither the order, scores nor rejections of the others |
| Broker.FallbackChain | src/ai_pr_orchestrator/v3/broker.py:445-468 | the accumulating loop computes the chain characterised by the next two rows |
| Broker.ChainShape | src/ai_pr_orchestrator/v3/broker.py:445-468 | the chain follows the ranking, is bounded, leaves out the choice and, when asked, repeats no provider |
| Broker.ChainIsGreedy | src/ai_pr_orchestrator/v3/broker.py:445-468 | an entry is left out only because it was chosen, the chain was full, or its provider was already taken by an earlier one |
| Broker.MoreUseNeverRaisesScore | src/ai_pr_orchestrator/v3/broker.py:485-652 | raising the used fraction of any measured windows never raises a total score |
| Broker.MoreUseNeverAdmits | src/ai_pr_orchestrator/v3/broker.py:692-827 | nor does it make a rejected candidate eligible |
| Reconcile.CollectBranches | src/ai_pr_orchestrator/v3/reconcile.py:1119-1136 | collects exactly the branches protected by an unexpired claim of any item |
| Reconcile.CollectSessions | src/ai_pr_orchestrator/v3/reconcile.py:1138-1157 | collects exactly the sessions protected by an unexpired claim of any item |
| Reconcile.Finalize | src/ai_pr_orchestrator/v3/reconcile.py:1159-1184 | the loop with its seen set computes the filtering characterised by the next three rows |
| Reconcile.OneRelaunchPerRun | src/ai_pr_orchestrator/v3/reconcile.py:1159-1184 | no two relaunches of one run are left, for any list of actions |
| Reconcile.PlanRelaunchesOnce | src/ai_pr_orchestrator/v3/reconcile.py:659-687 | no plan relaunches a run twice, for any list of items |
| Reconcile.FinalizedDropsOnlyRepeats | src/ai_pr_orchestrator/v3/reconcile.py:1159-1184 | everything but repeated relaunches stays in order, and each relaunched run keeps one relaunch |
| Reconcile.PlanMany | src/ai_pr_orchestrator/v3/reconcile.py:659-687 | collecting, planning each item and filtering computes the specified plan |
| Reconcile.NothingHeldIsCleaned | src/ai_pr_orchestrator/v3/reconcile.py:1062-1157 | no plan cleans a branch or session that any item's unexpired claim protects |
| Stopping.NamingPlan | src/ai_pr_orchestrator/v3/reconcile.py:659-687 | the actions of a plan that name an item are, in input order, the own action of each input of the item unless it repeats a relaunch, and the session cleanups of the item that each input not stopped adds |
| Stopping.OneActionExactly | src/ai_pr_orchestrator/v3/reconcile.py:659-738 | an input's own action is the only one in the plan that names its item if and only if no other input of the item gets an action in and no input that is not stopped observes an unprotected, over-age session of it |
| Stopping.StoppedItemsGetOneAction | src/ai_pr_orchestrator/v3/reconcile.py:689-738 | under exactly that condition a terminal item is named by its one no-op, and an item stopped by a pre-check by that check's one action |
| Stopping.StopsOnManualExactly | src/ai_pr_orchestrator/v3/reconcile.py:38-43 | in a whole plan a manual action naming an item is the only action naming it if and only if each input of the item that calls for a human, by pre-check or table row, speaks alone about it |
| Stopping.StoppedItemNamedTwice | src/ai_pr_orchestrator/v3/reconcile.py:1062-1090 | two items, one escalated on its expired lease and named again because the other lists an old session of it |
| Stopping.TerminalItemNamedTwice | src/ai_pr_orchestrator/v3/reconcile.py:1062-1090 | the same beside a finished item |
| Stopping.ManualRowWithCleanup | src/ai_pr_orchestrator/v3/reconcile.py:409-613 | one item on a manual row, escalated and named again for an old session of its own |
| Stopping.WorktreesCleanedExactly | src/ai_pr_orchestrator/v3/reconcile.py:1092-1136 | a plan cleans a worktree of a branch if and only if no unexpired claim holds the branch and an input that is not stopped observes an old worktree of it |
| Stopping.ItemStopsOnManualExactly | src/ai_pr_orchestrator/v3/reconcile.py:689-738 | within one item's own planning a manual action stands alone if and only if the table does not reach a manual row while a session or worktree among its observations is to be cleaned |
| Stopping.ManualWithCleanup | src/ai_pr_orchestrator/v3/reconcile.py:409-613 | an item without a claim that gets an escalation and a worktree cleanup |

## Left out

- Digests, JSON text and the size of a serialised state are parameters; where needed they are required to be injective, to round-trip, or to shrink.
- Findings are values: two registry lists holding the same mutable finding object are not modelled, nor are a finding's extras.
- Findings.KeyIdentifiesReport: claims and heads are lowercased, stripped and collapsed as in ASCII; Unicode case and white space are not modelled.
- Path validation is reduced to a nonempty path.
- Lenient loading of older or damaged records; only well-typed entries are read.
- After incremental merging, which report lends its id, body and suggestion depends on the order of arrival; agreement with batch merging is stated for severity, confidence, evidence and provenance.
- Labels, dry runs, retries and pagination of HTTP: a listing is one snapshot of the comments and a state update is one atomic step, because its separate read, write and re-read do not exclude a lost update.
- StateBlock.FindBlockIsLeftmostShortest: markers are the exact delimiter lines the coordinator writes; the search's tolerance for other spacing inside them is not modelled.
- StateBlock.AppendRoundTrip: exact delimiter lines as well.
- Heartbeat threads and the review thread pool: heartbeats are ordinary operations of the lease machine and seats are collected in any order the outcomes list gives.
- Prompt, report and pull request texts, the parsing of reviewer output, and the redaction of secrets.
- Foreman.Run.RunLoop: the wall-clock deadline is a nondeterministic escalation; reserving a model, routing to a fallback model, replies on review threads and cleaning up checkouts are not modelled.
- Cao.SessionController.Observe: stated when the registered copy and the durable record speak of the same turn, as every path of the executor keeps it; after a rejected delivery whose restoring write was applied without an answer, a direct observation could book activity on the newer of the two turns.
- The scheduler's choice of the next issue, the CI gate's reading of check runs, lane wiring, the configuration and catalog validators, and the status command would add only easy members.
