# CSIS: a verified model of its stateful cores

CSIS runs LLM agents in a loop. Under the agents sit a few stateful cores that make promises about
whole runs. This project models those cores in Dafny and proves the promises.

- **Memory store** (`Store.dfy`, `StoreRuns.dfy`, `Trust.dfy`): one tier's candidate and live maps and
  its archive, as a class. Promotion is guarded by a hash of the live map. Runs are sequences of locked
  operations. The central facts are that live is write-once, that the live hash has no ABA across
  promotions, and that batches are all-or-nothing.
- **Auditor** (`Auditor.dfy`): the signed diff, and why a why-doc that commits is truthful.
- **Coordinator** (`Coordinator.dfy`, `Endings.dfy`, `IterationProofs.dfy`): one iteration over five stores, gate by
  gate, with its log, its promotion and the cleanup after a tier mismatch, while sibling iterations act
  on the same stores; and the loop over iterations. Each ending has its exact condition, every event of
  the log is specified, and so is the exact state every ending leaves of every store, which is always one
  that a run of store operations reaches.
- **Budget** (`Budget.dfy`, `BudgetCap.dfy`, `BudgetWal.dfy`, `BudgetDay.dfy`): trackers with stale caches
  taking locked steps on one file. Proved: the daily cap over every interleaving, for the file and for what
  was really billed, the exact set of pending reservations, and where every billed call ends up.
- **Event log** (`EventLog.dfy`): chain integrity for any interleaving of any number of instances, with
  removals of the file, and tamper evidence.
- **Distributional graders** (`Metrics.dfy`, `Bootstrap.dfy`, `Graders.dfy`): Dice and IoU, the Hausdorff
  distance, percentile indices, and monotonicity of verdicts, in exact reals.
- **Tripwires** (`Canonical.dfy`, `Tripwires.dfy`) and **rate limiter** (`RateLimit.dfy`).

Classes with mutable fields stand for the classes of the source. Each method is proved against a
function of the old state, and the theorems about runs are lemmas over those functions.

## Conventions

- The store's hash is a parameter, and the theorems that need it say `Injective`. The event log's digest
  has fixed-length outputs, so it is not assumed injective: the theorem assumes only that the texts
  hashed in the two compared logs do not collide.
- Money is counted in micro-dollars. Every listed price is a whole number of them per token, so rounding
  to six places loses nothing in exact arithmetic.
- Clocks, tokens, iteration ids, archive failures, lock failures, agent replies and resample indices are
  inputs. A locked section reads the clock once.
- A store, tracker or log operation that holds its lock is one atomic step.

## Where code and documentation disagree

The model follows the code in each case.

- `csis/budget.py:159-161` and `:416-422` say that a drain loses no spend. The drain at line 457 fills the
  cached state and the load at line 458 overwrites it, so a drained record survives only when no data
  file exists. `BudgetWal.DrainSurvivesIff` is the exact condition, `DrainCanLoseSpend` a concrete case,
  and `SpendIsConserved` holds without loss when the two lines are exchanged.
- `csis/budget.py:290-293` says that the cap check sees spend still in the log. `reserve_or_raise` does not
  add it; the cap theorem is about the cost and the reservations in the file.
- `csis/budget.py:493-494` calls the estimate an upper bound. A response object without an output count is
  billed for 800 tokens, which exceeds it when the request's limit is lower, and so does a count above the
  limit (`Budget.BillWithinEstimateIff`, `Budget.SilentResponseExceedsEstimate`). `LLMResponse`
  (`csis/backends/base.py:38`) has a default count of zero, so the first needs another response type. The
  cap theorem therefore allows any bill.
- `csis/agents/coordinator.py:317-321` says that any unstamped candidate that was not there before is treated
  as this iteration's. The code at lines 566-570 also requires that the iteration returned its id. So an
  unstamped write that was not returned survives (`IterationProofs.UnreturnedWriteSurvives`), and a sibling's
  unstamped write under a returned id is discarded (`SiblingWriteIsDiscarded`).
  `CleanupUndoesTheIterationIff` is the exact condition.
- `csis/contracts.py:282-294` says that unstamped candidates skip the mismatch cleanup. The cleanup also
  removes unstamped ones that this iteration returned and that were not there before.
- `csis/memory/store.py:294-301` removes a discarded candidate before it archives it, where `promote` (lines
  205-206 and 252-258) archives first. If the archive write raises, the candidate is gone without a record.
  No disk fault is needed: line 381 puts the entry's id into the file name as it is, so an id such as "a/b"
  names a missing directory. `StoreRuns.CandidateLostIff` is the exact condition. In the cleanup after a tier
  mismatch the exception escapes halfway: later candidates and tiers stay as they are, and neither
  `tier.mismatch` nor `iter.rolled_back` is logged (`IterationProofs.BrokenCleanup`, `MismatchEnds`).
- `csis/agents/coordinator.py:544-548` calls the cleanup race-free against siblings that write the same id. It
  tests a snapshot and then discards by id, so a sibling's stamped rewrite that lands in between is discarded
  (`IterationProofs.RacingRewriteIsDiscarded`; `RewriteSurvivesIff` is the exact condition).
- `csis/agents/auditor.py:115-124` can sign a "mod" delta. No why-doc with one can commit.
- `csis/safety/tripwires.py:182-190` with a history bound of zero fails on the first firing.
- `csis/daemon.py:76` keeps a thousand times, so a limit above a thousand never holds anything back.

## Model

| member | source | states |
|---|---|---|
| Trust.PromotionIsStrictOrder | csis/memory/trust.py:52-59 | valid promotions follow one ladder of six levels with DEPRECATED as its top: no cycle, nothing leaves DEPRECATED, although its rank is the lowest |
| Store.MemoryStore.LiveSnapshot | csis/memory/store.py:95-118 | hash and snapshot are of one and the same live map |
| Store.MemoryStore.WriteCandidates | csis/memory/store.py:142-149 | the batch is stamped and written in order; live and archive untouched |
| Store.WriteLastWins | csis/memory/store.py:127-149 | of several entries with one id the store holds the last, equal to it but for the stamp |
| Store.WriteUntouched | csis/memory/store.py:127-149 | ids not in the batch keep their entry |
| Store.MemoryStore.Promote | csis/memory/store.py:185-263 | error of the first failing check, or the whole batch promoted and returned in order, each entry equal to its candidate but for trust and promotion time; the new state is the specified one |
| Store.MemoryStore.Validate | csis/memory/store.py:224-250 | reports the fault of the first faulty id, else one bumped copy per id, in order |
| Store.MemoryStore.ArchiveAll | csis/memory/store.py:252-255 | archives the candidates in order up to the first failing write |
| Store.MemoryStore.Commit | csis/memory/store.py:256-258 | installs exactly the bumped batch and drops exactly its candidates |
| Store.MemoryStore.MarkVerified | csis/memory/store.py:265-292 | raises the whole batch to at least VERIFIED, or reports the first fault and changes nothing |
| Store.MemoryStore.DiscardCandidate | csis/memory/store.py:294-301 | removes the candidate if present, then archives it; raises exactly if it was present and the archive write fails, and then leaves no record |
| Store.MemoryStore.DeprecateLive | csis/memory/store.py:330-339 | marks a live entry DEPRECATED with its reason, nothing else |
| StoreRuns.RunKeepsSound | csis/memory/store.py:127-339 | after any run every live entry is PROMOTED or DEPRECATED, keyed by its id, and equals an archived candidate but for trust, promotion time and deprecation reason |
| StoreRuns.RunGrows | csis/memory/store.py:185-263 | over any run live ids only grow, and an entry that changed is DEPRECATED with its body as it was |
| StoreRuns.CommitIsPermanent | csis/memory/store.py:256-258 | a committed non-empty promotion leaves live with an id it lacked at the start, for good |
| StoreRuns.NoCommitBetweenEqualHashes | csis/memory/store.py:217-222 | equal live hashes at both ends of a run mean equal live maps and no promotion committed in between |
| StoreRuns.AtMostOneCommitPerPrecondition | csis/memory/store.py:217-222 | of all non-empty promotions holding one precondition at most one commits |
| StoreRuns.DeprecationReasonCanRepeat | csis/memory/store.py:330-339 | live itself can return to an earlier value by re-deprecation, so the two rows above are as strong as they can be |
| StoreRuns.DeprecationIsFinal | csis/memory/store.py:330-339 | a deprecated entry stays live and DEPRECATED through any run, and no batch with its id ever commits |
| StoreRuns.PromotionCommitsIff | csis/memory/store.py:210-255 | a promotion commits exactly if guard, hash and archive allow it and the ids are distinct, present, not live and neither PROMOTED nor DEPRECATED |
| StoreRuns.PromotionFaultIs | csis/memory/store.py:210-255 | which error a rejected promotion reports: role, moved hash, repeated id, first missing or unpromotable id, or archive, each exactly when |
| StoreRuns.VerifyBatchFaultIs | csis/memory/store.py:274-286 | a rejected verification reports its first missing or DEPRECATED id |
| StoreRuns.FailedArchiveKeepsPrefix | csis/memory/store.py:252-255 | after a failing archive write the records written before it stay, in order |
| StoreRuns.DiscardEffect | csis/memory/store.py:294-301 | a discard touches one candidate, and its record is the candidate as it was under its reason |
| StoreRuns.DeprecateEffect | csis/memory/store.py:330-339 | a deprecation touches one live entry, in trust and reason only |
| StoreRuns.RejectionChangesNothing | csis/memory/store.py:205-206 | any rejection, an archive failure included, leaves both maps unchanged and the archive only longer |
| StoreRuns.CommitMovesTheBatch | csis/memory/store.py:203-204 | success moves exactly the named ids, all new to live, each equal to its candidate but for trust and promotion time, and leaves every other entry alone |
| StoreRuns.CommitConserves | csis/memory/store.py:252-262 | live grows and candidates shrink by the batch size, and each pre-promotion candidate is archived once, in order |
| StoreRuns.VerificationIsAllOrNothing | csis/memory/store.py:265-292 | mark_verified fails exactly on a missing or DEPRECATED id, then changes nothing; otherwise only raises trust |
| StoreRuns.CandidateLostIff | csis/memory/store.py:294-301 | an operation takes a candidate out of the store without archiving it if and only if it discards that candidate and the archive write fails |
| StoreRuns.RunAccountsForCandidates | csis/memory/store.py:185-301 | over any run a candidate is still there or archived since, unless a discard of it failed to archive it |
| Auditor.BuildDiff | csis/agents/auditor.py:71-126 | one truthful delta per entry in order and the tier count, or the first entry of another tier |
| Auditor.WriteWhyDoc | csis/agents/auditor.py:129-186 | precondition, diff and counts are of the live map at signing; escalated exactly if the certificate failed |
| Auditor.CountsCover | csis/contracts.py:232-238 | n_added + n_modified is the batch size |
| Auditor.CommittedWhyDocIsTruthful | csis/memory/store.py:217-222 | if the promotion commits, live is still the diffed snapshot, whatever ran since, and every delta is an add |
| Auditor.WhyDocWithModNeverCommits | csis/agents/auditor.py:115-124 | a why-doc with a mod never commits, for any hash function and any run since signing |
| Coordinator.Coordinator.RunIteration | csis/agents/coordinator.py:158-479 | the ending of the first failing gate or check; every event that is logged, in order; and for every ending exactly what it leaves of all five stores: nothing before the librarian, its writes, after a mismatch the cleanup as far as it came, and on the target what verifying and promoting make of it against whatever siblings did meanwhile |
| Endings.BudgetCapEscapesIff | csis/agents/coordinator.py:199-208 | a budget cap escapes as such exactly when the first failing point is an over-budget reply of researcher, builder, verifier, librarian or auditor; it is never a rollback |
| Endings.GateEndsIff | csis/agents/coordinator.py:186-307 | each rollback up to the certificate, exactly when everything before its gate passed and that gate failed |
| Endings.ScanEndsIff | csis/agents/coordinator.py:186-432 | a tripwire rollback exactly when one of the four scans is reached and fires; the librarian's and the auditor's exactly when they are reached and fail |
| Endings.StoreEndsIff | csis/agents/coordinator.py:366-465 | mismatch, the two store calls' failures, the failed archive and promotion, each exactly when |
| Endings.LiesAreCaught | csis/agents/coordinator.py:366-385 | a librarian that returns a candidate absent from the tier it claims is cleaned up, never promoted |
| Endings.StoryIs | csis/agents/coordinator.py:167-173 | every path logs its start, a milestone for each point it reached, the event that names the failing gate, and its terminal event |
| Endings.StoryTerminates | csis/agents/coordinator.py:527-532 | exactly one terminal event, matching the outcome, after the start event; none when an exception escapes |
| Coordinator.PromotedIff | csis/agents/coordinator.py:186-477 | an iteration ends promoted exactly if every gate passed, no candidate was misplaced, the auditor signed and both store calls succeeded against the stores as siblings left them |
| IterationProofs.UndisturbedPromotedIff | csis/agents/coordinator.py:186-477 | without siblings, promoted exactly if the gates pass, guard and archive allow it and the batch is honest, in the target tier, without repeats, held, not live and neither PROMOTED nor DEPRECATED |
| Coordinator.Coordinator.RunGates | csis/agents/coordinator.py:186-307 | the ending and the events of the first failing tripwire, constitution, tier, builder or verifier gate |
| Coordinator.Coordinator.Audit | csis/agents/coordinator.py:370-432 | finds lies, the auditor's failures before the diff, tier mismatches, its failures after the diff and a flagged why-doc in that order, else signs against the current live hash; the escalation gate cannot fire here |
| Coordinator.Coordinator.PromoteBatch | csis/agents/coordinator.py:438-477 | for any signed precondition and any live map the store's own fault decides the ending, a moved live hash included; promoted means the batch is live, returned in order, with one terminal event |
| Coordinator.VerifyThenPromote | csis/agents/coordinator.py:438-465 | which of the two store calls failed, and the exact state of the store after either |
| Coordinator.Hierarchy.Cleanup | csis/agents/coordinator.py:558-576 | tier by tier the owned candidates are discarded; a discard that raises leaves its tier swept up to it and the later tiers untouched; raises exactly if some owned candidate cannot be archived; else the report names exactly the removed ones |
| Coordinator.CleanupTier | csis/agents/coordinator.py:564-576 | in any snapshot order, with siblings writing before each discard, the inner loop discards by id exactly the owned candidates up to the first that cannot be archived |
| Coordinator.Coordinator.MismatchCleanup | csis/agents/coordinator.py:534-586 | a cleanup that goes through adds exactly the event listing the discards and one terminal event; one that raises adds neither |
| IterationProofs.MismatchEnds | csis/agents/coordinator.py:534-586 | a misplaced batch ends rolled back exactly if every owned candidate of every tier can be archived; otherwise the exception escapes |
| IterationProofs.CompleteCleanup | csis/agents/coordinator.py:564-576 | undisturbed, a sweep that goes through leaves a tier without exactly the owned candidates, each archived once |
| IterationProofs.BrokenCleanup | csis/agents/coordinator.py:564-576 | undisturbed, a sweep that stops leaves the earlier ones gone and archived, the failing one gone without a record, the rest untouched |
| IterationProofs.StopsEarlierIff | csis/agents/coordinator.py:558-576 | the tiers are walked in order, so one is left alone exactly if the cleanup stopped in an earlier one |
| IterationProofs.RewriteSurvivesIff | csis/agents/coordinator.py:564-573 | a sibling's write under an owned id survives the sweep exactly if it lands after that id's discard |
| IterationProofs.SweptElsewhere | csis/agents/coordinator.py:564-573 | an id that is not discarded ends up as the siblings' writes alone leave it |
| IterationProofs.RacingRewriteIsDiscarded | csis/agents/coordinator.py:564-573 | a sibling's stamped rewrite between snapshot and discard is discarded though it fails the test |
| IterationProofs.PromotedIterationAddsItsBatch | csis/agents/coordinator.py:438-473 | a promoted iteration changes the target's live by exactly its batch, each entry new and PROMOTED, with the content that was there at signing unless a sibling wrote that id since; whatever siblings did meanwhile |
| IterationProofs.PromotedIterationArchivesItsBatch | csis/memory/store.py:252-255 | the last archive records are then the batch's, in order, under the why-doc's id |
| IterationProofs.IterationKeepsSound | csis/agents/coordinator.py:158-479 | whatever its ending, an iteration keeps the store invariant and live write-once in every tier |
| IterationProofs.IterationIsARun | csis/agents/coordinator.py:158-479 | whatever its ending, an iteration leaves every tier at a state that a run of store operations reaches |
| IterationProofs.RunContinuous | csis/agents/coordinator.py:481-523 | over any script of iterations, with shutdowns and escaping exceptions: one terminal event per iteration that returned, in order; every store reached by store operations, so sound stores stay sound and live write-once |
| IterationProofs.UnpromotedLeavesLive | csis/agents/coordinator.py:158-479 | an iteration that is not promoted changes no live store, a promoted one only the target's: live is what the siblings' operations alone make of it |
| StoreRuns.VerifyDoesNotSteerLive | csis/memory/store.py:265-292 | verifying a batch never changes what later operations make of live |
| IterationProofs.SiblingCommitBlocksPromotion | csis/agents/coordinator.py:445-465 | if any promotion by a sibling commits between signing and promotion, the iteration is not promoted |
| IterationProofs.PromotedFindsLiveUnmoved | csis/agents/coordinator.py:445-465 | when a promoted iteration commits, live is the snapshot it signed, whatever siblings did meanwhile |
| IterationProofs.PromotedWhyDocIsTruthful | csis/agents/coordinator.py:392-465 | the why-doc of a promoted iteration is true of live at commit and holds only adds |
| IterationProofs.FailedPromotionLeavesVerified | csis/agents/coordinator.py:438-465 | after a failed promotion the batch stays among the candidates, VERIFIED or above, unless a sibling removed or rewrote it; after a failed verification the target is as siblings left it |
| IterationProofs.CleanupUndoesTheIterationIff | csis/agents/coordinator.py:534-586 | with fresh ids, removing the owned candidates leaves the earlier state plus what siblings wrote if and only if each final write of this iteration is stamped with its id, or unstamped, returned and not there before, and no sibling's is |
| IterationProofs.StampedIterationIsUndone | csis/agents/coordinator.py:308-321 | when every write carries its author's stamp and siblings leave this iteration's ids alone, a cleanup that goes through leaves the earlier state with the siblings' writes |
| IterationProofs.UnreturnedWriteSurvives | csis/agents/coordinator.py:566-570 | an unstamped fresh write that this iteration did not return survives the cleanup |
| IterationProofs.SiblingWriteIsDiscarded | csis/agents/coordinator.py:566-570 | a sibling's unstamped write under an id this iteration returned is discarded |
| Budget.BillWithinEstimateIff | csis/budget.py:492-497 | a bill stays within its estimate exactly if output is free or the billed tokens do not exceed the limit |
| Budget.PricesAreListed | csis/budget.py:40-50 | what a call costs for each listed model, by prompt and output, and that an unlisted one costs the most |
| Budget.BillIs | csis/budget.py:599-603 | what an answered call is recorded as |
| Budget.SilentResponseExceedsEstimate | csis/budget.py:599-603 | a call estimated at 75 micro-dollars that is billed 60000 |
| Budget.BudgetTracker.ReserveOrRaise | csis/budget.py:372-406 | reserves exactly if both caps allow it after load, prune and day roll; a refusal never writes the file |
| BudgetCap.ReserveAcceptedIff | csis/budget.py:384-397 | accepted exactly if within the per-call cap, and the file's cost of the day, what reservations not older than the waiting time hold, and the estimate are within the daily cap; else which refusal |
| BudgetCap.ReserveWrites | csis/budget.py:396-406 | what an accepted reservation writes, entry by entry; a refusal writes nothing |
| Budget.BudgetTracker.Record | csis/budget.py:408-472 | charges the call once and clears its reservation in the file, or appends one log record when the lock is unavailable |
| BudgetCap.RecordWrites | csis/budget.py:437-472 | the file then counts the call once in today's entry, without its reservation and the old ones |
| BudgetCap.UnlockedRecordGoesToLog | csis/budget.py:341-352 | without the lock a capped tracker's call goes to the log, an uncapped one's to the file |
| BudgetCap.ThirtyDaysAreKept | csis/budget.py:89-104 | rolling to a new day keeps the newest of thirty |
| Budget.BudgetTracker.DrainWal | csis/budget.py:238-285 | applies each readable log record once to the cached state, then clears the log if it applied any |
| Budget.BudgetTracker.CheckOrRaise | csis/budget.py:354-370 | refuses exactly when the file's cost for today has reached the cap, or a capped tracker cannot have the lock |
| BudgetCap.CheckRefusesIff | csis/budget.py:354-370 | that cost is the file's entry of the day |
| Budget.BudgetTracker.CancelReservation | csis/budget.py:474-489 | removes the reservation with this token and saves, or saves nothing |
| Budget.Complete | csis/budget.py:574-603 | a refused call leaves no trace, a failing one is a reservation then its cancellation, an answered one a reservation then its record or log line; with the lock unavailable at either end |
| BudgetCap.CapHolds | csis/budget.py:372-406 | over every interleaving of capped trackers with stale caches and bills of any size, today's cost plus pending exceeds the cap by no more than what was billed today beyond the reservations released for it; pending alone never exceeds it |
| BudgetCap.OverrunIsPrunedOrExcess | csis/budget.py:106-113 | a bill adds to that overrun its excess over its own estimate, or all of itself if its reservation was pruned, and nothing else does |
| BudgetCap.PendingIsExact | csis/budget.py:396-404 | the pending list is exactly the reservations issued and not recorded, cancelled or pruned, in order |
| BudgetCap.StepKeepsInv | csis/budget.py:372-489 | every locked step by any tracker keeps the invariant behind the three rows above |
| BudgetCap.Execute | csis/budget.py:372-489 | a tracker's own operations make the moves of the run model |
| BudgetCap.PrunedIsOld | csis/budget.py:106-113 | over any run a token is pruned only once its reservation is older than every tracker's waiting time |
| BudgetCap.CostOnNewest | csis/budget.py:99-104 | under a monotone clock the newest entry is the only one of its day |
| BudgetCap.CancelUndoesReserve | csis/budget.py:474-489 | cancelling in time leaves the file as the reservation found it, pruned |
| BudgetWal.SpendIsConserved | csis/budget.py:408-472 | calls, tokens and cost billed equal those in the file, in dropped days, in the log and lost to drains, over any run; nothing is lost when the load comes first |
| BudgetWal.DrainFirstBalance | csis/budget.py:457-467 | what one record leaves in the file as written: the drained log counts only if no file exists |
| BudgetWal.LoadFirstBalance | csis/budget.py:238-242 | with the load first the file gains the whole log, each record once, and the call |
| BudgetWal.DrainSurvivesIff | csis/budget.py:457-458 | the written order keeps as much as loading first exactly if no data file exists or the log is empty of spend |
| BudgetWal.DrainCanLoseSpend | csis/budget.py:457-458 | a concrete log whose spend vanishes |
| BudgetWal.UnlockedRecordIsLost | csis/budget.py:414-435 | with a file in place a call recorded without the lock leaves no trace after the next locked record |
| BudgetDay.BilledWithinCap | csis/budget.py:372-472 | what was billed on a day, charged, logged or lost, plus pending exceeds the cap by no more than that day's overrun and its logged and lost bills, which are within the log and the ledger's losses |
| EventLog.VerifyChain | csis/substrate/event_log.py:187-205 | accepts exactly the intact chains, else reports the first broken line and how it is broken |
| EventLog.FaultIs | csis/substrate/event_log.py:187-205 | what makes a line intact, and which fault a broken one reports |
| EventLog.EventLog.Emit | csis/substrate/event_log.py:125-158 | one locked step of the run model: appends one event with the caller's actor, kind, payload and time, signed from the file's tail, or from the cache when the file is missing; an unknown actor changes nothing |
| EventLog.EmitWrites | csis/substrate/event_log.py:140-158 | the line is numbered and linked after the file's last line, or after what the instance remembers if there is no file, and hashed over its link and event |
| EventLog.EventLog.Restore | csis/substrate/event_log.py:216-238 | the cache becomes what the last line dictates |
| EventLog.EmitKeepsVerdict | csis/substrate/event_log.py:140-158 | for any file, file plus emit verifies exactly if the file did |
| EventLog.EmitAfterRemoval | csis/substrate/event_log.py:225-226 | after the file was removed the next emit verifies exactly from a fresh cache |
| EventLog.InterleavedEmitsVerify | csis/substrate/event_log.py:140-158 | while the file is not removed, any interleaving of opens and emits by instances with any stale caches gives a verifying file with sequence numbers 0 to k-1 for the k accepted emits |
| EventLog.FileHoldsTheAppends | csis/substrate/event_log.py:137-155 | while the file is not removed it holds, in order, exactly the accepted events as their callers gave them; so every actor in it is on the allow-list |
| EventLog.FileVerifiesIff | csis/substrate/event_log.py:125-238 | over any run of opens, emits and removals the file verifies if and only if no emit re-created it from the cache of an earlier file |
| EventLog.CachesDoNotMatter | csis/substrate/event_log.py:140-143 | while the file exists, the same actions write the same file whatever the instances have cached |
| EventLog.RemovalBreaksTheChain | csis/substrate/event_log.py:225-226 | an instance that has written breaks the next file when its own is removed |
| EventLog.EmitsOnlyAppend | csis/substrate/event_log.py:154-155 | no action but a removal changes an earlier line |
| EventLog.SameLastHashSameLog | csis/substrate/event_log.py:64-71 | two verifying logs that end in the same hash are identical line for line, absent a collision between texts they hash |
| EventLog.ChainPrefix | csis/substrate/event_log.py:187-205 | any prefix of an intact log verifies, so truncation shows only against a kept last hash |
| Metrics.DiceIsFunctionOfIou | csis/verification/distributional_graders.py:59-89 | dice = 2 iou / (1 + iou) for all equal-length masks; both in [0,1], symmetric, 1 exactly if the masks agree |
| Metrics.IouIs | csis/verification/distributional_graders.py:76-89 | the number of positions in both masks over the number in either, one for empty masks; an error exactly for different lengths |
| Metrics.DiceAndIouRankAlike | csis/verification/distributional_graders.py:59-89 | both rank any two mask pairs the same way |
| Metrics.HausdorffIsLeast | csis/verification/distributional_graders.py:127-139 | the distance is the least r with every point of each set within r of the other; infinite exactly for an empty set |
| Metrics.HausdorffIsMetric | csis/verification/distributional_graders.py:127-139 | symmetric, non-negative, zero exactly for equal value sets, triangle inequality |
| Bootstrap.BootstrapCi | csis/verification/distributional_graders.py:147-193 | the error for each bad input, else mean and the two order statistics of the resampled means, drawing n indices per resample |
| Bootstrap.IntervalReads | csis/verification/distributional_graders.py:178-193 | the bounds are two of the sorted statistics, with equal tails to within one |
| Bootstrap.StatisticsAre | csis/verification/distributional_graders.py:181-188 | each statistic is the mean of one resample, drawn with its own stretch of the index stream |
| Bootstrap.MeanIsAverage | csis/verification/distributional_graders.py:152 | the mean times the size is the sum |
| Bootstrap.PercentileIndicesCover | csis/verification/distributional_graders.py:190-193 | both indices valid and in order; the order statistics between them number ci_level * n to within one |
| Bootstrap.IntervalIsBounded | csis/verification/distributional_graders.py:178-193 | lower <= upper, and point and bounds lie within any bounds of the sample |
| Bootstrap.SortKeepsDominance | csis/verification/distributional_graders.py:189-193 | pointwise larger values have larger order statistics |
| Bootstrap.IntervalIsMonotone | csis/verification/distributional_graders.py:178-193 | with the same indices a pointwise larger sample has a larger mean and larger bounds |
| Graders.DistributionalGrader.Evaluate | csis/verification/distributional_graders.py:271-341 | empty input fails without error; otherwise the report is the specified one exactly if the settings and metrics are valid |
| Graders.VerdictsAreConservative | csis/verification/distributional_graders.py:254-341 | the whole and each slice pass exactly if no value in their interval misses the threshold; each slice is over its carriers with at most two hundred resamples |
| Graders.DistributionalGrader.FillBuckets | csis/verification/distributional_graders.py:301-307 | under each key carried by a sample, the metrics of the samples carrying it, in order |
| Graders.BucketIs | csis/verification/distributional_graders.py:301-307 | a bucket holds the metrics of the samples that carry its label, each once, in order |
| Graders.GradingIsMonotone | csis/verification/distributional_graders.py:254-341 | better metrics on the same cases never turn a passing verdict, global or per slice, into a failing one, in both directions |
| Graders.SlicesReported | csis/verification/distributional_graders.py:310-326 | over any list of keys, the slices reported are exactly those in it carried by enough samples |
| Graders.GradingReportsSlices | csis/verification/distributional_graders.py:301-326 | the report of a grading holds exactly the slices carried by enough samples |
| Canonical.FormsAreIdempotent | csis/safety/tripwires.py:20-53 | both forms are idempotent and each fixes the other's output |
| Canonical.PlainIsItsOwnForm | csis/safety/tripwires.py:20-53 | lower-case text without separators and with single spaces is its own form |
| Canonical.CaseIsIgnored | csis/safety/tripwires.py:34-51 | the case of a letter does not matter to either form |
| Canonical.FormsAgreeUpToSpaces | csis/safety/tripwires.py:20-53 | with spaces erased both forms are the letters of the text in lower case |
| Canonical.StripIgnoresSeparators | csis/safety/tripwires.py:20-36 | separators inserted or deleted anywhere leave the strip form unchanged |
| Canonical.SpaceIgnoresGapSpelling | csis/safety/tripwires.py:39-53 | any non-empty gap of separators and whitespace may be respelled without changing the space form |
| Tripwires.ScanDualForm | csis/safety/tripwires.py:156-173 | one firing per matching pattern, in order, from the strip form if it matches there |
| Tripwires.SnippetHoldsMatch | csis/safety/tripwires.py:160-171 | a firing's snippet is its match in the form it was found in, with up to forty characters on either side |
| Tripwires.KeysMatchIff | csis/safety/tripwires.py:183-184 | two firings share a key exactly for one name and the same first eighty characters |
| Tripwires.LabelFiresIff | csis/safety/tripwires.py:156-173 | a label fires exactly if one of its patterns matches either form |
| Tripwires.StripFiringSurvives | csis/safety/tripwires.py:156-173 | a firing through the strip form survives any separators |
| Tripwires.SpaceFiringSurvives | csis/safety/tripwires.py:156-173 | a firing through the space form survives any gap spelling |
| Tripwires.Tripwires.RecordFirings | csis/safety/tripwires.py:175-190 | queue and key dictionary stay in step; fails exactly at a zero bound with a firing |
| Tripwires.Tripwires.ScanText | csis/safety/tripwires.py:175-190 | returns all firings of the scan and remembers the new ones |
| Tripwires.LastFiringIsRemembered | csis/safety/tripwires.py:182-189 | after a scan the key of its last firing is in the history |
| Tripwires.KeyIsRemembered | csis/safety/tripwires.py:182-189 | a remembered key stays until as many new keys have come as the bound leaves room for |
| Tripwires.PushKeepsKeys | csis/safety/tripwires.py:182-189 | a new key evicts only the oldest, and only from a full history |
| Tripwires.HistoryStaysBounded | csis/safety/tripwires.py:175-218 | over any scans and clears no key is duplicated and the bound holds |
| Tripwires.HistoryIsFifo | csis/safety/tripwires.py:175-190 | the history is the last `max` of its former content and the new keys, in order |
| RateLimit.DaemonStats.Record | csis/daemon.py:78-88 | promoted + rolled back = total, reason counts sum to rolled back, the last thousand times are kept |
| RateLimit.DaemonStats.RunTurns | csis/daemon.py:188-226 | the loop records exactly the turns whose check allows them and that do not raise |
| RateLimit.TurnRecordedIff | csis/daemon.py:197-226 | a turn that does not raise is recorded exactly if the hour before its check holds fewer recorded ones than the limit |
| RateLimit.LoopIsPaced | csis/daemon.py:188-226 | under a monotone clock every recorded iteration was allowed at its own check by what was then remembered |
| RateLimit.LoopKeepsRollingLimit | csis/daemon.py:188-226 | the loop keeps the rolling limit below, however its iterations end |
| RateLimit.RollingLimit | csis/daemon.py:322-325 | for limits from 1 to 1000 no closed one-hour window holds more recorded iterations than the limit |
| RateLimit.LimitBeyondMemory | csis/daemon.py:322-325 | a limit above 1000, or of zero or less, never holds anything back |
| RateLimit.RollbackReasonKey | csis/daemon.py:83-88 | a rollback is counted under the first segment of its reason |
| RateLimit.FirstSegment | csis/daemon.py:83-88 | that segment is what stands before the first colon |

## Left out

- SHA-256, JSON, pydantic and the regular-expression engine: digests, serialisation and patterns are parameters.
- Unicode: the canonical forms are modelled per ASCII letter; NFKC and other case folding are not.
- File locks and threads: locked sections are atomic; a log append in the middle of a drain is not modelled, nor a file that becomes unreadable during the runs of `BudgetCap` and `BudgetWal` (a single operation does meet one).
- Crash consistency, and several store objects on the same files, which the repository disclaims; `_load` and `_flush` of the store, a failing flush included.
- BudgetCap.CapHolds: bounds the cost in the file (`BudgetDay.BilledWithinCap` adds the rest); assumes unique tokens, which the source builds from process, time and count but does not check.
- BudgetTracker.Snapshot takes the lock as available; `today_cost_usd` is not modelled.
- Clock readings within one locked section are one reading.
- Coordinator.RunIteration: agents and siblings are inputs; until the signing, siblings are taken to write candidates only (their other operations count as made before the iteration), and so during the cleanup; event payloads other than ids, reasons and discards are omitted; the log is a sequence here, its hash chain is in `EventLog.dfy`.
- IterationProofs.PromotedIterationAddsItsBatch: claims the signed content only of ids no sibling rewrote, because the code does not check the candidate side at promotion.
- IterationProofs.RunContinuous: the periodic snapshots of the loop.
- The candidate-side hash of a delta: the code does not check it at promotion, so nothing is claimed of it.
- Graders: reported values are not rounded to six places (verdicts use the unrounded ones), reals stand for floats, the statistic is the mean, and any fixed enumeration of slice keys stands for their sorted order.
- Landmark error, worst slices, structured log queries, reads by role, tier and constitution tables, certificates, curiosity, dreams, backends, domains, dashboard: finite tables, I/O or easy members.
- The daemon's sleeping, heartbeat, snapshots, skill promotion and stop file.
