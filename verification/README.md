# Verified model of the Sonarr remediation service

This project models a service that observes a Sonarr download queue, decides per download whether to import,
remove or search, and sends at most a few irreversible mutations to an unreliable remote. It proves what the
service keeps over whole runs, whatever the remote answers and wherever the process stops.

The parts, one module each:

- `Types`, `State`, `Queue`, `Waiting`, `Outcomes` hold the data and the pure questions asked of them: the gate, the
  budget, retention, restart repair, observed waiting, and the outcome of one attempt under given evidence. `Verdicts` and
  `Meanings` say what the answers are, case by case and field by field, without the functions that compute them.
- `System` is the service as a transition system. A state has the volatile data, the durable snapshot, everything ever
  recorded to be sent and the log of what was sent, and the history of scans: everything that happened, and the part
  of it that the data in memory and on disk have gone through, since a restart returns to what was saved. A step is
  one clock reading, scan, failed scan, verification, note, reservation, transmission, answer, save, pruning,
  acceptance of a request, or restart. Saves can succeed, fail, or fail after reaching the disk. `Invariant`, `Evolution`, `Growth`, `Steps`,
  `Reserving`, `Runs` prove the invariant step by step; `Theorems`, `Waits`, `Settlements`, `Provenance`,
  `Lifecycle`, `Retention` state what follows for whole runs, and `Witnesses` gives runs that show where a promise ends.
- `Stores`, `Ledger`, `Scanning`, `Verification`, `Services` are the code in its own form: classes whose methods update
  the store in place and loops with early exits, proved against the specifications above. Every method records the
  steps it takes in a ghost history, so the results about runs apply to it (`Stores.HistoryIsRun`). `Remote` is the clock and
  the remote instance, which may answer anything and whose ghost history holds every question, answer and transmission;
  `Grounds` says in terms of that history what an action rests on and what alone can stop one.
- `Profiles`, `Policy`, `Evaluation`, `Rejections`, `Fingerprints`, `Order` are the decision policy: loops proved equal to
  declarative verdicts, the replacement comparator, and independence of listing order.
- `Pages` is the complete read of paginated lists, `Admission` the two-channel protocol for manual requests, whose
  deadlines move only with cycles (`Admission.DeadlinesMoveWithCycles`), and
  `Versions` and `Release` the registry promotion protocol. `Sets` and `Sorting` are shared facts.

Conventions. Instants are nanoseconds, with 0 for the unset time. Hashes and digests are injective: a fingerprint is
the structure that is hashed, and a manifest stands for its bytes. One clock serves the whole process and every
reading is later than the one before; the configuration is fixed within a run and satisfies what loading checks.
Attempt identifiers can be reused after pruning, so the log is indexed by position and attempts are told apart by
identifier and start.

Where code and documentation differ, the model follows the code:

- docs/POLICY.md (lines 36-38) says that downtime and failed reads do not advance the rejected-time clock. Neither is
  quite so. Downtime is credited in `Witnesses.DowntimeCredited`: a download with an unresolved removal is absent from
  the only scan between a restart and its return. A failed read is credited with it in `Witnesses.FailedScanCredited`:
  the failure stops the clock in memory, cannot be saved, and is forgotten by the restart. `Theorems.CreditsObservedIff`
  says when a credited span is only scans: exactly when some scan since the last restart has read the rejection of
  that download. A failed scan lies in the span only if a later restart rolled it back. (`Waits.RejectedPairIsAdjacent`
  says when the span is that of two successive scans.) The clock always stays within the capped time between
  successive rejected observations that the data went through (`Theorems.WaitingIsObserved`), and the eligible clock,
  which has no such gap, within the time between successive scans of all that happened.
- The rolling hour is counted from the recorded start of each attempt. At the instants of sending the bound holds up to
  the delay between recording and sending (`Theorems.RollingBudget`, `Theorems.SendingBudget`), and not further:
  for every limit `Witnesses.SendingNeedsLag` is a run that exceeds it in a span one nanosecond longer.
- A fingerprint sorts rejections by reason alone and files by path alone. It is determined exactly when reasons decide
  the rejections of every file and paths decide the files up to the order of their rejections
  (`Fingerprints.FingerprintDeterminedIff`), and then it is independent of listing order
  (`Fingerprints.FingerprintPermutes`).
- The comparison of two files is not an order by itself (`Profiles.InferiorBothWays`), but granted replacements are.

## Model

| member | source | states |
|---|---|---|
| `Theorems.NoBlindReplay` | internal/service/service.go:596-743 | Over every run, with crashes, failed or ambiguous saves and arbitrary answers: nothing is ever sent twice, whatever shares a download or episode with an earlier transmission follows its durable settlement, and whatever is not settled is still protected in memory and on disk |
| `Theorems.IntentBeforeEffect` | internal/service/service.go:659-676 | At the instant of every transmission the disk already holds it as an unanswered intent, and no other unresolved attempt in either copy touches its download or episodes |
| `Settlements.SettledByEvidence` | internal/service/verify.go:16-204 | An attempt counts as settled only because some verification step of the run concluded it on evidence read there or before: an import on full correlation of every decided episode or its failed command, a search on its acknowledged command in a known state, a removal on a step that read its acknowledged absence and, where it asked for blocklisting, a step that read every episode failed and listed exactly once |
| `Theorems.RollingBudget` | internal/service/service.go:597-599 | Every half-open hour of recorded starts in the whole transmission log, pruned entries and crashes included, holds at most the configured number of mutations of all kinds together |
| `Theorems.SendingBudget` | internal/service/service.go:659-732 | The same bound for the instants of sending: if entries leave within a lag of being recorded, every hour shortened by that lag holds at most the configured number |
| `Provenance.RetriesBoundedAndSpaced` | internal/service/service.go:616-637 | In every reachable copy: at most `max_attempts` live imports of one download and candidate, each started a retry interval after every earlier one finished, and a cooldown between related completed work unless the later action overrode waiting or is a search that was recorded to continue exactly that removal |
| `Theorems.AlwaysReopens` | internal/state/state.go:262-303 | Whatever this service leaves on disk, at any point of any run, passes the checks of the next opening, and the repaired store passes them again |
| `Theorems.LiveReceiptSurvives` | internal/state/state.go:372-391 | The receipt of a request that sent anything is on both copies until after the expiry of the request, through crashes and pruning |
| `Theorems.RunsOnce` | internal/service/manual.go:66-112 | A live request identifier under which something was sent is never accepted for execution again |
| `Provenance.SearchesOnce` | internal/service/verify.go:169-198 | Over all runs and crashes each unusable removal is followed by at most one search, every search follows the earlier transmission of its own removal of the same download, settled first, and every unfinished continuation has its observation and its verified removal on both copies |
| `Provenance.AcknowledgedWereSent` | internal/service/service.go:717-733 | Every attempt that counts as acknowledged, and every removal that counts as verified, was transmitted |
| `Theorems.WaitingIsObserved` | internal/service/service.go:188-252 | In memory and on disk, the eligible clock never exceeds the capped time between successive scans of all that happened that saw the download eligible under one identity, with nothing for failed scans or restarts, and the rejected clock never the capped time between successive rejected observations that the data went through, since the rejection last began and with nothing across a failed scan that the data went through |
| `Theorems.ObservedIsCredited` | internal/service/service.go:188-252 | The other direction, in every reachable state: a scan that sees an unresolved download eligible under the identity under which the scan just before saw it eligible adds exactly the time between them, capped at one poll, if they are at most two polls apart; and the rejected clock gains as much if both read a rejection |
| `Theorems.SeenIsPartOfScans` | internal/state/state.go:262-335 | The scans that the data in memory and on disk went through are a subsequence of all that happened, and in memory include everything since the last restart |
| `Theorems.MutationsWaited` | internal/service/service.go:308-354 | Every import and removal ever sent is what the last scan before it decided for that download and candidate, with causes the candidate shows; without an override an import had `recovery.wait` of eligible time, a blocked removal an immediate cause or `cleanup.wait` of rejected time, and any other removal `cleanup.wait` of rejected time if that scan read a rejection and of eligible time if not |
| `Theorems.CreditsObservedIff` | internal/service/service.go:94-107 | Whenever a scan credits the rejected clock, the credited span begins with a scan that read the rejection; any failed scan in it was rolled back by a later restart; and it holds neither failed scans nor restarts if and only if some scan since the last restart has read the rejection |
| `Theorems.MutationsInScope` | internal/policy/policy.go:235-240 | Every import and removal ever sent concerns only rows of allowed clients and only allowed series, and under a series scope it names some; the scope of a search is decided afresh by `Services.Service.SearchDecision` |
| `Theorems.DryRunsSendNothing` | internal/service/service.go:369-372 | While background work is a dry run, whatever is sent belongs to a manual request for execution, within its lifetime |
| `Witnesses.DowntimeCredited` | internal/service/service.go:220-262 | A run in which downtime is credited to the rejected clock: rejection read, removal recorded, restart, a scan that does not find the download, and its return |
| `Witnesses.FailedScanCredited` | internal/service/service.go:94-107 | A run in which a failed scan is credited as well: it stops the clock in memory, is never saved, and the restarted process continues from the record before it |
| `Witnesses.SendingNeedsLag` | internal/service/service.go:659-732 | For every limit and any lag up to an hour, a run within that lag exceeds the limit in a span one nanosecond longer than an hour without the lag |
| `Lifecycle.StepAdvances` | internal/service/verify.go:16-204 | In every step but a restart each attempt lives on in a legal later form: resolved ones unchanged, evidence of every kind never shrinking, only intents becoming pending, partial only as partial or verified; only retention drops attempts, and only resolved ones |
| `Lifecycle.AttemptsOnlyAdvance` | internal/service/service.go:265-273 | Over every uninterrupted stretch of a run an attempt takes only legal later forms until it is resolved, and never disappears before |
| `Lifecycle.ReopeningAdvances` | internal/state/state.go:284-297 | Restart repair advances attempts as well: an interrupted intent becomes uncertain, no attempt is an intent afterwards, and an uncertain attempt never becomes pending |
| `Runs.StepKeeps` | internal/service/service.go:126-446 | Every step of the service keeps the invariant of both copies, the log and the phase |
| `Reserving.ReserveKeeps` | internal/service/service.go:659-676 | Recording an intent behind an open gate keeps the invariant and arms exactly the action that was recorded |
| `Waiting.AdvancesRejected` | internal/service/service.go:221-232 | The rejected clock after a scan: untouched without candidates, stopped without rejection, and otherwise at most one capped pair further |
| `Waiting.ClocksExact` | internal/service/service.go:202-232 | Both clocks after a scan in full, in terms of the recorded fields: when they start over, when a pair counts, and how much it adds |
| `Meanings.ScannedMeans` | internal/service/service.go:188-262 | Which downloads have a record after a scan: all that had one and every eligible new one; one that is gone is resolved unless it already was or an attempt on it is unresolved |
| `Retention.PruneInvisible` | internal/state/state.go:372-429 | For every later instant, every download whose observation is unresolved and every decision, the gate answers the same on the pruned store as on the unpruned one |
| `Retention.PruneElsewhere` | internal/service/service.go:596-617 | For every other download the answers differ only where an import was refused for its own earlier tries, and then only towards open or spacing; budget, protection and cooldown answers are the same |
| `Retention.ReceiptsGoWhole` | internal/state/state.go:374-391 | Pruning drops a receipt together with all its attempts or keeps it with all of them |
| `Retention.PruneLinked` | internal/state/receipts.go:10-42 | Pruning keeps the links between receipts and manual attempts, although it deletes observations and continuations in between |
| `Retention.ReceiptsIff` | internal/state/state.go:373-391 | Pruning drops a receipt exactly when it is closed, past retention, and none of its attempts is open, recent, needed by an open observation or continuation, or of a download that is still continued |
| `Retention.IssuesIff` | internal/state/state.go:392-408 | Pruning drops an observation with its continuation exactly when it is resolved, past retention, and neither an unresolved attempt nor an unfinished continuation is left |
| `Retention.AttemptsIff` | internal/state/state.go:409-429 | Pruning drops an attempt exactly when nothing wants it and no remaining receipt names it, and keeps the order of the others |
| `Outcomes.VerdictMoves` | internal/service/verify.go:16-204 | Whatever was read, a verdict is a legal move of the outcome automaton |
| `Outcomes.ImportVerifiedIff` | internal/service/verify.go:48-99 | An import becomes verified exactly when every decided episode has its unchanged acceptable file outside the command, or a new acceptable file with matching history inside the attempt |
| `Outcomes.RemovalVerifiedIff` | internal/service/verify.go:100-149 | A removal becomes verified exactly when its own acknowledged absence and any required blocklisting, exactly once per episode, are proved |
| `Verdicts.ImportVerdict` | internal/service/verify.go:16-99 | Every verdict on an import, with every field: verified once every decided episode arrived; else partial once any import was seen; else failed exactly if its own command failed and everything could be read; else uncertain after ten minutes; and a read is missed exactly when one of the required ones is |
| `Verdicts.RemovalVerdict` | internal/service/verify.go:100-149 | Every verdict on a removal, with every field: when absence and blocklisting are proved, verified with all of it, partial with the absence alone, uncertain after ten minutes, never failed |
| `Verdicts.SearchVerdict` | internal/service/verify.go:150-171 | Every verdict on a search: submitted or failed exactly by its own acknowledged command in such a state, and uncertain after ten minutes otherwise |
| `Verdicts.CoverageCounts` | internal/service/verify.go:121-143 | Listed exactly once means one entry about the attempt that names the episode, at one place |
| `Meanings.SettleMeans` | internal/service/verify.go:172-203 | What a verdict means beyond its attempt: a verified unusable removal opens its continuation where searches are configured, a concluded search finishes its own, a success resolves its observation, and nothing else changes |
| `Outcomes.EventPrecision` | internal/service/verify.go:206-212 | Whole-second event times are accepted from the second of the attempt onward, other times from its instant |
| `Verification.Judge` | internal/service/verify.go:16-204 | The loops over history, episodes and blocklist, with the branches that settle an attempt as verified, submitted or failed, compute the declarative verdict (told case by case in `Verdicts`), and report a missing read exactly when one was required |
| `Verification.VerifyImport` | internal/service/verify.go:31-99 | The import loop, with its early exits, weighs exactly the evidence of the declarative import outcome |
| `Verification.VerifyRemoval` | internal/service/verify.go:100-149 | The removal branch weighs exactly the declarative removal outcome |
| `Verification.IsBlocklisted` | internal/service/verify.go:115-143 | The sets and counters of the blocklist loops decide exactly: failed during the attempt and listed exactly once, for every episode |
| `Ledger.Gate` | internal/service/service.go:596-639 | The gate loop answers as specified: budget, then the first objection in recording order, then the caps on imports |
| `Ledger.Budget` | internal/state/state.go:345-353 | The counter is the number of live attempts started within the rolling hour |
| `Ledger.GateStaysOpen` | internal/service/service.go:596-639 | What the gate admits at one instant it admits later, if nothing is recorded between |
| `Meanings.GateOpenIff` | internal/service/service.go:596-639 | The gate is open exactly if the rolling hour has room, nothing near the action is open, whatever was completed near it is past the cooldown, overridden or the removal it continues, and an import has tries left and every earlier one is a retry interval away |
| `Meanings.GateReasons` | internal/service/service.go:596-639 | The reason of a shut gate: a full hour first, then something near that is open or too recent, then the tries of an import |
| `Ledger.NextID` | internal/service/service.go:650-658 | The new identifier is one more than the greatest in the list |
| `Ledger.ValidateReceipts` | internal/state/receipts.go:10-42 | The nested loops accept exactly the stores whose receipts and manual attempts name each other |
| `Ledger.HasPending` | internal/service/service.go:494-501 | Whether some live attempt of the download is unresolved |
| `Stores.Store.Prune` | internal/state/state.go:372-416 | Retention in place, receipts first and attempts last, ends in the specified pruned store |
| `Stores.Store.PruneReceipts` | internal/state/state.go:373-391 | Drops exactly the receipts past retention whose effects nothing needs, and returns exactly the attempts that the others name |
| `Stores.Store.PruneIssues` | internal/state/state.go:392-408 | Drops exactly the resolved observations past retention that nothing protects, with their continuations |
| `Stores.Store.ExpirePending` | internal/service/service.go:114-125 | Exactly the overdue attempts become uncertain, and exactly their observations are marked |
| `Meanings.ExpiredMeans` | internal/service/service.go:114-125 | Every field after deadlines passed: exactly the unresolved attempts of ten minutes that are not partial become uncertain, with their observations |
| `Stores.Store.RepairRecords` | internal/state/state.go:284-297 | Interrupted intents become uncertain and open receipts interrupted, nothing else changes |
| `Meanings.RepairedMeans` | internal/state/state.go:284-297 | Every field after opening: interrupted intents uncertain, open receipts interrupted, everything else as it was |
| `Stores.Store.Save` | internal/state/state.go:306-335 | A save is one step of the run; when it reports success the disk equals the data |
| `Stores.Open` | internal/state/state.go:262-303 | Any file is refused exactly when its receipts and manual attempts do not name each other; an opened store holds the repaired data in memory and on disk, and one that this service left behind is opened as the next step of its history |
| `Stores.ChainKeeps` | internal/service/service.go:126-446 | Every state of a recorded history satisfies the invariant |
| `Scanning.Observe` | internal/service/service.go:188-251 | The field updates of one present download, in their order, compute its specified next record |
| `Scanning.Reconcile` | internal/service/service.go:188-262 | Both loops of a complete scan, in any map order, compute the specified records of present and absent downloads |
| `Queue.Group` | internal/service/service.go:85-93 | Rows are grouped by download in queue order, and rows without an identity belong to no group |
| `Queue.RowsOfAt` | internal/service/service.go:85-93 | A group consists of exactly the rows of its download, in the order of the queue |
| `Services.Service.Cycle` | internal/service/service.go:126-446 | One cycle is a sequence of steps of the system: at most `mutations_per_scan` transmissions, only for selected downloads and in the name of the request; none for previews and background dry runs; exactly one scan or gap recorded; afterwards no attempt is merely awaited past its deadline, and on success the disk equals the data. It takes a determined course from what was read: the scan fails only for a failed read or a cancellation; otherwise every record, every unresolved attempt, every candidate and every continuation is dealt with as specified, every plan is carried out unless something named stops it, the data are pruned, and what was logged is exactly what was transmitted and rests on what was just read |
| `Services.Service.Failed` | internal/service/service.go:94-112 | A failed scan expires overdue attempts, stops the rejected clocks, clears the previous scan and saves unless it belongs to a preview |
| `Meanings.MissedMeans` | internal/service/service.go:94-107 | A failed scan makes every record forget when its rejection was last read, and changes nothing else in it |
| `Services.Service.Reserve` | internal/service/service.go:659-676 | On success the intent is the last attempt, durable, and the armed transmission, with exactly the decision, the files before it, the title on record, the request and a new identifier; a failure is a failed save, never a missing receipt, and nothing can be sent |
| `Meanings.RecordedMeans` | internal/service/service.go:659-676 | Recording an intent appends it, names it last in the receipt of its request, marks its observation, and changes nothing else |
| `Services.Service.Transmit` | internal/service/service.go:717-733 | Exactly the recorded intent is transmitted, once; the answer that was heard is recorded on that attempt and its own continuation alone |
| `Meanings.AnsweredMeans` | internal/service/service.go:717-743 | An acknowledged attempt is pending under its command and anything else is uncertain; a search marks its continuation as attempted either way; nothing else changes |
| `Services.Service.Commit` | internal/service/service.go:659-732 | Recording and sending: exactly one entry with this decision, these files and this title, or none and a failed save |
| `Services.Service.Recheck` | internal/service/service.go:677-698 | What passes the fresh checks is what policy decides of an observation just read, of the rows on record, with the kind and fingerprint planned, and exactly the library files that the observation showed; nothing passes only because a read failed, the rows changed or the decision differs, each as read, and each leaves exactly its mark |
| `Services.Service.Proceed` | internal/service/service.go:699-732 | The checked action is sent as it was checked, or the gate is shut to it at the instant of recording, the work is called off, or the record cannot be saved |
| `Services.Service.Execute` | internal/service/service.go:677-734 | An execution sends at most one action: for its own download, with the decision of policy on an observation read for it, the episodes, files and causes of that decision, the library files it showed and the title on record, behind a gate that is open at the instant of recording; it sends nothing only for a reason that was read or a failed save |
| `Services.Service.SearchDecision` | internal/service/verify.go:253-338 | A continuation becomes a search for exactly those of its episodes that were just read as monitored, in scope and without an acceptable file, for the candidate of its removal, without competition in a queue just read, behind an open gate. Otherwise a named obstacle holds, and what it leaves is determined: the continuation is finished exactly for a search on record or because every episode was read in scope and none is wanted |
| `Services.Service.SearchTargets` | internal/service/verify.go:280-334 | What was read for a continuation: exactly the wanted episodes, or the unreadable queue or episode, excluded client or series, competing row, or lack of anything to search for that stops it |
| `Services.Service.Barred` | internal/service/verify.go:253-279 | What the record alone says against a search, and the verified removal that it follows |
| `Remote.WantedAt` | internal/service/verify.go:299-319 | The wanted episodes are exactly those with series and episode monitored and no acceptable file, in their order |
| `Services.Service.Search` | internal/service/verify.go:340-362 | A search is decided afresh and sends at most one action, for its own download and exactly the episodes just decided on; it sends nothing only for a named obstacle or a failed save |
| `Services.Service.Verify` | internal/service/verify.go:16-204 | Verification of one attempt leaves exactly the declarative verdict on the evidence read and the queue, with what that means for its continuation and observation, and marks a failed read exactly when one that was required failed; no other attempt changes |
| `Services.Service.VerifyAll` | internal/service/service.go:265-273 | Every unresolved attempt, uncertain and partial ones too, is verified once against evidence read for it and ends in its verdict; no other attempt changes; the data are those after these verdicts in order; afterwards no intent or acknowledged attempt is ten minutes old |
| `Services.AllReviewed` | internal/service/service.go:265-273 | Every unresolved attempt ends in its own verdict, whatever the verdicts before it meant for continuations and observations, and every other attempt stays |
| `Services.Service.ObserveAll` | internal/service/service.go:164-184 | Exactly the selected eligible downloads get a view; each is what policy says of an observation made over their own rows, with the refusal, its causes and targets, and the decision that is that refusal or the evaluation; one failed read leaves none |
| `Services.Service.Publish` | internal/service/service.go:188-264 | The published store is exactly the specified complete scan of every tracked download, recorded as such |
| `Services.Service.PlanGate` | internal/service/manual.go:252-264 | A plan is admitted exactly within the allowance of cycle and hour and without sharing an episode with an earlier plan |
| `Services.Service.PlanIssue` | internal/service/service.go:308-382 | Every candidate gets exactly the state that its protection, its decision, its wait and the gate give it, with the decision on record; a recoverable one is recommended in a dry run, and otherwise planned unless a read failed, the work is called off or there is no room; planning sends nothing and changes no observed time |
| `Services.StandingMeans` | internal/service/service.go:308-368 | Every state of a candidate and exactly when it has it: protection before the decision, the decision before the wait, the wait before the gate, with the waits spelled out |
| `Services.Service.Recommend` | internal/service/service.go:641-649 | A dry run adds one record with this decision exactly if there is none of its kind for the download and the candidate |
| `Services.Service.PlanIssues` | internal/service/service.go:308-384 | Whatever the order, every selected unresolved observation is assessed as if it were the only one and no other record changes; each recoverable one is planned or has no room, or in a dry run has its one recommendation; plans are for these alone |
| `Services.Service.PlanSearches` | internal/service/service.go:385-412 | Every waiting selected continuation is planned as decided, or a named obstacle stops it or leaves no room, and it is finished only by that; all others stay; plans stay ready, no two of them share an episode or search for the same continuation, and planning sends nothing |
| `Services.Service.ExecuteAll` | internal/service/service.go:416-437 | Every plan is carried out unless a read had failed, the work is called off or a named obstacle stops it, and only a failed save ends the loop; n plans send at most n actions, for selected downloads, in the name of the request, and what is sent rests on what was read for it |
| `Services.Service.Manual` | internal/service/manual.go:66-157 | A replayed identifier only returns its receipt and changes nothing; a preview is a cycle that changes neither the store nor any observed time and transmits nothing; an execution is one cycle for the selection alone, on the data with its receipt just opened, and always closes its receipt; what is refused is refused for its own reason |
| `Services.SameRequestIff` | internal/service/manual.go:159-161 | A replay is of the same request exactly if nothing in it differs |
| `Services.Service.Preview` | internal/service/manual.go:93-104 | A preview runs a whole cycle on a projection of the same data, with the course of a real one, and transmits and saves nothing |
| `Services.Service.Admit` | internal/service/manual.go:104-112 | A receipt is durable before execution begins, and a request that is not accepted leaves the data as they were |
| `Evaluation.Evaluate` | internal/policy/policy.go:259-442 | The evaluation loops with all early exits decide exactly the declarative kind (told per verdict in `ImportMeans`, `RedundantMeans` and `UnusableMeans`), and list exactly the import of every previewed file and the sorted series |
| `Evaluation.ImportMeans` | internal/policy/policy.go:413-420 | Import exactly if recovery is enabled, the observation is coherent, and every previewed episode is of an unrejected file that fills a gap with a permitted file or betters the file there |
| `Evaluation.RedundantMeans` | internal/policy/policy.go:421-428 | Redundant exactly if cleanup is enabled, the observation is coherent, every rejection is one of the wordings for an inferior candidate, and for every previewed episode the library file is permitted and the candidate is worse in group, or in the same group in score or in a revision that counts, or equal in all of these |
| `Evaluation.RedundantHeld` | internal/policy/policy.go:372-428 | A redundant removal implies, for every intended episode, a library file acceptable under the profile of its own series, and no candidate that would replace the file it is compared with |
| `Evaluation.UnusableMeans` | internal/policy/policy.go:324-344 | Unusable exactly if cleanup is enabled, the observation is coherent, and every previewed file was rejected and only as a sample or without audio |
| `Evaluation.GainsIff` | internal/policy/policy.go:364-388 | What the two flags of an episode mean in terms of the grades of candidate and file |
| `Evaluation.SubmitsPreview` | internal/policy/policy.go:345-388 | What is decided is submitted file by file, each as it was previewed, every episode once in ascending order |
| `Evaluation.ActsOnQueue` | internal/policy/policy.go:259-284 | Whatever evaluation decides to do, every row is completed, of this download and of an allowed client, and no unfinished row of another download wants an intended episode or may |
| `Evaluation.ActsOnPreview` | internal/policy/policy.go:285-408 | And the preview is complete and consistent: allowed series, different paths, every episode intended, known and previewed once, every intended episode previewed or already held acceptably |
| `Evaluation.VerdictsExclusive` | internal/policy/policy.go:285-442 | Import, redundant and unusable exclude each other on every coherent observation |
| `Evaluation.CheckFile` | internal/policy/policy.go:286-389 | One file passes exactly when it is well formed, separate from the files before it, and its three flags mean what they say |
| `Evaluation.CheckIntended` | internal/policy/policy.go:390-408 | The loop over unpreviewed episodes passes exactly when each has an acceptable library file |
| `Evaluation.CheckGates` | internal/policy/policy.go:262-281 | The opening gates pass exactly for eligible, in-scope, complete observations without competition |
| `Order.KindPermutes` | internal/policy/policy.go:259-442 | The evaluated kind is the same under every rearrangement of queue rows, files, episodes, formats and rejections |
| `Order.DecisionPermutes` | internal/service/service.go:470-485 | So are the refusal, its kind and the kind of the decision that the service acts on |
| `Order.ImportsPermuteThroughout` | internal/policy/policy.go:345-388 | So is the collection of files an import would submit |
| `Fingerprints.FingerprintOf` | internal/policy/policy.go:199-234 | The computed fingerprint is one of those that sorting files by path and rejections by reason alone permits; what it distinguishes is `FingerprintTellsIff` |
| `Fingerprints.FingerprintTellsIff` | internal/policy/policy.go:199-234 | Another observation can have the same fingerprint if and only if its files correspond one to one with equal path, download, release type, series, quality and score and the same episodes, formats and rejections, its rows correspond in their identifying fields, and intended episodes and warning agree |
| `Fingerprints.FingerprintPermutes` | internal/policy/policy.go:199-234 | Where reasons decide the rejections of each file and paths the files, all rearrangements have the same fingerprint |
| `Fingerprints.FingerprintDeterminedIff` | internal/policy/policy.go:213-227 | An observation has only one possible fingerprint if and only if equal reasons within a file mean equal rejections, and files with equal paths have the same material up to the order of their rejections |
| `Fingerprints.QueuePermutes` | internal/policy/policy.go:171-193 | Queue identity does not depend on the order of the rows |
| `Fingerprints.RowsTellIff` | internal/policy/policy.go:171-193 | Two groups of rows have one identity if and only if they correspond one to one in download, client, path, title, series and episode |
| `Rejections.RejectedCleanup` | internal/policy/policy.go:74-169 | The cleanup loops report a refusal exactly when the whole download is refused and in scope, collect exactly its targets in order, and remove exactly when enabled and uncontested |
| `Rejections.RefusedInScope` | internal/policy/policy.go:80-117 | A refused download names only allowed series and clients, and under a series scope at least one series |
| `Rejections.RefusalActs` | internal/policy/policy.go:74-169 | A refused download is removed only if it is finished and its own, every file of it was read with known rejections, some file was rejected or it carries the warning, and no unfinished row of another download wants one of its episodes or may |
| `Rejections.Decide` | internal/service/service.go:470-485 | The decision is exactly the refusal where a warning or a deferred evaluation leaves only that, and the evaluation otherwise; its two immediate causes are exactly those that its fingerprint shows, and only a blocked removal has any; whatever is decided is within the configured scope |
| `Rejections.DecidedMeans` | internal/service/service.go:470-485 | An evaluated action concerns the intended episodes and submits every previewed file as previewed; the removal of a refused download submits nothing, is not blocklisted and concerns exactly the episodes that its rows or files name |
| `Rejections.MismatchOf` | internal/policy/policy.go:199-234 | Every possible fingerprint of an observation shows the permanent unexpected-episode rejections of its files, so plans and fresh checks that agree on it agree on that cause |
| `Profiles.ProfileRanks` | internal/policy/profile.go:13-54 | The loops over groups answer exactly for well-formed profiles, with the rank of every listed quality and the last cutoff position |
| `Profiles.RankIff` | internal/policy/profile.go:13-54 | The rank of a quality is the position of the one group that lists it, allowed only as group and as quality |
| `Profiles.Score` | internal/policy/profile.go:73-101 | A score is confirmed exactly when its formats are known and distinct and their weights add up to it |
| `Profiles.TotalCollects` | internal/policy/profile.go:73-101 | A total counted along the formats of a file is the total counted along the profile |
| `Profiles.OrderMeans` | internal/policy/profile.go:133-165 | The comparison knows an order exactly of gradable files, and calls a file inferior or equal exactly when its grade says so |
| `Profiles.ReplacesIff` | internal/policy/profile.go:133-191 | A replacement is granted exactly to a permitted file that is neither worse nor as good and leaves a group below the cutoff, is a later revision of the same quality where propers upgrade, or raises a score below its cutoff by the required step |
| `Profiles.ReplacementRises` | internal/policy/profile.go:133-191 | Every granted replacement is strictly above the file in the order of group, score, real and version |
| `Profiles.NoReplacementCycle` | internal/policy/profile.go:133-191 | No chain of granted replacements under one profile returns to a file or to its grade |
| `Profiles.ChainsEnd` | internal/policy/profile.go:169-190 | Unless propers are preferred and upgraded, such chains are no longer than the room below the cutoffs of their first file |
| `Profiles.PropersNeverEnd` | internal/policy/profile.go:181-183 | With them, every acceptable file can be replaced by its next revision, so no such bound exists |
| `Profiles.InferiorBothWays` | internal/policy/profile.go:156-165 | Two files are inferior to each other exactly when, in one group, the lower revision has the higher score and revisions count |
| `Pages.ReadAll` | internal/sonarr/client.go:132-171 | Against an arbitrary server: success exactly for a complete list, with the records of its pages in order; the page limit is never the reason to fail for a positive limit |
| `Pages.CompleteCounts` | internal/sonarr/client.go:132-171 | A complete list has exactly the reported number of records with different identities, on full pages but the last |
| `Pages.CompleteUnique` | internal/sonarr/client.go:132-171 | There is at most one complete list for one sequence of answers |
| `Pages.ReadQueue` | internal/sonarr/client.go:172-196 | At most three tries; the rows of the first complete try if all are identified, and otherwise nothing |
| `Admission.TokenConserved` | internal/service/manual.go:29-52 | In every interleaving the admission channel counts exactly the undispatched holders, the queued calls and the call in process, never more than one |
| `Admission.NeverBlocks` | internal/service/manual.go:29-52 | Dispatching an admitted call, giving the token back and answering never block |
| `Admission.AtMostOnce` | internal/service/service.go:72-82 | Each call is handled at most once, each token released at most once, and a caller turned away or withdrawn is never handled |
| `Admission.ObservationFirst` | internal/service/service.go:58-79 | While a request is handled the automatic deadline lies after its reception, so an overdue cycle has run first |
| `Versions.ParsesExactly` | scripts/ci_common.py:35-43 | A string parses to version parts exactly if it renders them within the length limit |
| `Versions.PartsInjective` | scripts/ci_common.py:35-43 | Equal parts come from equal version strings |
| `Release.PublishIndex` | scripts/release.py:302-319 | Every exit, at whatever write, leaves nothing, the version tag, or the version tag and `latest`; success leaves exactly what the rule for `latest` says |
| `Release.ShouldAdvanceLatest` | scripts/release.py:278-299 | The checks answer exactly the rule for `latest`, or refuse |
| `Release.PublishComponent` | scripts/release.py:241-259 | A component tag is written once, with the verified image, or not at all |
| `Release.Registry.Preflight` | scripts/release.py:214-217 | A tag passes only if it is free or already holds exactly the expected manifest |
| `Release.LatestAlwaysStable` | scripts/release.py:278-319 | Over any serial sequence of runs, each cut off at any write, `latest` is absent or identical to the existing tag of the stable version it names |
| `Release.TagsWriteOnce` | scripts/release.py:214-319 | Over any such sequence no other tag ever changes and the version of `latest` never decreases |
| `Release.OlderReleaseLeavesLatest` | scripts/release.py:296-299 | Publishing a version that is not greater leaves `latest` alone |
| `Release.CutOffRunResumes` | scripts/release.py:302-319 | Repeating a run that was cut off is not refused and ends in the same tags as an uninterrupted run |

## Left out

- HTTP, TLS, JSON, SQLite, file locks and permissions, Unix sockets, peer credentials, YAML and environment loading: reads are arbitrary answers and a save is one atomic snapshot; `readOnly` stores and schema versions are not modelled.
- Report contents, effects in reports, exit codes, summaries, logs, health and status counters: display only. Whether a report is too large is an arbitrary answer.
- `observe` and `current` (internal/service/service.go:502-594, internal/service/verify.go:214-252): how the reads of one download are assembled into an observation or a current file; every result is allowed instead.
- The per-cycle read cache of the client: each read is arbitrary anyway.
- The order in which candidates are planned (due dates first): every order is allowed, so results hold for each of them.
- Services.Service.Cycle: promises that every plan is carried out unless a named obstacle holds, not that none does, since any read can fail; liveness of the remote and of timers is not modelled.
- Services.Service.Manual: a replay returns the receipt itself; the report projected from it is not modelled.
- Stores.Store.RepairRecords: one instant for all interrupted receipts, where the code reads the clock for each.
- Issue and attempt records are values in maps and sequences of the store; pointers into them are modelled by keys and positions, so aliasing between a record and the store is not captured.
- Verified episode lists are sets, and the sorted, compacted selection of a request is a set.
- The regular expression for unexpected episodes is an arbitrary predicate on reasons; the other wordings are the literal strings of the code.
- Saturation of durations: `ConfigOK` also asks that twice the poll interval is a representable duration (it is under 146 years), which loading does not check; and byte order of strings outside Unicode code points.
- Preparation of a release (pull requests, workflow runs, receipts, artifacts), container transfer, blobs and anonymous verification: a plan is any plan with a valid version and both platforms.
- `scripts/podman-smoke.py`, `scripts/oci-evidence.py`, `scripts/repository-policy.py`, `cmd/fake-sonarr` and the command line: plumbing or flat checks.
