# Formal model of the footprint search service

A Dafny project that models the core of the service and proves properties of the model.
`dafny verify dfyconfig.toml` checks all of it.

## What is modelled

**The leased-run protocol.** A search job owns many provider runs. Workers, a lease reconciler, a
deadline watchdog, a scheduler, a finalizer, a user who cancels, picks an anchor or deletes, and an
outbox dispatcher all act on the rows of one job. Each transaction locks the job row before
anything else, so each is one atomic step. A worker leases in one step, works outside any
transaction, and completes in another step behind a fence of generation and epoch; it may crash, be
delayed or be started twice.

- `FootprintModel` holds the rows, `FootprintTransactions` what each transaction does to them as
  functions, and `FootprintStore` the same transactions as a class whose methods assign the
  columns one statement at a time and loop where the services loop; every method is proved equal
  to its function.
- `FootprintInvariant` and `FootprintSafety` prove that every transaction keeps the invariant and
  only changes rows in legal ways. `FootprintSystem` adds workers, requests and ids, and
  `FootprintExecutions` lifts everything to all interleavings, down to a write-once cell per run.
- `FootprintEffects` states what each transaction achieves as a relation between the rows before
  and after, spelled out over the columns. `FootprintProgress` has the consequences for one job, and `FootprintPhases` the
  progress phase that clients see, computed from the event log.

**The evidence packet and its validators.** `JsonText` prints JSON values; `EvidencePacket` builds
the prompt packet within its limits; `SynthesisOutput` is the data type of a synthesis with the
walk over its citations; `GroundingValidation` accepts or refuses one; `TimelineRepair` repairs raw
responses; `GroundingSchema` rewrites the response schema and says what conforming to it means, and
`OutputSchema` generates it from the data type, field by field, and characterizes what conforms.
`PacketContents` says what the fields of a packet hold, `PacketRedaction` is text cleaning on ASCII
text, and `AcceptedOutputs` says field by field what an accepted synthesis may mention.

**The loops that spend external budget.** `SynthesisRetry` is the retry loop with its rising output
limit, `AdaptiveSearch` the budgeted people searches and the lease that covers them, and
`SearchBudget` composes the bounds of single sessions with the protocol into a bound over the whole
life of a run.

**The relational operations.** `Deletion` is the ordered delete with shared documents, `History` the
grouped and paged listings and clearing them, `CursorCodec` their cursors, `EventStream` the
resumable reader of the event log, `OutboxDispatch` the priority queue of messages, `ProfileUrls`,
`ProfileForms` and `SeedNormalization` the identity of a search, and `SeedHistory` what its history
groups are.

**The eligibility machine.** `Eligibility` interleaves two-transaction checks with new
verifications, decisions and suppressions.

Clocks, generated ids, settings, provider answers, broker answers, text filters (redaction,
compatibility normalization, case folding) and hashes are parameters. Timestamps are reals or
integers without a time zone.

## What the proofs show about the code

- Reclaiming a lease advances the job with no settings. A synthesis run that is created at that
  moment is therefore always recorded as skipped for lack of a key, and no professional search is
  started, whatever is configured (`ReclaimNeverStartsWork`, `SettingsWouldStartWork`).
- A worker that lost its run never has an open attempt left to mark, so the status that completing
  after the fence would write does not occur (`LateWorkerChangesNothing`).
- The progress phase is monotone although the reconciler and the watchdog read the clock before they
  lock the job, since an expired anchor choice is always followed up in its own transaction
  (`PhaseNeverMovesBack`, `AdvanceSettles`).
- The scheduler's set of final scan statuses omits `invalid_response`. A scan never ends with it, so
  this has no effect here.
- A call to check a verification that is out of attempts fails the verification at once, even while
  its last allowed check is still under way; that branch also precedes the cooldown. Apart from
  that, and from suppression and replacement, only the latest-started check decides
  (`FurtherCallPreemptsLastCheck`, `StartEndsWaitExactlyWhen`).
- The retry loop drops the usage of earlier calls exactly when a stop is noticed, or the input is
  refused, at a further attempt (`UsageIsLostExactlyWhen`, with the session of `StopLosesUsage`).
- Redaction follows truncation and can lengthen a text past its limit; the data model then refuses
  the value and the whole packet fails. `EvidencePacket.HasInvalidText` is the exact condition, and
  `LongTitleSpoilsPacket` an input.
- The two ways of computing a history key agree on every row that footprint jobs write, where both
  are the folded handle (`WrittenKeys`). `KeysAgree` is the exact condition for any row.
- A message whose hand-over keeps failing blocks all messages behind it (`RefusalBlocksTheQueue`).
- A stored handle that itself starts with `@` is not kept by a refresh (`RefreshKeepsSeed`, with the
  handle of `RefreshChangesSeed`).

## Model

| member | source | states |
|---|---|---|
| FootprintExecutions.ReachableStatesAreSafe | apps/api/app/services/maigret_runs.py:363-484 | Under every interleaving of leasing, calling, crashing, redelivery, completing, renewing, reclaiming, cutoff, anchor steps, maintenance, cancelling, deleting and dispatching, each reachable state satisfies the whole invariant: attempt ledger, lease and epoch coupling, handoffs, synthesis coupling, evidence, event numbering and spending |
| FootprintExecutions.ExecutionKeepsInvariant | workers/maintenance/reconciler.py:114-226 | The invariant is kept along every execution from any state that satisfies it |
| FootprintExecutions.StepKeepsInvariant | apps/api/app/services/maigret_runs.py:219-246 | Every single step keeps the invariant, with the worker's snapshot of generation and epoch arbitrary and possibly stale |
| FootprintSystem.StartSatisfiesInvariant | apps/api/app/services/discovery_jobs.py:711-888 | A new job with its shard runs and messages satisfies the invariant |
| FootprintExecutions.RunIsWriteOnce | apps/api/app/services/maigret_runs.py:231-246 | Each step leaves a run's cell alone, seals it, or writes it once; the writer owns the generation and epoch that are current at that moment, and the payload is the one it delivers |
| FootprintExecutions.CellIs | apps/api/app/services/maigret_runs.py:231-326 | A cell is blank exactly while its run is open, holds a payload exactly when the evidence has it from that run, and is sealed exactly when the run ended without one |
| FootprintExecutions.WrittenCellIsFinal | apps/api/app/services/professional_search_runs.py:110-124 | A run that has been written or sealed keeps exactly that content in every continuation |
| FootprintExecutions.EndedRunIsFinal | apps/api/app/services/grounded_synthesis_runs.py:212-227 | A run in a final status keeps its row, its scan row, all its attempts and its result for good |
| FootprintExecutions.ExecutionEvolves | workers/maintenance/deadline_watchdog.py:52-76 | Between any two moments epochs and generations do not fall, finished attempts are not rewritten, configuration does not change, and events and evidence only grow at the end |
| FootprintExecutions.CancellationIsFinal | apps/api/app/services/footprint_cancellation.py:57-134 | From every reachable state a cancel ends every run and attempt of the job, and afterwards no step but deletion changes its status, runs, attempts, results, events, evidence or message keys |
| FootprintExecutions.FinishedJobIsFinal | apps/api/app/services/anchor_selection.py:185-199 | The same holds for a job that ended in any other way |
| FootprintProgress.LateWorkerChangesNothing | apps/api/app/services/maigret_runs.py:242-246 | A worker that lost its run changes no row at all: the branch that marks its attempt as completed after the fence is never effective |
| FootprintProgress.HandoffsAreSafe | workers/maintenance/reconciler.py:191-222 | In every reachable state each waiting run has the message of its next generation, no insert has met an existing unique key, and reclaiming any run meets none |
| FootprintProgress.SingleShotRunsOnce | workers/maintenance/reconciler.py:154-190 | An adaptive professional run or a synthesis run is leased at most once in its whole life, and before its one session it has cost no request |
| FootprintExecutions.OneSession | workers/maintenance/reconciler.py:154-190 | The requests of such a run change at most once, from none to those of the one session |
| FootprintProgress.MaintenanceMakesProgress | workers/maintenance/reconciler.py:89-111 | When all runs of a live job have ended and no anchor choice is open, one maintenance pass finalizes it, opens a run or asks for an anchor |
| FootprintProgress.ReclaimNeverStartsWork | workers/maintenance/reconciler.py:218-226 | Whatever is configured, a run that appears while a lease is reclaimed is a synthesis recorded as skipped |
| FootprintProgress.SettingsWouldStartWork | apps/api/app/services/maigret_runs.py:715-764 | When a synthesis is due and no open anchor choice is waited for, the same call with settings starts work: it asks for an anchor, queues the planned searches or queues the synthesis, each exactly when its conditions hold; without settings the job ends at once |
| FootprintProgress.DeletionIsFinal | apps/api/app/services/deletion.py:39-118 | After a deletion no delayed step of the job recreates any of its rows or messages |
| FootprintProgress.AttemptLedger | apps/api/app/services/maigret_runs.py:438-455 | In every reachable state the attempts of a run are numbered 1, 2, ... up to its generation, only the last can be open, exactly while the run is running and holds a lease, and a running run has the epoch of its job |
| FootprintSafety.FinalizeDiscoveryLegal | apps/api/app/services/maigret_runs.py:715-764 | Advancing a job keeps the invariant and only makes legal changes, with the schedulers and the finalizer included |
| FootprintSafety.ScheduleProfessionalLegal | apps/api/app/services/professional_search_scheduling.py:271-498 | Scheduling a professional wave or asking for an anchor keeps the invariant: fresh runs start at generation 0 with a generation-1 message |
| FootprintSafety.ScheduleSynthesisLegal | apps/api/app/services/grounded_synthesis_scheduling.py:55-244 | At most one synthesis run is ever created, when all other runs have ended; a skipped one has its result row at once |
| FootprintSafety.FinalizeFootprintLegal | apps/api/app/services/footprint_finalization.py:165-453 | A job is finalized only when all its runs have ended, exactly once, with the terminal event last |
| FootprintSafety.LeaseScanLegal | apps/api/app/services/maigret_runs.py:363-484 | Leasing or refusing a scan keeps the invariant |
| FootprintSafety.CompleteScanLegal | apps/api/app/services/maigret_runs.py:219-326 | Completing a scan keeps the invariant for every outcome |
| FootprintSafety.LeaseProfessionalLegal | apps/api/app/services/professional_search_runs.py:198-302 | Leasing a professional run keeps the invariant |
| FootprintSafety.CompleteProfessionalLegal | apps/api/app/services/professional_search_runs.py:99-195 | Completing a professional run keeps the invariant, also past its deadline |
| FootprintSafety.LeaseSynthesisLegal | apps/api/app/services/grounded_synthesis_runs.py:286-369 | Leasing a synthesis run keeps the invariant |
| FootprintSafety.RenewLeaseLegal | apps/api/app/services/grounded_synthesis_runs.py:379-408 | Renewing a synthesis lease keeps the invariant |
| FootprintSafety.CompleteSynthesisLegal | apps/api/app/services/grounded_synthesis_runs.py:199-283 | Completing a synthesis keeps the invariant: one result row with the run's status, and an output exactly on success |
| FootprintSafety.ReclaimLegal | workers/maintenance/reconciler.py:114-226 | Reclaiming an expired lease keeps the invariant in all three branches |
| FootprintSafety.CutoffLegal | workers/maintenance/deadline_watchdog.py:34-82 | The cutoff keeps the invariant |
| FootprintSafety.CancelLegal | apps/api/app/services/footprint_cancellation.py:42-134 | Cancelling keeps the invariant and only makes legal changes |
| FootprintSafety.SelectAnchorLegal | apps/api/app/services/anchor_selection.py:141-258 | Choosing an anchor keeps the invariant in every branch |
| FootprintSafety.DispatchLegal | workers/maintenance/outbox_dispatcher.py:114-162 | Marking a message keeps the invariant |
| FootprintSafety.CreateEstablishes | apps/api/app/services/discovery_jobs.py:711-888 | A new job satisfies the invariant of its rows |
| FootprintSystem.EvidenceComesFromOwner | apps/api/app/services/maigret_runs.py:219-326 | A step adds at most one acceptance, by a finishing worker that owns the run at that moment |
| FootprintSystem.NewLeaseIsCurrent | apps/api/app/services/maigret_runs.py:432-484 | A lease that a step hands out names the generation and epoch that are current after it |
| FootprintPhases.PhaseIs | apps/api/app/services/discovery_jobs.py:1040-1137 | The phase of any log, over the kinds of its events and the two states of the job: done, finalizing, report generation, an open question, professional enrichment, an awaited anchor, account scan or queued, the first that applies |
| FootprintPhases.PhaseShowsRows | apps/api/app/services/discovery_jobs.py:1040-1137 | At every moment of a job's life the phase shows its rows: done exactly with a verdict, report generation exactly with a synthesis run, awaiting a choice exactly while the job awaits an anchor, professional enrichment exactly with a search or a resolved choice; finalizing is never seen |
| FootprintPhases.PhaseNeverMovesBack | apps/api/app/services/discovery_jobs.py:984-1137 | Along every execution from a new job until its deletion, with any clock readings, the phase never moves to an earlier step; what can follow is listed phase by phase |
| FootprintPhases.AnchorIsAskedForBareHandles | apps/api/app/services/professional_search_scheduling.py:326-345 | In every execution a job that awaits an anchor is a live search of a bare handle without an anchor, with its scans ended and no professional run |
| FootprintPhases.AdvanceSettles | apps/api/app/services/maigret_runs.py:737-764 | Whenever the log says that an anchor choice expired, advancing the job leaves it, in the same transaction, finished or with a professional or a synthesis run; so an expired choice is never asked for again |
| FootprintPhases.NewJobPhase | apps/api/app/services/discovery_jobs.py:984-1137 | A new job is in the first phase and satisfies the invariant of the phases |
| FootprintEffects.LeaseScanEffect | apps/api/app/services/maigret_runs.py:363-484 | A lease is granted if and only if the scan waits in a live job, its deadline is ahead, scanning is enabled and the catalog is there; then exactly this run is running under its next generation and the job's epoch with one open attempt; otherwise it is closed with the status of the first reason, or dropped with its job |
| FootprintEffects.LeaseProfessionalEffect | apps/api/app/services/professional_search_runs.py:198-302 | The same for a professional run |
| FootprintEffects.LeaseSynthesisEffect | apps/api/app/services/grounded_synthesis_runs.py:286-369 | The same for a synthesis run |
| FootprintEffects.CompleteScanEffect | apps/api/app/services/maigret_runs.py:219-326 | An owned scan and its last attempt end as the outcome says; the payload is accepted if and only if it was saved; the events are one for each new account and one for the progress, numbered on; nothing else changes |
| FootprintEffects.CompleteProfessionalEffect | apps/api/app/services/professional_search_runs.py:99-195 | An owned search past its deadline is closed and its payload discarded; otherwise it is recorded as partial or invalid if the database refused some or all of its profiles, as its own status if that is a result, and as an error else, and its payload is accepted |
| FootprintEffects.CompleteSynthesisEffect | apps/api/app/services/grounded_synthesis_runs.py:199-283 | A success with an output is recorded as success with that output, one without as invalid, each other result status as itself and anything else as an error; run, attempt and result row agree, and evidence is accepted on success alone |
| FootprintEffects.RenewLeaseEffect | apps/api/app/services/grounded_synthesis_runs.py:379-408 | Renewing succeeds if and only if the worker owns the run of a live job, and moves its expiry and nothing else |
| FootprintEffects.ReclaimEffect | workers/maintenance/reconciler.py:130-222 | An expired lease is fenced in one of three ways, with its attempt abandoned; a message for a new generation appears if and only if the call may be repeated in time |
| FootprintEffects.CutoffEffect | workers/maintenance/deadline_watchdog.py:50-76 | The cutoff closes every unfinished run except syntheses, with the attempt of a running one, and leaves every other run alone |
| FootprintEffects.CancelEffect | apps/api/app/services/footprint_cancellation.py:57-134 | A cancel raises the epoch, ends every open run and attempt as cancelled, leaves what had ended alone and logs the one terminal event |
| FootprintEffects.SelectAnchorEffect | apps/api/app/services/anchor_selection.py:141-258 | The exact condition under which a choice is accepted; it is then the anchor and logged once; every refusal but an expired window leaves the rows alone |
| FootprintEffects.FinalizeFootprintEffect | apps/api/app/services/footprint_finalization.py:165-453 | A job is finalized if and only if it is live and all its runs ended; it is partial if and only if some run ended otherwise than with success or no result, or a deep search has no synthesis |
| FootprintEffects.ScheduleProfessionalEffect | apps/api/app/services/professional_search_scheduling.py:271-498 | The user is asked for an anchor if and only if a search is due for a bare handle with several names, no anchor, a provider and a minute left; otherwise the planned runs are queued if and only if a search is due; otherwise nothing changes |
| FootprintEffects.ScheduleSynthesisEffect | apps/api/app/services/grounded_synthesis_scheduling.py:55-244 | A synthesis is queued if and only if a deep search has ended all its runs, has none yet and is configured, and recorded as skipped if and only if only the configuration is missing |
| FootprintEffects.AdvanceEffect | apps/api/app/services/maigret_runs.py:715-764 | Advancing does the first of these that is due: wait for an open choice, log that its window is over, ask for an anchor, start the search, queue the synthesis, or finalize |
| FootprintEffects.SynthesisComesLast | apps/api/app/services/grounded_synthesis_scheduling.py:75-84 | A synthesis run appears only when there was none and every other run had ended |
| FootprintEffects.AdvanceKeepsRuns | apps/api/app/services/maigret_runs.py:715-764 | Advancing a job changes none of its existing runs and results, queues nothing for them and keeps the anchor |
| FootprintEffects.CreateEffect | apps/api/app/services/discovery_jobs.py:711-888 | A new job has every column as entered, one waiting scan and one message for each shard, its first events, and nothing else |
| SearchBudget.WholeLifeBudget | apps/api/app/services/professional_search_runs.py:438-457 | Over every execution from a new job, with whatever crashes and redeliveries, the requests ever made for an adaptive Exa run, an adaptive GitHub run or a synthesis stay within its clamped request budget or its five attempts |
| SearchBudget.SessionWithinBudget | workers/providers/professional_search.py:123-357 | Each session that a worker of the run can hold, whichever of the three loops it runs, stays within that budget |
| FootprintStore.Store.constructor | apps/api/app/services/discovery_jobs.py:711-888 | Creating a job, shard by shard, does to the rows what `Create` says |
| FootprintStore.Store.RecordEvent | apps/api/app/services/events.py:7-36 | The loop over all events of the job finds the highest number, and the new event gets the next one |
| FootprintStore.Store.LeaseScanRun | apps/api/app/services/maigret_runs.py:363-484 | The leasing transaction, statement by statement, does what `LeaseScan` says, with the same lease or none |
| FootprintStore.Store.CompleteScanRun | apps/api/app/services/maigret_runs.py:219-326 | The completing transaction does what `CompleteScan` says, fence included |
| FootprintStore.Store.LeaseSearchRun | apps/api/app/services/professional_search_runs.py:198-302 | Does what `LeaseProfessional` says |
| FootprintStore.Store.CompleteSearchRun | apps/api/app/services/professional_search_runs.py:99-195 | Does what `CompleteProfessional` says |
| FootprintStore.Store.LeaseNarrativeRun | apps/api/app/services/grounded_synthesis_runs.py:286-369 | Does what `LeaseSynthesis` says |
| FootprintStore.Store.RenewRun | apps/api/app/services/grounded_synthesis_runs.py:379-408 | Does what `RenewLease` says, with the same answer |
| FootprintStore.Store.CompleteNarrativeRun | apps/api/app/services/grounded_synthesis_runs.py:199-283 | Does what `CompleteSynthesis` says, with the result row updated or inserted |
| FootprintStore.Store.ReclaimRun | workers/maintenance/reconciler.py:114-226 | Does what `Reclaim` says in each branch |
| FootprintStore.Store.CloseWindow | workers/maintenance/deadline_watchdog.py:34-82 | The loop over the runs closes exactly the unfinished retrieval runs and the attempts of the running ones, then advances the job |
| FootprintStore.Store.CancelJob | apps/api/app/services/footprint_cancellation.py:42-134 | The loops over runs and attempts do what `Cancel` says |
| FootprintStore.Store.PickAnchor | apps/api/app/services/anchor_selection.py:141-258 | Does what `SelectAnchor` says, with the same reply in every branch |
| FootprintStore.Store.ScheduleSearch | apps/api/app/services/professional_search_scheduling.py:271-498 | The loop over the planned wave does what `ScheduleProfessional` says |
| FootprintStore.Store.ScheduleNarrative | apps/api/app/services/grounded_synthesis_scheduling.py:55-244 | Does what `ScheduleSynthesis` says |
| FootprintStore.Store.FinalizeReport | apps/api/app/services/footprint_finalization.py:165-453 | Does what `FinalizeFootprint` says |
| FootprintStore.Store.AdvanceDiscovery | apps/api/app/services/maigret_runs.py:715-764 | Does what `FinalizeDiscovery` says |
| FootprintStore.Store.DispatchMessage | workers/maintenance/outbox_dispatcher.py:130-162 | Does what `Dispatch` says |
| EvidencePacket.PacketSizeIsIncremental | workers/providers/grounded_synthesis.py:774-778 | The size of a printed packet is the size of its skeleton plus the running totals of its two lists |
| EvidencePacket.FlagsOnlyShrink | workers/providers/grounded_synthesis.py:1795-1811 | Raising a truncation flag makes the skeleton one character shorter |
| EvidencePacket.SkeletonFits | workers/providers/grounded_synthesis.py:765-790 | The skeleton of every cleaned seed is at most 2,000 characters, the smallest limit a caller can set |
| EvidencePacket.PacketFits | workers/providers/grounded_synthesis.py:837-846 | Every packet is within its limit, so the final size check cannot fail, and the sources leave the accounts' reserve alone |
| EvidencePacket.Collect | workers/providers/grounded_synthesis.py:789-812 | The accumulating loop keeps the longest prefix of the distinct usable inputs that fits, sets its flag exactly when something was left out, and fails exactly when an input it reaches cannot be represented |
| EvidencePacket.BuildPacket | workers/providers/grounded_synthesis.py:745-846 | The result of the whole builder: bad limits, an invalid text, or the packet described by `IsPacketOf`; never the size error |
| PacketContents.PacketSourcesAre | workers/providers/grounded_synthesis.py:1668-1682 | Each source of a packet is one input among the first 500, in order: its id, and field by field the normalized, cut, redacted and trimmed text of the same field, or unknown; the seed likewise |
| PacketContents.PacketAccountsAre | workers/providers/grounded_synthesis.py:1685-1712 | Each account likewise, its handle without redaction, citing the first eight distinct known sources among its first sixteen citations, in order |
| PacketContents.SourceIsUsedExactly | workers/providers/grounded_synthesis.py:1668-1682 | A source is unusable exactly without an id or an address, and otherwise usable exactly in the one form its cleaned fields give it, if all of them fit |
| PacketContents.AccountIsUsedExactly | workers/providers/grounded_synthesis.py:1685-1712 | An account is unusable exactly without an id, an address or a handle, and otherwise usable exactly when its cleaned fields fit |
| PacketContents.SeedIsUsedExactly | workers/providers/grounded_synthesis.py:764-768 | The seed is used exactly in the form its cleaned fields give it, if they fit |
| PacketContents.PacketIsRedacted | workers/providers/grounded_synthesis.py:2043-2074 | Nothing that redaction removes is left in any text that is redacted: source type, trust class, publisher, title, excerpt, account platform and name, and the seed's platform and type |
| PacketRedaction.AsciiRemovesAddresses | workers/providers/grounded_synthesis.py:2055-2074 | The cleaning of ASCII text is redaction in that sense: no word of a redacted text is an address |
| EvidencePacket.ReserveIs | workers/providers/grounded_synthesis.py:777-778 | The accounts' reserve is as much as 480 characters each and a quarter of the packet allow, unless the sources would get less than 2,000 |
| JsonText.EscapeRoundTrip | workers/providers/grounded_synthesis.py:774-778 | Escaping a text can be undone, so different texts are printed differently (section 7 of RFC 8259) |
| PacketRedaction.LongTitleSpoilsPacket | workers/providers/grounded_synthesis.py:2055-2074 | A title of 240 characters that ends in an address passes the limit, is 252 characters long once redacted, and so spoils every packet it comes first in |
| PacketRedaction.BuildWithLongTitle | workers/providers/grounded_synthesis.py:2055-2074 | The builder reports an invalid text for it |
| EvidencePacket.LongestPrefixIsUnique | workers/providers/grounded_synthesis.py:749 | The limits determine what is chosen, so the packet is a function of its inputs |
| EvidencePacket.CandidatesAreDistinct | workers/providers/grounded_synthesis.py:794-795 | Candidates have distinct ids and represent every usable input |
| EvidencePacket.CandidateIsFirst | workers/providers/grounded_synthesis.py:789-809 | Each candidate is the value of the first usable input with its id, in input order |
| EvidencePacket.PacketIsConsistent | workers/providers/grounded_synthesis.py:1695-1702 | Ids in a packet are distinct, and every citation of an account is a source of the packet |
| EvidencePacket.UntruncatedMeansComplete | workers/providers/grounded_synthesis.py:790-835 | When a truncation flag is false every distinct usable input is in the packet |
| JsonText.JoinLength | workers/providers/grounded_synthesis.py:774-778 | Counting elements and commas one by one gives the length of the printed list |
| SynthesisOutput.WalkIsComplete | workers/providers/grounded_synthesis.py:1859-1904 | What the hand-written walk collects is exactly what a walk over every member whose name ends in `source_ids` finds in the printed output |
| SynthesisOutput.ReferencedSourceIds | workers/providers/grounded_synthesis.py:1859-1904 | The loops of the hand-written walk return that set |
| GroundingValidation.Validate | workers/providers/grounded_synthesis.py:962-1027 | A response is accepted if and only if it is well-formed for the requirements and everything it cites, links and names is in its packet, with no contact data; a refusal names the first check that fails |
| AcceptedOutputs.AcceptedExactly | workers/providers/grounded_synthesis.py:1006-1027 | Being grounded, field by field: every id in any list of citations is that of a source; every address in any text, at any depth, is in a text of the packet; no contact data besides the known literals; every assessment and candidate matches the account it names |
| AcceptedOutputs.UrlsInExactly | workers/providers/grounded_synthesis.py:2027-2040 | The walk finds an address if and only if some text at some path inside the value mentions it |
| AcceptedOutputs.AddressCheckExactly | workers/providers/grounded_synthesis.py:1022-1025 | The address check passes if and only if every address that any field of the output mentions is mentioned by some field of the packet |
| AcceptedOutputs.CandidateProblemExactly | workers/providers/grounded_synthesis.py:1983-1992 | A candidate passes if and only if it names no account, or one that exists and has its address when it gives one |
| GroundingValidation.CheckAccounts | workers/providers/grounded_synthesis.py:1969-1992 | No problem if and only if all assessments and candidates match their accounts; otherwise the code of the first entry that does not |
| GroundingValidation.AcceptedAccounts | workers/providers/grounded_synthesis.py:1974-1992 | An accepted assessment matches the one account of the packet with its id in address, handle and platform |
| TimelineRepair.NormalizeExtensions | workers/providers/grounded_synthesis.py:1030-1082 | The loop over raw timeline entries computes `Repaired` |
| TimelineRepair.RepairIsIdempotent | workers/providers/grounded_synthesis.py:1030-1082 | Repairing twice is repairing once, and a value is left alone if and only if its timeline already has the expected shape |
| TimelineRepair.RepairKeepsContent | workers/providers/grounded_synthesis.py:1064-1078 | An entry is dropped if and only if it lacks a required key or a citation; a kept one says the same under every allowed key |
| TimelineRepair.TimelineIsExactly | workers/providers/grounded_synthesis.py:1056-1082 | After repair the timeline has exactly the usable entries among the first twelve raw ones, in order, each with exactly the allowed keys, and nothing else in the response changes |
| GroundingSchema.ResponseIsGrounded | workers/providers/grounded_synthesis.py:849-944 | Whatever conforms to the rewritten schema cites and names only what the packet holds, everywhere inside, has the fourth version and both top-level sections |
| GroundingSchema.ConformingOutputPasses | workers/providers/grounded_synthesis.py:1006-1009 | An output that conforms passes the validator's checks of its version and of its cited sources |
| GroundingSchema.ConformingIsGrounded | workers/providers/grounded_synthesis.py:917-942 | The same for any limited schema of the fragment, through references, alternatives, lists and objects to any depth |
| GroundingSchema.RequireProper | workers/providers/grounded_synthesis.py:1814-1825 | Requiring turns every well-shaped schema into one whose objects have exactly the listed properties |
| GroundingSchema.ConstrainProper | workers/providers/grounded_synthesis.py:906-959 | Limiting puts the packet's identifiers into every citation list and account column of a closed schema |
| GroundingSchema.AllowedExactly | workers/providers/grounded_synthesis.py:911-916 | The limits are the source ids and, column by column, the accounts of the packet |
| OutputSchema.GeneratedIsModelSchema | workers/providers/grounded_synthesis.py:391-660 | The schema generated from the output data type, with its fourteen definitions, meets the condition of the two results above |
| OutputSchema.SentSchemaIs | workers/providers/grounded_synthesis.py:849-944 | What the four rewriting steps make of it for a packet, definition by definition and field by field |
| OutputSchema.ConformingExactly | workers/providers/grounded_synthesis.py:849-944 | A value conforms to the schema sent about a packet if and only if it has, at every level, all the fields of the data type and no others, each with a value of its kind, the fourth version, both sections, the enumerated timeline texts, and citations and account columns from the packet |
| OutputSchema.SampleConforms | workers/providers/grounded_synthesis.py:849-944 | An output with a timeline entry and an account conforms to the schema sent about its packet |
| SynthesisRetry.ExecuteSynthesis | apps/api/app/services/grounded_synthesis_runs.py:648-701 | The loop always returns, makes at most the configured number of calls, raises the output limit strictly after each truncation and never past 32,000, and returns the last outcome with the usage of all calls |
| SynthesisRetry.EscalatedLimit | apps/api/app/services/grounded_synthesis_runs.py:711-721 | The next limit is strictly larger, at most the ceiling, and equal to it when one attempt remains; none exactly at the ceiling or without attempts |
| SynthesisRetry.EscalatesEvenly | apps/api/app/services/grounded_synthesis_runs.py:720-721 | Its step is the rest of the way divided by the remaining attempts, rounded down, and at least one |
| SynthesisRetry.NextCallExactly | apps/api/app/services/grounded_synthesis_runs.py:668-699 | Another call follows if and only if attempts are left, the error is a truncation below the ceiling or one worth retrying, and no stop arrives during the wait |
| SynthesisRetry.WaitDoubles | apps/api/app/services/grounded_synthesis_runs.py:693-698 | The wait doubles with each attempt up to 30 seconds |
| SynthesisRetry.TruncationReachesCeiling | apps/api/app/services/grounded_synthesis_runs.py:682-691 | When the second-to-last attempt truncates below the ceiling the last one has exactly 32,000 |
| SynthesisRetry.LimitsNeverFall | apps/api/app/services/grounded_synthesis_runs.py:682-691 | No later call has a smaller limit |
| SynthesisRetry.TotalIsSum | apps/api/app/services/grounded_synthesis_runs.py:724-747 | The combined usage is the column-wise sum over all calls that reported one; a detail is known if and only if all of them reported it |
| SynthesisRetry.UsageIsLostExactlyWhen | apps/api/app/services/grounded_synthesis_runs.py:650-665 | Usage is lost if and only if some call reported usage, another attempt is due, and at that attempt a stop is noticed or the runner refuses its input |
| SynthesisRetry.StopLosesUsage | apps/api/app/services/grounded_synthesis_runs.py:650-665 | A concrete session in which a stop before the second attempt loses the usage of the first |
| AdaptiveSearch.SearchAdaptive | workers/providers/professional_search.py:123-214 | The search runs exactly the queries before the first reason to stop, makes at most min(queries, request budget) calls, and its profiles are the first `profile_budget` of the distinct ones of the successful pages in query order |
| AdaptiveSearch.StopIsUnique | workers/providers/professional_search.py:152-191 | The world determines how many queries run and how the search ends |
| AdaptiveSearch.SummaryMeans | workers/providers/professional_search.py:193-214 | The status is success if and only if some profile was kept and nothing failed beyond finding no result, and partial if and only if some was kept and something did; the error is that of the first such failure |
| AdaptiveSearch.SearchPage | workers/providers/professional_search.py:79-120 | One page returns the first `max_results` distinct profiles among the first five items; a stop noticed after a response wins over what the response says, and a request that raised is not followed by that check |
| AdaptiveSearch.HighestPriority | workers/providers/professional_search.py:710-721 | The reported failure is the first among the most urgent |
| AdaptiveSearch.PriorityOrder | workers/providers/professional_search.py:710-721 | Missing authorization is the most urgent failure, then a rate limit, a timeout, a provider error and an invalid response |
| AdaptiveSearch.SearchGithub | workers/providers/professional_search.py:217-357 | The requests of a session never exceed its budget; it runs exactly the fetches before the first reason to stop and reports their distinct profiles in order |
| AdaptiveSearch.GithubSucceedsWhen | workers/providers/professional_search.py:330-357 | It succeeds if and only if some profile was found, time was left, and nothing failed beyond finding no result; with a profile it is partial otherwise, with the error of such a failure |
| AdaptiveSearch.LeaseOutlastsBudget | apps/api/app/services/professional_search_runs.py:249-276 | The lease of an adaptive run outlasts the time budget its search uses by at least 15 seconds, and by less than 16 unless the configured lease is longer; the cap of 315 seconds never cuts that short |
| Deletion.Store.DeleteLockedJob | apps/api/app/services/deletion.py:39-118 | The sequence of statements leaves exactly what `AfterDeletion` describes, every foreign key holds after each statement without cascades, and the tombstone carries the raised epoch, the time of the deletion and its expiry seven days later |
| Deletion.NothingRemains | apps/api/app/services/deletion.py:69-108 | No remaining row belongs to the deleted job |
| Deletion.OthersStay | apps/api/app/services/deletion.py:109-118 | Rows of other jobs stay, unchanged but for a nulled refresh link; a document goes if and only if the job used it and no other job does |
| Deletion.RemainderIsSound | apps/api/app/models/entities.py:60-570 | Types, foreign keys and job-local references still hold, so deletions can follow each other |
| Deletion.ReferrersComeFirst | apps/api/app/services/deletion.py:69-108 | The order of the statements clears every table after all tables that refer to it |
| History.GroupPagesAreComplete | apps/api/app/services/history.py:177-260 | Following the cursors terminates and lists every visible matching group exactly once, newest first |
| History.GroupPagesExactly | apps/api/app/services/history.py:177-260 | The same spelled out: of all unexpired discovery searches of the user with one key the newest is listed, by time and then by id, if its key contains the search text |
| History.PagesListEverything | apps/api/app/services/history.py:64-69 | The same for any keyset listing and any starting cursor: the pages put together are the whole remaining listing |
| History.RunCountsAddUp | apps/api/app/services/history.py:190-212 | Without a search text the run counts of all groups add up to the visible jobs |
| History.RelatedRunsAreTheGroup | apps/api/app/services/history.py:263-308 | The related runs are all runs of the group, as many as its count says, if the two keys of the representative agree; otherwise the representative is missing from its own listing |
| History.KeysAgree | apps/api/app/services/history.py:155-174 | The key of the database and the key of the application agree if and only if: a stored seed with the prefix belongs to a platform other than the empty text; any other stored seed, once cut, is the folded identifier; and without a stored seed, lower-casing the identifier folds it |
| History.HandleValueExactly | apps/api/app/services/history.py:165-174 | The key of the application is what follows the platform and the separator in the stored seed, or else the folded identifier |
| SeedHistory.WrittenKeys | apps/api/app/services/discovery_jobs.py:196-265 | A row with the columns of a normalized seed has the prefix, and both keys are its folded handle |
| SeedHistory.RelatedRunsShareTheHandle | apps/api/app/services/history.py:263-308 | When the visible rows are written by footprint jobs, the pages of related runs list exactly the visible runs with the same folded handle on any platform, each once, newest first, as many as the group count says |
| History.ListGroups | apps/api/app/services/history.py:177-260 | The loop that builds the items returns the page of representatives with their run counts and cursor |
| History.ListRelated | apps/api/app/services/history.py:263-308 | Not found if and only if the representative is not visible; otherwise the page of its related runs |
| History.ClearTerminal | apps/api/app/services/history.py:311-345 | One request deletes the chosen searches and tells whether finished ones remain |
| History.ClearingIsExact | apps/api/app/services/history.py:311-332 | The chosen ones are the newest finished searches of the user that are not locked, as many as the limit allows; everything else stays |
| History.ClearingFinishes | apps/api/app/services/history.py:318-345 | Repeating the request clears the whole history, the limit's worth at a time, and touches nothing that is unfinished or belongs to others |
| CursorCodec.CursorRoundTrip | apps/api/app/services/history.py:36-61 | A cursor that was handed out decodes to the position it stands for |
| CursorCodec.PayloadExactly | apps/api/app/services/history.py:50-61 | A payload is read if and only if it has the two texts between the fixed parts |
| CursorCodec.DecodedExactly | apps/api/app/services/history.py:47-61 | A text is decoded if and only if it consists of whole quanta with at most two padding characters at its end; every other cursor is refused |
| CursorCodec.Base64RoundTrip | apps/api/app/services/history.py:41-47 | Stripping the padding of base64url text loses nothing: decoding restores it from the length (sections 3.2 and 5 of RFC 4648) |
| CursorCodec.TestVectors | apps/api/app/services/history.py:41-47 | The encoder agrees with the test vectors of section 10 of RFC 4648 and uses the URL alphabet of section 5 |
| Eligibility.ExecutionKeepsInvariant | apps/api/app/services/eligibility.py:90-510 | Over every interleaving of checks: at most one open verification for a user and identifier, a challenge exactly while awaiting control, attempts within the maximum, and no generation handed out twice among the checks under way |
| Eligibility.ReachableRows | apps/api/app/services/eligibility.py:90-510 | The same spelled out over the columns, for every execution |
| Eligibility.OnlyLatestCheckDecides | apps/api/app/services/eligibility.py:319-395 | Of all checks only the latest-started one changes a waiting verification, and it confirms the account it saw if and only if it saw the challenge, in time and unsuppressed; besides checks only a new verification, a suppression or a call after the last attempt ends the wait |
| Eligibility.EligibleWasConfirmedAndApproved | apps/api/app/services/eligibility.py:426-510 | Over whole executions: whoever is eligible had a confirming check and, after it, an approval |
| Eligibility.ReviewWasConfirmed | apps/api/app/services/eligibility.py:350-378 | Whoever is in review had a check that saw the challenge |
| Eligibility.StartCheckEffect | apps/api/app/services/eligibility.py:231-286 | The exact condition of every reply to a check that is to start, and what it does to the row |
| Eligibility.FinishCheckEffect | apps/api/app/services/eligibility.py:319-395 | The latest check of a waiting verification ends it as expired, suppressed, confirmed or failed, the first that applies; nothing else changes |
| Eligibility.DecideEffect | apps/api/app/services/eligibility.py:426-510 | A decision takes effect exactly on an open review with the reviewer's code; an approval makes it eligible for the configured time |
| Eligibility.CreateEffect | apps/api/app/services/eligibility.py:123-171 | A new verification waits with its challenge and replaces exactly the open ones of its user and identifier |
| Eligibility.SuppressEffect | apps/api/app/services/suppression.py:40-51 | Suppressing closes exactly the verifications of the identifier that were not revoked |
| Eligibility.PublicStatusIs | apps/api/app/services/eligibility.py:31-62 | What a user is shown: the stage while its time lasts, that it lapsed, or that it is over |
| Eligibility.StartEndsWaitExactlyWhen | apps/api/app/services/eligibility.py:252-262 | Starting a check ends the wait if and only if the caller's unexpired verification is suppressed or out of attempts |
| Eligibility.FurtherCallPreemptsLastCheck | apps/api/app/services/eligibility.py:256-286 | A concrete execution where a further call fails a verification while its last check is under way |
| Eligibility.Table.CreateVerification | apps/api/app/services/eligibility.py:123-171 | The loop supersedes exactly the open earlier verifications of the user and identifier |
| Eligibility.Table.BeginCheck | apps/api/app/services/eligibility.py:231-286 | The first transaction of a check does what `StartCheck` says, with the same reply |
| Eligibility.Table.EndCheck | apps/api/app/services/eligibility.py:319-395 | The second transaction does what `FinishCheck` says |
| Eligibility.RowsKeep | apps/api/app/services/suppression.py:40-51 | Every transaction, a suppression included, keeps the invariant of the rows; attempts never fall, and no row returns to waiting or changes its challenge while it waits |
| EventStream.Stream | apps/api/app/api/footprint_jobs.py:312-356 | One connection sends the events after its start in order and without gaps up to the first terminal one, and catches up with the log while it lasts |
| EventStream.ResumedReaderMissesNothing | apps/api/app/api/footprint_jobs.py:305-334 | However often a reader disconnects and resumes from its last id, it has received each event once and in order |
| EventStream.TerminalEventIsLast | apps/api/app/api/footprint_jobs.py:345-347 | Once the terminal event is received everything was received |
| ProfileUrls.CanonicalizeIsIdempotent | apps/api/app/core/crypto.py:129-196 | Canonicalizing the canonical form of an accepted profile address gives the same target |
| ProfileUrls.ResultIsCanonical | apps/api/app/core/crypto.py:190-196 | Every accepted address yields a valid lower-case handle and the address built from it |
| ProfileForms.AcceptedExactly | apps/api/app/core/crypto.py:129-196 | Which addresses are accepted, part by part: a secure scheme, empty credentials and port, a host of a platform with or without `www.`, one of its path leads, a valid handle and at most one slash behind it |
| ProfileForms.PlainUrlExactly | apps/api/app/core/crypto.py:60-70 | What is left of an address without blanks is at most 300 printable ASCII characters without backslashes, escapes, queries and fragments |
| ProfileForms.SpacesExactly | apps/api/app/core/crypto.py:60-61 | The characters that are stripped around an address |
| ProfileForms.HandlesExactly | apps/api/app/core/crypto.py:37-47 | The handles of each platform, by length, characters and what may not stand at the ends or twice |
| SeedNormalization.RefreshKeepsSeed | apps/api/app/services/discovery_jobs.py:904-958 | A refresh submits a seed that normalizes to the stored one if and only if the stored handle does not itself start with `@` or the seed is a profile address; otherwise it is refused or searches for another seed |
| SeedNormalization.NormalizeExactly | apps/api/app/services/discovery_jobs.py:181-265 | Which seeds are accepted and with what result: the handle rule, the supported platforms and their alias, and that a platform or handle given beside a profile address must not contradict it |
| SeedNormalization.RefreshChangesSeed | apps/api/app/services/discovery_jobs.py:181-193 | On ASCII text the handle `@@ada` is stored as `@ada`, and its refresh searches for `ada` |
| OutboxDispatch.Dispatcher.DispatchOnce | workers/maintenance/outbox_dispatcher.py:114-162 | One turn hands over the first message by priority, age and id and marks it; a failure leaves the rows alone |
| OutboxDispatch.SelectFirst | workers/maintenance/outbox_dispatcher.py:118-129 | The selected message comes before every other pending one |
| OutboxDispatch.AtLeastOnce | workers/maintenance/outbox_dispatcher.py:130-162 | No message is marked without having reached the broker |
| OutboxDispatch.QueueDrainsInOrder | workers/maintenance/outbox_dispatcher.py:114-162 | While the broker accepts messages, as many turns as there are pending messages empty the queue, each deliverable one sent once, most urgent first |
| OutboxDispatch.RefusalBlocksTheQueue | workers/maintenance/outbox_dispatcher.py:130-162 | While the broker refuses the first message nothing changes, so the messages behind it wait |

## Left out

- FootprintStore.Store.CompleteScanRun: site checks, accounts, edges, identifiers and observations are one opaque payload per accepted completion, and the savepoint is one of three outcomes.
- FootprintStore.Store.ScheduleSearch: how name hypotheses, query plans and deadlines of a wave are derived is not modelled; they are parameters with fresh ids.
- FootprintStore.Store.FinalizeReport: the content of reports, claims and access states is not modelled; only the guards, the verdict and the state change are.
- FootprintStore.Store.constructor: idempotency keys, quotas, reuse of earlier jobs and the choice of catalog sites are not modelled; a job starts from its list of shards.
- EvidencePacket.BuildPacket: the cleaning of nested extracted fields is a parameter, and identifiers and addresses are cleaned by given functions.
- PacketRedaction.BuildWithLongTitle: redaction is modelled for words that are whole addresses; the patterns for addresses inside other text and for telephone numbers are not.
- GroundingValidation.Validate: reading a raw response into the data type, the record of explicitly given fields and the search for contact data are parameters.
- GroundingSchema.ResponseIsGrounded: the rewriting of dictionaries in place is modelled as a function on values, children first, which yields the same dictionaries.
- OutputSchema.ConformingExactly: the length keywords of texts and lists and the titles of the generated schema are not modelled, so a value that is too long conforms here; the rewriting does not touch them.
- AdaptiveSearch.SearchGithub: the ordered candidate logins and the parsing of replies are given.
- Deletion.Store.DeleteLockedJob: foreign keys to rows that no deletion removes (catalog snapshots, verifications) are not modelled, and references within one job are assumed to stay within it, as the services write them.
- History.ListGroups: the seed summary and the summary of the latest run are not modelled, nor are changes of the store between pages.
- CursorCodec.CursorRoundTrip: foreign characters, which a lenient decoder skips, and other spellings of the same JSON payload are refused here.
- EventStream.Stream: a connection is observed for finitely many polls; waiting times are not modelled.
- Eligibility.ExecutionKeepsInvariant: settings are constant over an execution, and the effects of a suppression on jobs are not modelled.
- OutboxDispatch.QueueDrainsInOrder: one dispatcher at a time; rows locked by another one are not skipped.
- ProfileUrls.CanonicalizeIsIdempotent: hosts in brackets are refused, and case folding is that of ASCII text, the only text accepted there.
- ProfileForms.PlainUrlExactly: only the ASCII blanks around an address are removed; other blanks are refused here.
- The loops that pick expired leases and overdue jobs in batches: each chosen row is one step.
- Renewal threads: the heartbeat is a step that may happen at any time.
- History.ClearTerminal: deleting one job is removing its row here; what else a deletion removes is in `Deletion`.
- Prioritizing catalog sites and splitting them into shards: short pure functions.
- The earlier brief pipeline, retention sweeps, the web application and network access.
- Suppression of jobs compares a hash of an address with a hash of a normalized seed; hashes are not modelled beyond equality.
