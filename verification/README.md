# Archie's proactivity core, modelled and proved in Dafny

This project models the transactional core of Archie's proactivity layer and the algorithms that
feed it, and proves what they keep over every run. `dafny verify dfyconfig.toml` checks all of it.

The tables of `InitiativeStore` are values (`map`, `seq`), every transaction is a function on them, and a
class holds the tables as fields with one method for each transaction, proved equal to its function, to be a
step of the runs and to keep what every run keeps. What each transaction leaves is also told on the rows
alone, without the functions that do it (Effects, BatchEffects, DeskEffects, WatchEffects), in both
directions: when it does what, and what does not change. Properties of runs are inductions over arbitrary
sequences of such steps, with the steps of several workers interleaved. Components outside the store (the
message queue, the keyed lock, the edit distance, the extraction batcher) are classes or array and loop
methods of their own, proved against specifications whose properties are proved beside them.

| module | part of the system |
| :-- | :-- |
| Ledger, LedgerSafety, Gateway, GatewayRuns | spending reservations, hourly day cursor, daily and scope caps, request pricing, concurrency and retries |
| Evidence, Stamps, Effects, BatchEffects, DeskEffects, StoreClass, Provenance, Findings, FindingIds, EvidenceRuns, Convergence, OwnerDecisions, ProvenanceLimits, StoreLimits | source messages, findings, expiry, feedback and deliveries |
| Jobs, Handoffs | leases with tokens and generations |
| Watch, WatchEffects, WatchSteps, WatchRuns, WatchDates, WatchLimits | matters together with the jobs that look at them again |
| Extraction, ExtractionRun, PartitionNotes | splitting and consuming texts |
| Collection, BusinessDays, Decisions, Deadline, DeadlineLimits | paged collection, rescheduling, local deadlines |
| JsonText, Canonical, ToolNames | identity of a tool call, tool names and tiers |
| Queue | inbound messages and their replay |
| EditDistance, EntityMerge, EntityFold | memory housekeeping |
| KeyedLock, Triggers | serialised approval of triggers |

Taken as assumptions: local days are a monotone function of time (for the hourly cursor, days last
at least an hour), zone offsets are a function bounded by a day, hashes are injective, tokens and
identifiers are fresh, the paging of Slack delivers its window (`Collection.Serves`), normalisers of
texts are arbitrary functions. Times and amounts are unbounded integers, prices and versions exact
reals.

Where the code does less than one might expect, the code is kept, an input is given and the exact
condition is proved:

- `record` keeps provenance if and only if no valid finding of another thread cites the message
  (`RecordExact`); a message that changes thread breaks it (`ThreadChangeStrandsCitation`).
- `apply` keeps provenance if and only if an id names one thread throughout the batch (`ApplyExact`);
  one id in two threads breaks it (`SharedIdMixesThreads`). The ids the service gives never do, in any
  run (`ServiceRunsKeepProvenance`).
- Two mentions of a matter in one accepted batch can open what the owner dismissed
  (`TwoMentionsOverrideDismissal`); the decision survives if and only if no mention finds the matter
  resolved (`DecisionSurvivesIff`).
- A message that changes without a new version and changes back makes `record` fail on the uniqueness
  of revision rows (`ReturningContentHappens`), and nothing else does (`RecordFailsIff`).
- Reservations made on a clock set back can exceed the daily cap, on the same day or on a later one
  (`ClockSetBackBreaksCap`, `ClockSetBackBreaksLaterDay`). On any clock, all admissions at an instant
  keep the cap if and only if the budget read then is no less than the exposure of its day and of every
  later day, or leaves no room (`AdmissionsKeepCapIff`); it is no less when no open charge was admitted
  later and no later day is debited (`NothingAheadCovers`). Over every run on any clock the cap holds
  throughout if and only if every admission had room on its day and all later ones (`CapHoldsIff`).
- The last part of a divided thread goes out without the note that it is a part
  (`LastPartIsUnmarked`), if and only if the items left by then are no longer than a piece
  (`DividedNoteIff`).
- `deadlineAt` answers a wall time that is shown twice, or misses one that is shown once, if an offset
  in force between two transitions is seen by no probe (`TwoTransitionsEscape`, `OnlyInstantMissed`);
  these are the only two ways it is wrong (`RightIff`), and for two transitions the offsets and instants
  are given (`WrongBetweenTransitionsIff`).
- A message that arrives after a reset under a parked reader overtakes what was put back
  (`ResetWithoutDetachReorders`), in every such state and if and only if something was put back
  (`ResetOvertakenIff`); never after a detach (`DetachKeepsOrder`).
- Relations are repointed to survivors if and only if the merge plan has no chain
  (`RepointingSoundIff`, `ChainLeavesDanglingRelation`).
- An investigation that is completed misses no landmark of its matter (lead, deadline, abandonment), but
  it can end otherwise. When it misses one is told for each ending by the stored fields and the clock
  (`InvestigationMissesIff`): of an active thread, if and only if the abandonment comes before the check by
  deadline; with a check stored ahead, if and only if a landmark lies before that; paused, refused or
  failed, if and only if one lies within the hour or the five minutes; displaced from its job, if and only
  if one lies before that job is due; unread, unfollowed, overtaken by a source or over, which leave no next
  check, if and only if one is ahead at all (`DeferralMissesDeadline`, `PauseMissesDeadline`,
  `OvertakenMissesDeadline`, `SnoozePassesDeadline`, `ActiveThreadPassesAbandonment`). These are the endings
  of a worker that still owns its job, but for the displaced, whose job stays as it is; a snooze during the
  analysis is such a displacement, and comes back at once (`SnoozedComesBack`, `NoOwnerEndsSnoozed`).
- An open, valid matter can be left without a job while extraction has nothing to do in its thread: when
  another thread read as related changes during the analysis (`RelatedChangeForgets`), when the service is
  stopped and started again (`StopForgets`), and when it is cut off, or a statement fails, between applying
  a batch and scheduling what the batch reports open (`CutOffForgets`). Over every run each such matter has
  its job, due at its check or within the hour, or still to be scheduled by then, if and only if no worker
  that still owns the job gives up a matter that is still valid and open or snoozed, the stop command finds
  none, no cut-off finds one still to be scheduled whose job is not due in time, and every batch reports a
  matter that sleeps on in time, unless its job is (`AlwaysWatchedIff`). A change of the matter's own thread
  never forgets it (`OwnThreadChangeIsHarmless`).
- A snooze can lose its date to the check an investigation notes (`LateNoteLosesDate`, `OpensTooEarly`). Over
  every run it keeps the date until it has come, unless the matter wakes for another reason, if and only if no
  worker that passed its ownership test before the snooze, and waits for access to its suggestion's audience,
  notes another check afterwards (`SnoozeKeepsDateIff`). The other two ways to a note test no ownership
  either but cannot lose it: an investigation that finds nothing changed has counted the snooze in its
  signature (`UnchangedIsAwake`), and one that finds an active task notes at once, when the date has come
  (`ByTaskIsDue`).

## Model

| member | source | states |
|---|---|---|
| Ledger.SpendingLedger.ReserveCharge | src/proactivity/store.ts:536-550 | admits exactly under the budget, scope and pricing-error checks, and appends the open charge |
| Ledger.SpendingLedger.CandidateDays | src/proactivity/store.ts:565-566 | the hourly cursor collects exactly the local days some instant of the charge's interval falls on |
| Ledger.SpendingLedger.InsertDebits | src/proactivity/store.ts:568-570 | one debit of the actual amount for each day, nothing else changed |
| Ledger.SpendingLedger.SettleCharge | src/proactivity/store.ts:557-573 | the whole settlement: errors, debits on all touched days or the proven day, overrun flag |
| Ledger.HourlyProbesMeetDay | src/proactivity/store.ts:566-566 | with days of at least an hour no touched day lies between two probes |
| LedgerSafety.BudgetIsExposure | src/proactivity/store.ts:552-555 | the budget read at admission equals everything attributable to today |
| LedgerSafety.AdmittedIff | src/proactivity/store.ts:536-550 | on a clock that has not gone back a reservation is admitted if and only if it is a whole positive amount, nothing has overrun, its day has room under 200,000,000 or, for a routine one, 150,000,000, and its scope under the limit; otherwise nothing changes |
| LedgerSafety.AdmissionSpends | src/proactivity/store.ts:541-543 | a reservation adds its maximum to what its own scope spends, and nothing to any other |
| LedgerSafety.SettlementSpends | src/proactivity/store.ts:541-571 | a settlement replaces that maximum by the actual cost |
| LedgerSafety.AdmissionKeepsCapIff | src/proactivity/store.ts:536-550 | on any clock an admitted reservation keeps every day within 200,000,000 if and only if there is room on its day and every later one |
| LedgerSafety.CapHoldsIff | src/proactivity/store.ts:536-573 | over every run on any clock, forward or back, no day exceeds the cap at any point before an overrun if and only if every admission had room on its day and every later one |
| LedgerSafety.AdmissionsKeepCapIff | src/proactivity/store.ts:536-555 | on any clock all admissions at an instant keep the cap if and only if the budget read then covers its day and all later ones, or has no room left |
| LedgerSafety.NothingAheadCovers | src/proactivity/store.ts:552-555 | it covers them when no open charge was admitted later and no later day is debited |
| LedgerSafety.AdmissionExposure | src/proactivity/store.ts:536-550 | a reservation adds its maximum to its day and all later ones, to no earlier one |
| LedgerSafety.SettlementExposure | src/proactivity/store.ts:557-573 | a settlement within its reservation raises no day's exposure |
| LedgerSafety.SettlementReplaces | src/proactivity/store.ts:557-573 | exactly: on every day the open maximum goes and, on the days debited, the actual cost comes |
| LedgerSafety.SettledIff | src/proactivity/store.ts:557-573 | which settlements are refused, ignored or made, and which raise the pricing error |
| LedgerSafety.ReserveSound | src/proactivity/store.ts:536-550 | reservation keeps the invariant; routine ones never lift today or a later day above 150,000,000 |
| LedgerSafety.SettleSound | src/proactivity/store.ts:557-573 | settlement keeps the day-indexed invariant |
| LedgerSafety.DailyCapHolds | src/proactivity/store.ts:536-573 | over every run with a clock that never goes back, no day's debits and open maxima exceed 200,000,000 unless usage overran |
| LedgerSafety.SettledSpendIsAttributed | src/proactivity/store.ts:563-571 | a settled charge stays debited in full on every day it may have run on, or on one proven day |
| LedgerSafety.OverrunStopsAdmission | src/proactivity/store.ts:540-540 | after an overrun nothing is admitted in any continuation |
| LedgerSafety.OneOverrunEndsAdmission | src/proactivity/store.ts:562-562 | a single settlement above its reservation, as a step of any run, brings that about |
| LedgerSafety.ScopeLimitHolds | src/proactivity/store.ts:541-543 | no scope ever spends more than its limit, over every run and clock |
| LedgerSafety.ClockSetBackBreaksCap | src/proactivity/store.ts:552-555 | two reservations under a clock set back put twice the cap on one day |
| LedgerSafety.ClockSetBackBreaksLaterDay | src/proactivity/store.ts:552-555 | over midnight they do so on the later day, though the earlier day's budget is exact |
| Gateway.UsageFitsReservation | src/proactivity/model.ts:46-75 | usage within the byte bound and max_tokens never costs more than was reserved |
| Gateway.AmountIsCost | src/proactivity/model.ts:69-75 | usage is settled if and only if all four counts are whole and not negative, at its cost by kind (input and cache reads once, cache writes twice, output) rounded up to the next microdollar |
| Gateway.ThousandTokens | src/proactivity/model.ts:9-14 | the two priced models, and what a thousand tokens of each kind are settled at |
| Gateway.PreparedIff | src/proactivity/model.ts:46-59 | which requests are unpriced or too long, and the reservation of the others: all bytes with headroom as cache writes, and 4,000 tokens of output |
| Gateway.ReservationIsTight | src/proactivity/model.ts:56-58 | some such usage costs exactly the reservation |
| Gateway.ConformingUsageNeverOverruns | src/proactivity/model.ts:69-75 | settling such usage never raises the pricing error |
| GatewayRuns.EveryRequestIsReserved | src/proactivity/model.ts:83-111 | over every interleaving at most four calls are active, each is sent at most three times, and every request has an open charge of its own |
| GatewayRuns.ArriveEffect | src/proactivity/model.ts:83-86 | a call is taken up if and only if it is priced, short enough and fewer than four are active |
| GatewayRuns.DispatchEffect | src/proactivity/model.ts:88-98 | a call that may go on is sent once more if and only if its reservation, in its own tier and scope, is admitted, and waits on that charge; else it is over |
| GatewayRuns.ReplyEffect | src/proactivity/model.ts:99-102 | what is reported in full settles the charge of that request, and no other, at its cost; what is not leaves it open |
| GatewayRuns.FailureEffect | src/proactivity/model.ts:103-107 | a server error is retried while there have been fewer than three attempts, anything else not; the reservation stays |
| GatewayRuns.ProviderWithinBoundsKeepsCap | src/proactivity/model.ts:83-111 | from bytes to budget: while the provider keeps to the bounds, retries and lost answers included, no day exceeds the cap and admission is never shut off |
| Provenance.InvalidatedThreads | src/proactivity/store.ts:324-327 | invalidation moves the threads of the scope, and no others, to their next generation |
| Provenance.InvalidatedFindings | src/proactivity/store.ts:328-329 | no finding of the scope stays valid and no other changes |
| Provenance.InvalidatedDelivery | src/proactivity/store.ts:330-333 | a delivery that still waits names no invalid matter, cites nothing of the scope and is unchanged |
| Effects.InvalidateWithdraws | src/proactivity/store.ts:324-334 | exactly: the threads of the places one generation on, their findings no longer valid, withdrawn whatever waits and names an invalid matter or cites the places; every other row as it was |
| Effects.ChannelEffect | src/proactivity/store.ts:87-100 | after every access report the row is stored and no other changes; everything else changes only when access is denied and the row was another or a gap was given, and then by that invalidation |
| Effects.DeniedIsForgotten | src/proactivity/store.ts:87-100 | a channel that loses its access, gap or no gap, has no valid finding, all its threads in their next generation, and nothing that waits cites it |
| Effects.RecordEffect | src/proactivity/store.ts:336-362 | exactly which messages are skipped, refused by the row constraint or stored, with every column of the new row, and what each does to its thread and findings |
| Stamps.StampIff | src/proactivity/store.ts:337-337 | timestamps are digits, a dot and digits, and nothing else |
| Stamps.SecondsOf | src/proactivity/store.ts:339-343 | a timestamp stands for the number before its dot and the decimal fraction behind |
| Stamps.WholeGrows | src/proactivity/store.ts:339-343 | that number digit by digit |
| Stamps.FractionShrinks | src/proactivity/store.ts:339-343 | that fraction digit by digit, always below one |
| Stamps.NumbersNotTexts | src/proactivity/store.ts:343-343 | timestamps are read as numbers: 10.05 is before 10.5, and 10.50 is the same |
| StoreClass.InitiativeStore.Channel | src/proactivity/store.ts:87-100 | the channel row, and nothing else unless access is denied anew (`Effects.ChannelDone`, on the rows); a step of the runs; keeps what every run keeps: backed findings, backed waiting deliveries, slots |
| StoreClass.InitiativeStore.RecordMessage | src/proactivity/store.ts:336-362 | every branch of recording a source message, on the rows (`Effects.RecordDone`); a step of the runs; keeps what every run keeps when the message keeps its thread |
| StoreClass.InitiativeStore.ApplyFindings | src/proactivity/store.ts:409-453 | when a batch is stale, rejected and for what, or applied, and every row its loops write (`BatchEffects.ApplyDone`); a step of the runs; keeps what every run keeps for read snapshots and one thread per id |
| StoreClass.InitiativeStore.ExpireEvidence | src/proactivity/store.ts:643-668 | ageing of texts, excerpts, events, findings and deliveries, row by row (`DeskEffects.ExpireDone`); a step of the runs; keeps what every run keeps |
| StoreClass.InitiativeStore.GiveFeedback | src/proactivity/store.ts:489-502 | the matter's new state, check and thread, no waiting delivery left that names it and no other withdrawn (`DeskEffects.FeedbackDone`), the reminder scheduled; a step of the runs; keeps what every run keeps |
| StoreClass.InitiativeStore.EnqueueDelivery | src/proactivity/store.ts:582-607 | when a delivery is taken, when a cancelled card is retried, when nothing happens, on the rows (`DeskEffects.EnqueueDone`); a step of the runs; keeps what every run keeps |
| StoreClass.InitiativeStore.AdmitDelivery | src/proactivity/store.ts:622-641 | admitted if and only if it may be sent (`DeskEffects.AdmitDone`); an admission guarantees delivery enabled and not muted, paused or stopped, fresh evidence in allowed channels, open, valid and backed matters, a slot within the day's cap, and that it is the first of this delivery |
| StoreClass.InitiativeStore.TakeRunner | src/proactivity/store.ts:56-67 | the runner lease of ten minutes, refused only while another's lasts, and sending deliveries of another runner made uncertain (`DeskEffects.AcquireDone`); keeps what every run keeps |
| StoreClass.InitiativeStore.GiveUpRunner | src/proactivity/store.ts:69-73 | only its owner gives the runner up; keeps what every run keeps |
| StoreClass.InitiativeStore.WithdrawDelivery | src/proactivity/persistence/attention.ts:102-108 | one delivery is withdrawn, only while it waits; a step of the runs |
| StoreClass.InitiativeStore.WithdrawAll | src/proactivity/persistence/attention.ts:38-38 | nothing waits any longer, and no other delivery changes; a step of the runs |
| StoreClass.InitiativeStore.SettleDelivery | src/proactivity/persistence/attention.ts:111-113 | the outcome of a send and its timestamp, whatever the row said; a step of the runs |
| StoreClass.InitiativeStore.DoubtDelivery | src/proactivity/persistence/attention.ts:115-117 | a send that threw is uncertain, its timestamp as it was; a step of the runs |
| StoreClass.InitiativeStore.HandOut | src/proactivity/store.ts:364-387 | a worker reads a snapshot of the present state; with it counted among those read, what every run keeps is kept |
| StoreClass.InvalidatedOneByOne | src/proactivity/store.ts:645-646 | invalidating ageing threads one after another equals invalidating them together |
| BatchEffects.CheckItemEffect | src/proactivity/store.ts:414-424 | which of the three objections there is to an item, or none, told by the first snapshot of its thread and the first entry of each citation |
| BatchEffects.ApplyEffect | src/proactivity/store.ts:409-453 | a batch is stale if and only if its job was displaced or a snapshot is out of date, otherwise rejected for the first item there is an objection to, and only else written; all rows as they then are |
| DeskEffects.ExpireEffect | src/proactivity/store.ts:643-668 | texts go after thirty days, excerpts after ninety, with all that cites them or waits on them; every other row as it was |
| DeskEffects.EnqueueEffect | src/proactivity/store.ts:575-607 | a delivery is taken if and only if what it cites and names stands, its matters are followed, its card is current, and it is new or a withdrawn card again |
| DeskEffects.AdmitEffect | src/proactivity/store.ts:622-641 | a delivery is admitted if and only if it waits, what it cites and names stands, nothing is switched off, and the day has a slot left of two, or of one for a digest |
| Provenance.InvalidateRepairs | src/proactivity/store.ts:324-334 | invalidation restores the invariant from any damage within its scope |
| Provenance.ChannelSound | src/proactivity/store.ts:87-100 | access changes keep: valid findings cite current, undeleted, unexpired human evidence of their thread in an allowed channel |
| Provenance.RecordSound | src/proactivity/store.ts:336-362 | recording keeps that invariant when the message keeps its thread |
| Provenance.RecordExact | src/proactivity/store.ts:336-362 | it keeps findings backed if and only if no valid finding of another thread cites the replaced revision |
| Findings.AcceptedIsSupported | src/proactivity/store.ts:411-424 | an item that passes the checks is supported by current evidence of its own thread, some of it human |
| Findings.MarkSound | src/proactivity/store.ts:425-428 | marking threads processed keeps the invariant and the place of every finding |
| Findings.ObservationRowAfter | src/proactivity/store.ts:429-434 | what the last mention of an observation leaves in its row |
| Findings.MatterRowAfter | src/proactivity/store.ts:435-450 | what the last mention of a matter leaves in its row |
| Findings.BatchExact | src/proactivity/store.ts:429-450 | a batch keeps findings backed if and only if its ids are aligned with their threads |
| Findings.ApplyExact | src/proactivity/store.ts:409-453 | after an accepted apply all valid findings are backed if and only if ids are aligned |
| Findings.ApplySound | src/proactivity/store.ts:409-453 | apply keeps the whole invariant for batches in which an id names one thread |
| EvidenceRuns.ExpireSound | src/proactivity/store.ts:643-668 | expiry keeps the invariant |
| EvidenceRuns.ValidIsBacked | src/proactivity/store.ts:324-453 | the provenance invariant over all interleavings of reading, recording, channel changes, apply, expiry, feedback and deliveries |
| EvidenceRuns.FromTheStart | src/proactivity/store.ts:324-453 | the same from the empty store |
| EvidenceRuns.AtMostOnceAndCapped | src/proactivity/store.ts:622-641 | over every run, with crashes and runner takeover, each delivery is admitted at most once and a day holds at most two ordinary and one digest delivery |
| EvidenceRuns.WaitingIsBacked | src/proactivity/store.ts:324-334 | a pending delivery never outlives the backing of its matters |
| EvidenceRuns.AdmissionIsBacked | src/proactivity/store.ts:622-641 | at the admitting step delivery is enabled and not muted, paused or stopped, all evidence is fresh and allowed and every matter valid, open and backed |
| EvidenceRuns.AdmissionsAreSendable | src/proactivity/store.ts:622-641 | the same for whatever is admitted in any run |
| EvidenceRuns.StaleWorkerCannotApply | src/proactivity/store.ts:411-411 | a worker whose lease was lost changes nothing by applying, whatever has happened since |
| Convergence.RecordForward | src/proactivity/store.ts:341-345 | recording never takes a message back in version nor out of deletion |
| Convergence.VersionsOnlyGrow | src/proactivity/store.ts:336-362 | the same over every run of the store |
| Convergence.ArrivalsConverge | src/proactivity/store.ts:336-349 | any arrivals with distinct versions end at the greatest, with redeliveries ignored |
| Convergence.ArrivalOrderDoesNotMatter | src/proactivity/store.ts:336-349 | any two orders of the same messages show the same version, text and deletion |
| Convergence.RecordFailsIff | src/proactivity/store.ts:341-345 | over every run, recording fails as a whole if and only if an accepted report brings back earlier content under the version shown now |
| Convergence.ReturningContentFails | src/proactivity/persistence/schema.ts:17-17 | a change without a new version that is then undone runs into the row constraint, and the message keeps showing the second content |
| StoreLimits.ReturningContentHappens | src/proactivity/persistence/schema.ts:17-17 | three accepted reports of one message for which it does |
| OwnerDecisions.DecisionSurvivesIff | src/proactivity/store.ts:435-450 | however often a batch mentions it, a dismissal or snooze with its date survives if and only if no mention finds the matter resolved; otherwise it ends resolved, or open exactly after a reopening on news |
| OwnerDecisions.ReopenedIff | src/proactivity/store.ts:441-447 | a resolved matter is open after a batch if and only if a mention asks to reopen it on something a person said that, by deletion, automation and text, was not in what was cited before, and none after finds it resolved |
| OwnerDecisions.FateOfMatter | src/proactivity/store.ts:435-450 | state, citations and next check that an accepted batch leaves of any matter, stored or not, told by its mentions and the rows of what is cited |
| OwnerDecisions.OpensOnNewsOnly | src/proactivity/store.ts:441-447 | it stays resolved when all that people say in its mentions was said in what was cited before, and opens as soon as one thing was not, if that mention asks for it and none after finds it resolved |
| StoreLimits.OnlyNewsReopens | src/proactivity/store.ts:441-447 | three accepted batches: on the message already cited, and on that with a bot's new one, a resolved matter stays resolved; on another message of a person's it opens |
| StoreLimits.TwoMentionsOverrideDismissal | src/proactivity/store.ts:409-453 | a store and an accepted batch after which a dismissed matter is valid and open |
| FindingIds.IdIsInjective | src/proactivity/service.ts:215-228 | the ids the service files findings under tell their thread, kind and key |
| FindingIds.FiledIsCoherent | src/proactivity/service.ts:209-235 | so its batches use no id in two threads |
| FindingIds.ServiceKeepsProvenance | src/proactivity/service.ts:209-235 | applying such a batch keeps the provenance invariant |
| FindingIds.ServiceRunsKeepProvenance | src/proactivity/service.ts:209-235 | and so does every run of the service from the empty store, interleaved with all other steps |
| ProvenanceLimits.ThreadChangeStrandsCitation | src/proactivity/store.ts:336-362 | a message that moves to another thread leaves a valid finding citing a replaced revision |
| ProvenanceLimits.SharedIdMixesThreads | src/proactivity/store.ts:413-434 | one id in two threads of a batch leaves a finding citing another thread |
| Jobs.JobTable.ScheduleJob | src/proactivity/store.ts:504-508 | earlier due time kept, payload replaced, generation raised, or a new unleased row; no worker owns the job any longer; a step of the runs |
| Jobs.JobTable.Claim | src/proactivity/store.ts:510-518 | an earliest due job without a live lease is leased until the given time to a fresh token, none only if there is none; the claimant is its only owner; a step of the runs |
| Jobs.JobTable.FinishJob | src/proactivity/store.ts:520-530 | deletes or reschedules only for the holder at its own generation, and then nobody owns the job; otherwise only the holder's lease goes; a step of the runs |
| Jobs.JobTable.DeleteAnalysis | src/proactivity/persistence/attention.ts:39-39 | extractions, investigations and digests go, leased or not, and no other job changes |
| Jobs.AtMostOneOwner | src/proactivity/store.ts:510-534 | of all claims ever handed out for a job at most one owns it |
| Jobs.LostLeaseIsForever | src/proactivity/store.ts:520-534 | a lost lease is never regained and its finish changes nothing |
| Jobs.ReclaimedWorkerIsStale | src/proactivity/store.ts:510-534 | a re-claim makes every earlier worker stale for good |
| Jobs.NoLostWakeUp | src/proactivity/store.ts:504-530 | a schedule between claim and finish leaves the job there, due no later than asked, and unleased after that finish |
| Jobs.WakeUpIsClaimable | src/proactivity/store.ts:504-518 | and it can be claimed once the earlier lease has run out |
| Handoffs.HandoffTable.ApproveHandoff | src/proactivity/store.ts:244-255 | the first approval is stored, the same again returns it, a different one is refused; what is returned is what is stored; keeps one task to a proposal |
| Handoffs.HandoffTable.ClaimHandoff | src/proactivity/store.ts:257-263 | a hand-off is claimed if and only if it is approved or prepared and unleased, for five minutes, by a fresh token, and no token handed out before holds it |
| Handoffs.HandoffTable.PrepareHandoff | src/proactivity/store.ts:235-237 | only the holder prepares; records and settled hand-offs stay as they are |
| Handoffs.HandoffTable.FinishHandoff | src/proactivity/store.ts:265-267 | only the holder finishes, and then nobody holds the hand-off; records and settled ones stay as they are |
| Handoffs.OneTaskPerProposal | src/proactivity/handoff.ts:79-144 | whoever starts, retries or recovers, a proposal starts one task and no two share one |
| Handoffs.ApprovedCanStart | src/proactivity/store.ts:244-255 | and once approved its task can be started |
| Handoffs.ApprovalIsPermanent | src/proactivity/store.ts:235-267 | version, actor, task and delivery never change; settled hand-offs never change at all |
| Handoffs.TokenOnlyWhilePending | src/proactivity/store.ts:257-267 | a token is held only while approved or prepared |
| Handoffs.ReplacedClaimantIsPowerless | src/proactivity/store.ts:235-267 | a claimant that lost its lease changes nothing ever after |
| Handoffs.TakeoverReplaces | src/proactivity/store.ts:257-263 | a successful claim does that to every earlier claimant |
| Extraction.ExtractionBatch | src/proactivity/context.ts:4-29 | the batch holds the longest prefix of the pieces all of whose own prefixes fit, or nothing fits at all |
| Extraction.LongestIsGreedy | src/proactivity/context.ts:17-21 | that prefix is the only one accepted all the way and no further |
| Extraction.TakenUnits | src/proactivity/context.ts:4-29 | a batch of the first k pieces hands over exactly those, in order |
| ExtractionRun.ShortenedIsDropped | src/proactivity/service.ts:90-92 | cutting a handed-over piece off its item drops exactly that piece |
| ExtractionRun.RestStream | src/proactivity/service.ts:86-96 | what is left holds all later pieces, cut at the same places |
| ExtractionRun.Extractor.ConsumePart | src/proactivity/service.ts:88-94 | one part shortens or removes its thread in place |
| ExtractionRun.Extractor.Consume | src/proactivity/service.ts:86-96 | consuming a batch of k pieces leaves exactly the rest |
| ExtractionRun.Extractor.ExtractAll | src/proactivity/service.ts:251-277 | the loop ends; handed over and left together are always the whole; each batch fitted, has at most 16 parts and one channel |
| ExtractionRun.EveryTextHandedOverOnce | src/proactivity/service.ts:251-277 | a completed loop has handed over every text, joined in order, exactly once |
| ExtractionRun.PiecesAreBounded | src/proactivity/context.ts:9-9 | no piece exceeds 1000 characters |
| ExtractionRun.CutsAreFull | src/proactivity/context.ts:9-9 | every piece of an item but its last has exactly 1000 |
| ExtractionRun.RoundStopsWhen | src/proactivity/service.ts:255-259 | a batch ends only where one piece more would make a seventeenth part, a second channel, or too large a request |
| PartitionNotes.PartitionNoteIff | src/proactivity/context.ts:16-27 | in every batch, under any bound, a part goes out without the partition note if and only if all that is left of its thread is taken and no item of it is longer than a piece |
| PartitionNotes.DividedNoteIff | src/proactivity/context.ts:24-27 | a later part of a divided thread is unmarked if and only if it is the last and the items left by then are short |
| PartitionNotes.LastPartIsUnmarked | src/proactivity/context.ts:24-27 | a thread of one item handed over in two batches, the second without the note |
| Collection.ChannelScan.Collect | src/proactivity/collection.ts:31-44 | one page: end pinned, page recorded, then the cursor or, after the last page, the checkpoint at that end; unchanged without access, only pinned when it is lost |
| Collection.CollectedIsSteps | src/proactivity/collection.ts:31-44 | that run is its single steps in order |
| Collection.AdvanceGood | src/proactivity/store.ts:305-314 | accounting for a page keeps the scan, and at the last page covers the window |
| Collection.NothingSkipped | src/proactivity/collection.ts:31-44 | wherever runs are cut off, every message up to the checkpoint is recorded |
| Collection.PinStays | src/proactivity/collection.ts:34-35 | the end of the scan stays until the last page is accounted for |
| Collection.BeginPins | src/proactivity/collection.ts:33-35 | a scan that begins is pinned at the present, one that goes on where it was |
| Collection.LastPageCompletes | src/proactivity/store.ts:305-314 | from every state of every run, accounting for the last page puts the checkpoint at the pinned end, up to which all is recorded, and ends the scan; another page only moves the cursor |
| Collection.ScanReachesItsEnd | src/proactivity/collection.ts:31-44 | from any stored progress a scan reaches its pinned end with as many runs as it has pages left |
| Collection.FirstScanCollectsAll | src/proactivity/collection.ts:31-44 | so the first scan of a channel ends at the time it began, with every message since the watermark recorded |
| BusinessDays.PublicFollowupAt | src/proactivity/decisions.ts:9-21 | the loop ends with the least number of whole days, two to five, holding two business days, itself on one |
| BusinessDays.FiveStepsAreEnough | src/proactivity/decisions.ts:13-19 | five days hold two business days through any one change of the clock of at most an hour |
| BusinessDays.LastHuman | src/proactivity/decisions.ts:9-12 | the latest activity that is neither the assistant's own nor a bot's |
| BusinessDays.LocalDayIff | src/proactivity/decisions.ts:13-19 | a local day holds the instants whose local time lies in it |
| Decisions.ChecksAreAhead | src/proactivity/decisions.ts:41-59 | a next check is strictly ahead, and there is none exactly for finished matters |
| Decisions.PhaseIff | src/proactivity/decisions.ts:35-39 | when a deadline is future, approaching (its last quarter of an hour) and due |
| Decisions.ChecksInMilliseconds | src/proactivity/decisions.ts:41-59 | the next checks of eight matters at any instant, in milliseconds |
| Decisions.ReconciledCheckIs | src/proactivity/decisions.ts:28-33 | the check of a matter reported anew, in all cases |
| Decisions.LandmarksAreMet | src/proactivity/decisions.ts:54-59 | the check by deadline and abandonment passes over a landmark if and only if the matter is marked snoozed and the snooze reaches beyond one or, run out, the abandonment comes before the check by deadline |
| Decisions.MatterCheckPassesIff | src/proactivity/decisions.ts:41-52 | the check by deadline alone passes over one if and only if a snooze reaches beyond it or the abandonment comes first |
| Decisions.InvestigationMissesIff | src/proactivity/service.ts:133-407 | for each of twelve endings of an investigation job (eleven of its owner, one of a worker displaced from it), exactly when a landmark ahead is not met by the next check, or by none |
| Decisions.DeferralMissesDeadline | src/proactivity/service.ts:140-145 | a refused analysis, put off by an hour over a lead and a deadline a completed one would have met |
| Decisions.PauseMissesDeadline | src/proactivity/service.ts:134-137 | a pause puts off even a check that was set for the lead |
| Decisions.OvertakenMissesDeadline | src/proactivity/service.ts:348-348 | an investigation overtaken by a source leaves no check before the deadline |
| Decisions.DisplacedMissesNothing | src/proactivity/store.ts:520-528 | a job scheduled anew under its worker is due at once, and misses no landmark |
| Decisions.ActiveThreadPassesAbandonment | src/proactivity/service.ts:310-315 | an open matter of an active thread, next looked at a day after a landmark within the hour |
| Decisions.SnoozePassesDeadline | src/proactivity/service.ts:302-305 | a snooze beyond the deadline |
| Decisions.ElapsedSnoozeWouldIgnoreAbandonment | src/proactivity/service.ts:316-319 | why the service lifts an elapsed snooze before it computes the next check |
| Decisions.ChecksReachLead | src/proactivity/decisions.ts:35-59 | punctual checks arrive exactly at the start of the approaching window |
| Decisions.ReconcilingNeverDelays | src/proactivity/decisions.ts:28-33 | a brought-forward deadline never delays an open matter, never wakes a snoozed one, and is met |
| WatchRuns.AlwaysWatchedIff | src/proactivity/service.ts:120-407 | over every interleaving of messages, extraction with its separate schedules, feedback, other work, claims, investigations with owned and late notes, stops and cut-offs from the empty store: all open or snoozed valid matters have a job due at their check or within the hour, or still to be scheduled by then, throughout, if and only if no step is harmful |
| WatchSteps.EndWatchedIff | src/proactivity/service.ts:298-407 | one ending breaks it exactly when it gives up (unfollowed, unread, overtaken) a job it owns of a matter still alive |
| WatchSteps.StopWatchedIff | src/proactivity/persistence/attention.ts:33-41 | the stop command breaks it exactly when anything is alive |
| WatchSteps.ApplyWatchedIff | src/proactivity/service.ts:280-284 | an applied batch, its schedules to come, breaks it exactly when a snoozed matter it mentions and does not wake is reported later than its check while its job is not due by then |
| WatchSteps.ScheduleKeeps | src/proactivity/service.ts:283-283 | each of the schedules that follow keeps it |
| WatchSteps.CutOffWatchedIff | src/proactivity/service.ts:282-283 | a cut-off breaks it exactly when a matter alive is still to be scheduled and has no job due in time |
| WatchSteps.SnoozeKeeps | src/proactivity/store.ts:489-502 | a snooze keeps it: it is scheduled for its date and taken from whoever was looking |
| WatchSteps.NoteKeeps | src/proactivity/service.ts:310-381 | a note by whoever holds the lease keeps it, owner of the job or not |
| WatchSteps.SnoozedComesBack | src/proactivity/service.ts:348-348 | however the worker of a matter snoozed under it ends, the job stays and is due at once |
| WatchSteps.NoOwnerEndsSnoozed | src/proactivity/service.ts:354-357 | a worker that has passed the ownership test never finds its matter snoozed |
| WatchEffects.StartEffect | src/proactivity/service.ts:298-308 | an investigation starts with a due, unleased job, leased to a fresh token, and has read place, generation and finding of its matter; it is ready if and only if the check has come |
| WatchEffects.SnoozeEffect | src/proactivity/store.ts:489-502 | a snooze puts the matter off and its job, no later than it was due, to the same date |
| WatchEffects.ErrandsAt | src/proactivity/service.ts:282-283 | what is still to be scheduled after a batch: the matters reported open, in order, at the checks reported |
| WatchEffects.DueEffect | src/proactivity/service.ts:133-407 | when the job is due again after each ending: an hour or five minutes on, at the stored or the noted check, or never |
| WatchEffects.EndEffect | src/proactivity/service.ts:133-407 | an ending finishes the job for that time, asks for an extraction if the thread could not be read, and changes nothing else |
| WatchEffects.MayEndIff | src/proactivity/service.ts:133-407 | which endings there are for a worker at any time |
| WatchRuns.DueIsClaimable | src/proactivity/store.ts:510-518 | so a matter whose check has come can be claimed within the hour, once no lease covers its job |
| WatchRuns.ReadingStands | src/proactivity/service.ts:346-366 | over every run, while a worker owns its investigation of a matter still alive, thread generation and finding are those it read, and writing it back resolved changes the state alone |
| WatchRuns.OwnThreadChangeIsHarmless | src/proactivity/service.ts:348-348 | an investigation overtaken by its own thread leaves nothing alive without a job |
| WatchRuns.InvestigationsKeepProvenance | src/proactivity/service.ts:298-407 | provenance over every run that also lifts snoozes, notes checks and resolves matters |
| WatchRuns.GivenUpIsForgotten | src/proactivity/service.ts:298-348 | a matter given up alive has no job and a thread extraction does not come back to |
| WatchRuns.CutOffIsForgotten | src/proactivity/service.ts:282-283 | so has one cut off before its schedule, if no job was left from before |
| WatchRuns.ForgottenStays | src/proactivity/service.ts:283-283 | and stays so until extraction reports it open or its owner snoozes it |
| WatchDates.SnoozeKeepsDateIff | src/proactivity/service.ts:298-407 | after any run, through any further run without another snooze, a snoozed matter sleeps until its date or is awake for another reason, if and only if no late note sets another check before the date |
| WatchDates.LosingNoteIsLate | src/proactivity/service.ts:348-381 | a note that loses a date is of a worker that passed the ownership test on a signature older than the snooze, and no longer owns its job |
| WatchDates.UnchangedIsAwake | src/proactivity/service.ts:332-342 | the note of an unchanged check, made without an ownership test, finds no snooze: the signature counts every reminder |
| WatchDates.ByTaskIsDue | src/proactivity/service.ts:310-315 | the note for an active task comes when the stored check, a snooze's date included, has come |
| WatchLimits.RelatedChangeForgets | src/proactivity/service.ts:327-348 | a started investigation, a message in another thread, overtaken: an open, valid matter has no job |
| WatchLimits.StopForgets | src/proactivity/runtime.ts:89-95 | stop and start leave it without a job, though extraction is scheduled anew |
| WatchLimits.CutOffForgets | src/proactivity/service.ts:282-283 | an accepted batch and a cut-off: its matter is valid and open, its thread processed, and no job is there |
| WatchLimits.LateNoteLosesDate | src/proactivity/service.ts:374-381 | an investigation that has passed its test, a snooze until tomorrow, a note for an hour on: the date is gone |
| WatchLimits.OpensTooEarly | src/proactivity/service.ts:316-319 | it ends, the next one starts an hour on and lifts the snooze a day early |
| Deadline.AnswerRenders | src/proactivity/deadline.ts:27-28 | in any zone an answer renders as the wall time |
| DeadlineLimits.RightIff | src/proactivity/deadline.ts:10-31 | in every zone the answer is that of exhaustive search unless just one probed offset fits while an unprobed one does too, or just one offset fits and it is unprobed |
| DeadlineLimits.WrongBetweenTransitionsIff | src/proactivity/deadline.ts:21-28 | with two transitions, exactly where and for which offsets the answer is wrong |
| Deadline.ProbesDecide | src/proactivity/deadline.ts:10-31 | then the answer is the only instant, and null means none or several |
| Deadline.ThreeProbesSuffice | src/proactivity/deadline.ts:10-31 | with one transition in two days three probes equal exhaustive search |
| Deadline.GapAndFoldAreRefused | src/proactivity/deadline.ts:20-28 | skipped and repeated wall times are refused, all others answered with the offset in force |
| DeadlineLimits.TwoTransitionsEscape | src/proactivity/deadline.ts:20-28 | a zone in which a wall time shown twice is answered |
| DeadlineLimits.OnlyInstantMissed | src/proactivity/deadline.ts:20-28 | a zone in which a wall time shown just once is not answered |
| JsonText.ReadBack | src/agents/tool-approval-gate.ts:144-144 | reading a written string literal gives back the string and the rest, escapes and lone surrogates included |
| JsonText.QuoteUnambiguous | src/agents/tool-approval-gate.ts:149-149 | a literal is unambiguous whatever follows |
| JsonText.Literals | src/agents/tool-approval-gate.ts:144-144 | each kind of character as section 7 of RFC 8259 writes it |
| Canonical.ListUnambiguous | src/agents/tool-approval-gate.ts:145-150 | comma-joined closed lists agree element by element |
| Canonical.ValueStep | src/agents/tool-approval-gate.ts:143-151 | no canonical text is a proper beginning of another |
| Canonical.SortHolds | src/agents/tool-approval-gate.ts:146-148 | the same properties in any order sort to the same list |
| Canonical.SameTextSameMeaning | src/agents/tool-approval-gate.ts:143-151 | values with one text are equal as nested maps and sequences |
| Canonical.SameMeaningSameText | src/agents/tool-approval-gate.ts:143-151 | and values equal in that sense have one text |
| Canonical.CanonicalIffSame | src/agents/tool-approval-gate.ts:141-151 | both directions for all well-formed values |
| Canonical.PrintedByKey | src/agents/tool-approval-gate.ts:143-151 | the printed text of an object whose keys come in another order, one of them undefined |
| Canonical.PreimageIffSameCall | src/agents/tool-approval-gate.ts:162-167 | what is hashed agrees exactly for the same server, tool and meaning of the arguments |
| Canonical.NoArguments | src/agents/tool-approval-gate.ts:162-167 | undefined and null arguments count as an empty object, and only what prints as one does too |
| ToolNames.ParseComposed | src/agents/tool-approval-gate.ts:78-89 | behind a well-formed server a name splits exactly when its tool has the pattern's form |
| ToolNames.RoundTripIff | src/agents/tool-approval-gate.ts:78-89 | splitting inverts composing exactly for parts of the pattern's form |
| ToolNames.ComposeParsed | src/agents/tool-approval-gate.ts:81-84 | a name splits in one way only |
| ToolNames.KeyAcceptedIff | src/system/plugin-loader.ts:99-105 | the loader's probe lets through exactly the server keys of that form |
| ToolNames.ServerTextIff | src/agents/tool-approval-gate.ts:78-78 | that form is the pattern's: runs without underscores, joined by single ones |
| ToolNames.NamesAsWritten | src/agents/tool-approval-gate.ts:78-89 | names that split, at which place, and names that do not, line ends included |
| ToolNames.ManagedToolsAreClassified | src/agents/tool-approval-gate.ts:122-138 | tools of a managed server fall under its own rules; one escapes only if empty or holding a line end |
| ToolNames.WithheldIsDenied | src/agents/tool-approval-gate.ts:98-106 | the names withheld up front are exactly those of listed denied tools |
| Queue.MessageQueue.AddMessage | src/agents/message-queue.ts:29-47 | refused when stopped, handed to the first waiter, else queued last |
| Queue.MessageQueue.NextMessage | src/agents/message-queue.ts:53-68 | the first message, or the reader parks last; a stopped queue throws |
| Queue.MessageQueue.StopAll | src/agents/message-queue.ts:87-97 | stopped, with no reader parked and nothing queued |
| Queue.MessageQueue.DetachWaiters | src/agents/message-queue.ts:124-126 | the parked readers go, the queue stays open and its messages stay |
| Queue.RecoverableInput.ReceiveMessage | src/agents/message-queue.ts:29-47 | an arrival as one step with its hand-over |
| Queue.RecoverableInput.Pull | src/agents/message-queue.ts:237-243 | a reader's request as one step |
| Queue.RecoverableInput.Restore | src/agents/message-queue.ts:231-234 | restored messages end up in front, in order; a stopped queue takes none |
| Queue.RecoverableInput.ResetInput | src/agents/message-queue.ts:223-235 | the whole reset: filter, prefix, replay, and consumed emptied |
| Queue.NothingLost | src/agents/message-queue.ts:29-68 | after any run with full replays everything sent is consumed or queued, once, in order, and no waiter faces a message |
| Queue.AttemptReadsPrefix | src/agents/message-queue.ts:223-243 | what an attempt has read is a prefix of what was sent |
| Queue.OnlyLiveReadersWait | src/agents/spawn.ts:1006-1008 | with detaching retries only readers of the live attempt wait |
| Queue.NoticeComesFirst | src/agents/message-queue.ts:226-230 | the prefix heads what the next attempt reads first, before the notices that were there, never dropped |
| Queue.FilteredReplay | src/agents/message-queue.ts:223-235 | a filtered reset replays exactly the confirmed messages in order |
| Queue.ResetOvertakenIff | src/agents/message-queue.ts:124-142 | whatever is put back under a parked reader, the next arrival overtakes it, and overtakes something if and only if something was put back |
| Queue.ResetLosesOrderIff | src/agents/message-queue.ts:124-142 | the order of what was sent is lost but when all that was put back has the text that arrives |
| Queue.DetachKeepsOrder | src/agents/spawn.ts:1006-1008 | after a detach no reset is overtaken and none loses the order |
| Queue.ResetWithoutDetachReorders | src/agents/message-queue.ts:124-142 | a run that reaches such a state, with and without the detach |
| EditDistance.TableIsDistance | src/memory/housekeeping.ts:451-456 | every table cell is the distance of two prefixes |
| EditDistance.Levenshtein | src/memory/housekeeping.ts:444-460 | the two-row arrays compute the recursive distance |
| EditDistance.ZeroIsEqual | src/memory/housekeeping.ts:444-460 | zero only on equal texts |
| EditDistance.Symmetric | src/memory/housekeeping.ts:444-460 | symmetric |
| EditDistance.Triangle | src/memory/housekeeping.ts:444-460 | triangle inequality |
| EditDistance.PathIsNoShorter | src/memory/housekeeping.ts:444-460 | no run of single-character edits is shorter |
| EditDistance.ShortestPath | src/memory/housekeeping.ts:444-460 | and one is exactly that long |
| EditDistance.TraceBack | src/memory/housekeeping.ts:424-432 | true exactly if some input is within 0.4 of the longer length |
| EditDistance.ValidateTraceBack | src/memory/housekeeping.ts:408-423 | accepted and rejected are the traced and untraced outputs in order |
| EditDistance.NothingLostOrInvented | src/memory/housekeeping.ts:408-423 | together they are the outputs, each on its side |
| EditDistance.KeptInOrder | src/memory/housekeeping.ts:408-423 | each side is in the order given |
| EditDistance.TracedByEdits | src/memory/housekeeping.ts:424-442 | traced exactly if few edits lead from some input to the bullet |
| EntityMerge.PlanEntityMerges | src/memory/housekeeping.ts:103-117 | the nested loops compute the plan |
| EntityMerge.PlanIsForest | src/memory/housekeeping.ts:103-117 | for any records the plan is acyclic, children before parents, and no survivor still names another |
| EntityMerge.EdgesAreAliases | src/memory/housekeeping.ts:103-117 | a record folds only into one that lists it as an alias |
| EntityMerge.RootFollowsPlan | src/memory/housekeeping.ts:165-169 | following the plan from any record ends at a survivor |
| EntityFold.MergeFacts | src/memory/housekeeping.ts:136-154 | a merged record says what the two said up to normalisation, nothing else |
| EntityFold.AbsorbAdds | src/memory/housekeeping.ts:137-151 | what is added is the first item of its key, of a key that was not there, and none twice |
| EntityFold.MergeGrows | src/memory/housekeeping.ts:136-154 | own entries come first, and domain and summary are replaced only when empty |
| EntityFold.EntityTable.MergeInto | src/memory/housekeeping.ts:136-154 | the in-place merge |
| EntityFold.EntityTable.Fold | src/memory/housekeeping.ts:165-169 | the fold loop in plan order |
| EntityFold.FoldConserves | src/memory/housekeeping.ts:165-169 | a survivor says exactly what all records folded into it said |
| EntityFold.MergingLosesNothing | src/memory/housekeeping.ts:156-169 | every observation, relation, name and repo of every record is on its survivor |
| EntityFold.RepointedIsRootIff | src/memory/housekeeping.ts:178-179 | one lookup reaches the survivor if and only if its result was not merged away |
| EntityFold.RepointingSoundIff | src/memory/housekeeping.ts:174-184 | all relations reach survivors if and only if the plan has no chain |
| EntityFold.ChainLeavesDanglingRelation | src/memory/housekeeping.ts:174-184 | three records for which a relation points to a deleted one |
| KeyedLock.Lock.RunCall | src/system/keyed-lock.ts:18-22 | a call chains behind the last of its key and becomes the chain |
| KeyedLock.Lock.CleanUp | src/system/keyed-lock.ts:23-26 | the entry goes only if no later call extended it |
| KeyedLock.OneAtATime | src/system/keyed-lock.ts:15-28 | over every interleaving calls of a key run one at a time in order of arrival |
| KeyedLock.NeverWedged | src/system/keyed-lock.ts:20-21 | the first unfinished call of a key can always go on, whatever failed before |
| KeyedLock.ChainsDrain | src/system/keyed-lock.ts:23-26 | a key is forgotten only when drained, and always then |
| Triggers.TriggerStore.EnableProposed | src/system/trigger-store.ts:228-240 | enables and records the approver, content untouched, if and only if pending, and then never resolved before; no other trigger changes |
| Triggers.TriggerStore.WithdrawPending | src/system/trigger-store.ts:200-209 | removes only if pending, and then never resolved before; no other trigger changes |
| Triggers.TriggerStore.UpdatePending | src/system/trigger-store.ts:253-266 | applies any edit of the record, with its time, only if pending; no other trigger changes |
| Triggers.TriggerStore.DeleteTrigger | src/system/trigger-store.ts:193-196 | removes in any state |
| Triggers.AtMostOneResolution | src/system/trigger-store.ts:200-240 | over every interleaving with unlocked writers a trigger is resolved by at most one approval or withdrawal |
| Triggers.SaveIsAtomic | src/system/trigger-store.ts:193-266 | load and save apart do to the store what both at once would, and effective edits find the trigger pending |
| Triggers.CallEffect | src/system/trigger-store.ts:193-266 | what a locked call answers and leaves, case by case, from what it has read; it changes its own trigger only |
| Triggers.ApprovalGoesThrough | src/system/trigger-store.ts:228-240 | a run in which a proposed trigger is approved and ends up enabled, with its approver |

## Left out

- Investigation: prompts, the shortening of context, the decisions, requests, checks and extraction caches; of a matter's body only what the store's own rules read.
- WatchRuns.AlwaysWatchedIff: a worker notes a check only while its token is in the row, as its run is aborted after five minutes and leased for six; the investigations of a service that was cut off do not go on; between a batch and the last of its schedules the service does nothing else.
- WatchDates.SnoozeKeepsDateIff: the reminders of a matter are told apart by their number, as no two of its snoozes are of the same millisecond.
- WatchLimits.LateNoteLosesDate: the nine steps are given in stretches of one or two (`Starts`, `WaitsAfter`, `LateRun`, `OpensTooEarly`).
- Proposals: whether a card's proposal is current, at its version and without hand-off is one answer given to enqueueing and admission.
- StoreClass.InitiativeStore.Channel: does not model the gap text of a channel and the rows of its coverage gaps.
- StoreClass.InitiativeStore.ExpireEvidence: does not model the expiry of proposals, matter checks, extraction caches and the search index.
- StoreClass.InitiativeStore.GiveFeedback: does not model the row that only notes the button.
- StoreClass.InitiativeStore.EnqueueDelivery: takes whether a card's proposal is current as one answer.
- StoreClass.InitiativeStore.AdmitDelivery: takes whether a card's proposal is current as one answer.
- Snapshots: a snapshot read is any one whose items are live in its thread; the newest-200 limit, order and gap texts are not modelled.
- Collection.ChannelScan.Collect: does not model the refresh jobs scheduled for new messages and the rows of coverage gaps.
- Collection.NothingSkipped: one collector at a time; a message's time is not after it can be read; what `record` does with a message is in Evidence.
- `refresh` of a single thread with its synthetic deletions, and `reconcile` of the channel list.
- BusinessDays.PublicFollowupAt: assumes at most one change of Lisbon's clock, by at most an hour, within five days.
- How the service matches a finding to a stored matter; only the ids that can come of it are modelled.
- Queue.NothingLost: the hand-over of a message to a parked reader is one step, and a notice glued to a message stays apart from its text.
- EditDistance.TraceBack: the threshold is compared exactly, not in floating point; the normaliser of texts is any function.
- GatewayRuns.EveryRequestIsReserved: `complete` is modelled as interleaved steps, not as a method, because what matters in it is other calls between its awaits.
- Triggers.SaveIsAtomic: writers outside the lock are assumed not to touch a pending record nor to make one; ids are fresh.
- Write-time cap on an entity's observations, archiving of stale entities, and the text of entity files.
- The relations of a survivor after repointing are not deduplicated here.
- Coverage gaps, settings other than the controls, full-text search, titles and authors.
- Calls to Slack, GitHub and the model, prompts, rendering, hashing, randomness, schema migration.
- Floating-point rounding of timestamps and sums.
