# Wallet spending limits, settlement and address book: a verified model

This project models the part of the wallet that decides what an agent may spend, and proves what
it keeps true: the admission of a transfer against day, week and month limits, the transfer call
and its catch path, the settlement pass the timer starts, the promise-chain lock, the window
calendar and the usage arithmetic, the amount parser and printers of the owner's form, and the
address book. `dafny verify dfyconfig.toml` checks all of it with Dafny 4.11.

## How it is built

- `Protocol.dfy` is a transition system: any number of transfer calls and settlement passes, each
  with its own program counter and its own copies of the operations it works on, over the stored
  tables of `Tables.dfy`. One event is one save or one transaction. Calls and passes may be
  stopped, and the process may crash, at any point.
- `Interleavings.dfy` and `LimitBound.dfy` hold without any assumption on how events interleave.
- `Discipline.dfy` and `Safety.dfy` assume two things the server does not enforce: settlement
  passes do not overlap (the timer at `apps/wallet-server/src/bootstrap.service.ts:103-105` has no
  guard), and a pass times out a RESERVED operation only if its transfer call was not running when
  the pass listed it. `WithoutDiscipline.dfy` shows that both matter.
- `Timeouts.dfy` has the exact condition under which a RESERVED operation may be timed out, and
  `Overlaps.dfy` those under which a second pass may begin: for coverage and for released
  reservations to stay released, for outcomes to stay final, and each again for runs under one
  steady clock and chain (`Steady.dfy`). Their safe halves rest on invariants for any number of
  passes: `Guards.dfy`, `Revival.dfy` and `Finality.dfy`.
- `Broadcasts.dfy` bounds what agents have handed to the chain, as against what is stored of it, and
  `Overspending.dfy` says exactly when it can still get above a limit that stands.
- `Provenance.dfy` says in words what a pass decides and writes, and where a stored hash comes from.
- `Counterexamples.dfy` has concrete runs from a fresh database, for every configuration.
- `Database.dfy`, `Services.dfy` and `Settlement.dfy` are the repositories and services as
  classes, in the form of the source. Each call and each pass, run alone, is proved to be a run of
  the transition system.
- `PromiseLock.dfy` models promises as a heap of resolved, manual and chained promises.
  `Admission.dfy` puts `reserveForAgentTransfer` behind that lock, with the check and the save as
  separate steps.
- `Calendar.dfy` and `LimitWindows.dfy` are the windows in the local days of any time zone;
  `Usage.dfy` is the arithmetic on reservations, and `Resets.dfy` what it means over runs.
- `Decimals.dfy` and `Amounts.dfy` are decimal text and decimal.js's default rounding to twenty
  significant digits, half up. `AddressBook.dfy` is the contact index. `Domain.dfy` holds the
  records and their factories, `Text.dfy` and `Wrappers.dfy` what is shared.

Where the design documents and the code differ, the model follows the code:

- `design/architecture/08-data-and-persistence.md:354-360` wants the RESERVED operation and its
  reservation created in one transaction under the limit lock. The code saves the operation first,
  on its own (`packages/application/src/services/ethereum.service.ts:352`).
- The same document, lines 362-369, wants a failed broadcast recorded and the reservation released
  in one transaction. The code releases first and saves FAILED in a second transaction.
- `design/architecture/adr/0002-transfer-settlement-and-tx-status.md:113` reads a RESERVED timeout
  as "admitted but never broadcast". The code takes the age at processing time from a copy that
  may be outdated, so the call may still be on its way (`WithoutDiscipline`, `Timeouts`).
- The amount form promises base units up to the asset's decimals. Outside base units the code
  rounds to twenty significant digits without saying so (`Amounts.ExactExactlyWhenItFits`).

## Model

| member | source | states |
|---|---|---|
| `Safety.Coverage` | packages/application/src/services/ethereum.service.ts:352-439 | In every state a disciplined run reaches, crashes included, each AGENT operation stored as SUBMITTED or CONFIRMED has an ACTIVE or CONSUMED reservation of the same chain, asset and amount |
| `Safety.SpendingStaysWithinLimit` | packages/application/src/services/asset-limit.service.ts:148-201 | Over every disciplined run, in any window whose limit stays set and is never lowered, the summed requested amounts of operations stored as SUBMITTED or CONFIRMED are at most the counted usage, and that is at most the limit |
| `Safety.LifecycleStep` | packages/application/src/services/transfer-tracking.service.ts:55-170 | Every disciplined step moves an operation only RESERVED to SUBMITTED to CONFIRMED, or to FAILED; a terminal operation and a settled reservation are not written again |
| `Safety.TerminalAbsorbs` | packages/application/src/services/transfer-tracking.service.ts:55-170 | Over whole disciplined runs terminal operations and settled reservations stay exactly as they are |
| `Safety.ReservationsAgree` | packages/application/src/services/transfer-tracking.service.ts:119-170 | In every reachable disciplined state CONSUMED implies CONFIRMED, and RELEASED never stands beside SUBMITTED or CONFIRMED, although the catch path releases first and settlement saves first |
| `Safety.CrashAccounting` | packages/application/src/services/transfer-tracking.service.ts:119-170 | Terminal operations whose reservation is still ACTIVE number at most the interruptions that hit a pass between its two writes, plus at most one in progress |
| `Safety.InterruptionsBound` | packages/application/src/services/transfer-tracking.service.ts:119-170 | The operations left half settled by stopped passes and crashes never outnumber those stops and crashes, over every disciplined run |
| `Discipline.InStepStep` | packages/application/src/services/transfer-tracking.service.ts:27-170 | The invariant tying stored operations, reservations, running calls and the pass list together survives every disciplined step of calls, passes, crashes and policy changes |
| `Discipline.InStepRun` | packages/application/src/services/transfer-tracking.service.ts:27-170 | The invariant holds in every state a disciplined run reaches |
| `Discipline.ExaminedIsFresh` | packages/application/src/services/transfer-tracking.service.ts:35-44 | Under the discipline, whatever a pass decides to write it decides on a copy that is still the stored row, and no call runs for it |
| `Timeouts.TimeoutIsSafeIffCallCannotSend` | packages/application/src/services/transfer-tracking.service.ts:55-71 | Timing out an operation listed as RESERVED keeps every outgoing operation covered on all disciplined continuations if and only if it is not an AGENT operation whose call may still send it, that is, whose call is running and not yet in its catch block |
| `Timeouts.TimedOutRowStaysIffNoCall` | packages/application/src/services/transfer-tracking.service.ts:142-170 | The FAILED row a timeout writes is final on all disciplined continuations if and only if no call of the operation is running, whoever made it |
| `Overlaps.OverlapIsSafeIffNothingShared` | apps/wallet-server/src/bootstrap.service.ts:103-105 | Beginning a second pass beside a running one keeps every outgoing operation covered on all otherwise disciplined continuations if and only if the two lists share no AGENT operation, SUBMITTED with a hash, that the running pass has still to examine; and on exactly the same condition no continuation consumes a released reservation |
| `Overlaps.OverlapIsFinalIffNothingShared` | apps/wallet-server/src/bootstrap.service.ts:103-105 | And every outcome stored at any point of any otherwise disciplined continuation stays exactly as it is if and only if the lists share no operation, of whatever actor, that is SUBMITTED or had no running call when the running pass listed it |
| `Overlaps.SteadyOverlapIsSafeIffNeverMet` | apps/wallet-server/src/bootstrap.service.ts:103-105 | The same for continuations from a given instant on whose clock never goes back and whose chain keeps its verdicts: coverage and released reservations are kept if and only if there is no shared operation of that kind that both passes can still get to, a pass being stopped by an overdue RESERVED operation whose call was running when it listed it |
| `Overlaps.SteadyOverlapIsFinalIffNeverMet` | apps/wallet-server/src/bootstrap.service.ts:103-105 | And outcomes stay final on all such continuations if and only if there is no operation both may write that both can still get to |
| `Overlaps.OverlapKeepsLimit` | apps/wallet-server/src/bootstrap.service.ts:103-105 | With no such AGENT operation shared, usage stays within every limit that stands, on all otherwise disciplined continuations of the overlap |
| `Overlaps.Reach` | packages/application/src/services/transfer-tracking.service.ts:36-43 | At any one instant, while lookups find everything in the mempool, a pass can come to any operation it is not stopped from getting to, by disciplined steps that leave that operation, its reservation, the calls and the other passes alone |
| `Steady.CutRun` | packages/application/src/services/transfer-tracking.service.ts:36-71 | A run whose clock never goes back goes the same way, and writes the same, when every list is cut at the first overdue RESERVED operation whose call was running when it was listed |
| `Finality.ExclusiveStep` | packages/application/src/services/transfer-tracking.service.ts:55-170 | With any number of passes at once of which no two may write the same operation, every disciplined step keeps that so and leaves finished operations as they are |
| `Finality.ExclusiveRun` | packages/application/src/services/transfer-tracking.service.ts:55-170 | From such a state on, an outcome stored once is stored for good |
| `Revival.UnrevivedStep` | packages/application/src/services/transfer-tracking.service.ts:119-170 | With any number of passes at once, every disciplined step keeps a confirmed operation whose reservation is still to be consumed out of reach of every pass that could release it, and revives nothing |
| `Guards.GuardedStep` | packages/application/src/services/transfer-tracking.service.ts:27-170 | With any number of passes at once, every disciplined step keeps apart what one pass may confirm and another write off, and keeps covered what is outgoing or may still be sent |
| `Guards.GuardedRun` | packages/application/src/services/ethereum.service.ts:399-439 | Coverage holds on all disciplined runs from a guarded state, whatever copies passes hold and whether or not a call is in its catch block |
| `Timeouts.WaitingCallGoesOutUncovered` | packages/application/src/services/asset-limit.service.ts:148-201 | A call still waiting for admission can be admitted between the two writes of the pass and go out over a RELEASED reservation |
| `WithoutDiscipline.StoppedCallMayTimeOut` | packages/application/src/services/transfer-tracking.service.ts:142-170 | If the call has stopped, a timeout keeps the whole invariant even when the pass works from an outdated copy |
| `WithoutDiscipline.RunningCallGoesOutUncovered` | packages/application/src/services/ethereum.service.ts:367-385 | If the call still runs, some continuation ends with the operation stored as SUBMITTED over a RELEASED reservation |
| `WithoutDiscipline.OverlapRevives` | apps/wallet-server/src/bootstrap.service.ts:103-105 | A run of two passes on one SUBMITTED operation: one finds it rejected, another call is admitted on what that frees, the other finds it on the chain; FAILED turns into CONFIRMED, the released reservation is revived, and usage is up by the amount admitted in between |
| `WithoutDiscipline.RejectThenConfirm` | packages/application/src/services/transfer-tracking.service.ts:84-98 | Two passes that have reached the same operation and get different answers leave it CONFIRMED over a RELEASED reservation |
| `Counterexamples.CoverageFailsByTimeout` | packages/application/src/services/transfer-tracking.service.ts:58-71 | For every configuration, key and amount a run from a fresh database times out a transfer that then goes out uncovered |
| `Counterexamples.CoverageFailsByOverlap` | apps/wallet-server/src/bootstrap.service.ts:103-105 | For every configuration, key and amount a run from a fresh database with two overlapping passes leaves a CONFIRMED operation uncovered |
| `Counterexamples.OverlapExceedsLimit` | apps/wallet-server/src/bootstrap.service.ts:103-105 | And another ends with usage at twice a limit that stands throughout: exactly the limit plus what was revived, so the bound on all runs is attained |
| `Counterexamples.BroadcastsExceedLimit` | packages/application/src/services/ethereum.service.ts:367-405 | Even a disciplined run can hand twice a standing limit to the chain, which is the limit plus what was written off after its broadcast, so that bound is attained too: a crash between broadcast and save leaves a transfer to be written off and its amount to be spent again |
| `Counterexamples.WrittenOffButStuck` | packages/application/src/services/transfer-tracking.service.ts:142-170 | Not every broadcast written off can be spent again: a disciplined run whose written-off amount is the whole limit and after which no continuation exceeds the limit unless more is written off, because an interrupted pass left an unsent transfer FAILED with its reservation ACTIVE |
| `Overspending.MayExceedIffMoreWrittenOffThanStuck` | packages/application/src/services/ethereum.service.ts:356-405 | From any state a disciplined run reaches: some disciplined continuation that keeps the limit and writes off nothing further of the window hands agents more than the limit to the chain if and only if more of the window was written off after its broadcast than is stuck, that is, still reserved for finished operations that were never sent and that no pass will release |
| `Overspending.ExcessIsBounded` | packages/application/src/services/ethereum.service.ts:356-405 | On every such continuation the amounts sent are at most the limit plus what was written off less what is stuck |
| `Overspending.ExcessIsAttained` | packages/application/src/services/ethereum.service.ts:356-405 | And some continuation sends that much: passes release what was never sent, and one more transfer fills the limit |
| `Overspending.StuckRun` | packages/application/src/services/transfer-tracking.service.ts:142-170 | A counted reservation of a finished operation that no pass is about to release counts for ever, and its operation is never sent |
| `Broadcasts.SentIsAccountedFor` | packages/application/src/services/asset-limit.service.ts:325-358 | In a window the amounts sent plus the counted amounts never sent equal usage plus what was written off after its broadcast |
| `Broadcasts.BroadcastsAreReserved` | packages/application/src/services/ethereum.service.ts:356-371 | Whatever interleaves, an AGENT operation whose broadcast returned has a reservation of its key and amount, then and ever after |
| `Broadcasts.BroadcastsStayWithinLimit` | packages/application/src/services/ethereum.service.ts:356-405 | The amounts of all returned broadcasts in a window are at most its standing limit, plus those written off since, plus what was revived, on every run |
| `Broadcasts.DisciplinedBroadcasts` | packages/application/src/services/ethereum.service.ts:356-405 | Under the discipline the excess over the limit is at most the broadcasts written off since, and none of these is stored as SUBMITTED or CONFIRMED |
| `Interleavings.SoundStep` | packages/application/src/services/transfer-tracking.service.ts:27-170 | Whatever interleaves, a step keeps every record in the shape its status calls for, every reservation tied to its transfer, every call and pass snapshot tied to its row, and removes or re-identifies no row |
| `Interleavings.SoundRun` | packages/domain/src/factories/transfer-operation.ts:17-141 | Over every run, stale snapshots, overlapping passes and crashes included, records stay well formed and identity, amount and window fields never change |
| `Interleavings.StatusIsWrittenWithAudit` | packages/application/src/services/transfer-tracking.service.ts:119-170 | Each step that newly writes a status other than RESERVED appends exactly one audit record in the same transaction, naming the operation, an action that leads to that status, its actor and its result; the log only grows |
| `Interleavings.EveryStatusIsAudited` | packages/application/src/services/ethereum.service.ts:373-428 | In every reachable state each stored status other than RESERVED has an audit record of its operation, by an action and actor that lead to that status: a CONFIRMED row has its settlement record, not just that of its submission |
| `LimitBound.LimitBoundOverRuns` | packages/application/src/services/asset-limit.service.ts:148-217 | With no discipline at all: while a window's limit stays set and is never lowered, usage is at every step at most the limit plus the amounts revived from RELEASED to CONSUMED |
| `LimitBound.LimitHoldsWithoutRevival` | packages/application/src/services/asset-limit.service.ts:148-217 | From a fresh database and with nothing revived, usage never exceeds the limit |
| `LimitBound.LimitTakesEffect` | packages/application/src/services/asset-limit.service.ts:79-201 | From the moment the owner gives a limit for a window and until the owner changes it, whatever happens in between, an admission leaves usage of the window at most at that limit, and a rejection on account of the window names that limit; a limit taken away rejects nothing |
| `LimitBound.WithinLimitStep` | packages/application/src/services/asset-limit.service.ts:148-217 | One step of any call, pass, crash or policy change keeps usage within the limit plus revivals |
| `LimitBound.AdmissionStaysWithin` | packages/application/src/services/asset-limit.service.ts:162-200 | A passed check leaves every window of every key either untouched or within the limit in force |
| `LimitBound.ConsumeMovesUsage` | packages/application/src/services/asset-limit.service.ts:203-209 | Consuming changes no usage unless the row was RELEASED, and then brings back exactly its amount |
| `LimitBound.ReleaseLowersUsage` | packages/application/src/services/asset-limit.service.ts:211-217 | Releasing never raises the usage of any window |
| `Resets.NestedUsageOverRuns` | packages/application/src/services/asset-limit.service.ts:164-197 | In every reachable table, in any time zone and at every current instant, daily usage is at most weekly usage and at most monthly usage |
| `Resets.UsageIsOfItsWindow` | packages/application/src/services/asset-limit.service.ts:289-358 | In every reachable state a reservation counts at an instant exactly when it is ACTIVE or CONSUMED and the clock reading its admission took its windows from lies in the window that holds the instant, whenever the row was written |
| `Resets.TruthfulReset` | packages/application/src/services/asset-limit.service.ts:289-358 | Over runs: before the announced reset every reservation that counted and is not released still counts in full; from it on usage is that of the reservations whose admission read the clock at or after the reset, none of which existed when it was announced |
| `Tables.VerdictMeansRoom` | packages/application/src/services/asset-limit.service.ts:360-413 | The check passes if and only if usage plus amount is at most the limit in every window that has one |
| `Tables.VerdictInWords` | packages/application/src/services/asset-limit.service.ts:360-413 | The day, the week and the month are looked at in turn; the first that has a limit and no room is described with its limit, usage, what is left, never below zero, and its reset, and without one the check passes |
| `Tables.CreatedIsAccountedFor` | packages/application/src/services/asset-limit.service.ts:325-358 | Everything ever reserved in a window equals reserved plus consumed plus released, and usage is reserved plus consumed |
| `Tables.AdmissionReserves` | packages/domain/src/factories/asset-limit-reservation.ts:8-35 | Admission adds the amount to the reserved account of its own windows and to no other account |
| `Tables.SettlementMoves` | packages/domain/src/factories/asset-limit-reservation.ts:37-64 | Consuming and releasing move a row's amount from the account it was in to consumed or released, and never change the total created |
| `Domain.TransformersKeepShape` | packages/domain/src/factories/transfer-operation.ts:56-141 | Submitting, confirming and failing keep the identity, amount and target of an operation and, on the statuses they are used on, the shape of the record |
| `Services.AssetLimitService.ReserveForAgentTransfer` | packages/application/src/services/asset-limit.service.ts:148-201 | Under the lock: the first of day, week and month without room rejects with the code, text and figures of that window and changes nothing; otherwise one ACTIVE row is added, every field given, all three window starts from one instant, usage rises by exactly the amount and every set limit stays respected; unsupported pairs are refused with their text |
| `Services.AssetLimitService.UpdatePolicy` | packages/application/src/services/asset-limit.service.ts:79-146 | A limit that is given, none included, is the stored limit afterwards and one left out stays, or is none in a new policy; author, times, audit record and other tables are given field by field; unsupported pairs are refused with their text; and the owner is returned the view of the stored policy and reservations |
| `Services.AssetLimitService.BuildOwnerEntry` | packages/application/src/services/asset-limit.service.ts:233-286 | Each of the three windows shown has the limit of the stored policy, its CONSUMED and its ACTIVE amounts each in its own field, their sum, what remains, never below zero, and the reset of that window, whatever order the rows come in |
| `Services.AssetLimitService.ConsumeReservation` | packages/application/src/services/asset-limit.service.ts:203-209 | The stored row becomes CONSUMED from any other status, with its reason cleared and the instant in both times; a consumed row and a missing one stay, nothing else changes |
| `Services.AssetLimitService.ReleaseReservation` | packages/application/src/services/asset-limit.service.ts:211-217 | The stored row becomes RELEASED from any other status, with the reason and the instant in both times; a released row and a missing one stay, nothing else changes |
| `Services.TransferService.Admission` | packages/application/src/services/ethereum.service.ts:356-365 | Admission inside a call is the admission steps of the transition system; a failure leaves the database as it was |
| `Services.TransferService.Attempt` | packages/application/src/services/ethereum.service.ts:356-398 | The try block is a run of the transition system, and its error leaves with the hasReservation flag telling whether a reservation was saved |
| `Services.TransferService.Broadcast` | packages/application/src/services/ethereum.service.ts:367-385 | The chain call and the SUBMITTED transaction: only when both succeed is the row written, from the operation the call created |
| `Services.TransferService.HandleFailure` | packages/application/src/services/ethereum.service.ts:399-439 | The catch block releases before it saves FAILED, releases only what was reserved, and leaves no call behind |
| `Services.TransferService.TryAndCatch` | packages/application/src/services/nervos.service.ts:193-282 | The same steps for CKB: after an error, usage of every window of every key is what it was before |
| `Services.TransferService.Execute` | packages/application/src/services/ethereum.service.ts:304-440 | A whole call alone is a run of the transition system. Every field of the stored row is given: SUBMITTED with the hash the broadcast returned, or FAILED with the code, the message and the limit of the first step that failed; so are the audit record, the reservation it leaves, ACTIVE for an agent whose transfer goes out and given back under its reason after an error, and usage is restored after an error |
| `Services.AdmissionRaisesUsage` | packages/application/src/services/asset-limit.service.ts:162-200 | A passed check and its reservation raise usage by the amount in all three windows at once, within every limit |
| `Services.UsageRestored` | packages/application/src/services/ethereum.service.ts:399-405 | Reserving and releasing again leaves the usage of every window as it was |
| `Database.WalletDatabase.ListByStatuses` | packages/infrastructure/src/repositories/sqlite-repositories.ts:108-125 | Lists min(limit, pending) rows that are RESERVED or SUBMITTED, oldest update first, and skips one only when the list is full of rows no younger |
| `Database.WalletDatabase.ListByChainAsset` | packages/infrastructure/src/repositories/sqlite-repositories.ts:305-318 | Lists every row of the key exactly once and no other |
| `Database.WalletDatabase.CommitTransfer` | packages/infrastructure/src/repositories/sqlite-repositories.ts:369-375 | Operation and audit record are written together and nothing else is |
| `Database.WalletDatabase.SaveTransfer` | packages/infrastructure/src/repositories/sqlite-repositories.ts:127-135 | Upserts one row under its operation id and changes no other table |
| `Database.WalletDatabase.SaveReservation` | packages/infrastructure/src/repositories/sqlite-repositories.ts:320-328 | Upserts one row under its operation id and changes no other table |
| `Settlement.TransferSettlementService.SettleOperation` | packages/application/src/services/transfer-tracking.service.ts:55-117 | An operation is given up if and only if it is RESERVED and older than the reserved timeout, or has no hash, or was rejected, or is not found or in the mempool and older than the submitted timeout; it is confirmed if and only if the chain has it; otherwise nothing is written. Each case has its message and release reason, and every field of the row, the audit record and the reservation is given |
| `Settlement.TransferSettlementService.ConfirmOperation` | packages/application/src/services/transfer-tracking.service.ts:119-140 | Stores the listed copy as CONFIRMED at the instant, its errors cleared and everything else as in the copy, with its audit record, and consumes the reservation |
| `Settlement.TransferSettlementService.FailOperation` | packages/application/src/services/transfer-tracking.service.ts:142-170 | Stores the listed copy as FAILED with the settlement error code, the message and the instant and everything else as in the copy, with its audit record, and releases the reservation under the reason |
| `Settlement.TransferSettlementService.Execute` | packages/application/src/services/transfer-tracking.service.ts:27-53 | A pass alone is a disciplined run that leaves no pass behind. Each listed operation in turn and its reservation become what its own answer at its own instant says, up to the first lookup that throws, where the pass stops; no other row changes; the counts are the numbers of listed operations now CONFIRMED and FAILED; and when all are overdue and no lookup throws, confirmed plus failed equals processed equals min(limit, pending) |
| `Settlement.TransferSettlementService.RunTimer` | apps/wallet-server/src/bootstrap.service.ts:103-105 | With nothing new arriving and all pending operations overdue, whatever the chain answers in each pass, after k passes max(0, n - k * limit) remain pending, so enough passes empty the queue |
| `Settlement.SettledByEvents` | packages/application/src/services/transfer-tracking.service.ts:119-170 | The two writes of one settled operation are one or two events of the transition system, under the discipline |
| `Settlement.AllCounted` | packages/application/src/services/transfer-tracking.service.ts:33-52 | When every listed operation is finished, those stored as CONFIRMED and as FAILED add up to the list |
| `Provenance.ExaminedInWords` | packages/application/src/services/transfer-tracking.service.ts:55-170 | The same of the transition system, from whatever copy: when a pass gives up, when it confirms, with which reason it goes on to release, the one row it writes and that row's fields, and that otherwise it writes nothing |
| `Provenance.StoredHashIsTheBroadcast` | packages/application/src/services/ethereum.service.ts:367-385 | Whatever interleaves from a fresh database on, a stored transaction hash is the one the operation's own broadcast returned, and there was only one such broadcast |
| `Provenance.HashStays` | packages/domain/src/factories/transfer-operation.ts:77-141 | Over every disciplined run a stored hash stays: confirming and failing keep it |
| `PromiseLock.SettledIffEarlierFinished` | packages/infrastructure/src/locks/in-memory-asset-limit-locker.ts:6-14 | What a caller awaits is settled exactly when every earlier caller of its key has released |
| `PromiseLock.MutualExclusion` | packages/infrastructure/src/locks/in-memory-asset-limit-locker.ts:14-20 | At most one task per key runs at a time |
| `PromiseLock.TakeKeepsValid` | packages/infrastructure/src/locks/in-memory-asset-limit-locker.ts:6-21 | The promise heap, the queue map and the order of starts stay consistent under every interleaving of entering, starting and releasing callers |
| `PromiseLock.NoOvertaking` | packages/infrastructure/src/locks/in-memory-asset-limit-locker.ts:6-14 | Later callers add nothing to what is ahead of a caller; each start or release of an earlier caller of its key, or its own, lowers it by one, and nothing else does |
| `PromiseLock.SomeoneCanMove` | packages/infrastructure/src/locks/in-memory-asset-limit-locker.ts:14-20 | While a caller is unfinished, it or an earlier caller of its key can take a step |
| `PromiseLock.EveryCallerGetsItsTurn` | packages/infrastructure/src/locks/in-memory-chain-write-locker.ts:6-21 | Over any schedule a caller waits for exactly the starts and releases ahead of it, its own included; after them it has run and released |
| `PromiseLock.InMemoryLocker.EnterQueue` | packages/infrastructure/src/locks/in-memory-asset-limit-locker.ts:6-14 | Entering appends one waiting caller and is one atomic step; the caller may start at once exactly when every earlier caller of the key has released |
| `PromiseLock.InMemoryLocker.Resume` | packages/infrastructure/src/locks/in-memory-asset-limit-locker.ts:14-14 | A waiting caller, and only it, starts to run, exactly when every earlier caller of its key has released |
| `PromiseLock.InMemoryLocker.Release` | packages/infrastructure/src/locks/in-memory-asset-limit-locker.ts:15-20 | Returning and throwing alike finish the caller, and only it, and resolve the captured promise; the lock stays consistent |
| `Admission.Serializable` | packages/application/src/services/asset-limit.service.ts:162-200 | Any interleaving of admissions of one key without settlement, any of which may throw and roll back, gives the same answers and the same table as running the requests one by one in ticket order; once all have released, all are served |
| `Admission.AdmittedHaveRows` | packages/application/src/services/asset-limit.service.ts:176-200 | Exactly the requests answered without an objection have a row, each field the one it asked for; a request that was rejected or threw has left nothing |
| `Admission.QueueIsOfItsKey` | packages/application/src/services/asset-limit.service.ts:450-452 | Every pair of chain and asset queues on a key of its own, so requests of one pair wait for each other and for no others |
| `Admission.StaleCheckIsSound` | packages/application/src/services/asset-limit.service.ts:162-231 | With the check split from the save and settlement and policy updates in between, a reservation saved on a passed check raises usage by its amount and stays within every limit of the policy that was read |
| `Admission.InOrderStep` | packages/infrastructure/src/locks/in-memory-asset-limit-locker.ts:6-21 | Requests are answered or thrown out in ticket order, one at a time, under every interleaving |
| `Admission.RunnerIsNext` | packages/infrastructure/src/locks/in-memory-asset-limit-locker.ts:14-20 | Whoever runs is the first caller that is not done, or has just answered or thrown |
| `Admission.SettlementKeepsRoom` | packages/application/src/services/asset-limit.service.ts:203-231 | Consuming counted rows, releasing rows and changing policies never take away room that a check has found |
| `Usage.CalculateUsageTotals` | packages/application/src/services/asset-limit.service.ts:325-358 | The accumulating loop equals the six filtered sums, by window and status |
| `Usage.TotalsMeasureTable` | packages/application/src/services/asset-limit.service.ts:325-358 | The totals of any listing of a key's rows are those of the stored table |
| `Usage.ListingSumsTable` | packages/infrastructure/src/repositories/sqlite-repositories.ts:305-318 | Summing a listing of a key's rows is summing the table: neither their order nor rows of other keys matter |
| `Usage.SumUpdate` | packages/infrastructure/src/repositories/sqlite-repositories.ts:320-328 | Saving one row moves every window's sum by the difference of its old and new weight |
| `Usage.EffectiveIsUsed` | packages/application/src/services/asset-limit.service.ts:372-387 | Consumed plus reserved is the usage over ACTIVE and CONSUMED rows together |
| `Usage.UsedIsWhatCounts` | packages/application/src/services/asset-limit.service.ts:325-358 | Usage of a window is the sum of the amounts of the rows of the key that are ACTIVE or CONSUMED and have that window's start |
| `Usage.OwnerViewEqualsEnforcement` | packages/application/src/services/asset-limit.service.ts:360-448 | A positive amount is admitted if and only if every window shows room for it; a rejection repeats the figures of the first window, in the order day, week, month, that has none, also when a lowered limit is already exceeded |
| `Usage.NestedUsage` | packages/application/src/services/asset-limit.service.ts:164-197 | Rows stamped from one instant count in the day only if they count in the week and the month |
| `LimitWindows.WindowHoldsNow` | packages/application/src/services/asset-limit.service.ts:289-323 | Every window contains the instant it was taken from: start <= now < reset |
| `LimitWindows.SameKeyIffSameWindow` | packages/application/src/services/asset-limit.service.ts:289-323 | Two instants get the same start exactly when they lie in the same window, and then the whole window is the same |
| `LimitWindows.ResetStartsNextWindow` | packages/application/src/services/asset-limit.service.ts:289-323 | One window's reset is the start of the next: the windows tile time |
| `LimitWindows.WindowShapes` | packages/application/src/services/asset-limit.service.ts:293-307 | In any time zone weeks start on a Monday and run over seven local days and days over one; a month runs from its first, the day within the year that the table of section 21.4.1 of ECMA-262 gives, over its 28 to 31 days, however long the days are |
| `LimitWindows.UtcIsValid` | packages/application/src/services/asset-limit.service.ts:289-323 | Universal time, of equally long days from 1 January 1970 on, is one of the time zones the results hold in |
| `LimitWindows.BoundariesInDays` | packages/application/src/services/asset-limit.service.ts:289-307 | The overflowing date arithmetic lands on midnight of today, the Monday at or before it and the first of its month, and on the day, Monday and first that follow |
| `LimitWindows.DayInsideWeekAndMonth` | packages/application/src/services/asset-limit.service.ts:289-307 | Instants of one day share their week and their month |
| `Calendar.MakeDayInvertsReaders` | packages/application/src/services/asset-limit.service.ts:290-307 | Dates read off a day and put back with a shifted month or date land where they should, across December and leap February |
| `Calendar.YearStartsAgree` | packages/application/src/services/asset-limit.service.ts:290-307 | The cumulative month starts agree with DayFromYear of section 21.4.1 of ECMA-262 for every year |
| `Calendar.MonthStartsAgree` | packages/application/src/services/asset-limit.service.ts:290-307 | And with the day within the year of the same section for every month of every year, leap or not |
| `Calendar.OneMonthHoldsADay` | packages/application/src/services/asset-limit.service.ts:306-307 | A day lies in exactly one month |
| `Amounts.AmountRoundTrip` | apps/owner-ui/src/utils/asset-amounts.ts:80-92 | For every asset and base value: printing it into the form and reading it back gives the value rounded to twenty significant digits, the nearest such and the larger on a tie, and the value itself if and only if it has at most twenty; a missing value prints as nothing |
| `Amounts.PrintersAgree` | apps/owner-ui/src/utils/asset-amounts.ts:230-235 | The decimal printer and the string printer agree on an amount if and only if it has at most twenty significant digits |
| `Amounts.DisplayIsExact` | apps/owner-ui/src/components/DashboardScreen.tsx:1968-1979 | The string printer is exact for amounts of any length and any decimals, with no trailing zero after the point |
| `Amounts.CompactTruncates` | apps/owner-ui/src/components/DashboardScreen.tsx:1950-1966 | The compact form reads back as the amount truncated to whole millionths, off by less than 10^-6 and never above, and has no trailing zero after its point |
| `Amounts.AcceptedAmounts` | apps/owner-ui/src/utils/asset-amounts.ts:141-228 | In every unit the form offers, with its decimals: which inputs are accepted, which error every other meets, that the conversion is never found imprecise, and the value returned |
| `Amounts.NumberText` | apps/owner-ui/src/utils/asset-amounts.ts:154-156 | What the number pattern matches, and the decimals and the value of what it matches: digits alone, or digits on both sides of one point |
| `Amounts.ExactExactlyWhenItFits` | apps/owner-ui/src/utils/asset-amounts.ts:209-227 | An accepted input is taken at its exact value if and only if it is typed in base units or that value has at most twenty significant digits |
| `Amounts.GweiElsewhere` | apps/owner-ui/src/utils/asset-amounts.ts:245-251 | Gwei on an asset without it is rounded as typed and accepted only if that leaves a whole number |
| `Amounts.FormatIsShortest` | apps/owner-ui/src/utils/asset-amounts.ts:230-235 | Division, fixed-point printing and the zero-stripping pattern give the shortest text of the rounded amount |
| `Amounts.ReadShortest` | apps/owner-ui/src/utils/asset-amounts.ts:230-235 | The shortest text of an amount reads back as exactly that amount |
| `Decimals.FixedExactlyWhenFits` | apps/owner-ui/src/utils/asset-amounts.ts:209-212 | Rounding to the default precision changes nothing if and only if the number has at most twenty significant digits |
| `Decimals.RoundedFits` | apps/owner-ui/src/utils/asset-amounts.ts:230-235 | A rounded number has at most twenty significant digits even when rounding carries, so rounding twice is rounding once |
| `Decimals.RoundingScales` | apps/owner-ui/src/utils/asset-amounts.ts:209-212 | Rounding commutes with moving the decimal point |
| `Decimals.RoundingError` | apps/owner-ui/src/utils/asset-amounts.ts:230-235 | Rounding keeps as many zeros at the end as digits are given up, is off by at most half a unit of the last digit kept, and takes the larger number on a tie; numbers of at most twenty digits stay |
| `Decimals.DigitsInWords` | apps/owner-ui/src/utils/asset-amounts.ts:230-235 | Digit strings have their usual value in base ten |
| `Text.TrimKeepsMiddle` | apps/owner-ui/src/utils/asset-amounts.ts:147-147 | Trimming removes white space from the two ends and nothing else |
| `Text.TrimmedAway` | apps/owner-ui/src/utils/asset-amounts.ts:147-147 | Which characters are white space, one by one, as sections 12.2 and 12.3 of ECMA-262 list them |
| `AddressBook.AddressBookService.Create` | packages/application/src/services/address-book.service.ts:130-169 | A contact is created exactly when it has a name, each given address is accepted by its chain's normalizer and there is one, and no one has its case-folded name; each stored field and each error is given, and otherwise nothing is written |
| `AddressBook.AddressBookService.Update` | packages/application/src/services/address-book.service.ts:171-212 | The contact of the name is replaced under its own identity and creation time exactly when its input is accepted and no one else has the new case-folded name; each stored field and each error is given, and otherwise nothing is written |
| `AddressBook.AddressBookService.DeleteContact` | packages/application/src/services/address-book.service.ts:214-246 | The named contact and only it is gone, with its audit record; an unknown or blank name changes nothing |
| `AddressBook.AddressBookService.LookupByAddress` | packages/application/src/services/address-book.service.ts:102-128 | The first of the two chains, Ethereum before Nervos after 0x and otherwise after it, that accepts the trimmed address decides; the names are those of exactly the contacts whose raw address on that chain normalizes to the same value |
| `AddressBook.AddressBookService.Resolve` | packages/application/src/services/address-book.service.ts:269-321 | An address given directly resolves, if and only if the trimmed text is not blank and the normalizer of the chain accepts it, to that normalizer's value with no contact name, and otherwise to that normalizer's error; a name resolves to the stored normalized address of its contact on the chain; a blank target, an unknown name and a contact without an address there each have their own error |
| `AddressBook.AddressBookService.DetectLookupAddress` | packages/application/src/services/address-book.service.ts:424-445 | Finds the Ethereum form if that is accepted and the address starts with 0x or Nervos rejects it, else the Nervos form if that is accepted, else nothing |
| `AddressBook.AddressBookService.GetByNormalizedName` | packages/infrastructure/src/repositories/sqlite-repositories.ts:151-159 | Finds a contact exactly when some contact has the case-folded name |
| `AddressBook.AddressBookService.GetByName` | packages/infrastructure/src/repositories/sqlite-repositories.ts:141-149 | Finds the one contact of the name if there is one |
| `AddressBook.AddressBookService.ListByNormalizedAddress` | packages/infrastructure/src/repositories/sqlite-repositories.ts:182-196 | The loop over the stored column finds exactly the names a scan that normalizes every raw address would |
| `AddressBook.LookupIsFullScan` | packages/application/src/services/address-book.service.ts:102-128 | The stored normalized column and normalizing every raw address select the same contacts |
| `AddressBook.AnyWritesKeepIndex` | packages/application/src/services/address-book.service.ts:147-161 | However checks and writes of several calls interleave, names stay unique, normalized fields stay those of the raw ones, and every contact keeps an address |
| `AddressBook.WriteKeepsIndex` | packages/infrastructure/src/repositories/sqlite-repositories.ts:198-215 | One save or delete keeps the index, a save that breaks name uniqueness being refused |
| `AddressBook.AcceptedInput` | packages/application/src/services/address-book.service.ts:360-391 | Exactly which input is accepted, field by field, and which error belongs to which fault |
| `AddressBook.InputIsStored` | packages/application/src/services/address-book.service.ts:360-391 | Of accepted input the trimmed name, its lower case, the trimmed note unless blank, and each trimmed address with its normalized form under its own chain are stored; an update keeps identity and creation time |
| `AddressBook.InputIsNormalized` | packages/application/src/services/address-book.service.ts:393-422 | Accepted input yields a contact whose normalized fields are those its raw fields normalize to, with at least one address |
| `AddressBook.NameAndAddressAgree` | packages/application/src/services/address-book.service.ts:269-321 | With idempotent normalizers that never both accept an address, looking up what a name resolves to returns that name, on the same chain |
| `AddressBook.ResolveThenLookup` | packages/application/src/services/address-book.service.ts:269-321 | For any normalizers: the lookup returns the name if and only if the resolved text is detected as an address the contact has |
| `AddressBook.LookupThenResolve` | packages/application/src/services/address-book.service.ts:102-128 | Every name a lookup returns resolves, on the chain found, to the address found |
| `AddressBook.NameResolves` | packages/application/src/services/address-book.service.ts:292-320 | A contact's name resolves to its stored normalized address on each chain it has one, and is refused on the others |

## Left out

- The chains, their SDKs, signing, key decryption and the RPC: a broadcast is a hash or an error, a lookup is an answer or an error, both arbitrary. The chain write lock around the broadcast is modelled as a lock (`PromiseLock`), not as part of a call's steps.
- SQLite, Kysely, migrations and row mappers: tables are maps, transactions are atomic and serialized. Reading the policy and the reservations inside one admission is one step in `Admission`.
- The two-digit-year rule of `Date`. A time zone is any assignment of increasing local midnights to day numbers (`LimitWindows.ValidZone`); a zone that skips or repeats a calendar day, or changes its rules while the server runs, is not modelled, and neither is the ISO text of an instant.
- `now` is read once per step where the code reads the clock twice within one: the age of an operation and the time written into it, or the two times of a submitted operation. An admission has both of its readings.
- The fields `requestPayload`, `lastChainStatus` and `lastChainCheckedAt`, row ids of reservations and policies (rows are keyed by operation id and by chain and asset), and the window name beside a limit snapshot, which repeats the snapshot's own.
- Ids are assumed fresh. Amounts are positive and limits non-negative integers, as the request schemas guarantee.
- `mapTransferErrorCode`: the code of a failure is part of the failure a step throws.
- An error inside the catch block or a database error in a pass is the call or the pass stopping where it is.
- Every call of the transition system that is running when a pass lists is remembered by the pass only to state the discipline; the source keeps no such record.
- `Amounts`: the failure of the decimal constructor and the negative or non-finite result, which the number pattern before them rules out; the localized texts around the numbers, and the dash shown for a missing amount.
- `AddressBook.Ports`: normalizers and lower-casing are arbitrary functions, the same on every call. The order of names in a lookup, the LIKE search, `getAll` and the response mapping are left out.
- `AddressBook.AddressBookService.Create`: checks and writes run together; how they interleave with other calls is `AddressBook.AnyWritesKeepIndex`.
- Vault encryption, login, configuration, NestJS modules, the MCP tools, React components and localization: none of it decides what is modelled here.
