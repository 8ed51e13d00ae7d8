# A verified model of the Agent Bookkeeper engine

Agent Bookkeeper keeps an archive of agent transcripts. Its V1.5 engine is a durable catalog over SQLite tables: an
event ledger with per-record versions, one delivery queue per subscription (leased, fenced, ordered per record, at
least once), reconciliation of mutable source trees with guarded tombstones, a resumable integrity scrub, a bounded
controller run that feeds an idempotent consumer, and a bounded cache of verified copies. This project models those
five pieces together as one state machine and proves what the whole promises, over every run of it.

## How the model is built

- `Tables.dfy` and `Sources.dfy` give the tables as values and the effect of each transaction as a function.
  `Catalog.dfy` has the class whose fields are the tables; each of its methods is proved to have exactly the effect
  of its function. Runs (`Run`, `RunDb`) interleave the transactions in any order, with any arguments.
- `Ledger.dfy`, `Queue.dfy`, `Admission.dfy`, `QueueLaws.dfy`, `Owed.dfy`, `ReplayModes.dfy` and `Grace.dfy` prove the
  invariants and the whole-run laws of the ledger, the queue and the tombstone grace.
- `LedgerEffects.dfy`, `QueueEffects.dfy`, `SourceEffects.dfy` and `ScrubEffects.dfy` say what each transaction does,
  column by column, and what it refuses, in terms of the rows alone; `SweepEffects.dfy`, `SweepReports.dfy` and
  `SweepCommits.dfy` say the same of a sweep: when it must fail, what it hashes and counts, and what it leaves
  committed.
- `Consumer.dfy` is the consumer as a state machine in which a crash may fall between any two steps; `Controller.dfy`
  has the controller run and the MemPalace consumer as methods, each returning the engine steps it performed, and
  `Turns.dfy` accounts for a run in the catalog's own rows.
- `Cache.dfy` and `Payload.dfy` are the reservation accounting and the verified copy, against an adversary who
  chooses every read.
- `Files.dfy`, `Scrub.dfy`, `ScrubLaws.dfy` and `ScrubBudget.dfy` are the scrub, `ScrubMends.dfy` what a cycle of it
  achieves. `Scan.dfy` is the sweep, `Honesty.dfy` the invariant behind skipping a hash, `Crashes.dfy` and `Visits.dfy`
  what crashes and scrub visits do to it, `Converge.dfy` and `Convergence.dfy` what sweeps of one tree do step by step,
  `Stranding.dfy` which files they cannot help, `Movers.dfy` two histories that produce one, and `Quiescence.dfy` the
  convergence proof. `SweepRuns.dfy` ties all of it to runs. `Reconciler.dfy` has both loops as methods, proved against
  those definitions.

Choices that hold throughout:

- A record, revision, subscription or delivery is named by its position in its table, so a new name is always new.
  Event identities and lease tokens come from one growing counter, which stands for fresh UUIDs.
- A transaction is atomic and an error before its commit changes nothing. Operations made of several transactions
  (`observe_present_from_source`, the commit loop of a sweep, a scrub visit) are several steps.
- Time is an integer supplied by the caller and may go backwards. The digest is a parameter.
- What a reader, a directory walk or a consumer process answers is an argument, chosen freely.
- A receipt is the record of its fields; the JSON text the code compares is a function of the same fields.

## What was found

- `VerifiedReader::finish` keeps reading after the copy loop saw an end of file. Bytes that appear in between are
  hashed and checked but never written, so a successful `materialize` can publish a file that is not the verified
  stream. It publishes the expected revision if and only if the published file has the length the descriptor names
  (`PublishedIsVerifiedIff`, and the contract of `Materialize`): comparing those two lengths is the missing guard. A
  three-read example shows the difference (`LateBytesAreCheckedButNotPublished`). `docs/payload-delivery-contract.md:64`
  promises a file validated as a complete revision. The MemPalace consumer hashes the file again, so it refuses a short
  one; any other consumer has to compare the length itself.
- A file can be stranded: its fingerprint counts as admitted, so sweeps skip its hash, while its record is not active
  where the file is. Convergence is proved after every history whatever, and says exactly what stranding costs
  (`ReconciliationConverges`): of the files within the limits, an unchanging tree's sweeps make active precisely those
  that were not stranded at the start or that a scrub visit has mended since; everything else the sweeps promise
  (admission in time, tombstones, silence) holds regardless. No sweep ever frees a stranded file (`StrandedForGood`);
  a scrub visit does if the source owns its record (`VisitMends`), as it does after one successful sweep if there is a
  record at all (`SweptFilesAreOwned`).
- Two kinds of step can strand a file. A sweep that crashes among its commits, before its completion drops old
  observations, keeps admitted fingerprints true if and only if no file observed by then has moved away from a place
  whose fingerprint is still admitted (`CrashAmongCommitsIsHonestIff`, for a crash between any two transactions). A
  scrub visit keeps them true if and only if no admitted fingerprint of the record it observes stands for another place
  or revision (`VisitIsHonestIff`). In both `OneCrashStrandsTheFile` and `OneScrubStrandsTheFile` a file is swept, moves,
  is noticed there, and moves back. `ScanKeepsHonesty` shows that a sweep which fails does so before its first commit.
- The scrub checks its byte budget against the length in the fingerprint and then counts the length it hashed, so two
  files can exceed it (`GrowthEscapesTheBudget`). A pass stays within the larger of the budget and its first non-empty
  file, whatever the budget, if and only if at each file it goes on to the bytes counted are within what it took to get
  there (`EveryBudgetHoldsIff`); when no hashed file shrank under its fingerprint, that is if and only if none after
  the first non-empty one grew (`EveryBudgetHoldsIffNoneGrowsLate`). The excess is at most the largest such growth
  (`CountedBytesAreBounded`).

Where documentation and code differ, the model follows the code. `docs/payload-delivery-contract.md:93` has consumers
persist the greatest applied version and reject stale attempts: the MemPalace consumer keeps receipts per event
instead, and non-decreasing versions are proved of it without such a check, for one consumer process at a time. Among
several the order holds of everything they do while they hold their leases (`HoldersComeInOrder`), and nothing is
promised of an ingestion that outlasts its lease. The contiguous cursor of
`docs/payload-delivery-contract.md:124` and operator retries of dead letters at lines 115-117 do not exist in the code, so
blocked and dead-lettered rows are final here. Every event the catalog commits carries its record's revision and a
location (`AttemptsStayWithinTheLimit`), so the consumer's branch for deliveries without bytes is modelled but never
taken by rows the catalog produced.

## Model

| member | source | states |
|---|---|---|
| Backoff.BackoffIsCappedExponential | src/delivery.rs:788-802 | With a cap that fits 63 bits, the saturating, shift-capped delay is the mathematical min(initial * 2^(attempt-1), max) for every attempt |
| Backoff.BackoffIsBoundedAndMonotone | src/delivery.rs:788-802 | The delay lies between initial and max and never shrinks with attempts |
| Tables.FindRecord | src/catalog.rs:1123-1195 | Finds a record with the identity, or there is none |
| Tables.FindRevision | src/catalog.rs:1289-1330 | Finds the record's row for this revision, or there is none |
| Tables.SelectUpTo | src/delivery.rs:432-453 | The selected row is eligible and least in lease order; none means no row is eligible |
| Tables.OutcomeState | src/delivery.rs:779-786 | Every outcome is final, and releases later versions exactly when the outcome advances record order |
| Ledger.TransitionKeepsLedger | src/catalog.rs:1332-1401 | A lawful transition keeps dense versions, increasing sequences and rows equal to the replay |
| Ledger.ObservationTakesEffect | src/catalog.rs:974-1059 | After an observation the identity is active where and as observed, and no other record moved |
| Ledger.ObservationIsSilentIff | src/catalog.rs:974-1059 | An observation emits nothing if and only if the record already was as observed |
| Ledger.ReobservationIsIdempotent | src/catalog.rs:974-1059 | Observing the same thing again changes nothing at all, deliveries included |
| Ledger.TombstoneKeepsLedger | src/catalog.rs:1068-1098 | A tombstone keeps the ledger invariant |
| Ledger.ApplyKeepsLedger | src/catalog.rs:974-1098 | Every transaction keeps the ledger invariant |
| Ledger.RunKeepsLedger | src/catalog.rs:1332-1401 | So does every run |
| Ledger.LawfulVersionsAreDense | src/catalog.rs:1341-1399 | In a lawful history a record's versions are exactly 1 to n |
| Ledger.RecordsAreTheReplayOfTheLedger | src/catalog.rs:1332-1401 | In every reachable state the history is lawful, each record's versions are 1..n, and its row is its last event's state, location and revision |
| LedgerEffects.TransitionTakesEffect | src/catalog.rs:1332-1401 | One transition writes the record's next version, one event with the next sequence, and for every subscription, paused ones included, one row with the event's columns, blocked exactly where its kind was not accepted |
| LedgerEffects.ObservationEmits | src/catalog.rs:974-1059 | An observation says exactly what changed: a restoration first if the record was tombstoned, a revision if the bytes are new, a move if only the place is, and nothing otherwise; a revision is stored once per record |
| LedgerEffects.TombstoneTakesEffect | src/catalog.rs:1068-1098 | A tombstone of an active record keeps its place and revision; of any other identity it does nothing |
| Queue.LeaseNextCases | src/delivery.rs:368-482 | What leasing can do: nothing, expire, or expire and grant one eligible row within the limit |
| Queue.ReleaseKeepsQueue | src/delivery.rs:484-583 | Settling, retrying or blocking keeps the queue invariant |
| Queue.LeasedRowKeepsQueue | src/delivery.rs:455-480 | Leasing an unobstructed row below the limit keeps the queue invariant |
| Queue.TransitionKeepsQueue | src/delivery.rs:639-678 | Fanning an event out keeps the queue invariant, since its version is above all earlier ones |
| Queue.CreateKeepsQueue | src/delivery.rs:258-366 | So does creating a subscription in either mode |
| Queue.ApplyKeepsStore | src/delivery.rs:258-725 | Every transaction keeps the joint invariant of ledger and queue, and rows only evolve as their life cycle allows |
| Queue.ReachableStoresAreSound | src/delivery.rs:258-725 | The joint invariant holds in every reachable state |
| Admission.UnacceptedKindsAreNeverLeased | src/delivery.rs:727-733 | In every reachable state a row whose kind its subscription does not accept sits blocked and was never leased; any other row never leased is queued |
| QueueLaws.LeasedRowsFollowSettledOnes | src/delivery.rs:432-453 | A row ever leased has all lower versions of its record in an advancing state |
| QueueLaws.PerRecordOrder | src/delivery.rs:432-453 | In every reachable state at most one version of a record is leased, advanced versions form a prefix, and a barrier leaves later versions unleased |
| QueueLaws.HoldersComeInOrder | src/delivery.rs:432-453 | However many consumers serve a subscription, whoever holds a lease on a record holds no lower version than any earlier holder |
| QueueLaws.BarriersHoldForever | src/delivery.rs:484-583 | A blocked or dead-lettered row never changes and bars every later version for ever |
| QueueLaws.ActiveLeasesStayWithinTheLimit | src/delivery.rs:423-431 | No subscription ever holds more leases than its limit |
| QueueLaws.AttemptsStayWithinTheLimit | src/delivery.rs:391-475 | Queued rows have attempts to spare, leased rows between 1 and the limit, and every row has a revision and a location |
| QueueLaws.CountsAccountForEveryRow | src/delivery.rs:585-621 | The seven counts sum to the subscription's rows |
| QueueLaws.AtMostOneWin | src/delivery.rs:495-580 | Over any run at most one settle, retry or block with a given lease succeeds |
| QueueLaws.LeaseFencing | src/delivery.rs:391-580 | For an issued lease, in every later state: it is usable or reclaimable and never both, its token implies its attempt, and once lost it never succeeds again |
| QueueLaws.GrantsAreAttempts | src/delivery.rs:455-480 | Leases granted equal attempts spent |
| QueueLaws.GrantsAreBounded | src/delivery.rs:391-475 | A subscription is granted at most max_attempts leases per row over its whole life |
| QueueLaws.WorkOpsUseUpWork | src/delivery.rs:391-637 | Every lease, expiry, settle, retry or block that changes a row strictly reduces the work measure, and pausing or resuming leaves it alone |
| QueueLaws.DeliveryWorkTerminates | src/delivery.rs:391-637 | With no new events, the row changes of any run, pauses and resumptions included, are bounded by the work at its start |
| QueueLaws.LeaseNextIsTotal | src/delivery.rs:368-482 | An enabled subscription gets a lease if and only if it has capacity and an eligible row, and then the least one |
| QueueLaws.DrainingIsTotalAndInOrder | src/delivery.rs:368-515 | Where every row advances or is queued and ready, a lease-and-acknowledge loop delivers every queued event once, in order, acknowledges exactly those rows, and leaves every row advancing |
| QueueEffects.RetryTakesEffect | src/delivery.rs:517-553 | A retry queues a held row again after min(initial * 2^(attempt-1), max), or dead-letters it once its attempts are spent, and changes no other row; it has no effect for an unknown subscription, an instant beyond 64 bits or a lease not held |
| QueueEffects.LeasingTakesEffect | src/delivery.rs:388-480 | Lapsed leases are given back, each by its own attempts; then, if fewer rows than the limit are leased, the first row that is due and has no unsettled lower version is leased under a fresh token; there is no lease only if there is no such row or no room |
| QueueEffects.LeasingIsRefused | src/delivery.rs:368-410 | Exactly which calls fail, and that a paused subscription gets no lease and has no row given back |
| QueueEffects.SettlingTakesEffect | src/delivery.rs:484-515 | A held lease is settled in the state named by the outcome, at that time, and nothing else changes; any other lease is stale |
| QueueEffects.CreatedOnTheCallersTerms | src/delivery.rs:258-366 | A subscription keeps the caller's limit, policy, mode and accepted kinds for ever: rows of kinds the caller refused stay blocked and unleased, and of the others those never leased are queued |
| Owed.DeliveriesAreExactlyTheEventsOwed | src/delivery.rs:297-363 | In every later state a replay has one row per event above its start, a rebuild one snapshot per active record and one row per later event, with unchanged payloads |
| Owed.NewEpochDrainsInOrder | src/delivery.rs:297-330 | A new all-accepting replay drains its backlog in sequence order |
| Owed.ReadyReplaysDrainInOrder | src/delivery.rs:297-330 | So does any later state of any replay in which no row is leased, waiting or a barrier, whatever was delivered before |
| Owed.OnlySettlingAcknowledges | src/delivery.rs:484-515 | Only a settlement with the acknowledged outcome acknowledges a row |
| Owed.TrackRunKeepsView | src/delivery.rs:484-515 | The fold of acknowledged deliveries is, per record, the latest acknowledged one |
| ReplayModes.FullyAcknowledgedEpochsHoldTheActiveRecords | src/delivery.rs:297-363 | For either replay mode, a consumer that folds its fully acknowledged deliveries holds exactly the catalog's active records |
| Sources.ProcessUpToIsRun | src/catalog.rs:836-949 | The tombstones of a completion are a run of ledger transactions |
| Sources.SourceRunsAreStoreRuns | src/catalog.rs:593-949 | Whatever sources do, the ledger and the queue see a run of their own transactions |
| Sources.ReachableDatabasesAreSound | src/catalog.rs:387-949 | The invariants of ledger and queue hold in every state of the whole database |
| Grace.HistoryAgrees | src/catalog.rs:836-949 | The ownership and candidate tables say what a separately kept history of sightings and misses says |
| Grace.TombstoneGraceIsExact | src/catalog.rs:836-949 | After any run, a completion emits a tombstone for a record if and only if it is active and the guarded misses since it was last seen or last crossed, this one included, are enough and the first of them lies at least the minimum time back; a minimum beyond 64 bits is never met |
| SourceEffects.CompletingTakesEffect | src/catalog.rs:836-949 | Completing closes the open generation and drops what it did not see; with guarded deletion each owned, unseen record gains one miss or, once the grace has run out, its tombstone, and every other record stands |
| SourceEffects.OutdatedScansDoNothing | src/catalog.rs:663-949 | Once a sweep is superseded or completed, nothing it tries has any effect in any later state |
| SourceEffects.RegistrationsStand | src/catalog.rs:593-660 | A source keeps its registration for ever, and its generations only grow |
| SourceEffects.OwnersNeverChange | src/catalog.rs:789-811 | A record once bound to a source stays bound to it, whatever happens |
| Catalog.Catalog.constructor | src/catalog.rs:1497-1717 | A new catalog is empty |
| Catalog.Catalog.Commit | src/catalog.rs:1332-1401 | Commits one version, its event, and one row for every subscription, paused ones included |
| Catalog.Catalog.ObservePresentAt | src/catalog.rs:974-1059 | Has the observation's effect on the tables and returns the events it appended |
| Catalog.Catalog.TombstoneAt | src/catalog.rs:1068-1098 | Has the tombstone's effect and returns its event, if any |
| Catalog.Catalog.CreateSubscription | src/delivery.rs:258-366 | Inserts the subscription and its initial rows, or refuses values SQLite cannot hold |
| Catalog.Catalog.SetSubscriptionEnabled | src/delivery.rs:623-637 | Sets the flag, or reports an unknown subscription |
| Catalog.Catalog.LeaseNext | src/delivery.rs:368-482 | Expires, then leases the least eligible row within the limit; any error leaves every table unchanged |
| Catalog.Catalog.SettleDelivery | src/delivery.rs:484-515 | Settles a held, unexpired lease, or reports it stale |
| Catalog.Catalog.RetryDelivery | src/delivery.rs:517-553 | Returns the row to the queue after its backoff, or to the dead letters once attempts are spent |
| Catalog.Catalog.BlockDelivery | src/delivery.rs:555-583 | Blocks the row of a held, unexpired lease |
| Catalog.Catalog.CountDeliveries | src/delivery.rs:585-621 | Returns the number of rows in each state |
| Catalog.Catalog.BeginSourceScan | src/catalog.rs:593-660 | Opens the next generation, or refuses another registration |
| Catalog.Catalog.ObserveSourceFingerprint | src/catalog.rs:663-755 | Counts unchanged observations and keeps hash admission only while the fingerprint is the same |
| Catalog.Catalog.MarkSourceFingerprintHashed | src/catalog.rs:757-785 | Admits the hash of a row seen in the current generation |
| Catalog.Catalog.MarkSourceRecordSeen | src/catalog.rs:789-811 | Binds the record to the source and clears its candidacy, or reports whose it is |
| Catalog.Catalog.ObservePresentFromSource | src/catalog.rs:813-830 | Checks the generation, observes, and marks seen, as three transactions |
| Catalog.Catalog.ProcessMissingRecord | src/catalog.rs:858-928 | Counts one miss and tombstones at the threshold |
| Catalog.Catalog.CompleteSourceScan | src/catalog.rs:836-949 | Processes the missing records, closes the generation, and drops stale observations |
| Catalog.Catalog.AdvanceSourceScrub | src/catalog.rs:387-440 | Moves the cursor, or clears it and counts a cycle |
| Catalog.Catalog.ObserveScrubbedPresentAt | src/catalog.rs:445-470 | Observes only a record the source owns, touching neither presence nor candidacy |
| Consumer.ReceiptsNeverConflict | src/mempalace.rs:320-359 | A receipt found for the lease in hand is the one the lease would write |
| Consumer.StepKeepsEngine | src/mempalace.rs:181-231 | Every step of lease, ingest, receipt, settlement, retry (also after a durable receipt), crash or foreign work keeps the engine invariant |
| Consumer.RunKeepsEngine | src/controller.rs:147-261 | So does every run |
| Consumer.EndToEnd | src/mempalace.rs:181-231 | Over any run with crashes: ingested versions never decrease per record, nothing is ingested after its receipt, every acknowledged delivery has its receipt, and no receipt conflicts |
| Controller.MempalaceConsumer.ApplyInner | src/mempalace.rs:181-231 | A delivery is accepted if and only if its payload is the declared one, or declared absent, and either its own receipt exists or the runner and the receipt succeed; the answer is acknowledged with bytes and ignored without; each refusal has its exact cause, and the requests and receipts change by exactly this delivery |
| Controller.SettlementLetsGo | src/delivery.rs:484-583 | Within a run, settling or blocking a lease just granted succeeds, and retrying it succeeds or overflows; none finds it stale |
| Controller.Serve | src/controller.rs:180-255 | Exactly when an admitted delivery is settled, retried, blocked or refused, what that does to the catalog, and that no cache capacity is lost unless a removal fails |
| Controller.ServeWithin | src/controller.rs:161-179 | A delivery is deferred, by a retry, exactly when its declared bytes would exceed the limit |
| Turns.TurnTakesEffect | src/controller.rs:147-261 | One turn grants a lease on a row that carries bytes and was not acknowledged, leaves that row as the report says, and acknowledges it if it settled it, and no other |
| Turns.TurnsAccount | src/controller.rs:147-261 | After any sequence of turns the rows newly acknowledged are exactly the settled ones, the settled bytes are the lengths of their revisions, and rows of other subscriptions never moved |
| Controller.RunPathConsumer | src/controller.rs:147-261 | A run that returns Ok made at most max_deliveries leases, reports exactly the leases and settlements that happened, all but perhaps the last settled; the rows that became acknowledged are exactly the settled ones, and their bytes are the bytes admitted, within the limit; short of its limits it left nothing to lease; it holds no lease and no cache capacity; no run meets a stale lease, and over any history MemPalace is asked for no lower version after a higher one |
| Cache.ReturnIsExact | src/payload.rs:335-341 | Returning an unreleased reservation never saturates and keeps the accounts balanced |
| Cache.CacheAccountingIsExact | src/payload.rs:252-341 | Over every interleaving, the active counters equal the count and sum of unreleased reservations, within the limits |
| Payload.RevisionFromReader | src/domain.rs:189-210 | The revision of a stream does not depend on how it was chunked, and any read error is an error |
| Payload.StreamsEndWhereTheyDo | src/payload.rs:207-218 | However a stream is cut up, all its pieces are taken, up to where it runs out, reads empty or fails |
| Payload.VerifiedReader.Read | src/payload.rs:470-485 | Every byte handed out is hashed, nothing else is, and a finished reader gives none |
| Payload.VerifiedReader.Finish | src/payload.rs:438-463 | After any earlier reads, success means the whole stream is the expected revision under an unchanged fingerprint |
| Payload.PublishedIsVerifiedIff | src/payload.rs:202-234 | After a successful copy the published bytes are the verified stream if and only if they are as many as the expected revision has |
| Payload.LateBytesAreCheckedButNotPublished | src/payload.rs:208-219 | A file for which the copy succeeds and the published bytes are short |
| Payload.SteadyFilesMaterialize | src/payload.rs:202-234 | A file that stands still is published whole, however its reads are cut |
| Payload.MaterializationCache.Reserve | src/payload.rs:252-276 | Reserves exactly when all three limits allow it |
| Payload.MaterializationCache.ReleaseReservation | src/payload.rs:278-280 | Returns one reservation exactly |
| Payload.MaterializationCache.CopyToEnd | src/payload.rs:207-218 | Writes exactly what the reader hashed up to the first end of file |
| Payload.MaterializationCache.Copy | src/payload.rs:202-234 | Succeeds exactly when opening, both reads to the end, the fingerprints, the digest and publication all do |
| Payload.MaterializationCache.Materialize | src/payload.rs:191-250 | Publishes the copy under its own reservation, or gives the reservation back; the file has the expected revision if and only if it has the expected length |
| Payload.MaterializedLease.RemoveAndRelease | src/payload.rs:309-327 | Returns the reservation at most once, and keeps it when removal fails |
| Files.LocationOrderIsTotal | src/source_fs.rs:836-841 | The location order is total and strict |
| Files.LocationOrderIsTransitive | src/source_fs.rs:836-841 | And transitive |
| Files.LocationOrderIsByRoleThenPath | src/source_fs.rs:836-841 | It compares roles and then paths, each by the first character in which they differ |
| ScrubEffects.PassTakesEffect | src/source_fs.rs:594-732 | An invocation takes the files past its cursor in location order up to the first that stops it, for exactly the reason it gives; it observes those read well, moves past those that changed or hold no record, counts each, and clears the cursor only at the end of the listing under healthy roots |
| Scrub.SortedIsAscending | src/source_fs.rs:603-623 | One file per location sorts strictly ascending |
| Scrub.PlanConsiders | src/source_fs.rs:630-719 | A pass considers a first part of the candidates past its cursor (it moves the durable cursor to each of them), all of them unless it stops, and stops at the budget only after hashing something |
| ScrubLaws.CursorFollowsTrail | src/catalog.rs:387-440 | The durable cursor is the last location considered, that is, moved to, whatever other transactions interleave |
| ScrubLaws.CycleSweeps | src/source_fs.rs:630-719 | Within a cycle the cursor strictly increases, and has moved to a location listed throughout if and only if it now stands at or past it |
| ScrubLaws.ScrubCoversEverything | src/source_fs.rs:594-732 | Over a whole cycle of budgeted, crashed and failed invocations and tree changes, the durable cursor moves exactly once to a location present throughout |
| ScrubLaws.CyclesFinishInTime | src/source_fs.rs:594-732 | Each unfinished invocation that returns Ok leaves strictly fewer of a fixed set of locations |
| ScrubLaws.FixedTreeFinishesInTime | src/source_fs.rs:594-732 | max(1, n) invocations that return Ok over the same n locations finish a cycle |
| ScrubMends.InvocationsAreQuietSteps | src/source_fs.rs:594-732 | A scrub invocation over the tree, crashed anywhere, is a sequence of the visits between which sweeps converge |
| ScrubMends.ScrubMendsWhatItOwns | src/source_fs.rs:594-732 | A whole cycle over an unchanging tree, with sweeps and deliveries interleaved, visits each file listed throughout, and each owned at its visit is active at its location and hash at the end, stranded and over-limit ones included |
| ScrubBudget.CountedBytesAreBounded | src/source_fs.rs:638-647 | Counted bytes are the hashed ones, within the larger of the budget and the first non-empty file, plus the largest growth of a file hashed after it under an unchanged fingerprint |
| ScrubBudget.EveryBudgetHoldsIff | src/source_fs.rs:638-647 | A pass keeps within that larger of the two, for every budget, if and only if up to each file it goes on to the bytes counted are within what it took to get there |
| ScrubBudget.EveryBudgetHoldsIffNoneGrowsLate | src/source_fs.rs:638-647 | When no visited file shrank, that is if and only if no file after the first non-empty hashed one grew |
| ScrubBudget.GrowthEscapesTheBudget | src/source_fs.rs:638-697 | Two files whose shown lengths fit the budget and whose hashed lengths do not |
| Honesty.ObservationLeavesOthers | src/catalog.rs:974-1059 | Observing one identity leaves the record, revision and lookup of every other |
| Honesty.ScanKeepsHonesty | src/source_fs.rs:436-585 | Any truthful sweep keeps every admitted fingerprint that is watched true of an active record, whichever are watched, and fails only before its first commit |
| Crashes.CrashBeforeCommitsKeepsHonesty | src/source_fs.rs:484-556 | A crash between any two transactions before the commits keeps it too |
| Crashes.CrashAmongCommitsIsHonestIff | src/source_fs.rs:561-580 | A crash between any two transactions of the commits keeps it if and only if no file observed by then has moved from a place whose fingerprint is still admitted |
| Converge.ScanSweepsOnce | src/source_fs.rs:436-585 | A successful sweep of an unchanging tree counts every file once more, forgets no admission, and admits a ready file if there is one |
| Visits.VisitIsHonestIff | src/catalog.rs:445-470 | A scrub visit to an owned record keeps admitted fingerprints true if and only if none of that record stands for another place or revision |
| Visits.TreeVisitsKeepHonesty | src/source_fs.rs:648-719 | Visiting files of a tree hurts no watched fingerprint whose record no other file of the tree claims |
| Visits.VisitMends | src/catalog.rs:445-470 | A visit to a file whose record is owned makes it active as read, however it stood before |
| Convergence.HistoryIsHonest | src/source_fs.rs:436-585 | A fresh source is honest after any truthful history of sweeps that completed, failed, or crashed anywhere, of scrub visits and of deliveries, in which no crash and no visit displaced an admitted fingerprint |
| Convergence.PendingShrinks | src/source_fs.rs:484-556 | Once files are stable, each sweep leaves strictly fewer unadmitted ones |
| Convergence.NothingStaysPending | src/source_fs.rs:436-585 | After min observations - 1 + n successful sweeps all n files within the limits are admitted, with deliveries and scrub visits in between |
| Quiescence.WantedFilesBecomeActive | src/source_fs.rs:436-585 | From any sound state they are then active at their own location and hash, each if and only if it was not stranded at the start or a scrub has mended it |
| Convergence.QuietSweepsSucceed | src/source_fs.rs:436-585 | Sweeps of a tree with distinct identities and true lengths do succeed |
| Quiescence.SweptFilesAreOwned | src/catalog.rs:789-811 | After a successful sweep the source owns the record, if there is one, of every file it met |
| Quiescence.OthersBecomeTombstoned | src/catalog.rs:836-949 | From any sound state, once the sweeps run out the grace, every owned record the tree does not name is tombstoned |
| Quiescence.ConvergedSweepIsSilent | src/source_fs.rs:436-585 | A sweep of a converged source changes neither the ledger nor any delivery, whether deletion is guarded or disabled |
| Quiescence.ReconciliationConverges | src/source_fs.rs:436-585 | After any history, crashed, failed and untruthful sweeps and any scrub visits included, successful sweeps of an unchanging tree, with deliveries and scrub visits in between, make its files active in time, exactly but for the stranded ones no scrub mended, and tombstone every other owned record after the grace; from then on, or at once where deletion is disabled, only deliveries and visits change anything |
| Quiescence.WellFormedTreesConverge | src/source_fs.rs:436-585 | The same without assuming success, for a tree with distinct identities and true lengths |
| Quiescence.HonestSourcesConverge | src/source_fs.rs:436-585 | After a truthful history in which nothing admitted was displaced, all files within the limits become active |
| SweepRuns.SweptStoresAreSound | src/source_fs.rs:436-585 | After any history of sweeps and scrub visits, untruthful, failed and crashed ones included, the invariants of ledger and queue hold |
| SweepRuns.SweptSourcesAreSound | src/source_fs.rs:436-585 | And so does what the tables of the source keep: one owner, rows within its generations, one registration |
| Stranding.StrandedForGood | src/source_fs.rs:484-556 | A file whose admitted fingerprint no longer speaks for its record stays so through any sweeps of an unchanging tree, until a scrub mends it |
| Stranding.StrandedUntilMended | src/source_fs.rs:436-719 | After any quiet steps a file of the tree is stranded if and only if it was and no scrub has mended it; in particular no visit to a file of the tree strands another |
| Movers.OneCrashStrandsTheFile | src/source_fs.rs:561-580 | From a fresh source, a sweep, a move and one crash after a first commit strand the file that moves back: sweeps succeed for ever, and it is only active again if a scrub mended it, as one visit would |
| Movers.OneScrubStrandsTheFile | src/source_fs.rs:648-719 | A sweep, a move and one scrub visit do the same |
| Reconciler.Reconciler.LookAtAll | src/source_fs.rs:448-472 | Parses the unchanged candidates in order, or stops at the first unreadable one |
| Reconciler.Reconciler.HasDuplicate | src/source_fs.rs:474-482 | Finds a duplicate live identity exactly when there is one |
| Reconciler.Reconciler.ObserveAll | src/source_fs.rs:484-556 | Observes, marks seen and decides each candidate up to the first error |
| Reconciler.Reconciler.CommitAll | src/source_fs.rs:561-575 | Commits and then admits each accepted file up to the first error, returning the events |
| SweepEffects.LookingTakes | src/source_fs.rs:448-472 | The first look takes exactly the unchanged records, in order, counts the changed files, and fails exactly on an unreadable one |
| SweepEffects.BadSweepsCommitNothing | src/source_fs.rs:436-560 | A sweep whose roots were unhealthy before or after it, whose walk failed, or that met an unreadable file or an identity claimed twice, fails with no event, no delivery, no further miss and no generation closed; with unhealthy roots at the start, with no change at all |
| SweepReports.CandidateStopsTheSweepIff | src/source_fs.rs:484-556 | A candidate stops the sweep if and only if the catalog refuses it, or it is due within the budget and cannot be read again or overflows the counter; a file that changed meanwhile never does |
| SweepReports.SweepsReportRightly | src/source_fs.rs:484-556 | The report counts every candidate once, by how it stood before the sweep; only due files read unchanged were hashed, none over the size limit, and their bytes stay within the budget, or the first non-empty file, plus growth |
| SweepCommits.SuccessfulSweepsCommitAll | src/source_fs.rs:561-585 | After a successful sweep every accepted file's record is active where it was found, as hashed, owned and seen, its fingerprint admitted, and the generation closed |
| Reconciler.Reconciler.Scan | src/source_fs.rs:436-585 | The sweep's exact effect on the database, its error or its report, and the events it appended; a sweep with unhealthy roots, before or after, is an error that leaves ledger and deliveries as they were |
| Reconciler.Reconciler.VisitCandidate | src/source_fs.rs:648-719 | One scrub visit: its verdict, its transactions, its events |
| Reconciler.Reconciler.ScrubSorted | src/source_fs.rs:630-719 | The scrub loop performs exactly the planned transactions and counters |
| Reconciler.Reconciler.Scrub | src/source_fs.rs:594-732 | An invocation commits the transactions of its pass, returns Ok exactly when nothing failed and else the first error, and reports what it considered, hashed and left untracked |

## Left out

- SQLite itself, migrations, blob and UUID conversions, backup and restore: a transaction is taken to be atomic.
- Directory walking, `openat`, guard files and JSONL parsing: an enumeration, a root check and a parse are inputs.
- The filename filter of the layout plugin and the `files_enumerated` counter: a listing holds candidate paths only.
- BLAKE3, JSON text, `flock`, `fsync`, renames, process spawning and hard-link aliases: foreign calls, or one step.
- `src/admin.rs`, `src/measurement.rs`, `src/bin`, `src/evidence.rs` and everything about V2: nothing harder to gain.
- Field validators, getters and database codecs, among them the path check of `CurrentExternalRevision::new`.
- The columns `created_at_ms`, `observed_at_ms`, `settlement_reason` and `last_error`: nothing reads them back.
- Overflow of the catalog's 64-bit and 32-bit counters: versions, sequences, generations and attempts are unbounded. Retry instants, lease expiries and hashed-byte counters keep their bounds.
- A clock that fails or a poisoned mutex: both only add an error return.
- The order of a rebuild's snapshots: the code sorts by random record id, the model by table position.
- The generic `PathConsumer`: the controller run is proved with the MemPalace consumer in its place.
- Controller.RunPathConsumer: no other process works on the catalog or the receipts during the run; `Consumer.dfy` is where foreign steps and crashes fall between any two of its own.
- The size of read buffers: a read returns any chunk the adversary likes.
- Several instants within one scrub visit: each visit has one, as has the end of a pass.
- Two reconcilers of one source at the same moment: sweeps and scrub invocations of a source follow one another, while transactions of every other kind interleave with scrubs freely.
- Quiescence.ReconciliationConverges: speaks of the only source of its catalog.
- ScrubMends.ScrubMendsWhatItOwns: of the sweeps interleaved with the cycle, no completion with guarded deletion falls inside it, because such a completion may tombstone a file that its own generation has not seen.
- Consumer.EndToEnd: one consumer process at a time serves the subscription; of several, only `QueueLaws.HoldersComeInOrder` speaks.
