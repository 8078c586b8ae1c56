# The MusicBrainz SQL loader's delete-reconciliation, modelled in Dafny

The loader consumes four fanout queues of MusicBrainz records and keeps relational tables in step with
the latest dump. Records are only ever upserted, so a relationship or link that upstream dropped would
stay for ever. When all four entity types have announced `extraction_complete` with one `started_at`, a
purge deletes the rows that extraction did not refresh. This project models that protocol and the write
path it relies on, and proves that it is right on every run: under duplicates, reordering, failed
attempts, dead letters, newer extractions and process restarts.

`dafny verify dfyconfig.toml` checks everything.

| file | what it models |
|---|---|
| `ChildRows`, `Convergence` | the rows a record derives, and what refreshing upserts converge to |
| `Latch` | the four-signal latch, against a reading of the whole history |
| `StalePurge` | one table's purge under the delete-fraction cap, and chains of purges |
| `Store` | the tables, the veto record, the writer and the record processor |
| `Reconciliation` | the purge object, gathering the veto, and one signal's handling |
| `ReconciliationRuns` | whole runs: records, rejections, signals with faults, resets, restarts |
| `SignalEffect` | what one signal deletes, records and answers, on the message, counts and rows themselves |
| `SettledBoundary` | which extractions a run decides, and exactly which boundary is refused |
| `RecordedVeto` | marks and the durable veto over runs, and exactly where the record is bypassed |
| `Replacement` | reconciliation refines "throw the table away and load the dump" |
| `PurgeVeto` | the durable veto history and its streak |
| `Delivery` | one delivery from body to settlement, the failure classes, the requeue budget |
| `MediaEdges`, `IssuedOn`, `RangeLock` | collapsing a media block, the shared edge table, its lock protocol |
| `LinkEvents` | the event log beside the entity upserts |
| `Consumers`, `ConsumerRuns`, `ConsumerLiveness` | the consumer registry: tags, gauge, grace timers, close, recovery; what its runs keep and what its operations bring about |
| `Text`, `Wrappers` | text order and an option type |

Code that updates state in place is a class or a method, proved equal to a function of the old state.
The lemmas about runs speak of those functions. Time is an integer clock, a table a map from natural key
to row, the cap an exact fraction, a failing statement a `Fault` chosen freely at each step.

## Premises

The code cannot check these, so the lemmas that need one name it in a `requires`.

- A record of an extraction commits at a time not before its `started_at` (`now >= b`).
- Every record of the extraction is committed before its deciding signal (`CommittedRecords(es) == dump`);
  one that was dead-lettered instead is a veto, so nothing is purged.
- No signal of a later extraction is handled before that decision (`SignalsUpTo`, `During`).
- A version names one `started_at` (`Named`), where a claim is about an extraction rather than a signal.
- The broker's return counter equals the number of earlier hand-outs (`AllCounted`). A deferral, and no
  nack, spends the queue's delivery limit, which dead-letters at the twentieth
  (`docs/database-resilience.md` lines 50-56).
- The broker never reuses a consumer tag that a pending timer has captured (`Fresh`).
- A handler, a close and a recovery are one step each, and a grace timer's body two: up to its cancel
  request, and from the broker's answer on. `RangeLock` takes every statement as a step.

## What turned out not to hold

- `docs/database-resilience.md` lines 72-76 says an earlier recorded veto of this extraction vetoes.
  The record consulted is that of the signal being handled, and a signal older than the boundary, which
  the latch ignores, still decides a latched extraction whose own decision failed. It consults its own
  version's record, and may purge past the recorded veto. `StragglerBypassesTheRecord` runs there from a
  new process; `RecordedVetoHonouredIff` says exactly when the record is honoured.
- `_reconciliation.py` lines 124-129 says a settled boundary is refused outright. Exactly the boundary
  this process decided last is: `RefusedIffLastDecided`. After an unusable `started_at` an older
  extraction can be decided, and then the newer one a second time: `ClearedLatchDecidesAgain`. From any
  state, decisions strictly increase until the next such event: `DecisionsIncrease`.
- `_reconciliation.py` lines 96-111 says interleaved extractions lose marks when the older one settles.
  A duplicate signal of an extraction that is already settled clears the next one's marks as well:
  `MarkLostIff`.
- The family of a collapsed medium is that of its first entry. So a block's rows are independent of item
  order exactly when its entries of one medium name one family: `RowsIgnoreOrderIff`.
- The link log stops chaining to a row when two messages for it race: exactly when the id that was read is
  no longer the stored one, or no row was read and the new id is not the stored one, which then changes
  without an event. `RacingSnapshotChainsIff` says so.
- The edges of a Discogs id are those of the last committed message naming it, which need not be the
  stored release's: `MatchesStoredIff`, `MovedReleaseLeavesEdges`, `OrphanedEdgesIff`.
- The requeue budget alone does not decide when a message is dead-lettered: restarts spend the queue's own
  limit, and reach it first exactly as `RestartsDeadLetterIff` says.

## Model

| member | source | states |
|---|---|---|
| Replacement.AnyPurgeIsReplacementIff | brainztableinator/_reconciliation.py:428-523 | headline: over tables of older rows, after any run (restarts, failures, dead letters, older or unusable signals) that committed every record of a dump, a purge at its start leaves each table literally as loading those records into an empty one would, if and only if nothing was stale or the stale share was strictly below the cap |
| Replacement.AnyPurgeLeavesTheDumpsKeysIff | brainztableinator/_reconciliation.py:428-523 | the keys left by such a run are exactly those the dump's records derive, iff the cap accepted |
| Replacement.AnyPurgeLeavesTheCatalogueIff | brainztableinator/_reconciliation.py:428-523 | when the dump's reports of a key agree on `ended`, what a reader sees is the dump's contents whatever order the records came in, iff the cap accepted |
| Replacement.ReconciliationRefinesReplacement | brainztableinator/brainztableinator.py:1133-1169 | four clean signals over any order and redelivery of the dump reach that purge, so each table ends as the fresh load, with the dump's keys, iff the cap accepts |
| Replacement.RetriedFourthSignalPurgesOnce | brainztableinator/brainztableinator.py:1216-1238 | any number of failed deliveries of the fourth signal before a good one end in one purge at the boundary |
| Replacement.RelationshipsAreTheFacts | brainztableinator/_record_processing.py:260-308 | when the dump's reports state one set of facts, agreeing on `ended`, the reconciled relationships are those facts, whichever endpoint or endpoints reported each, iff the cap accepts |
| Replacement.LinksAreTheFacts | brainztableinator/_record_processing.py:310-332 | the reconciled links are the (id, type, url, service) rows the dump's records state, iff the cap accepts |
| Replacement.RowsAreStated | brainztableinator/_record_processing.py:163-165 | a record's relationship rows are those one of its reports states: endpoints by direction, its own type by its fixed name, the alias spelling normalised, nulls defaulted, incomplete reports skipped |
| Replacement.LinkRowsAreStated | brainztableinator/_record_processing.py:310-332 | a record's link rows are its complete links, under its own id and type name |
| Replacement.KeysAfterPurge | brainztableinator/_reconciliation.py:474-523 | the exact key set after a replay and a purge, from any starting table and on both sides of that share |
| Replacement.FreshPartIsTheLoad | brainztableinator/_persistence.py:26-52 | at every point of such a run, the rows refreshed since the start are exactly the committed records' |
| ChildRows.MirrorDerivesSameKey | brainztableinator/_record_processing.py:267-293 | the forward report and the other endpoint's backward report derive one natural key whatever type spelling each uses, and one row iff they agree on `ended` |
| ChildRows.DerivedRelationshipsAre | brainztableinator/_record_processing.py:267-293 | a record's rows are those of its usable reports, no more and no fewer |
| ChildRows.DerivedLinksAre | brainztableinator/_record_processing.py:310-332 | which link rows a record derives, field by field |
| Convergence.Converges | brainztableinator/_persistence.py:26-37 | two runs reporting the same rows, in any order and any number of times, leave the same contents when reports agree on `ended` |
| Convergence.SwapIff | brainztableinator/_persistence.py:26-37 | two messages commute exactly when they leave the same `ended` on every shared key |
| Convergence.LiveRowIsFreshIff | brainztableinator/_persistence.py:34-52 | a re-sent row is fresh at the boundary iff the conflict refreshed it, it was new, or it was fresh already: the refresh on every conflict is what the purge needs |
| Convergence.RefreshChangesOnlyTimes | brainztableinator/_persistence.py:34-52 | with the refresh and without, a batch leaves the same rows with the same `ended` |
| Convergence.LastReportWins | brainztableinator/_persistence.py:255-262 | within a batch the last report of a key gives its row |
| Convergence.UnreportedKeyStays | brainztableinator/_persistence.py:26-52 | an upsert touches no key it does not report |
| Store.MusicBrainzWriter.UpsertRows | brainztableinator/_persistence.py:255-262 | a batch is the upserts of its rows in order, refreshing as the writer's flag says |
| Store.MusicBrainzRecordProcessor.InsertRelationships | brainztableinator/_record_processing.py:260-308 | the loop writes exactly the derived rows |
| Store.MusicBrainzRecordProcessor.InsertExternalLinks | brainztableinator/_record_processing.py:310-332 | the loop writes exactly the usable links |
| Store.MusicBrainzRecordProcessor.ProcessRecord | brainztableinator/_record_processing.py:361-416 | a record's child rows reach both tables in one transaction time |
| Store.Postgres.RecordExtraction | brainztableinator/_purge_veto.py:27-33 | the stored veto becomes the union of both |
| Latch.LatchMeetsItsReading | brainztableinator/_reconciliation.py:330-384 | after any history the boundary is the greatest usable start since the last clearing event, and each count is its type's latest at exactly that start |
| Latch.OrderAndRepetitionDoNotMatter | brainztableinator/_reconciliation.py:330-372 | permuting or repeating signals whose counts agree latches the same state |
| Latch.RestartOnlyNarrows | brainztableinator/_reconciliation.py:330-380 | the suffix alone never latches a later boundary, nor a signal the unrestarted process lacks |
| StalePurge.PurgeKeepsFreshRows | brainztableinator/_reconciliation.py:474-523 | a purge changes no row and removes only rows older than the boundary |
| StalePurge.PurgeKeepsExactly | brainztableinator/_reconciliation.py:498-516 | a purge keeps exactly the rows not older than the boundary, when they are all or the share of the others is strictly below the cap; otherwise every row |
| StalePurge.DefaultCapIsNineTenths | brainztableinator/_reconciliation.py:167 | the default refuses nine stale rows in ten and nothing smaller |
| StalePurge.ChainIsItsLastPurge | brainztableinator/_reconciliation.py:474-523 | a chain of earlier purges before one the cap accepts is that one purge |
| StalePurge.ChainRetains | brainztableinator/_reconciliation.py:474-523 | k purges leave more than (1 - cap)^k of a non-empty table, and never empty it |
| StalePurge.PurgeIsIdempotent | brainztableinator/_reconciliation.py:474-523 | a repeated purge deletes nothing |
| Reconciliation.StaleChildRowPurge.RecordCompletion | brainztableinator/_reconciliation.py:330-372 | meets the latch step, branch by branch |
| Reconciliation.StaleChildRowPurge.Reset | brainztableinator/_reconciliation.py:304-312 | clears boundary, signals and marks, and keeps the settled boundary |
| Reconciliation.StaleChildRowPurge.PurgeOne | brainztableinator/_reconciliation.py:474-523 | count, stale count, cap and delete come to the purged table and the number deleted |
| Reconciliation.StaleChildRowPurge.PurgeEach | brainztableinator/_reconciliation.py:445-465 | the table loop purges both tables, unless a statement fails |
| Reconciliation.StaleChildRowPurge.Purge | brainztableinator/_reconciliation.py:428-472 | veto and settle, or both deletions and settle, or failure with nothing changed |
| Reconciliation.GatherVeto | brainztableinator/brainztableinator.py:1077-1105 | broker, memory and stored record are merged before a decision and recorded, or the signal must come back |
| Reconciliation.ReconcileDeletedChildRows | brainztableinator/brainztableinator.py:1133-1169 | one delivery of a signal: the whole new state, and whether it may be acknowledged |
| ReconciliationRuns.DeletedExactlyWhen | brainztableinator/_reconciliation.py:445-523 | a row goes exactly when the signal purges, the row predates the deciding boundary and its table is under the cap; a row that stays is unchanged |
| SignalEffect.SignalDeletesExactly | brainztableinator/brainztableinator.py:1077-1169 | a signal deletes the rows not refreshed since the boundary exactly when every type signalled it with a non-zero count, it is not the one last decided, no mark is held, every dead-letter queue answered empty, nothing is recorded under the name it gives, PostgreSQL answered, and the table's stale share is below the cap |
| SignalEffect.BrokerDeadLetterVetoes | brainztableinator/brainztableinator.py:1090-1093 | a dead letter at the broker, or a queue that cannot be read, vetoes whatever else holds |
| SignalEffect.EmptyCountVetoes | brainztableinator/_reconciliation.py:423-425 | a type with no count or a zero count vetoes |
| SignalEffect.FinishedDecisionRecordsExactly | brainztableinator/brainztableinator.py:1090-1105 | a finished decision settles, clears the marks, and records under the name the signal gives exactly the earlier record, the marks in memory and the types the broker did not clear |
| SignalEffect.FinishesExactlyWhen | brainztableinator/brainztableinator.py:1133-1169 | a signal may be acknowledged exactly when it decides nothing, or PostgreSQL answered all its decision asked |
| SignalEffect.ReportedCountsAreTheRowsTaken | brainztableinator/_reconciliation.py:445-472 | the counts a purge returns are the rows it took from each table |
| ReconciliationRuns.GoodDecision | brainztableinator/brainztableinator.py:1077-1105 | a fault-free decision records what it gathered, settles, and purges iff nothing vetoed |
| RecordedVeto.VetoedVersionNeverPurges | brainztableinator/brainztableinator.py:1077-1105 | once a version's record is non-empty no later signal of it deletes a row, across any run, restarts included |
| RecordedVeto.RecordsOnlyGrow | brainztableinator/_purge_veto.py:27-33 | no run removes a type from a record |
| RecordedVeto.VetoIsRecorded | brainztableinator/brainztableinator.py:1077-1105 | a finished decision leaves exactly what it gathered on its signal's record |
| RecordedVeto.RecordedVetoHonouredIff | brainztableinator/brainztableinator.py:1092-1105 | the veto recorded for the extraction at the boundary is honoured iff the signal is not an older one on a full, undecided, unmarked and counted collection without a record of its own, or no table has a stale row it would give up |
| RecordedVeto.OwnSignalsHonourTheRecord | brainztableinator/brainztableinator.py:1092-1105 | a vetoed extraction's own signals are harmless at every later point, whatever boundary is latched |
| RecordedVeto.WrittenOrVetoedRowsAreSafe | brainztableinator/brainztableinator.py:1077-1189 | once a record was committed in the run, or its type is marked in memory, on the record or by the broker, no signal of this or an earlier extraction deletes a row it derives |
| RecordedVeto.StragglerBypassesTheRecord | brainztableinator/brainztableinator.py:1147-1164 | from a new process over any tables, a run in which an older signal purges past the newer extraction's recorded veto |
| RecordedVeto.DeadLetterProtectsForGood | brainztableinator/brainztableinator.py:1077-1105 | after a rejection and any run that clears no mark, the next keyed decision deletes nothing, and from then on no signal of that version ever deletes, restarts included |
| ReconciliationRuns.FreshRowsSurvive | brainztableinator/_reconciliation.py:498-516 | a row refreshed since `b` outlives every run that decides nothing past `b` |
| ReconciliationRuns.ResentRowsSurvive | brainztableinator/_persistence.py:26-52 | every row a record re-sends during the extraction survives it, from either endpoint |
| ReconciliationRuns.RestartedDeletesOnlyStale | brainztableinator/_reconciliation.py:374-426 | restart a process anywhere in its run: every row a later signal then deletes is older than the boundary the unrestarted run would have had |
| ReconciliationRuns.RunMeetsItsReading | brainztableinator/_reconciliation.py:330-384 | after any run of a process, boundary and counts are the declarative reading of the signals, resets and restarts it saw |
| SettledBoundary.DecisionsIncrease | brainztableinator/_reconciliation.py:350-443 | from any state until the next clearing event: the boundary never drops, decisions strictly increase, and each settles the boundary it decided; where the boundary was not behind the settled one at first, it never falls behind and the first decision passes it too |
| SettledBoundary.ClearedLatchDecidesAgain | brainztableinator/_reconciliation.py:340-348 | a run of a new process that decides an extraction, hears an unusable start, decides an older one, and then the first one a second time |
| SettledBoundary.UnfinishedRunOnlyMarks | brainztableinator/_reconciliation.py:428-443 | while no collection completes, whatever signals come and whatever fails, nothing is settled, recorded or decided, and the marks are exactly the types rejected |
| SettledBoundary.SettledIsLastDecided | brainztableinator/_reconciliation.py:401-443 | after any run the settled boundary is the last one this process decided |
| SettledBoundary.RefusedIffLastDecided | brainztableinator/_reconciliation.py:415-426 | after any run, a signal that completes a collection is refused iff its boundary is the last one decided |
| RecordedVeto.MarkLostIff | brainztableinator/_reconciliation.py:401-443 | a mark is lost exactly at a reset, a restart, or a signal on a full collection that is already settled or whose veto can be recorded |
| ReconciliationRuns.FailureChangesNothingDurable | brainztableinator/brainztableinator.py:1155-1166 | a failed attempt changes no table and no settled boundary, loses no mark or record, and adds to the latch only its own signal |
| ReconciliationRuns.FailedAttemptsAreInvisible | brainztableinator/brainztableinator.py:1133-1169 | any attempts against one broker answer, then a success, end in the state of one success |
| PurgeVeto.ConsecutiveVetoes | brainztableinator/_purge_veto.py:71-83 | the loop counts the extractions that vetoed and that only vetoing ones follow |
| PurgeVeto.NewestExtractionCounts | brainztableinator/_purge_veto.py:63-83 | recording a newest version makes the count the old one plus one if it vetoed, zero if not |
| PurgeVeto.RedeliveryNeverLowers | brainztableinator/_purge_veto.py:27-83 | recording a known version again never lowers the count |
| Delivery.HandleDataMessage | brainztableinator/brainztableinator.py:1192-1290 | the handler's outcome and state for every body, and a rejection it names is marked before it returns |
| Delivery.OnDataMessage | brainztableinator/brainztableinator.py:1293-1337 | the settlement and state of one delivery, shutdown and classified failures included |
| Delivery.FailedRecordSettles | brainztableinator/brainztableinator.py:439-464 | a class-54, data or integrity error rejects and marks a record at once; an outage or unknown error requeues it unchanged until 500 hand-outs, then does the same |
| Delivery.InvalidIsRejected | brainztableinator/brainztableinator.py:1192-1261 | an unreadable body or a missing, empty or non-UUID id is rejected and marked at once |
| Delivery.CommittedRecordSettles | brainztableinator/brainztableinator.py:1276-1290 | a valid record that commits is acknowledged with both tables upserted |
| Delivery.SignalSettles | brainztableinator/brainztableinator.py:1216-1238 | a signal is acknowledged, requeued or rejected as its handling and hand-outs say, and never adds a mark of its own |
| Delivery.NotAnObjectSettles | brainztableinator/brainztableinator.py:1192-1200 | a message that is not an object is retried within the budget |
| Delivery.HandoutsIsTheGreatest | brainztableinator/brainztableinator.py:407-417 | the hand-outs are the greatest counter stated, or zero |
| Delivery.DeliveryIsItsEvents | brainztableinator/brainztableinator.py:1192-1337 | every delivery is exactly the run events its settlement stands for, so the whole-run results apply to it |
| Delivery.SettledWithItsTrace | brainztableinator/brainztableinator.py:1172-1189 | a rejected record leaves its mark and nothing else, an acknowledged one its rows, a returning one nothing |
| Delivery.ComesBackIff | brainztableinator/brainztableinator.py:407-464 | an attempt gives the message back iff it was deferred, or failed retryably within the budget |
| Delivery.StillQueuedIff | brainztableinator/brainztableinator.py:420-464 | a message is still queued after n attempts iff each of them came back so and the deferrals stayed under the queue's delivery limit |
| Delivery.RetriesEnd | brainztableinator/brainztableinator.py:499-502 | an attempt past the budget that is not deferred settles any message, and no message is handed out more often than budget and delivery limit together allow |
| Delivery.FirstSettlementDecides | brainztableinator/brainztableinator.py:1293-1337 | the first attempt that does not give the message back decides for good |
| Delivery.RestartsDeadLetterIff | brainztableinator/brainztableinator.py:1293-1299 | a message that always comes back within the budget is dead-lettered iff its deferrals reach the delivery limit |
| Delivery.DeadLetteredExactlyAtTheBudget | brainztableinator/brainztableinator.py:420-437 | one that always fails retryably is dead-lettered at attempt MAX_REQUEUES + 1 and not before |
| MediaEdges.MediaEdgeRows | brainztableinator/_record_processing.py:215-243 | the dictionary loop and the sort are group-by-medium with summed quantities |
| MediaEdges.RowsAreStrictlySorted | brainztableinator/_record_processing.py:215-243 | one row a medium of the usable entries, strictly ascending |
| MediaEdges.RowMeaning | brainztableinator/_record_processing.py:202-243 | each row has the family of the first entry naming its medium, the vocabulary's label or else the id, and the entries' quantity |
| MediaEdges.RowExistsIff | brainztableinator/_record_processing.py:215-243 | a medium has a row iff an entry names it with a family |
| MediaEdges.MediumQuantity | brainztableinator/_record_processing.py:195-199 | a quantity in range counts as itself, anything else as one |
| Text.LessIff | brainztableinator/_record_processing.py:243 | the order of rows is code-point order: a proper prefix first, else the first differing character |
| MediaEdges.QuantityBounds | brainztableinator/_record_processing.py:195-199 | each row counts from one to 999,999,999 units for every contributing entry |
| MediaEdges.QuantityAdds | brainztableinator/_record_processing.py:215-243 | quantities add over concatenated blocks |
| MediaEdges.QuantityIgnoresOrder | brainztableinator/_record_processing.py:215-243 | quantities depend on the entries, not their order |
| MediaEdges.RowsConserveQuantity | brainztableinator/_record_processing.py:215-243 | the rows' total is the usable entries' normalised total |
| MediaEdges.RowsIgnoreOrderIff | brainztableinator/_record_processing.py:215-243 | a block's rows are the same in every order iff its usable entries of one medium name one family |
| IssuedOn.GraphStore.ReplaceReleaseMediaEdges | brainztableinator/_persistence.py:324-349 | delete-then-insert replaces the range; a duplicate key, and so a rollback, happens iff the rows repeat a medium |
| IssuedOn.InsertEdges | brainztableinator/_persistence.py:342-349 | the plain inserts over the pruned range succeed iff no medium repeats |
| IssuedOn.GraphStore.WriteReleaseMedia | brainztableinator/_record_processing.py:432-477 | one message's families, vocabulary and edges, nothing without a Discogs id; every edge's medium and every medium's family stay known |
| IssuedOn.WritesKeepReferences | brainztableinator/_persistence.py:271-301 | inserting families, then media, then edges keeps every reference, whichever entries were there before |
| IssuedOn.VocabularyIsFirstWriterWins | brainztableinator/_persistence.py:286-301 | an entry either loader wrote keeps its value, every medium ends up present, repetition adds nothing |
| IssuedOn.NewMediumIsItsFirstRow | brainztableinator/_persistence.py:286-301 | a new medium takes the family and label of the first row naming it |
| IssuedOn.IssuedOnHistory | brainztableinator/_record_processing.py:461-477 | after any run each row is the collapsed media of the last message naming its id; rows of other sources and ids are as they were |
| IssuedOn.OtherSourcesAreUntouched | brainztableinator/_persistence.py:324-349 | no run touches a row of another source than `musicbrainz` |
| IssuedOn.MatchesStoredIff | brainztableinator/_record_processing.py:519-550 | an id's edges match the stored release iff the last message naming the id collapses alike |
| IssuedOn.MovedReleaseLeavesEdges | brainztableinator/_record_processing.py:461-477 | after any run over any table, a release that changes or loses its id leaves the old id's edges as they were, those of the last message naming it |
| IssuedOn.OrphanedEdgesIff | brainztableinator/_record_processing.py:461-477 | an id no stored release names still holds edges iff the last message that named it had a usable medium |
| RangeLock.AtMostOneHolder | brainztableinator/_persistence.py:303-322 | in every interleaving at most one transaction of a range is past its lock |
| RangeLock.InsertNeverConflicts | brainztableinator/_persistence.py:337-349 | the plain insert never meets a key, committed or pending |
| RangeLock.RangeIsTheLastCommitters | brainztableinator/_persistence.py:303-349 | the committed range is the last committer's rows, whole |
| RangeLock.WaitersHoldNothing | brainztableinator/_record_processing.py:519-550 | the lock is taken first, so a waiting transaction holds none |
| RangeLock.HeldLockMakesProgress | brainztableinator/_persistence.py:303-322 | whoever holds a range can always take its next step |
| RangeLock.WaitingIsNeverStuck | brainztableinator/_persistence.py:303-322 | whoever waits can take the lock, or its holder can move |
| RangeLock.EndingReleases | brainztableinator/_persistence.py:303-322 | commit and abort release the range and no other, and an abort leaves no row |
| RangeLock.UnlockedWritersConflict | brainztableinator/_persistence.py:303-315 | without the lock, any two messages sharing a medium reach a duplicate key from an empty range |
| RangeLock.LockedWritersNeverConflict | brainztableinator/_persistence.py:303-349 | with it, no interleaving from the empty system does |
| LinkEvents.LinkStore.UpsertEntity | brainztableinator/_persistence.py:130-162 | one statement stores the id and appends the event exactly when a stored id changed |
| LinkEvents.LogReplaysToTheRow | brainztableinator/_persistence.py:130-253 | for any run over any ledger whose log replays to the row, the events still chain from the first id to the stored one, never without change, each of the kind its ids dictate |
| LinkEvents.RowWithoutEventsReplays | brainztableinator/_persistence.py:55-82 | a row that predates the log replays from the id it held, so the run result covers it |
| LinkEvents.OneEventPerChange | brainztableinator/_persistence.py:130-253 | over any ledger, a run adds to a row's events as many as its ids change |
| LinkEvents.RedeliveryAddsNothing | brainztableinator/_persistence.py:130-162 | a repeated message changes neither row nor log |
| LinkEvents.RacingSnapshotChainsIff | brainztableinator/_persistence.py:55-82 | with two transactions racing on a row, the log keeps chaining iff the id read was still the stored one; iff the id repeats it, when both are the row's first messages and no row was read |
| Consumers.ConsumerRegistry.CloseRabbitmqConnection | brainztableinator/brainztableinator.py:745-793 | which handles, tags and flags each combination of confirmed closings leaves, and the answer |
| Consumers.ConsumerRegistry.CancelAllConsumers | brainztableinator/brainztableinator.py:707-742 | timers are joined, then tags cancelled in order up to the first unconfirmed one |
| Consumers.ConsumerRegistry.RecoverConsumers | brainztableinator/brainztableinator.py:865-993 | close, reconnect, probe, set up, subscribe, and what each failure abandons |
| Consumers.ConsumerRegistry.ScheduleConsumerCancellation | brainztableinator/brainztableinator.py:650-704 | the type's timer is replaced by one holding the current tag |
| Consumers.ConsumerRegistry.WakeTimer | brainztableinator/brainztableinator.py:655-670 | a timer asks the broker to cancel its captured tag if that is still current, otherwise it ends |
| Consumers.ConsumerRegistry.AnswerTimer | brainztableinator/brainztableinator.py:670-697 | from the answer on: the tag dropped if still the captured one, the close behind the last consumer, the cleanup |
| Consumers.ConsumerRegistry.UnwindTimer | brainztableinator/brainztableinator.py:687-697 | a cancelled timer's cleanup, which asks for recovery when its request was with the broker |
| Consumers.ConsumerRegistry.StartConsumers | brainztableinator/brainztableinator.py:1627-1673 | what a start sets, up to wherever it fails |
| Consumers.ConsumerRegistry.HandleRecord | brainztableinator/brainztableinator.py:1200-1206 | a record withdraws completion and cancels the pending timer |
| Consumers.ConsumerRegistry.HandleExtractionComplete | brainztableinator/brainztableinator.py:1216-1238 | completion is withdrawn when the reconciliation failed, else the timer is armed again |
| ConsumerRuns.RunsKeepInv | brainztableinator/brainztableinator.py:549-560 | every run of complete and failed starts, messages, timers, closes, shutdowns and recoveries keeps the registry invariant |
| ConsumerRuns.GaugeCountsHeldTags | brainztableinator/brainztableinator.py:549-560 | the gauge is the number of held tags, and a held tag keeps a broker handle |
| ConsumerRuns.HeldTagsWereRegistered | brainztableinator/brainztableinator.py:549-560 | the registration evidence a close logs covers every held tag |
| ConsumerRuns.TagsDropOnlyWhenConfirmed | brainztableinator/brainztableinator.py:707-793 | a tag goes only on a confirmed cancel or a confirmed closing of what carried it |
| ConsumerRuns.CloseAnswersTruly | brainztableinator/brainztableinator.py:745-793 | true means no tag and no handle is left, false that a handle is and recovery is due |
| ConsumerLiveness.CloseSucceedsExactlyWhen | brainztableinator/brainztableinator.py:745-793 | a close succeeds exactly when the broker confirmed the connection's closing, or the channel's where no connection is held |
| ConsumerLiveness.StartSubscribesIff | brainztableinator/brainztableinator.py:1627-1673 | a start subscribes every type, with the broker's tags, iff the broker accepts every consumer |
| ConsumerLiveness.ConsumeStopsAtTheRefusal | brainztableinator/brainztableinator.py:1668-1673 | a refused consumer leaves exactly the types before it subscribed |
| ConsumerLiveness.FailedStartLeavesItsHandles | brainztableinator/brainztableinator.py:1627-1665 | a start that fails earlier subscribes nothing and leaves its handles for the close |
| ConsumerRuns.RecoveryRestartsEveryType | brainztableinator/brainztableinator.py:865-993 | a successful recovery leaves every type exactly the tag the broker just returned |
| ConsumerLiveness.RecoveryRestartsIff | brainztableinator/brainztableinator.py:865-993 | on every reachable registry a recovery restarts exactly when what is held closes, the broker connects, any type has a backlog, and every declaration and consumer is accepted; then exactly the types with a backlog stop being complete |
| ConsumerLiveness.IdleRecoveryStaysClosed | brainztableinator/brainztableinator.py:979-983 | with no backlog anywhere nothing is held afterwards and completion is untouched |
| ConsumerLiveness.RecoveryStopsWithoutABroker | brainztableinator/brainztableinator.py:869-886 | a recovery that cannot close or cannot connect changes nothing more |
| ConsumerLiveness.FailedRecoveryIsAbandoned | brainztableinator/brainztableinator.py:985-993 | a recovery that fails after connecting closes what it opened, or keeps the handle and asks again |
| ConsumerLiveness.CancelsUpToTheFirstUnconfirmed | brainztableinator/brainztableinator.py:724-741 | shutdown drops exactly the tags before the first unconfirmed consumer |
| ConsumerLiveness.ConfirmedShutdownDrains | brainztableinator/brainztableinator.py:707-742 | with every cancel confirmed no tag and no timer is left |
| ConsumerLiveness.CompletedTypeIsUnsubscribed | brainztableinator/brainztableinator.py:650-704 | a completion marker arms a timer that, undisturbed and confirmed, drops exactly the type's tag; refused, it drops none and asks for recovery |
| ConsumerLiveness.LastConsumerClosesTheConnection | brainztableinator/brainztableinator.py:683-686 | the connection is closed behind the last consumer exactly when every type is complete |
| ConsumerLiveness.CompleteIffLastSaysSo | brainztableinator/brainztableinator.py:1200-1238 | a type is complete exactly when its last message was an accepted completion marker, until a recovery finds a backlog for it |
| ConsumerRuns.TimerCancelsOnlyWhenQuiet | brainztableinator/brainztableinator.py:650-704 | a timer cancels only as its type's current one, with its tag still held, the type complete, and nothing of it handled since |
| ConsumerRuns.InterruptedCancelAsksForRecovery | brainztableinator/brainztableinator.py:687-697 | a record arriving while the cancel request is with the broker stops the timer: the tag stays and its cleanup asks for recovery |
| ConsumerRuns.ReplacedTimerLeavesItsSuccessor | brainztableinator/brainztableinator.py:694-704 | a replaced timer's late cleanup removes nothing of its successor |

## Left out

- Telemetry, spans, logging, the health endpoint, the progress reporter and the alert on repeated vetoes: observation only.
- `main`, signal handling, configuration, queue naming and declaration: wiring. `main` creates the purge before any consumer is registered, so `Delivery` takes one as given.
- The `common` package: its settlement mapping is taken as a transient failure requeued, a deterministic one rejected; `run_delivery` itself, write admission and the backoff's pacing are not part of this model.
- Native-id minting, identifier aliases and the entity rows' other columns.
- SQL text, psycopg, and PostgreSQL's hashes of the relationship key and of the lock's name: keys and locks are compared by value.
- Timestamp parsing and text stripping: a signal carries an optional integer start and its stripped texts. A count that is a boolean is taken as the integer it equals.
- The column-presence probes that switch the feature off, and the pool being absent.
- The event table's own idempotence constraint: distinct transaction times are assumed.
- Floating-point division in the cap: cross-multiplication of an exact fraction.
- The order PostgreSQL gives versions in the veto history: code-point order is assumed.
- Consumers.ConsumerRegistry.AnswerTimer: a timer cancelled during the connection close behind the last consumer is not captured, because a close is one step.
- Other asyncio interleavings inside one handler, close or recovery; `Delivery.HandleDataMessage` states the order of mark and settlement instead.
- An attempt whose connection is lost while it runs: it is the same as one more delivery to the tables and the marks, and is not counted against the delivery limit.
- The order in which shutdown cancels consumers: the registry iterates tags in registration order, which is the fixed type order the model uses.
- Store parity with the graph database, and the benchmark and release scripts.
- RangeLock.HeldLockMakesProgress: progress of the holder only; fairness among waiters is PostgreSQL's.
