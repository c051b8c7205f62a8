# Senecio: journal, settlement, replay and identity algorithms in Dafny

This project models the parts of Senecio that keep money, records and evidence consistent, and proves what they keep on
every input and over every run.

- **Paper execution engine** (`Accounting`, `ExecutionResilience`, `PaperContract`, `PaperHistory`, `PaperAcceptance`,
  `PaperJournal`, `PaperRuns`, `PaperEngine`): a ledger, an order book with fills, and an event-sourced engine whose journal is a file of
  hash-chained lines. Several engines share one path; every append can fail or crash at any byte; checkpoints and recovery
  come at any time.
- **Receipts and authority rows** (`PredictionPersistence`, `RetryQueue`, `OracleRunner`, `OracleLoop`): the append-only
  receipt file with torn-tail repair, the retry queue, and the lookup, insert, lookup protocol that binds each T0 to one row,
  with lost acknowledgements and crashes.
- **Settlement** (`SettlementContract`, `Settlement`, `SettlementMarket`, `SettlementLoop`): price evidence, the proof gate,
  and the verifier and the reconciler racing on one table by compare-and-set.
- **Authority cache and exact count** (`AuthorityTable`, `AuthorityState`, `AuthorityCache`, `ExactCount`): keyset pages of
  two requests, bounded deltas, refresh of mutable rows, write-through, and the incremental count, while other writers go on
  between requests.
- **Replay** (`Replay`, `ReplayRuns`, `ReplayFills`, `ReplayOrders`, `ReplayEngine`, `Strategies`, `StrategyOrders`): the
  bar-by-bar engine and the Grid and DCA strategies.
- **Statistics and identity** (`RocAuc`, `PurgedSplits`, `Cohort`, `ArtifactIdentity`, `GitTree`).
- `Prelude`, `Sorting`, `Text` and `Lines` hold shared vocabulary.

Code that changes state step by step is a class or a method with loops, proved against a function of the old state; the
functions carry the lemmas over whole runs. Amounts are exact reals, instants integer microseconds, SHA-256 digests free
injective values, and JSON a codec that is a parameter.

Where the code does less than its names suggest, the model follows the code and states the exact condition:

- Resolving a block that a failed append caused writes a record that recovery accepts exactly when the journal ends in an
  unresolved divergence (`PaperRuns.ResolvingAFailedAppend`, concrete run in `PaperRuns.ResolvedFailureIsUnrecoverable`).
- A genesis checkpoint recovers only an empty journal (`PaperRuns.RecoveryOutcome`).
- An inserted row is found again exactly when the prediction's symbol is already in normal form: the insert stores the symbol
  as given, the lookup asks for the normalised one (`OracleRunner.OwnInsertIsFound`).
- A repaired row passes the proof gate exactly when its stored origin price matches its entry price and gives the same
  outcomes; the reconciler itself does not compare them (`Settlement.RepairedIsQualifiedIff`, concrete row in `Settlement.RepairCanMissTheGate`).
- A keyset page misses rows exactly when its first request did not fill it and a row of the cursor's own instant is inserted
  before its second (`AuthorityTable.PageCoversIff`); it passes over that row, and the cursor beyond it, exactly when it then
  goes on to a later instant (`AuthorityTable.PagePassesOverIff`). That cannot happen in the view of one symbol
  (`AuthorityTable.SymbolScopeIsUndisturbed`); in the view of all symbols it can (`AuthorityTable.EqualInstantIsSkipped`).
- A fetch that merges new rows and then fails before sealing leaves a cache whose seal no longer fits. Every later fetch of
  that process answers with the broken seal until a write-through seals the cache again, which only views of one symbol get
  (`AuthorityCache.AuthorityView.FetchHistory`, `AuthorityCache.AuthorityView.WriteThrough`).
- A write-through keeps the cache coherent exactly when no uncached row lies below the written one
  (`AuthorityCache.WriteThroughIff`).
- The backlog cap counts cached versions: a fetch can fail for its backlog although every row of the table is settled, when
  the cache is behind (`AuthorityState.StaleRowStillCounts`).

## Model

| member | source | states |
|---|---|---|
| Accounting.BuyIff | research/rea_engines/accounting.py:63-86 | A purchase is accepted if and only if quantity and price are positive, no cost is negative, the fill and inventory limits hold and the cash covers it with its costs; then exactly that moves from cash to basis. |
| Accounting.SellIff | research/rea_engines/accounting.py:88-123 | A sale from balanced books is accepted if and only if it is proper in the same sense, covered by the inventory and worth its costs; the basis left is the share of the inventory left, and the profit is the proceeds less the rest. |
| Accounting.BuyKeepsBooks | research/rea_engines/accounting.py:63-86 | An accepted purchase keeps cash, inventory and basis non-negative and cash + basis = starting cash + realized PnL, and increases inventory. |
| Accounting.SellKeepsBooks | research/rea_engines/accounting.py:88-123 | An accepted sale, partial or closing, keeps the same balance. |
| Accounting.PartialSaleKeepsAverage | research/rea_engines/accounting.py:88-128 | Allocating basis pro rata leaves the average entry price unchanged by a partial sale. |
| Accounting.NegativeCashNeverHappens | research/rea_engines/accounting.py:101-102 | The negative-cash rejection of a sale is unreachable from balanced books. |
| Accounting.EveryRunReconciles | research/rea_engines/accounting.py:63-136 | After any sequence of purchases and sales, accepted or refused, and at any mark: realized + unrealized PnL = equity - starting cash, with the books balanced. |
| Accounting.Ledger.constructor | research/rea_engines/accounting.py:37-48 | A new ledger has the opening books. |
| Accounting.Ledger.Buy | research/rea_engines/accounting.py:63-86 | The whole new ledger state or the refusal, and on refusal nothing changes. |
| Accounting.Ledger.Sell | research/rea_engines/accounting.py:88-123 | The whole new ledger state or the refusal, and on refusal nothing changes. |
| ExecutionResilience.RegisterFreshAgainst | research/rea_engines/execution_resilience.py:292-311 | Registering an order with unused ids is accepted, appends exactly that open order and keeps the state invariants. |
| ExecutionResilience.FreshFillIff | research/rea_engines/execution_resilience.py:314-368 | A new fill is taken if and only if it has proper values and the next number and is not back in time, its order is on its side with that much left, and cash or inventory covers it; the answer is what is left of the order. |
| ExecutionResilience.FreshFillKeepsState | research/rea_engines/execution_resilience.py:314-368 | A fill that passes the checks keeps every order and money invariant of the state and the balance equation. |
| ExecutionResilience.ApplyFillKeepsState | research/rea_engines/execution_resilience.py:314-368 | For every event the next state is valid and balanced; the constructor's own validation never fails. |
| ExecutionResilience.RegisterIs | research/rea_engines/execution_resilience.py:292-311 | Registering is idempotent: with neither id in use a proper order is appended, the same order again changes nothing, and any other under one of its ids is a conflict. |
| ExecutionResilience.FillIsIdempotent | research/rea_engines/execution_resilience.py:314-368 | An event sent again after it was taken changes nothing and is reported as a duplicate; another event under its fill id is a conflict. |
| ExecutionResilience.FillRefinesLedger | research/rea_engines/execution_resilience.py:314-368 | Under the engine's risk limits `apply_fill` accepts exactly the fills `Ledger.buy` or `Ledger.sell` accepts, with the same resulting books. |
| PaperContract.ReportCleanIffAgrees | research/rea_engines/paper_execution_contract.py:445-479 | A reconciliation report is empty if and only if cash and inventory within the tolerance, the event number, and every open order, in both directions, agree with the snapshot. |
| PaperContract.ProposalIsNextLink | research/rea_engines/paper_execution_contract.py:276-315 | Whatever command, a proposed record has the next sequence number, the current head as predecessor, its own digest and an unused event id, and the reducer accepts it; while blocked only a resolution proposes. |
| PaperContract.BlockedRefuses | research/rea_engines/paper_execution_contract.py:169-171 | A blocked engine proposes nothing but a resolution. |
| PaperHistory.HeadDeterminesJournal | research/rea_engines/paper_execution_contract.py:613-653 | Two valid chains with the same head digest are the same journal. |
| PaperHistory.FillStepRefinesLedger | research/rea_engines/paper_execution_contract.py:502-531 | The reducer's fill branch, risk limits included, accepts and computes exactly what the ledger does. |
| PaperHistory.OriginFacts | research/rea_engines/paper_execution_contract.py:80-130 | A new engine holds its starting cash and nothing else, has recorded nothing, is not blocked, and meets the facts below. |
| PaperHistory.ReplayFacts | research/rea_engines/paper_execution_contract.py:481-572 | After replaying any accepted journal: state valid and balanced within the limits, each order's filled quantity is the sum of its journaled fills and at most requested, fill ids and event counter match the fills, ended orders are not filled. |
| PaperHistory.ReplaySucceeds | research/rea_engines/paper_execution_contract.py:481-572 | Between any two points of a journal orders keep identity and place, fills only grow, and a cancelled or expired order is frozen. |
| PaperHistory.BlockAdmitsOnlyResolution | research/rea_engines/paper_execution_contract.py:492-493 | At every place of an accepted journal the engine is blocked if and only if the next record is a resolution: nothing sits between a failed reconciliation and its resolution. |
| PaperHistory.BlockedIffEndsInDivergence | research/rea_engines/paper_execution_contract.py:481-572 | A replayed engine is blocked if and only if its last record is a reconciliation whose report is not clean, and the reason names that record. |
| PaperHistory.ResentCommandIsRepeated | research/rea_engines/paper_execution_contract.py:185-194 | A command already journaled, sent again after any further history and whatever blocks the engine, is answered as a repeat and proposes no record. |
| PaperHistory.ResentResolution | research/rea_engines/paper_execution_contract.py:426-443 | A resolution sent again is a repeat exactly while the remembered discrepancies are those it resolved, otherwise an event-id conflict. |
| PaperAcceptance.OriginClocked | research/rea_engines/paper_execution_contract.py:80-130 | A new engine meets the next invariant. |
| PaperAcceptance.ReplayClocked | research/rea_engines/paper_execution_contract.py:481-572 | After replaying any accepted journal the engine's clock is the last record's, the state's clock is not ahead of it, and the fill index knows exactly the applied fills. |
| PaperAcceptance.TimeNeverGoesBack | research/rea_engines/paper_execution_contract.py:485-486 | In every accepted journal the timestamps never go down. |
| PaperAcceptance.RegistrationRecordedIff | research/rea_engines/paper_execution_contract.py:317-329 | After any replayed history, a registration under a new event id is recorded if and only if the engine is not blocked, the time is not before the last record, both ids are unused and non-empty and the quantity is positive; then exactly that open order is added. |
| PaperAcceptance.FillRecordedIff | research/rea_engines/paper_execution_contract.py:331-377 | The same for a fill: recorded if and only if its ids are new, its order is open and has that much left, its values are positive or zero as required, its clock is not behind and the ledger takes it under the risk limits; then the books are the ledger's, the order is filled by the quantity, and the reply says what is left of it. |
| PaperAcceptance.EndingRecordedIff | research/rea_engines/paper_execution_contract.py:379-404 | The same for a cancel or expiry: its order must be open, with a reason; then it is ended, and nothing else changes. |
| PaperAcceptance.ReconciliationRecordedIff | research/rea_engines/paper_execution_contract.py:406-424 | The same for a reconciliation: the tolerance must not be negative and the snapshot must hold nothing negative and only named, distinct orders with something left; then the engine is blocked exactly if the snapshot disagrees. |
| PaperAcceptance.ResolutionRecordedIff | research/rea_engines/paper_execution_contract.py:426-443 | A resolution is recorded if and only if the engine is blocked and its id is new, its time not before the last record, and its approval reference and reason given; then nothing blocks it. |
| PaperAcceptance.ReportSays | research/rea_engines/paper_execution_contract.py:445-479 | A reconciliation report lists exactly the discrepancies that hold: cash, inventory, event number, and per order missing, unexpected, other side, other remaining quantity. |
| PaperAcceptance.KnownEventIsAnswered | research/rea_engines/paper_execution_contract.py:185-194 | A command under a journaled event id never records: if well-formed it is answered as a repeat, with the order or report as it now stands, exactly when the journaled record is its own, and is a conflict otherwise. |
| PaperAcceptance.KnownFillIsAnswered | research/rea_engines/paper_execution_contract.py:331-377 | A fill under a new event id and a known fill id is a repeat exactly when it is the same fill, and a conflict otherwise. |
| PaperJournal.JournalReadsBack | research/rea_engines/paper_execution_contract.py:613-653 | A file of any valid chain reads back as exactly those records. |
| PaperJournal.TornIsRejected | research/rea_engines/paper_execution_contract.py:619-620 | A file that ends in a strict prefix of a line is rejected as truncated. |
| PaperJournal.AppendOutcome | research/rea_engines/paper_execution_contract.py:236-274 | An append is acknowledged if and only if lock, size check, open, every write, fsync and, on an engine not blocked already, close succeed; otherwise it blocks the engine unless the lock was taken, with the error that says which, and bytes land up to the first failing write. |
| PaperJournal.ReadJournal | research/rea_engines/paper_execution_contract.py:613-653 | The reading loop with its sequence, id, link and digest checks returns the chain or the first error. |
| PaperJournal.ResumeIsReplay | research/rea_engines/paper_execution_contract.py:701-724 | The recovery loop succeeds if and only if the records replay and, at the checkpoint's number, give the checkpoint's state; the result is the replay. |
| PaperJournal.RecoverySound | research/rea_engines/paper_execution_contract.py:655-724 | Whatever bytes are on disk: if recovery succeeds, the file is a valid chain, the engine is its replay, and the checkpoint is the state at its sequence number. |
| PaperJournal.RecoversIff | research/rea_engines/paper_execution_contract.py:655-724 | Recovery succeeds if and only if the checkpoint has the schema's version, its own digest and a valid state, and is for this source, configuration and these limits, the file is a valid chain that replays, and the replay has the checkpoint's state at its number; a genesis checkpoint needs an empty journal. |
| PaperRuns.OnlyCurrentEngineAppends | research/rea_engines/paper_execution_contract.py:196-274 | In any interleaving of engines on one path, only an unblocked engine equal to the replay of the whole journal can change the file. |
| PaperRuns.RecoveryOutcome | research/rea_engines/paper_execution_contract.py:655-724 | Exact result of recovery in every reachable world: truncated tail, genesis mismatch, or the replay of the whole journal. |
| PaperRuns.StepKeepsWorld | research/rea_engines/paper_execution_contract.py:196-315 | Every open, command, checkpoint and reload keeps the file one replayable chain plus at most one torn line, adds at most one record and never rewrites the past; nothing is written after a torn line. |
| PaperRuns.EveryRunIsSafe | research/rea_engines/paper_execution_contract.py:196-315 | After every run of any number of engines, every engine is the fold of some journal prefix, and every checkpoint too. |
| PaperRuns.EveryRunRecovers | research/rea_engines/paper_execution_contract.py:655-724 | After every run, recovery from any checkpoint taken at sequence 1 or later rejects exactly when a torn line ends the file, and otherwise rebuilds the fold of the whole journal. |
| PaperRuns.CrashDuringAppend | research/rea_engines/paper_execution_contract.py:236-274 | An append cut at any byte: recovery gives the engine before the command if nothing landed, rejects a strict prefix, and gives the engine after the command if the whole line landed. |
| PaperRuns.ResolvingAFailedAppend | research/rea_engines/paper_execution_contract.py:426-443 | The record written by resolving a durability block replays if and only if the journal ends in an unresolved divergence. |
| PaperRuns.ResolvedFailureIsUnrecoverable | research/rea_engines/paper_execution_contract.py:426-443 | A concrete run in which such a resolution is recorded and no checkpoint can recover the journal any more. |
| PaperEngine.PaperExecutionEngine.Open | research/rea_engines/paper_execution_contract.py:80-130 | A fresh engine is refused on a non-empty journal and otherwise starts at genesis. |
| PaperEngine.PaperExecutionEngine.AppendRecord | research/rea_engines/paper_execution_contract.py:236-274 | The write loop under the lock: which bytes land, what blocks, what is acknowledged, for every sequence of short, failing and refused writes. |
| PaperEngine.PaperExecutionEngine.RecordEvent | research/rea_engines/paper_execution_contract.py:276-315 | File, engine fields and outcome of recording an event, including repeats and conflicts. |
| PaperEngine.PaperExecutionEngine.RegisterOrder | research/rea_engines/paper_execution_contract.py:317-329 | File, engine and outcome are those of the step that the run theorems are about. |
| PaperEngine.PaperExecutionEngine.ApplyFill | research/rea_engines/paper_execution_contract.py:331-377 | The same for a fill, with its early repeat and conflict answers. |
| PaperEngine.PaperExecutionEngine.TerminalTransition | research/rea_engines/paper_execution_contract.py:379-404 | The same for cancel and expire. |
| PaperEngine.PaperExecutionEngine.ReconcileSnapshot | research/rea_engines/paper_execution_contract.py:406-424 | The same for a reconciliation. |
| PaperEngine.PaperExecutionEngine.ResolveDivergence | research/rea_engines/paper_execution_contract.py:426-443 | The same for a resolution. |
| PaperEngine.PaperExecutionEngine.Reload | research/rea_engines/paper_execution_contract.py:655-724 | Recovery by a replay loop over a new engine object gives exactly the engine, or the error, that the recovery theorems are about. |
| PaperEngine.PaperExecutionEngine.ReplayRecords | research/rea_engines/paper_execution_contract.py:701-724 | The replay loop computes the fold of the records, with the checkpoint comparison at its number, or the first error. |
| Lines.SplitsLines | senecio_polymarket/backend/prediction_persistence.py:80-100 | Splitting loses no byte, cuts behind LF, CR and CR LF and nowhere else, and never between CR and LF. |
| PredictionPersistence.ReadAfterCrash | senecio_polymarket/backend/prediction_persistence.py:80-140 | For any committed log followed by any strict prefix of one more append, reading returns exactly the committed rows (with the last when only its newline is missing) and repairs by appending only. |
| PredictionPersistence.RereadIsStable | senecio_polymarket/backend/prediction_persistence.py:80-140 | A repaired file reads to the same rows with no further repair. |
| PredictionPersistence.AppendReadsBack | senecio_polymarket/backend/prediction_persistence.py:142-148 | A later append is read back as exactly one more row. |
| PredictionPersistence.ScanMeans | senecio_polymarket/backend/prediction_persistence.py:80-140 | Reading any file: the rows are the receipts in it; the first line that is no receipt, blank, torn end, or torn line vouched for by the marker behind it is reported by its number. |
| PredictionPersistence.StatesMean | senecio_polymarket/backend/prediction_persistence.py:150-193 | The fold of any events succeeds if and only if every hash has 64 characters, every payload its own digest and no receipt two digests; each receipt then says of every field what its latest event with one says. |
| PredictionPersistence.CallIsAnswered | senecio_polymarket/backend/prediction_persistence.py:195-273 | Which arguments each writer refuses, when it appends, when it takes a call as a repeat, and which conflict it reports otherwise. |
| PredictionPersistence.WriterKeepsReceipts | senecio_polymarket/backend/prediction_persistence.py:150-273 | Every event the writers append folds: the receipt becomes exactly what the call says, with at most 240 characters of a reason, and every other receipt is unchanged. |
| PredictionPersistence.WriteCommits | senecio_polymarket/backend/prediction_persistence.py:195-273 | One call on a possibly torn file repairs it, adds at most its own event and returns the error the fold prescribes. |
| PredictionPersistence.StoreStepRefines | senecio_polymarket/backend/prediction_persistence.py:80-273 | Reads and writes cut at any byte refine a log that commits whole events. |
| PredictionPersistence.EveryHistoryReadsBack | senecio_polymarket/backend/prediction_persistence.py:80-273 | After any history of calls, crashes at any byte and repairs, the file is readable, reads as exactly the committed events, and they fold to valid receipts. |
| PredictionPersistence.PredictionPersistenceStore.Read | senecio_polymarket/backend/prediction_persistence.py:80-140 | The index loop with its double step over repaired lines returns the rows and the repaired file, or the corrupt line with the file untouched. |
| PredictionPersistence.PredictionPersistenceStore.CurrentStates | senecio_polymarket/backend/prediction_persistence.py:150-193 | The loop over rows builds the fold of the events or its first error. |
| PredictionPersistence.PredictionPersistenceStore.Write | senecio_polymarket/backend/prediction_persistence.py:195-273 | Enqueue, mark failed and mark persisted: the whole new file and the error. |
| PredictionPersistence.PredictionPersistenceStore.Pending | senecio_polymarket/backend/prediction_persistence.py:293-310 | The page of unresolved receipts, or the limit error without touching the file. |
| RetryQueue.PendingPageIsOldest | senecio_polymarket/backend/prediction_persistence.py:293-310 | The page holds distinct unresolved receipts, up to the limit, and none left out has an older last event. |
| RetryQueue.LaterIndexes | senecio_polymarket/backend/prediction_persistence.py:150-193 | Further events move exactly the touched receipts behind all earlier ones and leave the others as they were. |
| RetryQueue.PassMovesForward | senecio_polymarket/backend/oracle_runner.py:241-308 | A pass that leaves a receipt out brings it forward by at least the page limit. |
| RetryQueue.NoStarvation | senecio_polymarket/backend/oracle_runner.py:241-308 | A receipt with k older ones ahead is attempted within n passes whenever k < n * limit, whatever is enqueued meanwhile. |
| OracleRunner.LookupTellsTheTruth | senecio_polymarket/backend/supabase_client.py:306-354 | The lookup says absent, match or conflict exactly as the table has no row, the same row or another row under the T0 and the normal form of the symbol. |
| OracleRunner.LookupOfAnyTable | senecio_polymarket/backend/supabase_client.py:306-354 | Whatever the table holds: absent exactly when no row has the T0 and the symbol's normal form, found exactly when one row has and its content is the same, and otherwise a conflict. |
| OracleRunner.NormalForm | senecio_polymarket/backend/supabase_client.py:488-489 | A normal form has no slash, no dash, no lower-case letter and no outer blank, and is its own normal form. |
| OracleRunner.SpellingsHaveOneForm | senecio_polymarket/backend/supabase_client.py:488-489 | Every spelling of a text of capitals and digits, in any case and with any slashes and dashes, has that text as its normal form. |
| OracleRunner.BlanksAreDropped | senecio_polymarket/backend/supabase_client.py:488-489 | So has it between any blanks. |
| OracleRunner.EverySpellingIsFound | senecio_polymarket/backend/supabase_client.py:306-354 | A stored row of such a symbol is the lookup's answer for every spelling of it. |
| OracleRunner.OwnInsertIsFound | senecio_polymarket/backend/supabase_client.py:357-418 | A just inserted row is found again if and only if the symbol is in normal form. |
| OracleRunner.AppliedIsCommitted | senecio_polymarket/backend/prediction_persistence.py:195-273 | The store write used by the protocol steps is the committed write of the receipt file. |
| OracleRunner.OneIdPerT0 | senecio_polymarket/backend/supabase_client.py:357-372 | The table never holds two ids for one T0. |
| OracleRunner.StepKeeps | senecio_polymarket/backend/oracle_runner.py:185-308 | Every step, with lost answers and crashes anywhere, keeps the protocol invariant; rows, routes and persisted receipts are never undone. |
| OracleRunner.EveryRunIsExactlyOnce | senecio_polymarket/backend/oracle_runner.py:185-308 | After every run: at most one row per generated T0 and no other rows, a persisted receipt names its own row, no T0 is routed twice, and each routed one has its row. |
| OracleRunner.LaterStepsKeep | senecio_polymarket/backend/oracle_runner.py:185-308 | Whatever happens later, an earlier persisted receipt, row and route stay as they were. |
| OracleLoop.AuthorityRunner.Do | senecio_polymarket/backend/oracle_runner.py:185-308 | The runner object moves by protocol steps only and keeps their history. |
| OracleLoop.AuthorityRunner.EnsurePersisted | senecio_polymarket/backend/supabase_client.py:357-372 | Lookup, insert, lookup ends with a positive row id or a failure, touches only table and attempt, and succeeds when at worst the acknowledgement is lost. |
| OracleLoop.AuthorityRunner.Attempt | senecio_polymarket/backend/oracle_runner.py:205-226 | One attempt records exactly one event on its receipt: persisted on success, failed otherwise. |
| OracleLoop.AuthorityRunner.PersistAndRoute | senecio_polymarket/backend/oracle_runner.py:185-238 | A new T0 is routed exactly when the call returns true, with its receipt persisted and its row in the table. |
| OracleLoop.AuthorityRunner.RetryOne | senecio_polymarket/backend/oracle_runner.py:256-300 | One receipt of the pass gets exactly one event and nothing is routed. |
| OracleLoop.AuthorityRunner.RetryPending | senecio_polymarket/backend/oracle_runner.py:241-308 | The pass attempts its whole page, touches every receipt on it, routes nothing, and its counters are the page size and the receipts now persisted. |
| OracleLoop.AuthorityRunner.RunCycles | senecio_polymarket/backend/oracle_runner.py:879-903 | Over any number of cycles of one retry pass and any new T0s, whatever fails, an unresolved receipt with k older ones ahead is attempted within n cycles whenever k < n * 4. |
| SettlementContract.SymbolNormalizesOnce | senecio_polymarket/backend/settlement_contract.py:29-35 | Normalising a symbol twice changes nothing more. |
| SettlementContract.ExchangeNormalizesOnce | senecio_polymarket/backend/settlement_contract.py:38-40 | Normalising an exchange twice changes nothing more. |
| SettlementContract.PairsHaveOneForm | senecio_polymarket/backend/settlement_contract.py:29-35 | A pair quoted in USDT has one form for every spelling, joined or with a slash, in any case and between any blanks. |
| SettlementContract.OtherNamesStay | senecio_polymarket/backend/settlement_contract.py:29-35 | Any other name is only trimmed and put in capitals. |
| SettlementContract.VenuesAreKnown | senecio_polymarket/backend/settlement_contract.py:38-40 | Each of the five public venues is recognised in any case and between any blanks. |
| SettlementContract.OnlyVenuesAreKnown | senecio_polymarket/backend/settlement_contract.py:38-40 | Nothing else is. |
| SettlementContract.TargetIsWindowEnd | senecio_polymarket/backend/settlement_contract.py:43-49 | There is a target for 15 minutes and for one hour only, and it is the end of the window counted from the T0, in whole milliseconds. |
| SettlementContract.SelectContainingCandle | senecio_polymarket/backend/settlement_contract.py:52-77 | A candle is selected if and only if one contains the target; it is a given one that contains it, and the latest such. |
| SettlementContract.SelectedIsFirst | senecio_polymarket/backend/settlement_contract.py:52-77 | Among containing candles of the same latest opening time the first returned is taken. |
| SettlementContract.BuiltEvidenceIsValid | senecio_polymarket/backend/settlement_contract.py:80-164 | Evidence that is built passes validation against every source, symbol and time that normalise to the same. |
| SettlementContract.ValidIffBuildable | senecio_polymarket/backend/settlement_contract.py:125-164 | The validator accepts exactly the evidence that some candles, observed at some time, would have built. |
| SettlementContract.EvidenceFoundIff | senecio_polymarket/backend/settlement_contract.py:80-122 | Evidence is built if and only if names normalise, the window is 15 minutes or one hour, and among the returned candles the latest readable one whose minute contains the T0 plus the window was over when observed; its price is that candle's close. |
| SettlementContract.OutcomesAreOpposed | senecio_polymarket/backend/settlement_contract.py:167-180 | LONG and SHORT are never both won, and both lost exactly when the price has not moved. |
| SettlementContract.PricesMatchIff | senecio_polymarket/backend/settlement_proof.py:35-44 | Prices match when they differ by at most a billionth, absolutely or of either. |
| Settlement.UpdatedIsQualifiedIff | senecio_polymarket/backend/supabase_client.py:1499-1663 | A row patched by `update_outcome_dual` passes the full proof gate if and only if its entry price is positive and the supplied outcomes follow from the supplied prices. |
| Settlement.SettledIsQualified | senecio_polymarket/backend/settlement_proof.py:47-141 | Every row the verifier settles with evidence built for it, even read at different times, passes the full proof gate. |
| Settlement.VerifierSettlesIff | senecio_polymarket/backend/oracle_runner.py:574-645 | For a mature witnessed row with both quotes, the patch is issued if and only if origin price and entry price give the same outcomes in both windows. |
| Settlement.RepairedIsQualifiedIff | senecio_polymarket/backend/settlement_reconciler.py:62-151 | A repaired row passes the proof gate if and only if its witness price matches the entry price and gives the same outcomes; the repair checks neither. |
| Settlement.RepairCanMissTheGate | senecio_polymarket/backend/settlement_reconciler.py:62-151 | A concrete row that is repaired and does not pass the gate. |
| Settlement.PatchOnStaleRead | senecio_polymarket/backend/supabase_client.py:1619-1663 | When the compare-and-set hits, a patch computed from an older read writes exactly what one computed from the current row would. |
| Settlement.StepKeeps | senecio_polymarket/backend/settlement_reconciler.py:62-151 | Every step of either writer keeps the table invariant and writes only rows without a settlement. |
| Settlement.EveryRunSettlesOnce | senecio_polymarket/backend/supabase_client.py:1499-1663 | Under every interleaving of verifier, reconciler and inserts, with stale reads and lost requests, each row receives at most one settlement, and outcomes and settlements never change once written. |
| SettlementMarket.SettlementShowsTheMarket | senecio_polymarket/backend/supabase_client.py:1499-1663 | In every row the verifier settles, the prices are closes of the latest returned candles whose minutes contain the T0 plus 15 minutes and plus one hour, over when observed, and each outcome is the direction's gain or loss from the origin price. |
| SettlementMarket.RepairShowsTheMarket | senecio_polymarket/backend/settlement_reconciler.py:62-151 | In every row the reconciler repairs the same holds from the entry price, and the outcome is the one the row already had. |
| SettlementMarket.QualifiedIff | senecio_polymarket/backend/settlement_proof.py:47-141 | A row passes the proof gate if and only if it is a LONG or SHORT with a witnessed positive price at its T0 that its entry price matches, and a settlement observed after the hour whose prices match evidence that candles of both windows' ends give, whose outcomes are the gains at those prices from the witnessed one, and whose hourly outcome is the row's. |
| SettlementMarket.UpdateIffQualified | senecio_polymarket/backend/supabase_client.py:1499-1663 | With the evidence's own prices and a positive entry price, the patch is sent if and only if the row is unsettled and the row it leaves behind passes the gate. |
| SettlementMarket.RepairsIff | senecio_polymarket/backend/settlement_reconciler.py:62-151 | Which rows the reconciler skips, for which it lacks evidence, and that it repairs the others exactly when the row's outcome is the hourly gain from the entry price, and otherwise reports a conflict. |
| SettlementLoop.CachedQuoteFits | senecio_polymarket/backend/oracle_runner.py:602-614 | A quote cached under a row's key is evidence for that row and window. |
| SettlementLoop.CandidatesAre | senecio_polymarket/backend/settlement_reconciler.py:154-206 | The reconciler's batch holds decided rows without a settlement and no younger than the cutoff, in order of their ids and at most a batch of them; one is left out only when the batch is full, and then has no smaller id. |
| SettlementLoop.LoopChecksIff | senecio_polymarket/backend/oracle_runner.py:574-600 | The verifier counts a row as without proof exactly unless it is a LONG or SHORT with an instant, a positive entry price and an origin witness of its own venue. |
| SettlementLoop.SettlementTable.Evidence | senecio_polymarket/backend/oracle_runner.py:602-614 | The cached or fetched quote fits the row, and the cache stays fit. |
| SettlementLoop.SettlementTable.UpdateOutcomeDual | senecio_polymarket/backend/supabase_client.py:1499-1663 | True if and only if this call wrote the settlement and heard so; what it wrote passes the proof gate; other writers may act between its read and its write. |
| SettlementLoop.SettlementTable.VerifyRow | senecio_polymarket/backend/oracle_runner.py:574-645 | Exact verdict of one row: no proof, no price, settled, or compare-and-set lost. |
| SettlementLoop.SettlementTable.VerifyPending | senecio_polymarket/backend/oracle_runner.py:574-645 | The counters add up to the rows examined, settled rows are exactly the new settlements heard of, and every settled row passes the proof gate. |
| SettlementLoop.SettlementTable.RepairRow | senecio_polymarket/backend/settlement_reconciler.py:62-151 | Repaired if and only if this call wrote and heard so, the outcome itself untouched. |
| SettlementLoop.SettlementTable.ReconcileOnce | senecio_polymarket/backend/settlement_reconciler.py:154-206 | Rows are repaired in order up to and including the first that fails, and the whole batch if none does; the counters add up to the rows scanned, at most one is an error, and repairs grow by exactly those counted or lost. |
| AuthorityTable.SettlementFollowsContract | senecio_polymarket/backend/settlement_reconciler.py:62-151 | Both settlement writers keep the contract the cache relies on: keys never change, and a row changes only while directional and not proof-qualified. |
| AuthorityTable.AboveIsSuffix | senecio_polymarket/backend/supabase_client.py:734-802 | The rows above a cursor are a suffix of the ordered table. |
| AuthorityTable.PageIsFirstAbove | senecio_polymarket/backend/supabase_client.py:734-802 | The two requests, same instant and later instants, together give the first n rows above the cursor. |
| AuthorityTable.PageCoversIff | senecio_polymarket/backend/supabase_client.py:734-802 | With new keys only rising, a page read while the table grows is the next n rows as its second request finds them, each in a version the table held, if and only if the first request filled it or no row of the cursor's instant came in between. |
| AuthorityTable.PagePassesOverIff | senecio_polymarket/backend/supabase_client.py:734-802 | A page leaves a row behind the new cursor if and only if it was so disturbed and goes on to a later instant, and the row left behind is one of the cursor's instant. |
| AuthorityTable.SymbolScopeIsUndisturbed | senecio_polymarket/backend/supabase_client.py:734-802 | With one row per symbol and instant, as the exactly-once protocol keeps them, no page over one symbol is ever disturbed. |
| AuthorityTable.EqualInstantIsSkipped | senecio_polymarket/backend/supabase_client.py:734-802 | A concrete table of two symbols with distinct (instant, symbol) keys on which the row of the other symbol at the cursor's instant, inserted between the requests, is passed over. |
| AuthorityState.CoherentLater | senecio_polymarket/backend/supabase_client.py:933-1065 | A cache that covers the table up to its cursor still does so after any writes that keep rows and raise keys. |
| AuthorityState.SoundLater | senecio_polymarket/backend/supabase_client.py:933-1065 | The same for what no disturbance undoes: cached rows are versions of rows of the table and the cursor is the key of one. |
| AuthorityState.DeltaCovers | senecio_polymarket/backend/supabase_client.py:1008-1020 | Merging a delta extends the covered prefix by exactly its rows. |
| AuthorityState.ExactIsTable | senecio_polymarket/backend/supabase_client.py:582-583 | Sorting an exact cache gives the table. |
| AuthorityState.MutableIdsAre | senecio_polymarket/backend/supabase_client.py:884-895 | Asked for again are exactly the cached LONG and SHORT rows that fail the proof gate, each once. |
| AuthorityState.SettledRowIsLeftAlone | senecio_polymarket/backend/supabase_client.py:884-895 | A row that the verifier has settled is, once cached, never asked for again, and no later version of it comes. |
| AuthorityState.QualifiedTableLeavesNothing | senecio_polymarket/backend/supabase_client.py:884-895 | With every cached row current, a table whose LONG and SHORT rows all pass the gate leaves nothing to ask for, |
| AuthorityState.StaleRowStillCounts | senecio_polymarket/backend/supabase_client.py:884-895 | but with a cache that is behind it can: a row settled since it was cached still counts towards the backlog. |
| AuthorityCache.KeysetPage | senecio_polymarket/backend/supabase_client.py:734-802 | The page method over a live gateway, its keys only rising: exactly when the page is split by a row of the cursor's instant; otherwise it is the next rows above the cursor; in any case its rows rise, are rows of the table, and only a failed request fails it. |
| AuthorityCache.Delta | senecio_polymarket/backend/supabase_client.py:851-881 | The bounded loop returns all rows above the cursor unless a page was split; otherwise either the first of them or rows that stray past one; it fails only for a failed request or because at least pages * size rows were due, and the monotonicity error cannot occur. |
| AuthorityCache.LookupIsComplete | senecio_polymarket/backend/supabase_client.py:898-930 | A lookup by ids limited to their number loses no row. |
| AuthorityCache.Refresh | senecio_polymarket/backend/supabase_client.py:898-930 | The batched refresh returns a version of every requested row, current when nothing is written meanwhile; no row disappears. |
| AuthorityCache.SavedReadsBack | senecio_polymarket/backend/supabase_client.py:933-1065 | A saved cache loads to the same rows. |
| AuthorityCache.DeltaMerged | senecio_polymarket/backend/supabase_client.py:1008-1020 | Merged into a coherent cache a delta keeps it coherent if and only if it has not strayed past a row. |
| AuthorityCache.SymbolViewIsUndisturbed | senecio_polymarket/backend/supabase_client.py:734-802 | Whatever is written between any requests, the view of one symbol is never disturbed. |
| AuthorityCache.RefreshedIsExact | senecio_polymarket/backend/supabase_client.py:884-930 | Refreshing exactly the mutable rows of a covering cache makes it equal to the table. |
| AuthorityCache.WriteThroughIff | senecio_polymarket/backend/supabase_client.py:626-670 | A write-through keeps the cache coherent if and only if no uncached row lies below the written one. |
| AuthorityCache.AuthorityView.Load | senecio_polymarket/backend/supabase_client.py:805-848 | Loading the saved view or bootstrapping it ends with a sealed state or with none; a bootstrap that ends with the tail it began with has passed over nothing. |
| AuthorityCache.AuthorityView.MergeDelta | senecio_polymarket/backend/supabase_client.py:1008-1020 | A merged delta keeps a coherent cache coherent exactly when it has passed over no row, covers the whole table unless a page was split, and moves the cursor if it changes anything; any failure leaves the state as it was. |
| AuthorityCache.AuthorityView.RefreshMutable | senecio_polymarket/backend/supabase_client.py:884-930 | A refresh keeps coherence and makes a covering cache exact when nothing is written meanwhile; it asks for cached LONG and SHORT rows that fail the proof gate and no others, fails exactly when they are more than the cap or a request is unanswered, and then leaves the state as it was. |
| AuthorityCache.AuthorityView.Update | senecio_polymarket/backend/supabase_client.py:1008-1065 | From the delta on: the returned rows, the seal and the save, and, with no write during the call, success if and only if every request is answered, both caps hold and the save goes through. No cached row that passes the proof gate is asked for again. |
| AuthorityCache.AuthorityView.FetchHistory | senecio_polymarket/backend/supabase_client.py:933-1065 | Every successful fetch of a coherent cache with no write during the call returns exactly the table in (ts, id) order, and has saved it when allowed. With writes, whose keys only rise, coherence survives every path, failures included, unless a page is disturbed between its two requests, which the view of one symbol never is. The broken seal is answered exactly when the cache is unsealed; otherwise, with no write during the call, it succeeds if and only if every request is answered, both caps hold and the save goes through. The backlog cap counts cached LONG and SHORT rows that fail the proof gate, and no cached row that passes it is asked for again. |
| AuthorityCache.AuthorityView.WriteThrough | senecio_polymarket/backend/supabase_client.py:626-670 | A successful write-through puts the row, seals and saves the cache, and keeps it coherent if and only if no uncached row lies below the written one. |
| ExactCount.CursorCuts | senecio_polymarket/backend/supabase_client.py:1126-1178 | On increasing ids the rows above a cursor are the suffix after the counted ones. |
| ExactCount.LaterRowsAreAbove | senecio_polymarket/backend/supabase_client.py:1126-1178 | Rows appended later never change the number at or below a cursor. |
| ExactCount.PageAdds | senecio_polymarket/backend/supabase_client.py:1126-1178 | Counting a page keeps count = rows up to the cursor, and a short page makes it the whole table. |
| ExactCount.AscendsIff | senecio_polymarket/backend/supabase_client.py:1150-1175 | The order a page is checked for: every id above the cursor and below all that follow it. |
| ExactCount.CheckPage | senecio_polymarket/backend/supabase_client.py:1150-1175 | The page loop accepts exactly the strictly increasing pages above the cursor. |
| ExactCount.SameTailSameTable | senecio_polymarket/backend/supabase_client.py:1181-1235 | If the tail is still the cursor, nothing was appended in between. |
| ExactCount.ExactCounter.Delta | senecio_polymarket/backend/supabase_client.py:1126-1178 | With appends between pages the delta ends at the table of its last request, or fails only for a failed request or because at least pages * size rows were due. |
| ExactCount.ExactCounter.Bootstrap | senecio_polymarket/backend/supabase_client.py:1181-1235 | A bootstrap that succeeds has counted the whole table of its last request. |
| ExactCount.ExactCounter.CountExact | senecio_polymarket/backend/supabase_client.py:1241-1313 | A successful call returns the number of rows present at its last request; after every call, failed ones too, the stored count is the number of rows up to the stored cursor. |
| Replay.MatchAllConserves | research/rea_engines/replay.py:209-245 | Matching moves every pending order into exactly one of filled, refused, expired or still pending. |
| Replay.ApplyIntentsConserve | research/rea_engines/replay.py:265-309 | Submissions and cancellations keep every issued order in exactly one place. |
| Replay.EveryOrderIsAccounted | research/rea_engines/replay.py:183-353 | In every run, under any strategy, each order id from 1 to the last issued is exactly once among filled, refused, expired, cancelled and pending. |
| ReplayOrders.SubmissionsLeaveOrders | research/rea_engines/replay.py:293-309 | The i-th submission of an answer leaves an open order with the i-th next id, the submission's side, kind, quantity, tag, bar and time, and its own time to live or else the default, unless the same answer cancels it. |
| ReplayOrders.CancelCloses | research/rea_engines/replay.py:276-292 | A cancel closes the open order of its id and no other, and is logged once, as a cancellation or, with none open, as a refusal. |
| ReplayOrders.EveryOrderIsTraced | research/rea_engines/replay.py:183-353 | After every run: order n is the n-th submission the strategy returned; its fill or refusal has its terms and comes at the first later bar that trades at a price it takes; it expires when exactly its time to live has passed without one; each cancellation is one the strategy returned; and open orders, in order of submission, still carry their terms, with no such bar and no cancel since. |
| ReplayOrders.BarFailsIff | research/rea_engines/replay.py:265-274 | A run fails at a bar if and only if the strategy, shown the books and open orders as matching left them, raises or makes a submission without a positive quantity, limit price or time to live. |
| ReplayRuns.EveryRunIsOk | research/rea_engines/replay.py:183-353 | After every run: pending orders come from earlier bars and are within their time to live, and the ledger balances with totals equal to the sums over the fills. |
| ReplayRuns.ExpiresOnTime | research/rea_engines/replay.py:209-245 | An order expires at a bar if and only if it is not touched there and the bar is exactly its time to live after submission. |
| ReplayRuns.ProfitReconciles | research/rea_engines/replay.py:247-353 | At any mark: realized PnL summed over the fills + unrealized = equity - starting cash, equity = cash + inventory at the mark, unrealized = inventory at the mark less at its average entry price, with cash and inventory within their bounds. |
| ReplayRuns.EveryFillIsCausal | research/rea_engines/replay.py:209-245 | Every fill belongs to an order submitted on a strictly earlier bar. |
| ReplayRuns.PrefixIsCut | research/rea_engines/replay.py:183-353 | Running on the first k bars gives every log of the full run cut at bar k. |
| ReplayRuns.NoLookAhead | research/rea_engines/replay.py:183-353 | Two candle sequences that agree on k bars give the same run through bar k and the same fills, rejections, expiries, cancels and equity stamped up to it. |
| ReplayRuns.EveryRunMeasuresDrawdown | research/rea_engines/replay.py:247-263 | Along the curve each drawdown is the loss from the greatest equity so far, the start included, in percent of it; the reported maximum is the greatest of them, and the bars in market are those with something held. |
| ReplayRuns.EveryPointShowsItsBar | research/rea_engines/replay.py:247-263 | The curve has one point for each bar, with the bar's time and close, the books after the bar and their equity at that close. |
| ReplayFills.FilledIffAcceptable | research/rea_engines/replay.py:216-222 | An order is filled at a bar if and only if the bar's range holds a price the order accepts, and then at the acceptable price nearest to the open. |
| ReplayFills.ExecuteMoves | research/rea_engines/replay.py:371-407 | One execution changes cash and inventory by exactly what its fill reports, and the fill carries the order's side, kind and quantity. |
| ReplayFills.EveryFillIsFair | research/rea_engines/replay.py:183-353 | In every run each fill has such a price at its bar and the configured costs on its notional, and cash and inventory are exactly the start plus what the fills moved. |
| ReplayEngine.ExecuteFill | research/rea_engines/replay.py:371-407 | One fill on the mutable ledger, or the ledger's refusal with nothing changed. |
| ReplayEngine.MatchPending | research/rea_engines/replay.py:209-245 | The matching loop with its lists and the mutable ledger computes the match of the whole book. |
| ReplayEngine.TakeIntents | research/rea_engines/replay.py:265-309 | The intent loop computes the submissions and cancellations. |
| ReplayEngine.CheckBars | research/rea_engines/replay.py:355-369 | Empty candles and the first timestamp that does not increase are reported. |
| ReplayEngine.RunBar | research/rea_engines/replay.py:209-309 | One pass of the bar loop on the mutable ledger is one bar of the run. |
| ReplayEngine.RunReplay | research/rea_engines/replay.py:183-353 | The replay returns the run that the theorems are about, or the input error, or the strategy error of the first bar at which the strategy fails. |
| Strategies.GridEntryIsHighestBelow | research/rea_engines/strategies.py:50-78 | The grid's floor formula gives an entry if and only if the close is above the lower bound, and it is the highest level strictly below the close. |
| Strategies.LevelsAreEven | research/rea_engines/strategies.py:63-68 | The levels divide the range evenly, both ends included. |
| Strategies.EveryGridRun | research/rea_engines/strategies.py:50-78 | A replay driven by a grid never fails, never has two orders open and never has a sale refused as short. |
| Strategies.DcaStrategy.OnCandle | research/rea_engines/strategies.py:115-170 | The updated fields and the intents, or the exception, of one candle. |
| Strategies.MatchOneOpen | research/rea_engines/replay.py:209-245 | With one open order covered by the inventory, matching keeps that and changes the books only by filling it whole. |
| Strategies.EveryDcaRun | research/rea_engines/strategies.py:101-170 | A replay driven by DCA never fails, has at most one order open, no sale refused as short, and never adds more than `max_adds` times. |
| StrategyOrders.EveryGridOrder | research/rea_engines/strategies.py:50-78 | After every bar of a grid replay at most one order is open: with nothing held a purchase for the configured amount at the highest level below the close of its bar, otherwise a sale of everything held at exactly the profit over its cost; none is open only with nothing held and the close at or below the grid; and every sale filled has earned at least its profit before charges. |
| StrategyOrders.EveryDcaOrder | research/rea_engines/strategies.py:101-170 | After every bar of a DCA replay exactly one order is open: with nothing held a market purchase for the first amount; once the close is at the profit a sale of everything at exactly the profit over its cost; once it is at the next step below cost, with adds left, a purchase for the further amount there. The add count is the purchases since the last sale but one, and every sale has earned at least its profit before charges. |
| RocAuc.PairsComplement | research/challengers/common.py:378-420 | Pair scores in the two directions add up to all pairs. |
| RocAuc.AucIdentity | research/challengers/common.py:378-420 | The positives' mid-rank sum less the triangle number is the number of positive and negative pairs in order plus half the ties. |
| RocAuc.GroupRank | research/challengers/common.py:403-413 | The average rank of a tie group is the mid-rank that its score has among all scores. |
| RocAuc.AssignRanks | research/challengers/common.py:401-413 | The cursor loop over tie groups writes every item's mid-rank into the array. |
| RocAuc.AucOf | research/challengers/common.py:401-420 | The value times positives times negatives is the pair score, and lies between 0 and 1. |
| RocAuc.RocAuc | research/challengers/common.py:378-420 | An error exactly for invalid inputs, none exactly for a missing class, and otherwise the pairwise meaning. |
| PurgedSplits.OrderIsTimeOrder | research/challengers/common.py:187-190 | The sorted order is a permutation of the rows in decision-time order. |
| PurgedSplits.TiesAreOrdered | research/challengers/common.py:187-190 | Rows of one decision time are ordered by market, and those of one market as given. |
| PurgedSplits.TrainGrows | research/challengers/common.py:155-243 | Purged training sets only grow with the position. |
| PurgedSplits.CheckSplit | research/challengers/common.py:255-293 | The validator's conditions on one fold hold if and only if the fold is disjoint, without repeats, in range and purged by the embargo. |
| PurgedSplits.Validate | research/challengers/common.py:246-293 | The validator accepts exactly the fold lists with valid folds and disjoint tests. |
| PurgedSplits.FoldsAreOk | research/challengers/common.py:155-293 | Every fold list the splitter builds passes the validator. |
| PurgedSplits.FoldsPartition | research/challengers/common.py:155-243 | Test folds in order are exactly the rows from the first admissible position, sizes differ by at most one, and training sets only grow. |
| PurgedSplits.TrainIsRest | research/challengers/common.py:209-243 | A fold trains on exactly the rows that neither it nor a later fold tests and whose label window, with the embargo, ends before its first test. |
| PurgedSplits.FirstPosition | research/challengers/common.py:191-207 | The scan finds the first admissible position, or none exists. |
| PurgedSplits.BuildFolds | research/challengers/common.py:209-243 | The fold loop never fails: the post-purge error at lines 229-232 is unreachable. |
| PurgedSplits.PurgedWalkForward | research/challengers/common.py:155-243 | Which error for which input, and otherwise folds from the first admissible position that pass the validator. |
| Cohort.KeyLeIsTotalOrder | senecio_polymarket/backend/authoritative_score.py:63-67 | The row key orders totally and tells rows apart. |
| Cohort.GreedyIsLongest | senecio_polymarket/backend/authoritative_score.py:70-86 | On rows in time order no chain with the required gaps is longer than the greedy one. |
| Cohort.Independent1hCohort | senecio_polymarket/backend/authoritative_score.py:70-86 | The loop computes the greedy selection of the sorted rows. |
| Cohort.CohortIsMaximum | senecio_polymarket/backend/authoritative_score.py:70-86 | The cohort's rows are pairwise at least 3600 s apart, and no such selection from the input has more rows. |
| Cohort.LeftOutForEarlier | senecio_polymarket/backend/authoritative_score.py:63-86 | Every row with an instant is less than an hour behind a row of the cohort that sorts no later: by instant, then by id as text, then by its whole text. |
| Cohort.CohortIgnoresOrder | senecio_polymarket/backend/authoritative_score.py:63-86 | Every permutation of the input gives the same cohort. |
| ArtifactIdentity.BigEndianReadsBack | senecio_polymarket/backend/artifact_identity.py:118-129 | A length prefix that fits reads back to the length. |
| ArtifactIdentity.FitsIff | senecio_polymarket/backend/artifact_identity.py:118-129 | A path fits below 2^32 bytes and contents below 2^64, as four and eight bytes of length allow. |
| ArtifactIdentity.ChunkParts | senecio_polymarket/backend/artifact_identity.py:118-129 | What is fed for one file: the path's length in four bytes, the path, the contents' length in eight, the contents. |
| ArtifactIdentity.HighestFirst | senecio_polymarket/backend/artifact_identity.py:118-129 | In a length each byte counts 256 times the one behind it. |
| ArtifactIdentity.StreamDecodes | senecio_polymarket/backend/artifact_identity.py:118-129 | The digest's byte stream decodes to exactly the ordered list of paths and contents. |
| ArtifactIdentity.StreamsDiffer | senecio_polymarket/backend/artifact_identity.py:118-129 | Different file lists feed different byte streams. |
| ArtifactIdentity.FeedDigest | senecio_polymarket/backend/artifact_identity.py:118-129 | The loop feeds exactly that stream, or overflows as the source does. |
| GitTree.ObjectInputSplits | senecio_polymarket/backend/artifact_identity.py:132-134 | Object headers are unambiguous: equal hash inputs have equal payloads. |
| GitTree.DigitsAreDecimal | senecio_polymarket/backend/artifact_identity.py:132-134 | The length in a header is decimal without leading zeros. |
| GitTree.ModeIs | senecio_polymarket/backend/artifact_identity.py:150-176 | Directories, links and files with and without the execute bit carry git's modes. |
| GitTree.NameOkIff | senecio_polymarket/backend/artifact_identity.py:146-148 | A name is refused exactly if it is empty or holds a slash or a zero byte. |
| GitTree.TreeFormat | senecio_polymarket/backend/artifact_identity.py:137-180 | A tree object is its header and one line of mode, name and id for each entry, in byte order of the names with a slash behind a directory's. |
| GitTree.LineSplits | senecio_polymarket/backend/artifact_identity.py:137-180 | Entry lines of mode, name and id are unambiguous within any payload. |
| GitTree.EqualIdsEqualTrees | senecio_polymarket/backend/artifact_identity.py:137-180 | With no collision among the inputs hashed, equal tree ids mean the same names, modes and contents at every depth. |
| GitTree.EqualTreesEqualIds | senecio_polymarket/backend/artifact_identity.py:137-180 | Directories that list the same entries in any order get the same id. |
| GitTree.GitTreeId | senecio_polymarket/backend/artifact_identity.py:137-199 | The recursive walk returns the id of the directory, `.git` left out at the root only, and fails exactly on an unsupported entry or name. |

## Left out

- PaperRuns.EveryRunIsSafe: runs resolve divergence blocks only, not durability blocks; what the other case does is stated exactly by `PaperRuns.ResolvingAFailedAppend`.
- PaperRuns.EveryRunRecovers: recovery is one atomic step, though the code reads the records before it takes the file size, without the lock.
- PaperJournal.JournalReadsBack: the JSON codec is a parameter that reads back the records written; JSON and UTF-8 syntax are not modelled.
- PaperEngine.PaperExecutionEngine.AppendRecord: lock, fsync and directory creation are outcomes handed in, not system calls.
- PredictionPersistence.EveryHistoryReadsBack: the repair write is atomic; appends are cut at any byte. The codec satisfies section 4 of RFC 8259: no strict prefix of an object is JSON text.
- OracleRunner.EveryRunIsExactlyOnce: one inserter, an insert has committed or never will when its call ends, each generated T0 is new, and symbols are in normal form (necessary, by `OracleRunner.OwnInsertIsFound`).
- Settlement.RepairedIsQualifiedIff: the hourly quote is observed no later than the reconciler's clock.
- Settlement.EveryRunSettlesOnce: row fields other than those the proof gate reads are one opaque value, and an unparsable timestamp counts as missing.
- AuthorityCache.AuthorityView.FetchHistory: the table is the rows of the scope asked for, one symbol or all; runtime identity, seal age and quota breaker are not modelled.
- OracleLoop.AuthorityRunner.RunCycles: no crash and no store error ends a pass early; those are steps of `OracleRunner`.
- SettlementLoop.SettlementTable.ReconcileOnce: a request that raises is a failed row; in the code the exception ends the call without counters.
- ExactCount.ExactCounter.CountExact: ids are appended in increasing order and never deleted, as the gateway assigns them.
- ReplayRuns.EveryRunIsOk: strategies are functions of their own state and what the engine shows them; a strategy that draws on anything else is outside the model.
- ReplayEngine.RunReplay: order id text, the report digest and metrics other than totals, peak and drawdown are not modelled.
- Strategies.DcaStrategy.OnCandle: the number at the end of an add's tag is not modelled.
- Strategies.EveryDcaRun: DCA on its own; the combined strategy skips the reset of the add count, so the bound is not claimed there.
- RocAuc.RocAuc: the kinds of invalid input share one error value.
- GitTree.EqualIdsEqualTrees: freedom from collisions is assumed of the inputs actually hashed, because 20-byte ids cannot be injective on all inputs.
- Decimal rounding to 28 digits, NaN, infinities and float error: all amounts are exact reals.
- Parsing of decimals, ISO 8601 times and JSON, Unicode case and whitespace beyond ASCII: values arrive parsed.
- HTTP, the D1 gateway, market data, WebSocket and order-book clients, the dashboard: only table requests are steps.
- `execution_simulator.py`, the oracle's scoring and scanners, Newton fits, Wilson bounds, log loss and calibration: numeric code outside exact arithmetic.
- Intrabar policy, readiness contract, `paper_lock.py`, report builders and exporters: would only add easy members.
- The scan order of `fetch_pending_outcomes` and the scheduling of the oracle loop: pending rows are any rows read before.
