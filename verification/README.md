# Chain indexer: model and proofs

A Dafny model of a crash-tolerant chain indexer. The indexer keeps one database (raw records, block
metas, typed tables, a work queue and a cursor per chain) and runs two kinds of process over it. An
ingest loop per chain sweeps heights in bounded windows, or follows a websocket stream, and commits
what it fetched. Decode workers lease committed ranges from the queue, turn raw records into typed
rows and ack. A reorg probe may roll a chain back. On the side are the adaptive `getLogs` client,
keyset pagination, the selector codec and spend accounting.

The modules follow the program:

| module | what it holds |
|---|---|
| `Model`, `Chain` | values; the world a source reports; the database as maps; the atomic commit and rollback |
| `Plan`, `Drive` | windows and the contiguous-prefix tracker; drives that stop anywhere and resume |
| `Tables`, `Database` | chunked, grouped insert-if-absent; the store class and the fetch-and-write pipeline |
| `Tip`, `Ingest`, `Loop` | the live-tip state; turns and runs of the loop with crashes; the loop as a program |
| `Progress` | what the loop gets done: a lost stream replaced, a mismatched tip noticed, the safe tip reached |
| `Limits` | exactly when an idle stream or a rollback makes the loop miss a height; lives in which heads may go back |
| `Witnesses` | for each hypothesis of the loop's guarantee, a run from an empty database that meets the others and misses a height |
| `Reorg`, `Reindex`, `Rebuild` | one-probe detection over hash chains; what a rollback leaves; re-ingest by any run or by interrupted drives, compared with a fresh index |
| `Queue`, `Workers` | the lease protocol with fencing numbers; one worker turn as a program |
| `Decode`, `Indexer`, `Delivery` | decoding a range; the interleaved machine; what every run of it keeps |
| `Fetch` | halving stack, retries, density estimate |
| `Cursor`, `Pagination` | cursor codec; filters, pages and walks |
| `Selectors`, `Spend` | selector framing; metering and quota arithmetic |

Mutable things are classes (`Store`, `PrefixTracker`, `TipState`, `WorkQueue`, `Table`, `RpcLogSource`,
`SpendLedger`) whose methods are proved against functions on values; the theorems are about those
functions. What the outside decides (answers of the source, arrival order of fetches, clock, crashes)
is an input of each step.

## What is assumed of the outside

- A world (`Chain.WellFormed`): a block's contents carry its chain, height and hash, log indices and
  transaction rows are unique, a receipt comes with its transaction, a transaction has one height, a block
  without matching logs brings no rows. The source answers deterministically from one world, except across
  a reorg.
- The typed tables declare their keys as the migrations do: event tables by position, `transactions`,
  `receipts` and call tables by transaction (`Chain.SchemaOk`, `Decode.DecoderOk`). A decoder is any
  deterministic function whose rows carry their record's coordinates.
- The loop's guarantee rests on four hypotheses (`Ingest.StepOk`). First, a reorg check that fires moves the
  loop's next height up only over committed heights, whether or not the chain has a cursor row. Second, when
  the sweep a stream-following loop owed ends, no height between it and the first heights of the streams
  opened for it matches. Third, nor does one between it and where earlier sweeps of the same process had
  reached. Fourth, a stream pushes no height before a lower matching one it covers. Heads are arbitrary: the
  third hypothesis follows in every process life in which the head does not go back, and in every one in
  which no check moves the loop back (`Limits.LivesMissNothing`). A loop that only polls needs the first
  alone (`Limits.PollingMissesNothing`).
- A pull is one atomic step. Two pulls whose sub-queries overlap could lease two items of one chain.
- A rollback happens while no worker is on the chain, and none leases it until the rolled-back ranges are
  committed again.

The code does not supply all of these. None of the four can be dropped: whichever it is, a run from an
empty database meets the other three and misses a height (`Witnesses.EveryHypothesisIsNeeded`). What the code
does without them is proved as an exact condition where there is one: for an idle stream
`Limits.IdleStreamDecides`, for rollbacks above the loop `Limits.RewindDecides`, for overlapping pulls
`Queue.OverlappingPulls`; for a lease open across a rollback there is `Reindex.OpenLeaseLosesRecords`, for
zero confirmations `Reorg.NoConfirmationsNoRollback`. Outside the loop,
`Pagination.UniqueExactlyWhenComplete`, `Selectors.RoundTrip`, `Fetch.EstimateWithinSamples`,
`Spend.BillableGrowsFromZero` and `Spend.ExhaustionPersists` say when the code keeps what it promises.

Where comments in the code promise more than it does, the code is followed: `must_fetch` says the stream
guarantees that a skipped range had no matching logs (it does under the stream assumptions above), the
reorg check says it is correct while the depth is within the confirmations (it also needs the cursor at or
above the fork, and with zero confirmations it deletes nothing), and the queue says it keeps one item in
flight per chain (it does when pulls are serialised).

## Model

| member | source | states |
|---|---|---|
| Ingest.NoHeightIsEverMissed | bins/indexer-cli/src/ingest.rs:36-112 | in every run of the loop over a fixed chain, with subscriptions, stream losses, pushes, any heads, bounded sweeps, no-fetch checkpoints, crashes at any stage and restarts, every height from the start block to the cursor is fully committed |
| Limits.LivesMissNothing | bins/indexer-cli/src/ingest.rs:36-112 | the same without the third hypothesis, when in each process life the head does not go back or no check moves the loop back, either in any life |
| Limits.PollingMissesNothing | bins/indexer-cli/src/ingest.rs:36-112 | a loop without a websocket misses no height when checks move it up only over committed heights, whatever else the outside does |
| Ingest.StepKeeps | bins/indexer-cli/src/ingest.rs:50-112 | each step of a run (boot, turn, turn cut short) keeps the invariant that ties rows, cursor, `next`, pending and pushed heights together |
| Ingest.TurnKeeps | bins/indexer-cli/src/ingest.rs:50-112 | one whole turn keeps it |
| Ingest.PollKeeps | bins/indexer-cli/src/ingest.rs:73-101 | polling the head and catching up keeps it, whichever of the three outcomes it has |
| Ingest.SweepKeeps | bins/indexer-cli/src/ingest.rs:170-216 | a bounded sweep keeps it however the drive ended, also the owed-reconcile bookkeeping |
| Ingest.SweptRows | bins/indexer-cli/src/ingest.rs:170-197 | a sweep leaves canonical rows, no missed height, and if it finished, `next` one above the cursor and strictly advanced |
| Ingest.CheckpointKeeps | bins/indexer-cli/src/ingest.rs:155-168 | a cursor jump with no fetch keeps the invariant |
| Ingest.NothingSkipped | bins/indexer-cli/src/tip.rs:66-81 | when the loop may skip the fetch, some pending height is above the safe tip, and no matching height lies in the gap, nor a pushed one unless sweeps had reached above `next` |
| Ingest.CheckpointPassesNoPush | bins/indexer-cli/src/ingest.rs:73-100 | in every reachable state a no-fetch checkpoint passes only pushed heights that are already committed, and matching ones below `next` |
| Ingest.ProbeKeeps | bins/indexer-cli/src/ingest.rs:60-70 | the reorg probe keeps the invariant when it moves the next height up, if at all, over committed heights only |
| Limits.IdleStreamDecides | bins/indexer-cli/src/tip.rs:63-81 | a push above the safe tip moves an idle loop's cursor to the safe tip with no fetch; no height is then missed exactly when every height in between that lies below the stream's first or was already pushed is committed |
| Limits.LateStreamDecides | bins/indexer-cli/src/tip.rs:63-68 | for a stream that has pushed nothing yet: exactly when everything from `next` to below the stream's first height (or to the safe tip) is committed |
| Witnesses.SkippingRun | bins/indexer-cli/src/ingest.rs:36-112 | two turns from an empty database: a complete sweep, a stream that starts above a matching height the sweep did not reach or pushes a higher one before it, and a cursor above that height with nothing of it committed; the other hypotheses hold |
| Witnesses.LateStreamWitness | bins/indexer-cli/src/ingest.rs:36-112 | in numbers: one confirmation, logs at 3 and 6, stream from 5 that pushes 6 in order, cursor moved to 4 over height 3 |
| Limits.OutOfOrderSkips | bins/indexer-cli/src/tip.rs:66-81 | a stream that pushes a height before a lower uncommitted one makes the loop skip the lower one |
| Witnesses.OutOfOrderWitness | bins/indexer-cli/src/ingest.rs:36-112 | a run from an empty database: the same with a stream from 3 that pushes 6 before 3 |
| Witnesses.LowHeadRun | bins/indexer-cli/src/ingest.rs:50-112 | from an empty database, streams and rollbacks behaving: a pushed and swept height is deleted by a check, the next head is lower, the sweep ends below it, and the next push moves the cursor over it |
| Witnesses.LowHeadWitness | bins/indexer-cli/src/ingest.rs:193-202 | in numbers: two confirmations, logs at 7 and 20, heads 7, 10, 8 and 21, cursor at 19 without height 7 |
| Witnesses.EveryHypothesisIsNeeded | bins/indexer-cli/src/ingest.rs:36-112 | whichever of the four hypotheses is dropped, a run from an empty database meets the other three and leaves a height behind the cursor uncommitted |
| Limits.RewindDecides | bins/indexer-cli/src/ingest.rs:64-70 | from every sound state, with or without a cursor row, the invariant survives the reorg check exactly when the heights the check moves `next` over were committed; then and only then is everything from the start block to below `next` committed |
| Witnesses.CursorlessRollbackSkips | crates/db/src/repositories/cursor_repo.rs:54-66 | a later range committed and no cursor row: a check that fires on restart writes no cursor and sends the loop above a matching height nobody fetched |
| Witnesses.CursorlessRun | bins/indexer-cli/src/ingest.rs:36-112 | from an empty database: a first turn that dies after committing its second range, a restart, a check that fires and a sweep move the cursor over an unfetched matching height; the other hypotheses hold |
| Witnesses.CursorlessWitness | bins/indexer-cli/src/ingest.rs:36-112 | in numbers: one confirmation, ranges of two blocks, logs at 2 and 3, cursor at 4 without height 2 |
| Loop.IngestLoop | bins/indexer-cli/src/ingest.rs:22-114 | the loop as a program, over any script of outside events, leaves the database of the turns the invariant is about |
| Loop.OneTurn | bins/indexer-cli/src/ingest.rs:50-112 | one iteration computes `Turn`: rows, `next`, tip state, and whether it stopped |
| Loop.CatchUp | bins/indexer-cli/src/ingest.rs:137-216 | sweeps or checkpoints exactly as `must_fetch` says, with the new state of both |
| Loop.Sweep | bins/indexer-cli/src/ingest.rs:170-216 | the fetching half: rows of the drive, `next` from the prefix, reconcile and pending updated |
| Loop.ProbeReorg | bins/indexer-cli/src/ingest.rs:60-70 | probes on a signal, on the poll path, or every sixteenth tick, and restarts from the fork |
| Loop.TurnsMissNothing | bins/indexer-cli/src/ingest.rs:36-112 | the turns the program computes keep the invariant over any script that meets the assumptions |
| Progress.LostStreamIsReplaced | bins/indexer-cli/src/tip.rs:40-61 | after an error or end of the stream, however many turns are refused a new one, the first that is granted one owes a sweep and polls the head |
| Progress.LossDropsStream | bins/indexer-cli/src/tip.rs:100-124 | an error or end event drops the subscription and changes nothing else |
| Progress.IdleTurnAsksNothing | bins/indexer-cli/src/tip.rs:75-81 | on a live stream with nothing pending or owed the head is not polled |
| Progress.TooEarlyToSweep | bins/indexer-cli/src/ingest.rs:73-80 | while the head is fewer than the confirmations above the next height nothing is fetched and no cursor moves |
| Progress.MismatchIsNoticed | bins/indexer-cli/src/ingest.rs:57-70 | of any sixteen turns in which the source disagrees with the stored tip, one rolls back |
| Progress.MismatchRollsBack | bins/indexer-cli/src/ingest.rs:57-70 | without a stream, after a removal signal and on every sixteenth tick a mismatch deletes from just above the confirmation-deep fork and restarts the loop there with a sweep owed |
| Progress.NoProbeOtherwise | bins/indexer-cli/src/ingest.rs:57-70 | on a stream with no removal signal, off the sixteenth tick, the source's hash is not asked for |
| Progress.TurnCatchesUp | bins/indexer-cli/src/ingest.rs:73-112 | a turn that is behind sweeps a full window or to the safe tip, commits it, drops exactly the pending heights it covered, and while still behind does not listen to the stream |
| Progress.WindowsAdd | bins/indexer-cli/src/ingest.rs:50-112 | at a fixed safe tip, with a source that serves it, the loop is exactly `k` windows further after `k` turns |
| Progress.ReachesSafeTip | bins/indexer-cli/src/ingest.rs:50-112 | and the turn after the last full window has the cursor at the safe tip and owes no sweep |
| Progress.StopIsClean | bins/indexer-cli/src/ingest.rs:50-53 | told to stop, the process goes down and the database stays as it is |
| Progress.UnfinishedDriveStops | bins/indexer-cli/src/ingest.rs:180-196 | a sweep whose drive is told to stop, or fails, ends the process |
| Tip.TipState.EnsureSubscribed | bins/indexer-cli/src/tip.rs:40-61 | subscribes only when wanted, and a fresh stream owes a sweep; nothing else changes |
| Tip.TipState.OnWsEvent | bins/indexer-cli/src/tip.rs:100-124 | a log becomes pending, a removal lowers the reorg signal to the lowest height seen, an error or end drops the subscription, and nothing else changes |
| Tip.TipState.ClearThrough | bins/indexer-cli/src/tip.rs:71-73 | drops exactly the pending heights up to the target |
| Tip.TipState.TakeReorgSignal | bins/indexer-cli/src/tip.rs:83-85 | returns and clears the signal, nothing else |
| Tip.NoFetchMeansPendingAbove | bins/indexer-cli/src/tip.rs:66-81 | polling without having to fetch means something is pending and all of it is above the safe tip |
| Plan.WindowFitsPipeline | bins/indexer-cli/src/plan.rs:17-43 | a window is `range_concurrency` steps wide unless the safe tip cuts it short, and is tiled by at most that many ranges, each `step` blocks long but for one that ends it |
| Plan.PlannedSpansTile | bins/indexer-cli/src/plan.rs:32-43 | planned ranges tile any window, without gap or overlap |
| Plan.PlanRanges | bins/indexer-cli/src/plan.rs:32-43 | the loop computes the tiling |
| Plan.PrefixTracker.Record | bins/indexer-cli/src/plan.rs:74-94 | the tracker after a range, and a checkpoint exactly when the prefix grew |
| Plan.RecordKeepsReflection | bins/indexer-cli/src/plan.rs:74-94 | recording one more range takes the tracker of a subset to the tracker of the larger subset |
| Plan.OrderIndependent | bins/indexer-cli/src/plan.rs:49-104 | frontier, waiting set, best hash and end depend only on which ranges arrived; the end is that of the longest gap-free prefix, the best hash is its highest matched block's |
| Plan.BestOfIsHighest | bins/indexer-cli/src/plan.rs:55-57 | the stamped block is the highest matched one of the prefix and never above it |
| Drive.InterruptedDrivesConverge | bins/indexer-cli/src/plan.rs:125-213 | any number of drives stopped anywhere, also between a commit and its cursor write, each resumed after the cursor and followed by a complete one, leave the raw, block and transaction tables of one single commit of the range, and the cursor at its end |
| Drive.DriveIsSound | bins/indexer-cli/src/plan.rs:184-213 | after any arrivals in any order: rows canonical, grown only inside the window, arrived ranges committed, cursor at the gap-free prefix |
| Drive.PrefixIsCovered | bins/indexer-cli/src/plan.rs:184-213 | heights up to a cursor a drive writes are all committed; a drive that saw every range writes the window's end |
| Drive.DriveStamps | bins/indexer-cli/src/plan.rs:49-104 | the cursor a drive leaves is at the end of the gap-free prefix and carries the hash of the highest block with logs from the window's start to there, and no hash exactly when there is none |
| Drive.TileNamesHighest | crates/services/src/ingestion.rs:50-62 | a fetched range names its highest block with logs, by height and hash, or none |
| Drive.TornAttempt | bins/indexer-cli/src/plan.rs:196-210 | stopping after a commit and before its cursor write is sound |
| Database.RunPipeline | bins/indexer-cli/src/plan.rs:125-213 | the pipeline as a program, for any arrival order and stopping point, leaves the modelled drive's database, prefix end and record count; its cursor is at the prefix end with the hash of the highest block with logs up to there |
| Database.CommitNext | bins/indexer-cli/src/plan.rs:191-211 | one arrival: committed, recorded, cursor moved when the prefix grew |
| Database.CommitRange | crates/services/src/ingestion.rs:96-152 | the commit of a fetched range, with a decode item exactly when there are records and no cursor advance; an error that changes nothing exactly when a statement repeats a block height or a new receipt has no transaction |
| Database.Store.CommitIngest | crates/db/src/unit_of_work.rs:22-52 | one transaction: raw insert-if-absent, block overwrite, transaction rows, queue item, cursor; refused as a whole exactly when a block statement repeats a key or a new receipt has no transaction |
| Database.Store.RollbackTo | crates/db/src/unit_of_work.rs:54-71 | one transaction: listed typed rows, raw and blocks at and above the height go (receipts with their transaction), cursor to the height below, queue untouched |
| Database.Store.Advance | crates/db/src/repositories/cursor_repo.rs:68-87 | overwrites the chain's cursor and nothing else |
| Database.UpsertEnrichment | crates/db/src/unit_of_work.rs:27-43 | grouping by table with receipts last inserts exactly the batch, or nothing exactly when a new receipt's transaction is neither stored nor in the batch |
| Database.FetchedRefers | crates/migrator/src/ddl.rs:56-68 | the receipts of a fetched range come with their transactions, whatever is stored |
| Database.DeleteTable | crates/db/src/repositories/event_repo.rs:44-58 | deleting tables one after another, with the receipt cascade, deletes their union |
| Chain.CommitCovers | crates/db/src/unit_of_work.rs:22-52 | committing a range keeps the database canonical, covers each of its heights and uncovers none |
| Chain.RawCommitted | crates/db/src/repositories/raw_record_repo.rs:100-127 | raw rows stay the world's, none is lost, new ones lie in the range |
| Chain.BlocksCommitted | crates/db/src/repositories/block_repo.rs:153-176 | block rows stay the world's under overwriting upserts |
| Chain.AuxCommitted | crates/db/src/unit_of_work.rs:27-43 | transaction rows stay the world's and keep their values |
| Tables.UpsertBatch | crates/db/src/repositories/event_repo.rs:63-130 | grouping by signature and chunking under the bind cap adds the same keys and count; with distinct keys the table is that of row-by-row insertion; no statement exceeds 65535 binds when no single row does, `receipts` having one column fewer |
| Tables.InsertionIsUnique | crates/db/src/repositories/event_repo.rs:63-130 | for distinct keys the outcome of insert-if-absent does not depend on order, grouping or chunks |
| Tables.SecondInsertIsNoOp | crates/db/src/repositories/event_repo.rs:124-126 | applying a batch twice changes nothing |
| Tables.Table.InsertChunks | crates/db/src/repositories/raw_record_repo.rs:100-127 | chunked inserts equal one row-by-row insert, with the number of rows added |
| Tables.Table.UpsertChunks | crates/db/src/repositories/block_repo.rs:153-176 | succeeds exactly when no chunk repeats a key, and then equals row-by-row overwrites |
| Tables.Table.UpsertStatement | crates/db/src/repositories/block_repo.rs:159-173 | one overwriting statement: refused with no change exactly when it proposes a key twice |
| Database.FetchedMetasOnce | crates/services/src/ingestion.rs:96-152 | the metas of a fetched range never repeat a height |
| Database.FetchedIsAccepted | crates/db/src/unit_of_work.rs:22-52 | so no commit of a fetched range is refused |
| Tables.ChunkRows | crates/db/src/repositories/mod.rs:19-21 | the chunk is the largest that stays under the bind cap, and at least one row |
| Tables.ChunkStaysUnderCap | crates/db/src/repositories/event_repo.rs:80-122 | counting the parameters each row binds, a chunk stays within the database's limit unless a single row does not |
| Queue.WorkQueue.Push | crates/db/src/repositories/queue_repo.rs:123-141 | inserts unless an item of the same chain, range and kind is queued |
| Queue.WorkQueue.PullAny | crates/db/src/repositories/queue_repo.rs:42-82 | leases the lowest row whose chain has nothing in flight, stamped with the time and a new fencing number; nothing exactly when none is ready |
| Queue.WorkQueue.Ack | crates/db/src/repositories/queue_repo.rs:94-104 | deletes the row only for its current fencing number |
| Queue.WorkQueue.ReclaimExpired | crates/db/src/repositories/queue_repo.rs:106-120 | frees, under a new fencing number, exactly the leases taken more than the given time ago, counts them, and changes no other row |
| Queue.ReclaimFreesTheChain | crates/db/src/repositories/queue_repo.rs:106-120 | a lease nobody acked in time becomes ready to be pulled again, and not before |
| Queue.StepKeepsInv | crates/db/src/repositories/queue_repo.rs:42-141 | every queue step keeps ids fresh, items distinct, leases one per chain and fenced |
| Queue.OneInFlightPerChain | crates/db/src/repositories/queue_repo.rs:42-60 | in every run at most one row of a chain is leased, and no two rows hold equal items |
| Queue.OverlappingPulls | crates/db/src/repositories/queue_repo.rs:42-60 | two pulls that both look before either leases keep one lease per chain exactly when their rows are of different chains |
| Queue.NoLeaseHandedTwice | crates/db/src/repositories/queue_repo.rs:50-56 | no two pulls of a run hand out the same row and number |
| Queue.StaleAckIsNoOp | crates/db/src/repositories/queue_repo.rs:94-113 | once a reclaim has found a lease too old, its ack never changes the queue |
| Queue.RowsLeaveOnlyByHolderAck | crates/db/src/repositories/queue_repo.rs:94-104 | a row leaves only by its current holder's ack, and otherwise keeps its item |
| Workers.RunOnce | crates/services/src/worker.rs:40-81 | one turn on the store's own queue: nothing exactly when no row is ready; the oldest ready row is leased; an item without a decoder is acked unread, one that cannot be decoded writes nothing and stays leased, otherwise exactly the range's rows are in, counted, and the item is gone; and the turn is a run of the interleaved machine |
| Workers.TurnIsARun | crates/services/src/worker.rs:40-81 | a turn, however it comes out, is lease, reads, table writes and ack of the machine by an idle worker beside any others |
| Database.Store.PullAny | crates/db/src/repositories/queue_repo.rs:42-82 | the pull on the queue that commits push into |
| Workers.ReadsAreTheSpan | crates/services/src/decoding.rs:20-63 | the worker's three reads with nothing in between give the batch or the failure of the whole range |
| Decode.DecodeRange | crates/services/src/decoding.rs:11-73 | fails exactly when a record or call of the range cannot be decoded, writing nothing; otherwise inserts exactly the stamped rows of the range and counts them |
| Decode.SpanRowsMean | crates/services/src/decoding.rs:20-63 | those rows are the decoded rows of the range's records and, for a decoder with calls, of their stored transactions, each with the time of its stored block |
| Decode.SpanFailsMeans | crates/services/src/decoding.rs:43-63 | it fails exactly when a record of the range, or its stored transaction, cannot be decoded |
| Decode.CollectEvents | crates/services/src/decoding.rs:43-48 | buckets exactly the decoded rows by table, or reports an undecodable record |
| Decode.CollectCalls | crates/services/src/decoding.rs:50-63 | adds exactly the calls of the stored transactions behind the records |
| Decode.WriteTables | crates/services/src/decoding.rs:65-72 | upserts every bucket; the count is the rows added |
| Decode.TableByTable | crates/services/src/decoding.rs:65-72 | writing a batch table by table in any order inserts the whole batch |
| Decode.SpanSelects | crates/services/src/decoding.rs:20-48 | a row of a range is a row of its own height and the other way round, with the same stamped time |
| Decode.DecodedRowsAreUnique | crates/services/src/decoding.rs:43-63 | rows decoded from one store under one key are equal |
| Decode.AtLeastOnceIsExactlyOnce | crates/services/src/decoding.rs:11-73 | decoding ranges in any order with any overlap and repetition leaves the typed tables of any other ranges over the same heights, such as the whole range once |
| Indexer.BatchIsExpected | crates/services/src/decoding.rs:20-63 | a worker that read a committed range decodes exactly the rows the world gives rise to there |
| Indexer.ExpectedIsUnique | crates/abi/src/lib.rs:105-161 | the rows a world gives rise to are determined by their keys |
| Indexer.CanonicalIsCoherent | crates/services/src/decoding.rs:50-63 | indexed tables meet the condition repeated decoding needs |
| Delivery.NothingFallsOut | crates/services/src/worker.rs:40-81 | in every state reachable by interleaved commits, leases, reads, table writes, acks, reclaims and crashes, each raw record of a chain with a decoder is in a live queue row's range, or it and its transaction's calls decode and their rows are in the typed tables with the block's time |
| Delivery.StepKeeps | crates/services/src/worker.rs:40-81 | every step keeps the invariant behind it, also with some chains closed to leases |
| Delivery.CommitKeeps | crates/db/src/unit_of_work.rs:22-52 | a commit keeps it: new records come with a queue row, or one of the same range is there |
| Delivery.WriteKeeps | crates/services/src/decoding.rs:65-72 | a table write keeps it, whatever other workers wrote before |
| Delivery.AckKeeps | crates/services/src/worker.rs:79-80 | an ack keeps it: everything in the acked range is decoded |
| Delivery.ReadCallsKeeps | crates/services/src/decoding.rs:43-63 | decoding what was read in three separate steps keeps it |
| Delivery.PullKeeps | crates/services/src/worker.rs:41-43 | a lease keeps it |
| Delivery.DriveIsARun | bins/indexer-cli/src/plan.rs:184-213 | every drive of the pipeline, in any arrival order, is a run of the machine, so the guarantee holds of real drives beside the workers |
| Delivery.DrainedIsExact | crates/services/src/decoding.rs:11-73 | once a chain's queue is drained its decoded tables hold exactly the expected rows of the committed heights |
| Delivery.DrainedHoldsEveryRow | crates/services/src/decoding.rs:20-72 | in a sound state drained for a chain every log of a committed height decodes, and the tables hold its row and those of its transaction's calls, stamped with the block's time |
| Delivery.StoredRowsAreDecoded | crates/services/src/decoding.rs:29-63 | in every sound state a decoded row comes from a log of its height or the transaction of one, and carries the time of its block |
| Reorg.Check | crates/services/src/reorg.rs:34-74 | probes the highest stored block and, where reorgs are supported, rolls back to one confirmation depth below it exactly when the source has another hash for it |
| Reorg.MaxHeight | crates/db/src/repositories/block_repo.rs:80-88 | the highest stored block, or none exactly when the chain has none |
| Reorg.ProbeDecides | crates/services/src/reorg.rs:41-54 | over hash chains, one probe at the tip is silent exactly when every stored block is canonical, and then every row is |
| Reorg.RollbackSettles | crates/services/src/reorg.rs:56-73 | after a rollback everything left is canonical exactly when the highest block left is; the cursor is at the fork |
| Reorg.ShallowReorgSettles | crates/services/src/reorg.rs:56-73 | when the chains agree at the fork, everything that survives is canonical |
| Reindex.SoundIsIndexed | crates/services/src/worker.rs:40-81 | in every sound state a chain's raw and typed rows carry their block's hash and have the block stored, as the three lemmas above need |
| Reindex.ProbeDecidesInRuns | crates/services/src/reorg.rs:34-74 | so in every state of every run from empty one probe is silent exactly when every stored block is canonical, and every row left is canonical when it is silent or the chains agree at the fork |
| Reorg.NoConfirmationsNoRollback | crates/services/src/reorg.rs:56-57 | with zero confirmations the rollback leaves the offending block in place |
| Reorg.AgreementGoesDown | crates/services/src/reorg.rs:48-54 | two hash chains that agree at a height agree below it |
| Reorg.RollbackKeepsAllCovered | crates/db/src/unit_of_work.rs:54-71 | heights below a rollback stay committed |
| Reorg.RollbackMeans | crates/db/src/unit_of_work.rs:54-71 | column by column what a rollback deletes, receipts with their transactions, and what it keeps; no receipt is left without its transaction |
| Reindex.SoundHasNoOrphans | crates/migrator/src/ddl.rs:56-68 | no sound state has a receipt without its transaction |
| Rebuild.ReindexEqualsFresh | crates/services/src/reorg.rs:56-73 | rollback, any run whose commits reach every height from the fork to the target and none above, and drain: the chain is indexed from the start block to the target, and its raw, block and typed tables equal those of any such index at every height from the start block up |
| Rebuild.ReorgRebuilds | crates/services/src/reorg.rs:34-74 | from the probe to the drained queue: the check rolls back, drives resume after the fork, are stopped any number of times and one completes, the workers drain; the chain is then indexed from the start block to the drives' target and nothing above, and its tables equal those of any such index at every height from the start block up |
| Rebuild.FreshIsIndexed | bins/indexer-cli/src/plan.rs:125-213 | drives from the empty database, the last complete, and a drain give such an index |
| Rebuild.IndexIsDetermined | crates/services/src/worker.rs:40-81 | two indexes of one chain to one height agree at every height from the start block up, whatever their histories |
| Rebuild.DrivesRebuild | crates/services/src/reorg.rs:56-73 | the drives after the rollback make the state sound for the new chain, open to workers again, everything up to their target committed and nothing above |
| Rebuild.AttemptsAreARun | bins/indexer-cli/src/plan.rs:125-213 | any sequence of interrupted and resumed drives, torn ones included, is one run of the machine |
| Rebuild.FreshRunIsIndexed | crates/services/src/worker.rs:40-81 | any run from the empty database that commits every height from the start block to the target and none above, and ends drained, gives such an index |
| Reindex.RollbackIntoNew | crates/db/src/unit_of_work.rs:54-71 | a rollback takes a sound state of the old chain to a sound state of the new one, the chain closed to leases |
| Reindex.ReingestSettles | crates/services/src/reorg.rs:56-73 | after the re-ingest everything from the start block to the target is committed and the chain can be opened again |
| Reindex.DrainedDatabasesAgree | crates/services/src/worker.rs:40-81 | two drained databases agree at every height both cover, whatever their histories |
| Reindex.OpenLeaseLosesRecords | crates/db/src/repositories/queue_repo.rs:123-141 | from a sound state with a leased item: rollback below it, its holder reads, the range is committed again, the holder acks; the new records are then neither decoded nor queued |
| Fetch.RpcLogSource.FetchRecords | crates/source/src/client.rs:156-220 | a successful fetch is the per-block answer in ascending order, each log once, whatever spans overflow; at most 2n-1 rounds of at most six attempts |
| Fetch.RpcLogSource.CollectPages | crates/source/src/client.rs:169-214 | the halving loop: the same, with the exact count of rounds, pages and seeds, and an error only for an answer it may not split on |
| Fetch.RpcLogSource.ServeTop | crates/source/src/client.rs:183-214 | one round: the top span is answered, halved, or the fetch fails, with the pages gathered so far complete below what is left and its weight strictly lower |
| Fetch.RpcLogSource.Ask | crates/source/src/client.rs:184-207 | keeps, splits or fails a span by its last answer, and folds only kept pages into the density |
| Fetch.RpcLogSource.SeedStack | crates/source/src/client.rs:169-180 | the seeds cover the range, lowest on top, each of the suggested span but for one that ends the range |
| Fetch.HalvingKeepsTiles | crates/source/src/client.rs:208-213 | halving the top span keeps what the stack covers and lowers its weight by one |
| Fetch.SplitRange | crates/source/src/retry.rs:82-85 | the two halves tile the range, are not empty, and differ by at most one block, the lower the longer |
| Fetch.WithRetry | crates/source/src/retry.rs:29-64 | at most six attempts, all but the last failing transiently; the answer is the last one |
| Fetch.TransientPhrases | crates/source/src/retry.rs:39-49 | a request is tried again exactly on the listed phrases, in capitals or not |
| Fetch.RangeCapPhrases | crates/source/src/retry.rs:66-78 | a range is split exactly on the listed phrases |
| Fetch.EstimateWithinSamples | crates/source/src/client.rs:120-133 | for samples up to a bound, the density lies between the least and greatest sample under every interleaving of loads and stores exactly when eight times the bound fits in 64 bits; beyond it the weighted sum wraps |
| Fetch.SeedStaysUnderCap | crates/source/src/client.rs:109-117 | a seeded span no denser than a known estimate is never split by the page-length test |
| Fetch.SpanFor | crates/source/src/client.rs:109-117 | a seeded span is between one block and the provider's ceiling |
| Fetch.UnknownSeedsTheCeiling | crates/source/src/client.rs:109-117 | with no estimate or no cap the seed is the provider's ceiling |
| Fetch.SeedAimsAtFourFifths | crates/source/src/client.rs:109-117 | with one, it is the longest span under the ceiling expected to stay within four fifths of the cap |
| Fetch.SampleMeans | crates/source/src/client.rs:120-126 | a sample is the logs per thousand blocks, rounded down, of a product that saturates |
| Fetch.FoldedMeans | crates/source/src/client.rs:126-133 | the first sample is taken as it is and each later one weighs one eighth |
| Cursor.CursorRoundTrip | crates/db-query/src/pagination.rs:8-17 | parsing undoes formatting for every pair of 64-bit integers |
| Cursor.CursorsAreDistinct | crates/db-query/src/pagination.rs:8-10 | different positions have different cursors |
| Cursor.CursorText | crates/db-query/src/pagination.rs:8-10 | the text is the height, a colon and the index, in decimal |
| Cursor.SignsAndLimits | crates/db-query/src/pagination.rs:12-17 | a plus sign parses, a number past 64 bits does not |
| Cursor.NotCursors | crates/db-query/src/pagination.rs:12-17 | text without a colon, with a number missing or with a second colon does not parse |
| Pagination.BuildFilters | crates/db-query/src/lib.rs:91-112 | the numbered conditions under their binds mean exactly the filters, also after more binds are appended; an error exactly for an unusable filter |
| Pagination.Query | crates/db-query/src/lib.rs:117-218 | one page: the first rows past the cursor by height and then index, or in reverse, each strictly after the cursor's position; the next-page flag and the end cursor; an error exactly for an unusable filter or cursor |
| Pagination.PageMeans | crates/db-query/src/lib.rs:133-218 | on the columns: what a page is cut from are the table's rows that pass and lie strictly after the cursor, and its end cursor is the position of its last row |
| Pagination.Count | crates/db-query/src/lib.rs:220-236 | the number of rows that pass the filters |
| Pagination.PageSize | crates/db-query/src/lib.rs:120 | the page size is clamped to 1..1000 |
| Pagination.WalkIsComplete | crates/db-query/src/lib.rs:117-218 | a walk goes by height and then index, or in reverse, has at most one page more than there are matching rows, and visits every one as often as it is stored exactly when no page break falls between two rows of one position |
| Pagination.WalkFrom | crates/db-query/src/lib.rs:117-218 | asking for page after page by end cursor, from any cursor that parses, ends in a page without a next one: the rows left shrink with every page |
| Pagination.WalkExists | crates/db-query/src/lib.rs:117-218 | there is a walk from every such cursor, so what is said of all walks is said of some |
| Pagination.UniqueExactlyWhenComplete | crates/db-query/src/lib.rs:117-218 | the matching rows have unique positions exactly when pages of one row visit each as often as it is stored, and exactly when pages of every size do |
| Pagination.UniquePositionsWalk | crates/db-query/src/lib.rs:117-236 | with unique positions every walk is exactly the matching rows by position, as many as the count says, whatever the page size |
| Pagination.BreakIsClean | crates/db-query/src/lib.rs:133-144 | a page break leaves rows out exactly when the rows on both sides share a position |
| Pagination.SharedPositionIsSkipped | crates/db-query/src/lib.rs:133-144 | two rows at one position and pages of one row: the second is never visited |
| Selectors.RoundTrip | crates/db/src/encode.rs:6-35 | decoding undoes framing exactly for selectors of at most 255 bytes |
| Selectors.ReframePrefix | crates/db/src/encode.rs:16-35 | framing a decoded blob gives a prefix of it, the whole exactly when no frame was truncated |
| Selectors.FramedBytes | crates/db/src/encode.rs:6-13 | the stored bytes: each selector's length, its low byte, and then the selector, with nothing in between |
| Selectors.FrameSelectors | crates/db/src/encode.rs:6-13 | the loop computes the framing |
| Selectors.UnframeSelectors | crates/db/src/encode.rs:16-35 | the loop computes the decoding |
| Spend.MoneyWithinOneMicroPerCall | crates/pricing/src/ledger.rs:32-35 | under any interleaving of metered calls the money ever recorded is at most the units ever recorded at the rate, and once nothing is in flight less than one micro-USD per call below it |
| Spend.CountersAreExact | crates/pricing/src/ledger.rs:20-35 | each 64-bit counter shows its recorded sum exactly when the sum fits |
| Spend.ChunkingKeepsUnits | crates/source/src/batch.rs:41-72 | cutting a batch into non-empty chunks bills the same units |
| Spend.PriceList | crates/pricing/src/alchemy.rs:6-49 | the price lists in figures: units and micro-USD of one call of each kind, ten items where it takes several; nothing for free nodes and unlisted calls |
| Spend.BillableGrowsFromZero | crates/pricing/src/ledger.rs:47-52 | nothing is billed inside the free tier; up to any number of units the bill never falls when the price of the units past the allotment fits in 64 bits, and only then for rates whose numerator and denominator together fit |
| Spend.HugeRateNeverBills | crates/pricing/src/ledger.rs:47-52 | a rate beyond that whose price wraps and yet never falls, so the condition stays |
| Spend.BillIsExact | crates/pricing/src/ledger.rs:47-52 | the bill is the exact price exactly when the 64-bit product does not wrap |
| Spend.BillAgreesWithRecordedMoney | crates/pricing/src/ledger.rs:47-52 | without a quota and while the price of the units fits in 64 bits, the bill is at least the recorded money and less than one micro-USD per call above it |
| Spend.RemainingMeans | crates/pricing/src/ledger.rs:54-59 | what is left of a quota and what has been used of it make it up; a used-up quota is exhausted |
| Spend.ExhaustionPersists | crates/pricing/src/ledger.rs:55-63 | an exhausted quota stays exhausted exactly while the 64-bit counter does not wrap |
| Spend.SpendLedger.BillableMicroUsd | crates/pricing/src/ledger.rs:47-52 | the money for the units past the free allotment |
| Spend.SpendLedger.QuotaExhausted | crates/pricing/src/ledger.rs:61-63 | true exactly when there is a quota and the units have reached it |

## Left out

- The `backfill` command: its cursor writes may move the cursor either way, so the loop's guarantee does not speak of them.
- RPC transport, the websocket itself, JSON-RPC batching, rate limiting, retry delays and jitter: only the answers and the attempt bound are modelled.
- `TipState::wait`: how long a turn sleeps has no effect on what it does next.
- ABI parsing and value decoding: a decoder is an arbitrary deterministic function with the row coordinates it is known to copy.
- SQL text, DDL, type mapping, JSON projection and joins: tables are maps by primary key, and a page's items are rows.
- Table-name validation and the typing of filter values: a filter's bind is a parameter, present or absent.
- The order in which a range of raw records is read: the rows written do not depend on it.
- Postgres isolation: each transaction and each statement outside one is an atomic step; a pull in particular.
- Task scheduling and channels of the pipeline: any arrival order of any subset of the planned ranges stands for them.
- The read cache, the HTTP and GraphQL server, CLI, configuration, metrics, logging and signals.
- Integer width: heights, indices and ticks are unbounded, and `s + step - 1` and the price of one call are taken not to overflow. The spend counters, the billable product and the density's weighted sum wrap at 64 bits as in a release build, and cursors are 64-bit.
- Spend.BillableGrowsFromZero: for rates whose numerator and denominator together exceed 64 bits only one direction holds, by `Spend.HugeRateNeverBills`.
- `WorkQueue::depth` and the ledger's `record` are in the model as methods; they add nothing of their own to the results.
- Selectors.UnframeSelectors: a debug build aborts on a truncated frame; the release build is modelled.
- Rebuild.ReorgRebuilds: the queued items of the chain lie at or below the drives' target, and no worker holds a lease of it when the check fires; the same in Rebuild.ReindexEqualsFresh.
- Loop.IngestLoop: the time between turns and the source's own errors are part of the script, an error ending the process like a crash.
