# A verified model of the backtester

The project models the parts of a trading backtester that move data without losing or reordering it,
and the parts that turn it into positions and money, and proves what they are relied on for.

- **Rings.** `WorkQueue`, `SpmcQueue` and `MpscQueue` are small-step transition systems: a program
  counter for each thread, one step for each atomic load, store or compare-exchange, and steps of their
  own for constructing, moving from and destroying the object in a slot. A schedule is any sequence of
  scheduler choices; the theorems are about the state after any schedule, for any capacity above one and
  any number of threads.
- **Fetching.** `FetchPool` puts submit, the workers and quiesce together with the sliding windows of any
  number of streams and their slot rings (`SlotRing`). `StreamRows` reads the files a stream has taken:
  rows, blocks of rows, events and the accounting of every line. `Lines`, `CsvField`, `Calendar` and
  `BookDepth` are the parsers underneath.
- **Merging.** `SourceMerge` merges the streams of one source, `FileSource` gives the merged line in terms of
  the files, `RunDataSource` carries it into the queues, `Transport` merges the queues with timer ticks. In
  each, what comes out is a function of what the legs hold, whatever arrived when.
- **Trading.** `Portfolio`, `Subscription`, `RiskGate`, `SimExecution`, `FundingCarry`, `Engine` and
  `CostTable` model one step of the engine and whole runs of steps. `Replay` joins transport and engine:
  the state a replay ends in depends on the pushed events alone.
- **Research.** `Walk` is the overlap scheduler of the event book, `Cache` and `Partitions` the partition
  cache with its plan of fetches.

Code that changes state step by step is a class or a method with loops here, proved against functions of
values; the theorems over runs and interleavings are lemmas about those functions. `Ring` and `Heap` hold
what several modules share.

## Assumptions

- Atomic accesses are sequentially consistent. The flag and counter of http_fetch_pool.cpp:43-51 and
  75-86 form a store-buffering shape, so this is a real assumption.
- Ring positions, counters and order ids are natural numbers without wrap-around; prices, quantities and
  money are real numbers. Timestamps are integers; where 64 bits do not suffice `CsvField` says exactly
  when.
- A fetch has any outcome, a file is any text, a push may be refused while the queue is full, a source
  answers on its own schedule. These are parameters of steps and methods.
- In `FetchPool` the pool's queue is one atomic first-in-first-out queue, which `WorkQueue.RefinesFifo`
  justifies; the source thread is its single producer.
- A sink that refuses an event leaves it to the caller intact.
- In `Engine` and `CostTable` an instrument is its slot; `Subscription.DistinctSlots` says of any two
  instruments exactly when that is sound. `std::clamp` demands a position limit that is
  not negative.
- In `Cache` a dataset has one partitioning, so a partition's path follows from its key, parts come in time
  order without overlap, as `Partitions` makes them, and the archive's rows below a reported through time do
  not change.

## Where the code does less than it says

- csv_field.hpp:16-17 calls its ceiling the largest stamp that survives scaling to nanoseconds. It is not;
  `CsvField.ScaledStampFitsExactly` gives the stamps that do, `CsvField.AcceptedStampOverflows` one that
  does not.
- mpsc_queue.hpp:46 says that push answers false when the queue is full. It also does so with a stale
  position: `MpscQueue.RefusalIsExact`, `MpscQueue.RefusedWhileEmpty`.
- A timer pull applies the fills of the pull before once more: `Engine.FillsAppliedOnce` says when that
  happens, `Engine.TimerFillsTwice` that it does.
- Flattening on a trip is sized before the step's own fills, so a trip step need not end flat:
  `Engine.TripStepLeavesTheIntent`, `Engine.RunTripsNotFlat`. A slot tracked more than once is flattened more
  than once: `RiskGate.FlatteningFlattens`.
- The legs of the carry do not always stay opposite: `Engine.LegsStayOppositeExactly`,
  `Engine.RunPartsTheLegs`.
- Instruments of market id 65535, or of a place in their list that wraps past every wrapped list length,
  resolve and lie outside the extents: `Subscription.WithinExtentsExactly`. Their index may then be out of
  range, or in range, or another instrument's: `Subscription.InRangeExactly`,
  `Subscription.SameSlotExactly`, `Subscription.SlotOfAnotherMarket`. With no list length but multiples of
  65536 nothing is in range at all: `Subscription.FullListHasNoRoom`. Places 65536 apart in one market share
  a slot: `Subscription.LongListSharesASlot`.
- A block whose last row ends in a second carriage return splits back into another row:
  `StreamRows.BlockHasUsedRows`, `StreamRows.SecondReturnIsLost`.
- cache.py:5-6 promises to fetch only what is missing or not complete far enough. The span fetched also takes
  along what is complete between two such parts: `Cache.FetchedBetween`, `Cache.FetchesWhatIsComplete`.
- A partition needed only before 1970 that is not in the index counts as complete and is never fetched:
  `Cache.CompleteIsReadable`, `Cache.MissedBeforeTheEpoch`.

## Model

| member | source | states |
|---|---|---|
| `WorkQueue.RunInv` | include/core/work_queue.hpp:39-108 | The inductive invariant of every interleaving of the producer and any number of consumers, one step per atomic access and per construct, move and destroy: each slot is stamped for the position it awaits or holds, and no claimed position is lost. |
| `WorkQueue.RefinesFifo` | include/core/work_queue.hpp:59-108 | Every step of every schedule is a step of an atomic first-in-first-out queue on the published and unclaimed elements, which appends what push was called with or takes the front, or leaves that queue as it is; the queue never holds more than the capacity. |
| `WorkQueue.PublishesItsArgument` | include/core/work_queue.hpp:59-75 | What a push publishes is the argument it was called with, whatever happens between the call and the publishing. |
| `WorkQueue.PushAlone` | include/core/work_queue.hpp:59-75 | After any schedule, a push that nothing interrupts publishes its argument when the position one lap back is drained, and is refused when it is not. |
| `WorkQueue.PopAlone` | include/core/work_queue.hpp:78-108 | After any schedule, a try_pop that nothing interrupts returns the front of what is published and unclaimed, or answers empty when nothing is. |
| `WorkQueue.TakenOnceInOrder` | include/core/work_queue.hpp:78-108 | Claimed positions are exactly those below the dequeue cursor, each claimed by one consumer that gets the value pushed there; each consumer's positions ascend. |
| `WorkQueue.ExclusiveAccess` | include/core/work_queue.hpp:65-74 | No two threads are inside one cell, the producer constructs only into raw storage, and a consumer moves from and destroys only a live object. |
| `WorkQueue.EmptyIsExact` | include/core/work_queue.hpp:82-95 | An empty answer is given exactly when, at the instant the stamp is read, every published element is already claimed. |
| `WorkQueue.RefusalIsExact` | include/core/work_queue.hpp:62-68 | A push is refused exactly when the position one lap back is not drained yet, and a refusal changes nothing shared. |
| `WorkQueue.Destroy` | include/core/work_queue.hpp:45-52 | With every thread done the destructor destroys, oldest first, exactly the live objects, each once: those of the positions between the cursors. |
| `WorkQueue.QuietSlots` | include/core/work_queue.hpp:45-52 | Idle threads leave live objects at exactly the positions between the two cursors. |
| `SpmcQueue.RunInv` | include/core/spmc_queue.hpp:57-109 | The inductive invariant of every interleaving, with the cursor scan of push read by read. |
| `SpmcQueue.EveryConsumerGetsAPrefix` | include/core/spmc_queue.hpp:57-68 | What each consumer has received is exactly the first cursor-many elements pushed, in order; no consumer is ahead of the producer nor a lap behind it. |
| `SpmcQueue.PublishesItsArgument` | include/core/spmc_queue.hpp:78-109 | Only the last step of a push publishes, and what it publishes is the argument the push was called with. |
| `SpmcQueue.PushAlone` | include/core/spmc_queue.hpp:78-109 | After any schedule, a push that nothing interrupts publishes its argument, or is refused when some consumer has not passed the element one lap back. |
| `SpmcQueue.PopAlone` | include/core/spmc_queue.hpp:57-68 | After any schedule, a try_pop that nothing interrupts returns the next element the consumer has not had, or answers empty when it has had all. |
| `SpmcQueue.NoOverwriteBeforeRead` | include/core/spmc_queue.hpp:79-109 | The producer never rewrites a slot some consumer is copying or has still to copy, and a consumer copies only the live value pushed at its position. |
| `SpmcQueue.RefusalIsExact` | include/core/spmc_queue.hpp:71-109 | A push is refused exactly when some cursor, at the very step its scan read it, was at most the position one lap back, and then some cursor was when the push began; a refusal changes nothing. |
| `SpmcQueue.EmptyIsExact` | include/core/spmc_queue.hpp:57-60 | An empty answer is given exactly when the consumer has everything published at that instant. |
| `SpmcQueue.Destroy` | include/core/spmc_queue.hpp:40-49 | The destructor destroys, oldest first, exactly the live objects, each once: the last min(published, capacity) pushes. |
| `SpmcQueue.QuietStorage` | include/core/spmc_queue.hpp:40-49 | With the producer idle, live storage is exactly the last lap published. |
| `MpscQueue.RunInv` | include/core/mpsc_queue.hpp:47-91 | The inductive invariant of every interleaving of any number of producers and one consumer, with compare-exchange races and spurious failures. |
| `MpscQueue.PopsInClaimOrder` | include/core/mpsc_queue.hpp:54-91 | Pops return elements in the order positions were claimed, each exactly once, and each producer's own elements in the order it pushed them. |
| `MpscQueue.ClaimsItsArgument` | include/core/mpsc_queue.hpp:47-72 | What a push claims a position for is the argument it was called with, whatever happens between the call and the claim. |
| `MpscQueue.PushAlone` | include/core/mpsc_queue.hpp:47-72 | After any schedule, a push that nothing interrupts claims the next position for its argument and publishes it, or is refused when the ring is full. |
| `MpscQueue.PopAlone` | include/core/mpsc_queue.hpp:75-91 | After any schedule, a try_pop that nothing interrupts returns what the oldest position not popped was claimed for, or answers empty when there is none or it is not published. |
| `MpscQueue.ExclusiveAccess` | include/core/mpsc_queue.hpp:60-70 | A claimed slot is vacant when it is constructed into, and no other thread is in it. |
| `MpscQueue.ConsumerFindsItsElement` | include/core/mpsc_queue.hpp:75-90 | The consumer moves from and destroys only the live element of the position it pops. |
| `MpscQueue.EmptyIsExact` | include/core/mpsc_queue.hpp:77-81 | An empty answer is given exactly when nothing is claimed past the dequeue cursor or the claimer there has not raised its flag. |
| `MpscQueue.RefusalIsExact` | include/core/mpsc_queue.hpp:51-58 | A push is refused exactly when the ring is full from its position or its position has gone stale below the dequeue cursor; a refusal changes nothing. |
| `MpscQueue.RefusedWhileEmpty` | include/core/mpsc_queue.hpp:55-58 | A schedule in which a push is refused while the queue is empty: the unsigned difference of a stale position underflows. |
| `MpscQueue.FlagsMarkLiveSlots` | include/core/mpsc_queue.hpp:35-41 | With every thread idle the ready flags are up exactly where an object lives. |
| `MpscQueue.Destroy` | include/core/mpsc_queue.hpp:35-41 | The destructor destroys exactly the live objects, each once, and leaves none. |
| `Ring.SlotIsRemainder` | include/core/work_queue.hpp:63 | The slot of a position, as the models unfold it lap by lap, is the position modulo the capacity. |
| `Ring.SlotApart` | include/core/slot_ring.hpp:84-87 | Positions less than a lap apart never share a slot. |
| `FetchPool.AfterInv` | src/data_source/source/exchange/binance/binance_historical/http_fetch_pool.cpp:38-134 | The inductive invariant of every interleaving of the source thread's submits and takes, the workers and quiesce, over any number of streams and their slot rings. |
| `FetchPool.WindowIsPartitioned` | include/data_source/source/exchange/binance/binance_historical/stream.hpp:147-178 | Outstanding fetches never exceed the depth, and every position between the read and the fetch cursor is in exactly one of the pool's queue, one agent's hands, or its slot. |
| `FetchPool.PlaceIsNeverRefused` | src/data_source/source/exchange/binance/binance_historical/http_fetch_pool.cpp:88-98 | Whoever delivers a file finds the slot stamped for its position; cancellations_dropped stays zero. |
| `FetchPool.ExclusiveAccess` | include/core/slot_ring.hpp:47-77 | Delivering agents are in different slots of a ring, and none is in the slot the source thread is taking from. |
| `FetchPool.FilesReadInPlanOrder` | include/data_source/source/exchange/binance/binance_historical/stream.hpp:169-189 | The k-th file a stream has read is the one that the only fetch for the k-th path of its plan ended with, at the step it ended at, or the cancellation of that fetch when quiesce took it off the queue instead, whatever order fetches finish in. |
| `FetchPool.TakeIsExact` | include/core/slot_ring.hpp:66-69 | Reading the stamp, take goes on exactly when the file of the next position has been placed. |
| `FetchPool.TakeAlone` | include/core/slot_ring.hpp:66-77 | After any schedule, a take that nothing interrupts gives the stream the file placed for its next position and moves its window on, or changes nothing when it is not there. |
| `FetchPool.PumpAlone` | src/data_source/source/exchange/binance/binance_historical/http_fetch_pool.cpp:40-65 | After any schedule, a pump that nothing interrupts does nothing with the plan at its end or the window full; otherwise its fetch is accepted exactly when the pool is not stopping and the ring has room. |
| `FetchPool.FetchAlone` | src/data_source/source/exchange/binance/binance_historical/http_fetch_pool.cpp:113-207 | After any schedule, a worker left alone takes the front of the queue, counts its fetch by its outcome and places the file it ended with. |
| `FetchPool.CountsAreOutcomes` | src/data_source/source/exchange/binance/binance_historical/http_fetch_pool.cpp:200-222 | Over any run completed_ok counts the fetches that ended Ok, completed_failed the others and those cancelled, and cancelled the latter, but for the workers and the closer about to count one. |
| `FetchPool.PlansAreKept` | include/data_source/source/exchange/binance/binance_historical/stream.hpp:51-61 | Every stream keeps its plan, and the depth asked for clamped to between one and the ring. |
| `FetchPool.PlacedOnce` | src/data_source/source/exchange/binance/binance_historical/http_fetch_pool.cpp:113-134 | Each step moves an accepted fetch at most one stage on, from the queue to one agent to its slot, so exactly one file is placed for it and it is never placed twice. |
| `FetchPool.QuiesceDrains` | src/data_source/source/exchange/binance/binance_historical/http_fetch_pool.cpp:67-105 | When quiesce returns the pool's queue is empty, every accepted fetch has its file placed, submitted equals completed_ok plus completed_failed, and queued_ is zero. |
| `FetchPool.QuiesceCanReturn` | src/data_source/source/exchange/binance/binance_historical/http_fetch_pool.cpp:67-105 | From every reachable state the threads can go on so that quiesce returns. |
| `FetchPool.ClosedForGood` | src/data_source/source/exchange/binance/binance_historical/http_fetch_pool.cpp:40-65 | Once quiesce has returned no step accepts a fetch, moves a fetch or changes any count but that of refusals: every later submit is refused. |
| `FetchPool.DestructorFindsLiveSlots` | include/core/slot_ring.hpp:36-39 | With the pool quiesced and the source idle, the slot ring's destructor, going by residues, picks exactly the slots with a live file. |
| `FetchPool.ResidueTells` | include/core/slot_ring.hpp:82-87 | A stamp is one past its slot's residue exactly when the slot is filled. |
| `StreamRows.BlockHasUsedRows` | include/data_source/source/exchange/binance/binance_historical/stream.hpp:194-205 | The block handed to a grouped parser splits back into exactly the number of rows counted for it, and into the very same rows exactly when the last does not end in a second carriage return. |
| `StreamRows.SecondReturnIsLost` | include/data_source/source/exchange/binance/binance_historical/stream.hpp:194-205 | A text whose row ends in two carriage returns: the block of that row splits back into another row. |
| `StreamRows.EveryRowCounted` | include/data_source/source/exchange/binance/binance_historical/stream.hpp:92-129 | However the bytes fall into rows and groups, each row of a text is counted once, as blank, header, rejected or parsed. |
| `StreamRows.EventsOfRuns` | include/data_source/source/exchange/binance/binance_historical/stream.hpp:92-129 | From the rows alone: blank and header rows are counted as such, the data rows are cut into the longest runs of one leading field or taken singly, the events are those of the runs that parse, in order, and each run counts its rows as parsed or rejected. |
| `StreamRows.LeadingExactly` | include/data_source/source/exchange/binance/binance_historical/parsers/csv_field.hpp:49-51 | The leading field of a row is the text before its first comma, or all of it without one. |
| `Lines.EitherLineEnd` | include/data_source/source/exchange/binance/binance_historical/stream.hpp:213-232 | A newline, with or without a carriage return before it, ends a row and is no part of it. |
| `StreamRows.RowsAccountedFor` | include/data_source/source/exchange/binance/binance_historical/stream.hpp:92-129 | At any moment blank, header, rejected and parsed rows and the rows left add up to the lines of all files read. |
| `StreamRows.ExtendRun` | include/data_source/source/exchange/binance/binance_historical/stream.hpp:194-205 | extend_run takes the longest run of rows with the first one's text before the first comma, and returns the text from the first to the end of the last. |
| `StreamRows.TakeFront` | include/data_source/source/exchange/binance/binance_historical/stream.hpp:94-128 | One turn of the row loop counts the front of the text as the row-by-row reading says and gives its event. |
| `StreamRows.Note` | include/data_source/source/exchange/binance/binance_historical/stream.hpp:114-118 | backwards_stamps, repeated_stamps and sequence_gaps are the counts over all events emitted so far of steps back, repeats and broken ids. |
| `StreamRows.StatsAreCounts` | include/data_source/source/exchange/binance/binance_historical/stream.hpp:114-118 | The three statistics are the numbers of events stamped before the one before them, stamped alike, and following another id than the last id before them. |
| `StreamRows.BinanceHistoricalStream.LoadNextFile` | include/data_source/source/exchange/binance/binance_historical/stream.hpp:169-189 | Failed files are skipped and counted, files read and failed add up to the read cursor, and no event is lost or repeated. |
| `StreamRows.BinanceHistoricalStream.Next` | include/data_source/source/exchange/binance/binance_historical/stream.hpp:86-130 | next gives the next event of the readable files in plan order, or none with every arrived file read to its end; what is emitted does not depend on when files arrived. |
| `StreamRows.BinanceHistoricalStream.Finished` | include/data_source/source/exchange/binance/binance_historical/stream.hpp:132-134 | A finished stream has emitted all events of its readable files and counted every line of them. |
| `StreamRows.FrontTaken` | include/data_source/source/exchange/binance/binance_historical/stream.hpp:92-128 | Taking the front of a text keeps the row balance and the order of events. |
| `SourceMerge.EarliestIsLeast` | include/data_source/source/exchange/binance/binance_historical/binance_historical_source.hpp:170-172 | A linear scan of the fronts finds the least by (stamp, bars last, index). |
| `SourceMerge.MergeKeepsEveryTape` | include/data_source/source/exchange/binance/binance_historical/binance_historical_source.hpp:110-137 | The merged line holds every stream's events, all of them, once and in order. |
| `SourceMerge.MergeIsSorted` | include/data_source/source/exchange/binance/binance_historical/binance_historical_source.hpp:170-172 | With each stream in stamp order the line is sorted by (stamp, bars last, index). |
| `SourceMerge.MergeIsTheOnlyLine` | include/data_source/source/exchange/binance/binance_historical/binance_historical_source.hpp:261-263 | The order fixes the line: any line sorted that way with every stream's events in order is the merge. |
| `SourceMerge.BarsComeLast` | include/data_source/source/exchange/binance/binance_historical/binance_historical_source.hpp:170-172 | No bar comes out before a non-bar of its own stamp, and stamps never go back. |
| `SourceMerge.ArrivalsDoNotMatter` | include/data_source/source/exchange/binance/binance_historical/binance_historical_source.hpp:108-137 | Answers that each do to the line what next does to it give a prefix of the line, and all of it once one is Eof. |
| `SourceMerge.ReadAll` | include/data_source/source/exchange/binance/binance_historical/binance_historical_source.hpp:108-137 | A source read to its end, on any schedule of arrivals and then with everything there, ends and gives the whole merged line, each event once and in order. |
| `FileSource.Pull` | include/data_source/source/exchange/binance/binance_historical/stream.hpp:78-135 | A stream asked with k of its files there hands over the next event of its tape exactly when the first k files hold it, and with none left is finished exactly when all files were there: what the merge takes of a tape, whatever a fetch brought. |
| `FileSource.LineOfFiles` | include/data_source/source/exchange/binance/binance_historical/binance_historical_source.hpp:108-137 | In the merged line are the events of each stream's readable files, file after file and row after row, and with ascending streams it ascends, bars after all else of their stamp. |
| `FileSource.ReadFiles` | include/data_source/source/exchange/binance/binance_historical/binance_historical_source.hpp:108-137 | A source over streams whose files arrive on any schedule, and all in the end, gives the line of those files. |
| `SourceMerge.Source.Next` | include/data_source/source/exchange/binance/binance_historical/binance_historical_source.hpp:110-137 | next emits the front of the line, or NoData exactly while some unfinished stream has nothing to compare, or Eof exactly when the line is out; every stream stays in exactly one of pending, heap or dropped. |
| `SourceMerge.RefillPending` | include/data_source/source/exchange/binance/binance_historical/binance_historical_source.hpp:113-125 | The compaction of pending in place: each pending stream is loaded into the heap, dropped when finished, or kept, and waiting is answered exactly when one is starved. |
| `SourceMerge.PopFront` | include/data_source/source/exchange/binance/binance_historical/binance_historical_source.hpp:130-136 | The root of the heap is the front of the line, and its stream becomes pending. |
| `SourceMerge.LeastIsFirst` | include/data_source/source/exchange/binance/binance_historical/binance_historical_source.hpp:130-131 | With nothing pending the least key of the heap is the front of the merged line. |
| `Heap.Push` | include/data_source/source/exchange/binance/binance_historical/binance_historical_source.hpp:117-118 | push_heap: the heap order holds again with exactly one element more. |
| `Heap.Pop` | include/data_source/source/exchange/binance/binance_historical/binance_historical_source.hpp:130-132 | pop_heap: the least element leaves, the rest is a heap. |
| `RunDataSource.PollLeg` | include/data_source/run_data_source.hpp:24-43 | A held event goes first; only with none held is the source asked, what its sink refuses is held, and the source stays at the place in its line that its answers say. |
| `RunDataSource.RoundKeepsLeg` | include/data_source/run_data_source.hpp:24-43 | On every leg the events recorded followed by the one held are the events pulled. |
| `RunDataSource.DataSourceRun.PollRound` | include/data_source/run_data_source.hpp:19-46 | Every leg not done takes exactly one step a round, one that is done is left alone, and progress is reported exactly when some sink took an event. |
| `RunDataSource.Run` | include/data_source/run_data_source.hpp:56-79 | Over merging sources, any schedule of arrivals, full sinks and stops: whenever the loop ends, what each sink has, what is held and what its source has still to give are the merged line of the source; when it ends for Eof the sink has the whole line and nothing is held. |
| `RunDataSource.WholeLineRecorded` | include/data_source/run_data_source.hpp:66-68 | On a leg whose source is where its answers say, recorded, held and still to come add up to the line of the source at every moment, and a leg that is done has recorded all of it. |
| `Transport.TicksLoseNoEvent` | include/engine/transport/backtest_in_process/backtest_in_process_transport.hpp:51-69 | Ticks only come in between: the events delivered are the merge, each once and in order. |
| `Transport.TickedInTimeOrder` | include/engine/transport/backtest_in_process/backtest_in_process_transport.hpp:53-65 | Stamps never decrease, and a tick comes strictly before every event at or after it. |
| `Transport.TicksAreEveryPeriod` | include/engine/transport/backtest_in_process/backtest_in_process_transport.hpp:55-64 | Ticks are one period apart and stop with the last not past the last event. |
| `Transport.WholeTimeline` | include/engine/transport/backtest_in_process/backtest_in_process_transport.hpp:30-70 | From the start, with legs in stamp order: time order, ties to the lowest leg, every leg's events complete and in order, and ticks at exactly the first stamp plus k periods up to the last stamp. |
| `Transport.Look` | include/engine/transport/backtest_in_process/backtest_in_process_transport.hpp:31-46 | The single pass picks the leg a linear scan for the earliest front would, and reports a missing leg exactly when a dry one could still hold an earlier event. |
| `Transport.Deliver` | include/engine/transport/backtest_in_process/backtest_in_process_transport.hpp:51-69 | With the earliest leg known, the tick due or that leg's event is the front of the timeline. |
| `Transport.BacktestInProcessTransport.Next` | include/engine/transport/backtest_in_process/backtest_in_process_transport.hpp:30-70 | next delivers the front of the timeline, or nothing exactly while a leg is dry and not flushed, or when the timeline is out. |
| `Replay.Step` | include/engine/engine.hpp:69-90 | One step applies exactly the next of the timeline to the engine, or finds the transport dry and changes nothing. |
| `Replay.Drain` | include/engine/engine.hpp:63-65 | With everything pushed, stepping until dry ends and has stepped all that was left. |
| `Replay.Run` | include/engine/engine.hpp:47-66 | Whatever was pushed when, the run ends with the engine in the state that stepping the whole timeline of merged legs and ticks leads to. |
| `Portfolio.CashBalances` | include/core/portfolio.hpp:31-47 | Over any sequence of fills, fundings and marks: cash, signed fill notional, all fees and funding paid, less funding received, add up to zero. |
| `Portfolio.BooksFollowBookings` | include/core/portfolio.hpp:31-63 | A slot's position and fees are the sums over its own fills, its marks the latest prices of its own events. |
| `Portfolio.LatestMarkCounts` | include/core/portfolio.hpp:49-63 | A mark is the price of the latest trade, bar or mark bar of the slot, a funding mark that of the latest mark bar. |
| `Portfolio.FundingCharged` | include/core/portfolio.hpp:39-47 | A funding event after any bookings takes the sum of the slot's signed fills, times its latest mark bar, times the rate, out of cash: a positive product counts as funding paid, a negative one by its amount as received. |
| `Portfolio.FillPaidFor` | include/core/portfolio.hpp:31-37 | A fill after any bookings: what is bought is added to the position and its price leaves the cash, what is sold the other way round, and the fee leaves it either way. |
| `Portfolio.OtherSlotsUntouched` | include/core/portfolio.hpp:31-63 | Nothing booked for one instrument touches another's books. |
| `Portfolio.FundingGoesOneWay` | include/core/portfolio.hpp:39-47 | Position times funding mark times rate leaves the cash; funding paid and received only grow, and exactly the one its sign says, by its amount. |
| `Portfolio.FillCosts` | include/core/portfolio.hpp:31-37 | A fill changes equity by its fee and by the distance of its price from the mark, and by nothing else. |
| `Portfolio.EventMovesEquity` | include/core/portfolio.hpp:39-63 | An event changes equity by minus position times funding mark times rate if it is a funding, and by the position's gain on its new mark. |
| `Portfolio.DrainedPositions` | include/core/portfolio.hpp:31-37 | Fills move positions by their signed quantities and leave every mark alone. |
| `Portfolio.Portfolio.TotalEquity` | include/core/portfolio.hpp:91-96 | The loop of equity computes cash plus positions at their marks. |
| `Subscription.WithinExtentsExactly` | include/core/subscription.hpp:55-76 | A resolved instrument lies within the extents exactly when its market id is not 65535, whose successor wraps to zero, and its place in the list, wrapped to 16 bits, is below the greatest wrapped list length: always so in a list of fewer than 65536 symbols, never at place 65535. |
| `Subscription.LastMarketHasNoRoom` | include/core/subscription.hpp:62-68 | A subscription to market 65535 alone resolves its symbol and has no slots at all. |
| `Subscription.FullListHasNoRoom` | include/core/subscription.hpp:70-80 | 65536 symbols in one market all resolve, and there is no slot for any. |
| `Subscription.LongListSharesASlot` | include/core/subscription.hpp:39-53 | With one symbol more the first and the last resolve to the same instrument, within the extents. |
| `Subscription.IndexInRange` | include/core/portfolio.hpp:25-29 | Within the extents the slot index is below the number of slots. |
| `Subscription.IndexIsInjective` | include/core/portfolio.hpp:25-29 | Within the extents no two instruments share a slot index. |
| `Subscription.InRangeExactly` | include/core/portfolio.hpp:25-29 | An instrument, within the extents or not, has a slot of the portfolio exactly when there are columns and its row, its market's own or one further for each list length its symbol runs past, is one of the portfolio's. |
| `Subscription.SameSlotExactly` | include/core/portfolio.hpp:25-29 | Two instruments have one index exactly when their rows and their columns agree. |
| `Subscription.DistinctSlots` | include/core/portfolio.hpp:25-29 | Two distinct subscribed names have two slots of the portfolio exactly when there are columns, both rows are the portfolio's and row or column differs; within the extents both slots are the portfolio's, and they are one exactly when the names are of one market and their places agree modulo 65536, so lie at least 65536 apart. |
| `Subscription.SlotOfAnotherMarket` | include/core/portfolio.hpp:25-29 | A market of 65536 symbols beside one of two: its third symbol has the slot of the other market's first. |
| `Subscription.SlotOutsideTheExtents` | include/core/portfolio.hpp:25-29 | A symbol outside the extents may have a slot of the portfolio all the same. |
| `Subscription.ResolvedApart` | include/core/subscription.hpp:39-53 | Two distinct names resolve to one instrument exactly when they are of one market and their places agree modulo 65536. |
| `Subscription.SubscriptionBuilder.Add` | include/core/subscription.hpp:109-132 | What is added resolves from then on, and nothing added before resolves to another place. |
| `RiskGate.BasicRiskGate.Check` | include/risk/basic/basic_risk_gate.hpp:33-49 | A tripped gate rejects; otherwise the order is for the clamped target less the position and the id is the next one. |
| `RiskGate.BasicRiskGate.OnTick` | include/risk/basic/basic_risk_gate.hpp:51-69 | The peak is raised first; the gate trips once, on the drawdown limit, and then orders the flattening of everything tracked. |
| `RiskGate.OrderReachesTarget` | include/risk/basic/basic_risk_gate.hpp:36-48 | An order takes the position to the point within the limit nearest to its intent's target. |
| `RiskGate.FlatteningFlattens` | include/risk/basic/basic_risk_gate.hpp:57-67 | The flattening orders minus the position of every slot, once for each time the slot is tracked; it takes the position to zero exactly when the slot is tracked once or nothing is held. |
| `RiskGate.TrackedTwiceOvershoots` | include/risk/basic/basic_risk_gate.hpp:57-67 | A slot tracked twice is flattened twice: a long position of one becomes a short one. |
| `RiskGate.TickNumbers` | include/risk/basic/basic_risk_gate.hpp:57-67 | The flattening orders take the next order ids one after the other, and the gate goes on after them. |
| `SimExecution.OneOutcomeEach` | include/execution/sim/matcher/last_trade/last_trade_matcher.hpp:27-53 | Every order ends as one fill or one reject; fills are at the slot's last price with the taker fee, rejects only on slots without one. |
| `SimExecution.EveryOrderAnswered` | include/execution/sim/matcher/last_trade/last_trade_matcher.hpp:27-53 | Every order is answered once and in turn: with a price by a fill of its own id, side and quantity at that price and time, without one by a reject of its own id. |
| `SimExecution.FillsMoveWhatWasOrdered` | include/execution/sim/sim_execution.hpp:30-36 | On a slot with a price the new fills move exactly what was ordered, on one without nothing. |
| `SimExecution.SubmittedConcat` | include/execution/sim/sim_execution.hpp:30-36 | Submitting orders in two parts is submitting them all. |
| `SimExecution.SimExecution.Submit` | include/execution/sim/sim_execution.hpp:30-36 | The order's one outcome is appended. |
| `Engine.Engine.Step` | include/engine/engine.hpp:69-90 | The step method's whole new state, on real objects: funding before marks, checks before the tick, fills drained last. |
| `Engine.OrdersNumbered` | include/risk/basic/basic_risk_gate.hpp:41-65 | Over any run the orders submitted are numbered 1, 2, 3 and so on, the flattening's among them. |
| `Engine.LastPriceIsLatest` | include/execution/sim/matcher/last_trade/last_trade_matcher.hpp:16-29 | Over any run a slot's orders meet the price of its latest trade or bar. |
| `Engine.AnswersAreStamped` | include/execution/sim/sim_execution.hpp:30-36 | The fills a pull makes carry its own stamp, the event's or the timer's. |
| `Engine.EventStepMoves` | include/engine/engine.hpp:73-87 | One event step on one position, in full: with a price, what the intents ordered and, on the trip, minus the position held before the step as often as its slot is tracked. |
| `Engine.PositionsStayWithinLimit` | include/risk/basic/basic_risk_gate.hpp:33-69 | Over any run of events, every position stays within max_position_qty until the trip, and after it within the limit times one more than its slot is tracked: twice the limit for a slot tracked once. |
| `Engine.NothingMovesAfterTrip` | include/risk/basic/basic_risk_gate.hpp:33-55 | After the trip step no position changes again, over any further events. |
| `Engine.TripsOnDrawdown` | include/risk/basic/basic_risk_gate.hpp:51-57 | In any run the gate has tripped exactly when at some pull equity was max_drawdown or more below an earlier level or zero. |
| `Engine.TripStepLeavesTheIntent` | include/engine/engine.hpp:78-87 | A trip step ends flat on a slot exactly when it is priced and the step's intents order there what the flattening overshoots, which for a slot tracked once is nothing, or it is unpriced and was flat. |
| `Engine.RunTripsNotFlat` | include/engine/engine.hpp:73-87 | A run of four events whose last trips the gate and sells the tracked spot position twice over: it ends short. |
| `Engine.EntersHoldsAndExits` | include/strategy/carry/funding_carry_strategy.hpp:32-58 | At the entry rate or above the legs go to the target and its opposite, at the exit rate or below they close, in between they stay. |
| `Engine.LegsCancel` | include/strategy/carry/funding_carry_strategy.hpp:32-58 | With both legs priced before the first funding event, no zero price, and both legs tracked equally often, spot and futures positions add up to zero after every step of any run. |
| `Engine.LegsStayOppositeExactly` | include/engine/engine.hpp:73-87 | Any event step, with orders, a trip or both, keeps opposite legs opposite exactly when both move as far: an unpriced leg not at all, a priced one by the order wanted less what the trip unwinds of it. |
| `Engine.RunPartsTheLegs` | include/execution/sim/matcher/last_trade/last_trade_matcher.hpp:27-38 | A bar of the spot leg and a funding event: the spot order fills, the futures order is rejected and the legs have parted. |
| `Engine.LegsPartWhenOneIsUnpriced` | include/execution/sim/matcher/last_trade/last_trade_matcher.hpp:27-38 | A step without a trip parts opposite legs exactly when something is ordered and only one leg has a price. |
| `Engine.LegsPartWhenOneIsFlattened` | include/risk/basic/basic_risk_gate.hpp:57-67 | A trip step without an order of the strategy parts them exactly when there is a position and the legs are flattened unequally often, a leg without a price not at all. |
| `Engine.RunBalances` | include/engine/engine.hpp:69-125 | Money is conserved over any run of events and timers: the balance of the books is minus the notional of all fills applied. |
| `Engine.PositionsAreAppliedFills` | include/engine/engine.hpp:122-125 | Positions are the sums of the fills applied. |
| `Engine.FillsAppliedOnce` | include/engine/engine.hpp:80-87 | The fills applied over a run are the fills made, each once, exactly when no timer pull finds fills left from the pull before. |
| `Engine.TimerFillsTwice` | include/engine/engine.hpp:80-87 | Two bars, one funding event and one timer tick: the tick buys the spot position a second time. |
| `Engine.TimerAppliesAgain` | include/engine/engine.hpp:80-87 | A timer pull moves every position by the fills still in the buffer, and by the flattening if it trips. |
| `CostTable.CountRows` | include/execution/sim/matcher/cost_aware/cost_model/half_spread_linear/half_spread_linear.hpp:23-24 | The counts are the numbers of rows of each instrument. |
| `CostTable.RunningTotals` | include/execution/sim/matcher/cost_aware/cost_model/half_spread_linear/half_spread_linear.hpp:26-31 | The offsets lay the runs end to end without overlap or gap. |
| `CostTable.Distribute` | include/execution/sim/matcher/cost_aware/cost_model/half_spread_linear/half_spread_linear.hpp:33-39 | Every row lands in its instrument's run, in table order. |
| `CostTable.SortRuns` | include/execution/sim/matcher/cost_aware/cost_model/half_spread_linear/half_spread_linear.hpp:41-47 | Sorting one run leaves every other as it is. |
| `CostTable.RunsPermuteTable` | include/execution/sim/matcher/cost_aware/cost_model/half_spread_linear/half_spread_linear.hpp:19-48 | The constructor permutes the table into disjoint runs, one an instrument, each sorted by week. |
| `CostTable.LatestIsLatest` | include/execution/sim/matcher/cost_aware/cost_model/half_spread_linear/half_spread_linear.hpp:55-62 | A linear scan of the whole table finds a row of the instrument with the greatest week start not after the time, or none when there is none. |
| `CostTable.FoundInRun` | include/execution/sim/matcher/cost_aware/cost_model/half_spread_linear/half_spread_linear.hpp:58-62 | What the binary search of a run finds, a scan of the whole table finds. |
| `CostTable.UpperBound` | include/execution/sim/matcher/cost_aware/cost_model/half_spread_linear/half_spread_linear.hpp:58-60 | upper_bound: how many rows of a sorted run start at or before the time. |
| `CostTable.HalfSpreadLinearImpact.constructor` | include/execution/sim/matcher/cost_aware/cost_model/half_spread_linear/half_spread_linear.hpp:19-48 | The object built holds the runs of the table. |
| `CostTable.HalfSpreadLinearImpact.Price` | include/execution/sim/matcher/cost_aware/cost_model/half_spread_linear/half_spread_linear.hpp:55-71 | price answers none exactly when the linear scan finds none, else prices with a latest row, with no week twice for an instrument the very row the scan finds: a buy above and a sell below the reference by half the spread and the impact of its quantity in basis points, never better than it with nothing negative, and the fee in basis points of the value. |
| `Calendar.NumbersCountDays` | include/data_source/source/exchange/binance/binance_historical/parsers/csv_field.hpp:153-161 | days_from_civil gives n for the date reached by counting n days from 1970-01-01, forwards or backwards without end. |
| `Calendar.EveryDateIsCounted` | include/data_source/source/exchange/binance/binance_historical/parsers/csv_field.hpp:153-161 | Every date of the calendar is the one reached by counting to its number. |
| `Calendar.NumbersAscend` | include/data_source/source/exchange/binance/binance_historical/parsers/csv_field.hpp:153-161 | A later date has a greater number. |
| `Calendar.TomorrowCountsOne` | include/data_source/source/exchange/binance/binance_historical/parsers/csv_field.hpp:153-168 | The day after, by month lengths and the leap rule, has the next number. |
| `Calendar.InClosedForm` | include/data_source/source/exchange/binance/binance_historical/parsers/csv_field.hpp:154-161 | The era arithmetic is 365 days a year, the leap days, and the days of the months. |
| `CsvField.FixedDigits` | include/data_source/source/exchange/binance/binance_historical/parsers/csv_field.hpp:171-181 | The loop accepts exactly runs of digits and computes their number. |
| `CsvField.TakeDatetime` | include/data_source/source/exchange/binance/binance_historical/parsers/csv_field.hpp:186-214 | The method refines the reading of the 19 characters the lemmas are about. |
| `CsvField.RenderedIsAccepted` | include/data_source/source/exchange/binance/binance_historical/parsers/csv_field.hpp:186-214 | Every real stamp is accepted in its rendering, alone or before a comma, as its own instant. |
| `CsvField.AcceptedIsRendered` | include/data_source/source/exchange/binance/binance_historical/parsers/csv_field.hpp:186-214 | Nothing else is accepted: an accepted row begins with the rendering of the stamp it gives. |
| `CsvField.DatetimesKeepTextOrder` | include/data_source/source/exchange/binance/binance_historical/parsers/csv_field.hpp:186-214 | Of two accepted rows the one that reads earlier as text has the smaller timestamp, strictly, and the other way round. |
| `CsvField.DatetimeFitsExactly` | include/data_source/source/exchange/binance/binance_historical/parsers/csv_field.hpp:209-211 | The timestamp fits 64 bits exactly from 1677-09-21 00:12:44 to 2262-04-11 23:47:16. |
| `CsvField.ScaledStampFitsExactly` | include/data_source/source/exchange/binance/binance_historical/parsers/csv_field.hpp:16-30 | Of the epoch stamps let through, exactly those up to 9223372036854, or from the floor up to 9223372036854775, fit 64 bits when scaled: the ceiling is not enough. |
| `CsvField.AcceptedStampOverflows` | include/data_source/source/exchange/binance/binance_historical/parsers/csv_field.hpp:135-151 | take_stamp accepts the digits of 9223372036855, whose nanoseconds do not fit. |
| `CsvField.WrittenStampIsAccepted` | include/data_source/source/exchange/binance/binance_historical/parsers/csv_field.hpp:135-151 | Every stamp above zero and below the ceiling is accepted from its digits, alone or before a comma, as its nanoseconds. |
| `CsvField.UnitsAgreeExactly` | include/data_source/source/exchange/binance/binance_historical/parsers/csv_field.hpp:28-30 | One instant in milliseconds and in microseconds is one timestamp, exactly from when its microseconds reach the floor. |
| `CsvField.ScanDigits` | include/data_source/source/exchange/binance/binance_historical/parsers/csv_field.hpp:69-75 | The digit loop finds the whole run and, up to eighteen digits, its value. |
| `CsvField.TakeStamp` | include/data_source/source/exchange/binance/binance_historical/parsers/csv_field.hpp:135-151 | take_stamp accepts exactly one to eighteen digits up to the comma or the end, above zero and below the ceiling. |
| `CsvField.TakeDecimal` | include/data_source/source/exchange/binance/binance_historical/parsers/csv_field.hpp:62-89 | The one pass over mantissa and scale gives the exact value of sign, digits and fraction, and the slow path's answer for anything else. |
| `CsvField.DecimalReadsItsText` | include/data_source/source/exchange/binance/binance_historical/parsers/csv_field.hpp:62-89 | A decimal with a point and at most eighteen digits reads as the number it writes. |
| `CsvField.WholeReadsItsText` | include/data_source/source/exchange/binance/binance_historical/parsers/csv_field.hpp:62-89 | A decimal without a point and of at most eighteen digits reads as the number it writes. |
| `CsvField.DecimalIsItsDigits` | include/data_source/source/exchange/binance/binance_historical/parsers/csv_field.hpp:70-84 | The number a decimal writes is that of all its digits over ten for every digit after the point, with its sign. |
| `CsvField.FastIsPlain` | include/data_source/source/exchange/binance/binance_historical/parsers/csv_field.hpp:62-89 | Exactly the rows that begin with such a decimal, up to the comma or the end, are taken in the one pass; every other gets the slow path's answer. |
| `BookDepth.ParseGroup` | include/data_source/source/exchange/binance/binance_historical/parsers/book_depth.hpp:24-83 | A block is accepted exactly when all its rows parse and hold each band once, both inner bands or neither, nothing else, and one stamp; each band kept is its own row's. |
| `BookDepth.ParseBookDepth` | include/data_source/source/exchange/binance/binance_historical/parsers/book_depth.hpp:24-83 | The same on bytes, with the rows parsed as the row reading says. |
| `BookDepth.RowReadsItsText` | include/data_source/source/exchange/binance/binance_historical/parsers/book_depth.hpp:38-46 | A row written as a stamp and three decimals reads as that stamp, percent, depth and notional. |
| `BookDepth.BandsBySide` | include/data_source/source/exchange/binance/binance_historical/parsers/book_depth.hpp:53-71 | Of an accepted block the row at minus k percent is the k-th bid and the row at plus k percent the k-th ask. |
| `BookDepth.CountedMeansComplete` | include/data_source/source/exchange/binance/binance_historical/parsers/book_depth.hpp:76-78 | Distinct bands and their number are enough: with ten of them none can be missing. |
| `BookDepth.CompleteCounts` | include/data_source/source/exchange/binance/binance_historical/parsers/book_depth.hpp:76-78 | A complete block has ten rows, or twelve with both inner bands. |
| `BookDepth.AddRow` | include/data_source/source/exchange/binance/binance_historical/parsers/book_depth.hpp:31-73 | One turn of the row loop takes the row over, or refuses it when no block can go on from it. |
| `BookDepth.OrderDoesNotMatter` | include/data_source/source/exchange/binance/binance_historical/parsers/book_depth.hpp:24-83 | Neither acceptance nor the bands depend on the order of the rows. |
| `Walk.NeverTooMany` | python/qp_research/event.py:141-154 | At no instant are more than slots trades open, nor more than per_coin in one coin. |
| `Walk.TakenExactlyWhenItFits` | python/qp_research/event.py:150-151 | A candidate is taken exactly when, of the trades taken before it, fewer than slots are open at its entry and fewer than per_coin of its coin: every refusal has its cause. |
| `Walk.StrongerFirst` | python/qp_research/event.py:141-143 | Of two candidates of one coin at the same entry the weaker is never taken in place of the stronger. |
| `Walk.WalkAll` | python/qp_research/event.py:141-154 | The walk with its heap of exits and its lists by coin takes exactly what the rule takes. |
| `Walk.PopEnded` | python/qp_research/event.py:146-147 | The pops leave exactly the exits still ahead. |
| `Walk.OpenIsExitsAfter` | python/qp_research/event.py:146-151 | The size of the heap is the number of trades open. |
| `Walk.OpenIsCount` | python/qp_research/event.py:146-151 | The trades open at an instant are those taken that have been entered and not yet exited, of the coin asked about. |
| `Cache.StaleGroups` | python/qp_research/cache.py:111-116 | Every symbol that lacks a part is in a group that lacks exactly its parts, as often as it is asked for, and no other symbol is in any. |
| `Cache.Write` | python/qp_research/cache.py:130-149 | After a write each partition written holds the archive's rows below its through time, and of every other the index row and the file are as they were; sizes in the index are those of the files. |
| `Cache.FillGroup` | python/qp_research/cache.py:117-121 | Fetching the span of the shared gaps chunk by chunk completes every symbol of the group and makes nothing complete stale. |
| `Cache.Fill` | python/qp_research/cache.py:110-121 | Afterwards everything asked for is complete as far as needed and everything else as it was; each symbol that lacks a part is fetched once for each time it is asked for, at most a chunk at a time, from the first part it lacks to the last, and no other symbol. |
| `Cache.Trim` | python/qp_research/cache.py:180-197 | Ends within the cap or with only spared partitions on disk, least recently read first, the rest untouched; nothing goes of a cache that fits, and without the last partition to go the rest would not fit. |
| `Cache.CompleteIsReadable` | python/qp_research/cache.py:99-107 | Complete enough means that the rows read below need are the archive's, exactly when the part is in the index or the archive has none: the default of -1 is complete enough for a part needed only before the epoch. |
| `Cache.MissedBeforeTheEpoch` | python/qp_research/cache.py:113 | A row from before the epoch that an empty cache takes itself to be complete without. |
| `Cache.Cache.Scan` | python/qp_research/cache.py:99-122 | After scan the rows read below need equal the archive's over every requested part, exactly when the part was in the index before, or is needed from the epoch on, or the archive has none of it. Each symbol that lacks a part is fetched once for each time it is asked for, from the first part it lacks to the last, and no other symbol; all that is not asked for is as it was, but for what trimming no further than it must has taken. What is read is marked as read now, and the sizes trimming adds up are those of the files. |
| `Cache.FetchedBetween` | python/qp_research/cache.py:113-118 | A part that is complete enough is fetched again exactly when it lies between two parts of its symbol that are not. |
| `Cache.FetchesWhatIsComplete` | python/qp_research/cache.py:113-118 | Three parts of which only the middle one is complete: the span fetched takes it along. |
| `Cache.Cache.ScanTwice` | python/qp_research/cache.py:111-116 | An identical call straight after fetches nothing. |
| `Cache.PlanCovers` | python/qp_research/data/binance.py:58-71 | The fetch windows run from start to the time reported without gap or overlap. |
| `Cache.PlanReaches` | python/qp_research/data/binance.py:160-170 | Planning any span from the first part on reaches what planning the whole request needs. |
| `Cache.PlanFetches` | python/qp_research/data/binance.py:58-71 | A plan takes from monthly files every time of the span they are published for, from daily files exactly the published times past those, and is complete through the last published time of the span. |
| `Partitions.Months` | python/qp_research/cache.py:60-68 | Whole calendar months one after the other, from the one start is in to the one that reaches end, as the cache demands its parts. |
| `Partitions.YearsCover` | python/qp_research/cache.py:53-57 | Whole calendar years one after the other, covering the span, as the cache demands its parts. |
| `Partitions.HorizonInOrder` | python/qp_research/data/binance.py:52-55 | Published days end at the midnight before the last one, published months at the start of the month that holds the midnight a week before that. |

## Left out

- Memory orderings below sequential consistency, wrap-around of counters, cache lines, backoff, sleeping and the condition variable of the workers: an interleaving model does not see them.
- What the books do at a slot index out of range: `Subscription.InRangeExactly` says which instruments have one.
- HTTP, TLS, retries and their pauses, the connection pool, zip inflation, S3 listing and the log of failures: a fetch is its outcome, a file body or a failure status.
- The choice of planned files by their stamps, `expected_rows` and the schedule of `pump` in `next`: a stream starts with its plan, expected row counts are given, and `FetchPool` lets the source thread pump at any time.
- FetchPool.QuiesceDrains: for one call of quiesce; a second caller waits on a mutex that the model does not have.
- StreamRows.Note: event ids are the parser's, with the 64-bit successor; stamps are integers.
- CostTable.SortByWeek: stands for std::sort, of which only sortedness and the rows are promised.
- Heap.Pop: a binary heap of its own for std::pop_heap and heapq, of which only the contract matters.
- BookDepth.RowIn: the slow path of a decimal is a parameter, and percent times 100 is exact, not a rounded double.
- Walk.WalkAll: the sort of the candidates is taken as done; polars does it.
- Cache.Cache.Scan: the index and the disk are maps, without SQLite, parquet or crashes between a file and its index row; venue, market and dataset are one name.
- Transport.BacktestInProcessTransport.Next: the queues are what has been pushed and read of each leg, as `SpmcQueue.EveryConsumerGetsAPrefix` allows; flush comes after the last push.
- RunDataSource.Run: the sources are merging sources, and the sinks' queues only have room or not; a stop may leave one pulled event of a leg unrecorded, as in the code.
- Rings are modelled as transition systems on values and not as classes, because methods would run each operation whole.
- `SpscQueue`, `EquitySeriesCollector`, `ControlChannel` and `ViewablePool`: easier cases of the same arguments.
- The matcher over the cost table, the equity recorder, the reports of streams and pool, and `Cache.clear` and `info`: no argument beyond those made here.
- Python strategies and risk callbacks, statistics, plots and the polars and pandas pipelines: foreign calls and library numerics.
