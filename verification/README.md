# A verified model of the low-latency C++ and systems-programming repository

Dafny models, with proofs, of the five parts of the repository whose correctness is not
visible from any one function.

1. **Limit order book and market data** (Chapter 6 of the exchange). The book is modelled
   twice: as a value (`BookSpec`: two sequences in price-time order and a pure matcher) and as
   the code keeps it (`OrderBook.MEOrderBook`: level rings, order rings, a price table and a
   client/order table, all changed in place). The class is proved against the value, and the
   laws of the value are proved for whole runs (`BookLaws`). `Replay` and `Snapshot` follow
   the emitted updates through the publisher, the snapshot synthesizer and a late reader;
   `MemPool` is the block pool, from which book and synthesizer take their blocks through
   `BookPools`; `MatchingEngine` is the loop over client requests that joins the classes to
   the pure run; `BookRuns` has runs from the empty book into every failure. `BookStore` says
   when memory holds together; `StoreLaws`, `StoreSteps`, `StoreOps`, `StoreCounts`,
   `LevelRings`, `Ring`, `Seqs`, `Sets` and `Options` serve the proofs about it.
2. **Memory reclamation for the lock-free stack**: split reference counts
   (`SplitCountStack`) and hazard pointers (`HazardStack`), each a step machine for any number
   of threads that is proved safe and then proved to refine one atomic stack (`AtomicStack`);
   `HazardReclaim` has what the hazard scan decides and what the draining of the reclaim list
   achieves.
3. **Concurrent containers**: the ticketed many-to-many queue (`MpmcQueue`, with its capacity
   in `Capacity` and its slot arithmetic in `RingIndex`) and the one-to-one ring with cached
   cursors (`SpscFifo`), both refining `AtomicFifo`; and the hand-over-hand list
   (`LockedList`, `LockedListRuns`, `LockedListVisits`, and `LockedListReturns` for what its
   operations return).
4. **The process scheduler simulator** (`SchedulerSpec`, `SchedulerLaws`, `SchedulerRun`,
   `SchedulerStall`, and the class in `Scheduler`).
5. **Buffered robust reads** (`RioSpec` for what is delivered, `Rio` for the buffer).

Concurrent code is modelled as sequentially consistent machines: one step per atomic access,
per dereference, per allocation or release, or per lock action. Every interleaving of any
number of threads is a run, compare-exchanges marked weak may fail spuriously, allocation may
return any unused address, and touching a released address raises `fault`.

## Where the code and its evident intent differ

The code is modelled as it stands; each difference is turned into an exact condition.

* `me_order_book.cpp:61` lacks the test for the buy side that lines 64 and 68 have. A new best
  ask beside two or more ask levels is therefore linked wrongly. `BookSpec.Mislinked` is that
  case, checkable before the request; `MEOrderBook.Add` is proved to keep the book exactly
  when the guard `BookSpec.Safe` holds, and to break its links or tables otherwise.
  `Safe` also contains the two conventions that the code leaves to its callers: live prices
  that share a slot of the price table are one price of one side, and a live
  client/order-id pair is not used again. `BookRuns.RunToMislinkedAsk` reaches line 61's case.
* A pool stops the process when its last block is taken (`memory_pool.h:27-29`), so the price
  table has slots for one level more, and the id tables for one order more, than the pools of
  the same size serve. `BookSpec.HasRoom` is the guard, again checkable before the request;
  `Add` stops exactly where it fails. The synthesizer's pool is in the condition under which
  `Replay.AddTo` accepts an update. `BookRuns.LevelPoolRunsOut` and
  `BookRuns.OrderPoolRunsOut` are runs into both limits.
* `me_order_book.h:36-38` never advances the market order id. `Replay.ReplayGivesBook` takes
  the ids as an input and shows that the replay works exactly on runs with fresh ids and
  room in the synthesizer's pool;
  `Replay.ReplayWithConstantIds` says what that comes to for the ids as the code hands them
  out, and `Replay.TwoOrdersBreakTheSnapshot` is the smallest failing run.
* The scheduler's option for the length of an I/O takes negative values, with which an I/O
  never completes. `SchedulerRun.Terminates` is the condition under which a run ends, and
  `SchedulerStall.EndsExactly` proves that it is exact.
* The stack calls `outstanding_hazard_pointers_for`, the header defines
  `out_standing_hazard_pointers_for`. They are read as one function.
* The price table and the client/order table are taken to start out null, and client ids,
  order ids and tickers of requests to be in range, as the code's `at` calls demand.

## Model

| member | source | states |
|---|---|---|
| `OrderBook.MEOrderBook.constructor` | Building_lowlatency_application_cpp/Chapter6/me_order_book.cpp:4-8 | A new book holds together and is empty on both sides. |
| `OrderBook.MEOrderBook.Add` | Building_lowlatency_application_cpp/Chapter6/me_order_book.cpp:20-33 | On every valid book and every request: the process stops exactly when a pool has only its last block left for an order or level that must be made, after the responses and the updates of the matching are sent. The first response accepts the request under the caller's own client, order id, ticker, side, price and quantity. Otherwise the responses are those of pure price-time matching; if the guard holds, so are the book and the market updates, and rings, tables and pools hold together, and what is left rests under the caller's ids, price and side and is announced by an ADD; if it does not, no reading of the links and tables as a book exists any more. |
| `OrderBook.ValidBook` | Building_lowlatency_application_cpp/Chapter6/me_order_book.cpp:20-33 | Whenever memory holds together the book is well formed, and fewer orders and prices are live than the pools have blocks. |
| `OrderBook.MEOrderBook.NewOrder` | Building_lowlatency_application_cpp/Chapter6/me_order_book.cpp:28 | An order gets a fresh block, unless as many orders are live as the pool serves. |
| `OrderBook.MEOrderBook.RestOrder` | Building_lowlatency_application_cpp/Chapter6/me_order_book.cpp:26-29 | What is left of a request comes to rest exactly if both pools have room, with the next priority of its price, at its place where it can rest; where it cannot, memory no longer holds together. |
| `OrderBook.MEOrderBook.Cancel` | Building_lowlatency_application_cpp/Chapter6/me_order_book.cpp:95-114 | Cancelling takes exactly the one live order with that client and order id out of the book, all others staying, reports its market id, side, price and quantity to that client under that id and sends its CANCEL to the market; when there is none it sends a rejection with those ids and changes nothing. The book stays well formed. |
| `OrderBook.GoneFromBook` | Building_lowlatency_application_cpp/Chapter6/me_order_book.cpp:95-133 | The order taken out is the one order of the book with its key: as multisets, the old orders are the new ones and it. |
| `OrderBook.RestsAsAsked` | Building_lowlatency_application_cpp/Chapter6/me_order_book.cpp:25-32 | What is left of a request is in the book under its own client, order id, side and price, with exactly the quantity left, and the last update is the ADD that says so. |
| `MatchingEngine.ProcessClientRequest` | Building_lowlatency_application_cpp/Chapter6/matching_engine.cpp:52-80 | A request inside the guard is applied to the book as the pure step says, with its responses and updates; the process stops exactly when the pools have no room for it. |
| `MatchingEngine.Serve` | Building_lowlatency_application_cpp/Chapter6/matching_engine.cpp:36-51 | Over a whole session inside the guard, from the empty book: the class ends with the book, responses and updates of the pure run, or stops at exactly the first request without room, with all responses sent up to it. |
| `MatchingEngine.Session` | Building_lowlatency_application_cpp/Chapter6/matching_engine.cpp:36-51 | The updates the book class has sent, published and taken into a snapshot after any number of them, give a late reader exactly the live orders of the book, if ids are fresh. |
| `OrderBook.MEOrderBook.CheckForMatch` | Building_lowlatency_application_cpp/Chapter6/me_order_book.cpp:152-176 | The pointer loop refines the pure matcher: same fills in the same order, same residual, same resting side, other side untouched; it ends because each round exhausts the incoming quantity or removes an order. In prices: no FILLED response and no TRADE of a buyer is above the limit, or of a seller below it; and if quantity is left, the best price that stays is strictly beyond the limit. |
| `OrderBook.MEOrderBook.MatchOrder` | Building_lowlatency_application_cpp/Chapter6/me_order_book.cpp:177-201 | One round trades with the best resting order at its own price, sends two fill responses of equal size and two updates, and shrinks that order or removes it; rings and tables hold together. |
| `OrderBook.MEOrderBook.RemoveOrder` | Building_lowlatency_application_cpp/Chapter6/me_order_book.cpp:115-133 | Unlinking an order, with its level if it was alone there, takes exactly that order out of its side and its entry out of the client/order table. |
| `OrderBook.MEOrderBook.DetachOrder` | Building_lowlatency_application_cpp/Chapter6/me_order_book.cpp:118-130 | An order that is alone goes with its level; any other leaves a closed ring whose first order moves on only if it was the one taken out. |
| `OrderBook.MEOrderBook.UnlinkOrder` | Building_lowlatency_application_cpp/Chapter6/me_order_book.cpp:121-130 | The ring of the other orders closes over the gap, and the level's first order moves on only if it was the one unlinked. |
| `OrderBook.MEOrderBook.UnlinkLevel` | Building_lowlatency_application_cpp/Chapter6/me_order_book.cpp:138-148 | The ring of the other levels closes over the gap, and the head of the side moves on only if it was the one unlinked, to nothing if it was the last. |
| `OrderBook.MEOrderBook.RemoveOrdersAtPrice` | Building_lowlatency_application_cpp/Chapter6/me_order_book.cpp:134-151 | The level leaves its ring, the price table and the pool; both rings stay closed, sorted and headed by the best level, and the other side keeps its levels. |
| `OrderBook.MEOrderBook.WalkLevels` | Building_lowlatency_application_cpp/Chapter6/me_order_book.cpp:60-72 | The walk ends, and stops at the unique sorted place of the new price, except for a new best ask among several levels, where it stops one level too late. |
| `OrderBook.MEOrderBook.LinkLevel` | Building_lowlatency_application_cpp/Chapter6/me_order_book.cpp:60-93 | Linking a level into a side with levels keeps both rings and the price table, except in that one case, after which no two sequences of levels describe the links. |
| `OrderBook.MEOrderBook.AddOrdersAtPrice` | Building_lowlatency_application_cpp/Chapter6/me_order_book.cpp:51-94 | The same for any side, an empty one included; the other side keeps its levels. |
| `OrderBook.MEOrderBook.AddLevelFor` | Building_lowlatency_application_cpp/Chapter6/me_order_book.cpp:37-41 | A level is made for the order alone unless as many levels are live as the pool serves; it is put at the sorted place of its price, except in the one case of line 61. |
| `OrderBook.MEOrderBook.EnterLevel` | Building_lowlatency_application_cpp/Chapter6/me_order_book.cpp:39-40 | A level in its block enters pool, price table and the sorted ring of its side, under the same exception. |
| `OrderBook.MEOrderBook.LinkOrder` | Building_lowlatency_application_cpp/Chapter6/me_order_book.cpp:42-48 | The order is linked into the ring before the first one, so at the end of the queue. |
| `OrderBook.MEOrderBook.AddOrder` | Building_lowlatency_application_cpp/Chapter6/me_order_book.cpp:34-50 | The process stops exactly if the slot of the price is empty and as many distinct prices have orders as the level pool serves. If it goes on and the order can rest, it takes its place behind all orders not worse than it and memory holds together; if it cannot, memory no longer does. |
| `OrderBook.MEOrderBook.AddOrderAlone` | Building_lowlatency_application_cpp/Chapter6/me_order_book.cpp:37-41 | The same for a price whose slot of the table is empty. |
| `OrderBook.MEOrderBook.AddOrderBehind` | Building_lowlatency_application_cpp/Chapter6/me_order_book.cpp:42-49 | The same for a price whose slot has a level, where nothing can stop the process. |
| `OrderBook.PriorityAt` | Building_lowlatency_application_cpp/Chapter6/me_order_book.h:47-53 | Whenever an order can rest, the priority read off the ring is one more than that of the last order of its price on its own side, and 1 for a new price. |
| `OrderBook.AsksMislinked` | Building_lowlatency_application_cpp/Chapter6/me_order_book.cpp:61-91 | If the asks are headed by a new level whose successor is the old second best, no choice of sequences makes these links two sorted rings with all levels on them. |
| `OrderBook.NewBestAskIsNotSafe` | Building_lowlatency_application_cpp/Chapter6/me_order_book.cpp:61-65 | A concrete well-formed book and request, outside the guard, on which line 61 goes wrong. |
| `OrderBook.NewBestAskBesideOneIsSafe` | Building_lowlatency_application_cpp/Chapter6/me_order_book.cpp:61-65 | The same request beside a single ask level is inside the guard. |
| `OrderBook.PricesThatShareASlotAreNotSafe` | Building_lowlatency_application_cpp/Chapter6/me_order_book.h:39-44 | Two bids a table length apart are outside the guard, for they would share a slot of the price table. |
| `BookRuns.RunToMislinkedAsk` | Building_lowlatency_application_cpp/Chapter6/me_order_book.cpp:61-65 | From the empty book, two asks are safe and the better one that follows is not, though the pools have room for all three. |
| `BookRuns.LevelPoolRunsOut` | Building_lowlatency_application_cpp/Chapter6/common/memory_pool.h:27-29 | From the empty book, 256 bids at 256 prices are all safe and the first 255 have room; the last stops the process. |
| `BookRuns.OrderPoolRunsOut` | Building_lowlatency_application_cpp/Chapter6/common/memory_pool.h:27-29 | From the empty book, 2^20 bids at one price with fresh ids are all safe; the last, and only it, stops the book, and would stop the synthesizer. |
| `StoreLaws.GoodBook` | Building_lowlatency_application_cpp/Chapter6/me_order_book.cpp:34-151 | If rings and tables hold together, quantities are positive and the sides do not cross, the book they represent is sorted, with distinct client/order ids and prices apart in the table. |
| `StoreCounts.LevelCount` | Building_lowlatency_application_cpp/Chapter6/me_order_book.cpp:39 | As many level blocks are in use as distinct prices have live orders. |
| `StoreCounts.OrderCount` | Building_lowlatency_application_cpp/Chapter6/me_order_book.cpp:28 | As many order blocks are in use as orders are live. |
| `BookPools.Obtain` | Building_lowlatency_application_cpp/Chapter6/common/memory_pool.h:47-55 | A client holding fewer than N-1 of N blocks gets one it does not hold; one holding N-1 stops the process. |
| `BookPools.Release` | Building_lowlatency_application_cpp/Chapter6/common/memory_pool.h:57-62 | A block a client holds is always taken back, and is then the only one it holds no longer. |
| `BookLaws.PriceTimePriority` | Building_lowlatency_application_cpp/Chapter6/me_order_book.cpp:152-201 | The matcher against an independent account: it trades with exactly the orders whose predecessors together fall short of the quantity and whose price is within the limit (no higher for a buyer, no lower for a seller), in order, each at its own price and for what the earlier ones left; every field of its responses and updates is named. |
| `BookLaws.MatchShape` | Building_lowlatency_application_cpp/Chapter6/me_order_book.cpp:152-176 | Matching eats whole orders from the front, then part of one, then nothing; every order it removes is within the limit, and if quantity is left the next one is beyond it. |
| `BookLaws.TradesWithinLimit` | Building_lowlatency_application_cpp/Chapter6/me_order_book.cpp:152-201 | Every fill and every trade is at a price within the limit, and quantity is left only if the best order that stays is beyond it. |
| `BookLaws.InsertSorted` | Building_lowlatency_application_cpp/Chapter6/me_order_book.cpp:34-50 | An order put at its place with the next priority keeps the side strictly sorted by price and then by priority. |
| `BookLaws.PriorityIsNext` | Building_lowlatency_application_cpp/Chapter6/me_order_book.h:47-53 | A newcomer's priority is 1 if no order rests at its price, and otherwise one more than the greatest priority there. |
| `BookLaws.ApplyKeeps` | Building_lowlatency_application_cpp/Chapter6/me_order_book.cpp:20-33 | Every safe request keeps the book sorted, uncrossed, with positive quantities, distinct client/order ids and prices apart in the table. |
| `BookLaws.CancelKeeps` | Building_lowlatency_application_cpp/Chapter6/me_order_book.cpp:95-114 | Every cancel keeps the book well formed, with no guard at all. |
| `BookLaws.NeverCrossed` | Building_lowlatency_application_cpp/Chapter6/me_order_book.cpp:152-176 | In every reachable state every bid is below every ask and in another slot of the price table. |
| `BookLaws.RestsOnItsOwnSide` | Building_lowlatency_application_cpp/Chapter6/me_order_book.cpp:34-50 | An order that comes to rest never meets its own price on the other side, so the shared table gives it no level of the wrong side. |
| `BookLaws.MatchConserves` | Building_lowlatency_application_cpp/Chapter6/me_order_book.cpp:177-201 | What both parties executed, what is left over and what rests add up to what rested and came in. |
| `BookLaws.QuantityConserved` | Building_lowlatency_application_cpp/Chapter6/me_order_book.cpp:20-33 | Over every run of the matcher: accepted quantity is executed quantity of both parties, plus cancelled, plus resting. It speaks for the code as long as no request was outside the guards. |
| `Replay.ApplyReplays` | Building_lowlatency_application_cpp/Chapter6/market_data/snapshot_synthesizer.cpp:17-60 | Replaying the updates of one request into an image of the book stops exactly when an order comes to rest under an id that is taken or too large, or finds only the last block of the pool left; otherwise the image is that of the new book. |
| `Replay.ReplayGivesBook` | Building_lowlatency_application_cpp/Chapter6/market_data/snapshot_synthesizer.cpp:17-60 | For every run of the matcher: no assertion can fire if and only if every order that comes to rest has a fresh id and a block of the synthesizer's pool, and then the replayed image holds exactly the live orders with side, price, quantity and priority. It speaks for the code as long as no request was outside the guards. |
| `Replay.ImageSize` | Building_lowlatency_application_cpp/Chapter6/market_data/snapshot_synthesizer.cpp:27 | An image that shows a book has as many entries, and so blocks, as the book has live orders. |
| `Replay.ReplayWithConstantIds` | Building_lowlatency_application_cpp/Chapter6/me_order_book.h:36-38 | With the ids as the code hands them out, the replay survives a run if and only if no order ever comes to rest beside another. |
| `Replay.TwoOrdersBreakTheSnapshot` | Building_lowlatency_application_cpp/Chapter6/me_order_book.h:36-38 | Two resting bids are a safe run of the book and stop the replay. |
| `Snapshot.MarketDataPublisher.Drain` | Building_lowlatency_application_cpp/Chapter6/market_data/market_data_publisher.cpp:7-18 | The queued updates go out in order under consecutive numbers, and are forwarded under the same ones. |
| `Snapshot.SnapshotSynthesizer.AddToSnapshot` | Building_lowlatency_application_cpp/Chapter6/market_data/snapshot_synthesizer.cpp:17-60 | One message is taken in exactly when it fits the image, the pool has more than its last block for a new entry, and the message carries the next number; then image and number move on together, and every entry has its block. |
| `Snapshot.SnapshotSynthesizer.Enter` | Building_lowlatency_application_cpp/Chapter6/market_data/snapshot_synthesizer.cpp:27 | A new entry is made exactly if fewer than 2^20 - 1 are live. |
| `Snapshot.SnapshotSynthesizer.Leave` | Building_lowlatency_application_cpp/Chapter6/market_data/snapshot_synthesizer.cpp:46-47 | An entry goes with its block, whose release the pool never refuses. |
| `Snapshot.SnapshotSynthesizer.Process` | Building_lowlatency_application_cpp/Chapter6/market_data/snapshot_synthesizer.cpp:117-124 | On a consecutively numbered stream only the image and its pool can stop the loop, and they do not exactly when the whole stream replays. |
| `Snapshot.SnapshotSynthesizer.PublishSnapshot` | Building_lowlatency_application_cpp/Chapter6/market_data/snapshot_synthesizer.cpp:62-98 | The snapshot's messages are numbered contiguously from 0; between the two markers they go through the tickers in turn, clearing each ticker first and then sending its entries by increasing id, all of them and each once. |
| `Snapshot.SnapshotInOrder` | Building_lowlatency_application_cpp/Chapter6/market_data/snapshot_synthesizer.cpp:62-98 | The same of the messages themselves: first and last are the markers, which carry the last number taken in; in the body the pairs of ticker and id rise strictly, every message clears a ticker or is an entry, and every ticker is cleared and every entry sent. |
| `Snapshot.SnapshotRestores` | Building_lowlatency_application_cpp/Chapter6/market_data/snapshot_synthesizer.cpp:62-98 | Round trip: reading a snapshot gives back the image it was taken of, whatever the reader held before. |
| `Snapshot.SnapshotThenUpdates` | Building_lowlatency_application_cpp/Chapter6/market_data/snapshot_synthesizer.cpp:17-98 | For every k: the snapshot after update k and then updates k+1 to n give the image of updates 1 to n from nothing; both markers carry k. |
| `Snapshot.LateReader` | Building_lowlatency_application_cpp/Chapter6/market_data/snapshot_synthesizer.cpp:111-131 | The chain put together from the classes: the updates of a run of requests, published, taken in up to number k, and published as a snapshot, give a reader who goes on with the later updates exactly the live orders of the book; on runs with fresh ids that fit the pool nothing stops. |
| `MemPool.Pool.UpdateNextFreeIndex` | Building_lowlatency_application_cpp/Chapter6/common/memory_pool.h:20-32 | The cyclic search ends; it finds the first free block going round, or stops the process exactly when there is none. |
| `MemPool.FirstFreeUnique` | Building_lowlatency_application_cpp/Chapter6/common/memory_pool.h:20-32 | The search has one result: the first free block going round is unique. |
| `MemPool.NextUnique` | Building_lowlatency_application_cpp/Chapter6/common/memory_pool.h:47-62 | So the state an operation leaves is determined by the state before it. |
| `MemPool.Pool.Allocate` | Building_lowlatency_application_cpp/Chapter6/common/memory_pool.h:47-55 | The block under the cursor was free and is handed out; the process stops exactly when no other block was free. |
| `MemPool.Pool.Deallocate` | Building_lowlatency_application_cpp/Chapter6/common/memory_pool.h:57-62 | A block is taken back exactly if it belongs to the pool and is not free. |
| `MemPool.PoolHistory` | Building_lowlatency_application_cpp/Chapter6/common/memory_pool.h:47-62 | Over every history: no block is handed out while it is held, the flags say what is held, and the number held is the caller's balance and below N. |
| `MemPool.PoolLimit` | Building_lowlatency_application_cpp/Chapter6/common/memory_pool.h:20-62 | After every history an allocation goes through if and only if fewer than N-1 blocks are held, and a deallocation if and only if its block is held. |
| `SplitCountStack.Preservation` | Cpp_concurrency_in_action/chapter7/lockfree_stack_split_reference_count.h:21-64 | Every step of every thread, whatever the others do, keeps the invariant that ties the two counts of each node to its holders. |
| `SplitCountStack.RunKeeps` | Cpp_concurrency_in_action/chapter7/lockfree_stack_split_reference_count.h:21-64 | So it holds in every reachable state. |
| `SplitCountStack.CountingLaw` | Cpp_concurrency_in_action/chapter7/lockfree_stack_split_reference_count.h:46-62 | In every run: a linked node's external count less one, plus its internal count, is the number of threads holding it; after the transfer the internal count alone is; a node about to be deleted has no holder. |
| `SplitCountStack.NoUseAfterFree` | Cpp_concurrency_in_action/chapter7/lockfree_stack_split_reference_count.h:41-64 | No run touches or deletes a released address, a held node stays allocated with its link, and a node is released only when nobody holds it. |
| `SplitCountStack.ExchangeVerdict` | Cpp_concurrency_in_action/chapter7/lockfree_stack_split_reference_count.h:21-52 | In every run the three compare-exchanges go through exactly if `head_` is what the thread read before; only the weak one may fail for no reason; a pop returns nothing exactly if the head it has counted is null. |
| `SplitCountStack.QuiescentHeap` | Cpp_concurrency_in_action/chapter7/lockfree_stack_split_reference_count.h:54-62 | With no operation under way the allocated nodes are exactly those on the stack: nothing leaks. |
| `SplitCountStack.Refinement` | Cpp_concurrency_in_action/chapter7/lockfree_stack_split_reference_count.h:32-64 | Each step is a step of the atomic stack, and a call returns what its own commit gave it. |
| `SplitCountStack.Linearizable` | Cpp_concurrency_in_action/chapter7/lockfree_stack_split_reference_count.h:32-64 | Every run is a run of the atomic stack. |
| `SplitCountStack.ValuesConserved` | Cpp_concurrency_in_action/chapter7/lockfree_stack_split_reference_count.h:32-64 | In every run the pushed values are, as multisets, the popped ones and those on the stack, so none is popped twice. |
| `AtomicStack.PoppedAtMostOnce` | Cpp_concurrency_in_action/chapter7/lockfree_stack_split_reference_count.h:32-64 | The same conservation for every run of the specification that both stacks refine. |
| `AtomicStack.LastInFirstOut` | Cpp_concurrency_in_action/chapter7/lockfree_stack_split_reference_count.h:32-64 | In every run of that specification, the pop that brings the stack back to its height before a push returns what that push put there. |
| `AtomicStack.EffectAtTop` | Cpp_concurrency_in_action/chapter7/lockfree_stack_split_reference_count.h:32-64 | A pop returns nothing exactly on the empty stack; otherwise it returns the element it takes off, at the end where a push adds its own. |
| `HazardStack.Preservation` | Cpp_concurrency_in_action/chapter7/lockfree_stack_hazard_pointer.h:77-106 | Every step of every thread, including each single slot read of a scan, keeps the invariant and leaves alone every node another thread guards. |
| `HazardStack.RunKeeps` | Cpp_concurrency_in_action/chapter7/lockfree_stack_hazard_pointer.h:70-106 | So the invariant holds in every reachable state. |
| `HazardStack.NoUseAfterFree` | Cpp_concurrency_in_action/chapter7/lockfree_stack_hazard_pointer.h:79-91 | From its validation until its thread writes the slot again, a guarded node stays in the table, allocated and with its link; no run touches or deletes a released address. |
| `HazardStack.ScanDone` | Cpp_concurrency_in_action/chapter7/hazard_pointer.h:53-62 | A thread that has passed all slots one by one without finding the node can conclude that nobody guards it now, although the table changed meanwhile. |
| `HazardStack.GuardNew` | Cpp_concurrency_in_action/chapter7/lockfree_stack_hazard_pointer.h:84-91 | A node just seen to be the head is on the stack and in nobody's scan, so a guard cannot appear behind a scan. |
| `HazardStack.OnePlace` | Cpp_concurrency_in_action/chapter7/hazard_pointer.h:83-109 | In every run each allocated node is in one place only: private, on the stack, with the popper that unlinked it, or in exactly one record. |
| `HazardStack.RecordPlace` | Cpp_concurrency_in_action/chapter7/hazard_pointer.h:95-109 | And each record is on the shared list, in one drainer's share of it, or in one thread's hands. |
| `HazardStack.QuiescentHeap` | Cpp_concurrency_in_action/chapter7/hazard_pointer.h:89-109 | With no operation under way every allocated node is on the stack or waits on the reclaim list: nothing is lost. |
| `HazardReclaim.ScanVerdict` | Cpp_concurrency_in_action/chapter7/hazard_pointer.h:53-62 | In every run a scan leads to retiring a node, or to putting its record back, exactly when the slot it reads names the node, and to releasing the node exactly when it has read every slot. |
| `HazardReclaim.RecordVerdict` | Cpp_concurrency_in_action/chapter7/hazard_pointer.h:98-108 | In every run a drainer that goes on from a record has released its node and then the record, or has stood before a table that names the node and put the record back on the list. |
| `HazardReclaim.UnnamedIsReleased` | Cpp_concurrency_in_action/chapter7/hazard_pointer.h:98-108 | So a node that no slot names while a drainer is at its record is released in that round, and so is the record. |
| `HazardReclaim.DrainJudgesAll` | Cpp_concurrency_in_action/chapter7/hazard_pointer.h:95-109 | A drainer goes through the whole list it took: before it returns, each node on it has been released by it, or was named in the table at one of its steps. |
| `HazardReclaim.WinnersDuty` | Cpp_concurrency_in_action/chapter7/lockfree_stack_hazard_pointer.h:95-104 | A pop that has unlinked a node returns only after it has released the node or stood before a table that names it, and has taken the whole reclaim list to drain it. |
| `HazardReclaim.SlotsCleared` | Cpp_concurrency_in_action/chapter7/lockfree_stack_hazard_pointer.h:84-93 | In every run a slot names a node only while the thread that owns it is in the loop of `pop`: no slot stays set behind a pop or a thread. |
| `HazardReclaim.DrainedAlone` | Cpp_concurrency_in_action/chapter7/hazard_pointer.h:95-109 | A pop that drains while no other operation is under way leaves nothing behind: the nodes allocated when it returns are exactly those on the stack, and no record is left. |
| `HazardReclaim.ExchangeVerdict` | Cpp_concurrency_in_action/chapter7/lockfree_stack_hazard_pointer.h:74-91 | In every run the compare-exchanges of `push`, `pop` and the reclaim list go through exactly if they find what the thread read before, or, where weak, fail for no reason; the second look at `head_` validates exactly an unchanged node. |
| `HazardReclaim.ClaimVerdict` | Cpp_concurrency_in_action/chapter7/hazard_pointer.h:19-33 | A thread without a slot takes the first that it finds without an owner, with no pointer in it, and is refused exactly when it has tried all 100. |
| `HazardStack.KeepTakeList` | Cpp_concurrency_in_action/chapter7/hazard_pointer.h:97 | The exchange hands the whole list to one drainer and keeps the invariant. |
| `HazardStack.KeepAddRecord` | Cpp_concurrency_in_action/chapter7/hazard_pointer.h:83-87 | Publishing a record, by a popper or by a drainer in the middle of its share, keeps the invariant. |
| `HazardStack.Refinement` | Cpp_concurrency_in_action/chapter7/lockfree_stack_hazard_pointer.h:70-106 | Each step is a step of the atomic stack; reclaiming changes nothing that can be observed. |
| `HazardStack.Linearizable` | Cpp_concurrency_in_action/chapter7/lockfree_stack_hazard_pointer.h:70-106 | Every run is a run of the atomic stack. |
| `HazardStack.ValuesConserved` | Cpp_concurrency_in_action/chapter7/lockfree_stack_hazard_pointer.h:70-106 | In every run no value is popped twice or without having been pushed. |
| `Capacity.RoundCapacity` | Mutex&LockFree/lockfreequeue_maybetrash.h:13-18 | On 64-bit words: from 1 to 2^63 the smearing loop gives a power of two at least the request and less than twice it, and for every other request it wraps to 0. |
| `Capacity.LeastPowerOfTwo` | Mutex&LockFree/lockfreequeue_maybetrash.h:13-18 | No smaller power of two would do. |
| `Capacity.MaskTakesRemainder` | Mutex&LockFree/lockfreequeue_maybetrash.h:49-65 | Tickets any number of capacities apart are masked to one slot, and below the capacity the slot is the ticket. |
| `Capacity.MaskIsIndex` | Mutex&LockFree/lockfreequeue_maybetrash.h:49-65 | Masking takes the remainder: for every ticket and every power of two, the masked word stands for the number of the ticket modulo the capacity, which is the slot the queue model uses. |
| `Capacity.ValueNext` | Mutex&LockFree/lockfreequeue_maybetrash.h:52-68 | Counting a ticket up by one counts the number it stands for up by one, until the last word. |
| `RingIndex.Apart` | Mutex&LockFree/lockfreequeue_maybetrash.h:49-73 | Two tickets of one slot lie at least a capacity apart. |
| `MpmcQueue.Preservation` | Mutex&LockFree/lockfreequeue_maybetrash.h:45-75 | Every step of every thread keeps each slot in one of four phases that its two tickets determine, with at most one thread in charge of it. |
| `MpmcQueue.NoRace` | Mutex&LockFree/lockfreequeue_maybetrash.h:45-75 | In every run no element is constructed over another, or read or destroyed where there is none; the claimed tickets span at most the capacity; and no two threads are on one slot together. |
| `MpmcQueue.OneOnSlot` | Mutex&LockFree/lockfreequeue_maybetrash.h:52-73 | Two threads that have claimed tickets of one slot and not given them back are one thread with one ticket. |
| `MpmcQueue.FreeSlot` | Mutex&LockFree/lockfreequeue_maybetrash.h:49-53 | If the slot's tail ticket admits the next push, the slot is empty and the queue is below its capacity. |
| `MpmcQueue.FullSlot` | Mutex&LockFree/lockfreequeue_maybetrash.h:65-69 | If the slot's head ticket admits the next pop, the slot holds the value claimed for that very ticket. |
| `MpmcQueue.PushRefusal` | Mutex&LockFree/lockfreequeue_maybetrash.h:50-51 | A push is refused only if its ticket was claimed by another push, the queue is full, or a pop has not yet given the slot back. |
| `MpmcQueue.PopRefusal` | Mutex&LockFree/lockfreequeue_maybetrash.h:66-67 | A pop is refused only if its ticket was claimed by another pop, the queue is empty, or a push has not yet published its element. |
| `MpmcQueue.PushVerdict` | Mutex&LockFree/lockfreequeue_maybetrash.h:47-54 | In every run a push that carries the current ticket is refused if and only if the queue is full or the pop of the previous element of its slot is unfinished. |
| `MpmcQueue.PopVerdict` | Mutex&LockFree/lockfreequeue_maybetrash.h:63-70 | In every run a pop that carries the current ticket is refused if and only if the queue is empty or the push of that ticket is unfinished. |
| `MpmcQueue.ClaimVerdict` | Mutex&LockFree/lockfreequeue_maybetrash.h:52-69 | A claim goes through exactly if the cursor still stands at the ticket, or, being weak, fails for no reason; then the thread goes on with the ticket it found. |
| `MpmcQueue.Refinement` | Mutex&LockFree/lockfreequeue_maybetrash.h:45-75 | Each step is a step of the atomic bounded queue; a pop returns the element pushed under its ticket. |
| `MpmcQueue.Linearizable` | Mutex&LockFree/lockfreequeue_maybetrash.h:45-75 | Every run is a run of the atomic bounded queue. |
| `MpmcQueue.DeliversInOrder` | Mutex&LockFree/lockfreequeue_maybetrash.h:45-75 | In every run what has gone in is, in order, what has come out and what is still there. |
| `AtomicFifo.FirstInFirstOut` | Mutex&LockFree/lockfreequeue_maybetrash.h:45-75 | The same for every run of the specification, whose queue never exceeds its capacity. |
| `AtomicFifo.EffectAtEnds` | Mutex&LockFree/lockfreequeue_maybetrash.h:45-75 | A push that takes effect adds at the end of a queue that is not full, a pop returns the first element and takes it out, and nothing else changes the queue. |
| `SpscFifo.Fifo1.Push` | Mutex&LockFree/fifo1.h:31-37 | The plain ring appends, or refuses, exactly when it holds as many elements as it has cells. |
| `SpscFifo.Fifo1.Pop` | Mutex&LockFree/fifo1.h:39-46 | The plain ring gives up its oldest element, or refuses exactly when empty. |
| `SpscFifo.Preservation` | Mutex&LockFree/fifo4.h:44-70 | Under every interleaving cached pop <= pop <= cached push <= push <= cached pop + capacity, the elements stand in their cells, and a stale copy leads to no overwrite and no early read. |
| `SpscFifo.NoRace` | Mutex&LockFree/fifo4.h:52-67 | The writing producer and the reading consumer are never on one cell. |
| `SpscFifo.LikePlain` | Mutex&LockFree/fifo4.h:44-70 | Where a call of the fast ring takes effect, its outcome and the queue are those of the plain ring: a push is refused exactly if as many elements are queued as there are cells, a pop exactly if none is; otherwise the element is appended, or the oldest is returned and gone. |
| `SpscFifo.Refinement` | Mutex&LockFree/fifo4.h:44-70 | Each step of the fast ring is a step of the atomic bounded queue. |
| `SpscFifo.Linearizable` | Mutex&LockFree/fifo4.h:44-70 | Every run of the fast ring is a run of that queue, so elements come out in order, each once. |
| `LockedList.KeepNext` | Cpp_concurrency_in_action/chapter6/6.3.2_threadsafe_list.cpp:32-89 | Every step of any number of threads in any of the four operations keeps the list an acyclic chain, its elements in order of entry, and every access to a node under its mutex. |
| `LockedList.RemovedAlone` | Cpp_concurrency_in_action/chapter6/6.3.2_threadsafe_list.cpp:77-82 | A node taken out of the list is neither locked nor awaited by any other thread. |
| `LockedList.HeldInList` | Cpp_concurrency_in_action/chapter6/6.3.2_threadsafe_list.cpp:43-50 | A thread only ever holds mutexes of nodes in the list or of the one it is removing. |
| `LockedList.NextInList` | Cpp_concurrency_in_action/chapter6/6.3.2_threadsafe_list.cpp:45-46 | The node after the one a thread holds is in the list, and no element stands between them. |
| `LockedListRuns.RunKeeps` | Cpp_concurrency_in_action/chapter6/6.3.2_threadsafe_list.cpp:32-89 | No run touches a released node, accesses a node without its mutex, or destroys a mutex that is held or awaited. |
| `LockedListRuns.WaitsForward` | Cpp_concurrency_in_action/chapter6/6.3.2_threadsafe_list.cpp:44-50 | A thread that waits while holding a mutex waits for exactly the next node of the list. |
| `LockedListRuns.SomeoneBeyond` | Cpp_concurrency_in_action/chapter6/6.3.2_threadsafe_list.cpp:44-50 | Following the waits down the list leads to a thread that can take a step. |
| `LockedListRuns.NoDeadlock` | Cpp_concurrency_in_action/chapter6/6.3.2_threadsafe_list.cpp:9-11 | In no reachable state are unfinished operations all stuck. |
| `LockedListRuns.EndOfWalk` | Cpp_concurrency_in_action/chapter6/6.3.2_threadsafe_list.cpp:45-51 | At the end of the list everything that was there at the start and still is has been passed. |
| `LockedListRuns.TraversalIsComplete` | Cpp_concurrency_in_action/chapter6/6.3.2_threadsafe_list.cpp:40-89 | A traversal that reaches the end has looked at, and turned down, every element present throughout, whatever others inserted and removed meanwhile. |
| `LockedListVisits.VisitsInOrder` | Cpp_concurrency_in_action/chapter6/6.3.2_threadsafe_list.cpp:40-89 | In every run each traversal has looked at elements in strictly falling order of entry, so at none twice, whatever others inserted and removed meanwhile. |
| `LockedListVisits.VisitedExactlyOnce` | Cpp_concurrency_in_action/chapter6/6.3.2_threadsafe_list.cpp:40-52 | A traversal that reaches the end has looked exactly once at every element present throughout, so the function of `for_each` is applied to it once. |
| `LockedListRuns.FoundMatches` | Cpp_concurrency_in_action/chapter6/6.3.2_threadsafe_list.cpp:62-64 | What a search is about to return matches and is in the list at that moment. |
| `LockedListReturns.FindReturnsFirst` | Cpp_concurrency_in_action/chapter6/6.3.2_threadsafe_list.cpp:54-66 | In every run, what `find_first_if` returns is what the last element it looked at held then; the predicate holds of it and of none that it looked at before. |
| `LockedListReturns.FindReturnsNone` | Cpp_concurrency_in_action/chapter6/6.3.2_threadsafe_list.cpp:54-69 | In every run, a search that returns nothing has looked at every element that stood in the list all the while, and the predicate held of none that it looked at. |
| `LockedListReturns.TraversalReturns` | Cpp_concurrency_in_action/chapter6/6.3.2_threadsafe_list.cpp:40-89 | In every run, `for_each` and `remove_if` return nothing, having looked at every element that stood in the list all the while; of those, `remove_if` found none that matches. |
| `LockedListReturns.PushReturns` | Cpp_concurrency_in_action/chapter6/6.3.2_threadsafe_list.cpp:32-38 | In every run, `push_front` returns nothing, having put its value in front of the list in exactly one of its steps and left the list alone in all others. |
| `LockedListReturns.LookedWasThere` | Cpp_concurrency_in_action/chapter6/6.3.2_threadsafe_list.cpp:45-51 | Each element that a traversal looked at was in the list, with the value it saw, when it did. |
| `LockedListRuns.StepEffect` | Cpp_concurrency_in_action/chapter6/6.3.2_threadsafe_list.cpp:32-89 | The list of elements changes only by a push at the front, the removal of a matching element, or the caller's function on one element, each in one step; all else keeps its place. |
| `LockedListRuns.ElementsAccounted` | Cpp_concurrency_in_action/chapter6/6.3.2_threadsafe_list.cpp:32-89 | In every run and for every id: an element that has entered is in the list if and only if no step so far removed it, and at most one step ever did. |
| `LockedListRuns.ElementsCounted` | Cpp_concurrency_in_action/chapter6/6.3.2_threadsafe_list.cpp:32-89 | The elements that have entered are as many as those in the list and the removals together. |
| `LockedListRuns.NothingLeaks` | Cpp_concurrency_in_action/chapter6/6.3.2_threadsafe_list.cpp:71-89 | Between operations only the nodes of the list are allocated, and no mutex is held. |
| `Scheduler.Scheduler.LoadProgram` | OSTEP/Chapter4/process-run.py:64-79 | A program becomes a READY process whose code is that of its lines in order: N computations for `cN`, none for a negative N, and for `i` an I/O followed by its completion instruction, and nothing else. |
| `Scheduler.Scheduler.NextProc` | OSTEP/Chapter4/process-run.py:122-137 | If some process is READY, the current one becomes the READY process with the least distance `(pid - curr - 1) mod n` and RUNNING, and nothing else changes; if none is READY, nothing changes. |
| `SchedulerLaws.NextIsNearest` | OSTEP/Chapter4/process-run.py:127-137 | The same of the specification: the two scans come to the READY process nearest going round from the one after the current. |
| `Scheduler.Scheduler.GetNumActive` | OSTEP/Chapter4/process-run.py:148-153 | Counts the processes that are not done, so it is zero exactly at the end. |
| `Scheduler.Scheduler.GetNumRunnable` | OSTEP/Chapter4/process-run.py:155-161 | Counts the processes that are READY or RUNNING. |
| `Scheduler.Scheduler.GetIosInFlight` | OSTEP/Chapter4/process-run.py:163-169 | Counts the completion times that lie ahead, over all processes. |
| `Scheduler.Scheduler.CheckIfDone` | OSTEP/Chapter4/process-run.py:178-183 | A running process without instructions is DONE and the nearest READY one runs; otherwise nothing changes. |
| `Scheduler.Scheduler.FinishIo` | OSTEP/Chapter4/process-run.py:219-235 | A completion makes its process run, instead of the one that runs now under IO_RUN_IMMEDIATE; only under IO_RUN_LATER with SWITCH_ON_IO, and if another process can run, it becomes READY. Its asserted transitions hold. |
| `Scheduler.Scheduler.CheckIoFinish` | OSTEP/Chapter4/process-run.py:215-235 | The loop over all processes wakes exactly the one that is due at this tick, if any, and reports whether there was one. |
| `Scheduler.Scheduler.IssueIo` | OSTEP/Chapter4/process-run.py:272-276 | The current process blocks with one completion time, and the CPU passes on under SWITCH_ON_IO. |
| `Scheduler.Scheduler.Tick` | OSTEP/Chapter4/process-run.py:212-279 | The loop body refines one tick of the specification, statistics included. |
| `Scheduler.Scheduler.Run` | OSTEP/Chapter4/process-run.py:185-280 | For all programs and all four policy pairs for which a run ends at all, the simulation ends with every process done, no sooner; all assertions hold; cpu_busy is the number of instructions; clock_tick is at most instructions + io_length x I/Os + empty programs and io_busy at most io_length x I/Os, with equality under SWITCH_ON_END. |
| `Scheduler.Scheduler.MainLoop` | OSTEP/Chapter4/process-run.py:212-279 | The loop goes on exactly until every process is done, with the statistics of the ticks so far. |
| `SchedulerLaws.OneDue` | OSTEP/Chapter4/process-run.py:217-220 | A process whose completion is due is BLOCKED, and no other completes at the same tick. |
| `SchedulerLaws.WakeSound` | OSTEP/Chapter4/process-run.py:219-235 | Waking a process keeps the invariant under all four policy pairs. |
| `SchedulerLaws.StepIs` | OSTEP/Chapter4/process-run.py:237-279 | After the completions a tick takes one instruction off the current process if it is RUNNING; its last instruction ends it; an I/O blocks it with the completion time `clock + io_length + 1`, and under SWITCH_ON_IO the nearest READY process runs. |
| `SchedulerLaws.DispatchedSound` | OSTEP/Chapter4/process-run.py:221-234 | So does the choice of who runs after a completion. |
| `SchedulerLaws.NotStuck` | OSTEP/Chapter4/process-run.py:212-280 | While some process is not done, one runs or one waits for an I/O. |
| `SchedulerLaws.TickSound` | OSTEP/Chapter4/process-run.py:212-279 | Every tick keeps the invariant and brings the end at least one tick nearer, under SWITCH_ON_END exactly one. |
| `SchedulerRun.InFlightIsWaiting` | OSTEP/Chapter4/process-run.py:163-169 | The number of I/Os in flight is the number of BLOCKED processes. |
| `SchedulerRun.RunSound` | OSTEP/Chapter4/process-run.py:185-280 | Before the end every tick of a run satisfies the invariant, and statistics and remaining work add up to the totals. |
| `SchedulerRun.EveryTick` | OSTEP/Chapter4/process-run.py:212-279 | At the end of every tick at most the current process is RUNNING, each BLOCKED process has exactly one completion ahead and others none, and under SWITCH_ON_IO a READY process implies a RUNNING one. |
| `SchedulerRun.FinalStatistics` | OSTEP/Chapter4/process-run.py:208-280 | At the end every instruction was executed exactly once, within the bounds above. |
| `SchedulerRun.RunGoesNoFurther` | OSTEP/Chapter4/process-run.py:212 | No run goes on beyond that bound. |
| `SchedulerRun.RunEnds` | OSTEP/Chapter4/process-run.py:212 | If I/Os do not have a negative length, or there are none, every run ends, at a first tick at which all are done. |
| `SchedulerStall.EndsExactly` | OSTEP/Chapter4/process-run.py:212-279 | For all programs and policies a run ends if and only if I/Os do not have a negative length or there are none. |
| `SchedulerStall.NeverDone` | OSTEP/Chapter4/process-run.py:270-276 | Otherwise at every tick some process waits for a completion time that is past, or has an I/O still before it. |
| `Rio.Descriptor.Read` | CSAPP/Chapter11_Networking/csapp.c:810-811 | One outcome of the schedule is used up: bytes at the start of the buffer, the end of file, an interruption or an error. |
| `Rio.Buffered.constructor` | CSAPP/Chapter11_Networking/csapp.c:837-842 | A new buffer is empty, so all that is to come is what the descriptor yields. |
| `Rio.Buffered.Refill` | CSAPP/Chapter11_Networking/csapp.c:809-820 | Afterwards the buffer holds a byte and nothing was lost, or the end of file or an error has been met, whatever interruptions came between. |
| `Rio.Buffered.RioRead` | CSAPP/Chapter11_Networking/csapp.c:805-830 | Delivers between 1 and n of the next bytes at the place asked for, and nothing else changes; or meets the end of file or an error. Fewer than n come only if they empty the buffer, and the descriptor is read only if the buffer was empty. |
| `Rio.Buffered.RioReadNb` | CSAPP/Chapter11_Networking/csapp.c:849-864 | The user's buffer gets exactly the next n bytes, or those before the end of file or the error; the count is theirs and is n unless the file ended, the rest of the buffer is untouched, and what is left follows on. |
| `Rio.Buffered.RioReadLineB` | CSAPP/Chapter11_Networking/csapp.c:871-893 | The user's buffer gets exactly the next bytes, at most maxlen - 1, a newline only as the last of them; fewer without a newline only if the end of file was met. A 0 follows them unless the end of file came before any, and the rest of the buffer is untouched; the count is that of the bytes, or -1 after an error. |
| `RioSpec.TakeNSplits` | CSAPP/Chapter11_Networking/csapp.c:849-864 | A request splits the stream: what is delivered and what is left make it up, and it comes up short only at the end of file or an error. |
| `RioSpec.TakeLineSplits` | CSAPP/Chapter11_Networking/csapp.c:871-893 | So does a line, which has a newline only as its last byte, and ends at one, at the length limit, or at the end of file or an error. |
| `RioSpec.LineOf` | CSAPP/Chapter11_Networking/csapp.c:871-893 | The same in the size of the user's buffer: the reply is whole exactly at maxlen - 1 bytes or a newline, and otherwise the next event is the end of file or an error. |
| `RioSpec.TakeNTwice` | CSAPP/Chapter11_Networking/csapp.c:849-864 | Asking in two requests or in one comes to the same. |
| `RioSpec.ShortReadsDoNotShow` | CSAPP/Chapter11_Networking/csapp.c:809-820 | Anywhere in a schedule, splitting a read in two or interrupting one changes nothing that is delivered. |
| `RioSpec.SessionDeliversStream` | CSAPP/Chapter11_Networking/csapp.c:805-893 | Any interleaving of the two requests delivers the successive bytes of the descriptor, none lost, repeated or reordered; without a hard error every request reports all its bytes. |

## Left out

- Weak memory orders: every step is sequentially consistent, so the relaxed, acquire and release annotations are not modelled.
- Wrap-around of cursors, tickets, counts and sequence numbers at the width of their C++ types; only the capacity computation is on machine words. Prices, quantities and ids are unbounded naturals; the market order id that `checkForMatch` passes as a 32-bit quantity is always 1, so nothing is cut off there.
- BookLaws.QuantityConserved: over runs with a request outside the guards it speaks of the pure matcher only, because from there on the memory represents no book, or the process has stopped; what later requests do to such memory is not modelled.
- Replay.ReplayGivesBook: the same.
- The contents of pool blocks: the pools of the book and the synthesizer hand out addresses, and the nodes at those addresses are kept in maps.
- Sockets, multicast, logging, time stamps, printers and thread start-up; responses and updates are ghost sequences, and the queues between matching engine, publisher and synthesizer are sequences.
- The choice of a book in `matching_engine.cpp:54`, which is by client id: one book for one ticker. Requests of an invalid type, which end the process.
- The recovery half of `MarketDataConsumer`, whose completeness loop has no definite reading.
- The reference-counted queue, `lockfree_stack_try_reclaim.h`, the unused `try_reclaim` half of the hazard-pointer stack, `fifo5.h` and `LFQueue`: their code does not determine an algorithm, or reaches states it has no answer for.
- `tryPush`, `tryPop` and `size` of the ticketed queue, and the destructors of queues, stacks and lists, which assume that no other thread is left.
- Exceptions from allocation, from the caller's functions or from the hazard table being full beyond the thread that meets it; elements whose copying runs code of their own.
- The scheduler's text parsing, its random `load` and its printing; a program is a list of parsed lines.
- In `Rio`, the schedule of read outcomes is finite and followed by the end of file, so an endless chain of interruptions is not modelled; line lengths stay below the width of the C counter; the user's buffer has room for the terminator. The remaining wrappers of `csapp.c` add nothing to these properties.
- Thread pools, event buses, mutex-wrapped queues, benchmarks and design-pattern samples: only easy members.
