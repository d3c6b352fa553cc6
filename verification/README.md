# A verified model of the matching engine

This project models a price-time-priority matching engine and proves what the system promises about it:
two order books that mean the same thing, an engine whose events a subscriber can follow, snapshots and a
journal from which the state is rebuilt exactly, and a lock-free queue that never loses or overwrites an element.

The files follow the program's structure.

- **Meaning of a book.** `BookModel` is the specification: a book is two flat priority queues of resting orders,
  and `Add`, `Cancel` and `Modify` are functions on it, with the storage capacity as a parameter (`Unbounded`, or a
  number of pool slots). `BookFacts`, `Allocation` and `Accounts` prove what holds of it: the invariant of every
  reachable book, the declarative price-time allocation, and double-entry accounting of quantity. `Answers` says what each call
  answers and leaves behind in a caller's terms, without the functions that compute it.
- **Two implementations.** `NaiveBook` is the reference book as a class over price-sorted levels and an id index;
  `FastBook` is the pooled book as a class over an array of slots (`ObjectPool`), linked levels and an index of slots.
  `SortedMap`, `Levels`, `Matching`, `Chains`, `LinkedLevels`, `LinkedSides` and `LinkedMatch` hold the refinement steps.
  `Equivalence` compares the two over whole runs, and `HeapShape` says where every pool slot is.
- **Engine.** `EngineModel` is one partition as a state machine; `MatchingEngine` is the class that refines it;
  `EngineFacts` and `Subscriber` are about all of its runs, and `EventAnswers` about what one command's events tell. `Partitions` and `PartitionedEngine` add the router.
- **Bytes.** `Bits`, `Codec`, `Protocol`, `EventCodec`, `Frames`, `Journal`, `Snapshot`, `SnapshotFile`, `Recovery` and `RecoveryRun`
  go from single bytes up to crash recovery; `WireLayout` says which bytes hold which field.
- **Queue.** `SpscQueue` is the ring as a system of atomic steps of two threads with stale loads, and as a class.

Quantities are 64-bit and wrap (`Wrap64`) wherever the program's do; prices are signed 64-bit. Some promises hold only
under a condition; each then has its exact condition, and an input on which it fails:

- The two books agree if and only if the reference book never outgrows the pool (`Equivalence.RunsAgree`; one order and an
  empty pool in `Equivalence.OutgrownPoolDiffers`).
- A subscriber's view is right about a level if and only if the level's true total is below 2^64
  (`Subscriber.SubscriberFollows`, `Subscriber.ViewIsLevelMap`; a run of two orders in `Subscriber.WrappedLevelVanishes`).
- A FillOrKill order is accepted exactly when the book can fill it, if and only if its quantity is above the crossing sum or not
  above the wrapped one (`Allocation.FillOrKillTestExact`; a run in `Allocation.FillOrKillWrapRejects`).
- A snapshot keeps a symbol's route if and only if the symbol is routed to the last partition that has it, or nobody has it and
  it is routed by its remainder (`Snapshot.RoutingKept`; two registrations in `Snapshot.RepinnedRoutingLost`).
- Queues stay in sequence-number order below the counter after every command if and only if no order rests whenever the 64-bit
  counter wraps (`EngineFacts.RunKeepsEngineValid`; one order in `EngineFacts.WrapBreaksSequence`).
- Recovery is exact if and only if routing is kept as above (`Recovery.RecoveryExact`).
- An incomplete trailing journal record is discarded if and only if its length prefix is cut short or declares no more than
  the largest frame (`Journal.IncompleteTail`; four bytes in `Journal.OversizedTailRefused`).
- A record appended after torn bytes is read only if there are none: what becomes of it depends on how many there are
  (`Journal.ReopenedJournal`; one byte in `Journal.LostAfterTear`).

Where the code and its documentation differ the model follows the code. `docs/recovery.md` says that an incomplete trailing
record is always discarded; the last item above is what the code does. An in-place amend reports `PartiallyFilled` whatever the
order's stored status, and a pooled book that runs out of slots after a partial fill reports `Filled` with a reject reason, as
the code does.

`dafny verify dfyconfig.toml` checks everything.

## Model

| member | source | states |
|---|---|---|
| `NaiveBook.OrderBook.Match` | src/naive/order_book.cpp:97-187 | The nested loops over levels and queues leave exactly the opposite queue, remainder and trades of the greedy fill of the flat queue, erase the ids of exhausted orders, and keep totals and index sound. |
| `NaiveBook.OrderBook.MatchLevel` | src/naive/order_book.cpp:108-137 | The inner loop at one price fills that level and stops only when the level or the incoming quantity is used up. |
| `NaiveBook.OrderBook.AddOrder` | src/naive/order_book.cpp:225-294 | Screens in the code's order, matches, rests or drops the remainder; result and new book are those of the specification, for every argument. |
| `NaiveBook.OrderBook.Admission` | src/naive/order_book.cpp:230-259 | The first failing admission test decides the reject reason, with the FillOrKill test on the wrapped sum. |
| `NaiveBook.OrderBook.CancelOrder` | src/naive/order_book.cpp:296-310 | Unknown id: rejected, nothing changes. Otherwise exactly that order leaves and the rest keep their places. |
| `NaiveBook.OrderBook.ModifyOrder` | src/naive/order_book.cpp:312-365 | In-place amend or cancel/replace, with the result fields the code reports on each path. |
| `NaiveBook.OrderBook.Amend` | src/naive/order_book.cpp:333-349 | An amend rewrites one order where it stands and lowers its level's total by the difference. |
| `NaiveBook.OrderBook.InsertResting` | src/naive/order_book.cpp:189-206 | An order joins behind every order at least as good, creating its level when there is none, and the index points to it; a valid book stays valid when the id is new. |
| `NaiveBook.OrderBook.RemoveFromBook` | src/naive/order_book.cpp:208-223 | One order leaves, with its level when it was the last there, and its index entry. |
| `NaiveBook.OrderBook.AvailableCrossingQuantity` | src/naive/order_book.cpp:80-95 | The sum over crossing levels is the exact crossing sum modulo 2^64. |
| `NaiveBook.OrderBook.QuantityAt` | src/naive/order_book.cpp:13-20 | A level's cached total is the sum of its orders modulo 2^64, 0 without a level. |
| `NaiveBook.OrderBook.FindOrder` | src/naive/order_book.cpp:7-11 | Finds by id exactly the resting order, or nothing. |
| `NaiveBook.OrderBook.RestoreOrder` | src/naive/order_book.cpp:63-66 | A saved order joins the back of its level without matching, whatever its id; a valid book stays valid when the id is new. |
| `NaiveBook.OrderBook.AllRestingOrders` | src/naive/order_book.cpp:51-61 | All bids then all asks, in priority order. |
| `Pool.ObjectPool.constructor` | include/matching_engine/object_pool.hpp:18-26 | The loop threads every slot on the free list. |
| `Pool.ObjectPool.Acquire` | include/matching_engine/object_pool.hpp:36-43 | Null exactly when every slot is in use; otherwise a slot that was free now holds the value, and no other slot changes. |
| `Pool.ObjectPool.Release` | include/matching_engine/object_pool.hpp:47-53 | The slot heads the free list and links to the old head; no other slot changes. |
| `FastBook.OrderBook.PushBack` | include/matching_engine/fast/order_book.hpp:91-97 | Pointer updates of appending a node at the tail. |
| `Chains.PushBackLinks` | include/matching_engine/fast/order_book.hpp:91-97 | After those updates the chain is the old one with the node last: inverse links, right head, tail and count. |
| `FastBook.OrderBook.Unlink` | include/matching_engine/fast/order_book.hpp:98-103 | Pointer updates of taking a node out. |
| `Chains.UnlinkLinks` | include/matching_engine/fast/order_book.hpp:98-103 | After those updates the chain is the old one without the node, wherever it stood. |
| `FastBook.OrderBook.Match` | src/fast/order_book.cpp:49-105 | The loops over linked nodes compute the same greedy fill of the flat queue, releasing the slots of exhausted orders. |
| `FastBook.OrderBook.AddOrder` | src/fast/order_book.cpp:146-224 | The specification's add within the pool's capacity, including rejection and the dropped remainder when the pool is exhausted. |
| `FastBook.OrderBook.CancelOrder` | src/fast/order_book.cpp:226-240 | The specification's cancel on the pooled representation. |
| `FastBook.OrderBook.ModifyOrder` | src/fast/order_book.cpp:242-292 | The specification's modify within the pool's capacity. |
| `FastBook.OrderBook.InsertResting` | src/fast/order_book.cpp:107-126 | False exactly when no slot is free, and then nothing changes; otherwise the order joins the back of its level. |
| `FastBook.OrderBook.RemoveFromBook` | src/fast/order_book.cpp:128-144 | Unlinks, erases and releases exactly one order. |
| `FastBook.OrderBook.AvailableCrossingQuantity` | src/fast/order_book.cpp:32-47 | The crossing sum modulo 2^64, read from the linked levels. |
| `FastBook.OrderBook.QuantityAt` | src/fast/order_book.cpp:7-14 | The level's total as the reference book would answer it. |
| `Answers.TradeSays` | src/naive/order_book.cpp:112-123 | The k-th trade names the incoming order, its trader, side, number and time, and the k-th resting order, its trader and its price, for a positive quantity within the limit. |
| `Answers.AddReason` | src/naive/order_book.cpp:230-259 | Which reason an order gets, from its id, quantity, price, type, time in force and the facing queue alone; a refused order leaves the book alone, and every other is accepted. |
| `Answers.ReachIsCrossing` | src/naive/order_book.cpp:69-95 | What the walk over crossing levels finds is everything on the queue within the limit, all of it for a market order. |
| `Answers.AddFills` | src/naive/order_book.cpp:261-291 | An accepted order fills the smaller of its quantity and everything within its limit; a good-till-cancel limit order keeps the rest, any other loses it; the status says which. |
| `Answers.AddLeaves` | src/naive/order_book.cpp:268-288 | What remains of the order rests on its own side, every field of it stated, among orders that did not change; with nothing remaining the id does not rest. |
| `Answers.AddBounded` | src/fast/order_book.cpp:205-213 | A pooled book differs only when the reference book would outgrow it: what matched stands, the remainder is dropped, and the answer says so. |
| `Answers.CancelSays` | src/naive/order_book.cpp:296-310 | A cancel of a resting order succeeds, names its symbol and trader, and removes it and nothing else; of any other id it fails and changes nothing. |
| `Answers.ModifyRefused` | src/naive/order_book.cpp:315-327 | Unknown id, zero quantity and non-positive price are refused, in that order, and change nothing. |
| `Answers.PriorityLost` | src/naive/order_book.cpp:330-333 | A modify loses priority if and only if the price changes or the quantity grows above what remains. |
| `Answers.ReplaceSays` | src/naive/order_book.cpp:351-365 | A modify that loses priority withdraws the order and enters it again under its id, trader and side: what it fills, what rests of it field by field, and the unchanged rest of its side. |
| `Answers.ModifyTradesSay` | src/naive/order_book.cpp:351-365 | The trades of a replaced order name it and the orders facing it, in every field. |
| `HeapShape.SlotsPartitioned` | src/fast/order_book.cpp:58-144 | The chains of all levels and the free list name every slot exactly once; the index leads by id to exactly the chained slots. |
| `HeapShape.PoolPartitioned` | include/matching_engine/object_pool.hpp:36-53 | The same of every live book between calls: chained plus free slots are the capacity. |
| `HeapShape.LevelSound` | include/matching_engine/fast/order_book.hpp:84-104 | Every level of a live book is a non-empty head-to-tail chain with inverse links, the right count and total, one price and side, and every node in the index. |
| `Equivalence.AddAgrees` | src/fast/order_book.cpp:205-213 | One add agrees in result and book if and only if the reference book ends within the capacity. |
| `Equivalence.ModifyAgrees` | src/fast/order_book.cpp:280-291 | A modify agrees always, also with a full pool. |
| `Equivalence.RunsAgree` | tests/test_naive_vs_fast_equivalence.cpp:49-129 | For every sequence of calls the two books return the same results, and are the same book, if and only if the reference book never ends a call with more orders than the pool has slots. |
| `Equivalence.EveryCallAgrees` | tests/test_naive_vs_fast_equivalence.cpp:64-129 | Under that condition they agree after each single call. |
| `Equivalence.OutgrownPoolDiffers` | src/fast/order_book.cpp:205-213 | One order and a pool without slots: the reference book rests it, the pooled book rejects it. |
| `Equivalence.Differential` | tests/test_naive_vs_fast_equivalence.cpp:49-129 | Driving both objects from empty books with any operations makes each the book of its specification; results are equal exactly under the capacity condition, and then the books are too. |
| `BookFacts.RunKeepsValid` | src/naive/order_book.cpp:225-365 | Every run of either book keeps both sides sorted, first-in-first-out, uncrossed, with unique ids and live orders that are `New` exactly when their remaining quantity is their whole quantity. |
| `BookFacts.NeverCrossed` | src/naive/order_book.cpp:261-291 | In every reachable state of either book the best bid is strictly below the best ask, also after a modify that crosses. |
| `BookFacts.ModifyAlwaysSucceeds` | src/naive/order_book.cpp:351-365 | Modifying a resting order with positive price and quantity succeeds in every valid state, and a full pool makes no difference. |
| `BookFacts.FillShape` | src/naive/order_book.cpp:104-143 | Matching consumes a prefix of the queue whole, may shrink one more order, and leaves the others alone. |
| `BookFacts.FillIsCrossingMin` | src/naive/order_book.cpp:80-95 | The quantity filled is the smaller of what was asked and what crosses. |
| `Allocation.MatchIsAllocation` | src/naive/order_book.cpp:97-187 | Each resting order trades exactly what the declarative rule gives it: the orders as a set, served by best price and then sequence number, nothing beyond the limit. Every trade is with one of those orders, at its price, for its allocation. |
| `Allocation.FillServes` | src/naive/order_book.cpp:108-137 | The k-th trade is with the k-th order of the queue, at its price and for its share; what is left of the order stays. |
| `Allocation.PriorityOrderUnique` | include/matching_engine/naive/order_book.hpp:111-114 | A set of orders has only one price-time order, so the rule does not depend on how the book stores it. |
| `Allocation.NoQueueJumping` | src/naive/order_book.cpp:69-77 | An order trades only when everything ranked ahead of it trades completely, and only within the limit. |
| `Allocation.FilledIsMin` | src/naive/order_book.cpp:261-266 | An admitted order is filled by the smaller of its quantity and the true crossing sum, wrapped totals or not. |
| `Allocation.FillOrKillAllOrNothing` | src/naive/order_book.cpp:253-264 | A FillOrKill order fills completely or leaves the book unchanged, for every book, even when the sums wrap. |
| `Allocation.FillOrKillTestExact` | src/naive/order_book.cpp:253-264 | A FillOrKill order that passes the other tests is accepted exactly when the book can fill it, if and only if its quantity is above the true crossing sum or not above the wrapped one. |
| `Allocation.FillOrKillWrapRejects` | src/naive/order_book.cpp:253-259 | After a run of two asks whose sum wraps to 0, a FillOrKill bid the book could fill is turned away. |
| `Accounts.AddBalances` | src/naive/order_book.cpp:264-291 | An add accounts for its whole quantity: filled, resting or discarded. |
| `Accounts.QuantityConserved` | src/naive/order_book.cpp:225-365 | Over every run, quantity entered is quantity resting, plus twice quantity traded, plus quantity withdrawn, plus quantity discarded. |
| `Accounts.RunFromEmptyConserves` | src/naive/order_book.cpp:225-365 | The same for every run from an empty book of either kind. |
| `MatchingEngine.NoteTouched` | src/matching_engine.cpp:10-15 | The loop adds a level unless it is already there. |
| `MatchingEngine.ProcessNewOrder` | src/matching_engine.cpp:45-78 | Accept or reject, then the trades, then one update per touched level; book and events are the state machine's. |
| `MatchingEngine.ProcessCancel` | src/matching_engine.cpp:80-110 | The cancel's events and book. |
| `MatchingEngine.ProcessModify` | src/matching_engine.cpp:112-152 | The modify's events and book, old level and new level reported. |
| `MatchingEngine.Engine.Process` | src/matching_engine.cpp:28-43 | Every command takes the next sequence number; the other symbols' books do not change. |
| `MatchingEngine.Engine.RegisterSymbol` | include/matching_engine/matching_engine.hpp:26 | A registered symbol keeps its book; a new one gets an empty book. |
| `EngineFacts.RegisterSays` | include/matching_engine/matching_engine.hpp:26 | Registration gives an empty book only to a symbol without one and changes no other book and no counter. |
| `EventAnswers.NewOrderTold` | src/matching_engine.cpp:45-78 | A new order is accepted exactly when nothing speaks against it. The accept repeats the command's fields; its filled is the sum of the trades reported after it, its remaining is that of the order found in the book; the trades follow in queue order. Otherwise the only event names the reason that is due and the book is unchanged. |
| `EventAnswers.CancelTold` | src/matching_engine.cpp:80-110 | A cancelled event appears exactly when the order rested, names the resting order's trader, and the order is gone; otherwise one rejection and no change. |
| `EventAnswers.ModifyTold` | src/matching_engine.cpp:112-152 | The modified event repeats the command's fields, what is left of the order in the book and whether it lost its place; trades reported after it and what is left make up the new quantity. Otherwise one rejection, with its reason, and no change. |
| `EventAnswers.EventsStamped` | src/matching_engine.cpp:28-43 | Every event of a command carries the sequence number it took, its time and its symbol. |
| `EventAnswers.UnknownSymbolTold` | src/matching_engine.cpp:48-52 | A command for an unknown symbol is rejected, touches no book, and uses up a number. |
| `MatchingEngine.Engine.RestoreOrder` | include/matching_engine/matching_engine.hpp:48-51 | Restores into the symbol's book, whatever the order's id, and does nothing for an unregistered symbol; valid books stay valid when the id is new. |
| `EngineModel.HandleIsApply` | src/matching_engine.cpp:45-152 | Handling a command changes its book as the one book operation it stands for. |
| `EngineFacts.ProcessValidExact` | src/matching_engine.cpp:28-43 | One command keeps queues in sequence-number order below the counter if and only if it does not wrap the counter or leaves no order resting. |
| `EngineFacts.RunKeepsEngineValid` | src/matching_engine.cpp:28-43 | After every command of a run each level is strictly increasing in sequence number, below the counter, if and only if no order rests whenever the counter wraps; the counter counts the commands modulo 2^64. |
| `EngineFacts.ShortRun` | src/matching_engine.cpp:28-43 | A run too short to wrap the counter meets that condition. |
| `EngineFacts.WrapBreaksSequence` | src/matching_engine.cpp:28-29 | The last sequence number given to an order that rests breaks the order of the queues. |
| `EngineFacts.AmendKeepsPlace` | src/naive/order_book.cpp:329-349 | A modify to the same price and no larger quantity answers `PartiallyFilled`, keeps the order's place, number and all else, lowers its remaining and total quantity by the difference, and leaves every other order alone. |
| `EngineFacts.RestsAtTheBack` | src/naive/order_book.cpp:189-206 | What rests of an added order is behind every other order at its price, under its own sequence number. |
| `EngineFacts.ReplacedAtTheBack` | src/naive/order_book.cpp:351-365 | What rests of an order that lost its priority to a modify is behind every other order at the new price, under the modify's sequence number. |
| `EngineFacts.ReachableMatchIsAllocation` | src/matching_engine.cpp:28-78 | In every engine state reached without resting orders at a counter wrap, matching is the price-time allocation, with no assumption about the queue left. |
| `Subscriber.RunMirrors` | src/matching_engine.cpp:66-77 | Over every run, a view that applies only book updates keeps quoting what the books quote. |
| `Subscriber.MirrorExact` | src/matching_engine.cpp:89-109 | A view that quotes what the books quote has a level exactly when orders rest there, with their true total, if and only if that total is below 2^64. |
| `Subscriber.SubscriberFollows` | src/matching_engine.cpp:127-151 | From the empty view, after any commands, at any symbol, side and price: the view shows what the book quotes, and is right if and only if the level's total is below 2^64. |
| `Subscriber.ViewIsLevelMap` | src/matching_engine.cpp:66-77 | After every run the view is exactly the price-to-quantity map of all books, if and only if every level's total is below 2^64. |
| `Subscriber.BoundedSidesExact` | src/matching_engine.cpp:66-77 | In particular whenever each side of each book sums below 2^64. |
| `Subscriber.NoLevelReportedTwice` | src/matching_engine.cpp:10-15 | No two book updates among one command's events have the same side and price. |
| `Subscriber.UntouchedSame` | src/matching_engine.cpp:140-151 | A level the engine does not report keeps its quantity. |
| `Subscriber.WrappedLevelVanishes` | src/matching_engine.cpp:74-77 | After a run of two new orders whose total wraps to 0, both rest and the subscriber has no such level. |
| `Partitions.PartitionsIndependent` | include/matching_engine/partitioned_engine.hpp:38-41 | Each partition ends in the state, and emitted the events, of running only the commands routed to it. |
| `Partitions.InterleavingsAgree` | include/matching_engine/symbol_router.hpp:22-26 | All interleavings with the same commands per partition end in the same cluster, with the same events per partition. |
| `Partitions.DispatchSays` | include/matching_engine/partitioned_engine.hpp:38-41 | A command goes to its symbol's pin or else the remainder, under that partition's next number, and no other partition changes. |
| `PartitionedEngine.PartitionedEngine.RoutedInside` | include/matching_engine/symbol_router.hpp:10-26 | In every valid engine each symbol is routed to an existing partition, the one the model routes it to. |
| `PartitionedEngine.PartitionedEngine.RegisterSymbol` | include/matching_engine/partitioned_engine.hpp:28-31 | Registers where the symbol routes; other partitions do not change. |
| `PartitionedEngine.PartitionedEngine.RegisterSymbolOnPartition` | include/matching_engine/partitioned_engine.hpp:33-36 | Pins, then registers there. |
| `PartitionedEngine.PartitionedEngine.Dispatch` | include/matching_engine/partitioned_engine.hpp:38-41 | The routed partition processes the command; the objects of the others do not change. |
| `Codec.BufferWriter.Write` | include/matching_engine/net/binary_codec.hpp:17-27 | The shifting loop appends the little-endian bytes of the value. |
| `Codec.BufferReader.Read` | include/matching_engine/net/binary_codec.hpp:39-67 | Or-ing shifted bytes gives the value they stand for; short input fails without moving. |
| `Codec.ReadWritten` | include/matching_engine/net/binary_codec.hpp:17-67 | Reading written fields, whatever follows, gives them back. |
| `Codec.WriteRead` | include/matching_engine/net/binary_codec.hpp:17-67 | Writing read fields gives back the bytes they came from. |
| `Protocol.WriteCommand` | src/net/protocol.cpp:84-119 | The field-by-field encoder writes the command's layout. |
| `Protocol.ParseCommand` | src/net/protocol.cpp:67-82 | The type byte picks a reader; empty body, unknown type and short payload give nothing. |
| `Protocol.DecodeNewOrder` | src/net/protocol.cpp:9-30 | Reads the nine fields in order or fails at the first that is cut. |
| `Protocol.CommandRoundTrip` | src/net/protocol.cpp:9-119 | Decoding an encoded command, with anything after it, gives it back, negative prices included. |
| `Protocol.CommandReEncode` | src/net/protocol.cpp:67-119 | Re-encoding any decoded command gives a prefix of the body. |
| `Protocol.EventRoundTrip` | src/net/protocol.cpp:121-309 | Decoding an encoded event, with anything after it, gives it back. |
| `EventCodec.WriteEvent` | src/net/protocol.cpp:121-190 | The field-by-field encoder writes the event's layout. |
| `EventCodec.ParseEvent` | src/net/protocol.cpp:192-309 | Type byte, head, then the type's fields; empty body, cut fields and unknown type give nothing. |
| `WireLayout.CommandBytes` | docs/protocol.md:36-42 | The type byte and the place of every field in each command's body, prices in two's complement. |
| `WireLayout.EnumBytes` | include/matching_engine/types.hpp:22-40 | The bytes for side, type and time in force. |
| `WireLayout.EventBytes` | docs/protocol.md:44-53 | The type byte and the place of every field in each event's body. |
| `Frames.FrameMessage` | include/matching_engine/net/frame_decoder.hpp:80-87 | The loop writes the length in four bytes and then the body. |
| `Frames.LengthAt` | include/matching_engine/net/frame_decoder.hpp:39-41 | Or-ing the four shifted prefix bytes gives the length they stand for. |
| `Frames.FrameDecoder.Feed` | include/matching_engine/net/frame_decoder.hpp:23-25 | Unread bytes grow by exactly the chunk. |
| `Frames.FrameDecoder.Compact` | include/matching_engine/net/frame_decoder.hpp:64-72 | Compaction keeps the unread bytes and bounds the buffer by twice their number. |
| `Frames.FrameDecoder.TryExtractFrame` | include/matching_engine/net/frame_decoder.hpp:31-57 | A whole frame comes out and only it is consumed; an incomplete one waits; an oversized length is an error; the buffer is at most twice the unread bytes unless there is an error. |
| `Frames.StreamDecodes` | include/matching_engine/net/frame_decoder.hpp:23-72 | However the stream is chunked and whenever extraction is tried, the bodies out so far are the first ones and nothing is lost or invented. |
| `Frames.EveryChunkingDecodes` | include/matching_engine/net/frame_decoder.hpp:9-17 | Once all is fed and drained, exactly the bodies came out, in order, with no error. |
| `Frames.Drive` | include/matching_engine/net/frame_decoder.hpp:23-57 | The decoder object, under any mix of calls, does what those statements are about. |
| `Journal.WriteFrame` | src/persistence/journal.cpp:28-33 | Whatever the partial writes return, the file grows only by a front part of the frame, and the loop ends well exactly when the whole frame is there. |
| `Journal.CrashMidAppend` | src/persistence/journal.cpp:24-35 | An append that stops anywhere before its end leaves a journal that reads as the commands before it. |
| `Journal.ReadJournal` | src/persistence/journal.cpp:48-68 | The reading loop returns every whole record before the end, or the first corruption. |
| `Journal.TornTailDiscarded` | src/persistence/journal.cpp:24-68 | A journal cut at any byte reads as exactly the commands whose frames lie wholly before the cut, never as corrupt. |
| `Journal.TailDecides` | src/persistence/journal.cpp:53-67 | A journal followed by any bytes reads as the journal alone if and only if no frame begins in them; an oversized length or an undecodable frame there is an error. |
| `Journal.IncompleteTail` | docs/recovery.md:53-62 | An incomplete trailing record is discarded if and only if its length prefix is cut short or within the maximum; otherwise the journal is refused. |
| `Journal.OversizedTailRefused` | docs/recovery.md:53-62 | Four bytes of ones after any journal are an incomplete record and make the reader refuse it. |
| `Journal.ReopenedJournal` | src/persistence/journal.cpp:14-35 | What reading returns when a record was appended after a torn one, by the number of torn bytes: the new record lost, the journal refused, or a command made of parts of both. |
| `Journal.LostAfterTear` | src/persistence/journal.cpp:14-35 | After one torn byte of a cancel any appended record is silently lost. |
| `Journal.JournalRoundTrip` | tests/test_journal_and_snapshot.cpp:49-62 | An uncut journal gives back every command in order. |
| `Snapshot.OrderRoundTrip` | src/persistence/snapshot.cpp:16-54 | An order record reads back as the order. |
| `WireLayout.OrderBytes` | src/persistence/snapshot.cpp:16-29 | The place of every field in an order's 64-byte record. |
| `WireLayout.SnapshotHeader` | src/persistence/snapshot.cpp:61-65 | The file begins with MESN, version 1 and the number of partitions. |
| `WireLayout.PartHeader` | src/persistence/snapshot.cpp:67-71 | A partition begins with its counter and the number of its books. |
| `WireLayout.BookHeader` | src/persistence/snapshot.cpp:72-75 | A book begins with its symbol and the number of its orders. |
| `WireLayout.BookRecords` | src/persistence/snapshot.cpp:74-76 | Then come its orders' records, bids before asks, in queue order. |
| `Snapshot.SnapshotRoundTrip` | src/persistence/snapshot.cpp:57-132 | Whatever order the maps list their books in, loading a written snapshot gives back every partition exactly: books, queue order, counters. |
| `Snapshot.TornSnapshotRefused` | src/persistence/snapshot.cpp:94-125 | A snapshot cut at any byte is refused, with the error for that place. |
| `Snapshot.RoutingKept` | src/persistence/snapshot.cpp:110-129 | Loading a written snapshot keeps every partition, and keeps a symbol's route if and only if the symbol was routed to a partition that has it with no higher one that does, or no partition has it and it was routed by its remainder. |
| `Snapshot.RepinnedRoutingLost` | include/matching_engine/partitioned_engine.hpp:33-36 | A symbol pinned a second time, to a lower partition, is routed to the other partition once the snapshot is written and loaded. |
| `SnapshotFile.SaveOrder` | src/persistence/snapshot.cpp:16-29 | Twelve writes append the order's record. |
| `SnapshotFile.Save` | src/persistence/snapshot.cpp:57-78 | The nested loops over a live engine produce the snapshot of its state. |
| `SnapshotFile.LoadOrder` | src/persistence/snapshot.cpp:31-54 | Twelve reads give the order or find the cut. |
| `SnapshotFile.Load` | src/persistence/snapshot.cpp:87-132 | The nested loops build a new engine in the state the bytes stand for, or report bad magic, wrong version or a cut. |
| `SnapshotFile.Reload` | tests/test_journal_and_snapshot.cpp:94-135 | Saving a live engine and loading the bytes makes a second engine with the same partitions. |
| `Recovery.RecoveryExact` | tests/test_journal_and_snapshot.cpp:137-198 | Run, snapshot, journal on, lose the journal's tail at any byte: both files read back, and loading and replaying gives the books, queues, counters, routing and events of the uninterrupted run of everything journalled whole, if and only if every symbol is routed to the last partition that has it. |
| `Recovery.PlacedIsWellHomed` | include/matching_engine/symbol_router.hpp:10-13 | When symbols live only where they are routed, the routing condition of recovery holds. |
| `Recovery.RegisterPlaced` | include/matching_engine/partitioned_engine.hpp:28-31 | Ordinary registration keeps symbols where they are routed. |
| `Recovery.RegisterOnPlaced` | include/matching_engine/partitioned_engine.hpp:33-36 | Registration on a partition does so if and only if no other partition has the symbol. |
| `Recovery.SetUpRuns` | src/matching_engine.cpp:28-43 | After any such registrations on new partitions and any commands, every partition's queues stay in sequence order below its counter, which counts the commands routed to it, if and only if no order rests when that counter wraps; fewer than 2^64 - 1 commands never wrap it. |
| `Recovery.SetUpRecovers` | tests/test_journal_and_snapshot.cpp:137-198 | Recovery is exact for every cluster set up by such registrations, with only the sizes assumed to fit their fields. |
| `RecoveryRun.DispatchAll` | include/matching_engine/partitioned_engine.hpp:38-41 | Dispatching commands to the object one after another is the model's run, log included. |
| `RecoveryRun.Recover` | docs/recovery.md:20-36 | Loading snapshot bytes and replaying journal bytes builds an engine in the state of replaying the journal's commands on the loaded cluster. |
| `RecoveryRun.CrashAndRecover` | tests/test_journal_and_snapshot.cpp:137-198 | Run a live engine, save it, lose the journal at any byte and recover: the second engine is where the uninterrupted run would be and the two logs are its log, if and only if every symbol is routed to the last partition that has it. |
| `SpscQueue.RingSafety` | include/matching_engine/spsc_queue.hpp:57-79 | In every interleaving with stale loads, over any number of counter wraps: popped is a prefix of pushed, at most capacity elements are outstanding, and the slot being written is none the consumer may still read. |
| `SpscQueue.StepInv` | include/matching_engine/spsc_queue.hpp:57-79 | Every atomic step of either thread keeps the invariant, whatever the other is in the middle of. |
| `SpscQueue.StepRefinesQueue` | include/matching_engine/spsc_queue.hpp:64-78 | Only the two publishing steps change the queue: one adds at the back, one takes the front element it returns. |
| `SpscQueue.FailuresAreReal` | include/matching_engine/spsc_queue.hpp:60-75 | A push gives up exactly when the ring is full at the tail it loaded, a pop exactly when it is empty at the head it loaded. |
| `SpscQueue.SlotOfCount` | include/matching_engine/spsc_queue.hpp:64-76 | A masked 64-bit cursor names the slot of the unbounded count. |
| `SpscQueue.FullTestOnCounts` | include/matching_engine/spsc_queue.hpp:60-62 | The modular full test is the test on unbounded counts. |
| `Bits.PowerOfTwoTest` | include/matching_engine/spsc_queue.hpp:47-51 | The constructor's bit test accepts exactly the powers of two. |
| `SpscQueue.Ring.TryPush` | include/matching_engine/spsc_queue.hpp:57-67 | False exactly when full; otherwise the element is at the back. |
| `SpscQueue.Ring.TryPop` | include/matching_engine/spsc_queue.hpp:70-79 | False exactly when empty; otherwise the front element comes out. |

## Left out

- Sockets, the gateway, sessions, and the threads of the asynchronous journal writer and the market-data publisher: operating-system calls around the parts that are modelled.
- Opening, writing and flushing files: a file is a byte sequence, and a missing journal is the empty one.
- Journal.WriteFrame: what the system's write calls return is a parameter, a list that ends where the process stops.
- Enum bytes without an enumerator: the wire codecs keep raw bytes and accept any, but an engine command or a snapshot order holding such a byte is outside the model.
- SnapshotFile.LoadOrder: requires a record whose enum bytes are enumerators; the code casts any byte.
- SnapshotFile.Load: requires bytes with no unknown enum byte and no order id twice in a book; every other input, cut or damaged, is covered.
- NaiveBook.OrderBook.FindOrder: returns the order itself rather than a pointer into the book; the list iterator in the index is modelled as the order's id.
- SpscQueue.RingSafety: the C++ memory model is represented by loads that may return any value between the last one seen and the current one; weaker reorderings are not.
- SpscQueue.Ring.TryPush: the class is driven by one thread at a time; interleavings are what the step system is for.
- RecoveryRun.Recover: has the requirement of `SnapshotFile.Load`, and leaves out journal records whose enum bytes are no enumerators.
- `BidLevels`, `AskLevels`, `OrderCountAt`, `SizeApprox` and the other one-line queries are not modelled.
- Hash tables, balanced trees, placement-new and destructors: maps, sorted sequences and tagged slots stand for them; assignments to a node just before it is destroyed are not kept.
