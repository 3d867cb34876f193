# Trading simulator: model and proofs

This project models a trading simulator and proves what its parts keep, each alone and all together:

- the matching engine: two price-sorted books of first-in-first-out lists, an index into them, a crossing loop,
  and a batch that holds 16 reports and drops the rest;
- the order records and their manager, the gateway, the report handler with its 64-bit report keys, and the positions;
- the synchronous loop of those five, as a step function on values (`ClosedLoop`) and as objects updated in place
  (`TradingLoop`);
- the single-producer single-consumer ring queue, one access at a time in every interleaving, and the two threads on it;
- the market-data book, the pre-trade checks with their order-rate window, the strategy, and the simulator that drives
  everything from a replay (`TradingSimulator`, `SimulatorLoop`);
- the object pool with its free list threaded through an array.

Each component that the program updates in place is a class whose methods are proved equal to a step of a specification
on values; what the program promises is then proved of that specification, over all runs. The map of a book side is a
sequence of levels in strict price order, and a list iterator is the exchange id of its node, which is unique.

`Types`, `Division`, `Sums` and `SortedLevels` are shared. `BookLevels` relates nested books to flat queues;
`ReportStream` is the automaton of legal reports; `Words` and `StreamKeys` are about report keys. `Executions`,
`OrderTransitions`, `Profits`, `ReportEffects`, `LoopRequests`, `RiskLimits`, `BookEvents` and `QuotePlacements` say
what one operation does in terms of fields and arithmetic alone, and what follows over runs; `LoopAccounts` puts
reports, positions and money together. `Mirror`, `MirroredRuns`, `MirrorLimits`, `OneSidedRuns`, `FillCounts`,
`ShortRuns`, `EarlyRuns`, `KeyLimits`, `LostFills` and `AgreementLimits` are about when manager and exchange agree.

What the proofs show that the program's comments and structure do not:

- A report key can hide a genuine report, of the same or another order. Over all disciplined runs, of whatever
  quantities, manager and exchange agree after two placements, and not always after three: when the gateway refuses one,
  the ids of client and exchange fall out of step. If it refuses none they agree on runs of up to three orders of at
  most 196607 each, of up to 256 of at most 65540 each, and of up to 2047 of at most 65536 each; each of these six
  numbers is exact.
- A new order that hits more than seven resting orders overflows its batch, and the incoming order then always disagrees
  with the manager's record. So it does after a cancel sent for an order whose cancel was not requested, which the
  gateway lets through. With distinct keys there is no third way.
- Positions nevertheless equal the manager's fills on every run.
- The loop trades with itself: on a mirrored run of one symbol it ends flat, and all its realized profit is what its
  truncated averages lost.
- The order-rate limit admits up to twice the limit less one in a window's length, for almost every window. A run that
  starts at timestamp zero can exceed this, and so can one that goes back.
- A replay event that carries the sentinel's sequence number ends the threaded run early; if it and what comes after it
  do not fit the queue, the producer never ends.
- As configured the simulator quotes bids only, so it never trades, whatever the replay, and manager and exchange agree
  as long as ids fit 64 bits.

## Model

| member | source | states |
|---|---|---|
| Matching.ProcessKeepsInv | src/exchange/exchange_simulator.cpp:31-250 | Every request, valid or not, leaves the venue in order: all bids below all asks, each queue in price order and by exchange id within a price, every resting order on its own side with a positive remainder, no client twice. |
| Matching.RemoveKeepsInv | src/exchange/exchange_simulator.cpp:224-250 | Erasing any client, known or not, keeps that invariant. |
| Matching.LogShape | src/exchange/exchange_simulator.cpp:58-178 | A log opens with the one answer to the request, which is no fill, and all that follows are fills. |
| PriceTimePriority.HitsAreThePositiveShares | src/exchange/exchange_simulator.cpp:69-160 | The hit orders, counted separately, are a prefix of the price-time sequence, exactly those with a positive greedy share, and only the last may be hit for less than its remainder. |
| PriceTimePriority.SweepLogIsGreedy | src/exchange/exchange_simulator.cpp:73-113 | The crossing loop says exactly two reports for each hit order, in priority order: its greedy share at the resting price, to the resting and to the incoming order, with running cumulative and leaves. |
| PriceTimePriority.SweepQueueIsGreedy | src/exchange/exchange_simulator.cpp:106-112 | What is left on the other side is the sequence without the orders hit in full, the last one reduced by its share. |
| PriceTimePriority.SweepTradesTheMinimum | src/exchange/exchange_simulator.cpp:78-80 | The quantity traded is the minimum of the incoming quantity and the depth of the leading orders within the limit price. |
| PriceTimePriority.ReachIsWhatCrosses | src/exchange/exchange_simulator.cpp:73-75 | In a sorted queue those leading orders are all the orders that cross the limit, so their depth is everything that crosses. |
| PriceTimePriority.NewOrderIsGreedy | src/exchange/exchange_simulator.cpp:58-163 | At any venue in order, a valid new order is answered by the acknowledgement and then the two reports of each greedy trade; it trades the lesser of its quantity and all that crosses its limit; the other side keeps what no share was taken from, and the remainder queues behind every order at a price as good. |
| PriceTimePriority.SweepIsSymmetric | src/exchange/exchange_simulator.cpp:72-156 | The selling loop is the mirror image of the buying one: negate prices and exchange sides before or after, the outcome is the same. |
| BookLevels.AppendEnqueues | src/exchange/exchange_simulator.cpp:208-221 | Appending to the list of a price (made if absent) puts the order, in the flat queue, behind all at a price as good and ahead of the rest. |
| BookLevels.EraseNodeIsWithout | src/exchange/exchange_simulator.cpp:233-247 | Erasing a list node, and its level if that empties it, takes just that order out of the flat queue. |
| BookLevels.OrderHasLevel | src/exchange/exchange_simulator.cpp:193-222 | Every order of the flat queue is a node in the level of its own price. |
| Exchange.IndexLeads | src/exchange/exchange_simulator.cpp:165-175 | The index entry of a client holds the side, price and exchange id of its order, and through price and node leads to that very order. |
| Exchange.ExchangeSimulator.SweepAsks | src/exchange/exchange_simulator.cpp:73-113 | The loop over the nested ask book terminates, leaves books and index consistent, and yields the queue, remainder and reports of the specified sweep. |
| Exchange.ExchangeSimulator.SweepBids | src/exchange/exchange_simulator.cpp:115-155 | The same for the bid book. |
| Exchange.OrderSettles | src/exchange/exchange_simulator.cpp:158-162 | Resting the remainder after the loop gives the specified venue and log, the invariant, and an index with exactly the resting orders. |
| Exchange.ExchangeSimulator.ValidNewOrder | src/exchange/exchange_simulator.cpp:180-186 | True exactly for a well-formed limit order whose client id is in neither queue. |
| Exchange.ExchangeSimulator.ProcessNewOrder | src/exchange/exchange_simulator.cpp:58-163 | The in-place books become the specified venue; the batch is the first 16 entries of the specified log, which module Executions says field by field. |
| Exchange.ExchangeSimulator.ProcessCancelOrder | src/exchange/exchange_simulator.cpp:165-178 | A cancel through the index removes exactly the order of that client and reports its remainder, or is rejected and changes nothing. |
| Exchange.ExchangeSimulator.EraseRestingOrder | src/exchange/exchange_simulator.cpp:224-250 | Erasing through the index equals removal from the flat queues, with books and index still consistent. |
| Exchange.ExchangeSimulator.RestingQuantity | src/exchange/exchange_simulator.cpp:49-56 | The remainder of the order that the queues hold for the client, zero if none. |
| Exchange.ExchangeSimulator.Process | src/exchange/exchange_simulator.cpp:31-37 | Both requests: class and specification stay in step and the class invariant is kept. |
| Exchange.ExchangeSimulator.HasRestingOrder | src/exchange/exchange_simulator.cpp:44-47 | True exactly for a client with an order in either queue. |
| Exchange.ExchangeSimulator.RestOrder | src/exchange/exchange_simulator.cpp:193-222 | The order goes to the end of the list of its price, and the index leads to it. |
| Exchange.ExchangeSimulator.Dereference | src/exchange/exchange_simulator.cpp:55 | Following side, price and node from the index gives the order of that client in the queues. |
| ReportBatch.ExecutionReportBatch.Push | src/exchange/exchange_simulator.cpp:7-14 | The batch holds the first 16 reports pushed; the answer says whether this one is among them. |
| ReportStream.ProcessIsLegal | src/exchange/exchange_simulator.cpp:58-178 | The untruncated log of any request is legal for the table of live orders, and what the log says happened is what the books then hold. |
| OrderStreams.RunsAreLegal | src/exchange/exchange_simulator.cpp:31-250 | The same over every sequence of requests, with the invariant at the end. |
| OrderStreams.EveryOrderGetsAStream | src/exchange/exchange_simulator.cpp:252-348 | In any run from the empty venue the reports of each exchange id are: one acknowledgement, then fills with strictly rising cumulative quantity equal to the sum of last quantities and cumulative plus leaves equal to the order quantity, at most one terminal report with the exact remainder, nothing after; the stream is open exactly while the order is live. |
| OrderLifecycle.ApplyKeepsSound | src/oms/order_state_machine.cpp:8-119 | Any event keeps a sound order sound and only advances it; a refused event changes nothing. |
| OrderLifecycle.OrdersStaySound | src/oms/order_state_machine.cpp:8-98 | Over every event sequence: filled plus remaining is the quantity unless Filled, remaining is zero exactly when Filled, fills never shrink, and nothing touches an order that has ended. |
| OrderLifecycle.AverageIsNearlyExact | src/oms/order_state_machine.cpp:100-119 | The average times the filled quantity is at most the exact notional, short of it by no more than the sum of (filled - 1) over second and later fills, and lies between the lowest and highest fill price. |
| OrderManagement.OrderStateMachine.ApplyEvent | src/oms/order_state_machine.cpp:8-87 | The record updated in place becomes what the specified transition says; an accepted event takes its status along an edge of the written-out graph, and a refused one changes nothing. |
| OrderManagement.OrderStateMachine.FillOrder | src/oms/order_state_machine.cpp:100-119 | The same for the clamped fill with its truncated average. |
| OrderManagement.OrderManager.CreateOrder | src/oms/order_manager.cpp:5-16 | A fresh record under the next id, Created, unfilled, with the fields given; all others as before. |
| OrderManagement.OrderManager.ApplyEvent | src/oms/order_manager.cpp:95-106 | Only the named record changes, as specified; an unknown id changes nothing. |
| OrderManagement.OrderManager.OnNewAck | src/oms/order_manager.cpp:35-46 | The exchange id is stored exactly when the acknowledgement is accepted. |
| OrderManagement.OrderManager.ActiveOrderCount | src/oms/order_manager.cpp:84-93 | The loop over the records counts exactly the active ones. |
| OrderManagement.ManagersStaySound | src/oms/order_manager.cpp:5-106 | Over every sequence of manager calls ids are never reused, every order of positive quantity stays sound, and ended orders never change. |
| OrderManagement.OrderManager.Submit | src/oms/order_manager.cpp:30-33 | The submit event on that order, and the answer says whether it was accepted. |
| OrderManagement.OrderManager.RequestCancel | src/oms/order_manager.cpp:63-66 | The same for the cancel request. |
| OrderManagement.OrderManager.RemainingQuantity | src/oms/order_manager.cpp:78-82 | The remainder of the order, zero if unknown. |
| Positions.NoExcessWithoutFlip | src/position/position_manager.cpp:116-118 | The last branch of the average update is never taken. |
| Positions.ExtensionBalances | src/position/position_manager.cpp:90-101 | An opening or extending fill moves cash, position value and profit together up to its rounding, at most abs(new position) - 1, and exactly when it opens. |
| Positions.ReductionBalances | src/position/position_manager.cpp:103-118 | A reducing, closing or flipping fill balances with no rounding at all. |
| Positions.ProfitReconciles | src/position/position_manager.cpp:75-119 | For every history and symbol: cash plus position value plus the accumulated rounding is the realized profit, exactly, and the gap is at most the sum of (abs(new position) - 1) over fills that extend an open position. |
| Positions.BoundIsReached | src/position/position_manager.cpp:95-98 | From every open position some fill that extends it loses all of abs(new position) - 1. |
| Positions.FillMovesTotals | src/position/position_manager.cpp:35-60 | A fill moves the three totals over all symbols by its own quantity. |
| Positions.NetIsBoughtLessSold | src/position/position_manager.cpp:82-110 | Every position is what was bought less what was sold. |
| Positions.PositionManager.Move | src/position/position_manager.cpp:75-119 | The field updates, branch by branch, give the specified state of one symbol and leave the others; a fill that reduces realizes its distance from the average for the units it closes and keeps the average unless it closes the position. |
| Positions.PositionManager.Position | src/position/position_manager.cpp:35-42 | The loop returns the sum over all symbols, in whatever order it visits them. |
| Positions.PositionManager.TotalBought | src/position/position_manager.cpp:44-51 | The same for quantities bought. |
| Positions.PositionManager.TotalSold | src/position/position_manager.cpp:53-60 | The same for quantities sold. |
| Positions.PositionManager.CurrentPosition | src/position/position_manager.cpp:17-21 | The quantity held of a symbol, zero if it never traded. |
| Positions.PositionManager.ApplyTrade | src/position/position_manager.cpp:12-15 | A trade moves the positions as a fill of the same fields does. |
| ReportKeys.KeySeparatesReports | src/execution/execution_report_handler.cpp:71-80 | Reports of one order with quantities in 0..65535 and equal keys have equal type, last, cumulative and leaves. |
| ReportKeys.KeySeparatesStream | src/execution/execution_report_handler.cpp:71-80 | Along the stream of an order of at most 65540, a later report never has the key of an earlier one. |
| ReportKeys.OrdersSeparateExactly | src/execution/execution_report_handler.cpp:71-80 | With client and exchange ids in step, keys of genuine reports tell different orders apart up to id n and quantity q if and only if n <= 256, or n <= 2047 and q <= 65536. |
| ReportKeys.KeySeparatesFirstTwo | src/execution/execution_report_handler.cpp:71-80 | Of the first two fills of an order of at most 196607, and of its other reports, no two share a key. |
| ReportKeys.FirstTwoCollide | src/execution/execution_report_handler.cpp:71-80 | The first two fills, of 131071 and 65535, of an order of 196608 share a key. |
| ReportKeys.KeySeparatesAcks | src/execution/execution_report_handler.cpp:71-80 | Acknowledgements with ids in step that leave as much have different keys for all 64-bit ids. |
| ReportKeys.LastFillCollides | src/execution/execution_report_handler.cpp:71-80 | The last fill of order 257, of 65536 out of 65537, has the key of the acknowledgement of order 1 for one. |
| ReportKeys.StrayAckCollides | src/execution/execution_report_handler.cpp:71-80 | The acknowledgement of client order 3 as exchange order 2 has the key of that of order 1. |
| ReportKeys.AckCollides | src/execution/execution_report_handler.cpp:71-80 | The cancel acknowledgement of order 1024 and the acknowledgement of order 2048 share a key when their leaves agree. |
| StreamKeys.StreamsSeparateExactlyUpTo65540 | src/execution/execution_report_handler.cpp:71-80 | Over all runs of the exchange with orders of at most q, the reports of each order have distinct keys if and only if q <= 65540. |
| StreamKeys.LargeRunClashes | src/execution/execution_report_handler.cpp:71-80 | An order of 65541 that is filled 1, 1 and 65537 gets two partial fills with one key. |
| ReportHandler.DuplicatesAreHarmless | src/execution/execution_report_handler.cpp:11-69 | A copy of an accepted report, at any later point of any stream, leaves orders, positions and seen keys as they would have been, and is refused as a duplicate. |
| ReportHandler.AcceptedReportsSuffice | src/execution/execution_report_handler.cpp:11-59 | Any stream leaves the state that its accepted reports leave by themselves, and by themselves they are all accepted. |
| ReportHandler.RefusalsChangeNothing | src/execution/execution_report_handler.cpp:13-55 | Whatever the reason, a refused report changes nothing. |
| ReportHandler.AcknowledgementLost | src/execution/execution_report_handler.cpp:61-80 | After that cancel of order 1024, the genuine acknowledgement of order 2048 is refused. |
| ReportHandler.ExecutionReportHandler.OnReport | src/execution/execution_report_handler.cpp:11-59 | Manager, positions and seen keys change in place to the specified state, with the specified answer. |
| ReportHandler.ExecutionReportHandler.Update | src/execution/execution_report_handler.cpp:25-51 | Each report type raises its own event, and positions move only with an accepted fill, by the raw report quantity. |
| Gateway.OrderGateway.SendNewOrder | src/gateway/order_gateway.cpp:5-25 | The request carries the fields of the order under the next sequence number, which moves on only if it is sent. |
| Gateway.OrderGateway.SendCancelOrder | src/gateway/order_gateway.cpp:27-47 | The same for a cancel of the remaining quantity. |
| ClosedLoop.DeliveryKeepsBooks | src/execution/execution_report_handler.cpp:11-59 | However much of a legal log is delivered and whichever reports the handler refuses, positions equal signed fills and the manager is never ahead of the venue. |
| ClosedLoop.PositionsEqualFills | apps/trading_sim.cpp:133-156 | On every run of the loop, with overflowing batches, reports lost to colliding keys and cancels nobody asked for, each position is the signed sum of the filled quantities of its orders. |
| Mirror.LogsAreEven | src/exchange/exchange_simulator.cpp:78-104 | The fills of any log give as much to buyers as to sellers. |
| Mirror.DeliveryKeepsMirror | src/execution/execution_report_handler.cpp:11-59 | A whole legal, expected log with new keys is accepted report by report and leaves the manager an exact image of the venue. |
| MirroredRuns.ClosedLoopMirrors | apps/trading_sim.cpp:133-156 | On every run whose batches fit, whose cancels are asked for first and whose keys are distinct: every report is accepted, an order is Acked, PartiallyFilled or PendingCancel exactly when it rests at the exchange, with the same filled and remaining quantities, total bought is total sold, and the net position is zero. |
| MirrorLimits.SevenHitsFit | include/trading/exchange/exchange_simulator.hpp:15 | A log has one report and two more for each order hit, so a batch holds it exactly when at most seven are hit. |
| MirrorLimits.StepKeepsMirrorExactly | src/gateway/order_gateway.cpp:82-88 | With distinct keys, a step from a mirrored world keeps the mirror if and only if it will hit at most seven resting orders and sends no cancel that the manager did not ask for. |
| ShortRuns.TameStreamsHaveNewKeys | src/execution/execution_report_handler.cpp:61-80 | With ids in step, no two reports of a legal stream share a key under any of three bounds: ids up to 3, quantities up to 196607 and no order filled three times; ids up to 256 and quantities up to 65540; ids up to 2047 and quantities up to 65536. |
| ShortRuns.ShortRunsMirror | apps/trading_sim.cpp:133-156 | The mirror with no hypothesis on keys: for three sendable orders of at most 196607 each, for 256 of at most 65540 each, and for 2047 of at most 65536 each. |
| FillCounts.StepCountsFills | src/exchange/exchange_simulator.cpp:78-131 | Each step keeps it so that, while the exchange has accepted one, two or three orders, none of them has been filled more than zero, one or two times. |
| FillCounts.TwoFillsAreTheFirst | src/exchange/exchange_simulator.cpp:78-104 | In a legal stream that fills no order three times, two partial fills of one order are its first two: the earlier one accumulates its own quantity only, the later one both. |
| EarlyRuns.EarlyRunsMirror | apps/trading_sim.cpp:133-156 | Runs of two placements, of any kind and any quantity, with any cancels the manager asked for, end mirrored. |
| KeyLimits.StrayRunBreaks | src/execution/execution_report_handler.cpp:61-80 | Three placements, the second refused by the gateway, after which the exchange has an order whose acknowledgement the handler took for a copy. |
| KeyLimits.UnluckyRunBreaks | src/execution/execution_report_handler.cpp:61-80 | A disciplined run of 2048 orders, one of them canceled, after which the exchange has order 2048 and the manager still waits for its acknowledgement. |
| LostFills.TopRunBreaks | src/execution/execution_report_handler.cpp:61-80 | A disciplined run of 257 orders, the largest of 65537, after which the exchange is done with order 257 and the manager still has it working. |
| LostFills.LargeRunBreaks | src/execution/execution_report_handler.cpp:61-80 | A disciplined run of four orders, one of 65541, in which the manager never learns of a fill of 65537. |
| LostFills.HugeRunBreaks | src/execution/execution_report_handler.cpp:61-80 | A disciplined run of three orders, one of 196608, in which the manager never learns of a fill of 65535. |
| AgreementLimits.MirrorsExactlyUpTo2 | apps/trading_sim.cpp:133-156 | For every q >= 1, all disciplined runs of up to n placements of at most q each, refused ones included, end mirrored if and only if n <= 2. |
| AgreementLimits.SendableMirrorExactly | apps/trading_sim.cpp:133-156 | For every n and every q >= 1, all disciplined runs of up to n placements of at most q each, none of which the gateway refuses, end mirrored if and only if n <= 2, or n <= 3 and q <= 196607, or n <= 256 and q <= 65540, or n <= 2047 and q <= 65536. |
| ReportProcessing.ProcessExecutionReports | apps/trading_sim.cpp:79-94 | The loop over the batch array handles every kept report once, in order. |
| TradingLoop.PipelineContext.PlaceOrder | apps/trading_sim.cpp:133-156 | Creating, submitting, sending, matching and handling in place is one step of the specified loop. |
| TradingLoop.PipelineContext.SendCancel | src/gateway/order_gateway.cpp:49-59 | So is sending a cancel by client id. |
| TradingLoop.PipelineContext.Exchange | apps/trading_sim.cpp:150-154 | The exchange answers and its kept reports are handled before anything else happens. |
| TradingLoop.PipelineContext.RequestCancel | src/oms/order_manager.cpp:63-66 | Asking for a cancel is one step of the specified loop. |
| SimulatorLoop.StrategySimulator.OnBookUpdate | src/strategy/strategy_simulator.cpp:10-48 | The orders generated join the best price of their side of the live orders, one for each configured side, if and only if both sides stand, the spread is within bounds and the quantity is positive. |
| SimulatorLoop.Simulator.ProcessMarketDataEvent | apps/trading_sim.cpp:96-158 | One event updates book, risk window and order loop in place to the specified context. |
| SimulatorLoop.Simulator.RunSingleThreaded | apps/trading_sim.cpp:171-176 | The loop over the replay, from any state, computes the replayed context. |
| SimulatorLoop.Simulator.ProcessQuote | apps/trading_sim.cpp:109-157 | One generated order: checked against the current position and market, and placed only if allowed. |
| TradingSimulator.ReplayIsDriven | apps/trading_sim.cpp:96-158 | The order loop after any replay is what at most one valid placement per event and quoted side makes of the empty world. |
| TradingSimulator.ReplayKeepsBooks | apps/trading_sim.cpp:96-176 | After any replay, of any length under any settings, positions equal fills and the exchange is in order. |
| TradingSimulator.OneSidedNeverFills | apps/trading_sim.cpp:63-72 | With a strategy that quotes one side, as the simulator configures it, no replay ever fills an order. |
| TradingSimulator.OneSidedMirrors | apps/trading_sim.cpp:63-72 | Every replay of fewer than 2^64 events by a strategy that quotes one side, as the simulator configures it, leaves manager and exchange in agreement, with every order working unless the gateway refuses the symbol. |
| TradingSimulator.ThreadedSimulatorIsExact | apps/trading_sim.cpp:178-223 | The same for the whole simulator: after any interleaving the trading state is that of the single-threaded run of the events handled so far, in the end of all before the first with the sentinel sequence, and its positions equal its fills. |
| TradingSimulator.EventIsDriven | apps/trading_sim.cpp:96-158 | One event adds at most one placement for each quoted side. |
| OneSidedRuns.OneSidedRunsMirror | apps/trading_sim.cpp:133-156 | Any number of sendable orders of one quantity on one side, as long as ids fit 64 bits, ends mirrored with every report accepted. |
| SpscQueue.SPSCQueue.Push | include/trading/utils/spsc_queue.hpp:28-48 | Appends exactly when fewer than the capacity are queued, across every wrap-around. |
| SpscQueue.SPSCQueue.Pop | include/trading/utils/spsc_queue.hpp:64-78 | Takes the oldest value exactly when there is one. |
| SpscQueue.SPSCQueue.SizeApprox | include/trading/utils/spsc_queue.hpp:97-108 | With no other thread running, the number of queued values. |
| SpscQueue.SPSCQueue.Empty | include/trading/utils/spsc_queue.hpp:80-84 | With no other thread running, true exactly when nothing is queued. |
| SpscQueue.SPSCQueue.Full | include/trading/utils/spsc_queue.hpp:86-90 | With no other thread running, true exactly when the capacity is queued. |
| SpscInterleaving.StepKeepsInv | include/trading/utils/spsc_queue.hpp:28-78 | Every atomic access of either thread, loads being allowed to see any published index not older than one already seen, keeps the invariant. |
| SpscInterleaving.QueueIsLinearizable | include/trading/utils/spsc_queue.hpp:28-78 | In every reachable state of every interleaving: popped values followed by what memory holds between the indices are the pushed values in order, at most the capacity are queued, and the producer never writes a slot the consumer may read. |
| SpscInterleaving.FreshLoadsAreExact | include/trading/utils/spsc_queue.hpp:36-39 | With up-to-date loads a push fails exactly on a full queue and a pop exactly on an empty one. |
| SpscInterleaving.WriteSlotIsFree | include/trading/utils/spsc_queue.hpp:42 | The slot about to be written holds no queued value. |
| ThreadedPipeline.ThreadedHandlesUntilSentinel | apps/trading_sim.cpp:178-223 | In every interleaving the handled events are a prefix of those before the first with the sentinel sequence, all of them once the consumer has left, and the state is that of handling them in order. |
| ThreadedPipeline.ThreadedEqualsSingle | apps/trading_sim.cpp:171-223 | Once the consumer has left, the handled events are the replay if and only if no event carries the sentinel sequence, and the state then is that of the single-threaded run. |
| ThreadedPipeline.NoDeadlock | apps/trading_sim.cpp:188-219 | From every reachable state the threads can still bring the consumer out of its loop. |
| ThreadedPipeline.BothThreadsCanFinish | apps/trading_sim.cpp:184-223 | At every point of every interleaving both threads can still be joined if and only if the events from the first with the sentinel sequence on number at most the capacity; with no such event, always. |
| ObjectPool.PoolsStayPartitioned | include/trading/utils/object_pool.hpp:36-66 | Over every sequence of operations every slot is live or free, never both, and the free list visits each free slot once. |
| ObjectPool.PoolServesFairly | include/trading/utils/object_pool.hpp:36-48 | After any operations on a fresh pool, bad and repeated frees and throwing constructors included: live and free slots add up to the capacity, no granted slot has a live owner, and nothing is granted exactly when the constructor throws or all slots are live. |
| ObjectPool.LastFreedIsReusedFirst | include/trading/utils/object_pool.hpp:61-65 | Freeing a live slot and allocating gives that slot back and changes nothing else. |
| ObjectPool.ObjectPool.ResetFreeList | include/trading/utils/object_pool.hpp:92-99 | The loop links all slots in order, ending at npos. |
| ObjectPool.ObjectPool.IndexOf | include/trading/utils/object_pool.hpp:121-133 | The slot at the address; npos exactly for null and foreign addresses. |
| ObjectPool.ObjectPool.Allocate | include/trading/utils/object_pool.hpp:36-48 | The address of the granted slot, or null when none is free; a throwing constructor changes nothing; the links still spell the free list. |
| ObjectPool.ObjectPool.Deallocate | include/trading/utils/object_pool.hpp:50-66 | Gives back the slot at a live address; null, foreign and repeated frees change nothing. |
| ObjectPool.LiveSlotsAreOwned | include/trading/utils/object_pool.hpp:36-66 | After any operations a slot is live if and only if some allocation was granted it and nothing freed it since, and holds what that allocation put there. |
| ObjectPool.FailuresChangeNothing | include/trading/utils/object_pool.hpp:36-66 | An allocation that throws or finds no slot, and a free of a slot that is not live, change nothing. |
| MarketBook.LevelsAreDetermined | src/md/order_book.cpp:170-201 | Levels with the same sums are the same levels, so the incremental book is a function of the live orders. |
| MarketBook.ModifyIsCancelThenAdd | src/md/order_book.cpp:113-133 | A valid modify leaves the orders of a cancel followed by an add under the same id. |
| MarketBook.ModifyLeavesTheSameBook | src/md/order_book.cpp:113-133 | And so the same levels on both sides. |
| MarketBook.FirstLevelIsBest | src/md/order_book.cpp:39-47 | The first level stands at the best price of any live order of its side. |
| MarketBook.TopLevelsAreBest | src/md/order_book.cpp:73-95 | The top levels are in strict price order, hold the sums of their orders, and no live order elsewhere has a better price. |
| MarketBook.OrderBook.TopLevels | src/md/order_book.cpp:73-95 | The loop returns the first levels of the side, up to the depth. |
| MarketBook.OrderBook.QuantityAt | src/md/order_book.cpp:57-66 | The sum of the live orders at a side and price. |
| MarketBook.OrderBook.BestBid | src/md/order_book.cpp:39-42 | The highest price of a live bid, zero if there is none. |
| MarketBook.OrderBook.BestAsk | src/md/order_book.cpp:44-47 | The lowest price of a live ask, zero if there is none. |
| MarketBook.OrderBook.ModifyOrder | src/md/order_book.cpp:113-133 | Live orders change as specified and both sides of levels still hold exactly their sums; the same for add, cancel and trade. |
| MarketBook.OrderBook.TradeOrder | src/md/order_book.cpp:148-168 | A trade takes at most what the order has; an emptied order goes, and its level if that was the last of it. |
| MarketBook.OrderBook.Apply | src/md/order_book.cpp:5-18 | Any event, applied or refused, keeps levels and orders in agreement. |
| MarketBook.BooksAreDetermined | src/md/order_book.cpp:170-201 | The same for both sides of the book. |
| MarketBook.OrderBook.AddOrder | src/md/order_book.cpp:97-111 | A valid add under an unused id, and nothing else, adds the order and its quantity. |
| MarketBook.OrderBook.CancelOrder | src/md/order_book.cpp:135-146 | Takes the order and all its quantity out; an unknown id changes nothing. |
| MarketBook.OrderBook.Spread | src/md/order_book.cpp:49-55 | Best ask less best bid of the live orders, zero if a side is empty. |
| MarketBook.OrderBook.HasBid | src/md/order_book.cpp:29-32 | True exactly when some live order is a bid. |
| MarketBook.OrderBook.HasAsk | src/md/order_book.cpp:34-37 | True exactly when some live order is an ask. |
| RiskEngine.RateIsBounded | src/risk/pre_trade_risk_engine.cpp:112-137 | For positive timestamps that never go back, any half-open interval of the window length holds at most twice the limit less one accepted orders. |
| RiskEngine.BoundIsReachedExactly | src/risk/pre_trade_risk_engine.cpp:112-137 | Some such run attains that number if and only if the limit is one, or the window is at least two and below 2^64 - 1. |
| RiskEngine.OddWindowsAreCapped | src/risk/pre_trade_risk_engine.cpp:112-137 | With a window of one, or of 2^64 - 1 and more, an interval never holds more than the limit. |
| RiskEngine.WindowsAreApart | src/risk/pre_trade_risk_engine.cpp:118-121 | Refused orders use no allowance, a window never holds more than the limit, and windows start at least their length apart. |
| RiskEngine.ZeroTimeIsUnlimited | src/risk/pre_trade_risk_engine.cpp:118-121 | At timestamp zero every otherwise valid order is accepted, however many. |
| RiskEngine.BoundNeedsPositiveStart | src/risk/pre_trade_risk_engine.cpp:118-121 | Over runs whose timestamps start at t0 and never go back, the bound holds if and only if t0 > 0. |
| RiskEngine.BackwardsResetsExactly | src/risk/pre_trade_risk_engine.cpp:118-121 | A step back opens a new window if and only if the wrapped difference is at least the window. |
| RiskEngine.BackwardsBreaksBound | src/risk/pre_trade_risk_engine.cpp:118-121 | A clock that goes back a nanosecond at a time puts as many full limits into one window length as that has nanoseconds, which from two on exceeds the bound. |
| RiskEngine.PreTradeRiskEngine.Validate | src/risk/pre_trade_risk_engine.cpp:22-69 | An order is allowed if and only if it passes all eight tests, and otherwise refused for the first it fails; only an allowed one moves the count. |
| RiskEngine.PreTradeRiskEngine.OrderRateAvailable | src/risk/pre_trade_risk_engine.cpp:112-124 | Moves to the window in force and says whether it has room. |
| RiskEngine.PreTradeRiskEngine.RecordOrderAttempt | src/risk/pre_trade_risk_engine.cpp:126-137 | Counts one order in the window in force. |
| RiskEngine.PreTradeRiskEngine.IsSymbolAllowed | src/risk/pre_trade_risk_engine.cpp:76-88 | The search finds the symbol exactly when the list has it, and an empty list allows all. |
| RiskEngine.FirstFailureDecides | src/risk/pre_trade_risk_engine.cpp:22-69 | An order is allowed if and only if it passes eight tests in plain arithmetic; otherwise it is refused for the first one it fails. |
| Executions.TradesAtRestingPrices | src/exchange/exchange_simulator.cpp:73-156 | At any venue in order, a valid new order gets an acknowledgement for its whole quantity, and for each order hit two fills at the resting order's price, which is within the incoming limit; client, exchange id, symbol, side, last, cumulative, leaves, type, status and timestamps of each are stated as equalities with the orders before the trade. |
| Executions.NewOrderIsAnswered | src/exchange/exchange_simulator.cpp:58-66 | A new order is acknowledged, and uses up an exchange id, exactly under the six conditions of validity; any other gets one reject and changes nothing. |
| Executions.CancelIsAnswered | src/exchange/exchange_simulator.cpp:165-178 | A cancel takes the order of the client, and no other, wherever it rests, and reports it with its whole remainder; with none there, one cancel reject and nothing changes. |
| Executions.RemainderRests | src/exchange/exchange_simulator.cpp:158-222 | The order's own side gains exactly what its quantity exceeds all that crosses its limit by, with its own price, fills and arrival time; or nothing. |
| Executions.LogsAreEvenInMoney | src/exchange/exchange_simulator.cpp:90-104 | In the answer to any request, the money bought for equals the money sold for. |
| Executions.RunsHonorLimits | src/exchange/exchange_simulator.cpp:58-178 | Over every run of requests: every fill is of an order that some request placed, at a price no worse than its limit, its cumulative plus leaves being the quantity placed; whatever rests is what its request placed; and buyers pay what sellers receive. |
| OrderTransitions.AcceptedExactly | src/oms/order_state_machine.cpp:17-82 | Which events are taken in which status, with what quantity, price and remainder. |
| OrderTransitions.EventsFollowEdges | src/oms/order_state_machine.cpp:17-86 | Every accepted event goes along an edge of the written-out status graph, whose guards speak of what was filled and what is left; every refused one changes nothing. |
| OrderTransitions.EdgesAreUnique | src/oms/order_state_machine.cpp:17-86 | The graph leaves no choice: status, event, filled and left determine the next status. |
| OrderTransitions.FillsTakeWhatTheyBring | src/oms/order_state_machine.cpp:36-61 | Only fills change more than the status; they add what they bring up to what is left, a last fill leaves nothing, and the average is within one unit of price of the mean. |
| OrderTransitions.EndedMeansNothingIsTaken | src/oms/order_state_machine.cpp:89-98 | A sound order is terminal if and only if no event whatever is taken any more, and active if and only if it is neither that nor new. |
| OrderTransitions.PendingCancelWaits | src/oms/order_state_machine.cpp:36-82 | Through every sequence of events without a last fill or an answer to the cancel, an order whose cancel is pending stays so exactly as long as something is left of it. |
| OrderTransitions.CancelIsSettled | src/oms/order_state_machine.cpp:63-82 | After an accepted cancel request and any such sequence that leaves something, the acknowledgement is accepted and cancels, and the rejection is accepted and leads to PartiallyFilled if and only if something was filled, else to Acked. |
| OrderTransitions.StatusesAreEarned | src/oms/order_state_machine.cpp:8-87 | From a new order, no status is reached without the events that lead there: no fill without an acknowledgement, no cancellation without a request and its acknowledgement. |
| Profits.FillCounts | src/position/position_manager.cpp:77-88 | A valid fill moves position and totals by its quantity and no other symbol; an invalid one moves nothing. |
| Profits.ReducingRealizes | src/position/position_manager.cpp:103-114 | A fill against the position, up to its size, realizes its distance from the average for the units it closes, with the sign of the position; the average stays, or is zero when nothing is left. |
| Profits.FlippingRealizes | src/position/position_manager.cpp:103-118 | A fill beyond the position realizes the units held and no more, turns it, and its price is the new average. |
| Profits.ExtendingAverages | src/position/position_manager.cpp:90-101 | A fill that opens or extends realizes nothing; the average is its price, or the mean of the cost, short by less than a unit of price and between the old average and the price. |
| Profits.HistoriesAreAccounted | src/position/position_manager.cpp:75-119 | Over every history: while a position is open its average lies between the lowest and highest price of the fills that opened it or added to it, and is zero otherwise; realized profit lies within what the closing fills can bring against such prices. |
| ReportEffects.AnswersExactly | src/execution/execution_report_handler.cpp:11-58 | Each of the five answers to a report, if and only if the id, the known orders, the seen keys and the status of the order say so. |
| ReportEffects.AcceptedReportsAct | src/execution/execution_report_handler.cpp:25-58 | An accepted report changes its own order as its type says and no other, moves the positions by a fill of its own price and quantity if it is one, and is remembered. |
| ReportEffects.AcceptedFillsAverage | src/execution/execution_report_handler.cpp:34-45 | An accepted fill moves the average of its order by the price and quantity of the report, within one unit of price of the exact mean. |
| LoopAccounts.PositionsAreAcceptedFills | src/execution/execution_report_handler.cpp:11-59 | After any stream of reports the positions are what its accepted fills make of them as trades, in order. |
| LoopAccounts.ProfitIsRounding | apps/trading_sim.cpp:133-156 | On every mirrored run whose orders are all of one symbol, the position is closed, cash is zero, and the realized profit is exactly what the truncated averages lost. |
| LoopRequests.PlacementsGoOut | apps/trading_sim.cpp:133-154 | In a mirrored world a placement is sent if and only if it names a symbol and price and quantity are positive; the request carries the order under the next sequence number, and is acknowledged for its whole quantity; one not sent leaves its order pending. |
| LoopRequests.AskingIsRecorded | src/oms/order_manager.cpp:63-66 | Asking for a cancel changes the status of that order to PendingCancel if and only if it was Acked or PartiallyFilled, and nothing else anywhere. |
| LoopRequests.CancelsGoOut | src/gateway/order_gateway.cpp:27-59 | In a mirrored world a cancel is sent if and only if the order is Acked, PartiallyFilled or PendingCancel; the request carries its remainder, and the exchange answers with that remainder and has the order no more. |
| QuotePlacements.QuotesJoinTheTouch | src/strategy/strategy_simulator.cpp:14-46 | Each quote is at a price where a live order of its side stands and which none of its side beats; there is at most one a side, buy first; a side is quoted if and only if it is configured, the quantity is positive, both sides have an order and the spread is within bounds. |
| QuotePlacements.QuoteIsPlacedExactly | apps/trading_sim.cpp:109-157 | A quote is placed if and only if it passes every pre-trade test at the best prices and position of the moment. |
| QuotePlacements.ReplaysAreTraced | apps/trading_sim.cpp:96-176 | Every replay is a run of placements, each prompted by an event that applied: at the best price of its side of the live orders that event leaves, at that event's time, within all limits at the position the placements before it made, in event order, at most a buy and then a sale for one event. |
| RiskLimits.SettledPositionsStayInside | src/risk/pre_trade_risk_engine.cpp:50-57 | In every run in which each order is done with before the next, however much of it was filled, a position that starts within its limit stays there. |
| BookEvents.AppliesExactly | src/md/order_book.cpp:98-168 | Which events apply. |
| BookEvents.EventMovesDepth | src/md/order_book.cpp:98-201 | An event that applies moves the quantity at every side and price by what it takes from there and brings there, and touches no other order; one that does not changes nothing. |

## Left out

- Integer widths: prices, quantities, money and ids are unbounded, so 32-bit and 64-bit overflow is not modelled. The
  exceptions are the report key, computed on 64-bit words with sign extension, and the wrap-around subtraction of
  timestamps.
- Symbols are strings, the empty one being invalid; truncation to the storage of a symbol is not modelled.
- include/trading/md/order_book.hpp is not part of this model: that bids descend and asks ascend follows from
  src/md/order_book.cpp:39-47.
- The node a list iterator points to is named by the exchange id of its order, so pointer validity is uniqueness of ids.
- Market and other time-in-force values reach the exchange only as fields; as in the program, the exchange rejects
  whatever is not a limit order and ignores the time in force.
- MirroredRuns.ClosedLoopMirrors: holds under hypotheses a caller can check (batches fit, cancels asked for first, keys
  distinct). MirrorLimits.StepKeepsMirrorExactly and the AgreementLimits theorems say where they are needed.
- SpscInterleaving.QueueIsLinearizable: captures weak memory only as loads of the other thread's index that may be
  stale; reordering of the slot access against the index store is excluded by release and acquire, and is taken as such.
- SpscQueue.SPSCQueue.SizeApprox: only without concurrent access, as its own comment says it is approximate otherwise.
- Copy and move overloads of push, and try_push and try_pop, are one operation each.
- ThreadedPipeline.BothThreadsCanFinish: says that the threads can be brought to their end, not that a scheduler will;
  fairness is not modelled.
- The consumer's look at `producer_done` after a failed pop has no effect on what it does next, so it is no step of its
  own.
- Object lifetime in the pool: placement new, destructor calls and the destruction of live objects with the pool are the
  difference between built and raw storage; alignment is not modelled. A slot's address is `base + i * stride`.
- Repeated cancels: two cancel rejects for one order share a key, so the second is refused; no progress is claimed for
  them.
- No claim that a net position stays within its limit while orders are open, since the check does not see them; with
  each order done before the next it does (RiskLimits.SettledPositionsStayInside).
- Random order of hash-map traversal is an arbitrary choice in the loops that add up or count.
- `clear()` and `has_order()` of the market book, `venue_name()`, `last_sequence()` and accessors that return a field.
- CSV loading and replay generation, summaries, console output, the command line, counters of the simulator's statistics
  and the latency recorder with its clock.
- src/risk/RiskEngine.cpp, src/oms/OMS.cpp and src/strategy/Strategy.cpp, which hold a name or a few branches each.
