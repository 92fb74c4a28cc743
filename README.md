# trading_tool core, modelled in Dafny

This project models two layers of the trading_tool C++ library and proves properties of them.

**The backtest simulation.**
- `Events` holds the six event records, the `Event` variant, the timestamp and type accessors, and the timestamp comparator.
- `EventQueues.EventQueue` is the timestamp-ordered queue: push, blocking pop, try_pop, empty, size and stop.
- `Execution.ExecutionEngine` caches the last tick per symbol. It turns an order into a fill:
  - the price comes from an injected slippage model;
  - a limit order's price is clamped to its limit;
  - the commission is a flat 5 bps.
  - The fill goes into the fill history and back onto the queue.
- `Backtest.BacktestEngine` runs the event loop and dispatches each event by kind. Its effect is specified by a pure state machine:
  - `SimState` is an engine state;
  - `Step` pops one event, handles it and counts it;
  - `Drain` steps until the queue is empty.
- `Drain` is total. The termination measure gives a signal weight 3, an order weight 2, and every other event weight 1. One step always lowers the measure: a signal adds one order, and an order adds at most one fill.

**Market data and indicators.**
- `IndicatorMath` gives reference definitions for each indicator position by position: SMA, EMA, Wilder RSI, Bollinger Bands and MACD.
- `Indicators` models the vector versions in src/core/indicators.cpp. Each is a method that fills a buffer with the source's running-state loop (running sums, running averages, running EMAs). Each method is proved equal to its reference definition.
- `TradingCore` models the legacy array versions in src/trading_core.cpp. Differences from the vector versions:
  - buffers start uninitialised and are filled with the undefined sentinel as `std::fill` does;
  - the RSI fills only its first `window` positions;
  - the MACD signal line is updated without a NaN check;
  - the classifier has no empty-input guard.
- `PriceSeries` is the bounded per-symbol series used by `add_price`.
- `MarketData` models src/core/market_manager.cpp: the `AssetData` class and the `MarketManager` class that owns a map from symbol to `AssetData`.
- `LegacyMarketData` models the manager in src/market_manager.cpp.

**Arithmetic modelling.**
- Values are `real`.
- The NaN sentinel is `Option.None`. A comparison with NaN is false, which the predicates `Below` and `Above` reproduce.
- `std::sqrt` is a function parameter. Only band ordering needs it to be non-negative on non-negative arguments.

## Model

| member | source | states |
|---|---|---|
| Events.PnLUpdateEvent.WinRate | include/core/events.h:144-149 | zero without trades; otherwise the rate times the trade count is the number of winning trades; within [0, 1] when wins do not exceed trades |
| Events.OrderEvent.IsMarketOrder | include/core/events.h:91-93 | an order is a market order exactly when its limit price is zero |
| Events.DefaultEvent | include/backtest/event_queue.h:40-42 | the value-initialised `Event{}` that pop returns on a stopped, empty queue is a Tick with zero timestamp and an empty symbol |
| Events.GetTimestamp | include/core/events.h:168-170 | the timestamp field of whichever record the variant holds |
| Events.GetEventType | include/core/events.h:172-174 | each tag is returned exactly when the variant holds the matching record (both directions, all six kinds) |
| Events.MakeTimestamp | include/core/events.h:182-184 | the timestamp's nanosecond count is the argument |
| Events.EventComparator | include/core/events.h:176-180 | `a` ranks below `b` exactly when `b`'s timestamp is strictly earlier, so the queue's top is an earliest event |
| Events.EventComparatorIsStrictWeakOrder | include/core/events.h:176-180 | the comparator is irreflexive, transitive and asymmetric, and equal timestamps (incomparability) are transitive, as std::priority_queue requires |
| Events.TopIsEarliest | include/core/events.h:176-180 | an event no queued event outranks under the comparator is exactly one of least timestamp |
| EventQueues.EarliestIndex | include/backtest/event_queue.h:44-45 | the served position holds a least timestamp; every earlier position has a strictly later one |
| EventQueues.RemoveAt | include/backtest/event_queue.h:45 | removing one event shortens the queue by one and removes exactly that event from the multiset |
| EventQueues.PopAllIsPermutation | include/backtest/event_queue.h:36-47 | popping until empty serves every pushed event exactly once |
| EventQueues.EarliestBelowMember | include/backtest/event_queue.h:44 | the served event is no later than any queued event |
| EventQueues.ChronologicalCons | include/backtest/event_queue.h:44-46 | an earliest event followed by a chronological sequence is chronological |
| EventQueues.PopAllIsChronological | tests/test_event_queue.py:20-31 | repeated pops serve all events, each once, in non-decreasing timestamp order, and leave the queue empty |
| EventQueues.EventQueue.constructor | include/backtest/event_queue.h:22 | a new queue is empty and not stopped |
| EventQueues.EventQueue.Push | include/backtest/event_queue.h:28-34 | the event is added and nothing else changes |
| EventQueues.EventQueue.Pop | include/backtest/event_queue.h:36-47 | on a stopped, empty queue: the default event, queue unchanged; otherwise an earliest event, removed exactly once; the pop sequence continues from the rest |
| EventQueues.EventQueue.TryPop | include/backtest/event_queue.h:49-57 | false exactly on an empty queue, leaving the queue and the caller's event unchanged; otherwise true and an earliest event removed |
| EventQueues.EventQueue.Empty | include/backtest/event_queue.h:59-62 | empty exactly when the size is zero and the contents are the empty multiset; reads only |
| EventQueues.EventQueue.Size | include/backtest/event_queue.h:64-67 | the number of queued events |
| EventQueues.EventQueue.Stop | include/backtest/event_queue.h:69-75 | sets the stop flag and keeps every pending event |
| EventQueues.EventQueue.Stopped | include/backtest/event_queue.h:77-79 | true exactly when the stop flag is set; reads only |
| Execution.MidPrice | include/backtest/execution_engine.h:81-83 | the mid price is equidistant from bid and ask and lies between them |
| Execution.SlippageRequest | include/backtest/execution_engine.h:86-92 | the model receives the mid price, the order quantity, bid plus ask volume, and the order side |
| Execution.ComputeExecutionPrice | include/backtest/execution_engine.h:94-105 | a market order gets the model's price; a limit buy gets min(model, limit); a limit sell gets max(model, limit); so a limit buy never pays above its limit and a limit sell never receives below it |
| Execution.ComputeCommission | include/backtest/execution_engine.h:108-111 | commission is quantity times price at 5 bps (one part in 2000), non-negative for non-negative inputs |
| Execution.MakeFill | include/backtest/execution_engine.h:51-63 | the fill copies order id, symbol, side and quantity; it takes the tick's timestamp and exchange "SIMULATED"; its slippage is fill price minus mid, and its commission is 5 bps of quantity times fill price |
| Execution.FillFor | include/backtest/execution_engine.h:44-63 | no fill exactly when no tick is cached for the order's symbol; otherwise the fill made from that tick |
| Execution.ExecutionEngine.constructor | include/backtest/execution_engine.h:36-37 | keeps the queue and model; no cached tick, empty history |
| Execution.ExecutionEngine.OnTick | include/backtest/execution_engine.h:39-41 | overwrites the cached tick of that symbol only |
| Execution.ExecutionEngine.OnOrder | include/backtest/execution_engine.h:43-67 | no cached tick: history and queue unchanged; otherwise exactly one fill appended to the history and the same fill pushed onto the queue |
| Execution.ExecutionEngine.GetFillsHistory | include/backtest/execution_engine.h:69-71 | the fill history as recorded, oldest first; reads only |
| Execution.LimitPriceClamps | include/backtest/execution_engine.h:96-103 | a limit buy whose model price exceeds the limit, or a limit sell whose model price is below it, fills exactly at the limit |
| Execution.AggressiveSlippageExample | tests/test_slippage.py:20-48 | a model adding 5 to a buy's mid price of 100 fills a market buy of 10 at 105, with slippage 5 and commission 0.525 |
| Backtest.SignalToOrder | src/backtest/backtest_engine.cpp:67-75 | the order takes the counter as its id and the signal's timestamp, symbol, side and strategy; quantity 1, a market order, status PENDING |
| Backtest.WeightConcat | src/backtest/backtest_engine.cpp:21-25 | the termination measure of a concatenation is the sum of the parts |
| Backtest.WeightRemoveAt | src/backtest/backtest_engine.cpp:22 | popping an event lowers the measure by exactly that event's weight |
| Backtest.StepLowersWeight | src/backtest/backtest_engine.cpp:21-82 | every loop iteration strictly lowers the measure: Signal → one Order, Order → at most one Fill, anything else → nothing |
| Backtest.StepUnfolds | src/backtest/backtest_engine.cpp:22-24 | pop, dispatch and increment together equal one Step |
| Backtest.DrainStep | src/backtest/backtest_engine.cpp:21-25 | one step does not change where the run ends |
| Backtest.BacktestEngine.constructor | include/backtest/backtest_engine.h:43-44 | a new engine is not running and has processed zero events |
| Backtest.BacktestEngine.Run | src/backtest/backtest_engine.cpp:17-31 | the run terminates in the Drain state of the initial state and leaves the queue empty |
| Backtest.BacktestEngine.ProcessNext | src/backtest/backtest_engine.cpp:21-25 | one iteration pops one earliest event, handles it and adds one to the counter, as Step says |
| Backtest.BacktestEngine.Stop | src/backtest/backtest_engine.cpp:33-36 | running is false and the queue is stopped; pending events are kept |
| Backtest.BacktestEngine.PushEvent | src/backtest/backtest_engine.cpp:38-40 | only forwards the event to the queue |
| Backtest.BacktestEngine.HandleEvent | src/backtest/backtest_engine.cpp:42-58 | the effect of each event kind is Dispatch; position and PnL updates change nothing |
| Backtest.BacktestEngine.HandleTick | src/backtest/backtest_engine.cpp:60-62 | a tick updates the tick cache and pushes nothing |
| Backtest.BacktestEngine.HandleSignal | src/backtest/backtest_engine.cpp:64-78 | a signal pushes exactly one market order, whose id is the current counter |
| Backtest.BacktestEngine.HandleOrder | src/backtest/backtest_engine.cpp:80-82 | an order is passed to on_order: one fill in the history and on the queue if a tick is cached, otherwise nothing |
| Backtest.BacktestEngine.HandleFill | src/backtest/backtest_engine.cpp:84-89 | does nothing: the engine, its queue and its execution engine are unchanged, since the source only logs |
| Backtest.BacktestEngine.RegisterFillEvent | src/backtest/backtest_engine.cpp:91-93 | appends the fill to the execution engine's history |
| Backtest.BacktestEngine.GetQueue | src/backtest/backtest_engine.cpp:95-97 | the engine's own queue object, so events the caller pushes reach the run |
| Backtest.DrainEmptiesQueue | src/backtest/backtest_engine.cpp:21-25 | absent stop, the run ends with nothing pending |
| Backtest.StepFacts | src/backtest/backtest_engine.cpp:22-24 | one step adds one to the counter and never loses a fill or a cached symbol |
| Backtest.DrainCountsBounded | src/backtest/backtest_engine.cpp:21-25 | the run processes at most the initial measure's worth of events |
| Backtest.Served | src/backtest/backtest_engine.cpp:21-25 | the events the loop dequeues: every initially pending event is among them, and there are at most the initial measure's worth |
| Backtest.DrainCountsServed | src/backtest/backtest_engine.cpp:21-25 | the counter grows by exactly the number of events the loop dequeues |
| Backtest.DrainKeepsHistory | src/backtest/backtest_engine.cpp:21-25 | the fill history only grows and cached symbols are never dropped |
| Backtest.MarketOrderScenario | tests/test_backtest_execution.py:36-62 | a tick then a market buy for ETH under the identity model give exactly one fill (order 1, ETH, BUY, quantity 1) at the mid price 2001 |
| Backtest.SignalScenario | src/backtest/backtest_engine.cpp:64-82 | a signal for a symbol with a cached tick yields exactly one fill, of the order made from the signal, after three processed events |
| IndicatorMath.SumRangeSlide | src/core/indicators.cpp:17 | adding the new input and subtracting the one leaving moves the window sum one step |
| IndicatorMath.SumSquaresSlide | src/core/indicators.cpp:117 | the same one-step move for the sum of squares |
| IndicatorMath.Sma | src/core/indicators.cpp:7 | the SMA has the input's length |
| IndicatorMath.Ema | src/core/indicators.cpp:27 | the EMA has the input's length |
| IndicatorMath.EmaRecurrence | src/core/indicators.cpp:34-38 | the EMA starts at the first input and each value is alpha·input + (1−alpha)·previous |
| IndicatorMath.Rsi | src/core/indicators.cpp:46 | the RSI has the input's length |
| IndicatorMath.BollingerFromSums | src/core/indicators.cpp:101-110 | bands computed from the running sums equal the bands of the window at that index |
| IndicatorMath.Bollinger | src/core/indicators.cpp:84-86 | each band has the input's length |
| IndicatorMath.MacdLine | src/core/indicators.cpp:134 | the MACD line has the input's length |
| IndicatorMath.SmaShape | src/core/indicators.cpp:7-19 | all undefined when the input is shorter than the window; otherwise undefined exactly before window−1; each defined value is the window mean |
| IndicatorMath.EmaAlphaInUnitInterval | src/core/indicators.cpp:31 | for a window of at least one, 2/(window+1) lies in (0, 1] |
| IndicatorMath.EmaStaysInRange | src/core/indicators.cpp:34-38 | with alpha in [0, 1], the EMA stays within any bounds the inputs stay within |
| IndicatorMath.SeedsNonNegative | src/core/indicators.cpp:53-57 | the seed sums of gains and losses are non-negative |
| IndicatorMath.AveragesNonNegative | src/core/indicators.cpp:50-71 | the running average gain and loss stay non-negative |
| IndicatorMath.RsiValueInRange | src/core/indicators.cpp:60-62 | 100 when the loss is zero; always within [0, 100] for non-negative averages |
| IndicatorMath.RsiShapeAndRange | src/core/indicators.cpp:46-72 | all undefined when size ≤ window; otherwise defined exactly from index window on; every defined value lies in [0, 100] and is 100 where the average loss is zero |
| IndicatorMath.BollingerMiddleIsSma | src/core/indicators.cpp:102-107 | the middle band equals the SMA of the same window |
| IndicatorMath.BollingerBandsOrdered | src/core/indicators.cpp:88-118 | undefined exactly when the input is too short or the index is before window−1; for k ≥ 0 and a non-negative sqrt, lower ≤ middle ≤ upper |
| IndicatorMath.MacdStartsAtZero | src/core/indicators.cpp:144-157 | the MACD line and its signal line both start at zero |
| Indicators.ComputeSma | src/core/indicators.cpp:4-22 | the output equals the reference SMA, including the all-undefined result for a window longer than the input or negative |
| Indicators.FillSma | src/core/indicators.cpp:11-19 | the accumulated first window and the sliding sum write exactly the reference SMA |
| Indicators.ComputeEma | src/core/indicators.cpp:25-41 | the output has the input's length and equals the reference EMA with alpha 2/(window+1) |
| Indicators.FillEma | src/core/indicators.cpp:34-38 | the recurrence loop writes exactly the reference EMA |
| Indicators.ComputeRsi | src/core/indicators.cpp:44-75 | the output equals the reference RSI, all undefined for size ≤ window or a negative window |
| Indicators.SeedAverages | src/core/indicators.cpp:50-58 | the seed loop yields the first average gain and loss |
| Indicators.SmoothRsi | src/core/indicators.cpp:66-73 | Wilder smoothing writes exactly the reference RSI from window+1 on |
| Indicators.ComputeBollingerBands | src/core/indicators.cpp:79-122 | the three outputs equal the reference bands |
| Indicators.FillBands | src/core/indicators.cpp:92-119 | first window, first bands and the sliding loop write exactly the reference bands |
| Indicators.FirstWindow | src/core/indicators.cpp:96-99 | the loop computes the sum and the sum of squares of the first window |
| Indicators.SlideBands | src/core/indicators.cpp:115-119 | the sliding loop keeps the running sums equal to the current window's sums and finishes every band |
| Indicators.SlideWindow | src/core/indicators.cpp:116-117 | one update moves both running sums to the next window |
| Indicators.ComputeBands | src/core/indicators.cpp:101-110 | writes the reference bands at one index and changes nothing else |
| Indicators.ComputeMacd | src/core/indicators.cpp:125-166 | both outputs have the input's length; the MACD line is fast EMA minus slow EMA; the signal line is the EMA of the MACD line with 2/(signal+1) |
| Indicators.FillMacdLine | src/core/indicators.cpp:144-154 | both running EMAs stay equal to the reference EMAs, so each position holds their difference |
| Indicators.FillSignalLine | src/core/indicators.cpp:157-163 | the guarded loop writes the EMA of the MACD line at every position |
| Indicators.ComputeSignals | src/core/indicators.cpp:170-177 | 0 for an empty or undefined last RSI; 1 exactly when RSI < 30 and price < lower band at the last index; −1 exactly when RSI > 70 and price > upper band; always −1, 0 or 1 |
| Indicators.SignalDependsOnlyOnLast | src/core/indicators.cpp:172-176 | series that agree at their last index give the same signal |
| TradingCore.FillNaN | src/trading_core.cpp:13 | exactly the given range becomes undefined and the rest is unchanged |
| TradingCore.CalculateSma | src/trading_core.cpp:4-30 | a fresh buffer equal to the reference SMA |
| TradingCore.CalculateEma | src/trading_core.cpp:32-57 | a fresh buffer equal to the reference EMA with alpha 2/(window+1) |
| TradingCore.CalculateRsi | src/trading_core.cpp:60-117 | a fresh buffer equal to the reference RSI: all undefined for size ≤ window, else undefined before window |
| TradingCore.CalculateBollingerBands | src/trading_core.cpp:124-178 | three fresh buffers equal to the reference bands |
| TradingCore.CalculateMacd | src/trading_core.cpp:184-233 | fresh buffers: MACD line as fast minus slow EMA, signal line as its EMA |
| TradingCore.FillSignalLineUnguarded | src/trading_core.cpp:227-230 | the unconditional loop writes the EMA of the MACD line at every position |
| TradingCore.CheckSignals | src/trading_core.cpp:235-257 | on a non-empty RSI: 1 exactly when RSI < 30 and price < lower band at the last index, −1 exactly when RSI > 70 and price > upper band, else 0; an undefined RSI gives 0 |
| TradingCore.CheckSignalsAgreesWithComputeSignals | src/trading_core.cpp:245-256 | on non-empty input the legacy classifier and the vector one agree |
| PriceSeries.AppendBounded | src/core/market_manager.cpp:8-15 | the new price is last; the bound holds; without overflow the old series is an unchanged prefix; with overflow exactly the oldest price is dropped |
| PriceSeries.LastN | src/core/market_manager.cpp:11-14 | the last n elements, in order |
| PriceSeries.AppendBoundedIsLastWindow | src/core/market_manager.cpp:8-15 | one add_price leaves the most recent max_size prices |
| PriceSeries.LastNAppend | src/core/market_manager.cpp:13 | trimming early and trimming at the end agree |
| PriceSeries.AppendAllIsLastWindow | src/core/market_manager.cpp:8-15 | any stream of add_price calls leaves exactly the most recent max_size prices of the whole history |
| MarketData.ProcessSeriesUpdatesOnlySymbol | src/core/market_manager.cpp:49-50 | the symbol is stored with the new price last, alone if the symbol is new; every other symbol keeps its series |
| MarketData.ProcessSeriesKeepsWellFormed | src/core/market_manager.cpp:49-50 | every series stays non-empty and at most 200 long |
| MarketData.LastPriceAfterProcess | src/core/market_manager.cpp:31-50 | get_last_price then reads the new price, and for other symbols what it read before |
| MarketData.SignalForFacts | src/core/market_manager.cpp:57-62 | HOLD below 26 prices; from 26 on, the RSI and both bands are defined at the last point, RSI is in [0, 100], the bands are ordered, and BUY/SELL follow the classifier's truth table |
| MarketData.AssetData.constructor | include/core/market_manager.h:13 | a new AssetData has no prices |
| MarketData.AssetData.AddPrice | src/core/market_manager.cpp:8-15 | the new series is the bounded append of the old one |
| MarketData.MarketManager.constructor | src/core/market_manager.cpp:20 | a new manager stores nothing and is valid |
| MarketData.MarketManager.ProcessSymbol | src/core/market_manager.cpp:42-73 | the store becomes its bounded append at that symbol; the signal is the classifier on the stored series right after the append |
| MarketData.MarketManager.AddToSymbol | src/core/market_manager.cpp:47-53 | the critical section creates the entry if absent and appends; the snapshot is the stored series |
| MarketData.MarketManager.AddToKnown | src/core/market_manager.cpp:49-52 | add_price on one AssetData changes only that symbol's series |
| MarketData.MarketManager.UpdateTick | src/core/market_manager.cpp:23-28 | a synchronous process_symbol |
| MarketData.MarketManager.GetLastPrice | src/core/market_manager.cpp:31-39 | the newest stored price, or 0.0 for an unknown symbol; reads only |
| MarketData.CheckSnapshot | src/core/market_manager.cpp:57-62 | RSI(14), Bollinger(20, 2.0) and the classifier applied to a snapshot of at least 26 prices, else 0 |
| LegacyMarketData.MarketManager.constructor | src/market_manager.cpp:19 | a new manager stores nothing and is valid |
| LegacyMarketData.MarketManager.ProcessSymbol | src/market_manager.cpp:41-71 | the store becomes its bounded append at that symbol; the printed signal is the classifier on the stored series |
| LegacyMarketData.MarketManager.AddToSymbol | src/market_manager.cpp:46-52 | creates the entry if absent and appends; the snapshot is the stored series |
| LegacyMarketData.MarketManager.AddToKnown | src/market_manager.cpp:48-51 | add_price on one AssetData changes only that symbol's series |
| LegacyMarketData.MarketManager.UpdateTick | src/market_manager.cpp:22-27 | a synchronous process_symbol |
| LegacyMarketData.MarketManager.GetLastPrice | src/market_manager.cpp:30-38 | the newest stored price, or 0.0 for an unknown symbol |

## Left out

- Thread pools (src/core/thread_pool.cpp, src/thread_pool.cpp) are left out. `update_tick` calls `process_symbol` directly, and `num_threads` is accepted and ignored.
- Mutexes, condition variables and atomics are left out: the market managers' `shared_mutex`, the queue's mutex, condition variable and atomic flag, and the engine's atomic `running_`. This is a sequential model, so a `stop` from another thread during `run` is not modelled.
- `EventQueue.Pop` blocking is not modelled. It becomes the precondition "non-empty or stopped".
- The Logger and `printf` outputs are left out. `handle_fill` only logs, so `HandleFill` does nothing. The manager's signal, which the source only logs or prints, is returned instead.
- The pybind glue is left out: src/bindings.cpp, `PYBIND11_MODULE` and the `py::array` buffer requests. src/core/trading_core.cpp is not part of this model: it only copies arrays and repeats the classifier.
- IEEE-754 doubles are modelled as exact reals. Rounding and precision noise are not captured, so neither is the bit-exact determinism test. NaN is the `None` sentinel, and `std::sqrt` is an opaque function parameter.
- Indicator windows that make the source divide by zero or index out of range are excluded by preconditions:
  - a window of 0 for SMA and RSI;
  - a window below 1 for Bollinger Bands and for the legacy SMA and RSI;
  - a period of −1 for EMA and MACD.
  - A negative window in the vector SMA and RSI is modelled: the unsigned cast makes every value undefined.
- TradingCore.CheckSignals requires a non-empty RSI. For an empty one the source computes `size_t` −1 and reads out of bounds (undefined behaviour).
- TradingCore.CheckSignals and Indicators.ComputeSignals require `price`, `lower` and `upper` to reach the RSI's last index on the paths that read them. The source reads them unchecked (`operator[]`, `unchecked<1>`), so a shorter array is undefined behaviour; every caller passes equal lengths.
- Integer widths are modelled as unbounded `int`/`nat`: `size_t` wrap-around of the counter and order ids, `int64` timestamps and `int` windows.
- `now()` reads the wall clock and is left out.
- The slippage model is a Python callable in the source. Here it is a pure function parameter.
- EventQueues.EventQueue.Pop breaks timestamp ties. `std::priority_queue` leaves the choice unspecified; the model serves the first-pushed of the earliest events. Pop promises only an earliest event, removed exactly once; the single choice exists so that `Run` can be specified by `Drain`.
- The legacy manager calls the indicator functions declared in include/indicators.h. A definition of those declarations is not part of this model. The model binds them to the definitions of src/core/indicators.cpp, which have the same signatures.
- The concrete three-event ordering of tests/test_event_queue.py is not stated as its own lemma. EventQueues.PopAllIsChronological covers every input.
- The Python scripts (engine.py, monitor.py, trading_bot/monitor.py, setup.py) are I/O, network and build code and are left out.
