/** The event-loop driver of the simulation (src/backtest/backtest_engine.cpp, state in
    include/backtest/backtest_engine.h). Its effect is specified by a pure state machine:
    SimState is what the engine, its queue and its execution engine hold together, Step
    handles one popped event, and Drain steps until the queue is empty. */
module Backtest {
  import opened Wrappers
  import opened Events
  import opened EventQueues
  import opened Execution

  /** The simulation state: the engine's pending events, the execution engine's tick
      cache and fill history, the events the execution engine pushed to a queue other
      than the engine's own (only when the two were given different queues), and the
      processed-event counter. */
  datatype SimState = SimState(
    pending: seq<Event>,
    ticks: map<string, TickEvent>,
    fills: seq<FillEvent>,
    external: seq<Event>,
    processed: nat)

  /** The market order synthesised from a signal. */
  function SignalToOrder(signal: SignalEvent, orderId: OrderId): (order: OrderEvent)
    ensures order.orderId == orderId && order.timestamp == signal.timestamp
    ensures order.symbol == signal.symbol && order.side == signal.side
    ensures order.strategyId == signal.strategyId
    ensures order.quantity == 1.0 && order.IsMarketOrder() && order.status == Pending
  {
    OrderEvent(orderId, signal.timestamp, signal.symbol, signal.side, 1.0, 0.0, Pending, signal.strategyId)
  }

  /** The effect of handling one event, by kind. `shared` says whether the execution
      engine pushes its fills onto the engine's own queue. */
  function Dispatch(st: SimState, e: Event, model: SlippageModel, shared: bool): SimState {
    match e
    case Tick(t) => st.(ticks := st.ticks[t.symbol := t])
    case Signal(s) => st.(pending := st.pending + [Order(SignalToOrder(s, st.processed))])
    case Order(o) =>
      (match FillFor(model, st.ticks, o)
       case None => st
       case Some(f) =>
         if shared then st.(fills := st.fills + [f], pending := st.pending + [Fill(f)])
         else st.(fills := st.fills + [f], external := st.external + [Fill(f)]))
    case Fill(_) => st
    case PositionUpdate(_) => st
    case PnLUpdate(_) => st
  }

  /** One loop iteration: pop an earliest event, handle it, count it. */
  function Step(st: SimState, model: SlippageModel, shared: bool): SimState
    requires st.pending != []
  {
    var i := EarliestIndex(st.pending);
    var handled := Dispatch(st.(pending := RemoveAt(st.pending, i)), st.pending[i], model, shared);
    handled.(processed := handled.processed + 1)
  }

  /** The termination measure: a signal can cause two more events, an order one more. */
  function EventWeight(e: Event): nat {
    match e
    case Signal(_) => 3
    case Order(_) => 2
    case _ => 1
  }

  function Weight(s: seq<Event>): nat {
    if s == [] then 0 else EventWeight(s[0]) + Weight(s[1..])
  }

  lemma {:induction false} WeightConcat(a: seq<Event>, b: seq<Event>)
    ensures Weight(a + b) == Weight(a) + Weight(b)
  {
    if a != [] {
      assert (a + b)[1..] == a[1..] + b;
      WeightConcat(a[1..], b);
    } else {
      assert a + b == b;
    }
  }

  lemma WeightSingleton(e: Event)
    ensures Weight([e]) == EventWeight(e)
  {
    assert [e][1..] == [];
  }

  lemma WeightRemoveAt(s: seq<Event>, i: nat)
    requires i < |s|
    ensures Weight(RemoveAt(s, i)) == Weight(s) - EventWeight(s[i])
  {
    var before, after := s[..i], s[i + 1..];
    var r := RemoveAt(s, i);
    assert r == before + after;
    WeightSplit(s, i);
    WeightConcat(before, after);
  }

  /** The measure of a sequence split around one position. */
  lemma WeightSplit(s: seq<Event>, i: nat)
    requires i < |s|
    ensures Weight(s) == Weight(s[..i]) + EventWeight(s[i]) + Weight(s[i + 1..])
  {
    var before, after := s[..i], s[i + 1..];
    var front := before + [s[i]];
    assert s == front + after;
    WeightConcat(front, after);
    WeightConcat(before, [s[i]]);
    WeightSingleton(s[i]);
  }

  /** Handling an event always lowers the weight of what is pending: a signal becomes one
      order, an order at most one fill, and anything else nothing. */
  lemma StepLowersWeight(st: SimState, model: SlippageModel, shared: bool)
    requires st.pending != []
    ensures Weight(Step(st, model, shared).pending) < Weight(st.pending)
  {
    var i := EarliestIndex(st.pending);
    var rest := RemoveAt(st.pending, i);
    WeightRemoveAt(st.pending, i);
    var e := st.pending[i];
    var next := Step(st, model, shared).pending;
    match e
    case Signal(s) =>
      assert next == rest + [Order(SignalToOrder(s, st.processed))];
      WeightConcat(rest, [Order(SignalToOrder(s, st.processed))]);
      WeightSingleton(Order(SignalToOrder(s, st.processed)));
    case Order(o) =>
      var fill := FillFor(model, st.ticks, o);
      if fill.Some? && shared {
        assert next == rest + [Fill(fill.value)];
        WeightConcat(rest, [Fill(fill.value)]);
        WeightSingleton(Fill(fill.value));
      } else {
        assert next == rest;
      }
    case _ =>
      assert next == rest;
  }

  /** The three stages of a loop iteration (pop, handle, count) compose to one Step, and
      the rest of the run is the run from there. */
  lemma StepUnfolds(before: SimState, popped: SimState, event: Event, handled: SimState, after: SimState,
                    model: SlippageModel, shared: bool)
    requires before.pending != []
    requires event == before.pending[EarliestIndex(before.pending)]
    requires popped == before.(pending := RemoveAt(before.pending, EarliestIndex(before.pending)))
    requires handled == Dispatch(popped, event, model, shared)
    requires after == handled.(processed := handled.processed + 1)
    ensures after == Step(before, model, shared)
  {
  }

  /** The rest of the run after one step is the run from before it, and the step lowers
      the weight of what is pending. */
  lemma DrainStep(st: SimState, model: SlippageModel, shared: bool)
    requires st.pending != []
    ensures Drain(Step(st, model, shared), model, shared) == Drain(st, model, shared)
    ensures Weight(Step(st, model, shared).pending) < Weight(st.pending)
  {
    StepLowersWeight(st, model, shared);
  }

  /** The whole run: step until nothing is pending. */
  function Drain(st: SimState, model: SlippageModel, shared: bool): SimState
    decreases Weight(st.pending)
  {
    if st.pending == [] then st
    else
      StepLowersWeight(st, model, shared);
      Drain(Step(st, model, shared), model, shared)
  }

  class BacktestEngine {
    const queue: EventQueue
    const execution: ExecutionEngine
    var running: bool
    var eventsProcessed: nat

    ghost function Shared(): bool {
      execution.eventQueue == queue
    }

    ghost function State(): SimState
      reads this, queue, execution, execution.eventQueue
    {
      SimState(queue.items, execution.lastTicks, execution.fillsHistory,
               if Shared() then [] else execution.eventQueue.items, eventsProcessed)
    }

    constructor (queue: EventQueue, execution: ExecutionEngine)
      ensures this.queue == queue && this.execution == execution
      ensures !running && eventsProcessed == 0
    {
      this.queue := queue;
      this.execution := execution;
      running := false;
      eventsProcessed := 0;
    }

    /** Pops and handles events, counting each, until the queue is seen empty. */
    method Run()
      modifies this`running, this`eventsProcessed, queue`items
      modifies execution`lastTicks, execution`fillsHistory, execution.eventQueue`items
      ensures running
      ensures State() == Drain(old(State()), execution.slippageModel, Shared())
      ensures queue.items == []
    {
      running := true;
      while running && !queue.Empty()
        invariant running
        invariant Drain(State(), execution.slippageModel, Shared())
                  == Drain(old(State()), execution.slippageModel, Shared())
        decreases Weight(queue.items)
      {
        ghost var before := State();
        ProcessNext();
        DrainStep(before, execution.slippageModel, Shared());
      }
    }

    /** One iteration of the run loop: pop an earliest event, handle it, count it. */
    method ProcessNext()
      requires queue.items != []
      modifies this`eventsProcessed, queue`items
      modifies execution`lastTicks, execution`fillsHistory, execution.eventQueue`items
      ensures State() == Step(old(State()), execution.slippageModel, Shared())
    {
      ghost var before := State();
      var event := queue.Pop();
      ghost var popped := State();
      HandleEvent(event);
      ghost var handled := State();
      eventsProcessed := eventsProcessed + 1;
      StepUnfolds(before, popped, event, handled, State(), execution.slippageModel, Shared());
    }

    /** Lowers the running flag and stops the queue; pending events stay queued. */
    method Stop()
      modifies this`running, queue`stopped
      ensures !running && queue.stopped
    {
      running := false;
      queue.Stop();
    }

    method PushEvent(event: Event)
      modifies queue`items
      ensures queue.items == old(queue.items) + [event]
    {
      queue.Push(event);
    }

    /** Dispatch by event kind; position and PnL updates have no effect. */
    method HandleEvent(event: Event)
      modifies queue`items, execution`lastTicks, execution`fillsHistory, execution.eventQueue`items
      ensures State() == Dispatch(old(State()), event, execution.slippageModel, Shared())
    {
      match event
      case Tick(t) => HandleTick(t);
      case Signal(s) => HandleSignal(s);
      case Order(o) => HandleOrder(o);
      case Fill(f) => HandleFill(f);
      case PositionUpdate(_) =>
      case PnLUpdate(_) =>
    }

    method HandleTick(tick: TickEvent)
      modifies execution`lastTicks
      ensures execution.lastTicks == old(execution.lastTicks)[tick.symbol := tick]
    {
      execution.OnTick(tick);
    }

    /** Turns the signal into a market order numbered by the processed-event count. */
    method HandleSignal(signal: SignalEvent)
      modifies queue`items
      ensures queue.items == old(queue.items) + [Order(SignalToOrder(signal, eventsProcessed))]
    {
      var order := OrderEvent(eventsProcessed, signal.timestamp, signal.symbol, signal.side,
                              1.0, 0.0, Pending, signal.strategyId);
      queue.Push(Order(order));
    }

    method HandleOrder(order: OrderEvent)
      modifies execution`fillsHistory, execution.eventQueue`items
      ensures execution.fillsHistory == old(execution.fillsHistory)
        + (match FillFor(execution.slippageModel, execution.lastTicks, order)
           case None => [] case Some(f) => [f])
      ensures execution.eventQueue.items == old(execution.eventQueue.items)
        + (match FillFor(execution.slippageModel, execution.lastTicks, order)
           case None => [] case Some(f) => [Fill(f)])
    {
      execution.OnOrder(order);
    }

    /** A fill is only logged; logging is not modelled. */
    method HandleFill(fill: FillEvent)
      ensures unchanged(this, queue, execution, execution.eventQueue)
    {
    }

    method RegisterFillEvent(fill: FillEvent)
      modifies execution`fillsHistory
      ensures execution.fillsHistory == old(execution.fillsHistory) + [fill]
    {
      execution.fillsHistory := execution.fillsHistory + [fill];
    }

    /** The engine's own queue, which the caller can push onto. */
    function GetQueue(): (q: EventQueue)
      ensures q == queue
    {
      queue
    }
  }

  /** A run leaves nothing pending. */
  lemma {:induction false} DrainEmptiesQueue(st: SimState, model: SlippageModel, shared: bool)
    ensures Drain(st, model, shared).pending == []
    decreases Weight(st.pending)
  {
    if st.pending != [] {
      StepLowersWeight(st, model, shared);
      DrainEmptiesQueue(Step(st, model, shared), model, shared);
    }
  }

  /** One step counts exactly one event, keeps the recorded fills as a prefix and
      forgets no cached tick. */
  lemma StepFacts(st: SimState, model: SlippageModel, shared: bool)
    requires st.pending != []
    ensures Step(st, model, shared).processed == st.processed + 1
    ensures st.fills <= Step(st, model, shared).fills
    ensures st.ticks.Keys <= Step(st, model, shared).ticks.Keys
  {
  }

  /** A run counts every event it dequeues, and it dequeues at most the weight of what was
      pending (each signal accounts for itself, its order and at most one fill). */
  lemma {:induction false} DrainCountsBounded(st: SimState, model: SlippageModel, shared: bool)
    ensures st.processed <= Drain(st, model, shared).processed <= st.processed + Weight(st.pending)
    decreases Weight(st.pending)
  {
    if st.pending != [] {
      var next := Step(st, model, shared);
      StepLowersWeight(st, model, shared);
      StepFacts(st, model, shared);
      DrainCountsBounded(next, model, shared);
      assert Drain(st, model, shared) == Drain(next, model, shared);
    }
  }

  /** One step serves an earliest pending event and keeps every other pending event
      pending. */
  lemma StepKeepsPending(st: SimState, model: SlippageModel, shared: bool)
    requires st.pending != []
    ensures multiset(st.pending)
      <= multiset{st.pending[EarliestIndex(st.pending)]} + multiset(Step(st, model, shared).pending)
  {
    var i := EarliestIndex(st.pending);
    var rest := RemoveAt(st.pending, i);
    var next := Step(st, model, shared).pending;
    match st.pending[i]
    case Signal(s) =>
      assert next == rest + [Order(SignalToOrder(s, st.processed))];
    case Order(o) =>
      var fill := FillFor(model, st.ticks, o);
      if fill.Some? && shared {
        assert next == rest + [Fill(fill.value)];
      } else {
        assert next == rest;
      }
    case _ =>
      assert next == rest;
  }

  /** The events a run dequeues, in the order it handles them: every event pending at the
      start is among them, and there are no more than the measure of what was pending. */
  function Served(st: SimState, model: SlippageModel, shared: bool): (served: seq<Event>)
    ensures |served| <= Weight(st.pending)
    ensures multiset(st.pending) <= multiset(served)
    decreases Weight(st.pending)
  {
    if st.pending == [] then []
    else
      StepLowersWeight(st, model, shared);
      StepKeepsPending(st, model, shared);
      [st.pending[EarliestIndex(st.pending)]] + Served(Step(st, model, shared), model, shared)
  }

  /** The counter goes up by exactly the number of events the run dequeues. */
  lemma {:induction false} DrainCountsServed(st: SimState, model: SlippageModel, shared: bool)
    ensures Drain(st, model, shared).processed == st.processed + |Served(st, model, shared)|
    decreases Weight(st.pending)
  {
    if st.pending != [] {
      var next := Step(st, model, shared);
      StepLowersWeight(st, model, shared);
      StepFacts(st, model, shared);
      DrainCountsServed(next, model, shared);
      assert Drain(st, model, shared) == Drain(next, model, shared);
    }
  }

  /** Fills already recorded stay in place, and no cached tick is forgotten. */
  lemma {:induction false} DrainKeepsHistory(st: SimState, model: SlippageModel, shared: bool)
    ensures st.fills <= Drain(st, model, shared).fills
    ensures st.ticks.Keys <= Drain(st, model, shared).ticks.Keys
    decreases Weight(st.pending)
  {
    if st.pending != [] {
      var next := Step(st, model, shared);
      StepLowersWeight(st, model, shared);
      StepFacts(st, model, shared);
      DrainKeepsHistory(next, model, shared);
      assert Drain(st, model, shared) == Drain(next, model, shared);
    }
  }

  const Identity: SlippageModel := (x: SlippageInput) => x.midPrice

  /** tests/test_backtest_execution.py: a tick and then a market buy for the same symbol
      give exactly one fill, at the mid price under a slippage model that returns it. */
  lemma MarketOrderScenario()
    ensures var tick := TickEvent(MakeTimestamp(1000), "ETH", 2000.0, 2002.0, 10.0, 10.0, 2001.0, 1.0);
      var order := OrderEvent(1, MakeTimestamp(2000), "ETH", Buy, 1.0, 0.0, Submitted, "test_strategy");
      var final := Drain(SimState([Tick(tick), Order(order)], map[], [], [], 0), Identity, true);
      && |final.fills| == 1
      && final.fills[0].orderId == 1 && final.fills[0].symbol == "ETH" && final.fills[0].side == Buy
      && final.fills[0].filledQuantity == 1.0 && final.fills[0].fillPrice == 2001.0
      && final.processed == 3 && final.pending == []
  {
    var tick := TickEvent(MakeTimestamp(1000), "ETH", 2000.0, 2002.0, 10.0, 10.0, 2001.0, 1.0);
    var order := OrderEvent(1, MakeTimestamp(2000), "ETH", Buy, 1.0, 0.0, Submitted, "test_strategy");
    var s0 := SimState([Tick(tick), Order(order)], map[], [], [], 0);
    var fill := MakeFill(Identity, order, tick);
    assert EarliestIndex(s0.pending) == 0;
    var s1 := SimState([Order(order)], map["ETH" := tick], [], [], 1);
    assert Step(s0, Identity, true) == s1;
    var s2 := SimState([Fill(fill)], map["ETH" := tick], [fill], [], 2);
    assert Step(s1, Identity, true) == s2;
    var s3 := SimState([], map["ETH" := tick], [fill], [], 3);
    assert Step(s2, Identity, true) == s3;
    assert Drain(s2, Identity, true) == s3;
    assert Drain(s1, Identity, true) == s3;
    assert Drain(s0, Identity, true) == s3;
  }

  /** One signal with a tick already cached for its symbol gives exactly one fill, and the
      counter grows by three: the signal, its order and the fill. */
  lemma SignalScenario(signal: SignalEvent, tick: TickEvent, model: SlippageModel)
    requires tick.symbol == signal.symbol
    ensures var final := Drain(SimState([Signal(signal)], map[tick.symbol := tick], [], [], 0), model, true);
      && final.fills == [MakeFill(model, SignalToOrder(signal, 0), tick)]
      && final.processed == 3 && final.pending == []
  {
    var order := SignalToOrder(signal, 0);
    var ticks := map[tick.symbol := tick];
    var fill := MakeFill(model, order, tick);
    var s0 := SimState([Signal(signal)], ticks, [], [], 0);
    var s1 := SimState([Order(order)], ticks, [], [], 1);
    assert Step(s0, model, true) == s1;
    var s2 := SimState([Fill(fill)], ticks, [fill], [], 2);
    assert Step(s1, model, true) == s2;
    var s3 := SimState([], ticks, [fill], [], 3);
    assert Step(s2, model, true) == s3;
    assert Drain(s2, model, true) == s3;
    assert Drain(s1, model, true) == s3;
    assert Drain(s0, model, true) == s3;
  }
}
