/** The simulated execution engine (include/backtest/execution_engine.h): a per-symbol
    cache of the last tick, and the conversion of an order into a fill priced by an
    injected slippage model, clamped to the limit price, charged a flat 5 bps. */
module Execution {
  import opened Wrappers
  import opened Events
  import opened EventQueues

  datatype SlippageInput = SlippageInput(
    midPrice: real,
    orderQty: real,
    availableLiquidity: real,
    side: Side)

  /** The host-supplied slippage function. */
  type SlippageModel = SlippageInput -> real

  /** 5 basis points. */
  const FeeRate: real := 0.0005

  const SimulatedExchange: string := "SIMULATED"

  function MidPrice(tick: TickEvent): (mid: real)
    ensures mid - tick.bid == tick.ask - mid
    ensures Min(tick.bid, tick.ask) <= mid <= Max(tick.bid, tick.ask)
  {
    (tick.bid + tick.ask) * 0.5
  }

  /** What the slippage model is asked: the mid price, the order size, the liquidity
      on both sides of the book and the order's side. */
  function SlippageRequest(order: OrderEvent, tick: TickEvent): (input: SlippageInput)
    ensures input.midPrice == MidPrice(tick)
    ensures input.orderQty == order.quantity
    ensures input.availableLiquidity == tick.bidVolume + tick.askVolume
    ensures input.side == order.side
  {
    SlippageInput(MidPrice(tick), order.quantity, tick.bidVolume + tick.askVolume, order.side)
  }

  /** The model's price, except that a limit buy never pays more than its limit and a
      limit sell never receives less than its limit. */
  function ComputeExecutionPrice(model: SlippageModel, order: OrderEvent, tick: TickEvent): (price: real)
    ensures var slipped := model(SlippageRequest(order, tick));
      && (order.IsMarketOrder() ==> price == slipped)
      && (!order.IsMarketOrder() && order.side == Buy ==> price == Min(slipped, order.limitPrice))
      && (!order.IsMarketOrder() && order.side == Sell ==> price == Max(slipped, order.limitPrice))
    ensures !order.IsMarketOrder() && order.side == Buy ==> price <= order.limitPrice
    ensures !order.IsMarketOrder() && order.side == Sell ==> price >= order.limitPrice
  {
    var slipped := model(SlippageRequest(order, tick));
    if !order.IsMarketOrder() && order.side == Buy && slipped > order.limitPrice then
      order.limitPrice
    else if !order.IsMarketOrder() && order.side == Sell && slipped < order.limitPrice then
      order.limitPrice
    else
      slipped
  }

  /** Commission of quantity times price at the flat fee rate (one part in 2000). */
  function ComputeCommission(qty: real, price: real): (commission: real)
    ensures commission * 2000.0 == qty * price
    ensures qty >= 0.0 && price >= 0.0 ==> commission >= 0.0
  {
    qty * price * FeeRate
  }

  /** The fill an order receives against a cached tick. */
  function MakeFill(model: SlippageModel, order: OrderEvent, tick: TickEvent): (fill: FillEvent)
    ensures fill.orderId == order.orderId && fill.symbol == order.symbol && fill.side == order.side
    ensures fill.filledQuantity == order.quantity
    ensures fill.timestamp == tick.timestamp && fill.exchange == SimulatedExchange
    ensures fill.fillPrice == ComputeExecutionPrice(model, order, tick)
    ensures fill.slippage == fill.fillPrice - MidPrice(tick)
    ensures fill.commission * 2000.0 == order.quantity * fill.fillPrice
  {
    var price := ComputeExecutionPrice(model, order, tick);
    FillEvent(
      order.orderId, tick.timestamp, order.symbol, order.side, order.quantity,
      price, ComputeCommission(order.quantity, price), price - MidPrice(tick), SimulatedExchange)
  }

  /** The fill produced for `order` given the tick cache, if any: none for a symbol
      that has not ticked yet. */
  function FillFor(model: SlippageModel, ticks: map<string, TickEvent>, order: OrderEvent): (r: Option<FillEvent>)
    ensures r.None? <==> order.symbol !in ticks
    ensures r.Some? ==> r.value == MakeFill(model, order, ticks[order.symbol])
  {
    if order.symbol in ticks then Some(MakeFill(model, order, ticks[order.symbol])) else None
  }

  class ExecutionEngine {
    const eventQueue: EventQueue
    const slippageModel: SlippageModel
    var lastTicks: map<string, TickEvent>
    var fillsHistory: seq<FillEvent>

    constructor (eventQueue: EventQueue, slippageModel: SlippageModel)
      ensures this.eventQueue == eventQueue && this.slippageModel == slippageModel
      ensures lastTicks == map[] && fillsHistory == []
    {
      this.eventQueue := eventQueue;
      this.slippageModel := slippageModel;
      lastTicks := map[];
      fillsHistory := [];
    }

    /** Overwrites the cached tick of the tick's symbol only. */
    method OnTick(tick: TickEvent)
      modifies this`lastTicks
      ensures lastTicks == old(lastTicks)[tick.symbol := tick]
    {
      lastTicks := lastTicks[tick.symbol := tick];
    }

    /** Fills the order against the cached tick, recording the fill and pushing it back
        onto the queue; an order for a symbol with no tick is dropped. */
    method OnOrder(order: OrderEvent)
      modifies this`fillsHistory, eventQueue`items
      ensures order.symbol !in lastTicks ==>
        fillsHistory == old(fillsHistory) && eventQueue.items == old(eventQueue.items)
      ensures order.symbol in lastTicks ==>
        var fill := MakeFill(slippageModel, order, lastTicks[order.symbol]);
        fillsHistory == old(fillsHistory) + [fill] && eventQueue.items == old(eventQueue.items) + [Fill(fill)]
    {
      if order.symbol !in lastTicks {
        return;
      }
      var tick := lastTicks[order.symbol];
      var fill := MakeFill(slippageModel, order, tick);
      fillsHistory := fillsHistory + [fill];
      eventQueue.Push(Fill(fill));
    }

    /** Every fill produced so far, oldest first. */
    function GetFillsHistory(): (history: seq<FillEvent>)
      reads this
      ensures history == fillsHistory
    {
      fillsHistory
    }
  }

  /** A limit buy whose model price exceeds the limit fills exactly at the limit, and a
      limit sell whose model price is under the limit fills exactly at the limit. */
  lemma {:induction false} LimitPriceClamps(model: SlippageModel, order: OrderEvent, tick: TickEvent)
    requires !order.IsMarketOrder()
    ensures order.side == Buy && model(SlippageRequest(order, tick)) > order.limitPrice
            ==> ComputeExecutionPrice(model, order, tick) == order.limitPrice
    ensures order.side == Sell && model(SlippageRequest(order, tick)) < order.limitPrice
            ==> ComputeExecutionPrice(model, order, tick) == order.limitPrice
  {
  }

  /** tests/test_slippage.py: a model adding 5 to a buy's mid price of 100 fills a
      market buy of 10 at 105 with slippage 5 and commission 0.525. */
  lemma AggressiveSlippageExample()
    ensures var model := (x: SlippageInput) => if x.side == Buy then x.midPrice + 5.0 else x.midPrice - 5.0;
      var tick := TickEvent(MakeTimestamp(1), "SOL", 99.0, 101.0, 100.0, 100.0, 100.0, 1.0);
      var order := OrderEvent(99, MakeTimestamp(2), "SOL", Buy, 10.0, 0.0, Submitted, "slip_test");
      var fill := MakeFill(model, order, tick);
      fill.fillPrice == 105.0 && fill.slippage == 5.0 && fill.commission == 0.525 && fill.timestamp == MakeTimestamp(1)
  {
  }
}
