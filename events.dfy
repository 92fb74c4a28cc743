/** The closed set of event records that flow through the simulation
    (include/core/events.h), with the timestamp/type accessors and the
    timestamp ordering used by the event queue. */
module Events {

  /** std::chrono::nanoseconds: a count of nanoseconds. */
  datatype Timestamp = Nanoseconds(count: int)

  type OrderId = nat

  datatype EventType = TickType | SignalType | OrderType | FillType | PositionUpdateType | PnLUpdateType

  datatype Side = Buy | Sell

  datatype OrderStatus = Pending | Submitted | Filled | PartiallyFilled | Cancelled | Rejected

  datatype TickEvent = TickEvent(
    timestamp: Timestamp,
    symbol: string,
    bid: real,
    ask: real,
    bidVolume: real,
    askVolume: real,
    last: real,
    lastVolume: real)

  datatype SignalEvent = SignalEvent(
    timestamp: Timestamp,
    symbol: string,
    side: Side,
    strength: real,
    strategyId: string)

  datatype OrderEvent = OrderEvent(
    orderId: OrderId,
    timestamp: Timestamp,
    symbol: string,
    side: Side,
    quantity: real,
    limitPrice: real,
    status: OrderStatus,
    strategyId: string)
  {
    /** A limit price of exactly zero marks a market order. */
    function IsMarketOrder(): (market: bool)
      ensures market <==> limitPrice == 0.0
    {
      limitPrice == 0.0
    }
  }

  datatype FillEvent = FillEvent(
    orderId: OrderId,
    timestamp: Timestamp,
    symbol: string,
    side: Side,
    filledQuantity: real,
    fillPrice: real,
    commission: real,
    slippage: real,
    exchange: string)

  datatype PositionUpdateEvent = PositionUpdateEvent(
    timestamp: Timestamp,
    symbol: string,
    position: real,
    avgEntryPrice: real,
    unrealizedPnl: real,
    realizedPnl: real)

  datatype PnLUpdateEvent = PnLUpdateEvent(
    timestamp: Timestamp,
    totalPnl: real,
    realizedPnl: real,
    unrealizedPnl: real,
    commissionPaid: real,
    totalTrades: nat,
    winningTrades: nat)
  {
    /** Fraction of winning trades; zero when no trade was made. */
    function WinRate(): (rate: real)
      ensures totalTrades == 0 ==> rate == 0.0
      ensures totalTrades > 0 ==> rate * (totalTrades as real) == winningTrades as real
      ensures winningTrades <= totalTrades ==> 0.0 <= rate <= 1.0
    {
      if totalTrades > 0 then (winningTrades as real) / (totalTrades as real) else 0.0
    }
  }

  /** std::variant over the six records. */
  datatype Event =
    | Tick(tick: TickEvent)
    | Signal(signal: SignalEvent)
    | Order(order: OrderEvent)
    | Fill(fill: FillEvent)
    | PositionUpdate(position: PositionUpdateEvent)
    | PnLUpdate(pnl: PnLUpdateEvent)

  /** The value-initialised variant `Event{}`: a TickEvent of zeros and an empty symbol. */
  function DefaultEvent(): (e: Event)
    ensures e.Tick? && e.tick.timestamp.count == 0 && e.tick.symbol == ""
  {
    Tick(TickEvent(Nanoseconds(0), "", 0.0, 0.0, 0.0, 0.0, 0.0, 0.0))
  }

  function GetTimestamp(e: Event): (t: Timestamp)
    ensures e.Tick? ==> t == e.tick.timestamp
    ensures e.Signal? ==> t == e.signal.timestamp
    ensures e.Order? ==> t == e.order.timestamp
    ensures e.Fill? ==> t == e.fill.timestamp
    ensures e.PositionUpdate? ==> t == e.position.timestamp
    ensures e.PnLUpdate? ==> t == e.pnl.timestamp
  {
    match e
    case Tick(x) => x.timestamp
    case Signal(x) => x.timestamp
    case Order(x) => x.timestamp
    case Fill(x) => x.timestamp
    case PositionUpdate(x) => x.timestamp
    case PnLUpdate(x) => x.timestamp
  }

  function GetEventType(e: Event): (t: EventType)
    ensures t == TickType <==> e.Tick?
    ensures t == SignalType <==> e.Signal?
    ensures t == OrderType <==> e.Order?
    ensures t == FillType <==> e.Fill?
    ensures t == PositionUpdateType <==> e.PositionUpdate?
    ensures t == PnLUpdateType <==> e.PnLUpdate?
  {
    match e
    case Tick(_) => TickType
    case Signal(_) => SignalType
    case Order(_) => OrderType
    case Fill(_) => FillType
    case PositionUpdate(_) => PositionUpdateType
    case PnLUpdate(_) => PnLUpdateType
  }

  /** Priority-queue comparator: `a` ranks below `b` when `a` is later, so the top of the
      queue is an earliest event. */
  function EventComparator(a: Event, b: Event): (lower: bool)
    ensures lower <==> GetTimestamp(b).count < GetTimestamp(a).count
  {
    GetTimestamp(a).count > GetTimestamp(b).count
  }

  function MakeTimestamp(nanosSinceEpoch: int): (t: Timestamp)
    ensures t.count == nanosSinceEpoch
  {
    Nanoseconds(nanosSinceEpoch)
  }

  /** The comparator is a strict weak ordering, as std::priority_queue requires:
      irreflexive, transitive, and its incomparability (equal timestamps) is transitive. */
  lemma EventComparatorIsStrictWeakOrder(a: Event, b: Event, c: Event)
    ensures !EventComparator(a, a)
    ensures EventComparator(a, b) && EventComparator(b, c) ==> EventComparator(a, c)
    ensures EventComparator(a, b) ==> !EventComparator(b, a)
    ensures (!EventComparator(a, b) && !EventComparator(b, a) && !EventComparator(b, c) && !EventComparator(c, b))
            ==> (!EventComparator(a, c) && !EventComparator(c, a))
  {
  }

  /** An element that no other element outranks under the comparator is exactly an
      element of least timestamp: the queue's top is an earliest event. */
  lemma TopIsEarliest(top: Event, q: multiset<Event>)
    ensures (forall x | x in q :: !EventComparator(top, x))
            <==> (forall x | x in q :: GetTimestamp(top).count <= GetTimestamp(x).count)
  {
  }
}
