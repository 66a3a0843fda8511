/** Immutable event contracts: lifecycle tables and the validators every event passes at the engine's trust boundary. */
module Contracts {
  import opened Outcomes

  /** Instants are microseconds since some midnight in Asia/Shanghai; days are counted from that midnight. */
  type Instant = int
  type Day = int
  type Id = string

  const MICROS_PER_DAY: int := 86_400_000_000

  function TradingDayOf(t: Instant): Day {
    t / MICROS_PER_DAY
  }

  datatype InstrumentType = Stock | Etf
  datatype Key = Key(instrumentId: Id, instrumentType: InstrumentType)
  datatype Side = Buy | Sell
  datatype SignalDirection = Long | Flat | Short
  datatype OrderType = Market | Limit
  datatype CashDirection = Credit | Debit

  datatype OrderStatus =
    | OrderCreated | Submitted | Accepted | PartiallyFilled | Filled | OrderCanceled | Rejected

  datatype FillStatus =
    | FillCreated | Confirmed | Settled | FillCanceled | Reversed

  function OrderSuccessors(status: OrderStatus): set<OrderStatus> {
    match status
    case OrderCreated => {Submitted, OrderCanceled}
    case Submitted => {Accepted, OrderCanceled, Rejected}
    case Accepted => {PartiallyFilled, Filled, OrderCanceled}
    case PartiallyFilled => {PartiallyFilled, Filled, OrderCanceled}
    case Filled => {}
    case OrderCanceled => {}
    case Rejected => {}
  }

  function FillSuccessors(status: FillStatus): set<FillStatus> {
    match status
    case FillCreated => {Confirmed, FillCanceled}
    case Confirmed => {Settled, Reversed}
    case Settled => {Reversed}
    case FillCanceled => {}
    case Reversed => {}
  }

  predicate OrderTerminal(status: OrderStatus) {
    status == Filled || status == OrderCanceled || status == Rejected
  }

  datatype Header = Header(eventId: Id, runId: Id, sequence: int, time: Instant, day: Day)

  datatype KnownPrice = KnownPrice(price: Option<real>, observedAt: Option<Instant>, availableAt: Option<Instant>)

  datatype TargetEvent = TargetEvent(
    head: Header, key: Key, signalEventId: Id, signalTime: Instant, direction: SignalDirection,
    targetQuantity: Option<real>, targetWeight: Option<real>)

  datatype OrderEvent = OrderEvent(
    head: Header, key: Key, orderId: Id, signalEventId: Id, signalTime: Instant, side: Side,
    orderType: OrderType, quantity: real, limitPrice: Option<real>, status: OrderStatus,
    previous: Option<OrderStatus>, filledQuantity: real, reference: KnownPrice)

  datatype FillEvent = FillEvent(
    head: Header, key: Key, fillId: Id, orderId: Id, signalEventId: Id, signalTime: Instant,
    orderTime: Instant, side: Side, quantity: real, price: real, grossAmount: real,
    observedAt: Instant, availableAt: Instant, status: FillStatus, previous: Option<FillStatus>)

  datatype FeeEvent = FeeEvent(
    head: Header, key: Key, fillId: Id, fillTime: Instant, side: Side, ruleVersion: Id,
    commission: real, stampDuty: real, transferFee: real, otherFee: real, total: real, currency: Id)

  datatype PositionEvent = PositionEvent(
    head: Header, key: Key, sourceEventId: Id, quantity: real, sellableQuantity: real,
    averageCost: real, market: KnownPrice)

  datatype CashEvent = CashEvent(
    head: Header, accountId: Id, sourceEventId: Id, direction: CashDirection, amount: real,
    balanceAfter: real, currency: Id)

  datatype Event =
    | SignalEv(signalHead: Header)
    | TargetEv(target: TargetEvent)
    | OrderEv(order: OrderEvent)
    | FillEv(fill: FillEvent)
    | FeeEv(fee: FeeEvent)
    | PositionEv(position: PositionEvent)
    | CashEv(cash: CashEvent)
  {
    function Head(): Header {
      match this
      case SignalEv(h) => h
      case TargetEv(e) => e.head
      case OrderEv(e) => e.head
      case FillEv(e) => e.head
      case FeeEv(e) => e.head
      case PositionEv(e) => e.head
      case CashEv(e) => e.head
    }
  }

  predicate ValidHeader(h: Header) {
    0 <= h.sequence && h.day == TradingDayOf(h.time)
  }

  /** Price triples are all absent or all present, positive, and known by the decision time. */
  predicate ValidKnownPrice(p: KnownPrice, decision: Instant) {
    || (p.price.None? && p.observedAt.None? && p.availableAt.None?)
    || (p.price.Some? && p.observedAt.Some? && p.availableAt.Some?
        && 0.0 < p.price.value
        && p.observedAt.value <= p.availableAt.value <= decision)
  }

  predicate ValidTarget(e: TargetEvent) {
    && e.signalTime <= e.head.time
    && e.targetQuantity.Some? != e.targetWeight.Some?
    && var magnitude := if e.targetQuantity.Some? then e.targetQuantity.value else e.targetWeight.value;
       0.0 <= magnitude && (e.direction == Flat <==> magnitude == 0.0)
  }

  predicate ValidOrder(e: OrderEvent) {
    && e.signalTime <= e.head.time
    && 0.0 < e.quantity
    && 0.0 <= e.filledQuantity <= e.quantity
    && (e.orderType == Limit ==> e.limitPrice.Some? && 0.0 < e.limitPrice.value)
    && (e.orderType == Market ==> e.limitPrice.None?)
    && ValidOrderStatus(e)
    && ValidKnownPrice(e.reference, e.head.time)
  }

  predicate ValidOrderStatus(e: OrderEvent) {
    && (e.previous.None? ==> e.status == OrderCreated)
    && (e.previous.Some? ==> e.status in OrderSuccessors(e.previous.value))
    && (e.status == PartiallyFilled ==> 0.0 < e.filledQuantity < e.quantity)
    && (e.status == Filled ==> e.filledQuantity == e.quantity)
    && (e.status in {OrderCreated, Submitted, Accepted, Rejected} ==> e.filledQuantity == 0.0)
  }

  predicate ValidFill(e: FillEvent) {
    && e.signalTime <= e.orderTime <= e.head.time
    && 0.0 < e.quantity && 0.0 < e.price && 0.0 < e.grossAmount
    && e.grossAmount == e.quantity * e.price
    && e.orderTime <= e.observedAt <= e.availableAt <= e.head.time
    && (e.previous.None? ==> e.status == FillCreated)
    && (e.previous.Some? ==> e.status in FillSuccessors(e.previous.value))
  }

  predicate ValidFee(e: FeeEvent) {
    && e.fillTime <= e.head.time
    && 0.0 <= e.commission && 0.0 <= e.stampDuty && 0.0 <= e.transferFee && 0.0 <= e.otherFee
    && 0.0 <= e.total
    && e.total == e.commission + e.stampDuty + e.transferFee + e.otherFee
  }

  predicate ValidPosition(e: PositionEvent) {
    && 0.0 <= e.sellableQuantity <= e.quantity
    && 0.0 <= e.averageCost
    && ValidKnownPrice(e.market, e.head.time)
  }

  predicate ValidCash(e: CashEvent) {
    0.0 < e.amount
  }

  predicate ValidEvent(e: Event) {
    && ValidHeader(e.Head())
    && match e
       case SignalEv(_) => true
       case TargetEv(t) => ValidTarget(t)
       case OrderEv(o) => ValidOrder(o)
       case FillEv(f) => ValidFill(f)
       case FeeEv(f) => ValidFee(f)
       case PositionEv(p) => ValidPosition(p)
       case CashEv(c) => ValidCash(c)
  }
}
