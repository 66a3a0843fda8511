/** The event engine's transition function on values: what one event does to the ledger state, or why it is refused. */
module EngineModel {
  import opened Outcomes
  import opened Sums
  import opened Contracts
  import opened FeeRules

  // Python's date.min and date.max as ordinals: the sentinels used for opening lots.
  const DATE_MIN: Day := 1
  const DATE_MAX: Day := 3_652_059

  datatype InitialPosition = InitialPosition(key: Key, quantity: real, sellableQuantity: real, averageCost: real)

  predicate ValidPositionInput(p: InitialPosition) {
    && 0.0 <= p.sellableQuantity && 0.0 <= p.averageCost
    && (p.quantity < 0.0 ==> p.sellableQuantity == 0.0)
    && (0.0 <= p.quantity ==> p.sellableQuantity <= p.quantity)
    && (p.quantity == 0.0 ==> p.averageCost == 0.0)
  }

  datatype Config = Config(
    runId: Id, accountId: Id, initialCash: real, currency: Id,
    allowNegativeCash: bool, allowShortSales: bool, allowUnsettledSales: bool,
    requireTarget: bool, requireLedgerEvents: bool, positions: seq<InitialPosition>)

  predicate ValidConfig(c: Config) {
    && (c.initialCash < 0.0 ==> c.allowNegativeCash)
    && (forall i :: 0 <= i < |c.positions| ==> ValidPositionInput(c.positions[i]))
    && (forall i :: 0 <= i < |c.positions| && c.positions[i].quantity < 0.0 ==> c.allowShortSales)
    && (forall i, j :: 0 <= i < j < |c.positions| ==> c.positions[i].key != c.positions[j].key)
  }

  /** The injectable MarketRule protocol; `accepts` and `sellableOn` fail where the implementation raises. */
  datatype MarketRule = MarketRule(
    instrumentType: InstrumentType, effectiveFrom: Day,
    accepts: OrderEvent -> bool, sellableOn: Day -> Option<Day>)

  /** The resolver's choice: the first effective rule with the greatest effective date. */
  function SelectRule(rules: seq<MarketRule>, kind: InstrumentType, day: Day): Result<MarketRule> {
    if rules == [] then Err(MarketRuleNotFound)
    else
      var best := SelectRule(rules[..|rules| - 1], kind, day);
      var rule := rules[|rules| - 1];
      if rule.instrumentType == kind && rule.effectiveFrom <= day
         && (best.Err? || best.value.effectiveFrom < rule.effectiveFrom)
      then Ok(rule) else best
  }

  datatype Setup = Setup(config: Config, rules: seq<MarketRule>, feeBook: Option<seq<FeeRule>>)

  predicate ValidSetup(su: Setup) {
    && ValidConfig(su.config)
    && (su.feeBook.Some? ==> ValidBook(su.feeBook.value))
  }

  // ---------------------------------------------------------------- state

  datatype Lot = Lot(quantity: real, sellableOn: Day)
  datatype PositionLedger = PositionLedger(quantity: real, costBasis: real, lots: seq<Lot>)
  datatype OrderRecord = OrderRecord(created: OrderEvent, latest: OrderEvent, confirmedQuantity: real)
  datatype FillRecord = FillRecord(
    created: FillEvent, latest: FillEvent, applied: bool, openedLong: real,
    quantityAfter: Option<real>, costAfter: Option<real>, fee: Option<FeeEvent>)
  datatype ExpectedCash = ExpectedCash(
    sourceTime: Instant, day: Day, direction: CashDirection, amount: real, balanceAfter: real)
  datatype PositionSnapshot = PositionSnapshot(
    key: Key, quantity: real, sellableQuantity: real, averageCost: real)
  datatype ExpectedPosition = ExpectedPosition(sourceTime: Instant, day: Day, snapshot: PositionSnapshot)
  datatype TargetKey = TargetKey(signalEventId: Id, key: Key)

  datatype State = State(
    cash: real,
    positions: map<Key, PositionLedger>,
    targets: map<TargetKey, TargetEvent>,
    orders: map<Id, OrderRecord>,
    fills: map<Id, FillRecord>,
    events: seq<Event>,
    eventIds: set<Id>,
    expectedCash: map<Id, ExpectedCash>,
    expectedPositions: map<Id, ExpectedPosition>,
    lastSequence: int,
    lastTime: Option<Instant>,
    lastDay: Option<Day>)

  const EMPTY_LEDGER := PositionLedger(0.0, 0.0, [])

  function OpeningLots(p: InitialPosition): seq<Lot> {
    if p.quantity <= 0.0 then []
    else
      (if p.sellableQuantity != 0.0 then [Lot(p.sellableQuantity, DATE_MIN)] else [])
      + (if p.quantity - p.sellableQuantity != 0.0 then [Lot(p.quantity - p.sellableQuantity, DATE_MAX)] else [])
  }

  function OpeningLedger(p: InitialPosition): PositionLedger {
    PositionLedger(p.quantity, Times(Abs(p.quantity), p.averageCost), OpeningLots(p))
  }

  function OpeningPositions(ps: seq<InitialPosition>): map<Key, PositionLedger> {
    if ps == [] then map[]
    else
      var last := ps[|ps| - 1];
      OpeningPositions(ps[..|ps| - 1])[last.key := OpeningLedger(last)]
  }

  function InitialState(c: Config): State {
    State(c.initialCash, OpeningPositions(c.positions), map[], map[], map[], [], {}, map[], map[], -1, None, None)
  }

  // ---------------------------------------------------------------- clock and targets

  function ValidateClock(c: Config, s: State, h: Header): Outcome {
    if h.runId != c.runId then Fail(EventOrder)
    else if h.eventId in s.eventIds then Fail(EventOrder)
    else if h.sequence <= s.lastSequence then Fail(EventOrder)
    else if s.lastTime.Some? && h.time < s.lastTime.value then Fail(EventOrder)
    else Pass
  }

  function ApplyTarget(c: Config, s: State, e: TargetEvent): Result<State> {
    if e.direction == Short && !c.allowShortSales then Err(LedgerInvariant) else
    var k := TargetKey(e.signalEventId, e.key);
    :- Need(k !in s.targets, EventLink);
    Ok(s.(targets := s.targets[k := e]))
  }

  // ---------------------------------------------------------------- orders

  datatype OrderInstruction = OrderInstruction(
    key: Key, signalEventId: Id, signalTime: Instant, side: Side, orderType: OrderType,
    quantity: real, limitPrice: Option<real>, reference: KnownPrice)

  function InstructionOf(e: OrderEvent): OrderInstruction {
    OrderInstruction(e.key, e.signalEventId, e.signalTime, e.side, e.orderType, e.quantity, e.limitPrice, e.reference)
  }

  function Held(positions: map<Key, PositionLedger>, k: Key): real {
    if k in positions then positions[k].quantity else 0.0
  }

  function DesiredQuantity(t: TargetEvent): real
    requires t.targetQuantity.Some?
  {
    match t.direction
    case Flat => 0.0
    case Short => -t.targetQuantity.value
    case Long => t.targetQuantity.value
  }

  function ValidateTargetOrder(s: State, t: TargetEvent, e: OrderEvent): Outcome {
    if t.head.time > e.head.time then Fail(EventLink)
    else if t.targetQuantity.None? then Pass
    else
      var delta := DesiredQuantity(t) - Held(s.positions, e.key);
      if delta == 0.0 then Fail(LedgerInvariant)
      else if e.side != (if delta > 0.0 then Buy else Sell) || e.quantity != Abs(delta) then Fail(LedgerInvariant)
      else Pass
  }

  /** An order of the same signal and instrument that is still alive. */
  predicate Overlaps(r: OrderRecord, e: OrderEvent) {
    && r.created.signalEventId == e.signalEventId && r.created.key == e.key
    && !OrderTerminal(r.latest.status)
  }

  ghost predicate HasOverlap(s: State, e: OrderEvent) {
    exists id :: id in s.orders && Overlaps(s.orders[id], e)
  }

  ghost function CreateOrder(su: Setup, s: State, e: OrderEvent): Result<State> {
    if e.previous.Some? || e.status != OrderCreated then Err(EventLink) else
    var k := TargetKey(e.signalEventId, e.key);
    :- Need(k in s.targets || !su.config.requireTarget, EventLink);
    var linked := if k in s.targets then ValidateTargetOrder(s, s.targets[k], e) else Pass;
    :- linked;
    :- Need(k in s.targets ==> !HasOverlap(s, e), LedgerInvariant);
    var rule :- SelectRule(su.rules, e.key.instrumentType, e.head.day);
    :- Need(rule.accepts(e), MarketRuleRejected);
    Ok(s.(orders := s.orders[e.orderId := OrderRecord(e, e, 0.0)]))
  }

  ghost function ApplyOrder(su: Setup, s: State, e: OrderEvent): Result<State> {
    if e.orderId !in s.orders then CreateOrder(su, s, e)
    else
      var r := s.orders[e.orderId];
      :- Need(e.previous == Some(r.latest.status), EventLink);
      :- Need(InstructionOf(e) == InstructionOf(r.created), EventLink);
      :- Need(e.status in {PartiallyFilled, Filled, OrderCanceled} ==>
        e.filledQuantity == r.confirmedQuantity, LedgerInvariant);
      :- Need(e.status == OrderCanceled ==> PendingQuantity(s.fills, e.orderId) == 0.0, LedgerInvariant);
      Ok(s.(orders := s.orders[e.orderId := r.(latest := e)]))
  }

  // ---------------------------------------------------------------- fills

  ghost function ActiveWeight(orderId: Id): FillRecord -> real {
    (r: FillRecord) => if r.created.orderId == orderId && r.latest.status !in {FillCanceled, Reversed}
      then r.created.quantity else 0.0
  }

  ghost function PendingWeight(orderId: Id): FillRecord -> real {
    (r: FillRecord) => if r.created.orderId == orderId && r.latest.status == FillCreated
      then r.created.quantity else 0.0
  }

  ghost function ActiveQuantity(fills: map<Id, FillRecord>, orderId: Id): real {
    Total(fills, ActiveWeight(orderId))
  }

  ghost function PendingQuantity(fills: map<Id, FillRecord>, orderId: Id): real {
    Total(fills, PendingWeight(orderId))
  }

  datatype FillInstruction = FillInstruction(
    key: Key, orderId: Id, signalEventId: Id, signalTime: Instant, orderTime: Instant, side: Side,
    quantity: real, price: real, grossAmount: real, observedAt: Instant, availableAt: Instant)

  function ExecutionOf(e: FillEvent): FillInstruction {
    FillInstruction(e.key, e.orderId, e.signalEventId, e.signalTime, e.orderTime, e.side,
      e.quantity, e.price, e.grossAmount, e.observedAt, e.availableAt)
  }

  predicate OpenForFills(status: OrderStatus) {
    status == Accepted || status == PartiallyFilled
  }

  function ValidateFillOrder(f: FillEvent, o: OrderEvent): Outcome {
    if f.key != o.key || f.signalEventId != o.signalEventId || f.signalTime != o.signalTime
       || f.side != o.side || f.orderTime != o.head.time
    then Fail(EventLink)
    else if o.orderType == Limit && o.limitPrice.Some? && o.side == Buy && f.price > o.limitPrice.value
    then Fail(LedgerInvariant)
    else if o.orderType == Limit && o.limitPrice.Some? && o.side == Sell && f.price < o.limitPrice.value
    then Fail(LedgerInvariant)
    else Pass
  }

  ghost function CreateFill(s: State, e: FillEvent): Result<State> {
    if e.previous.Some? || e.status != FillCreated then Err(EventLink) else
    :- Need(e.orderId in s.orders, EventLink);
    var order := s.orders[e.orderId];
    :- Need(OpenForFills(order.latest.status), LedgerInvariant);
    :- ValidateFillOrder(e, order.created);
    :- Need(ActiveQuantity(s.fills, e.orderId) + e.quantity <= order.created.quantity, LedgerInvariant);
    Ok(s.(fills := s.fills[e.fillId := FillRecord(e, e, false, 0.0, None, None, None)]))
  }

  /** An economically applied fill that has not been charged its fee. */
  predicate Uncharged(r: FillRecord) {
    r.applied && r.fee.None?
  }

  ghost predicate HasUncharged(fills: map<Id, FillRecord>) {
    exists id :: id in fills && Uncharged(fills[id])
  }

  ghost function ConfirmFill(su: Setup, s: State, r: FillRecord, e: FillEvent): Result<State>
    requires e.fillId in s.fills
  {
    if r.applied then Err(LedgerInvariant) else
    :- Need(e.orderId in s.orders, EventLink);
    var order := s.orders[e.orderId];
    :- Need(OpenForFills(order.latest.status), LedgerInvariant);
    :- Need(order.confirmedQuantity + e.quantity <= order.created.quantity, LedgerInvariant);
    :- Need(su.feeBook.Some? ==> !HasUncharged(s.fills), LedgerInvariant);
    var traded :- ApplyTrade(su, s, r.created, e);
    var t := traded.state;
    var ledger := LedgerAt(t, e.key);
    Ok(t.(
      fills := t.fills[e.fillId := r.(applied := true, openedLong := traded.openedLong,
        quantityAfter := Some(ledger.quantity), costAfter := Some(ledger.costBasis), latest := e)],
      orders := t.orders[e.orderId := order.(confirmedQuantity := order.confirmedQuantity + e.quantity)]))
  }

  ghost function ApplyFill(su: Setup, s: State, e: FillEvent): Result<State> {
    if e.fillId !in s.fills then CreateFill(s, e)
    else
      var r := s.fills[e.fillId];
      :- Need(e.previous == Some(r.latest.status), EventLink);
      :- Need(ExecutionOf(e) == ExecutionOf(r.created), EventLink);
      if e.status == Confirmed then ConfirmFill(su, s, r, e)
      else if e.status == Reversed then Err(LedgerInvariant)
      else Ok(s.(fills := s.fills[e.fillId := r.(latest := e)]))
  }

  // ---------------------------------------------------------------- trades

  datatype Traded = Traded(state: State, openedLong: real)
  datatype Bought = Bought(ledger: PositionLedger, openedLong: real)

  /** Exact where the code computes with fifty significant digits; no caller passes a zero denominator. */
  function ProRata(value: real, numerator: real, denominator: real): real {
    if denominator == 0.0 then 0.0 else value * numerator / denominator
  }

  function LotTotal(lots: seq<Lot>): real {
    if lots == [] then 0.0 else lots[0].quantity + LotTotal(lots[1..])
  }

  /** The lot quantity sellable on a day. */
  function SellableTotal(lots: seq<Lot>, day: Day): real {
    if lots == [] then 0.0
    else (if lots[0].sellableOn <= day then lots[0].quantity else 0.0) + SellableTotal(lots[1..], day)
  }

  function SellableQuantity(ledger: PositionLedger, day: Day): real {
    if ledger.quantity <= 0.0 then 0.0 else SellableTotal(ledger.lots, day)
  }

  function SnapshotOf(k: Key, ledger: PositionLedger, day: Day): PositionSnapshot {
    PositionSnapshot(k, ledger.quantity, SellableQuantity(ledger, day),
      if ledger.quantity != 0.0 then ProRata(ledger.costBasis, 1.0, Abs(ledger.quantity)) else 0.0)
  }

  function MoveCash(c: Config, s: State, delta: real, source: Header): Result<State> {
    var balance := s.cash + delta;
    :- Need(0.0 <= balance || c.allowNegativeCash, LedgerInvariant);
    if delta == 0.0 then Ok(s.(cash := balance))
    else
      :- Need(source.eventId !in s.expectedCash, LedgerInvariant);
      Ok(s.(cash := balance, expectedCash := s.expectedCash[source.eventId :=
        ExpectedCash(source.time, source.day, if delta > 0.0 then Credit else Debit, Abs(delta), balance)]))
  }

  function ExpectPosition(s: State, source: Header, k: Key, ledger: PositionLedger): Result<State> {
    if source.eventId in s.expectedPositions then Err(LedgerInvariant) else
    Ok(s.(expectedPositions := s.expectedPositions[source.eventId :=
      ExpectedPosition(source.time, source.day, SnapshotOf(k, ledger, source.day))]))
  }

  function CashDelta(f: FillEvent): real {
    if f.side == Sell then f.grossAmount else -f.grossAmount
  }

  function LedgerAt(s: State, k: Key): PositionLedger {
    if k in s.positions then s.positions[k] else EMPTY_LEDGER
  }

  ghost function ApplyTrade(su: Setup, s: State, f: FillEvent, source: FillEvent): Result<Traded>
  {
    var moved :- MoveCash(su.config, s, CashDelta(f), source.head);
    var bought :- Trade(su, LedgerAt(s, f.key), f);
    var t :- ExpectPosition(moved.(positions := moved.positions[f.key := bought.ledger]), source.head, f.key,
      bought.ledger);
    Ok(Traded(t, bought.openedLong))
  }

  ghost function Trade(su: Setup, ledger: PositionLedger, f: FillEvent): Result<Bought> {
    if f.side == Buy then ApplyBuy(su, ledger, f)
    else
      var after :- ApplySell(su.config, ledger, f);
      Ok(Bought(after, 0.0))
  }

  /** The part of a purchase that covers a short position. */
  function CoverShort(ledger: PositionLedger, quantity: real): PositionLedger {
    if 0.0 <= ledger.quantity then ledger
    else
      var covered := Min(quantity, -ledger.quantity);
      var remaining := -ledger.quantity - covered;
      ledger.(quantity := ledger.quantity + covered,
        costBasis := if remaining != 0.0 then ProRata(ledger.costBasis, remaining, -ledger.quantity) else 0.0)
  }

  function Uncovered(ledger: PositionLedger, quantity: real): real {
    if 0.0 <= ledger.quantity then quantity else quantity - Min(quantity, -ledger.quantity)
  }

  function ApplyBuy(su: Setup, ledger: PositionLedger, f: FillEvent): Result<Bought> {
    var rest := Uncovered(ledger, f.quantity);
    var covered := CoverShort(ledger, f.quantity);
    if rest == 0.0 then Ok(Bought(covered, 0.0))
    else if covered.quantity < 0.0 then Ok(Bought(covered, 0.0))
    else
      var rule :- SelectRule(su.rules, f.key.instrumentType, f.head.day);
      var sellable := rule.sellableOn(f.head.day);
      :- Need(sellable.Some?, MarketRuleRejected);
      :- Need(f.head.day <= sellable.value, LedgerInvariant);
      Ok(Bought(PositionLedger(covered.quantity + rest, covered.costBasis + Times(rest, f.price),
        covered.lots + [Lot(rest, sellable.value)]), rest))
  }

  datatype Drained = Drained(lots: seq<Lot>, remaining: real)

  /** One pass over the lots: take from those that are (or are not) sellable on the day, in order. */
  function Drain(lots: seq<Lot>, amount: real, day: Day, eligible: bool): (d: Drained)
    ensures |d.lots| == |lots|
  {
    if lots == [] || amount == 0.0 then Drained(lots, amount)
    else if (lots[0].sellableOn <= day) == eligible then
      var consumed := Min(lots[0].quantity, amount);
      var rest := Drain(lots[1..], amount - consumed, day, eligible);
      Drained([lots[0].(quantity := lots[0].quantity - consumed)] + rest.lots, rest.remaining)
    else
      var rest := Drain(lots[1..], amount, day, eligible);
      Drained([lots[0]] + rest.lots, rest.remaining)
  }

  function NonEmpty(lots: seq<Lot>): seq<Lot> {
    if lots == [] then []
    else (if lots[0].quantity != 0.0 then [lots[0]] else []) + NonEmpty(lots[1..])
  }

  /** Sellable lots first; the others only when unsettled sales are allowed. */
  function DrainAll(lots: seq<Lot>, amount: real, day: Day, allowUnsettled: bool): Drained {
    var first := Drain(lots, amount, day, true);
    if allowUnsettled then Drain(first.lots, first.remaining, day, false) else first
  }

  function ConsumeLots(lots: seq<Lot>, amount: real, day: Day, allowUnsettled: bool): Result<seq<Lot>> {
    var d := DrainAll(lots, amount, day, allowUnsettled);
    :- Need(d.remaining == 0.0, LedgerInvariant);
    Ok(NonEmpty(d.lots))
  }

  /** Sell out of the long position. */
  function CloseLong(c: Config, ledger: PositionLedger, closing: real, day: Day): Result<PositionLedger>
  {
    if closing == 0.0 then Ok(ledger)
    else
      var lots :- ConsumeLots(ledger.lots, closing, day, c.allowUnsettledSales);
      var remaining := Max(ledger.quantity, 0.0) - closing;
      Ok(PositionLedger(ledger.quantity - closing,
        if remaining != 0.0 then ProRata(ledger.costBasis, remaining, Max(ledger.quantity, 0.0)) else 0.0, lots))
  }

  function ApplySell(c: Config, ledger: PositionLedger, f: FillEvent): Result<PositionLedger> {
    var long := Max(ledger.quantity, 0.0);
    var closing := Min(f.quantity, long);
    :- Need(closing <= SellableQuantity(ledger, f.head.day) || c.allowUnsettledSales, LedgerInvariant);
    var excess := f.quantity - long;
    :- Need(excess <= 0.0 || c.allowShortSales, LedgerInvariant);
    var closed :- CloseLong(c, ledger, closing, f.head.day);
    if excess > 0.0
    then Ok(PositionLedger(closed.quantity - excess, closed.costBasis + Times(excess, f.price), []))
    else Ok(closed)
  }

  // ---------------------------------------------------------------- fees

  function FeeParts(e: FeeEvent): FeeBreakdown {
    FeeBreakdown(e.commission, e.stampDuty, e.transferFee, e.otherFee, e.total)
  }

  function CheckFeeRule(book: seq<FeeRule>, e: FeeEvent, created: FillEvent): Outcome
    requires ValidBook(book)
  {
    var rule := Select(book, e.key.instrumentType, e.side, created.head.day, Some(e.ruleVersion));
    SelectLatest(book, e.key.instrumentType, e.side, created.head.day, Some(e.ruleVersion));
    if rule.None? then Fail(FeeRuleNotFound)
    else
      var expected := rule.value.Assess(created.grossAmount);
      if expected.Err? then Fail(expected.error)
      else if FeeParts(e) != expected.value then Fail(LedgerInvariant)
      else Pass
  }

  function ChargeFee(c: Config, s: State, e: FeeEvent): Result<State> {
    if e.total != 0.0 then MoveCash(c, s, -e.total, e.head) else Ok(s)
  }

  /** Fold a purchase fee into the cost basis, unless another fill has moved the position since. */
  function AllocateFee(s: State, r: FillRecord, e: FeeEvent): Result<State> {
    if !(e.side == Buy && r.openedLong != 0.0 && e.total != 0.0) then Ok(s)
    else
      var ledger := LedgerAt(s, e.key);
      :- Need(Some(ledger.quantity) == r.quantityAfter && Some(ledger.costBasis) == r.costAfter, LedgerInvariant);
      var charged := ledger.(costBasis := ledger.costBasis + ProRata(e.total, r.openedLong, r.created.quantity));
      ExpectPosition(s.(positions := s.positions[e.key := charged]), e.head, e.key, charged)
  }

  function ApplyFee(su: Setup, s: State, e: FeeEvent): Result<State>
    requires ValidSetup(su)
  {
    if e.fillId !in s.fills then Err(EventLink) else
    var r := s.fills[e.fillId];
    :- Need(r.applied && r.latest.status in {Confirmed, Settled}, LedgerInvariant);
    :- Need(r.fee.None?, LedgerInvariant);
    :- Need(e.key == r.created.key && e.side == r.created.side && e.fillTime == r.created.head.time, EventLink);
    :- Need(e.head.day == r.created.head.day, EventLink);
    :- Need(e.currency == su.config.currency, LedgerInvariant);
    var priced := if su.feeBook.Some? then CheckFeeRule(su.feeBook.value, e, r.created) else Pass;
    :- priced;
    var t :- ChargeFee(su.config, s, e);
    AllocateFee(t.(fills := t.fills[e.fillId := r.(fee := Some(e))]), r, e)
  }

  // ---------------------------------------------------------------- attestations

  function AttestCash(c: Config, s: State, e: CashEvent): Result<State> {
    if e.sourceEventId !in s.expectedCash then Err(EventLink) else
    var x := s.expectedCash[e.sourceEventId];
    :- Need(e.accountId == c.accountId && e.currency == c.currency, LedgerInvariant);
    :- Need(x.sourceTime <= e.head.time && e.head.day == x.day, EventLink);
    :- Need(e.direction == x.direction && e.amount == x.amount && e.balanceAfter == x.balanceAfter
      && e.balanceAfter == s.cash, LedgerInvariant);
    Ok(s.(expectedCash := s.expectedCash - {e.sourceEventId}))
  }

  function AttestPosition(s: State, e: PositionEvent): Result<State> {
    if e.sourceEventId !in s.expectedPositions then Err(EventLink) else
    var x := s.expectedPositions[e.sourceEventId];
    :- Need(x.sourceTime <= e.head.time && e.head.day == x.day, EventLink);
    var actual := PositionSnapshot(e.key, e.quantity, e.sellableQuantity, e.averageCost);
    :- Need(actual == x.snapshot && actual == SnapshotOf(e.key, LedgerAt(s, e.key), e.head.day), LedgerInvariant);
    Ok(s.(expectedPositions := s.expectedPositions - {e.sourceEventId}))
  }

  // ---------------------------------------------------------------- one event, and runs

  ghost function Dispatch(su: Setup, s: State, e: Event): Result<State>
    requires ValidSetup(su)
  {
    match e
    case TargetEv(t) => ApplyTarget(su.config, s, t)
    case OrderEv(o) => ApplyOrder(su, s, o)
    case FillEv(f) => ApplyFill(su, s, f)
    case FeeEv(f) => ApplyFee(su, s, f)
    case CashEv(x) => AttestCash(su.config, s, x)
    case PositionEv(p) => AttestPosition(s, p)
    case SignalEv(_) => Err(Unsupported)
  }

  function Commit(s: State, e: Event): State {
    s.(eventIds := s.eventIds + {e.Head().eventId}, events := s.events + [e],
       lastSequence := e.Head().sequence, lastTime := Some(e.Head().time), lastDay := Some(e.Head().day))
  }

  ghost function ApplyEvent(su: Setup, s: State, e: Event): Result<State>
    requires ValidSetup(su)
  {
    if !ValidEvent(e) then Err(InvalidEvent) else
    :- ValidateClock(su.config, s, e.Head());
    var t :- Dispatch(su, s, e);
    Ok(Commit(t, e))
  }

  ghost function ApplyAll(su: Setup, s: State, es: seq<Event>): Result<State>
    requires ValidSetup(su)
    decreases |es|
  {
    if es == [] then Ok(s)
    else
      var t :- ApplyEvent(su, s, es[0]);
      ApplyAll(su, t, es[1..])
  }

  /** `_ensure_complete`: outstanding attestations, and applied fills still without a fee. */
  ghost function EnsureComplete(su: Setup, s: State, required: Option<bool>): Outcome {
    if (if required.None? then su.config.requireLedgerEvents else required.value)
       && (s.expectedCash != map[] || s.expectedPositions != map[])
    then Fail(LedgerInvariant)
    else if su.feeBook.Some? && required != Some(false) && HasUncharged(s.fills)
    then Fail(LedgerInvariant)
    else Pass
  }
}
