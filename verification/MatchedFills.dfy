/** From the matcher to the ledger: the fill that a match describes is one the engine accepts. */
module MatchedFills {
  import opened Outcomes
  import opened TickMath
  import opened Sums
  import opened Contracts
  import opened EngineModel
  import opened CNMarket
  import Matching
  import opened Bookkeeping
  import opened Attestation
  import opened EngineRuns
  import opened Steps
  import opened TargetOrders

  // ---------------------------------------------------------------- orders are dated

  /** No order is later than the engine. */
  ghost predicate OrdersDated(s: State) {
    && -1 <= s.lastSequence
    && forall id :: id in s.orders ==> s.lastTime.Some? && s.orders[id].created.head.time <= s.lastTime.value
  }

  lemma OrdersStayDated(su: Setup, s: State, e: Event, t: State)
    requires OrdersDated(s) && OrdersMove(su, s, e, t) && ClockMove(s, e, t)
    ensures OrdersDated(t)
  {
    hide Admitted, TradingDayOf;
  }

  lemma {:induction false} RunKeepsOrdersDated(su: Setup, s: State, es: seq<Event>, t: State)
    requires ValidSetup(su) && Inv(su, s) && OrdersDated(s) && ApplyAll(su, s, es) == Ok(t)
    ensures OrdersDated(t)
    decreases |es|
  {
    hide Inv, ApplyEvent, ValidSetup, OrdersDated, OrdersMove, FillsMove, PositionsMove, CashMove, ClockMove;
    if es != [] {
      var u := ApplyEvent(su, s, es[0]).value;
      StepKeepsInv(su, s, es[0], u);
      InvBooks(su, s);
      StepAdmitted(su, s, es[0], u);
      StepIsMove(su, s, es[0], u);
      OrdersStayDated(su, s, es[0], u);
      RunKeepsOrdersDated(su, u, es[1..], t);
    }
  }

  lemma RunOrdersDated(su: Setup, es: seq<Event>, s: State)
    requires ValidSetup(su) && Run(su, es, s)
    ensures OrdersDated(s) && Inv(su, s)
  {
    hide Inv, ApplyAll, ValidSetup;
    InitialInv(su);
    RunInv(su, es, s);
    RunKeepsOrdersDated(su, InitialState(su.config), es, s);
  }

  // ---------------------------------------------------------------- the fill of a match

  /** The instruction put to the matcher: the order as created, at a later time, with what is already filled of it. */
  function Instruction(o: OrderEvent, h: Header, filled: real): OrderEvent {
    o.(head := h, filledQuantity := filled)
  }

  /** The fill event an executed match describes, observed when it is recorded. */
  function FillOfMatch(o: OrderEvent, h: Header, fillId: Id, m: Match): FillEvent
    requires m.price.Some?
  {
    FillEvent(h, o.key, fillId, o.orderId, o.signalEventId, o.signalTime, o.head.time, o.side, m.filled, m.price.value,
      m.gross, h.time, h.time, FillCreated, None)
  }

  /** What an executed match says about its instruction. */
  lemma MatchFits(rule: CNMarketRule, o: OrderEvent, model: Slippage, allowPartial: bool, liquidation: Option<bool>)
    requires rule.Valid() && MatchOrder(rule, o, model, allowPartial, liquidation).Ok?
    requires MatchOrder(rule, o, model, allowPartial, liquidation).value.status != NoFill
    ensures var m := MatchOrder(rule, o, model, allowPartial, liquidation).value;
      && m.price.Some? && 0.0 < m.filled <= o.quantity - o.filledQuantity && m.gross == Times(m.filled, m.price.value)
      && Marketable(o, m.price.value)
  {
    hide ValidateOrder, FillQuantity, Capacity, Times, RawPrice, CNMarketRule.Valid, ExecutionPrice;
  }

  lemma ClampedPositive(price: real, s: SessionState)
    requires 0.0 < price && ValidSession(s)
    ensures 0.0 < Clamp(price, s)
  {
  }

  lemma PricePositive(rule: CNMarketRule, o: OrderEvent, model: Slippage, allowPartial: bool, liquidation: Option<bool>)
    requires rule.Valid() && MatchOrder(rule, o, model, allowPartial, liquidation).Ok?
    requires MatchOrder(rule, o, model, allowPartial, liquidation).value.status != NoFill
    ensures MatchOrder(rule, o, model, allowPartial, liquidation).value.price.Some?
    ensures 0.0 < MatchOrder(rule, o, model, allowPartial, liquidation).value.price.value
  {
    var s := ValidateOrder(rule, o, liquidation).value;
    StateForMeaning(rule, o.key.instrumentId, o.head.day, o.head.time);
    Matching.SessionOfRule(rule, s);
    hide ValidateOrder, FillQuantity, CNMarketRule.Valid, RawPrice, FloorToUnit, CeilToUnit, Times, ValidSession,
      Clamp, Marketable;
    var executed :=
      ExecutionPrice(model, o.side, s.reference, FillQuantity(rule, o, s, liquidation) / s.available, rule.tick);
    ClampedPositive(executed.value, s);
  }

  lemma OrderTimes(o: OrderEvent)
    requires ValidOrder(o)
    ensures o.signalTime <= o.head.time && (o.limitPrice.Some? ==> o.orderType == Limit)
  {
  }

  lemma GrossIsProduct(quantity: real, price: real)
    requires 0.0 < quantity && 0.0 < price
    ensures 0.0 < Times(quantity, price) && Times(quantity, price) == quantity * price
  {
  }

  lemma MatchIsFill(o: OrderEvent, h: Header, fillId: Id, m: Match)
    requires o.signalTime <= o.head.time <= h.time && ValidHeader(h)
    requires m.price.Some? && 0.0 < m.filled && 0.0 < m.price.value && m.gross == Times(m.filled, m.price.value)
    ensures ValidEvent(FillEv(FillOfMatch(o, h, fillId, m)))
  {
    GrossIsProduct(m.filled, m.price.value);
    hide Times;
  }

  lemma MatchKeepsLimit(o: OrderEvent, h: Header, fillId: Id, m: Match)
    requires m.price.Some? && Marketable(o, m.price.value)
    ensures ValidateFillOrder(FillOfMatch(o, h, fillId, m), o) == Pass
  {
  }

  lemma OrderOfBooks(su: Setup, s: State, id: Id)
    requires ValidSetup(su) && Inv(su, s) && id in s.orders
    ensures s.orders[id].created.orderId == id && ValidOrder(s.orders[id].created)
  {
    hide LedgersOk, QuantitiesOk, CashOk, FillsOk, FeesOk, AttestOk, ReplayOk, ValidOrder, ValidSetup;
    assert OrderOk(s.fills, id, s.orders[id]);
  }

  lemma CreatesFill(su: Setup, s: State, e: FillEvent)
    requires ValidSetup(su) && ValidEvent(FillEv(e)) && ValidateClock(su.config, s, e.head) == Pass
    requires e.fillId !in s.fills && e.previous.None? && e.status == FillCreated
    requires e.orderId in s.orders && OpenForFills(s.orders[e.orderId].latest.status)
    requires ValidateFillOrder(e, s.orders[e.orderId].created) == Pass
    ensures ApplyEvent(su, s, FillEv(e)).Ok? <==>
      ActiveQuantity(s.fills, e.orderId) + e.quantity <= s.orders[e.orderId].created.quantity
  {
    hide ValidSetup, ValidEvent, ValidateClock, ValidateFillOrder, ConfirmFill;
    var r := ApplyFill(su, s, e);
    assert Dispatch(su, s, FillEv(e)) == r;
    hide ApplyFill;
  }

  /**
   * In every reachable state the fill an executed match of an open order describes is accepted exactly when it fits
   * what active fills leave of the order, whatever the matcher was told is filled. It always fits when the matcher was
   * told of every active fill; with nothing pending that is the confirmed quantity.
   */
  lemma MatchedFillAccepted(su: Setup, es: seq<Event>, s: State, id: Id, h: Header, fillId: Id, told: real,
      rule: CNMarketRule, model: Slippage, allowPartial: bool, liquidation: Option<bool>)
    requires ValidSetup(su) && Run(su, es, s) && id in s.orders && OpenForFills(s.orders[id].latest.status)
    requires fillId !in s.fills
    requires ValidHeader(h) && ValidateClock(su.config, s, h) == Pass && rule.Valid()
    requires var r := MatchOrder(rule, Instruction(s.orders[id].created, h, told), model, allowPartial, liquidation);
      r.Ok? && r.value.status != NoFill
    ensures var o := s.orders[id].created;
      var m := MatchOrder(rule, Instruction(o, h, told), model, allowPartial, liquidation).value;
      && m.price.Some?
      && (ApplyEvent(su, s, FillEv(FillOfMatch(o, h, fillId, m))).Ok? <==>
        ActiveQuantity(s.fills, id) + m.filled <= o.quantity)
      && (ActiveQuantity(s.fills, id) <= told ==> ApplyEvent(su, s, FillEv(FillOfMatch(o, h, fillId, m))).Ok?)
    ensures PendingQuantity(s.fills, id) == 0.0 ==> ActiveQuantity(s.fills, id) == s.orders[id].confirmedQuantity
  {
    hide Run, Inv, ValidSetup, ValidOrder, MatchOrder, CNMarketRule.Valid, ApplyEvent, ValidEvent, ValidateFillOrder,
      ActiveQuantity, PendingQuantity, ValidHeader, Marketable;
    RunOrdersDated(su, es, s);
    OrderOfBooks(su, s, id);
    OrderFillBookkeeping(su, es, s, id);
    var o := s.orders[id].created;
    OrderTimes(o);
    var instruction := Instruction(o, h, told);
    var m := MatchOrder(rule, instruction, model, allowPartial, liquidation).value;
    MatchFits(rule, instruction, model, allowPartial, liquidation);
    PricePositive(rule, instruction, model, allowPartial, liquidation);
    SameLimit(o, h, told, m.price.value);
    MatchIsFill(o, h, fillId, m);
    MatchKeepsLimit(o, h, fillId, m);
    CreatesFill(su, s, FillOfMatch(o, h, fillId, m));
  }

  lemma SameLimit(o: OrderEvent, h: Header, told: real, price: real)
    ensures Marketable(Instruction(o, h, told), price) <==> Marketable(o, price)
  {
  }
}
