/**
 * Exactly which events the engine accepts in a reachable state, field by field, and what targets and orders then
 * record.
 */
module Acceptance {
  import opened Outcomes
  import opened Sums
  import opened Contracts
  import opened FeeRules
  import opened EngineModel
  import opened Lots
  import opened Bookkeeping
  import opened ReplayStream
  import opened Attestation
  import opened EngineRuns
  import opened TargetOrders
  import opened Steps
  import opened LedgerEffects
  import opened LateFees
  import opened AttestedRuns
  import opened FeeConditions

  // ---------------------------------------------------------------- the clock

  /** The event belongs to the run, comes after every committed one, and carries the trading day of its time. */
  ghost predicate Timely(su: Setup, es: seq<Event>, h: Header) {
    && h.runId == su.config.runId && 0 <= h.sequence && h.day * MICROS_PER_DAY <= h.time < (h.day + 1) * MICROS_PER_DAY
    && forall i :: 0 <= i < |es| ==>
      es[i].Head().eventId != h.eventId && es[i].Head().sequence < h.sequence && es[i].Head().time <= h.time
  }

  lemma DayOf(time: Instant, day: Day)
    ensures day == TradingDayOf(time) <==> day * MICROS_PER_DAY <= time < (day + 1) * MICROS_PER_DAY
  {
  }

  lemma TimelyExactly(su: Setup, es: seq<Event>, s: State, h: Header)
    requires ValidSetup(su) && Run(su, es, s)
    ensures Timely(su, es, h) <==> ValidHeader(h) && ValidateClock(su.config, s, h) == Pass
  {
    hide Run, Inv, BooksOk, FeesOk, AttestOk, TradingDayOf, ValidSetup;
    RunInv(su, es, s);
    ReplayOfRun(su, es, s);
    ValidStreamMeaning(su.config.runId, es);
    DayOf(h.time, h.day);
    hide Replayed;
    if es != [] {
      var last := es[|es| - 1];
      assert forall i :: 0 <= i < |es| ==>
        es[i].Head().sequence <= last.Head().sequence && es[i].Head().time <= last.Head().time;
      assert last.Head().eventId in s.eventIds;
    }
    assert s.eventIds == set i | 0 <= i < |es| :: es[i].Head().eventId;
  }

  lemma ReplayOfRun(su: Setup, es: seq<Event>, s: State)
    requires ValidSetup(su) && Inv(su, s) && s.events == es
    ensures Replayed(su.config.runId, es).Some?
    ensures var rs := Replayed(su.config.runId, es).value;
      rs.previousSequence == s.lastSequence && rs.previousTime == s.lastTime && rs.eventIds == s.eventIds
    ensures es == [] ==> s.lastSequence == -1 && s.lastTime == None && s.eventIds == {}
  {
    hide BooksOk, FeesOk, AttestOk;
  }

  /** Acceptance in three parts. */
  lemma Parts(su: Setup, s: State, e: Event)
    requires ValidSetup(su)
    ensures ApplyEvent(su, s, e).Ok? <==>
      ValidEvent(e) && ValidateClock(su.config, s, e.Head()) == Pass && Dispatch(su, s, e).Ok?
    ensures ApplyEvent(su, s, e).Ok? ==> ApplyEvent(su, s, e).value == Commit(Dispatch(su, s, e).value, e)
  {
    hide ValidEvent, ValidateClock, Dispatch, ValidSetup;
  }

  // ---------------------------------------------------------------- targets

  /**
   * A target states a quantity or a weight, nothing exactly when flat, shorts only with permission, once per signal.
   */
  predicate TargetFits(su: Setup, s: State, e: TargetEvent) {
    && e.signalTime <= e.head.time
    && (e.targetQuantity.Some? <==> e.targetWeight.None?)
    && (e.targetQuantity.Some? ==>
      0.0 <= e.targetQuantity.value && (e.targetQuantity.value == 0.0 <==> e.direction == Flat))
    && (e.targetWeight.Some? ==> 0.0 <= e.targetWeight.value && (e.targetWeight.value == 0.0 <==> e.direction == Flat))
    && (e.direction == Short ==> su.config.allowShortSales)
    && TargetKey(e.signalEventId, e.key) !in s.targets
  }

  /** A target is accepted exactly when it fits, and then only it is recorded. */
  lemma TargetAcceptedExactly(su: Setup, es: seq<Event>, s: State, e: TargetEvent)
    requires ValidSetup(su) && Run(su, es, s)
    ensures ApplyEvent(su, s, TargetEv(e)).Ok? <==> Timely(su, es, e.head) && TargetFits(su, s, e)
    ensures ApplyEvent(su, s, TargetEv(e)).Ok? ==>
      ApplyEvent(su, s, TargetEv(e)).value
        == Commit(s.(targets := s.targets[TargetKey(e.signalEventId, e.key) := e]), TargetEv(e))
  {
    hide Run, ValidSetup, ValidateClock, ValidHeader, Timely, ApplyEvent, Commit;
    Parts(su, s, TargetEv(e));
    TimelyExactly(su, es, s, e.head);
  }

  // ---------------------------------------------------------------- orders

  /**
   * An order is created first, then submitted, then accepted or rejected, then filled in parts; it may be canceled
   * before the end.
   */
  predicate OrderMayFollow(previous: Option<OrderStatus>, next: OrderStatus) {
    match next
    case OrderCreated => previous == None
    case Submitted => previous == Some(OrderCreated)
    case Accepted => previous == Some(Submitted)
    case Rejected => previous == Some(Submitted)
    case PartiallyFilled => previous == Some(Accepted) || previous == Some(PartiallyFilled)
    case Filled => previous == Some(Accepted) || previous == Some(PartiallyFilled)
    case OrderCanceled => previous.Some? && previous.value !in {Filled, OrderCanceled, Rejected}
  }

  /** A reference price is absent with both its times, or positive and known when the order is decided. */
  predicate ReferenceFits(p: KnownPrice, decided: Instant) {
    if p.price.None? then p.observedAt.None? && p.availableAt.None?
    else
      && 0.0 < p.price.value && p.observedAt.Some? && p.availableAt.Some?
      && p.observedAt.value <= p.availableAt.value && p.availableAt.value <= decided
  }

  predicate OrderFieldsFit(e: OrderEvent) {
    && e.signalTime <= e.head.time && 0.0 < e.quantity && OrderMayFollow(e.previous, e.status)
    && (e.orderType == Limit <==> e.limitPrice.Some?) && (e.limitPrice.Some? ==> 0.0 < e.limitPrice.value)
    && (match e.status
        case PartiallyFilled => 0.0 < e.filledQuantity < e.quantity
        case Filled => e.filledQuantity == e.quantity
        case OrderCanceled => 0.0 <= e.filledQuantity <= e.quantity
        case _ => e.filledQuantity == 0.0)
    && ReferenceFits(e.reference, e.head.time)
  }

  lemma OrderFieldsExactly(e: OrderEvent)
    ensures ValidOrder(e) <==> OrderFieldsFit(e)
  {
  }

  /** The rule the resolver picks: the first of the latest effective ones. */
  ghost predicate Picked(rules: seq<MarketRule>, kind: InstrumentType, day: Day, rule: MarketRule) {
    exists i :: 0 <= i < |rules| && rules[i] == rule && PickedAt(rules, kind, day, i)
  }

  predicate PickedAt(rules: seq<MarketRule>, kind: InstrumentType, day: Day, i: nat)
    requires i < |rules|
  {
    && rules[i].instrumentType == kind && rules[i].effectiveFrom <= day
    && forall j :: 0 <= j < |rules| && rules[j].instrumentType == kind && rules[j].effectiveFrom <= day ==>
      rules[j].effectiveFrom < rules[i].effectiveFrom || (rules[j].effectiveFrom == rules[i].effectiveFrom && i <= j)
  }

  lemma PickedAtMostOnce(rules: seq<MarketRule>, kind: InstrumentType, day: Day, i: nat, j: nat)
    requires i < |rules| && j < |rules| && PickedAt(rules, kind, day, i) && PickedAt(rules, kind, day, j)
    ensures i == j
  {
  }

  /** A further rule is picked when it is effective and later than all before it; otherwise it changes nothing. */
  lemma PickedNext(rules: seq<MarketRule>, kind: InstrumentType, day: Day, k: nat)
    requires k < |rules| - 1 && PickedAt(rules[..|rules| - 1], kind, day, k)
    ensures var last := rules[|rules| - 1];
      if last.instrumentType == kind && last.effectiveFrom <= day && rules[k].effectiveFrom < last.effectiveFrom
      then PickedAt(rules, kind, day, |rules| - 1) else PickedAt(rules, kind, day, k)
  {
    var front := rules[..|rules| - 1];
    assert forall j :: 0 <= j < |front| ==> rules[j] == front[j];
  }

  lemma {:induction false} PickedExactly(rules: seq<MarketRule>, kind: InstrumentType, day: Day)
    ensures match SelectRule(rules, kind, day)
      case Ok(rule) => Picked(rules, kind, day, rule)
      case Err(_) => forall i :: 0 <= i < |rules| ==> rules[i].instrumentType != kind || day < rules[i].effectiveFrom
  {
    if rules != [] {
      var n := |rules| - 1;
      var front := rules[..n];
      PickedExactly(front, kind, day);
      if SelectRule(front, kind, day).Ok? {
        var k :| 0 <= k < n && front[k] == SelectRule(front, kind, day).value && PickedAt(front, kind, day, k);
        PickedNext(rules, kind, day, k);
        hide PickedAt;
        assert rules[k] == front[k];
      } else {
        assert forall i :: 0 <= i < n ==> rules[i] == front[i];
        if rules[n].instrumentType == kind && rules[n].effectiveFrom <= day {
          assert PickedAt(rules, kind, day, n);
        }
      }
    }
  }

  predicate SameTargetAs(a: OrderEvent, b: OrderEvent) {
    a.signalEventId == b.signalEventId && a.key == b.key
  }

  /** No order of the same signal and instrument is still alive. */
  ghost predicate NoneAlive(s: State, e: OrderEvent) {
    forall id :: id in s.orders && SameTargetAs(s.orders[id].created, e) ==>
      s.orders[id].latest.status in {Filled, OrderCanceled, Rejected}
  }

  /**
   * A new order starts a lifecycle, implements its target if it has one, is alone under it, and is admitted by its
   * rule.
   */
  ghost predicate NewOrderFits(su: Setup, s: State, e: OrderEvent) {
    var k := TargetKey(e.signalEventId, e.key);
    && e.status == OrderCreated && e.previous == None
    && (su.config.requireTarget ==> k in s.targets)
    && (k in s.targets ==>
      && s.targets[k].head.time <= e.head.time && NoneAlive(s, e)
      && MeetsTarget(s.targets[k], Held(s.positions, e.key) + SignedOrder(e)))
    && exists rule: MarketRule :: Picked(su.rules, e.key.instrumentType, e.head.day, rule) && rule.accepts(e)
  }

  lemma PickedOnce(rules: seq<MarketRule>, kind: InstrumentType, day: Day, rule: MarketRule)
    requires Picked(rules, kind, day, rule)
    ensures SelectRule(rules, kind, day) == Ok(rule)
  {
    PickedExactly(rules, kind, day);
    var i :| 0 <= i < |rules| && rules[i] == rule && PickedAt(rules, kind, day, i);
    if SelectRule(rules, kind, day).Ok? {
      var j :| 0 <= j < |rules| && rules[j] == SelectRule(rules, kind, day).value && PickedAt(rules, kind, day, j);
      PickedAtMostOnce(rules, kind, day, i, j);
    }
  }

  lemma NoOverlap(s: State, e: OrderEvent)
    ensures NoneAlive(s, e) <==> !HasOverlap(s, e)
  {
  }

  lemma NewOrderExactly(su: Setup, s: State, e: OrderEvent)
    requires e.orderId !in s.orders && 0.0 < e.quantity
    ensures ApplyOrder(su, s, e).Ok? <==> NewOrderFits(su, s, e)
    ensures ApplyOrder(su, s, e).Ok? ==>
      ApplyOrder(su, s, e).value == s.(orders := s.orders[e.orderId := OrderRecord(e, e, 0.0)])
  {
    hide NoneAlive, HasOverlap, ValidateTargetOrder, MeetsTarget, SelectRule, Picked, Held, SignedOrder;
    var k := TargetKey(e.signalEventId, e.key);
    NoOverlap(s, e);
    if k in s.targets {
      OrderReachesTarget(s, s.targets[k], e);
    }
    var kind, day := e.key.instrumentType, e.head.day;
    PickedExactly(su.rules, kind, day);
    forall rule: MarketRule | Picked(su.rules, kind, day, rule)
      ensures SelectRule(su.rules, kind, day) == Ok(rule)
    {
      PickedOnce(su.rules, kind, day, rule);
    }
  }

  /** The instruction of an order never changes. */
  predicate SameInstruction(a: OrderEvent, b: OrderEvent) {
    && a.key == b.key && a.signalEventId == b.signalEventId && a.signalTime == b.signalTime && a.side == b.side
    && a.orderType == b.orderType && a.quantity == b.quantity && a.limitPrice == b.limitPrice
    && a.reference == b.reference
  }

  /**
   * A later event follows the last one and reports what was confirmed; it cancels only when nothing awaits
   * confirmation.
   */
  ghost predicate OrderFollows(s: State, e: OrderEvent)
    requires e.orderId in s.orders
  {
    var r := s.orders[e.orderId];
    && e.previous == Some(r.latest.status) && SameInstruction(e, r.created)
    && (e.status in {PartiallyFilled, Filled, OrderCanceled} ==> e.filledQuantity == r.confirmedQuantity)
    && (e.status == OrderCanceled ==>
      forall f :: f in s.fills && s.fills[f].created.orderId == e.orderId ==> s.fills[f].latest.status != FillCreated)
  }

  lemma NothingPendingIs(su: Setup, s: State, orderId: Id)
    requires ValidSetup(su) && Inv(su, s)
    ensures PendingQuantity(s.fills, orderId) == 0.0 <==>
      forall f :: f in s.fills && s.fills[f].created.orderId == orderId ==> s.fills[f].latest.status != FillCreated
  {
    hide AttestOk, ReplayOk, FeesOk, LedgersOk, QuantitiesOk, CashOk, OrdersOk, ValidateFillOrder, ValidSetup;
    forall f | f in s.fills
      ensures 0.0 < s.fills[f].created.quantity
    {
      assert FillOk(s.orders, f, s.fills[f]);
    }
    hide FillsOk, BooksOk, Inv;
    var w := PendingWeight(orderId);
    TotalNonNegative(s.fills, w);
    if forall f :: f in s.fills && s.fills[f].created.orderId == orderId ==> s.fills[f].latest.status != FillCreated {
      TotalZero(s.fills, w);
    } else {
      var f :| f in s.fills && s.fills[f].created.orderId == orderId && s.fills[f].latest.status == FillCreated;
      assert w(s.fills[f]) <= Total(s.fills, w);
    }
  }

  lemma LaterOrderExactly(su: Setup, s: State, e: OrderEvent)
    requires ValidSetup(su) && Inv(su, s) && e.orderId in s.orders
    ensures ApplyOrder(su, s, e).Ok? <==> OrderFollows(s, e)
    ensures ApplyOrder(su, s, e).Ok? ==>
      var r := OrderRecord(s.orders[e.orderId].created, e, s.orders[e.orderId].confirmedQuantity);
      ApplyOrder(su, s, e).value == s.(orders := s.orders[e.orderId := r])
  {
    hide Inv, ValidSetup, PendingQuantity;
    NothingPendingIs(su, s, e.orderId);
  }

  /**
   * An order event is accepted exactly when it opens or continues an order as it may, and then only its record changes.
   */
  lemma OrderAcceptedExactly(su: Setup, es: seq<Event>, s: State, e: OrderEvent)
    requires ValidSetup(su) && Run(su, es, s)
    ensures ApplyEvent(su, s, OrderEv(e)).Ok? <==>
      && Timely(su, es, e.head) && OrderFieldsFit(e)
      && if e.orderId in s.orders then OrderFollows(s, e) else NewOrderFits(su, s, e)
    ensures ApplyEvent(su, s, OrderEv(e)).Ok? ==>
      var r := if e.orderId in s.orders
        then OrderRecord(s.orders[e.orderId].created, e, s.orders[e.orderId].confirmedQuantity)
        else OrderRecord(e, e, 0.0);
      ApplyEvent(su, s, OrderEv(e)).value == Commit(s.(orders := s.orders[e.orderId := r]), OrderEv(e))
  {
    hide Run, Inv, ValidSetup, ValidateClock, ValidHeader, ValidOrder, Timely, ApplyEvent, ApplyOrder, Commit,
      OrderFollows, NewOrderFits;
    RunInv(su, es, s);
    Parts(su, s, OrderEv(e));
    TimelyExactly(su, es, s, e.head);
    OrderFieldsExactly(e);
    if e.orderId in s.orders {
      LaterOrderExactly(su, s, e);
    } else if 0.0 < e.quantity {
      NewOrderExactly(su, s, e);
    }
  }

  // ---------------------------------------------------------------- fills

  /** A fill is created, then confirmed or canceled; a confirmed one settles; reversals are never accepted. */
  predicate FillMayFollow(previous: Option<FillStatus>, next: FillStatus) {
    match next
    case FillCreated => previous == None
    case Confirmed => previous == Some(FillCreated)
    case FillCanceled => previous == Some(FillCreated)
    case Settled => previous == Some(Confirmed)
    case Reversed => previous == Some(Confirmed) || previous == Some(Settled)
  }

  predicate FillFieldsFit(e: FillEvent) {
    && e.signalTime <= e.orderTime && e.orderTime <= e.observedAt && e.observedAt <= e.availableAt
    && e.availableAt <= e.head.time
    && 0.0 < e.quantity && 0.0 < e.price && e.grossAmount == e.quantity * e.price && FillMayFollow(e.previous, e.status)
  }

  lemma FillFieldsExactly(e: FillEvent)
    ensures ValidFill(e) <==> FillFieldsFit(e)
  {
    if 0.0 < e.quantity && 0.0 < e.price {
      TimesMonotone(0.0, e.quantity, e.price);
      assert Times(e.quantity, e.price) == e.quantity * e.price;
      assert Times(0.0, e.price) == 0.0;
    }
  }

  /**
   * A new fill belongs to an open order, repeats its identity, keeps its limit, and leaves no fill room to exceed it.
   */
  ghost predicate NewFillFits(s: State, e: FillEvent) {
    && e.status == FillCreated && e.previous == None
    && e.orderId in s.orders && s.orders[e.orderId].latest.status in {Accepted, PartiallyFilled}
    && var o := s.orders[e.orderId].created;
    && e.key == o.key && e.side == o.side && e.signalEventId == o.signalEventId && e.signalTime == o.signalTime
    && e.orderTime == o.head.time
    && (o.limitPrice.Some? ==> if o.side == Buy then e.price <= o.limitPrice.value else o.limitPrice.value <= e.price)
    && ActiveQuantity(s.fills, e.orderId) + e.quantity <= o.quantity
  }

  lemma NewFillExactly(su: Setup, s: State, e: FillEvent)
    requires ValidSetup(su) && Inv(su, s) && e.fillId !in s.fills
    ensures ApplyFill(su, s, e).Ok? <==> NewFillFits(s, e)
    ensures ApplyFill(su, s, e).Ok? ==>
      ApplyFill(su, s, e).value == s.(fills := s.fills[e.fillId := FillRecord(e, e, false, 0.0, None, None, None)])
  {
    hide Inv, ValidSetup, ActiveQuantity, ConfirmFill;
    InvBooks(su, s);
    if e.orderId in s.orders {
      LimitIsLimit(su.config, s, e.orderId);
    }
    hide BooksOk;
  }

  lemma LimitIsLimit(c: Config, s: State, id: Id)
    requires BooksOk(c, s) && id in s.orders
    ensures s.orders[id].created.orderType == Limit <==> s.orders[id].created.limitPrice.Some?
  {
    hide LedgersOk, QuantitiesOk, CashOk, FillsOk;
    assert OrderOk(s.fills, id, s.orders[id]);
  }

  /** The execution of a fill never changes. */
  predicate SameExecution(a: FillEvent, b: FillEvent) {
    && a.key == b.key && a.orderId == b.orderId && a.signalEventId == b.signalEventId && a.signalTime == b.signalTime
    && a.orderTime == b.orderTime && a.side == b.side && a.quantity == b.quantity && a.price == b.price
    && a.grossAmount == b.grossAmount && a.observedAt == b.observedAt && a.availableAt == b.availableAt
  }

  /** What a purchase needs of the market: the long units it opens have a rule that dates them, not before the fill. */
  ghost predicate PurchaseFits(su: Setup, held: real, f: FillEvent) {
    0.0 < held + f.quantity ==>
      exists rule: MarketRule :: Picked(su.rules, f.key.instrumentType, f.head.day, rule)
        && rule.sellableOn(f.head.day).Some? && f.head.day <= rule.sellableOn(f.head.day).value
  }

  /** What a sale needs of the position: sellable units, or permission to go beyond them and below zero. */
  predicate SaleFits(su: Setup, ledger: PositionLedger, f: FillEvent) {
    && (su.config.allowUnsettledSales
        || Min(f.quantity, Max(ledger.quantity, 0.0)) <= SellableQuantity(ledger, f.head.day))
    && (su.config.allowShortSales || f.quantity <= Max(ledger.quantity, 0.0))
  }

  /** A confirmation waits for the fee of the one before it, and cash and position must allow the trade. */
  ghost predicate ConfirmFits(su: Setup, s: State, e: FillEvent)
    requires e.fillId in s.fills
  {
    var f := s.fills[e.fillId].created;
    && (su.feeBook.Some? ==> forall id :: id in s.fills && s.fills[id].applied ==> s.fills[id].fee.Some?)
    && (su.config.allowNegativeCash || f.side == Sell || f.quantity * f.price <= s.cash)
    && (f.side == Buy ==> PurchaseFits(su, Held(s.positions, f.key), f))
    && (f.side == Sell ==> SaleFits(su, LedgerAt(s, f.key), f))
  }

  /** A later event of a fill follows the last one and repeats its execution; a confirmation also fits the ledger. */
  ghost predicate FillFollows(su: Setup, s: State, e: FillEvent)
    requires e.fillId in s.fills
  {
    var r := s.fills[e.fillId];
    && e.previous == Some(r.latest.status) && SameExecution(e, r.created) && e.status != Reversed
    && (e.status == Confirmed ==> ConfirmFits(su, s, e))
  }

  lemma PurchaseExactly(su: Setup, ledger: PositionLedger, f: FillEvent)
    requires WellFormed(ledger) && 0.0 < f.quantity
    ensures ApplyBuy(su, ledger, f).Ok? <==> PurchaseFits(su, ledger.quantity, f)
  {
    var kind, day := f.key.instrumentType, f.head.day;
    PickedExactly(su.rules, kind, day);
    forall rule: MarketRule | Picked(su.rules, kind, day, rule)
      ensures SelectRule(su.rules, kind, day) == Ok(rule)
    {
      PickedOnce(su.rules, kind, day, rule);
    }
    hide SelectRule, Picked, WellFormed, ProRata;
  }

  lemma SaleExactly(su: Setup, ledger: PositionLedger, f: FillEvent)
    requires WellFormed(ledger) && 0.0 < f.quantity && 0.0 < f.price
    ensures ApplySell(su.config, ledger, f).Ok? <==> SaleFits(su, ledger, f)
  {
    SellEffect(su.config, ledger, f);
    hide WellFormed, ApplySell, SellableQuantity;
  }

  lemma TradeExactly(su: Setup, s: State, f: FillEvent)
    requires ValidSetup(su) && Inv(su, s) && ValidFill(f)
    ensures TradeAllowed(su, s, f) <==>
      && (su.config.allowNegativeCash || f.side == Sell || f.quantity * f.price <= s.cash)
      && (f.side == Buy ==> PurchaseFits(su, Held(s.positions, f.key), f))
      && (f.side == Sell ==> SaleFits(su, LedgerAt(s, f.key), f))
  {
    hide Inv, ValidSetup, BooksOk, ApplyBuy, ApplySell, PurchaseFits, SaleFits, WellFormed;
    InvBooks(su, s);
    BooksCash(su.config, s);
    WellLedger(su.config, s, f.key);
    PurchaseExactly(su, LedgerAt(s, f.key), f);
    SaleExactly(su, LedgerAt(s, f.key), f);
  }

  lemma WellLedger(c: Config, s: State, k: Key)
    requires BooksOk(c, s)
    ensures WellFormed(LedgerAt(s, k)) && Held(s.positions, k) == LedgerAt(s, k).quantity
  {
    hide QuantitiesOk, CashOk, FillsOk, OrdersOk;
  }

  lemma AllCharged(fills: map<Id, FillRecord>)
    ensures !HasUncharged(fills) <==> forall id :: id in fills && fills[id].applied ==> fills[id].fee.Some?
  {
    if forall id :: id in fills && fills[id].applied ==> fills[id].fee.Some? {
      assert forall id :: id in fills ==> !Uncharged(fills[id]);
    } else {
      var id :| id in fills && fills[id].applied && fills[id].fee.None?;
      assert Uncharged(fills[id]);
    }
  }

  lemma SameExecutionIs(a: FillEvent, b: FillEvent)
    ensures ExecutionOf(a) == ExecutionOf(b) <==> SameExecution(a, b)
  {
  }

  lemma ConfirmFitsIs(su: Setup, s: State, e: FillEvent)
    requires ValidSetup(su) && Inv(su, s) && e.fillId in s.fills && ValidFill(s.fills[e.fillId].created)
    ensures ConfirmFits(su, s, e) <==>
      (su.feeBook.Some? ==> !HasUncharged(s.fills)) && TradeAllowed(su, s, s.fills[e.fillId].created)
  {
    hide Inv, ValidSetup, ValidFill, TradeAllowed, HasUncharged, PurchaseFits, SaleFits;
    TradeExactly(su, s, s.fills[e.fillId].created);
    AllCharged(s.fills);
  }

  lemma ConfirmExactly(su: Setup, es: seq<Event>, s: State, e: FillEvent)
    requires ValidSetup(su) && Run(su, es, s) && ValidFill(e) && ValidateClock(su.config, s, e.head) == Pass
    requires e.fillId in s.fills && e.status == Confirmed && e.previous == Some(s.fills[e.fillId].latest.status)
    requires SameExecution(e, s.fills[e.fillId].created)
    ensures ApplyFill(su, s, e).Ok? <==> ConfirmFits(su, s, e)
  {
    hide Run, Inv, BooksOk, ValidSetup, ApplyFill, ValidFill, ValidateClock, TradeAllowed, HasUncharged,
      SameExecution, ConfirmFits, ExecutionOf;
    RunInv(su, es, s);
    InvBooks(su, s);
    SameExecutionIs(e, s.fills[e.fillId].created);
    ConfirmAccepted(su, es, s, e);
    CreatedIsValid(su.config, s, e.fillId);
    ConfirmFitsIs(su, s, e);
  }

  lemma CreatedIsValid(c: Config, s: State, id: Id)
    requires BooksOk(c, s) && id in s.fills
    ensures ValidFill(s.fills[id].created)
  {
    hide LedgersOk, QuantitiesOk, CashOk, OrdersOk, ValidFill;
    assert FillOk(s.orders, id, s.fills[id]);
  }

  lemma LaterFillExactly(su: Setup, es: seq<Event>, s: State, e: FillEvent)
    requires ValidSetup(su) && Run(su, es, s) && ValidFill(e) && ValidateClock(su.config, s, e.head) == Pass
    requires e.fillId in s.fills
    ensures ApplyFill(su, s, e).Ok? <==> FillFollows(su, s, e)
  {
    var r := s.fills[e.fillId];
    SameExecutionIs(e, r.created);
    if e.previous == Some(r.latest.status) && SameExecution(e, r.created) && e.status == Confirmed {
      ConfirmExactly(su, es, s, e);
    }
    hide Run, ConfirmFits, ConfirmFill, SameExecution, ExecutionOf, ValidFill, ValidateClock, ValidSetup;
  }

  /** A fill event is accepted exactly when it opens or continues a fill as it may. */
  lemma FillAcceptedExactly(su: Setup, es: seq<Event>, s: State, e: FillEvent)
    requires ValidSetup(su) && Run(su, es, s)
    ensures ApplyEvent(su, s, FillEv(e)).Ok? <==>
      && Timely(su, es, e.head) && FillFieldsFit(e)
      && if e.fillId in s.fills then FillFollows(su, s, e) else NewFillFits(s, e)
    ensures ApplyEvent(su, s, FillEv(e)).Ok? && e.fillId !in s.fills ==>
      ApplyEvent(su, s, FillEv(e)).value
        == Commit(s.(fills := s.fills[e.fillId := FillRecord(e, e, false, 0.0, None, None, None)]), FillEv(e))
  {
    hide Run, Inv, ValidSetup, ValidateClock, ValidHeader, ValidFill, FillFieldsFit, Timely, ApplyEvent, ApplyFill,
      Commit, FillFollows, NewFillFits;
    RunInv(su, es, s);
    Parts(su, s, FillEv(e));
    TimelyExactly(su, es, s, e.head);
    FillFieldsExactly(e);
    if e.fillId !in s.fills {
      NewFillExactly(su, s, e);
    } else if ValidFill(e) && ValidateClock(su.config, s, e.head) == Pass {
      LaterFillExactly(su, es, s, e);
    }
  }

  /** The lots after a trade. */
  ghost predicate LotsAfter(su: Setup, before: PositionLedger, f: FillEvent, lots: seq<Lot>) {
    var held := before.quantity;
    if f.side == Buy then
      if 0.0 < held + f.quantity then
        exists rule: MarketRule :: Picked(su.rules, f.key.instrumentType, f.head.day, rule)
          && rule.sellableOn(f.head.day).Some?
          && lots == before.lots + [Lot(Min(f.quantity, held + f.quantity), rule.sellableOn(f.head.day).value)]
      else lots == before.lots
    else
      var closing := Min(f.quantity, Max(held, 0.0));
      && SellableTotal(lots, f.head.day) == Max(0.0, SellableTotal(before.lots, f.head.day) - closing)
      && LotTotal(lots) == LotTotal(before.lots) - closing
  }

  lemma BuyLots(su: Setup, ledger: PositionLedger, f: FillEvent)
    requires WellFormed(ledger) && 0.0 < f.quantity && 0.0 < f.price && f.side == Buy && ApplyBuy(su, ledger, f).Ok?
    ensures LotsAfter(su, ledger, f, ApplyBuy(su, ledger, f).value.ledger.lots)
  {
    BuyEffect(su, ledger, f);
    PickedExactly(su.rules, f.key.instrumentType, f.head.day);
    hide WellFormed, ApplyBuy, SelectRule, Picked;
  }

  lemma SellLots(su: Setup, ledger: PositionLedger, f: FillEvent)
    requires WellFormed(ledger) && 0.0 < f.quantity && 0.0 < f.price && f.side == Sell
    requires ApplySell(su.config, ledger, f).Ok?
    ensures LotsAfter(su, ledger, f, ApplySell(su.config, ledger, f).value.lots)
  {
    var closing := Min(f.quantity, Max(ledger.quantity, 0.0));
    TotalsBounded(ledger.lots, f.head.day);
    if closing != 0.0 {
      ConsumeExact(ledger.lots, closing, f.head.day, su.config.allowUnsettledSales);
      SettledFirst(ledger.lots, closing, f.head.day, su.config.allowUnsettledSales);
    }
    hide ConsumeLots, ProRata;
  }

  /** After an accepted confirmation a purchase has opened one dated lot, and a sale has used settled lots first. */
  lemma ConfirmedLots(su: Setup, es: seq<Event>, s: State, e: FillEvent, t: State)
    requires ValidSetup(su) && Run(su, es, s) && e.status == Confirmed && ApplyEvent(su, s, FillEv(e)) == Ok(t)
    ensures e.fillId in s.fills
    ensures var f := s.fills[e.fillId].created;
      f.key in t.positions && LotsAfter(su, LedgerAt(s, f.key), f, t.positions[f.key].lots)
  {
    hide Run, Inv, ValidSetup, ApplyEvent, ApplyFill, ValidFill, StepMoves, BooksOk, LotsAfter;
    RunInv(su, es, s);
    FillDispatched(su, s, e, t);
    StepIsMove(su, s, FillEv(e), t);
    ConfirmsKnown(s, e, t);
    InvBooks(su, s);
    LotsAfterConfirm(su, s, e, ApplyFill(su, s, e).value);
  }

  lemma LotsAfterConfirm(su: Setup, s: State, e: FillEvent, t: State)
    requires ValidSetup(su) && BooksOk(su.config, s) && ValidFill(e) && e.fillId in s.fills && e.status == Confirmed
    requires ApplyFill(su, s, e) == Ok(t)
    ensures var f := s.fills[e.fillId].created;
      f.key in t.positions && LotsAfter(su, LedgerAt(s, f.key), f, t.positions[f.key].lots)
  {
    hide ConfirmFill, ApplyTrade, ApplyBuy, ApplySell, FillsOk, OrdersOk, QuantitiesOk, CashOk, ValidSetup, LotsAfter,
      WellFormed;
    PendingFacts(s.orders, s.fills, e);
    var f := s.fills[e.fillId].created;
    var traded := ConfirmShape(su, s, e, t);
    TradeShape(su, s, f, e, traded);
    LedgerIsWell(su.config, s, f.key);
    if f.side == Buy {
      BuyLots(su, LedgerAt(s, f.key), f);
    } else {
      SellLots(su, LedgerAt(s, f.key), f);
    }
  }

  // ---------------------------------------------------------------- fees

  predicate FeeFieldsFit(e: FeeEvent) {
    && e.fillTime <= e.head.time
    && 0.0 <= e.commission && 0.0 <= e.stampDuty && 0.0 <= e.transferFee && 0.0 <= e.otherFee
    && e.total == e.commission + e.stampDuty + e.transferFee + e.otherFee
  }

  /** With a rule book the fee is, part by part, what the effective rule of its version assesses. */
  predicate FeeIsAssessed(book: seq<FeeRule>, e: FeeEvent, f: FillEvent)
    requires ValidBook(book)
  {
    exists i :: 0 <= i < |book| && Candidate(book[i], e.key.instrumentType, e.side, f.head.day, Some(e.ruleVersion))
      && var fee := book[i].Fee(f.grossAmount);
         && e.commission == fee.commission && e.stampDuty == fee.stampDuty && e.transferFee == fee.transferFee
         && e.otherFee == fee.otherFee && e.total == fee.total
  }

  /**
   * A fee belongs to a confirmed fill without one, repeats its identity and day, is what the book assesses if there is
   * a book, and cash pays it. Without a book a purchase fee must also find the position as the fill left it.
   */
  ghost predicate FeeFits(su: Setup, s: State, e: FeeEvent)
    requires ValidSetup(su)
  {
    && e.fillId in s.fills && s.fills[e.fillId].applied && s.fills[e.fillId].fee.None?
    && var r := s.fills[e.fillId];
    && e.key == r.created.key && e.side == r.created.side && e.fillTime == r.created.head.time
    && e.head.day == r.created.head.day && e.currency == su.config.currency
    && (su.feeBook.Some? ==> FeeIsAssessed(su.feeBook.value, e, r.created))
    && (su.config.allowNegativeCash || e.total <= s.cash)
    && (su.feeBook.None? && e.side == Buy && 0.0 < r.openedLong && 0.0 < e.total ==>
      Some(LedgerAt(s, e.key).quantity) == r.quantityAfter && Some(LedgerAt(s, e.key).costBasis) == r.costAfter)
  }

  lemma VersionIs(book: seq<FeeRule>, kind: InstrumentType, side: Side, day: Day, version: Id, i: nat)
    requires ValidBook(book) && i < |book| && Candidate(book[i], kind, side, day, Some(version))
    ensures Select(book, kind, side, day, Some(version)) == Some(book[i])
  {
    forall j | 0 <= j < |book| && Candidate(book[j], kind, side, day, Some(version))
      ensures book[j].effectiveFrom <= book[i].effectiveFrom
    {
      SameVersion(book, i, j);
    }
    SelectUnique(book, kind, side, day, Some(version), i);
  }

  lemma AssessedExactly(book: seq<FeeRule>, e: FeeEvent, f: FillEvent)
    requires ValidBook(book) && 0.0 < f.grossAmount
    ensures CheckFeeRule(book, e, f) == Pass <==> FeeIsAssessed(book, e, f)
  {
    hide FeeRule.Fee, Candidate, Select;
    var kind, side, day, version := e.key.instrumentType, e.side, f.head.day, e.ruleVersion;
    SelectLatest(book, kind, side, day, Some(version));
    forall i | 0 <= i < |book| && Candidate(book[i], kind, side, day, Some(version))
      ensures Select(book, kind, side, day, Some(version)) == Some(book[i])
    {
      VersionIs(book, kind, side, day, version, i);
    }
    var rule := Select(book, kind, side, day, Some(version));
    if rule.Some? {
      assert rule.value in book && rule.value.Valid();
      rule.value.AssessTotal(f.grossAmount);
    }
  }

  lemma ChargeExactly(c: Config, s: State, e: FeeEvent)
    requires e.head.eventId !in s.expectedCash && 0.0 <= e.total && (s.cash < 0.0 ==> c.allowNegativeCash)
    ensures ChargeFee(c, s, e).Ok? <==> c.allowNegativeCash || e.total <= s.cash
  {
  }

  lemma AllocateExactly(s: State, charged: State, r: FillRecord, e: FeeEvent)
    requires charged.positions == s.positions && charged.expectedPositions == s.expectedPositions
    requires e.head.eventId !in s.expectedPositions && 0.0 <= r.openedLong && 0.0 <= e.total
    ensures AllocateFee(charged, r, e).Ok? <==>
      (e.side == Buy && 0.0 < r.openedLong && 0.0 < e.total ==>
        Some(LedgerAt(s, e.key).quantity) == r.quantityAfter && Some(LedgerAt(s, e.key).costBasis) == r.costAfter)
  {
    hide ProRata, SnapshotOf;
  }

  lemma FeeExactly(su: Setup, s: State, e: FeeEvent)
    requires ValidSetup(su) && Inv(su, s) && ValidFee(e) && ValidateClock(su.config, s, e.head) == Pass
    ensures ApplyFee(su, s, e).Ok? <==> FeeFits(su, s, e)
  {
    hide Inv, ValidSetup, ValidFee, ValidateClock, CheckFeeRule, ChargeFee, AllocateFee, FeeIsAssessed, BooksOk;
    InvBooks(su, s);
    BooksCash(su.config, s);
    NonNegativeTotal(e);
    PendingSources(su, s, e.head);
    ClockId(su, s, e.head);
    if e.fillId in s.fills {
      var r := s.fills[e.fillId];
      RecordFacts(su.config, s, e.fillId);
      ChargeExactly(su.config, s, e);
      if su.feeBook.Some? {
        SetupBook(su);
        AssessedExactly(su.feeBook.value, e, r.created);
      }
      var charge := ChargeFee(su.config, s, e);
      if charge.Ok? {
        ChargeKeeps(su.config, s, e, charge.value);
        var charged := charge.value.(fills := charge.value.fills[e.fillId := r.(fee := Some(e))]);
        AllocateExactly(s, charged, r, e);
        if su.feeBook.Some? && Uncharged(r) && e.key == r.created.key {
          AllocationAccepted(su, s, e, charge.value);
        }
      }
    }
  }

  lemma SetupBook(su: Setup)
    requires ValidSetup(su) && su.feeBook.Some?
    ensures ValidBook(su.feeBook.value)
  {
  }

  lemma ClockId(su: Setup, s: State, h: Header)
    requires ValidateClock(su.config, s, h) == Pass
    ensures h.eventId !in s.eventIds
  {
  }

  lemma NonNegativeTotal(e: FeeEvent)
    requires ValidFee(e)
    ensures 0.0 <= e.total
  {
  }

  lemma RecordFacts(c: Config, s: State, id: Id)
    requires BooksOk(c, s) && id in s.fills
    ensures var r := s.fills[id];
      && 0.0 < r.created.grossAmount && 0.0 <= r.openedLong && (r.applied ==> r.latest.status in {Confirmed, Settled})
  {
    hide LedgersOk, QuantitiesOk, CashOk, OrdersOk, ValidateFillOrder;
    assert FillOk(s.orders, id, s.fills[id]);
  }

  lemma FeeFieldsExactly(e: FeeEvent)
    ensures ValidFee(e) <==> FeeFieldsFit(e)
  {
  }

  /** A fee event is accepted exactly when it fits. */
  lemma FeeAcceptedExactly(su: Setup, es: seq<Event>, s: State, e: FeeEvent)
    requires ValidSetup(su) && Run(su, es, s)
    ensures ApplyEvent(su, s, FeeEv(e)).Ok? <==> Timely(su, es, e.head) && FeeFieldsFit(e) && FeeFits(su, s, e)
  {
    hide Run, Inv, ValidSetup, ValidateClock, ValidHeader, ValidFee, FeeFieldsFit, Timely, ApplyEvent, ApplyFee,
      Commit, FeeFits;
    RunInv(su, es, s);
    Parts(su, s, FeeEv(e));
    TimelyExactly(su, es, s, e.head);
    FeeFieldsExactly(e);
    if ValidFee(e) && ValidateClock(su.config, s, e.head) == Pass {
      FeeExactly(su, s, e);
    }
  }

  // ---------------------------------------------------------------- attestations

  /** A cash event repeats the pending movement of its source, on its day, while cash is still at that balance. */
  predicate CashFits(su: Setup, s: State, e: CashEvent) {
    && 0.0 < e.amount && e.accountId == su.config.accountId && e.currency == su.config.currency
    && e.sourceEventId in s.expectedCash
    && var x := s.expectedCash[e.sourceEventId];
    && e.head.day == x.day && e.direction == x.direction && e.amount == x.amount
    && e.balanceAfter == x.balanceAfter && e.balanceAfter == s.cash
  }

  /** A position event repeats the pending snapshot of its source, on its day, while the ledger still shows it. */
  predicate PositionFits(s: State, e: PositionEvent) {
    && 0.0 <= e.sellableQuantity && e.sellableQuantity <= e.quantity && 0.0 <= e.averageCost
    && ReferenceFits(e.market, e.head.time)
    && e.sourceEventId in s.expectedPositions
    && var x := s.expectedPositions[e.sourceEventId];
    var ledger := LedgerAt(s, e.key);
    && e.head.day == x.day && x.snapshot == PositionSnapshot(e.key, e.quantity, e.sellableQuantity, e.averageCost)
    && e.quantity == ledger.quantity && e.sellableQuantity == SellableQuantity(ledger, e.head.day)
    && e.averageCost == (if ledger.quantity == 0.0 then 0.0 else ledger.costBasis / Abs(ledger.quantity))
  }

  lemma CashExactly(su: Setup, s: State, e: CashEvent)
    requires ValidateClock(su.config, s, e.head) == Pass && PendingOk(s)
    ensures ValidCash(e) && AttestCash(su.config, s, e).Ok? <==> CashFits(su, s, e)
    ensures AttestCash(su.config, s, e).Ok? ==>
      AttestCash(su.config, s, e).value == s.(expectedCash := s.expectedCash - {e.sourceEventId})
  {
    hide PositionDated;
    assert e.sourceEventId in s.expectedCash ==> CashDated(s, s.expectedCash[e.sourceEventId]);
  }

  lemma PositionExactly(su: Setup, s: State, e: PositionEvent)
    requires ValidateClock(su.config, s, e.head) == Pass && PendingOk(s)
    ensures ValidPosition(e) && AttestPosition(s, e).Ok? <==> PositionFits(s, e)
    ensures AttestPosition(s, e).Ok? ==>
      AttestPosition(s, e).value == s.(expectedPositions := s.expectedPositions - {e.sourceEventId})
  {
    hide CashDated, SnapshotOf, AverageCost;
    assert e.sourceEventId in s.expectedPositions ==> PositionDated(s, s.expectedPositions[e.sourceEventId]);
    AverageOfSnapshot(e.key, LedgerAt(s, e.key), e.head.day);
    SnapshotParts(e.key, LedgerAt(s, e.key), e.head.day);
    AverageIs(LedgerAt(s, e.key));
    SnapshotKey(e.key, LedgerAt(s, e.key), e.head.day);
  }

  lemma SnapshotKey(k: Key, ledger: PositionLedger, day: Day)
    ensures SnapshotOf(k, ledger, day).key == k
  {
  }

  lemma AverageIs(ledger: PositionLedger)
    ensures AverageCost(ledger) == if ledger.quantity == 0.0 then 0.0 else ledger.costBasis / Abs(ledger.quantity)
  {
  }

  /** A cash event is accepted exactly when it fits, and only takes the movement out of the pending ones. */
  lemma CashAcceptedExactly(su: Setup, es: seq<Event>, s: State, e: CashEvent)
    requires ValidSetup(su) && Run(su, es, s)
    ensures ApplyEvent(su, s, CashEv(e)).Ok? <==> Timely(su, es, e.head) && CashFits(su, s, e)
    ensures ApplyEvent(su, s, CashEv(e)).Ok? ==>
      ApplyEvent(su, s, CashEv(e)).value == Commit(s.(expectedCash := s.expectedCash - {e.sourceEventId}), CashEv(e))
  {
    hide Run, Inv, ValidSetup, ValidateClock, ValidHeader, ValidCash, Timely, ApplyEvent, AttestCash, Commit,
      CashFits, PendingOk, DaysOk, CashAttested, LedgersAttested, ShortsOk;
    RunHistory(su, es, s);
    Parts(su, s, CashEv(e));
    TimelyExactly(su, es, s, e.head);
    if ValidateClock(su.config, s, e.head) == Pass {
      CashExactly(su, s, e);
    }
  }

  /** A position event is accepted exactly when it fits, and only takes the movement out of the pending ones. */
  lemma PositionAcceptedExactly(su: Setup, es: seq<Event>, s: State, e: PositionEvent)
    requires ValidSetup(su) && Run(su, es, s)
    ensures ApplyEvent(su, s, PositionEv(e)).Ok? <==> Timely(su, es, e.head) && PositionFits(s, e)
    ensures ApplyEvent(su, s, PositionEv(e)).Ok? ==>
      ApplyEvent(su, s, PositionEv(e)).value
        == Commit(s.(expectedPositions := s.expectedPositions - {e.sourceEventId}), PositionEv(e))
  {
    hide Run, Inv, ValidSetup, ValidateClock, ValidHeader, ValidPosition, Timely, ApplyEvent, AttestPosition, Commit,
      PositionFits, PendingOk, DaysOk, CashAttested, LedgersAttested, ShortsOk;
    RunHistory(su, es, s);
    Parts(su, s, PositionEv(e));
    TimelyExactly(su, es, s, e.head);
    if ValidateClock(su.config, s, e.head) == Pass {
      PositionExactly(su, s, e);
    }
  }

  // ---------------------------------------------------------------- completeness

  /**
   * A state is complete when nothing asked for is outstanding: pending movements if ledger events are, fees if a book
   * is.
   */
  lemma CompleteExactly(su: Setup, s: State, required: Option<bool>)
    ensures EnsureComplete(su, s, required) == Pass <==>
      && ((required == Some(true) || (required == None && su.config.requireLedgerEvents)) ==>
        (forall id :: id !in s.expectedCash) && (forall id :: id !in s.expectedPositions))
      && ((su.feeBook.Some? && required != Some(false)) ==>
        forall id :: id in s.fills && s.fills[id].applied ==> s.fills[id].fee.Some?)
  {
    AllCharged(s.fills);
    hide HasUncharged;
    assert (forall id :: id !in s.expectedCash) <==> s.expectedCash == map[];
    assert (forall id :: id !in s.expectedPositions) <==> s.expectedPositions == map[];
  }
}
