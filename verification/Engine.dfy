/** The engine in its own form: a mutable staged state, methods that update it, and atomic commits. */
module Engine {
  import opened Outcomes
  import opened Sums
  import opened Contracts
  import opened EngineModel
  import opened ReplayStream
  import opened Attestation
  import opened EngineRuns

  datatype OrderSnapshot = OrderSnapshot(
    key: Key, side: Side, orderType: OrderType, quantity: real, status: OrderStatus,
    filledQuantity: real, confirmedQuantity: real)

  /** The result's two snapshot tables are kept by key; the code stores the same rows as sorted tuples. */
  datatype BacktestResult = BacktestResult(
    cashBalance: real, positions: map<Key, PositionSnapshot>, orders: map<Id, OrderSnapshot>, events: seq<Event>)

  function SnapshotOrder(r: OrderRecord): OrderSnapshot {
    OrderSnapshot(r.created.key, r.created.side, r.created.orderType, r.created.quantity,
      r.latest.status, r.latest.filledQuantity, r.confirmedQuantity)
  }

  function ResultOf(s: State): BacktestResult {
    var day := if s.lastDay.Some? then s.lastDay.value else DATE_MIN;
    BacktestResult(s.cash,
      map k | k in s.positions && s.positions[k].quantity != 0.0 :: SnapshotOf(k, s.positions[k], day),
      map id | id in s.orders :: SnapshotOrder(s.orders[id]),
      s.events)
  }

  method OpeningLedgers(ps: seq<InitialPosition>) returns (positions: map<Key, PositionLedger>)
    ensures positions == OpeningPositions(ps)
  {
    positions := map[];
    for i := 0 to |ps|
      invariant positions == OpeningPositions(ps[..i])
    {
      assert ps[..i + 1][..i] == ps[..i];
      var opening := ps[i];
      var lots: seq<Lot> := [];
      if opening.quantity > 0.0 {
        if opening.sellableQuantity != 0.0 {
          lots := lots + [Lot(opening.sellableQuantity, DATE_MIN)];
        }
        var unsettled := opening.quantity - opening.sellableQuantity;
        if unsettled != 0.0 {
          lots := lots + [Lot(unsettled, DATE_MAX)];
        }
      }
      assert lots == OpeningLots(opening);
      positions := positions[opening.key :=
        PositionLedger(opening.quantity, Times(Abs(opening.quantity), opening.averageCost), lots)];
    }
    assert ps[..|ps|] == ps;
  }

  class EngineState {
    var cash: real
    var positions: map<Key, PositionLedger>
    var targets: map<TargetKey, TargetEvent>
    var orders: map<Id, OrderRecord>
    var fills: map<Id, FillRecord>
    var events: seq<Event>
    var eventIds: set<Id>
    var expectedCash: map<Id, ExpectedCash>
    var expectedPositions: map<Id, ExpectedPosition>
    var lastSequence: int
    var lastTime: Option<Instant>
    var lastDay: Option<Day>

    ghost function View(): State
      reads this
    {
      State(cash, positions, targets, orders, fills, events, eventIds, expectedCash, expectedPositions,
        lastSequence, lastTime, lastDay)
    }

    constructor Opening(c: Config)
      ensures View() == InitialState(c)
    {
      cash := c.initialCash;
      var opened' := OpeningLedgers(c.positions);
      positions := opened';
      targets, orders, fills, events, eventIds := map[], map[], map[], [], {};
      expectedCash, expectedPositions := map[], map[];
      lastSequence, lastTime, lastDay := -1, None, None;
    }

    /** `copy.deepcopy`. */
    constructor Copy(s: EngineState)
      ensures View() == s.View()
    {
      cash, positions, targets, orders, fills := s.cash, s.positions, s.targets, s.orders, s.fills;
      events, eventIds := s.events, s.eventIds;
      expectedCash, expectedPositions := s.expectedCash, s.expectedPositions;
      lastSequence, lastTime, lastDay := s.lastSequence, s.lastTime, s.lastDay;
    }
  }

  // ---------------------------------------------------------------- loops over the fill and order tables

  method ActiveFillQuantity(fills: map<Id, FillRecord>, orderId: Id) returns (total: real)
    ensures total == ActiveQuantity(fills, orderId)
  {
    total := 0.0;
    var rest := fills;
    while rest != map[]
      invariant total + Total(rest, ActiveWeight(orderId)) == ActiveQuantity(fills, orderId)
      decreases |rest|
    {
      var id :| id in rest;
      TotalRemove(rest, ActiveWeight(orderId), id);
      var r := rest[id];
      if r.created.orderId == orderId && r.latest.status !in {FillCanceled, Reversed} {
        total := total + r.created.quantity;
      }
      rest := rest - {id};
    }
  }

  method PendingFillQuantity(fills: map<Id, FillRecord>, orderId: Id) returns (total: real)
    ensures total == PendingQuantity(fills, orderId)
  {
    total := 0.0;
    var rest := fills;
    while rest != map[]
      invariant total + Total(rest, PendingWeight(orderId)) == PendingQuantity(fills, orderId)
      decreases |rest|
    {
      var id :| id in rest;
      TotalRemove(rest, PendingWeight(orderId), id);
      var r := rest[id];
      if r.created.orderId == orderId && r.latest.status == FillCreated {
        total := total + r.created.quantity;
      }
      rest := rest - {id};
    }
  }

  method AnyUncharged(fills: map<Id, FillRecord>) returns (found: bool)
    ensures found <==> HasUncharged(fills)
  {
    var rest := fills;
    while rest != map[]
      invariant forall k :: k in rest ==> k in fills && rest[k] == fills[k]
      invariant forall k :: k in fills && k !in rest ==> !Uncharged(fills[k])
      decreases |rest|
    {
      var id :| id in rest;
      if Uncharged(rest[id]) {
        return true;
      }
      rest := rest - {id};
    }
    return false;
  }

  method AnyOverlap(orders: map<Id, OrderRecord>, e: OrderEvent) returns (found: bool)
    ensures found <==> exists id :: id in orders && Overlaps(orders[id], e)
  {
    var rest := orders;
    while rest != map[]
      invariant forall k :: k in rest ==> k in orders && rest[k] == orders[k]
      invariant forall k :: k in orders && k !in rest ==> !Overlaps(orders[k], e)
      decreases |rest|
    {
      var id :| id in rest;
      if Overlaps(rest[id], e) {
        return true;
      }
      rest := rest - {id};
    }
    return false;
  }

  // ---------------------------------------------------------------- lots

  lemma DrainUnfold(lots: seq<Lot>, i: nat, amount: real, day: Day, eligible: bool)
    requires i < |lots| && amount != 0.0
    ensures var consumed := if (lots[i].sellableOn <= day) == eligible then Min(lots[i].quantity, amount) else 0.0;
      var rest := Drain(lots[i + 1..], amount - consumed, day, eligible);
      Drain(lots[i..], amount, day, eligible)
        == Drained([lots[i].(quantity := lots[i].quantity - consumed)] + rest.lots, rest.remaining)
  {
    assert lots[i..][0] == lots[i] && lots[i..][1..] == lots[i + 1..];
  }

  lemma DrainDone(lots: seq<Lot>, amount: real, day: Day, eligible: bool)
    requires lots == [] || amount == 0.0
    ensures Drain(lots, amount, day, eligible) == Drained(lots, amount)
  {
  }

  /** One pass over the lot list, lowering quantities in place and stopping when nothing remains. */
  method DrainPass(lots: seq<Lot>, amount: real, day: Day, eligible: bool) returns (work: seq<Lot>, remaining: real)
    ensures Drained(work, remaining) == Drain(lots, amount, day, eligible)
  {
    hide Drain;
    work, remaining := lots, amount;
    var i := 0;
    assert lots[0..] == lots;
    while i < |lots| && remaining != 0.0
      invariant 0 <= i <= |lots| == |work| && work[i..] == lots[i..]
      invariant var d := Drain(lots[i..], remaining, day, eligible);
        Drain(lots, amount, day, eligible) == Drained(work[..i] + d.lots, d.remaining)
    {
      DrainUnfold(lots, i, remaining, day, eligible);
      assert work[i] == work[i..][0] == lots[i..][0] == lots[i];
      var consumed := if (work[i].sellableOn <= day) == eligible then Min(work[i].quantity, remaining) else 0.0;
      var lowered := work[i := work[i].(quantity := work[i].quantity - consumed)];
      assert lowered[..i + 1] == work[..i] + [lowered[i]];
      assert lowered[i + 1..] == work[i..][1..] == lots[i + 1..];
      work, remaining, i := lowered, remaining - consumed, i + 1;
    }
    DrainDone(lots[i..], remaining, day, eligible);
    assert work == work[..i] + work[i..];
  }

  method ConsumePositionLots(lots: seq<Lot>, amount: real, day: Day, allowUnsettled: bool) returns (r: Result<seq<Lot>>)
    ensures r == ConsumeLots(lots, amount, day, allowUnsettled)
  {
    var work, remaining := DrainPass(lots, amount, day, true);
    if allowUnsettled {
      work, remaining := DrainPass(work, remaining, day, false);
    }
    if remaining != 0.0 {
      return Err(LedgerInvariant);
    }
    var kept := DropEmpty(work);
    return Ok(kept);
  }

  /** `[lot for lot in lots if lot.quantity]`. */
  method DropEmpty(lots: seq<Lot>) returns (kept: seq<Lot>)
    ensures kept == NonEmpty(lots)
  {
    kept := [];
    assert lots[0..] == lots;
    for i := 0 to |lots|
      invariant kept + NonEmpty(lots[i..]) == NonEmpty(lots)
    {
      assert lots[i..][0] == lots[i] && lots[i..][1..] == lots[i + 1..];
      if lots[i].quantity != 0.0 {
        kept := kept + [lots[i]];
      }
    }
  }

  // ---------------------------------------------------------------- the engine

  class EventDrivenBacktestEngine {
    const setup: Setup
    var state: EngineState

    /** Every committed state satisfies the whole invariant. */
    ghost predicate Valid()
      reads this, state
    {
      ValidSetup(setup) && Inv(setup, state.View())
    }

    constructor (su: Setup)
      requires ValidSetup(su)
      ensures Valid() && setup == su && fresh(state) && state.View() == InitialState(su.config)
    {
      setup := su;
      state := new EngineState.Opening(su.config);
      new;
      InitialInv(su);
    }

    // -------------------------------------------------------------- applying one event to a staged state

    method MoveStagedCash(s: EngineState, delta: real, source: Header) returns (r: Outcome)
      modifies s
      ensures r.Pass? ==> MoveCash(setup.config, old(s.View()), delta, source) == Ok(s.View())
      ensures r.Fail? ==> MoveCash(setup.config, old(s.View()), delta, source) == Err(r.error)
    {
      var balance := s.cash + delta;
      if balance < 0.0 && !setup.config.allowNegativeCash {
        return Fail(LedgerInvariant);
      }
      s.cash := balance;
      if delta == 0.0 {
        return Pass;
      }
      if source.eventId in s.expectedCash {
        return Fail(LedgerInvariant);
      }
      s.expectedCash := s.expectedCash[source.eventId :=
        ExpectedCash(source.time, source.day, if delta > 0.0 then Credit else Debit, Abs(delta), balance)];
      return Pass;
    }

    method RecordPositionExpectation(s: EngineState, source: Header, k: Key,
        ledger: PositionLedger) returns (r: Outcome)
      modifies s
      ensures r.Pass? ==> ExpectPosition(old(s.View()), source, k, ledger) == Ok(s.View())
      ensures r.Fail? ==> ExpectPosition(old(s.View()), source, k, ledger) == Err(r.error)
    {
      if source.eventId in s.expectedPositions {
        return Fail(LedgerInvariant);
      }
      s.expectedPositions := s.expectedPositions[source.eventId :=
        ExpectedPosition(source.time, source.day, SnapshotOf(k, ledger, source.day))];
      return Pass;
    }

    method BuyInto(ledger: PositionLedger, f: FillEvent) returns (r: Result<Bought>)
      ensures r == ApplyBuy(setup, ledger, f)
    {
      var quantity := f.quantity;
      var l := ledger;
      if ledger.quantity < 0.0 {
        var covered := Min(quantity, -ledger.quantity);
        var remainingShort := -ledger.quantity - covered;
        l := l.(costBasis :=
          if remainingShort != 0.0 then ProRata(l.costBasis, remainingShort, -ledger.quantity) else 0.0);
        l := l.(quantity := l.quantity + covered);
        quantity := quantity - covered;
      }
      if quantity != 0.0 {
        if l.quantity < 0.0 {
          return Ok(Bought(l, 0.0));
        }
        var rule := SelectRule(setup.rules, f.key.instrumentType, f.head.day);
        if rule.Err? {
          return Err(rule.error);
        }
        var sellableOn := rule.value.sellableOn(f.head.day);
        if sellableOn.None? {
          return Err(MarketRuleRejected);
        }
        if sellableOn.value < f.head.day {
          return Err(LedgerInvariant);
        }
        l := l.(quantity := l.quantity + quantity, costBasis := l.costBasis + Times(quantity, f.price),
                lots := l.lots + [Lot(quantity, sellableOn.value)]);
      }
      return Ok(Bought(l, quantity));
    }

    method SellFrom(ledger: PositionLedger, f: FillEvent) returns (r: Result<PositionLedger>)
      ensures r == ApplySell(setup.config, ledger, f)
    {
      var c := setup.config;
      var long := Max(ledger.quantity, 0.0);
      var closing := Min(f.quantity, long);
      if closing > SellableQuantity(ledger, f.head.day) && !c.allowUnsettledSales {
        return Err(LedgerInvariant);
      }
      var excess := f.quantity - long;
      if excess > 0.0 && !c.allowShortSales {
        return Err(LedgerInvariant);
      }
      var l := ledger;
      if closing != 0.0 {
        var lots := ConsumePositionLots(l.lots, closing, f.head.day, c.allowUnsettledSales);
        if lots.Err? {
          return Err(lots.error);
        }
        var remaining := long - closing;
        l := PositionLedger(l.quantity - closing,
          if remaining != 0.0 then ProRata(l.costBasis, remaining, long) else 0.0, lots.value);
      }
      if excess > 0.0 {
        l := PositionLedger(l.quantity - excess, l.costBasis + Times(excess, f.price), []);
      }
      return Ok(l);
    }

    method TradeStaged(s: EngineState, f: FillEvent, source: FillEvent) returns (r: Outcome, openedLong: real)
      modifies s
      ensures r.Pass? ==> ApplyTrade(setup, old(s.View()), f, source) == Ok(Traded(s.View(), openedLong))
      ensures r.Fail? ==> ApplyTrade(setup, old(s.View()), f, source) == Err(r.error)
    {
      hide MoveCash, ExpectPosition, ApplyBuy, ApplySell;
      openedLong := 0.0;
      r := MoveStagedCash(s, if f.side == Sell then f.grossAmount else -f.grossAmount, source.head);
      if r.Fail? {
        return;
      }
      ghost var moved := s.View();
      assert LedgerAt(moved, f.key) == LedgerAt(old(s.View()), f.key) by {
        CashLeavesLedgers(setup.config, old(s.View()), CashDelta(f), source.head, moved);
      }
      var ledger := if f.key in s.positions then s.positions[f.key] else EMPTY_LEDGER;
      if f.side == Buy {
        var bought := BuyInto(ledger, f);
        if bought.Err? {
          return Fail(bought.error), 0.0;
        }
        ledger, openedLong := bought.value.ledger, bought.value.openedLong;
      } else {
        var sold := SellFrom(ledger, f);
        if sold.Err? {
          return Fail(sold.error), 0.0;
        }
        ledger := sold.value;
      }
      s.positions := s.positions[f.key := ledger];
      r := RecordPositionExpectation(s, source.head, f.key, ledger);
    }

    method ConfirmStaged(s: EngineState, e: FillEvent) returns (r: Outcome)
      requires e.fillId in s.fills
      modifies s
      ensures r.Pass? ==> ConfirmFill(setup, old(s.View()), old(s.fills[e.fillId]), e) == Ok(s.View())
      ensures r.Fail? ==> ConfirmFill(setup, old(s.View()), old(s.fills[e.fillId]), e) == Err(r.error)
    {
      hide ApplyTrade;
      var record := s.fills[e.fillId];
      if record.applied {
        return Fail(LedgerInvariant);
      }
      if e.orderId !in s.orders {
        return Fail(EventLink);
      }
      var order := s.orders[e.orderId];
      if !OpenForFills(order.latest.status) {
        return Fail(LedgerInvariant);
      }
      if order.confirmedQuantity + e.quantity > order.created.quantity {
        return Fail(LedgerInvariant);
      }
      if setup.feeBook.Some? {
        var outstanding := AnyUncharged(s.fills);
        if outstanding {
          return Fail(LedgerInvariant);
        }
      }
      var openedLong;
      r, openedLong := TradeStaged(s, record.created, e);
      if r.Fail? {
        return;
      }
      var ledger := if e.key in s.positions then s.positions[e.key] else EMPTY_LEDGER;
      record := record.(applied := true, openedLong := openedLong,
        quantityAfter := Some(ledger.quantity), costAfter := Some(ledger.costBasis));
      s.orders := s.orders[e.orderId := order.(confirmedQuantity := order.confirmedQuantity + e.quantity)];
      s.fills := s.fills[e.fillId := record.(latest := e)];
    }

    method CreateStagedFill(s: EngineState, e: FillEvent) returns (r: Outcome)
      modifies s
      ensures r.Pass? ==> CreateFill(old(s.View()), e) == Ok(s.View())
      ensures r.Fail? ==> CreateFill(old(s.View()), e) == Err(r.error)
    {
      if e.previous.Some? || e.status != FillCreated {
        return Fail(EventLink);
      }
      if e.orderId !in s.orders {
        return Fail(EventLink);
      }
      var order := s.orders[e.orderId];
      if !OpenForFills(order.latest.status) {
        return Fail(LedgerInvariant);
      }
      r := ValidateFillOrder(e, order.created);
      if r.Fail? {
        return;
      }
      var active := ActiveFillQuantity(s.fills, e.orderId);
      if active + e.quantity > order.created.quantity {
        return Fail(LedgerInvariant);
      }
      s.fills := s.fills[e.fillId := FillRecord(e, e, false, 0.0, None, None, None)];
    }

    method FillStaged(s: EngineState, e: FillEvent) returns (r: Outcome)
      modifies s
      ensures r.Pass? ==> ApplyFill(setup, old(s.View()), e) == Ok(s.View())
      ensures r.Fail? ==> ApplyFill(setup, old(s.View()), e) == Err(r.error)
    {
      hide ConfirmFill, CreateFill;
      if e.fillId !in s.fills {
        r := CreateStagedFill(s, e);
        return;
      }
      var record := s.fills[e.fillId];
      if e.previous != Some(record.latest.status) {
        return Fail(EventLink);
      }
      if ExecutionOf(e) != ExecutionOf(record.created) {
        return Fail(EventLink);
      }
      if e.status == Confirmed {
        r := ConfirmStaged(s, e);
        return;
      } else if e.status == Reversed {
        return Fail(LedgerInvariant);
      }
      s.fills := s.fills[e.fillId := record.(latest := e)];
      return Pass;
    }

    method CreateStagedOrder(s: EngineState, e: OrderEvent) returns (r: Outcome)
      modifies s
      ensures r.Pass? ==> CreateOrder(setup, old(s.View()), e) == Ok(s.View())
      ensures r.Fail? ==> CreateOrder(setup, old(s.View()), e) == Err(r.error)
    {
      if e.previous.Some? || e.status != OrderCreated {
        return Fail(EventLink);
      }
      var k := TargetKey(e.signalEventId, e.key);
      if k !in s.targets && setup.config.requireTarget {
        return Fail(EventLink);
      }
      if k in s.targets {
        r := CheckTargetOrder(s, s.targets[k], e);
        if r.Fail? {
          return;
        }
        var overlap := AnyOverlap(s.orders, e);
        if overlap {
          return Fail(LedgerInvariant);
        }
      }
      var rule := SelectRule(setup.rules, e.key.instrumentType, e.head.day);
      if rule.Err? {
        return Fail(rule.error);
      }
      if !rule.value.accepts(e) {
        return Fail(MarketRuleRejected);
      }
      s.orders := s.orders[e.orderId := OrderRecord(e, e, 0.0)];
      return Pass;
    }

    /** The order must be exactly the trade that brings the position to its target. */
    method CheckTargetOrder(s: EngineState, t: TargetEvent, e: OrderEvent) returns (r: Outcome)
      ensures r == ValidateTargetOrder(s.View(), t, e)
    {
      if t.head.time > e.head.time {
        return Fail(EventLink);
      }
      if t.targetQuantity.None? {
        return Pass;
      }
      var desired := DesiredQuantity(t);
      var current := if e.key in s.positions then s.positions[e.key].quantity else 0.0;
      var delta := desired - current;
      if delta == 0.0 {
        return Fail(LedgerInvariant);
      }
      var expectedSide := if delta > 0.0 then Buy else Sell;
      if e.side != expectedSide || e.quantity != Abs(delta) {
        return Fail(LedgerInvariant);
      }
      return Pass;
    }

    method OrderStaged(s: EngineState, e: OrderEvent) returns (r: Outcome)
      modifies s
      ensures r.Pass? ==> ApplyOrder(setup, old(s.View()), e) == Ok(s.View())
      ensures r.Fail? ==> ApplyOrder(setup, old(s.View()), e) == Err(r.error)
    {
      hide CreateOrder;
      if e.orderId !in s.orders {
        r := CreateStagedOrder(s, e);
        return;
      }
      var record := s.orders[e.orderId];
      if e.previous != Some(record.latest.status) {
        return Fail(EventLink);
      }
      if InstructionOf(e) != InstructionOf(record.created) {
        return Fail(EventLink);
      }
      if e.status in {PartiallyFilled, Filled, OrderCanceled} && e.filledQuantity != record.confirmedQuantity {
        return Fail(LedgerInvariant);
      }
      if e.status == OrderCanceled {
        var pending := PendingFillQuantity(s.fills, e.orderId);
        if pending != 0.0 {
          return Fail(LedgerInvariant);
        }
      }
      s.orders := s.orders[e.orderId := record.(latest := e)];
      return Pass;
    }

    method TargetStaged(s: EngineState, e: TargetEvent) returns (r: Outcome)
      modifies s
      ensures r.Pass? ==> ApplyTarget(setup.config, old(s.View()), e) == Ok(s.View())
      ensures r.Fail? ==> ApplyTarget(setup.config, old(s.View()), e) == Err(r.error)
    {
      if e.direction == Short && !setup.config.allowShortSales {
        return Fail(LedgerInvariant);
      }
      var k := TargetKey(e.signalEventId, e.key);
      if k in s.targets {
        return Fail(EventLink);
      }
      s.targets := s.targets[k := e];
      return Pass;
    }

    method FeeStaged(s: EngineState, e: FeeEvent) returns (r: Outcome)
      requires ValidSetup(setup)
      modifies s
      ensures r.Pass? ==> ApplyFee(setup, old(s.View()), e) == Ok(s.View())
      ensures r.Fail? ==> ApplyFee(setup, old(s.View()), e) == Err(r.error)
    {
      hide CheckFeeRule, MoveCash, ExpectPosition, ProRata;
      if e.fillId !in s.fills {
        return Fail(EventLink);
      }
      var record := s.fills[e.fillId];
      if !record.applied || record.latest.status !in {Confirmed, Settled} {
        return Fail(LedgerInvariant);
      }
      if record.fee.Some? {
        return Fail(LedgerInvariant);
      }
      if e.key != record.created.key || e.side != record.created.side || e.fillTime != record.created.head.time {
        return Fail(EventLink);
      }
      if e.head.day != record.created.head.day {
        return Fail(EventLink);
      }
      if e.currency != setup.config.currency {
        return Fail(LedgerInvariant);
      }
      if setup.feeBook.Some? {
        r := CheckFeeRule(setup.feeBook.value, e, record.created);
        if r.Fail? {
          return;
        }
      }
      if e.total != 0.0 {
        r := MoveStagedCash(s, -e.total, e.head);
        if r.Fail? {
          return;
        }
      }
      ghost var charged := s.View();
      assert ChargeFee(setup.config, old(s.View()), e) == Ok(charged);
      s.fills := s.fills[e.fillId := record.(fee := Some(e))];
      if e.side == Buy && record.openedLong != 0.0 && e.total != 0.0 {
        var ledger := if e.key in s.positions then s.positions[e.key] else EMPTY_LEDGER;
        if Some(ledger.quantity) != record.quantityAfter || Some(ledger.costBasis) != record.costAfter {
          return Fail(LedgerInvariant);
        }
        ledger := ledger.(costBasis := ledger.costBasis + ProRata(e.total, record.openedLong, record.created.quantity));
        s.positions := s.positions[e.key := ledger];
        r := RecordPositionExpectation(s, e.head, e.key, ledger);
        return;
      }
      return Pass;
    }

    method CashStaged(s: EngineState, e: CashEvent) returns (r: Outcome)
      modifies s
      ensures r.Pass? ==> AttestCash(setup.config, old(s.View()), e) == Ok(s.View())
      ensures r.Fail? ==> AttestCash(setup.config, old(s.View()), e) == Err(r.error)
    {
      if e.sourceEventId !in s.expectedCash {
        return Fail(EventLink);
      }
      var expected := s.expectedCash[e.sourceEventId];
      if e.accountId != setup.config.accountId || e.currency != setup.config.currency {
        return Fail(LedgerInvariant);
      }
      if e.head.time < expected.sourceTime || e.head.day != expected.day {
        return Fail(EventLink);
      }
      if e.direction != expected.direction || e.amount != expected.amount
         || e.balanceAfter != expected.balanceAfter || e.balanceAfter != s.cash {
        return Fail(LedgerInvariant);
      }
      s.expectedCash := s.expectedCash - {e.sourceEventId};
      return Pass;
    }

    method PositionStaged(s: EngineState, e: PositionEvent) returns (r: Outcome)
      modifies s
      ensures r.Pass? ==> AttestPosition(old(s.View()), e) == Ok(s.View())
      ensures r.Fail? ==> AttestPosition(old(s.View()), e) == Err(r.error)
    {
      hide ProRata, SellableTotal;
      if e.sourceEventId !in s.expectedPositions {
        return Fail(EventLink);
      }
      var expected := s.expectedPositions[e.sourceEventId];
      if e.head.time < expected.sourceTime || e.head.day != expected.day {
        return Fail(EventLink);
      }
      var current := if e.key in s.positions then SnapshotOf(e.key, s.positions[e.key], e.head.day)
        else PositionSnapshot(e.key, 0.0, 0.0, 0.0);
      var actual := PositionSnapshot(e.key, e.quantity, e.sellableQuantity, e.averageCost);
      if actual != expected.snapshot || actual != current {
        return Fail(LedgerInvariant);
      }
      s.expectedPositions := s.expectedPositions - {e.sourceEventId};
      return Pass;
    }

    method DispatchStaged(s: EngineState, e: Event) returns (r: Outcome)
      requires ValidSetup(setup)
      modifies s
      ensures r.Pass? ==> Dispatch(setup, old(s.View()), e) == Ok(s.View())
      ensures r.Fail? ==> Dispatch(setup, old(s.View()), e) == Err(r.error)
    {
      hide ApplyTarget, ApplyOrder, ApplyFill, ApplyFee, AttestCash, AttestPosition;
      match e {
        case TargetEv(x) => r := TargetStaged(s, x);
        case OrderEv(x) => r := OrderStaged(s, x);
        case FillEv(x) => r := FillStaged(s, x);
        case FeeEv(x) => r := FeeStaged(s, x);
        case CashEv(x) => r := CashStaged(s, x);
        case PositionEv(x) => r := PositionStaged(s, x);
        case SignalEv(_) => r := Fail(Unsupported);
      }
    }

    method EventStaged(s: EngineState, e: Event) returns (r: Outcome)
      requires ValidSetup(setup)
      modifies s
      ensures r.Pass? ==> ApplyEvent(setup, old(s.View()), e) == Ok(s.View())
      ensures r.Fail? ==> ApplyEvent(setup, old(s.View()), e) == Err(r.error)
    {
      hide Dispatch, ValidEvent;
      if !ValidEvent(e) {
        return Fail(InvalidEvent);
      }
      var h := e.Head();
      if h.runId != setup.config.runId || h.eventId in s.eventIds || h.sequence <= s.lastSequence
         || (s.lastTime.Some? && h.time < s.lastTime.value) {
        return Fail(EventOrder);
      }
      r := DispatchStaged(s, e);
      if r.Fail? {
        return;
      }
      s.eventIds := s.eventIds + {h.eventId};
      s.events := s.events + [e];
      s.lastSequence := h.sequence;
      s.lastTime := Some(h.time);
      s.lastDay := Some(h.day);
    }

    method EventsStaged(s: EngineState, es: seq<Event>) returns (r: Outcome)
      requires ValidSetup(setup)
      modifies s
      ensures r.Pass? ==> ApplyAll(setup, old(s.View()), es) == Ok(s.View())
      ensures r.Fail? ==> ApplyAll(setup, old(s.View()), es) == Err(r.error)
    {
      hide ApplyEvent;
      var i := 0;
      while i < |es|
        invariant 0 <= i <= |es|
        invariant ApplyAll(setup, old(s.View()), es) == ApplyAll(setup, s.View(), es[i..])
      {
        assert es[i..][1..] == es[i + 1..];
        r := EventStaged(s, es[i]);
        if r.Fail? {
          return;
        }
        i := i + 1;
      }
      return Pass;
    }

    // -------------------------------------------------------------- results

    /** Building a result re-validates the committed stream; in every state the engine can be in that check passes. */
    method Snapshot(s: EngineState) returns (r: Result<BacktestResult>)
      requires ValidSetup(setup) && Inv(setup, s.View())
      ensures r == Ok(ResultOf(s.View()))
    {
      ghost var v := s.View();
      assert ValidStream(s.events) by {
        if s.events != [] {
          assert Replayed(setup.config.runId, s.events).Some?;
          ValidStreamMeaning(setup.config.runId, s.events);
        }
      }
      hide Inv;
      var checked := ValidateReplayStream(s.events);
      if checked.Fail? {
        return Err(ReplayRejected);
      }
      var day := if s.lastDay.Some? then s.lastDay.value else DATE_MIN;
      var positions := map k | k in s.positions && s.positions[k].quantity != 0.0 :: SnapshotOf(k, s.positions[k], day);
      var orders := map id | id in s.orders :: SnapshotOrder(s.orders[id]);
      return Ok(BacktestResult(s.cash, positions, orders, s.events));
    }

    method CheckComplete(s: EngineState, required: Option<bool>) returns (r: Outcome)
      ensures r == EnsureComplete(setup, s.View(), required)
    {
      var needed := if required.None? then setup.config.requireLedgerEvents else required.value;
      if needed && (s.expectedCash != map[] || s.expectedPositions != map[]) {
        return Fail(LedgerInvariant);
      }
      if setup.feeBook.Some? && required != Some(false) {
        var outstanding := AnyUncharged(s.fills);
        if outstanding {
          return Fail(LedgerInvariant);
        }
      }
      return Pass;
    }

    // -------------------------------------------------------------- the public, atomic operations

    /** Commit one event entirely, or refuse it and leave the engine exactly as it was. */
    method Process(e: Event) returns (r: Result<BacktestResult>)
      requires Valid()
      modifies this
      ensures Valid()
      ensures match ApplyEvent(setup, old(state.View()), e)
        case Ok(t) => r == Ok(ResultOf(t)) && state.View() == t && fresh(state)
        case Err(x) => r == Err(x) && state == old(state) && state.View() == old(state.View())
    {
      hide ApplyEvent, Inv;
      var staged := new EngineState.Copy(state);
      var applied := EventStaged(staged, e);
      if applied.Fail? {
        return Err(applied.error);
      }
      StepKeepsInv(setup, state.View(), e, staged.View());
      r := Snapshot(staged);
      if r.Err? {
        return;
      }
      state := staged;
    }

    /** Commit a whole batch, or none of it. */
    method ProcessAll(es: seq<Event>) returns (r: Result<BacktestResult>)
      requires Valid()
      modifies this
      ensures Valid()
      ensures match ApplyAll(setup, old(state.View()), es)
        case Ok(t) => r == Ok(ResultOf(t)) && state.View() == t && fresh(state)
        case Err(x) => r == Err(x) && state == old(state) && state.View() == old(state.View())
    {
      hide ApplyAll, Inv;
      var staged := new EngineState.Copy(state);
      var applied := EventsStaged(staged, es);
      if applied.Fail? {
        return Err(applied.error);
      }
      ApplyAllKeepsInv(setup, state.View(), es, staged.View());
      r := Snapshot(staged);
      if r.Err? {
        return;
      }
      state := staged;
    }

    /** Commit a batch only if the replay it completes has every attestation and fee it requires. */
    method Run(es: seq<Event>, required: Option<bool>) returns (r: Result<BacktestResult>)
      requires Valid()
      modifies this
      ensures Valid()
      ensures match ApplyAll(setup, old(state.View()), es)
        case Err(x) => r == Err(x) && state == old(state) && state.View() == old(state.View())
        case Ok(t) =>
          if EnsureComplete(setup, t, required).Pass?
          then r == Ok(ResultOf(t)) && state.View() == t && fresh(state)
          else r == Err(LedgerInvariant) && state == old(state) && state.View() == old(state.View())
    {
      hide ApplyAll, Inv;
      var staged := new EngineState.Copy(state);
      var applied := EventsStaged(staged, es);
      if applied.Fail? {
        return Err(applied.error);
      }
      var complete := CheckComplete(staged, required);
      if complete.Fail? {
        return Err(complete.error);
      }
      ApplyAllKeepsInv(setup, state.View(), es, staged.View());
      r := Snapshot(staged);
      if r.Err? {
        return;
      }
      state := staged;
    }

    /** Snapshot the committed state, refusing one whose replay is incomplete. */
    method Result(required: Option<bool>) returns (r: Result<BacktestResult>)
      requires Valid()
      ensures r == if EnsureComplete(setup, state.View(), required).Pass?
        then Ok(ResultOf(state.View())) else Err(LedgerInvariant)
    {
      hide Inv;
      var complete := CheckComplete(state, required);
      if complete.Fail? {
        return Err(complete.error);
      }
      r := Snapshot(state);
    }

    /** A whole replay into an engine that has committed nothing yet. */
    method Replay(es: seq<Event>) returns (r: Result<BacktestResult>)
      requires Valid()
      modifies this
      ensures Valid()
      ensures old(state.events) != [] ==>
        r == Err(Unsupported) && state == old(state) && state.View() == old(state.View())
      ensures old(state.events) == [] ==> match ApplyAll(setup, old(state.View()), es)
        case Err(x) => r == Err(x) && state == old(state) && state.View() == old(state.View())
        case Ok(t) =>
          if EnsureComplete(setup, t, None).Pass?
          then r == Ok(ResultOf(t)) && state.View() == t && fresh(state)
          else r == Err(LedgerInvariant) && state == old(state) && state.View() == old(state.View())
    {
      hide ApplyAll, Inv;
      if state.events != [] {
        return Err(Unsupported);
      }
      r := Run(es, None);
    }
  }

  lemma CashLeavesLedgers(c: Config, s: State, delta: real, source: Header, t: State)
    requires MoveCash(c, s, delta, source) == Ok(t)
    ensures t.positions == s.positions
  {
  }

  /** Splitting a batch: two successive commits end exactly where one commit of the concatenation ends. */
  method ProcessInTwo(engine: EventDrivenBacktestEngine, xs: seq<Event>,
      ys: seq<Event>) returns (r: Result<BacktestResult>)
    requires engine.Valid()
    modifies engine
    ensures engine.Valid()
    ensures match ApplyAll(engine.setup, old(engine.state.View()), xs + ys)
      case Ok(t) => r == Ok(ResultOf(t)) && engine.state.View() == t
      case Err(x) => r == Err(x)
  {
    hide ApplyAll;
    ApplyAllConcat(engine.setup, engine.state.View(), xs, ys);
    r := engine.ProcessAll(xs);
    if r.Ok? {
      r := engine.ProcessAll(ys);
    }
  }
}
