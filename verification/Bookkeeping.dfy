/** The inductive invariant of the event engine: ledgers, cash, orders and fills agree in every reachable state. */
module Bookkeeping {
  import opened Outcomes
  import opened Sums
  import opened Contracts
  import opened FeeRules
  import opened EngineModel
  import opened Lots

  // ---------------------------------------------------------------- what one fill contributes

  ghost function AppliedWeight(orderId: Id): FillRecord -> real {
    (r: FillRecord) => if r.applied && r.created.orderId == orderId then r.created.quantity else 0.0
  }

  function SignedQuantity(f: FillEvent): real {
    if f.side == Buy then f.quantity else -f.quantity
  }

  ghost function NetWeight(k: Key): FillRecord -> real {
    (r: FillRecord) => if r.applied && r.created.key == k then SignedQuantity(r.created) else 0.0
  }

  function FeePaid(r: FillRecord): real {
    if r.fee.Some? then r.fee.value.total else 0.0
  }

  ghost function CashWeight(): FillRecord -> real {
    (r: FillRecord) => if r.applied then CashDelta(r.created) - FeePaid(r) else 0.0
  }

  // ---------------------------------------------------------------- invariant

  ghost predicate LedgersOk(c: Config, cash: real, positions: map<Key, PositionLedger>) {
    && (forall k :: k in positions ==> WellFormed(positions[k]))
    && (forall k :: k in positions && positions[k].quantity < 0.0 ==> c.allowShortSales)
    && (cash < 0.0 ==> c.allowNegativeCash)
  }

  ghost predicate QuantitiesOk(c: Config, positions: map<Key, PositionLedger>, fills: map<Id, FillRecord>) {
    forall k: Key {:trigger Held(positions, k)} ::
      Held(positions, k) == Held(OpeningPositions(c.positions), k) + Total(fills, NetWeight(k))
  }

  ghost predicate CashOk(c: Config, cash: real, fills: map<Id, FillRecord>) {
    cash == c.initialCash + Total(fills, CashWeight())
  }

  predicate FillOk(orders: map<Id, OrderRecord>, id: Id, r: FillRecord) {
    && r.created.fillId == id && r.created.status == FillCreated && ValidFill(r.created)
    && r.created.orderId in orders
    && ValidateFillOrder(r.created, orders[r.created.orderId].created) == Pass
    && (r.applied <==> r.latest.status in {Confirmed, Settled})
    && r.latest.status != Reversed
    && (r.applied ==> r.quantityAfter.Some? && r.costAfter.Some?)
    && (!r.applied ==> r.fee.None?)
    && 0.0 <= r.openedLong <= r.created.quantity
    && (r.fee.Some? ==>
      0.0 <= r.fee.value.total && r.fee.value.key == r.created.key && r.fee.value.side == r.created.side)
    && (r.applied && 0.0 < r.openedLong ==> r.created.side == Buy && 0.0 < r.quantityAfter.value)
  }

  ghost predicate FillsOk(orders: map<Id, OrderRecord>, fills: map<Id, FillRecord>) {
    forall id :: id in fills ==> FillOk(orders, id, fills[id])
  }

  ghost predicate OrderOk(fills: map<Id, FillRecord>, id: Id, r: OrderRecord) {
    && r.created.orderId == id && ValidOrder(r.created) && ValidOrder(r.latest)
    && r.latest.quantity == r.created.quantity
    && r.confirmedQuantity == Total(fills, AppliedWeight(id))
    && r.latest.filledQuantity <= r.confirmedQuantity
    && ActiveQuantity(fills, id) <= r.created.quantity
    && (r.latest.status in {OrderCreated, Submitted, Rejected} ==> ActiveQuantity(fills, id) == 0.0)
    && (OrderTerminal(r.latest.status) ==>
          PendingQuantity(fills, id) == 0.0 && r.latest.filledQuantity == r.confirmedQuantity)
  }

  ghost predicate OrdersOk(orders: map<Id, OrderRecord>, fills: map<Id, FillRecord>) {
    forall id :: id in orders ==> OrderOk(fills, id, orders[id])
  }

  ghost predicate BooksOk(c: Config, s: State) {
    && LedgersOk(c, s.cash, s.positions)
    && QuantitiesOk(c, s.positions, s.fills)
    && CashOk(c, s.cash, s.fills)
    && FillsOk(s.orders, s.fills)
    && OrdersOk(s.orders, s.fills)
  }

  // ---------------------------------------------------------------- initial state

  lemma {:induction false} OpeningPositionsOk(c: Config, ps: seq<InitialPosition>)
    requires forall i :: 0 <= i < |ps| ==> ValidPositionInput(ps[i])
    requires forall i :: 0 <= i < |ps| && ps[i].quantity < 0.0 ==> c.allowShortSales
    ensures forall k :: k in OpeningPositions(ps) ==> WellFormed(OpeningPositions(ps)[k])
    ensures forall k :: k in OpeningPositions(ps) && OpeningPositions(ps)[k].quantity < 0.0 ==> c.allowShortSales
  {
    if ps != [] {
      OpeningPositionsOk(c, ps[..|ps| - 1]);
      OpeningWellFormed(ps[|ps| - 1]);
    }
  }

  lemma InitialBooks(c: Config)
    requires ValidConfig(c)
    ensures BooksOk(c, InitialState(c))
  {
    OpeningPositionsOk(c, c.positions);
  }

  // ---------------------------------------------------------------- per-order totals

  /** Applied, pending and active quantities of an order: active = applied + pending, and none is negative. */
  lemma ActiveSplits(orders: map<Id, OrderRecord>, fills: map<Id, FillRecord>, id: Id)
    requires FillsOk(orders, fills)
    ensures ActiveQuantity(fills, id) == Total(fills, AppliedWeight(id)) + PendingQuantity(fills, id)
    ensures 0.0 <= Total(fills, AppliedWeight(id)) && 0.0 <= PendingQuantity(fills, id)
    ensures forall f :: f in fills && fills[f].created.orderId == id && fills[f].latest.status == FillCreated ==>
      fills[f].created.quantity <= PendingQuantity(fills, id)
  {
    TotalAdd(fills, ActiveWeight(id), AppliedWeight(id), PendingWeight(id));
    TotalNonNegative(fills, AppliedWeight(id));
    TotalNonNegative(fills, PendingWeight(id));
    forall f | f in fills && fills[f].created.orderId == id && fills[f].latest.status == FillCreated
      ensures fills[f].created.quantity <= PendingQuantity(fills, id)
    {
      assert PendingWeight(id)(fills[f]) == fills[f].created.quantity;
    }
  }

  /**
   * A pending fill that reaches confirmation always finds its order open and large enough, so the guards
   * "applied only once", "unknown order", "requires an accepted order" and "exceed the order quantity" are dead.
   */
  lemma PendingFillConfirmable(orders: map<Id, OrderRecord>, fills: map<Id, FillRecord>, id: Id)
    requires FillsOk(orders, fills) && OrdersOk(orders, fills)
    requires id in fills && fills[id].latest.status == FillCreated
    ensures !fills[id].applied && fills[id].created.orderId in orders
    ensures var o := orders[fills[id].created.orderId];
      OpenForFills(o.latest.status) && o.confirmedQuantity + fills[id].created.quantity <= o.created.quantity
  {
    var oid := fills[id].created.orderId;
    assert FillOk(orders, id, fills[id]);
    assert OrderOk(fills, oid, orders[oid]);
    ActiveSplits(orders, fills, oid);
  }

  // ---------------------------------------------------------------- orders

  lemma NoFillsForUnknownOrder(orders: map<Id, OrderRecord>, fills: map<Id, FillRecord>, id: Id)
    requires FillsOk(orders, fills) && id !in orders
    ensures Total(fills, AppliedWeight(id)) == 0.0
    ensures ActiveQuantity(fills, id) == 0.0 && PendingQuantity(fills, id) == 0.0
  {
    forall f | f in fills ensures fills[f].created.orderId != id {
      assert FillOk(orders, f, fills[f]);
    }
    TotalZero(fills, AppliedWeight(id));
    TotalZero(fills, ActiveWeight(id));
    TotalZero(fills, PendingWeight(id));
  }

  lemma OrdersExtended(orders: map<Id, OrderRecord>, fills: map<Id, FillRecord>, id: Id, r: OrderRecord)
    requires FillsOk(orders, fills)
    requires id in orders ==> r.created == orders[id].created
    ensures FillsOk(orders[id := r], fills)
  {
    hide ValidFill, ValidateFillOrder;
    forall f | f in fills ensures FillOk(orders[id := r], f, fills[f]) {
      assert FillOk(orders, f, fills[f]);
    }
  }

  /** Replacing one order record keeps the books when the new record is in order and no instruction changes. */
  lemma PutOrder(orders: map<Id, OrderRecord>, fills: map<Id, FillRecord>, id: Id, r: OrderRecord)
    requires FillsOk(orders, fills) && OrdersOk(orders, fills)
    requires OrderOk(fills, id, r)
    requires id in orders ==> r.created == orders[id].created
    ensures FillsOk(orders[id := r], fills) && OrdersOk(orders[id := r], fills)
  {
    hide ValidFill, ValidOrder, FillOk, OrderOk;
    OrdersExtended(orders, fills, id, r);
    var after := orders[id := r];
    forall o | o in after ensures OrderOk(fills, o, after[o]) {
      assert o != id ==> OrderOk(fills, o, orders[o]);
    }
  }

  lemma CreatedOrderOk(su: Setup, s: State, e: OrderEvent, t: State)
    requires BooksOk(su.config, s) && ValidOrder(e) && e.orderId !in s.orders && CreateOrder(su, s, e) == Ok(t)
    ensures t == s.(orders := s.orders[e.orderId := OrderRecord(e, e, 0.0)])
    ensures BooksOk(su.config, t)
  {
    hide FillOk;
    NoFillsForUnknownOrder(s.orders, s.fills, e.orderId);
    PutOrder(s.orders, s.fills, e.orderId, OrderRecord(e, e, 0.0));
  }

  /** Any accepted lifecycle transition leaves the order record in order. */
  lemma AdvancedRecordOk(orders: map<Id, OrderRecord>, fills: map<Id, FillRecord>, r: OrderRecord, e: OrderEvent)
    requires FillsOk(orders, fills) && OrderOk(fills, e.orderId, r) && ValidOrder(e)
    requires e.previous == Some(r.latest.status) && e.quantity == r.created.quantity
    requires e.status in {PartiallyFilled, Filled, OrderCanceled} ==> e.filledQuantity == r.confirmedQuantity
    requires e.status == OrderCanceled ==> PendingQuantity(fills, e.orderId) == 0.0
    ensures OrderOk(fills, e.orderId, r.(latest := e))
  {
    hide FillOk;
    ActiveSplits(orders, fills, e.orderId);
  }

  lemma AdvancedOrderOk(su: Setup, s: State, e: OrderEvent, t: State)
    requires BooksOk(su.config, s) && ValidOrder(e) && e.orderId in s.orders && ApplyOrder(su, s, e) == Ok(t)
    ensures t == s.(orders := s.orders[e.orderId := s.orders[e.orderId].(latest := e)])
    ensures BooksOk(su.config, t)
  {
    hide FillOk, OrderOk, ValidOrder;
    var r := s.orders[e.orderId];
    assert InstructionOf(e).quantity == InstructionOf(r.created).quantity;
    AdvancedRecordOk(s.orders, s.fills, r, e);
    PutOrder(s.orders, s.fills, e.orderId, r.(latest := e));
  }

  // ---------------------------------------------------------------- fills

  /** How one fill record change moves every total of its own order. */
  lemma PutFillTotals(fills: map<Id, FillRecord>, id: Id, r: FillRecord, orderId: Id)
    ensures var after := fills[id := r];
      && ActiveQuantity(after, orderId) == ActiveQuantity(fills, orderId) + ActiveWeight(orderId)(r)
           - (if id in fills then ActiveWeight(orderId)(fills[id]) else 0.0)
      && PendingQuantity(after, orderId) == PendingQuantity(fills, orderId) + PendingWeight(orderId)(r)
           - (if id in fills then PendingWeight(orderId)(fills[id]) else 0.0)
      && Total(after, AppliedWeight(orderId)) == Total(fills, AppliedWeight(orderId)) + AppliedWeight(orderId)(r)
           - (if id in fills then AppliedWeight(orderId)(fills[id]) else 0.0)
  {
    TotalPut(fills, ActiveWeight(orderId), id, r);
    TotalPut(fills, PendingWeight(orderId), id, r);
    TotalPut(fills, AppliedWeight(orderId), id, r);
  }

  /** A record change that leaves an order's fill status alone leaves that order's books alone. */
  lemma PutFillOtherOrder(fills: map<Id, FillRecord>, id: Id, r: FillRecord, orderId: Id, o: OrderRecord)
    requires OrderOk(fills, orderId, o)
    requires r.created.orderId != orderId
    requires id in fills ==> fills[id].created.orderId != orderId
    ensures OrderOk(fills[id := r], orderId, o)
  {
    PutFillTotals(fills, id, r, orderId);
  }

  lemma FillsExtended(orders: map<Id, OrderRecord>, fills: map<Id, FillRecord>, id: Id, r: FillRecord)
    requires FillsOk(orders, fills) && FillOk(orders, id, r)
    ensures FillsOk(orders, fills[id := r])
  {
    hide FillOk;
  }

  /** Put one fill record and the record of its order: everything else stays in order. */
  lemma PutFill(orders: map<Id, OrderRecord>, fills: map<Id, FillRecord>, id: Id, r: FillRecord, o: OrderRecord)
    requires FillsOk(orders, fills) && OrdersOk(orders, fills)
    requires r.created.orderId in orders && o.created == orders[r.created.orderId].created
    requires id in fills ==> fills[id].created == r.created
    requires FillOk(orders, id, r)
    requires OrderOk(fills[id := r], r.created.orderId, o)
    ensures FillsOk(orders[r.created.orderId := o], fills[id := r])
    ensures OrdersOk(orders[r.created.orderId := o], fills[id := r])
  {
    hide FillOk, OrderOk;
    var oid := r.created.orderId;
    var orders', fills' := orders[oid := o], fills[id := r];
    FillsExtended(orders, fills, id, r);
    OrdersExtended(orders, fills', oid, o);
    forall k | k in orders' ensures OrderOk(fills', k, orders'[k]) {
      if k != oid {
        assert OrderOk(fills, k, orders[k]);
        PutFillOtherOrder(fills, id, r, k, orders[k]);
      }
    }
  }

  /** A record change without economic effect leaves every money total alone. */
  lemma PutFillQuiet(c: Config, s: State, id: Id, r: FillRecord)
    requires QuantitiesOk(c, s.positions, s.fills) && CashOk(c, s.cash, s.fills)
    requires if id in s.fills
      then r.applied == s.fills[id].applied && r.created == s.fills[id].created && r.fee == s.fills[id].fee
      else !r.applied
    ensures QuantitiesOk(c, s.positions, s.fills[id := r]) && CashOk(c, s.cash, s.fills[id := r])
  {
    TotalPut(s.fills, CashWeight(), id, r);
    forall k: Key
      ensures Held(s.positions, k) == Held(OpeningPositions(c.positions), k) + Total(s.fills[id := r], NetWeight(k))
    {
      TotalPut(s.fills, NetWeight(k), id, r);
    }
  }

  lemma CreatedFillOk(c: Config, s: State, e: FillEvent, t: State)
    requires BooksOk(c, s) && ValidFill(e) && e.fillId !in s.fills && CreateFill(s, e) == Ok(t)
    ensures t == s.(fills := s.fills[e.fillId := FillRecord(e, e, false, 0.0, None, None, None)])
    ensures BooksOk(c, t)
  {
    hide ValidOrder, LedgersOk;
    var r := FillRecord(e, e, false, 0.0, None, None, None);
    var o := s.orders[e.orderId];
    PutFillQuiet(c, s, e.fillId, r);
    assert OrderOk(s.fills, e.orderId, o);
    PutFillTotals(s.fills, e.fillId, r, e.orderId);
    PutFill(s.orders, s.fills, e.fillId, r, o);
    assert s.orders[e.orderId := o] == s.orders;
  }

  /** Settling or cancelling a fill moves its order's totals consistently; a cancelled fill's order is still open. */
  lemma AdvancedFillOrder(orders: map<Id, OrderRecord>, fills: map<Id, FillRecord>, id: Id, r: FillRecord)
    requires FillsOk(orders, fills) && OrdersOk(orders, fills) && id in fills
    requires r == fills[id].(latest := r.latest)
    requires r.latest.status == fills[id].latest.status
      || (fills[id].latest.status == FillCreated && r.latest.status == FillCanceled)
      || (fills[id].latest.status == Confirmed && r.latest.status == Settled)
    ensures r.created.orderId in orders
    ensures OrderOk(fills[id := r], r.created.orderId, orders[r.created.orderId])
  {
    hide ValidOrder, ValidFill, ValidateFillOrder;
    assert FillOk(orders, id, fills[id]);
    var oid := r.created.orderId;
    assert OrderOk(fills, oid, orders[oid]);
    PutFillTotals(fills, id, r, oid);
    if r.latest.status == FillCanceled && fills[id].latest.status == FillCreated {
      PendingFillConfirmable(orders, fills, id);
    }
  }

  lemma AdvancedFillOk(c: Config, s: State, e: FillEvent)
    requires BooksOk(c, s) && ValidFill(e) && e.fillId in s.fills
    requires e.previous == Some(s.fills[e.fillId].latest.status) && e.status !in {Confirmed, Reversed}
    ensures BooksOk(c, s.(fills := s.fills[e.fillId := s.fills[e.fillId].(latest := e)]))
  {
    hide ValidOrder, LedgersOk, OrderOk, ValidateFillOrder;
    var r := s.fills[e.fillId];
    var after := r.(latest := e);
    assert FillOk(s.orders, e.fillId, r);
    PutFillQuiet(c, s, e.fillId, after);
    AdvancedFillOrder(s.orders, s.fills, e.fillId, after);
    PutFill(s.orders, s.fills, e.fillId, after, s.orders[r.created.orderId]);
    assert s.orders[r.created.orderId := s.orders[r.created.orderId]] == s.orders;
  }

  // ---------------------------------------------------------------- trades

  /** A trade keeps the ledger well formed and moves its quantity by exactly the fill. */
  lemma LedgerEffect(su: Setup, ledger: PositionLedger, f: FillEvent)
    requires WellFormed(ledger) && ValidFill(f)
    ensures var r := Trade(su, ledger, f);
      r.Ok? ==>
        && WellFormed(r.value.ledger)
        && r.value.ledger.quantity == ledger.quantity + SignedQuantity(f)
        && 0.0 <= r.value.openedLong <= f.quantity
        && (0.0 < r.value.openedLong ==> f.side == Buy && 0.0 < r.value.ledger.quantity)
        && (r.value.ledger.quantity < 0.0 ==> ledger.quantity < 0.0 || su.config.allowShortSales)
  {
    if f.side == Buy {
      BuyEffect(su, ledger, f);
    } else {
      SellEffect(su.config, ledger, f);
    }
    hide WellFormed, ApplyBuy, ApplySell;
  }

  lemma MoveCashShape(c: Config, s: State, delta: real, source: Header, t: State)
    requires MoveCash(c, s, delta, source) == Ok(t) && delta != 0.0
    ensures source.eventId !in s.expectedCash
    ensures 0.0 <= s.cash + delta || c.allowNegativeCash
    ensures t == s.(cash := s.cash + delta, expectedCash := s.expectedCash[source.eventId :=
      ExpectedCash(source.time, source.day, if delta > 0.0 then Credit else Debit, Abs(delta), s.cash + delta)])
  {
  }

  lemma ExpectPositionShape(s: State, source: Header, k: Key, ledger: PositionLedger, t: State)
    requires ExpectPosition(s, source, k, ledger) == Ok(t)
    ensures source.eventId !in s.expectedPositions
    ensures t == s.(expectedPositions := t.expectedPositions)
    ensures t.expectedPositions.Keys == s.expectedPositions.Keys + {source.eventId}
  {
    hide SnapshotOf;
  }

  /** One trade moves cash and one position by exactly the fill, and expects one attestation of each. */
  lemma TradeShape(su: Setup, s: State, f: FillEvent, source: FillEvent, r: Traded)
    requires ValidFill(f) && ApplyTrade(su, s, f, source) == Ok(r)
    ensures var id := source.head.eventId;
      && id !in s.expectedCash && id !in s.expectedPositions
      && r.state.cash == s.cash + CashDelta(f)
      && (r.state.cash < 0.0 ==> su.config.allowNegativeCash)
      && r.state.expectedCash == s.expectedCash[id := ExpectedCash(source.head.time, source.head.day,
           if f.side == Sell then Credit else Debit, f.grossAmount, r.state.cash)]
      && r.state.expectedPositions.Keys == s.expectedPositions.Keys + {id}
      && f.key in r.state.positions
      && r.state.positions == s.positions[f.key := r.state.positions[f.key]]
      && r.state == s.(cash := r.state.cash, expectedCash := r.state.expectedCash,
           positions := r.state.positions, expectedPositions := r.state.expectedPositions)
      && Trade(su, LedgerAt(s, f.key), f) == Ok(Bought(r.state.positions[f.key], r.openedLong))
  {
    hide Trade, MoveCash, ExpectPosition;
    assert 0.0 < f.grossAmount;
    hide ValidFill;
    var moved := MoveCash(su.config, s, CashDelta(f), source.head).value;
    MoveCashShape(su.config, s, CashDelta(f), source.head, moved);
    var ledger := Trade(su, LedgerAt(s, f.key), f).value.ledger;
    ExpectPositionShape(moved.(positions := moved.positions[f.key := ledger]), source.head, f.key, ledger, r.state);
  }

  lemma TradeKeepsLedgers(su: Setup, s: State, f: FillEvent, source: FillEvent, r: Traded)
    requires LedgersOk(su.config, s.cash, s.positions) && ValidFill(f)
    requires ApplyTrade(su, s, f, source) == Ok(r)
    ensures LedgersOk(su.config, r.state.cash, r.state.positions)
    ensures Held(r.state.positions, f.key) == Held(s.positions, f.key) + SignedQuantity(f)
    ensures 0.0 <= r.openedLong <= f.quantity
    ensures 0.0 < r.openedLong ==> f.side == Buy && 0.0 < Held(r.state.positions, f.key)
  {
    TradeShape(su, s, f, source, r);
    assert WellFormed(LedgerAt(s, f.key));
    LedgerEffect(su, LedgerAt(s, f.key), f);
    hide WellFormed, Trade, ApplyTrade, ValidFill;
  }

  // ---------------------------------------------------------------- confirmation

  function ConfirmedRecord(r: FillRecord, e: FillEvent, openedLong: real, ledger: PositionLedger): FillRecord {
    r.(applied := true, openedLong := openedLong, quantityAfter := Some(ledger.quantity),
       costAfter := Some(ledger.costBasis), latest := e)
  }

  /** The complete state after a confirmation, in terms of the trade it applies. */
  lemma ConfirmShape(su: Setup, s: State, e: FillEvent, t: State) returns (traded: Traded)
    requires FillsOk(s.orders, s.fills) && e.fillId in s.fills && ValidFill(e)
    requires ExecutionOf(e) == ExecutionOf(s.fills[e.fillId].created)
    requires ConfirmFill(su, s, s.fills[e.fillId], e) == Ok(t)
    ensures ApplyTrade(su, s, s.fills[e.fillId].created, e) == Ok(traded)
    ensures e.key in traded.state.positions && e.orderId in s.orders && !s.fills[e.fillId].applied
    ensures OpenForFills(s.orders[e.orderId].latest.status)
    ensures s.orders[e.orderId].confirmedQuantity + e.quantity <= s.orders[e.orderId].created.quantity
    ensures su.feeBook.Some? ==> !HasUncharged(s.fills)
    ensures t == traded.state.(
      fills := s.fills[e.fillId :=
        ConfirmedRecord(s.fills[e.fillId], e, traded.openedLong, traded.state.positions[e.key])],
      orders := s.orders[e.orderId :=
        s.orders[e.orderId].(confirmedQuantity := s.orders[e.orderId].confirmedQuantity + e.quantity)])
  {
    hide ValidFill, ValidateFillOrder;
    var r := s.fills[e.fillId];
    assert FillOk(s.orders, e.fillId, r);
    assert e.key == r.created.key by { assert ExecutionOf(e).key == ExecutionOf(r.created).key; }
    traded := ApplyTrade(su, s, r.created, e).value;
    TradeShape(su, s, r.created, e, traded);
    hide ApplyTrade, Trade;
  }

  /** Confirming a pending fill moves its quantity from pending to applied, in the fill and in its order. */
  lemma ConfirmOrder(orders: map<Id, OrderRecord>, fills: map<Id, FillRecord>, id: Id, r: FillRecord)
    requires FillsOk(orders, fills) && OrdersOk(orders, fills) && id in fills
    requires fills[id].latest.status == FillCreated && r.latest.status == Confirmed
    requires r.applied && r.created == fills[id].created
    ensures r.created.orderId in orders
    ensures var o := orders[r.created.orderId];
      OrderOk(fills[id := r], r.created.orderId, o.(confirmedQuantity := o.confirmedQuantity + r.created.quantity))
  {
    hide ValidOrder, ValidateFillOrder;
    assert FillOk(orders, id, fills[id]);
    var oid := r.created.orderId;
    assert OrderOk(fills, oid, orders[oid]);
    ActiveSplits(orders, fills, oid);
    PutFillTotals(fills, id, r, oid);
    PendingFillConfirmable(orders, fills, id);
  }

  /** Cash and the traded position move by exactly what the newly applied fill now contributes to the totals. */
  lemma ConfirmMoney(c: Config, s: State, t: State, id: Id, r: FillRecord)
    requires QuantitiesOk(c, s.positions, s.fills) && CashOk(c, s.cash, s.fills)
    requires id in s.fills && !s.fills[id].applied && r.applied && r.fee.None? && t.fills == s.fills[id := r]
    requires t.cash == s.cash + CashDelta(r.created)
    requires r.created.key in t.positions && t.positions == s.positions[r.created.key := t.positions[r.created.key]]
    requires Held(t.positions, r.created.key) == Held(s.positions, r.created.key) + SignedQuantity(r.created)
    ensures QuantitiesOk(c, t.positions, t.fills) && CashOk(c, t.cash, t.fills)
  {
    TotalPut(s.fills, CashWeight(), id, r);
    forall k: Key
      ensures Held(t.positions, k) == Held(OpeningPositions(c.positions), k) + Total(t.fills, NetWeight(k))
    {
      TotalPut(s.fills, NetWeight(k), id, r);
      assert Held(s.positions, k) == Held(OpeningPositions(c.positions), k) + Total(s.fills, NetWeight(k));
    }
  }

  lemma ConfirmedRecordOk(orders: map<Id, OrderRecord>, id: Id, r: FillRecord, e: FillEvent, openedLong: real,
      ledger: PositionLedger)
    requires FillOk(orders, id, r) && !r.applied && e.status == Confirmed
    requires 0.0 <= openedLong <= r.created.quantity
    requires 0.0 < openedLong ==> r.created.side == Buy && 0.0 < ledger.quantity
    ensures FillOk(orders, id, ConfirmedRecord(r, e, openedLong, ledger))
  {
    hide ValidFill, ValidateFillOrder;
  }

  /** What a replayed instruction pins down: the event agrees with the record it advances. */
  lemma PendingFacts(orders: map<Id, OrderRecord>, fills: map<Id, FillRecord>, e: FillEvent)
    requires FillsOk(orders, fills) && e.fillId in fills && ValidFill(e) && e.status == Confirmed
    requires e.previous == Some(fills[e.fillId].latest.status)
    requires ExecutionOf(e) == ExecutionOf(fills[e.fillId].created)
    ensures var r := fills[e.fillId];
      && e.orderId == r.created.orderId && e.key == r.created.key && e.quantity == r.created.quantity
      && ValidFill(r.created) && r.latest.status == FillCreated && !r.applied && r.fee.None?
      && FillOk(orders, e.fillId, r)
  {
    assert FillOk(orders, e.fillId, fills[e.fillId]);
    assert ExecutionOf(e).orderId == ExecutionOf(fills[e.fillId].created).orderId;
  }

  lemma ConfirmedFillOk(su: Setup, s: State, e: FillEvent, t: State)
    requires BooksOk(su.config, s) && ValidFill(e) && e.fillId in s.fills && e.status == Confirmed
    requires e.previous == Some(s.fills[e.fillId].latest.status)
    requires ExecutionOf(e) == ExecutionOf(s.fills[e.fillId].created)
    requires ConfirmFill(su, s, s.fills[e.fillId], e) == Ok(t)
    ensures BooksOk(su.config, t)
  {
    hide ValidOrder, ValidFill, ValidateFillOrder, OrderOk, FillOk, ConfirmFill, ApplyTrade, Trade;
    hide LedgersOk, QuantitiesOk, CashOk, FillsOk, OrdersOk;
    var id, r := e.fillId, s.fills[e.fillId];
    PendingFacts(s.orders, s.fills, e);
    var traded := ConfirmShape(su, s, e, t);
    TradeShape(su, s, r.created, e, traded);
    TradeKeepsLedgers(su, s, r.created, e, traded);
    var after := t.fills[id];
    ConfirmedRecordOk(s.orders, id, r, e, traded.openedLong, traded.state.positions[e.key]);
    ConfirmOrder(s.orders, s.fills, id, after);
    PutFill(s.orders, s.fills, id, after, t.orders[e.orderId]);
    ConfirmMoney(su.config, s, t, id, after);
  }

  // ---------------------------------------------------------------- fees

  /** The state after a fee: cash down by the total, and for a purchase the cost basis up by its long share. */
  lemma FeeShape(su: Setup, s: State, e: FeeEvent, t: State)
    requires ValidSetup(su) && ValidFee(e) && ApplyFee(su, s, e) == Ok(t)
    requires LedgersOk(su.config, s.cash, s.positions) && FillsOk(s.orders, s.fills)
    ensures e.fillId in s.fills
    ensures var r := s.fills[e.fillId];
      && r.applied && r.fee.None? && e.key == r.created.key && e.side == r.created.side
      && t.cash == s.cash - e.total
      && t.fills == s.fills[e.fillId := r.(fee := Some(e))]
      && t == s.(cash := t.cash, fills := t.fills, positions := t.positions,
                 expectedCash := t.expectedCash, expectedPositions := t.expectedPositions)
      && (t.cash < 0.0 ==> su.config.allowNegativeCash)
      && (t.expectedCash == (if e.total == 0.0 then s.expectedCash else s.expectedCash[e.head.eventId :=
            ExpectedCash(e.head.time, e.head.day, Debit, e.total, t.cash)]))
      && (e.total != 0.0 ==> e.head.eventId !in s.expectedCash)
      && (t.expectedPositions.Keys <= s.expectedPositions.Keys + {e.head.eventId})
      && (su.feeBook.Some? ==> CheckFeeRule(su.feeBook.value, e, r.created) == Pass)
  {
    hide CheckFeeRule, SnapshotOf, ValidBook, ValidConfig, FillOk;
  }

  /** The cost basis moves only for a purchase that opened long units still held, and only upwards. */
  lemma AllocateShape(s: State, r: FillRecord, e: FeeEvent, t: State)
    requires AllocateFee(s, r, e) == Ok(t) && 0.0 <= e.total
    requires 0.0 <= r.openedLong && 0.0 < r.created.quantity
    requires 0.0 < r.openedLong ==> r.quantityAfter.Some? && 0.0 < r.quantityAfter.value
    ensures t == s.(positions := t.positions, expectedPositions := t.expectedPositions)
    ensures t.positions != s.positions ==>
      && e.key in s.positions && 0.0 < s.positions[e.key].quantity
      && t.positions == s.positions[e.key := t.positions[e.key]]
      && t.positions[e.key] == s.positions[e.key].(costBasis := t.positions[e.key].costBasis)
      && s.positions[e.key].costBasis <= t.positions[e.key].costBasis
  {
    hide SnapshotOf, ProRata;
    if e.side == Buy && r.openedLong != 0.0 && e.total != 0.0 {
      ProRataNonNegative(e.total, r.openedLong, r.created.quantity);
    }
  }

  lemma FeePositions(su: Setup, s: State, e: FeeEvent, t: State)
    requires ValidSetup(su) && ValidFee(e) && ApplyFee(su, s, e) == Ok(t)
    requires FillsOk(s.orders, s.fills)
    ensures t.positions != s.positions ==>
      && e.key in s.positions && 0.0 < s.positions[e.key].quantity
      && t.positions == s.positions[e.key := t.positions[e.key]]
      && t.positions[e.key] == s.positions[e.key].(costBasis := t.positions[e.key].costBasis)
      && s.positions[e.key].costBasis <= t.positions[e.key].costBasis
  {
    var r := s.fills[e.fillId];
    assert FillOk(s.orders, e.fillId, r);
    hide CheckFeeRule, AllocateFee, ValidateFillOrder;
    var charged := ChargeFee(su.config, s, e).value;
    AllocateShape(charged.(fills := charged.fills[e.fillId := r.(fee := Some(e))]), r, e, t);
  }

  lemma FeeMoney(c: Config, s: State, t: State, id: Id, r: FillRecord)
    requires QuantitiesOk(c, s.positions, s.fills) && CashOk(c, s.cash, s.fills)
    requires id in s.fills && s.fills[id].applied && s.fills[id].fee.None? && r.fee.Some?
    requires r == s.fills[id].(fee := r.fee) && t.fills == s.fills[id := r]
    requires t.cash == s.cash - r.fee.value.total
    requires forall k: Key :: Held(t.positions, k) == Held(s.positions, k)
    ensures QuantitiesOk(c, t.positions, t.fills) && CashOk(c, t.cash, t.fills)
  {
    TotalPut(s.fills, CashWeight(), id, r);
    forall k: Key
      ensures Held(t.positions, k) == Held(OpeningPositions(c.positions), k) + Total(t.fills, NetWeight(k))
    {
      TotalPut(s.fills, NetWeight(k), id, r);
      assert Held(s.positions, k) == Held(t.positions, k);
    }
  }

  lemma FeeKeepsOrder(s: State, e: FeeEvent, oid: Id)
    requires e.fillId in s.fills && oid in s.orders && OrderOk(s.fills, oid, s.orders[oid])
    ensures OrderOk(s.fills[e.fillId := s.fills[e.fillId].(fee := Some(e))], oid, s.orders[oid])
  {
    hide ValidOrder;
    PutFillTotals(s.fills, e.fillId, s.fills[e.fillId].(fee := Some(e)), oid);
  }

  lemma FeeKeepsLedgers(su: Setup, s: State, e: FeeEvent, t: State)
    requires BooksOk(su.config, s) && ValidSetup(su) && ValidFee(e) && ApplyFee(su, s, e) == Ok(t)
    ensures LedgersOk(su.config, t.cash, t.positions)
    ensures forall k: Key :: Held(t.positions, k) == Held(s.positions, k)
  {
    hide ApplyFee, FillsOk, OrdersOk, ValidSetup, ValidFee, QuantitiesOk, CashOk;
    FeeShape(su, s, e, t);
    FeePositions(su, s, e, t);
  }

  lemma FeeRecordOk(s: State, e: FeeEvent)
    requires FillsOk(s.orders, s.fills) && OrdersOk(s.orders, s.fills) && ValidFee(e)
    requires e.fillId in s.fills && s.fills[e.fillId].applied
    requires e.key == s.fills[e.fillId].created.key && e.side == s.fills[e.fillId].created.side
    ensures FillsOk(s.orders, s.fills[e.fillId := s.fills[e.fillId].(fee := Some(e))])
    ensures OrdersOk(s.orders, s.fills[e.fillId := s.fills[e.fillId].(fee := Some(e))])
  {
    hide ValidOrder, ValidFill, ValidateFillOrder, OrderOk;
    var r := s.fills[e.fillId];
    var after := r.(fee := Some(e));
    assert FillOk(s.orders, e.fillId, r);
    assert FillOk(s.orders, e.fillId, after);
    hide FillOk;
    var oid := r.created.orderId;
    assert OrderOk(s.fills, oid, s.orders[oid]);
    FeeKeepsOrder(s, e, oid);
    PutFill(s.orders, s.fills, e.fillId, after, s.orders[oid]);
    assert s.orders[oid := s.orders[oid]] == s.orders;
  }

  lemma FeeOk(su: Setup, s: State, e: FeeEvent, t: State)
    requires BooksOk(su.config, s) && ValidSetup(su) && ValidFee(e) && ApplyFee(su, s, e) == Ok(t)
    ensures BooksOk(su.config, t)
  {
    hide ApplyFee, OrderOk, FillOk, ValidFee, LedgersOk, QuantitiesOk, CashOk, FillsOk, OrdersOk, ValidSetup;
    FeeShape(su, s, e, t);
    FeeKeepsLedgers(su, s, e, t);
    FeeRecordOk(s, e);
    FeeMoney(su.config, s, t, e.fillId, s.fills[e.fillId].(fee := Some(e)));
  }
}
