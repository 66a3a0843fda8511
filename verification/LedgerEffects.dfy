/** What confirmations and fees do to cash, quantity and cost, in arithmetic, and what whole runs of purchases keep. */
module LedgerEffects {
  import opened Outcomes
  import opened Sums
  import opened Contracts
  import opened EngineModel
  import opened Lots
  import opened Bookkeeping
  import opened Attestation
  import opened EngineRuns
  import opened Steps

  // ---------------------------------------------------------------- fees

  /**
   * The positions after an accepted fee. A fee on a purchase that opened long units adds the share of those units in
   * the fill to the cost of its position; no other fee moves a position.
   */
  lemma FeeEffect(su: Setup, es: seq<Event>, s: State, e: FeeEvent, t: State)
    requires ValidSetup(su) && Run(su, es, s) && ApplyEvent(su, s, FeeEv(e)) == Ok(t)
    ensures e.fillId in s.fills && t.cash == s.cash - e.total
    ensures var r := s.fills[e.fillId];
      if r.created.side == Buy && 0.0 < r.openedLong && 0.0 < e.total then
        && e.key == r.created.key && e.key in s.positions && 0.0 < r.created.quantity
        && t.positions == s.positions[e.key := PositionLedger(
             s.positions[e.key].quantity,
             s.positions[e.key].costBasis + e.total * r.openedLong / r.created.quantity,
             s.positions[e.key].lots)]
      else t.positions == s.positions
  {
    hide Run, Inv, ValidSetup, ApplyEvent, ApplyFee, ValidFee;
    RunInv(su, es, s);
    FeeDispatched(su, s, e, t);
    InvBooks(su, s);
    FeePositionsAre(su, s, e, Dispatch(su, s, FeeEv(e)).value);
  }

  lemma FeeDispatched(su: Setup, s: State, e: FeeEvent, t: State)
    requires ValidSetup(su) && ApplyEvent(su, s, FeeEv(e)) == Ok(t)
    ensures ValidFee(e) && ApplyFee(su, s, e).Ok? && Dispatch(su, s, FeeEv(e)) == ApplyFee(su, s, e)
    ensures t.cash == ApplyFee(su, s, e).value.cash && t.positions == ApplyFee(su, s, e).value.positions
  {
    hide ApplyFee, ValidFee, ValidateClock, ValidSetup;
  }

  lemma FeePositionsAre(su: Setup, s: State, e: FeeEvent, t: State)
    requires ValidSetup(su) && BooksOk(su.config, s) && ValidFee(e) && ApplyFee(su, s, e) == Ok(t)
    ensures e.fillId in s.fills && t.cash == s.cash - e.total
    ensures var r := s.fills[e.fillId];
      if r.created.side == Buy && 0.0 < r.openedLong && 0.0 < e.total then
        && e.key == r.created.key && e.key in s.positions && 0.0 < r.created.quantity
        && t.positions == s.positions[e.key := PositionLedger(
             s.positions[e.key].quantity,
             s.positions[e.key].costBasis + e.total * r.openedLong / r.created.quantity,
             s.positions[e.key].lots)]
      else t.positions == s.positions
  {
    hide ApplyFee, ValidFee, QuantitiesOk, CashOk, OrdersOk, ValidSetup, WellFormed;
    FeeShape(su, s, e, t);
    FeeRecordFacts(s, e.fillId);
    FeeSplits(su, s, e, t);
    NonNegativeFee(e);
  }

  lemma FeeRecordFacts(s: State, id: Id)
    requires FillsOk(s.orders, s.fills) && id in s.fills
    ensures var r := s.fills[id];
      && 0.0 < r.created.quantity && 0.0 <= r.openedLong
      && (r.applied && 0.0 < r.openedLong ==> r.quantityAfter.Some? && 0.0 < r.quantityAfter.value)
  {
    hide ValidateFillOrder;
    assert FillOk(s.orders, id, s.fills[id]);
  }

  lemma FeeSplits(su: Setup, s: State, e: FeeEvent, t: State)
    requires ValidSetup(su) && ApplyFee(su, s, e) == Ok(t)
    ensures e.fillId in s.fills
    ensures var r := s.fills[e.fillId];
      && (!(e.side == Buy && r.openedLong != 0.0 && e.total != 0.0) ==> t.positions == s.positions)
      && (e.side == Buy && r.openedLong != 0.0 && e.total != 0.0 ==>
            && Some(LedgerAt(s, e.key).quantity) == r.quantityAfter
            && t.positions == s.positions[e.key := LedgerAt(s, e.key).(
                 costBasis := LedgerAt(s, e.key).costBasis + ProRata(e.total, r.openedLong, r.created.quantity))])
  {
    hide CheckFeeRule, SnapshotOf, ProRata, ValidSetup, ChargeFee;
    ChargeKeeps(su.config, s, e, ChargeFee(su.config, s, e).value);
  }

  // ---------------------------------------------------------------- confirmations

  /**
   * The cost of a position after a trade: moving away from zero adds the notional, moving towards zero keeps the
   * average cost, and crossing zero leaves only what is new, at the trade's price.
   */
  function CostAfter(held: real, cost: real, moved: real, price: real): real {
    if (0.0 <= held && 0.0 <= moved) || (held <= 0.0 && moved <= 0.0) then cost + Abs(moved) * price
    else if Abs(moved) <= Abs(held) then cost * (held + moved) / held
    else Abs(held + moved) * price
  }

  lemma SameShare(cost: real, part: real, whole: real)
    requires whole != 0.0
    ensures cost * -part / -whole == cost * part / whole
  {
    var p, q := cost * part / whole, cost * -part / -whole;
    assert p * whole == cost * part && q * -whole == cost * -part;
    assert (p - q) * whole == 0.0;
  }

  lemma BuyCostAfter(su: Setup, ledger: PositionLedger, f: FillEvent)
    requires WellFormed(ledger) && 0.0 < f.quantity && 0.0 < f.price && ApplyBuy(su, ledger, f).Ok?
    ensures var after := ApplyBuy(su, ledger, f).value.ledger;
      after.costBasis == CostAfter(ledger.quantity, ledger.costBasis, f.quantity, f.price)
  {
    BuyEffect(su, ledger, f);
    BuyCost(su, ledger, f);
    if ledger.quantity < 0.0 && f.quantity <= -ledger.quantity {
      SameShare(ledger.costBasis, ledger.quantity + f.quantity, ledger.quantity);
    }
    hide WellFormed, SelectRule;
  }

  lemma PartialSale(c: Config, ledger: PositionLedger, f: FillEvent)
    requires 0.0 < f.quantity < ledger.quantity && ApplySell(c, ledger, f).Ok?
    ensures ApplySell(c, ledger, f).value.costBasis
      == ProRata(ledger.costBasis, ledger.quantity - f.quantity, ledger.quantity)
  {
    hide ProRata, ConsumeLots, SellableQuantity, Times;
  }

  lemma SellCostAfter(c: Config, ledger: PositionLedger, f: FillEvent)
    requires WellFormed(ledger) && 0.0 < f.quantity && 0.0 < f.price && ApplySell(c, ledger, f).Ok?
    ensures var after := ApplySell(c, ledger, f).value;
      after.costBasis == CostAfter(ledger.quantity, ledger.costBasis, -f.quantity, f.price)
  {
    hide WellFormed, ApplySell, SellableQuantity, AverageCost;
    SellEffect(c, ledger, f);
    SellCost(c, ledger, f);
    if 0.0 < ledger.quantity && f.quantity < ledger.quantity {
      PartialSale(c, ledger, f);
    } else if f.quantity == ledger.quantity {
      NothingLeft(ledger.costBasis, ledger.quantity, f.price);
    }
  }

  lemma NothingLeft(cost: real, held: real, price: real)
    requires held != 0.0
    ensures cost * 0.0 / held == 0.0 && Times(0.0, price) == 0.0
  {
  }

  lemma TradeEffect(su: Setup, ledger: PositionLedger, f: FillEvent)
    requires WellFormed(ledger) && ValidFill(f) && Trade(su, ledger, f).Ok?
    ensures var after := Trade(su, ledger, f).value.ledger;
      && after.quantity == ledger.quantity + SignedQuantity(f)
      && after.costBasis == CostAfter(ledger.quantity, ledger.costBasis, SignedQuantity(f), f.price)
  {
    hide WellFormed, ApplyBuy, ApplySell, CostAfter;
    if f.side == Buy {
      BuyEffect(su, ledger, f);
      BuyCostAfter(su, ledger, f);
    } else {
      SellEffect(su.config, ledger, f);
      SellCostAfter(su.config, ledger, f);
    }
  }

  /** Cash moves by quantity times price, the quantity by the fill, the cost by the rule above; nothing else moves. */
  ghost predicate Exchanged(cash: real, positions: map<Key, PositionLedger>, f: FillEvent, cashAfter: real,
      after: map<Key, PositionLedger>)
  {
    var moved := if f.side == Buy then f.quantity else -f.quantity;
    var before := if f.key in positions then positions[f.key] else PositionLedger(0.0, 0.0, []);
    && cashAfter == cash - moved * f.price
    && f.key in after && after == positions[f.key := after[f.key]]
    && after[f.key].quantity == before.quantity + moved
    && after[f.key].costBasis == CostAfter(before.quantity, before.costBasis, moved, f.price)
  }

  /** Cash and the positions after an accepted confirmation. */
  lemma ConfirmationEffect(su: Setup, es: seq<Event>, s: State, e: FillEvent, t: State)
    requires ValidSetup(su) && Run(su, es, s) && e.status == Confirmed && ApplyEvent(su, s, FillEv(e)) == Ok(t)
    ensures e.fillId in s.fills && Exchanged(s.cash, s.positions, s.fills[e.fillId].created, t.cash, t.positions)
  {
    hide Run, Inv, ValidSetup, ApplyEvent, ApplyFill, ValidFill, Exchanged, StepMoves, BooksOk;
    RunInv(su, es, s);
    FillDispatched(su, s, e, t);
    StepIsMove(su, s, FillEv(e), t);
    ConfirmsKnown(s, e, t);
    InvBooks(su, s);
    ConfirmationIs(su, s, e, ApplyFill(su, s, e).value);
  }

  lemma ConfirmsKnown(s: State, e: FillEvent, t: State)
    requires StepMoves(s, FillEv(e), t) && e.status == Confirmed
    ensures e.fillId in s.fills
  {
    hide PositionsMove, CashMove, ClockMove;
  }

  lemma FillDispatched(su: Setup, s: State, e: FillEvent, t: State)
    requires ValidSetup(su) && ApplyEvent(su, s, FillEv(e)) == Ok(t)
    ensures ValidFill(e) && ApplyFill(su, s, e).Ok?
    ensures t.cash == ApplyFill(su, s, e).value.cash && t.positions == ApplyFill(su, s, e).value.positions
    ensures t.fills == ApplyFill(su, s, e).value.fills
  {
    hide ApplyFill, ValidFill, ValidateClock, ValidSetup;
  }

  lemma ConfirmationIs(su: Setup, s: State, e: FillEvent, t: State)
    requires ValidSetup(su) && BooksOk(su.config, s) && ValidFill(e) && e.fillId in s.fills && e.status == Confirmed
    requires ApplyFill(su, s, e) == Ok(t)
    ensures Exchanged(s.cash, s.positions, s.fills[e.fillId].created, t.cash, t.positions)
  {
    hide ConfirmFill, ApplyTrade, Trade, ValidFill, FillsOk, OrdersOk, QuantitiesOk, CashOk, ValidSetup, CostAfter,
      WellFormed;
    PendingFacts(s.orders, s.fills, e);
    var f := s.fills[e.fillId].created;
    var traded := ConfirmShape(su, s, e, t);
    TradeShape(su, s, f, e, traded);
    LedgerIsWell(su.config, s, f.key);
    TradeEffect(su, LedgerAt(s, f.key), f);
    GrossIs(f);
    SameKey(e, f);
  }

  lemma SameKey(e: FillEvent, f: FillEvent)
    requires ExecutionOf(e) == ExecutionOf(f)
    ensures e.key == f.key
  {
    assert ExecutionOf(e).key == ExecutionOf(f).key;
  }

  lemma LedgerIsWell(c: Config, s: State, k: Key)
    requires LedgersOk(c, s.cash, s.positions)
    ensures WellFormed(LedgerAt(s, k))
  {
  }

  lemma GrossIs(f: FillEvent)
    requires ValidFill(f)
    ensures CashDelta(f) == -(SignedQuantity(f) * f.price)
  {
  }

  // ---------------------------------------------------------------- runs of purchases

  ghost function CostWeight(): PositionLedger -> real {
    (l: PositionLedger) => l.costBasis
  }

  ghost predicate OnlyPurchases(s: State) {
    forall f :: f in s.fills && s.fills[f].applied ==> s.fills[f].created.side == Buy
  }

  predicate NoShorts(positions: map<Key, PositionLedger>) {
    forall k :: k in positions ==> 0.0 <= positions[k].quantity
  }

  predicate OpensWhole(r: FillRecord) {
    r.applied ==> r.openedLong == r.created.quantity
  }

  /** So far nothing is short, every purchase opened its whole quantity, and nothing of what was paid is lost. */
  ghost predicate Kept(c: Config, s: State) {
    && NoShorts(s.positions) && (forall f :: f in s.fills ==> OpensWhole(s.fills[f]))
    && s.cash + Total(s.positions, CostWeight()) == c.initialCash + Total(OpeningPositions(c.positions), CostWeight())
  }

  lemma PurchasesBefore(s: State, e: Event, t: State)
    requires FillsMove(s, e, t) && OnlyPurchases(t)
    ensures OnlyPurchases(s)
  {
    hide QuantityBefore;
    forall f | f in s.fills && s.fills[f].applied
      ensures s.fills[f].created.side == Buy
    {
      assert t.fills[f].applied && t.fills[f].created == s.fills[f].created;
    }
  }

  /** A purchase onto a position that is not short moves its notional from cash to cost. */
  lemma PurchaseMoves(cash: real, positions: map<Key, PositionLedger>, f: FillEvent, cashAfter: real,
      after: map<Key, PositionLedger>)
    returns (paid: real)
    requires NoShorts(positions) && f.side == Buy && 0.0 < f.quantity && Exchanged(cash, positions, f, cashAfter, after)
    ensures cashAfter == cash - paid && f.key in after && after == positions[f.key := after[f.key]]
    ensures 0.0 <= after[f.key].quantity
    ensures after[f.key].costBasis == paid + if f.key in positions then positions[f.key].costBasis else 0.0
  {
    hide CostAfter;
    var before := if f.key in positions then positions[f.key] else PositionLedger(0.0, 0.0, []);
    PurchaseCost(before.quantity, before.costBasis, f.quantity, f.price);
    paid := f.quantity * f.price;
  }

  lemma PutCost(positions: map<Key, PositionLedger>, k: Key, ledger: PositionLedger, paid: real)
    requires NoShorts(positions) && 0.0 <= ledger.quantity
    requires ledger.costBasis == paid + if k in positions then positions[k].costBasis else 0.0
    ensures NoShorts(positions[k := ledger])
    ensures Total(positions[k := ledger], CostWeight()) == Total(positions, CostWeight()) + paid
  {
    TotalPut(positions, CostWeight(), k, ledger);
  }

  lemma PurchaseCost(held: real, cost: real, quantity: real, price: real)
    requires 0.0 <= held && 0.0 < quantity
    ensures CostAfter(held, cost, quantity, price) == cost + quantity * price
  {
  }

  lemma PurchaseOpensWhole(s: State, e: FillEvent, t: State)
    requires NoShorts(s.positions) && e.fillId in s.fills && Confirms(s, e, t)
    requires s.fills[e.fillId].created.side == Buy && 0.0 < s.fills[e.fillId].created.quantity
    ensures OpensWhole(t.fills[e.fillId])
  {
    assert 0.0 <= Held(s.positions, e.key);
    hide Held, NoShorts;
  }

  lemma PurchaseKeeps(c: Config, s: State, e: FillEvent, t: State)
    requires Kept(c, s) && e.fillId in s.fills && Confirms(s, e, t) && s.fills[e.fillId].created.side == Buy
    requires 0.0 < s.fills[e.fillId].created.quantity
    requires Exchanged(s.cash, s.positions, s.fills[e.fillId].created, t.cash, t.positions)
    ensures Kept(c, t)
  {
    hide OpeningPositions, Exchanged, NoShorts, OpensWhole, QuantityBefore, Held;
    var f := s.fills[e.fillId].created;
    var paid := PurchaseMoves(s.cash, s.positions, f, t.cash, t.positions);
    PutCost(s.positions, f.key, t.positions[f.key], paid);
    PurchaseOpensWhole(s, e, t);
    assert forall f :: f in t.fills ==> f == e.fillId || (f in s.fills && t.fills[f] == s.fills[f]);
  }

  lemma FeeKeeps(c: Config, s: State, e: FeeEvent, t: State)
    requires Kept(c, s) && e.fillId in s.fills && s.fills[e.fillId].created.side == Buy && s.fills[e.fillId].applied
    requires 0.0 < s.fills[e.fillId].created.quantity && 0.0 <= e.total && t.cash == s.cash - e.total
    requires t.fills == s.fills[e.fillId := s.fills[e.fillId].(fee := Some(e))]
    requires var r := s.fills[e.fillId];
      if 0.0 < e.total then
        && e.key in s.positions
        && t.positions == s.positions[e.key := PositionLedger(s.positions[e.key].quantity,
             s.positions[e.key].costBasis + e.total * r.openedLong / r.created.quantity, s.positions[e.key].lots)]
      else t.positions == s.positions
    ensures Kept(c, t)
  {
    hide OpeningPositions;
    assert OpensWhole(s.fills[e.fillId]);
    if 0.0 < e.total {
      WholeShare(e.total, s.fills[e.fillId].created.quantity);
      TotalPut(s.positions, CostWeight(), e.key, t.positions[e.key]);
    }
  }

  lemma WholeShare(amount: real, quantity: real)
    requires 0.0 < quantity
    ensures amount * quantity / quantity == amount
  {
  }

  lemma OtherKeeps(c: Config, s: State, e: Event, t: State)
    requires Kept(c, s) && StepMoves(s, e, t) && !e.FeeEv? && !Confirming(s, e)
    ensures Kept(c, t)
  {
    hide OpeningPositions, QuantityBefore;
    assert t.cash == s.cash && t.positions == s.positions;
    forall f | f in t.fills
      ensures OpensWhole(t.fills[f])
    {
      assert f in s.fills ==> OpensWhole(s.fills[f]);
    }
  }

  lemma StepKeeps(su: Setup, s: State, e: Event, t: State)
    requires ValidSetup(su) && Inv(su, s) && Kept(su.config, s) && OnlyPurchases(t) && ApplyEvent(su, s, e) == Ok(t)
    ensures Kept(su.config, t)
  {
    hide Inv, ValidSetup, ApplyEvent, ApplyFill, ApplyFee, ValidFill, ValidFee, Kept, BooksOk, PositionsMove,
      CashMove, ClockMove, Exchanged, QuantityBefore;
    StepIsMove(su, s, e, t);
    InvBooks(su, s);
    PurchasesBefore(s, e, t);
    if Confirming(s, e) {
      FillDispatched(su, s, e.fill, t);
      ConfirmationIs(su, s, e.fill, ApplyFill(su, s, e.fill).value);
      RecordIsPositive(su.config, s, e.fill.fillId);
      AppliedPurchase(t, e.fill.fillId);
      PurchaseKeeps(su.config, s, e.fill, t);
    } else if e.FeeEv? {
      FeeDispatched(su, s, e.fee, t);
      FeePositionsAre(su, s, e.fee, ApplyFee(su, s, e.fee).value);
      RecordIsPositive(su.config, s, e.fee.fillId);
      AppliedPurchase(s, e.fee.fillId);
      NonNegativeFee(e.fee);
      KeptOpens(su.config, s, e.fee.fillId);
      FeeKeeps(su.config, s, e.fee, t);
    } else {
      OtherKeeps(su.config, s, e, t);
    }
  }

  lemma KeptOpens(c: Config, s: State, id: Id)
    requires Kept(c, s) && id in s.fills && s.fills[id].applied
    ensures s.fills[id].openedLong == s.fills[id].created.quantity
  {
    hide OpeningPositions;
    assert OpensWhole(s.fills[id]);
  }

  lemma AppliedPurchase(s: State, id: Id)
    requires OnlyPurchases(s) && id in s.fills && s.fills[id].applied
    ensures s.fills[id].created.side == Buy
  {
  }

  lemma RecordIsPositive(c: Config, s: State, id: Id)
    requires BooksOk(c, s) && id in s.fills
    ensures 0.0 < s.fills[id].created.quantity
  {
    hide LedgersOk, QuantitiesOk, CashOk, OrdersOk;
    FeeRecordFacts(s, id);
  }

  lemma {:induction false} RunKeeps(su: Setup, s: State, es: seq<Event>, t: State)
    requires ValidSetup(su) && Inv(su, s) && Kept(su.config, s) && OnlyPurchases(t) && ApplyAll(su, s, es) == Ok(t)
    ensures Kept(su.config, t) && OnlyPurchases(s)
    decreases |es|
  {
    hide Inv, ValidSetup, ApplyEvent, Kept, StepMoves, OnlyPurchases;
    if es != [] {
      var u := ApplyEvent(su, s, es[0]).value;
      StepKeepsInv(su, s, es[0], u);
      StepIsMove(su, s, es[0], u);
      PurchasesOfRun(su, u, es[1..], t);
      StepKeeps(su, s, es[0], u);
      RunKeeps(su, u, es[1..], t);
      StepPurchases(s, es[0], u);
    }
  }

  lemma StepPurchases(s: State, e: Event, t: State)
    requires StepMoves(s, e, t) && OnlyPurchases(t)
    ensures OnlyPurchases(s)
  {
    hide FillsMove, PositionsMove, CashMove, ClockMove, OnlyPurchases;
    PurchasesBefore(s, e, t);
  }

  lemma {:induction false} PurchasesOfRun(su: Setup, s: State, es: seq<Event>, t: State)
    requires ValidSetup(su) && Inv(su, s) && OnlyPurchases(t) && ApplyAll(su, s, es) == Ok(t)
    ensures OnlyPurchases(s)
    decreases |es|
  {
    hide Inv, ValidSetup, ApplyEvent, StepMoves, OnlyPurchases;
    if es != [] {
      var u := ApplyEvent(su, s, es[0]).value;
      StepKeepsInv(su, s, es[0], u);
      StepIsMove(su, s, es[0], u);
      PurchasesOfRun(su, u, es[1..], t);
      StepPurchases(s, es[0], u);
    }
  }

  lemma OpeningKept(c: Config)
    requires NoShorts(OpeningPositions(c.positions))
    ensures Kept(c, InitialState(c))
  {
    hide OpeningPositions;
  }

  /**
   * While a run from an opening without shorts applies only purchases, nothing of what was paid is lost: cash plus the
   * cost of all positions stays what it was at the opening, because every fee that left cash entered a cost.
   */
  lemma PurchasesKeepWorth(su: Setup, es: seq<Event>, s: State)
    requires ValidSetup(su) && Run(su, es, s) && OnlyPurchases(s)
    requires forall k :: k in OpeningPositions(su.config.positions) ==>
      0.0 <= OpeningPositions(su.config.positions)[k].quantity
    ensures s.cash + Total(s.positions, CostWeight())
      == su.config.initialCash + Total(OpeningPositions(su.config.positions), CostWeight())
  {
    hide Inv, ValidSetup, ApplyAll, OpeningPositions, OnlyPurchases;
    InitialInv(su);
    OpeningKept(su.config);
    RunKeeps(su, InitialState(su.config), es, s);
  }
}
