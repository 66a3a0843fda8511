/** What holds after every run of the event engine, whatever the events and whatever the configuration. */
module EngineRuns {
  import opened Outcomes
  import opened Sums
  import opened Contracts
  import opened FeeRules
  import opened EngineModel
  import opened Lots
  import opened Bookkeeping
  import opened ReplayStream
  import opened Attestation

  /** The engine, started on its configuration, accepts all of `es` and ends in `s`. */
  ghost predicate Run(su: Setup, es: seq<Event>, s: State)
    requires ValidSetup(su)
  {
    ApplyAll(su, InitialState(su.config), es) == Ok(s)
  }

  // ---------------------------------------------------------------- invariants over runs

  lemma {:induction false} ApplyAllKeepsInv(su: Setup, s: State, es: seq<Event>, t: State)
    requires ValidSetup(su) && Inv(su, s) && ApplyAll(su, s, es) == Ok(t)
    ensures Inv(su, t) && t.events == s.events + es
    decreases |es|
  {
    hide Inv, ApplyEvent, ValidSetup;
    if es != [] {
      var u := ApplyEvent(su, s, es[0]).value;
      StepKeepsInv(su, s, es[0], u);
      StepAppends(su, s, es[0], u);
      ApplyAllKeepsInv(su, u, es[1..], t);
      assert s.events + es == s.events + [es[0]] + es[1..];
    }
  }

  lemma StepAppends(su: Setup, s: State, e: Event, t: State)
    requires ValidSetup(su) && Inv(su, s) && ApplyEvent(su, s, e) == Ok(t)
    ensures t.events == s.events + [e]
  {
    hide Dispatch, FeesOk, AttestOk, ReplayOk, BooksOk, Inv;
    DispatchStep(su, s, e, Dispatch(su, s, e).value);
  }

  lemma RunInv(su: Setup, es: seq<Event>, s: State)
    requires ValidSetup(su) && Run(su, es, s)
    ensures Inv(su, s) && s.events == es
  {
    hide Inv, ApplyAll;
    InitialInv(su);
    ApplyAllKeepsInv(su, InitialState(su.config), es, s);
  }

  /** Ledgers: positive lots adding up to the long quantity, a sane cost basis, and exact quantity and cash accounts. */
  lemma LedgerSafety(su: Setup, es: seq<Event>, s: State)
    requires ValidSetup(su) && Run(su, es, s)
    ensures forall k :: k in s.positions ==> var l := s.positions[k];
      && (forall i :: 0 <= i < |l.lots| ==> 0.0 < l.lots[i].quantity)
      && LotTotal(l.lots) == Max(l.quantity, 0.0)
      && 0.0 <= l.costBasis && (l.quantity == 0.0 ==> l.costBasis == 0.0)
      && (l.quantity < 0.0 ==> su.config.allowShortSales)
    ensures s.cash < 0.0 ==> su.config.allowNegativeCash
    ensures QuantitiesOk(su.config, s.positions, s.fills)
    ensures s.cash == su.config.initialCash + Total(s.fills, CashWeight())
  {
    RunInv(su, es, s);
  }

  /**
   * Orders and fills: filled <= confirmed = applied <= active <= ordered; a fill is applied exactly when it is
   * confirmed or settled; a terminal order has nothing pending and reports exactly what was confirmed.
   */
  lemma OrderFillBookkeeping(su: Setup, es: seq<Event>, s: State, id: Id)
    requires ValidSetup(su) && Run(su, es, s) && id in s.orders
    ensures var r := s.orders[id];
      && r.latest.filledQuantity <= r.confirmedQuantity == Total(s.fills, AppliedWeight(id))
      && r.confirmedQuantity + PendingQuantity(s.fills, id) == ActiveQuantity(s.fills, id) <= r.created.quantity
      && (OrderTerminal(r.latest.status) ==> r.latest.filledQuantity == r.confirmedQuantity)
    ensures forall f :: f in s.fills ==>
      (s.fills[f].applied <==> s.fills[f].latest.status in {Confirmed, Settled})
    ensures OrderTerminal(s.orders[id].latest.status) ==>
      forall f :: f in s.fills && s.fills[f].created.orderId == id ==> s.fills[f].latest.status != FillCreated
  {
    RunInv(su, es, s);
    assert OrderOk(s.fills, id, s.orders[id]);
    ActiveSplits(s.orders, s.fills, id);
    forall f | f in s.fills
      ensures s.fills[f].applied <==> s.fills[f].latest.status in {Confirmed, Settled}
      ensures OrderTerminal(s.orders[id].latest.status) && s.fills[f].created.orderId == id ==>
        s.fills[f].latest.status != FillCreated
    {
      assert FillOk(s.orders, f, s.fills[f]);
    }
  }

  /**
   * Every fill in a reachable state belongs to its order - instrument, side, signal - and keeps to the order's limit
   * price.
   */
  lemma FillsRespectOrders(su: Setup, es: seq<Event>, s: State, id: Id)
    requires ValidSetup(su) && Run(su, es, s) && id in s.fills
    ensures var f := s.fills[id].created;
      && f.orderId in s.orders
      && var o := s.orders[f.orderId].created;
      && f.key == o.key && f.side == o.side && f.signalEventId == o.signalEventId && f.orderTime == o.head.time
      && (o.limitPrice.Some? ==> if o.side == Buy then f.price <= o.limitPrice.value else o.limitPrice.value <= f.price)
  {
    hide Run, LedgersOk, QuantitiesOk, CashOk, OrdersOk, FeesOk, AttestOk, ReplayOk, ValidSetup, ValidFill,
      ValidOrder;
    RunInv(su, es, s);
    assert FillOk(s.orders, id, s.fills[id]);
    if s.orders[s.fills[id].created.orderId].created.limitPrice.Some? {
      OrderIsLimit(s, s.fills[id].created.orderId);
    }
  }

  lemma OrderIsLimit(s: State, id: Id)
    requires OrdersOk(s.orders, s.fills) && id in s.orders && s.orders[id].created.limitPrice.Some?
    ensures s.orders[id].created.orderType == Limit
  {
    assert OrderOk(s.fills, id, s.orders[id]);
  }

  // ---------------------------------------------------------------- terminal orders

  ghost predicate TerminalKept(s: State, t: State) {
    forall id :: id in s.orders && OrderTerminal(s.orders[id].latest.status) ==>
      id in t.orders && t.orders[id] == s.orders[id]
  }

  lemma OrderKeepsTerminal(su: Setup, s: State, e: OrderEvent, t: State)
    requires BooksOk(su.config, s) && ValidOrder(e) && ApplyOrder(su, s, e) == Ok(t)
    ensures TerminalKept(s, t)
  {
    hide BooksOk, CreateOrder, InstructionOf;
    if e.orderId !in s.orders {
      CreatedOrderOk(su, s, e, t);
    } else {
      AdvancesOpenOrder(e);
      AdvancedOrderOk(su, s, e, t);
    }
  }

  lemma AdvancesOpenOrder(e: OrderEvent)
    requires ValidOrder(e) && e.previous.Some?
    ensures !OrderTerminal(e.previous.value)
  {
  }

  lemma FillKeepsTerminal(su: Setup, s: State, e: FillEvent, t: State)
    requires BooksOk(su.config, s) && ValidFill(e) && ApplyFill(su, s, e) == Ok(t)
    ensures TerminalKept(s, t)
  {
    hide LedgersOk, QuantitiesOk, CashOk, FillsOk, OrdersOk, ConfirmFill, CreateFill, ApplyTrade, Trade, ValidFill;
    if e.fillId !in s.fills {
      CreatedFillOk(su.config, s, e, t);
    } else if e.status == Confirmed {
      PendingFacts(s.orders, s.fills, e);
      var traded := ConfirmShape(su, s, e, t);
      TradeShape(su, s, s.fills[e.fillId].created, e, traded);
    }
  }

  lemma AttestationKeepsOrders(su: Setup, s: State, e: Event, t: State)
    requires ValidSetup(su) && (e.CashEv? || e.PositionEv? || e.TargetEv?) && Dispatch(su, s, e) == Ok(t)
    ensures t.orders == s.orders
  {
    hide SnapshotOf;
  }

  lemma TerminalOrderStep(su: Setup, s: State, e: Event, t: State)
    requires ValidSetup(su) && BooksOk(su.config, s) && ApplyEvent(su, s, e) == Ok(t)
    ensures TerminalKept(s, t)
  {
    hide ApplyTarget, ApplyOrder, ApplyFill, ApplyFee, AttestCash, AttestPosition, BooksOk, ValidOrder, ValidFill,
      ValidFee, ValidSetup;
    var u := Dispatch(su, s, e).value;
    match e {
      case OrderEv(x) => OrderKeepsTerminal(su, s, x, u);
      case FillEv(x) => FillKeepsTerminal(su, s, x, u);
      case FeeEv(x) => FeeKeepsOrders(su, s, x, u);
      case _ => AttestationKeepsOrders(su, s, e, u);
    }
  }

  lemma FeeKeepsOrders(su: Setup, s: State, e: FeeEvent, t: State)
    requires ValidSetup(su) && BooksOk(su.config, s) && ValidFee(e) && ApplyFee(su, s, e) == Ok(t)
    ensures t.orders == s.orders
  {
    hide ApplyFee;
    FeeShape(su, s, e, t);
  }

  lemma InvBooks(su: Setup, s: State)
    requires ValidSetup(su) && Inv(su, s)
    ensures BooksOk(su.config, s)
  {
  }

  /** A terminal order never changes again, whatever is replayed after it. */
  lemma {:induction false} TerminalOrderFrozen(su: Setup, s: State, es: seq<Event>, t: State, id: Id)
    requires ValidSetup(su) && Inv(su, s) && ApplyAll(su, s, es) == Ok(t)
    requires id in s.orders && OrderTerminal(s.orders[id].latest.status)
    ensures id in t.orders && t.orders[id] == s.orders[id]
    decreases |es|
  {
    hide Inv, BooksOk, ApplyEvent;
    if es != [] {
      var u := ApplyEvent(su, s, es[0]).value;
      StepKeepsInv(su, s, es[0], u);
      assert BooksOk(su.config, s) by { InvBooks(su, s); }
      TerminalOrderStep(su, s, es[0], u);
      TerminalOrderFrozen(su, u, es[1..], t, id);
    }
  }

  // ---------------------------------------------------------------- dead guards

  /** The guards of a confirmation that can still refuse it. */
  ghost predicate TradeAllowed(su: Setup, s: State, f: FillEvent) {
    && (0.0 <= s.cash + CashDelta(f) || su.config.allowNegativeCash)
    && Trade(su, LedgerAt(s, f.key), f).Ok?
  }

  /**
   * A pending fill is confirmed exactly when no charged fee is outstanding, cash suffices, and the trade itself is
   * allowed. Every other rejection on that path - applied twice, unknown order, order not open, over-filled order,
   * duplicate cash or position movement - is unreachable.
   */
  lemma ConfirmAccepted(su: Setup, es: seq<Event>, s: State, e: FillEvent)
    requires ValidSetup(su) && Run(su, es, s) && ValidFill(e) && e.fillId in s.fills && e.status == Confirmed
    requires ValidateClock(su.config, s, e.head) == Pass
    requires e.previous == Some(s.fills[e.fillId].latest.status)
    requires ExecutionOf(e) == ExecutionOf(s.fills[e.fillId].created)
    ensures ApplyFill(su, s, e).Ok? <==>
      (su.feeBook.Some? ==> !HasUncharged(s.fills)) && TradeAllowed(su, s, s.fills[e.fillId].created)
  {
    RunInv(su, es, s);
    PendingSources(su, s, e.head);
    hide BooksOk, FeesOk, AttestOk, ReplayOk, TradeAllowed, ConfirmFill, ApplyTrade;
    InvBooks(su, s);
    BooksParts(su.config, s);
    PendingFacts(s.orders, s.fills, e);
    PendingFillConfirmable(s.orders, s.fills, e.fillId);
    hide FillsOk, OrdersOk, FillOk, ValidFill, ValidateClock;
    ConfirmAllowed(su, s, s.fills[e.fillId], e);
    TradeAccepted(su, s, s.fills[e.fillId].created, e);
  }

  lemma BooksParts(c: Config, s: State)
    requires BooksOk(c, s)
    ensures FillsOk(s.orders, s.fills) && OrdersOk(s.orders, s.fills)
  {
  }

  lemma PendingSources(su: Setup, s: State, h: Header)
    requires ValidSetup(su) && Inv(su, s) && ValidateClock(su.config, s, h) == Pass
    ensures h.eventId !in s.expectedCash && h.eventId !in s.expectedPositions
  {
    hide BooksOk, FeesOk, ReplayOk, SourcesOk;
  }

  lemma ConfirmAllowed(su: Setup, s: State, r: FillRecord, e: FillEvent)
    requires e.fillId in s.fills && !r.applied && e.orderId in s.orders
    requires OpenForFills(s.orders[e.orderId].latest.status)
    requires s.orders[e.orderId].confirmedQuantity + e.quantity <= s.orders[e.orderId].created.quantity
    ensures ConfirmFill(su, s, r, e).Ok? <==>
      (su.feeBook.Some? ==> !HasUncharged(s.fills)) && ApplyTrade(su, s, r.created, e).Ok?
  {
    hide ApplyTrade, HasUncharged;
  }

  lemma TradeAccepted(su: Setup, s: State, f: FillEvent, source: FillEvent)
    requires source.head.eventId !in s.expectedCash && source.head.eventId !in s.expectedPositions
    ensures ApplyTrade(su, s, f, source).Ok? <==> TradeAllowed(su, s, f)
  {
    hide Trade, SnapshotOf;
  }

  /** When a sale of a long position is allowed: enough sellable units, or permission to go beyond them. */
  lemma SaleAllowed(su: Setup, es: seq<Event>, s: State, f: FillEvent)
    requires ValidSetup(su) && Run(su, es, s) && ValidFill(f) && f.side == Sell
    ensures Trade(su, LedgerAt(s, f.key), f).Ok? <==>
      && (Min(f.quantity, Max(Held(s.positions, f.key), 0.0)) <= SellableQuantity(LedgerAt(s, f.key), f.head.day)
          || su.config.allowUnsettledSales)
      && (f.quantity <= Max(Held(s.positions, f.key), 0.0) || su.config.allowShortSales)
  {
    RunInv(su, es, s);
    SellEffect(su.config, LedgerAt(s, f.key), f);
  }

  /**
   * With a fee rule book, the first uncharged fill is the only one and its position has not moved, so its purchase
   * fee is never "delayed past another position-changing fill".
   */
  lemma FeeNeverDelayed(su: Setup, es: seq<Event>, s: State, e: FeeEvent, charged: State)
    requires ValidSetup(su) && Run(su, es, s) && su.feeBook.Some?
    requires e.fillId in s.fills && Uncharged(s.fills[e.fillId]) && e.key == s.fills[e.fillId].created.key
    requires e.head.eventId !in s.eventIds && ChargeFee(su.config, s, e) == Ok(charged)
    ensures forall f :: f in s.fills && Uncharged(s.fills[f]) ==> f == e.fillId
    ensures AllocateFee(charged.(fills := charged.fills[e.fillId := s.fills[e.fillId].(fee := Some(e))]),
      s.fills[e.fillId], e).Ok?
  {
    hide Inv, Uncharged, Run, ChargeFee, AllocateFee;
    RunInv(su, es, s);
    UnchargedFacts(su, s, e.fillId);
    AllocationAccepted(su, s, e, charged);
  }

  /** The position of the uncharged fill has not moved, so its fee can be folded into its cost. */
  lemma AllocationAccepted(su: Setup, s: State, e: FeeEvent, charged: State)
    requires ValidSetup(su) && Inv(su, s) && su.feeBook.Some?
    requires e.fillId in s.fills && Uncharged(s.fills[e.fillId]) && e.key == s.fills[e.fillId].created.key
    requires e.head.eventId !in s.eventIds && ChargeFee(su.config, s, e) == Ok(charged)
    ensures AllocateFee(charged.(fills := charged.fills[e.fillId := s.fills[e.fillId].(fee := Some(e))]),
      s.fills[e.fillId], e).Ok?
  {
    hide Inv, Uncharged, ChargeFee, ProRata, SnapshotOf;
    UnchargedFacts(su, s, e.fillId);
    PositionsPending(su, s);
    ChargeKeeps(su.config, s, e, charged);
  }

  lemma UnchargedFacts(su: Setup, s: State, id: Id)
    requires ValidSetup(su) && Inv(su, s) && su.feeBook.Some? && id in s.fills && Uncharged(s.fills[id])
    ensures forall f :: f in s.fills && Uncharged(s.fills[f]) ==> f == id
    ensures Undisturbed(s.positions, s.fills[id])
  {
    hide BooksOk, AttestOk, ReplayOk, FeePinned, Undisturbed, Uncharged;
  }

  lemma PositionsPending(su: Setup, s: State)
    requires ValidSetup(su) && Inv(su, s)
    ensures s.expectedPositions.Keys <= s.eventIds
  {
    hide BooksOk, FeesOk, ReplayOk, SourcesOk;
  }

  lemma ChargeKeeps(c: Config, s: State, e: FeeEvent, t: State)
    requires ChargeFee(c, s, e) == Ok(t)
    ensures t.positions == s.positions && t.expectedPositions == s.expectedPositions
  {
  }

  // ---------------------------------------------------------------- fees and attestations on complete runs

  /** What an applied fill costs or earns under the rule its fee event pins. */
  ghost function AssessedWeight(su: Setup): FillRecord -> real
    requires ValidSetup(su) && su.feeBook.Some?
  {
    (r: FillRecord) => if !r.applied then 0.0 else CashDelta(r.created) - AssessedFee(su.feeBook.value, r)
  }

  function AssessedFee(book: seq<FeeRule>, r: FillRecord): real
    requires ValidBook(book)
  {
    if r.fee.None? then 0.0
    else
      var f := r.created;
      var rule := Select(book, f.key.instrumentType, f.side, f.head.day, Some(r.fee.value.ruleVersion));
      SelectLatest(book, f.key.instrumentType, f.side, f.head.day, Some(r.fee.value.ruleVersion));
      if rule.None? then 0.0 else rule.value.Fee(f.grossAmount).total
  }

  lemma PinnedTotal(book: seq<FeeRule>, r: FillRecord)
    requires ValidBook(book) && FeePinned(book, r) && r.fee.Some?
    requires r.fee.value.key == r.created.key && r.fee.value.side == r.created.side
    ensures r.fee.value.total == AssessedFee(book, r)
  {
    var f := r.created;
    SelectLatest(book, f.key.instrumentType, f.side, f.head.day, Some(r.fee.value.ruleVersion));
    var rule := Select(book, f.key.instrumentType, f.side, f.head.day, Some(r.fee.value.ruleVersion)).value;
    hide FeeRule.Fee;
    rule.AssessTotal(f.grossAmount);
  }

  /**
   * A complete run with fees: cash is opening cash plus and minus gross amounts, minus exactly what the pinned rules
   * assess.
   */
  lemma CompleteRunFees(su: Setup, es: seq<Event>, s: State, required: Option<bool>)
    requires ValidSetup(su) && Run(su, es, s) && EnsureComplete(su, s, required) == Pass
    requires su.feeBook.Some? && required != Some(false)
    ensures s.cash == su.config.initialCash + Total(s.fills, AssessedWeight(su))
    ensures forall f :: f in s.fills && s.fills[f].applied ==> s.fills[f].fee.Some?
  {
    hide Inv, BooksOk, Run, EnsureComplete, FeePinned, FillOk, AssessedFee;
    RunInv(su, es, s);
    InvBooks(su, s);
    CashIs(su.config, s);
    AllCharged(su, s, required);
    forall f | f in s.fills
      ensures CashWeight()(s.fills[f]) == AssessedWeight(su)(s.fills[f])
    {
      assert FillOk(s.orders, f, s.fills[f]);
      if s.fills[f].applied {
        FillFeeMatches(s.orders, f, s.fills[f]);
        PinnedTotal(su.feeBook.value, s.fills[f]);
      }
    }
    TotalSame(s.fills, CashWeight(), AssessedWeight(su));
  }

  lemma CashIs(c: Config, s: State)
    requires BooksOk(c, s)
    ensures s.cash == c.initialCash + Total(s.fills, CashWeight())
  {
    hide LedgersOk, QuantitiesOk, FillsOk, OrdersOk;
  }

  lemma AllCharged(su: Setup, s: State, required: Option<bool>)
    requires ValidSetup(su) && Inv(su, s) && EnsureComplete(su, s, required) == Pass && su.feeBook.Some?
    requires required != Some(false)
    ensures forall f :: f in s.fills ==>
      FillOk(s.orders, f, s.fills[f]) && FeePinned(su.feeBook.value, s.fills[f])
        && (s.fills[f].applied ==> s.fills[f].fee.Some?)
  {
    hide AttestOk, ReplayOk, FillOk, FeePinned, LedgersOk, QuantitiesOk, OrdersOk, CashOk;
    forall f | f in s.fills
      ensures FillOk(s.orders, f, s.fills[f]) && FeePinned(su.feeBook.value, s.fills[f])
      ensures (s.fills[f].applied ==> s.fills[f].fee.Some?)
    {
      assert !Uncharged(s.fills[f]);
    }
  }

  lemma FillFeeMatches(orders: map<Id, OrderRecord>, id: Id, r: FillRecord)
    requires FillOk(orders, id, r) && r.fee.Some?
    ensures r.fee.value.key == r.created.key && r.fee.value.side == r.created.side
  {
  }

  /** On a complete replay the committed cash events alone reconstruct the final cash, each source counted once. */
  lemma CompleteRunReconstructsCash(su: Setup, es: seq<Event>, s: State, required: Option<bool>)
    requires ValidSetup(su) && Run(su, es, s) && EnsureComplete(su, s, required) == Pass
    requires required == Some(true) || (required.None? && su.config.requireLedgerEvents)
    ensures s.cash == su.config.initialCash + Attested(es)
    ensures forall i, j :: 0 <= i < j < |es| && es[i].CashEv? && es[j].CashEv? ==>
      es[i].cash.sourceEventId != es[j].cash.sourceEventId
  {
    RunInv(su, es, s);
    hide BooksOk, FeesOk, ReplayOk;
    assert Total(s.expectedCash, ExpectedWeight()) == 0.0;
  }

  /** In every reachable state cash is opening cash plus attested movements plus the movements still to be attested. */
  lemma AttestationAccount(su: Setup, es: seq<Event>, s: State)
    requires ValidSetup(su) && Run(su, es, s)
    ensures s.cash == su.config.initialCash + Attested(es) + Total(s.expectedCash, ExpectedWeight())
    ensures s.expectedCash.Keys <= (set i | 0 <= i < |es| :: es[i].Head().eventId)
  {
    RunInv(su, es, s);
    ValidStreamMeaning(su.config.runId, es);
    hide BooksOk, FeesOk, SourcesOk;
  }

  /**
   * A committed attestation states the ledger as it is: the cash balance, or one position's quantity, sellable part and
   * average cost.
   */
  lemma AttestationsAreTrue(su: Setup, s: State, e: Event, t: State)
    requires ValidSetup(su) && ApplyEvent(su, s, e) == Ok(t)
    ensures e.CashEv? ==> e.cash.balanceAfter == t.cash == s.cash && t.positions == s.positions
    ensures e.PositionEv? ==> var l := LedgerAt(t, e.position.key);
      && e.position.quantity == l.quantity && e.position.sellableQuantity == SellableQuantity(l, e.position.head.day)
      && e.position.averageCost == AverageCost(l) && t.positions == s.positions && t.cash == s.cash
  {
    hide SnapshotOf, AverageCost, ApplyTarget, ApplyOrder, ApplyFill, ApplyFee, ValidSetup;
    if e.PositionEv? {
      AverageOfSnapshot(e.position.key, LedgerAt(s, e.position.key), e.position.head.day);
      SnapshotParts(e.position.key, LedgerAt(s, e.position.key), e.position.head.day);
    }
  }

  lemma SnapshotParts(k: Key, ledger: PositionLedger, day: Day)
    ensures SnapshotOf(k, ledger, day).quantity == ledger.quantity
    ensures SnapshotOf(k, ledger, day).sellableQuantity == SellableQuantity(ledger, day)
  {
  }

  // ---------------------------------------------------------------- batches

  /** Accepted events always pass the replay validator, so building a result never rejects an applied event. */
  lemma AcceptedEventsReplay(su: Setup, es: seq<Event>, s: State)
    requires ValidSetup(su) && Run(su, es, s)
    ensures ValidStream(s.events)
  {
    RunInv(su, es, s);
    hide BooksOk, FeesOk, AttestOk;
    if es != [] {
      ValidStreamMeaning(su.config.runId, es);
    }
  }

  /** A batch is its parts: replaying `xs + ys` is replaying `xs` and then `ys`, including every rejection. */
  lemma {:induction false} ApplyAllConcat(su: Setup, s: State, xs: seq<Event>, ys: seq<Event>)
    requires ValidSetup(su)
    ensures ApplyAll(su, s, xs + ys) ==
      var first := ApplyAll(su, s, xs);
      if first.Err? then first else ApplyAll(su, first.value, ys)
    decreases |xs|
  {
    hide ApplyEvent;
    if xs == [] {
      assert xs + ys == ys;
    } else {
      assert (xs + ys)[0] == xs[0] && (xs + ys)[1..] == xs[1..] + ys;
      var step := ApplyEvent(su, s, xs[0]);
      if step.Ok? {
        ApplyAllConcat(su, step.value, xs[1..], ys);
      }
    }
  }

  // ---------------------------------------------------------------- attestations inside a run

  /**
   * What event i of a run says about the ledger holds in the state in which exactly the events up to i are committed.
   */
  lemma AttestationsHoldInRun(su: Setup, es: seq<Event>, s: State, i: nat) returns (u: State)
    requires ValidSetup(su) && Run(su, es, s) && i < |es|
    ensures Run(su, es[..i + 1], u) && ApplyAll(su, u, es[i + 1..]) == Ok(s)
    ensures es[i].CashEv? ==> es[i].cash.balanceAfter == u.cash
    ensures es[i].PositionEv? ==> var p, l := es[i].position, LedgerAt(u, es[i].position.key);
      p.quantity == l.quantity && p.sellableQuantity == SellableQuantity(l, p.head.day)
        && p.averageCost == AverageCost(l)
  {
    hide ApplyEvent, ApplyAll, ValidSetup, ProRata, InitialState, SellableQuantity, AverageCost;
    var opening := InitialState(su.config);
    assert es[..i + 1] + es[i + 1..] == es && es[..i] + [es[i]] == es[..i + 1];
    ApplyAllConcat(su, opening, es[..i + 1], es[i + 1..]);
    ApplyAllConcat(su, opening, es[..i], [es[i]]);
    u := ApplyAll(su, opening, es[..i + 1]).value;
    var before := ApplyAll(su, opening, es[..i]).value;
    ApplyOne(su, before, es[i]);
    AttestationsAreTrue(su, before, es[i], u);
  }

  lemma ApplyOne(su: Setup, s: State, e: Event)
    requires ValidSetup(su)
    ensures ApplyAll(su, s, [e]) == ApplyEvent(su, s, e)
  {
    hide ApplyEvent, ValidSetup;
  }

  lemma RunAppend(su: Setup, es: seq<Event>, s: State, e: Event, t: State)
    requires ValidSetup(su) && Run(su, es, s) && ApplyEvent(su, s, e) == Ok(t)
    ensures Run(su, es + [e], t)
  {
    hide ApplyEvent, ApplyAll, ValidSetup, InitialState;
    ApplyAllConcat(su, InitialState(su.config), es, [e]);
    ApplyOne(su, s, e);
  }
}
