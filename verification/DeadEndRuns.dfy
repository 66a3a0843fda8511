/** Short concrete runs that end where no continuation can complete. */
module DeadEndRuns {
  import opened Outcomes
  import opened Sums
  import opened Contracts
  import opened FeeRules
  import opened EngineModel
  import opened EngineRuns
  import opened LateFees
  import opened AttestedRuns
  import opened FeeConditions

  // ---------------------------------------------------------------- one order of ten units at a hundred

  const STOCK := Key("600000", Stock)
  const NO_PRICE := KnownPrice(None, None, None)

  function At(name: Id, sequence: nat, time: Instant): Header {
    Header(name, "run", sequence, time, TradingDayOf(time))
  }

  function OrderOf(h: Header, side: Side, status: OrderStatus, previous: Option<OrderStatus>): Event {
    OrderEv(OrderEvent(h, STOCK, "order", "signal", 0, side, Market, 10.0, None, status, previous, 0.0, NO_PRICE))
  }

  function FillOf(h: Header, side: Side, status: FillStatus, previous: Option<FillStatus>): FillEvent {
    FillEvent(h, STOCK, "fill", "order", "signal", 0, 0, side, 10.0, 100.0, 1000.0, 0, 0, status, previous)
  }

  function Created(side: Side): Event {
    OrderOf(At("created", 0, 0), side, OrderCreated, None)
  }

  function Sent(side: Side): Event {
    OrderOf(At("submitted", 1, 0), side, Submitted, Some(OrderCreated))
  }

  function Taken(side: Side): Event {
    OrderOf(At("accepted", 2, 0), side, Accepted, Some(Submitted))
  }

  function Filled(side: Side): FillEvent {
    FillOf(At("filled", 3, 0), side, FillCreated, None)
  }

  function Confirm(side: Side, time: Instant): FillEvent {
    FillOf(At("confirmed", 4, time), side, Confirmed, Some(FillCreated))
  }

  /** The order and its fill, on day zero. */
  function Opening(side: Side): seq<Event> {
    [Created(side), Sent(side), Taken(side), FillEv(Filled(side))]
  }

  /** An account with a thousand in cash, no positions, and a market that accepts every order and settles on the day. */
  function Desk(short: bool, feeBook: Option<seq<FeeRule>>): Setup {
    Setup(Config("run", "account", 1000.0, "CNY", false, short, false, false, true, []),
      [MarketRule(Stock, 0, _ => true, day => Some(day))], feeBook)
  }

  /** A minimum commission of five and nothing else. */
  const FIVE := FeeRule(Stock, Buy, 0, "v1", 0.0, 5.0, 0.0, 0.0, 0.0, 1.0)

  function Recorded(s: State, latest: OrderRecord, e: Event): State {
    Commit(s.(orders := s.orders["order" := latest]), e)
  }

  function AfterCreated(su: Setup, side: Side): State {
    Recorded(InitialState(su.config), OrderRecord(Created(side).order, Created(side).order, 0.0), Created(side))
  }

  function AfterSent(su: Setup, side: Side): State {
    Recorded(AfterCreated(su, side), OrderRecord(Created(side).order, Sent(side).order, 0.0), Sent(side))
  }

  function AfterTaken(su: Setup, side: Side): State {
    Recorded(AfterSent(su, side), OrderRecord(Created(side).order, Taken(side).order, 0.0), Taken(side))
  }

  /** The state after the opening. */
  function Opened(su: Setup, side: Side): State {
    var s := AfterTaken(su, side);
    Commit(s.(fills := s.fills["fill" := FillRecord(Filled(side), Filled(side), false, 0.0, None, None, None)]),
      FillEv(Filled(side)))
  }

  lemma DeskIsValid(short: bool, feeBook: Option<seq<FeeRule>>)
    requires feeBook.Some? ==> ValidBook(feeBook.value)
    ensures ValidSetup(Desk(short, feeBook))
  {
  }

  /** An event whose header follows the clock commits what it does to the tables. */
  lemma Commits(su: Setup, s: State, e: Event, t: State)
    requires ValidSetup(su) && ValidEvent(e) && ValidateClock(su.config, s, e.Head()) == Pass
    requires Dispatch(su, s, e) == Ok(t)
    ensures ApplyEvent(su, s, e) == Ok(Commit(t, e))
  {
    hide Dispatch, ValidEvent, ValidateClock, ValidSetup;
  }

  lemma ValidOrders(side: Side)
    ensures ValidEvent(Created(side)) && ValidEvent(Sent(side)) && ValidEvent(Taken(side))
  {
  }

  lemma OrderIsCreated(short: bool, feeBook: Option<seq<FeeRule>>, side: Side)
    requires feeBook.Some? ==> ValidBook(feeBook.value)
    ensures var su := Desk(short, feeBook);
      ApplyEvent(su, InitialState(su.config), Created(side)) == Ok(AfterCreated(su, side))
  {
    hide ValidBook, ValidEvent, ValidOrder;
    var su := Desk(short, feeBook);
    var s, e := InitialState(su.config), Created(side);
    DeskIsValid(short, feeBook);
    ValidOrders(side);
    assert SelectRule(su.rules, Stock, 0) == Ok(su.rules[0]);
    Commits(su, s, e, CreateOrder(su, s, e.order).value);
  }

  /** An order moves on to a status that neither fills nor ends it. */
  lemma OrderAdvances(su: Setup, s: State, e: OrderEvent)
    requires ValidSetup(su) && ValidEvent(OrderEv(e)) && ValidateClock(su.config, s, e.head) == Pass
    requires e.orderId == "order" && "order" in s.orders && e.previous == Some(s.orders["order"].latest.status)
    requires InstructionOf(e) == InstructionOf(s.orders["order"].created) && e.status in {Submitted, Accepted}
    ensures ApplyEvent(su, s, OrderEv(e)) == Ok(Recorded(s, s.orders["order"].(latest := e), OrderEv(e)))
  {
    hide ValidSetup, ValidEvent, ValidateClock, InstructionOf, CreateOrder;
    Commits(su, s, OrderEv(e), ApplyOrder(su, s, e).value);
  }

  lemma OrderIsTaken(short: bool, feeBook: Option<seq<FeeRule>>, side: Side)
    requires feeBook.Some? ==> ValidBook(feeBook.value)
    ensures var su := Desk(short, feeBook);
      && ApplyEvent(su, AfterCreated(su, side), Sent(side)) == Ok(AfterSent(su, side))
      && ApplyEvent(su, AfterSent(su, side), Taken(side)) == Ok(AfterTaken(su, side))
  {
    hide ValidBook, ValidEvent, ValidOrder, ValidSetup, ApplyEvent, OpeningPositions;
    var su := Desk(short, feeBook);
    DeskIsValid(short, feeBook);
    ValidOrders(side);
    OrderAdvances(su, AfterCreated(su, side), Sent(side).order);
    OrderAdvances(su, AfterSent(su, side), Taken(side).order);
  }

  lemma ValidFills(side: Side, time: Instant)
    requires 0 <= time
    ensures ValidEvent(FillEv(Filled(side))) && ValidEvent(FillEv(Confirm(side, time)))
  {
  }

  lemma TakenFacts(su: Setup, side: Side)
    requires su.config.positions == []
    ensures var s := AfterTaken(su, side);
      && s.cash == su.config.initialCash && s.positions == map[] && s.targets == map[] && s.fills == map[]
      && s.orders == map["order" := OrderRecord(Created(side).order, Taken(side).order, 0.0)]
      && s.expectedCash == map[] && s.expectedPositions == map[]
      && s.eventIds == {"created", "submitted", "accepted"} && s.lastSequence == 2 && s.lastTime == Some(0)
      && s.lastDay == Some(0)
  {
  }

  lemma OpenedFacts(su: Setup, side: Side)
    requires su.config.positions == []
    ensures var s := Opened(su, side);
      && s.cash == su.config.initialCash && s.positions == map[] && s.targets == map[]
      && s.fills == map["fill" := FillRecord(Filled(side), Filled(side), false, 0.0, None, None, None)]
      && s.orders == map["order" := OrderRecord(Created(side).order, Taken(side).order, 0.0)]
      && s.expectedCash == map[] && s.expectedPositions == map[]
      && s.eventIds == {"created", "submitted", "accepted", "filled"} && s.lastSequence == 3
      && s.lastTime == Some(0) && s.lastDay == Some(0)
  {
    hide AfterTaken;
    TakenFacts(su, side);
  }

  lemma FillIsCreated(short: bool, feeBook: Option<seq<FeeRule>>, side: Side)
    requires feeBook.Some? ==> ValidBook(feeBook.value)
    ensures var su := Desk(short, feeBook);
      ApplyEvent(su, AfterTaken(su, side), FillEv(Filled(side))) == Ok(Opened(su, side))
  {
    hide ValidBook, ValidEvent, ValidOrder, ValidSetup, ApplyEvent, AfterTaken;
    var su := Desk(short, feeBook);
    var s, e := AfterTaken(su, side), Filled(side);
    DeskIsValid(short, feeBook);
    ValidFills(side, 0);
    TakenFacts(su, side);
    assert ActiveQuantity(s.fills, "order") == 0.0;
    Commits(su, s, FillEv(e), CreateFill(s, e).value);
  }

  /** The opening is accepted on every desk. */
  lemma OpeningRuns(short: bool, feeBook: Option<seq<FeeRule>>, side: Side)
    requires feeBook.Some? ==> ValidBook(feeBook.value)
    ensures var su := Desk(short, feeBook);
      ValidSetup(su) && Run(su, Opening(side), Opened(su, side))
  {
    hide ValidBook, ApplyEvent, AfterCreated, AfterSent, AfterTaken, Opened, Created, Sent, Taken, Filled,
      InitialState, ValidSetup, Desk;
    var su := Desk(short, feeBook);
    DeskIsValid(short, feeBook);
    OrderIsCreated(short, feeBook, side);
    OrderIsTaken(short, feeBook, side);
    FillIsCreated(short, feeBook, side);
    NoEvents(su);
    hide Run;
    var created, sent, taken := Created(side), Sent(side), Taken(side);
    assert [] + [created] == [created];
    RunAppend(su, [], InitialState(su.config), created, AfterCreated(su, side));
    RunAppend(su, [created], AfterCreated(su, side), sent, AfterSent(su, side));
    assert [created] + [sent] == [created, sent];
    RunAppend(su, [created, sent], AfterSent(su, side), taken, AfterTaken(su, side));
    assert [created, sent] + [taken] == [created, sent, taken];
    RunAppend(su, [created, sent, taken], AfterTaken(su, side), FillEv(Filled(side)), Opened(su, side));
    assert [created, sent, taken] + [FillEv(Filled(side))] == Opening(side);
  }

  lemma NoEvents(su: Setup)
    requires ValidSetup(su)
    ensures Run(su, [], InitialState(su.config))
  {
  }

  // ---------------------------------------------------------------- the confirmation

  /** Nothing is outstanding before the confirmation, so a trade that is allowed is committed. */
  lemma Confirmation(su: Setup, side: Side, time: Instant, traded: Traded)
    requires ValidSetup(su) && su.config.positions == [] && su.config.runId == "run" && 0 <= time
    requires ApplyTrade(su, Opened(su, side), Filled(side), Confirm(side, time)) == Ok(traded)
    requires traded.state.orders == Opened(su, side).orders && traded.state.fills == Opened(su, side).fills
    ensures var e := Confirm(side, time);
      var ledger := LedgerAt(traded.state, STOCK);
      var r := FillRecord(Filled(side), e, true, traded.openedLong, Some(ledger.quantity), Some(ledger.costBasis),
        None);
      ApplyEvent(su, Opened(su, side), FillEv(e))
        == Ok(Commit(traded.state.(fills := map["fill" := r],
             orders := map["order" := OrderRecord(Created(side).order, Taken(side).order, 10.0)]), FillEv(e)))
  {
    hide ApplyTrade, Opened, ValidSetup, ApplyEvent, ValidEvent, LedgerAt;
    var s, e := Opened(su, side), Confirm(side, time);
    OpenedFacts(su, side);
    ValidFills(side, time);
    assert !HasUncharged(s.fills);
    var t, ledger := traded.state, LedgerAt(traded.state, STOCK);
    var r := FillRecord(Filled(side), e, true, traded.openedLong, Some(ledger.quantity), Some(ledger.costBasis), None);
    assert t.fills["fill" := r] == map["fill" := r];
    var o := OrderRecord(Created(side).order, Taken(side).order, 10.0);
    assert t.orders["order" := o] == map["order" := o];
    Commits(su, s, FillEv(e), ConfirmFill(su, s, s.fills["fill"], e).value);
  }

  lemma Bought10(short: bool, feeBook: Option<seq<FeeRule>>)
    ensures Trade(Desk(short, feeBook), EMPTY_LEDGER, Filled(Buy))
      == Ok(Bought(PositionLedger(10.0, 1000.0, [Lot(10.0, 0)]), 10.0))
  {
    var su := Desk(short, feeBook);
    assert SelectRule(su.rules, Stock, 0) == Ok(su.rules[0]);
    assert su.rules[0].sellableOn(0) == Some(0);
    assert EMPTY_LEDGER.lots + [Lot(10.0, 0)] == [Lot(10.0, 0)];
    assert Times(10.0, 100.0) == 1000.0;
    hide Times, SelectRule;
  }

  lemma Sold10(feeBook: Option<seq<FeeRule>>)
    ensures Trade(Desk(true, feeBook), EMPTY_LEDGER, Filled(Sell)) == Ok(Bought(PositionLedger(-10.0, 1000.0, []), 0.0))
  {
  }

  /** The trade of the confirmation: its cash, its ledger, and both movements pending. */
  lemma TradeDone(su: Setup, side: Side, time: Instant, ledger: PositionLedger,
      openedLong: real) returns (traded: Traded)
    requires su.config.positions == [] && su.config.initialCash == 1000.0
    requires Trade(su, EMPTY_LEDGER, Filled(side)) == Ok(Bought(ledger, openedLong))
    ensures ApplyTrade(su, Opened(su, side), Filled(side), Confirm(side, time)) == Ok(traded)
    ensures var s, t, h := Opened(su, side), traded.state, Confirm(side, time).head;
      && t.orders == s.orders && t.fills == s.fills && t.targets == s.targets && t.eventIds == s.eventIds
      && t.cash == (if side == Buy then 0.0 else 2000.0) && LedgerAt(t, STOCK) == ledger
      && "confirmed" in t.expectedCash && t.expectedCash["confirmed"].day == h.day
      && "confirmed" in t.expectedPositions && t.expectedPositions["confirmed"].snapshot.quantity == ledger.quantity
      && t.expectedPositions.Keys == {"confirmed"}
  {
    hide Trade, Opened, SellableQuantity, ProRata;
    OpenedFacts(su, side);
    traded := ApplyTrade(su, Opened(su, side), Filled(side), Confirm(side, time)).value;
  }

  /** What the confirmed purchase leaves: no cash, and a fill without its fee. */
  lemma PurchaseConfirmed(feeBook: Option<seq<FeeRule>>, time: Instant) returns (t: State)
    requires (feeBook.Some? ==> ValidBook(feeBook.value)) && 0 <= time
    ensures var su := Desk(false, feeBook);
      ValidSetup(su) && Run(su, Opening(Buy) + [FillEv(Confirm(Buy, time))], t)
    ensures "fill" in t.fills && Uncharged(t.fills["fill"]) && t.fills["fill"].created == Filled(Buy)
    ensures t.cash == 0.0 && t.lastTime == Some(time) && t.lastDay == Some(TradingDayOf(time)) && t.lastSequence == 4
    ensures t.targets == map[] && "late" !in t.eventIds
    ensures "confirmed" in t.expectedCash && t.expectedCash["confirmed"].day == TradingDayOf(time)
    ensures !NegativePending(t)
  {
    hide ValidBook, ApplyEvent, ApplyTrade, Trade, Opened, ValidSetup, Run;
    var su := Desk(false, feeBook);
    OpeningRuns(false, feeBook, Buy);
    Bought10(false, feeBook);
    var traded := TradeDone(su, Buy, time, PositionLedger(10.0, 1000.0, [Lot(10.0, 0)]), 10.0);
    OpenedFacts(su, Buy);
    Confirmation(su, Buy, time, traded);
    t := ApplyEvent(su, Opened(su, Buy), FillEv(Confirm(Buy, time))).value;
    RunAppend(su, Opening(Buy), Opened(su, Buy), FillEv(Confirm(Buy, time)), t);
  }

  // ---------------------------------------------------------------- fees that can never be charged

  lemma FiveCharges()
    ensures Charge(1000.0, 0.0, 5.0, 1.0) == 5.0 && Charge(1000.0, 0.0, 0.0, 1.0) == 0.0
  {
    assert (5.0 / 1.0 + 0.5).Floor == 5 && (0.0 / 1.0 + 0.5).Floor == 0;
  }

  lemma FiveIsValid()
    ensures ValidBook([FIVE]) && FIVE.increment > 0.0 && FIVE.Fee(1000.0).total == 5.0
  {
    hide Charge;
    FiveCharges();
  }

  /** An accepted confirmation on the day after creation: from here no continuation completes with fees. */
  lemma LateConfirmationRun() returns (es: seq<Event>, t: State)
    ensures var su := Desk(false, Some([FIVE]));
      && |es| == 5 && ValidSetup(su) && Run(su, es, t)
      && Overdue(t, "fill") && !FeesCompletable(su, t)
  {
    hide Run, FeesCompletable, ValidBook, FeeRule.Fee;
    FiveIsValid();
    var su := Desk(false, Some([FIVE]));
    t := PurchaseConfirmed(Some([FIVE]), MICROS_PER_DAY);
    es := Opening(Buy) + [FillEv(Confirm(Buy, MICROS_PER_DAY))];
    assert !Chargeable(su, t, "fill");
    FeesCompletableExactly(su, es, t);
  }

  /** A purchase confirmed on its own day that spends all cash: its fee can never be paid. */
  lemma UnpaidFeeRun() returns (es: seq<Event>, t: State)
    ensures var su := Desk(false, Some([FIVE]));
      && |es| == 5 && ValidSetup(su) && Run(su, es, t)
      && !Overdue(t, "fill") && "fill" in t.fills && t.lastDay == Some(t.fills["fill"].created.head.day)
      && !FeesCompletable(su, t)
  {
    hide Run, FeesCompletable, ValidBook, FeeRule.Fee;
    FiveIsValid();
    var su := Desk(false, Some([FIVE]));
    t := PurchaseConfirmed(Some([FIVE]), 0);
    es := Opening(Buy) + [FillEv(Confirm(Buy, 0))];
    assert !Payable(su, 0.0, Filled(Buy)) by {
      assert forall rule :: rule in su.feeBook.value ==> rule == FIVE;
    }
    FeesCompletableExactly(su, es, t);
  }

  /** A purchase that no rule of the book covers. */
  lemma NoRuleRun() returns (es: seq<Event>, t: State)
    ensures var su := Desk(false, Some([]));
      && |es| == 5 && ValidSetup(su) && Run(su, es, t) && !FeesCompletable(su, t)
  {
    hide Run, FeesCompletable;
    var su := Desk(false, Some([]));
    t := PurchaseConfirmed(Some([]), 0);
    es := Opening(Buy) + [FillEv(Confirm(Buy, 0))];
    assert !Payable(su, 0.0, Filled(Buy));
    FeesCompletableExactly(su, es, t);
  }

  // ---------------------------------------------------------------- movements that can never be attested

  /** A sale of what is not held, where shorts are allowed: its snapshot is negative and stays pending. */
  lemma PendingShortRun() returns (es: seq<Event>, t: State)
    ensures var su := Desk(true, None);
      |es| == 5 && ValidSetup(su) && Run(su, es, t) && NegativePending(t) && Unattestable(t)
  {
    hide ApplyEvent, ApplyTrade, Trade, Opened, ValidSetup, Run;
    var su := Desk(true, None);
    OpeningRuns(true, None, Sell);
    Sold10(None);
    var traded := TradeDone(su, Sell, 0, PositionLedger(-10.0, 1000.0, []), 0.0);
    OpenedFacts(su, Sell);
    Confirmation(su, Sell, 0, traded);
    t := ApplyEvent(su, Opened(su, Sell), FillEv(Confirm(Sell, 0))).value;
    es := Opening(Sell) + [FillEv(Confirm(Sell, 0))];
    RunAppend(su, Opening(Sell), Opened(su, Sell), FillEv(Confirm(Sell, 0)), t);
    assert t.expectedPositions["confirmed"].snapshot.quantity < 0.0;
  }

  function NextDayTarget(): TargetEvent {
    TargetEvent(At("late", 5, MICROS_PER_DAY), STOCK, "late", 0, Flat, Some(0.0), None)
  }

  /** A purchase whose movements are still pending when the next day's first event arrives. */
  lemma MissedDayRun() returns (es: seq<Event>, t: State)
    ensures var su := Desk(false, None);
      |es| == 6 && ValidSetup(su) && Run(su, es, t) && !NegativePending(t) && Unattestable(t)
  {
    hide Run, ApplyEvent, ValidSetup;
    var su := Desk(false, None);
    var s := PurchaseConfirmed(None, 0);
    var e := TargetEv(NextDayTarget());
    Commits(su, s, e, ApplyTarget(su.config, s, NextDayTarget()).value);
    t := ApplyEvent(su, s, e).value;
    es := Opening(Buy) + [FillEv(Confirm(Buy, 0))] + [e];
    RunAppend(su, Opening(Buy) + [FillEv(Confirm(Buy, 0))], s, e, t);
    assert "confirmed" in t.expectedCash && t.expectedCash["confirmed"].day < t.lastDay.value;
  }
}
