/** Settlement safety over whole runs: nothing is sold before it has settled. */
module Settlement {
  import opened Outcomes
  import opened Sums
  import opened Contracts
  import opened EngineModel
  import opened Lots
  import opened Bookkeeping
  import opened Attestation
  import opened EngineRuns
  import opened CNMarket
  import opened Steps

  /** Every market rule for the instrument type answers a date strictly after the acquisition. */
  ghost predicate TPlusOne(su: Setup, kind: InstrumentType) {
    forall i, day: Day {:trigger su.rules[i].sellableOn(day)} ::
      0 <= i < |su.rules| && su.rules[i].instrumentType == kind && su.rules[i].sellableOn(day).Some? ==>
        day < su.rules[i].sellableOn(day).value
  }

  /** Rules made from the China market with at least one settlement day for the type do. */
  lemma ChinaRulesSettle(su: Setup, rules: seq<CNMarketRule>, kind: InstrumentType)
    requires |rules| == |su.rules|
    requires forall i :: 0 <= i < |rules| ==> rules[i].Valid() && su.rules[i] == AsMarketRule(rules[i])
    requires forall i :: 0 <= i < |rules| && rules[i].instrumentType == kind ==> 1 <= rules[i].settlementDays
    ensures TPlusOne(su, kind)
  {
    forall i, day: Day | 0 <= i < |su.rules| && su.rules[i].instrumentType == kind && su.rules[i].sellableOn(day).Some?
      ensures day < su.rules[i].sellableOn(day).value
    {
      assert su.rules[i] == AsMarketRule(rules[i]);
      SettlementMonotone(rules[i], day, day);
    }
  }

  lemma SettlesLater(su: Setup, f: FillEvent)
    requires TPlusOne(su, f.key.instrumentType) && SettlesOn(su, f).Some?
    ensures f.head.day < SettlesOn(su, f).value
  {
    RuleInForce(su.rules, f.key.instrumentType, f.head.day);
    var rule := SelectRule(su.rules, f.key.instrumentType, f.head.day).value;
    var i :| 0 <= i < |su.rules| && su.rules[i] == rule;
  }

  // ---------------------------------------------------------------- the settlement account

  function LotsAt(positions: map<Key, PositionLedger>, k: Key): seq<Lot> {
    if k in positions then positions[k].lots else []
  }

  /** The long units a sale closed: what of its quantity the position before it covered. */
  function ClosedLong(r: FillRecord): real {
    if r.quantityAfter.Some? then Max(0.0, Min(r.created.quantity, r.quantityAfter.value + r.created.quantity)) else 0.0
  }

  /** Long units opened by applied purchases dated strictly before a day. */
  ghost function BoughtBefore(k: Key, t: Day): FillRecord -> real {
    (r: FillRecord) => if r.applied && r.created.key == k && r.created.side == Buy && r.created.head.day < t
      then r.openedLong else 0.0
  }

  /** Long units closed by applied sales dated on or before a day. */
  ghost function SoldThrough(k: Key, t: Day): FillRecord -> real {
    (r: FillRecord) => if r.applied && r.created.key == k && r.created.side == Sell && r.created.head.day <= t
      then ClosedLong(r) else 0.0
  }

  /** Sellable lots never exceed what had settled, less what was sold: for one instrument and day. */
  ghost predicate SettledAt(c: Config, positions: map<Key, PositionLedger>, fills: map<Id, FillRecord>, k: Key,
      t: Day) {
    SellableTotal(LotsAt(positions, k), t) + Total(fills, SoldThrough(k, t))
      <= SellableTotal(LotsAt(OpeningPositions(c.positions), k), t) + Total(fills, BoughtBefore(k, t))
  }

  ghost predicate Settled(c: Config, s: State, kind: InstrumentType) {
    forall k: Key, t: Day :: k.instrumentType == kind ==> SettledAt(c, s.positions, s.fills, k, t)
  }

  /** The record is new and not applied, or differs only in its latest event or its fee. */
  predicate SameFacts(fills: map<Id, FillRecord>, id: Id, r: FillRecord) {
    if id in fills then r == fills[id].(latest := r.latest, fee := r.fee) else !r.applied
  }

  /** A change that leaves lots and economic facts alone keeps the account. */
  lemma QuietPut(c: Config, s: State, id: Id, r: FillRecord, k: Key, t: Day)
    requires SettledAt(c, s.positions, s.fills, k, t) && SameFacts(s.fills, id, r)
    ensures SettledAt(c, s.positions, s.fills[id := r], k, t)
  {
    TotalPut(s.fills, SoldThrough(k, t), id, r);
    TotalPut(s.fills, BoughtBefore(k, t), id, r);
  }

  lemma QuietFills(c: Config, s: State, id: Id, r: FillRecord, u: State, kind: InstrumentType)
    requires Settled(c, s, kind) && u.fills == s.fills[id := r] && SameFacts(s.fills, id, r)
    requires forall k: Key :: LotsAt(u.positions, k) == LotsAt(s.positions, k)
    ensures Settled(c, u, kind)
  {
    forall k: Key, t: Day | k.instrumentType == kind ensures SettledAt(c, u.positions, u.fills, k, t) {
      assert SettledAt(c, s.positions, s.fills, k, t);
      QuietPut(c, s, id, r, k, t);
      assert LotsAt(u.positions, k) == LotsAt(s.positions, k);
    }
  }

  /** The part of a sale that closes a long position. */
  function Closing(ledger: PositionLedger, f: FillEvent): real {
    Min(f.quantity, Max(ledger.quantity, 0.0))
  }

  /** How one trade moves the lots sellable on any day, when unsettled sales are forbidden. */
  lemma TradeSellable(su: Setup, ledger: PositionLedger, f: FillEvent, t: Day)
    requires TPlusOne(su, f.key.instrumentType) && !su.config.allowUnsettledSales
    requires WellFormed(ledger) && ValidFill(f) && Trade(su, ledger, f).Ok?
    ensures var r := Trade(su, ledger, f).value;
      && SellableTotal(r.ledger.lots, t) <= SellableTotal(ledger.lots, t)
           + (if f.side == Buy && f.head.day < t then r.openedLong else 0.0)
           - (if f.side == Sell && f.head.day <= t then Closing(ledger, f) else 0.0)
      && (f.side == Sell ==> Closing(ledger, f) == Max(0.0, Min(f.quantity, r.ledger.quantity + f.quantity)))
  {
    if f.side == Buy {
      BuyEffect(su, ledger, f);
      var gained := Trade(su, ledger, f).value.openedLong;
      if 0.0 < gained {
        SettlesLater(su, f);
        TotalsOfAppend(ledger.lots, Lot(gained, SettlesOn(su, f).value), t);
      }
    } else {
      SellEffect(su.config, ledger, f);
      SaleSellable(su.config, ledger, f, t);
    }
  }

  /**
   * Without unsettled sales the closing part of a sale takes only units sellable on its own date, and takes exactly
   * that part.
   */
  lemma SaleSellable(c: Config, ledger: PositionLedger, f: FillEvent, t: Day)
    requires !c.allowUnsettledSales
    requires WellFormed(ledger) && 0.0 < f.quantity && ApplySell(c, ledger, f).Ok?
    ensures var after := ApplySell(c, ledger, f).value;
      && SellableTotal(after.lots, t) <= SellableTotal(ledger.lots, t)
      && (f.head.day <= t ==> SellableTotal(after.lots, t) == SellableTotal(ledger.lots, t) - Closing(ledger, f))
      && LotTotal(after.lots) - SellableTotal(after.lots, f.head.day)
        == LotTotal(ledger.lots) - SellableTotal(ledger.lots, f.head.day)
  {
    hide ProRata;
    var closing := Closing(ledger, f);
    TotalsBounded(ledger.lots, t);
    TotalsBounded(ledger.lots, f.head.day);
    ConsumeExact(ledger.lots, closing, f.head.day, false);
    ConsumeSellable(ledger.lots, closing, f.head.day, false, t);
    ConsumeSellable(ledger.lots, closing, f.head.day, false, f.head.day);
    SellableGrows(ledger.lots, f.head.day, t);
    hide ConsumeLots, SellableTotal, LotTotal;
    NothingSellable(t);
    NothingSellable(f.head.day);
  }

  lemma NothingSellable(t: Day)
    ensures SellableTotal([], t) == 0.0 && LotTotal([]) == 0.0
  {
  }

  lemma {:induction false} SellableGrows(lots: seq<Lot>, a: Day, b: Day)
    requires forall i :: 0 <= i < |lots| ==> 0.0 <= lots[i].quantity
    ensures a <= b ==> SellableTotal(lots, a) <= SellableTotal(lots, b)
  {
    if lots != [] {
      SellableGrows(lots[1..], a, b);
    }
  }

  lemma ConfirmSettledAt(su: Setup, s: State, u: State, id: Id, r: FillRecord, k: Key, t: Day)
    requires TPlusOne(su, k.instrumentType) && !su.config.allowUnsettledSales
    requires SettledAt(su.config, s.positions, s.fills, k, t)
    requires id in s.fills && !s.fills[id].applied && r.applied && u.fills == s.fills[id := r]
    requires WellFormed(LedgerAt(s, r.created.key)) && ValidFill(r.created)
    requires r.created.key in u.positions && u.positions == s.positions[r.created.key := u.positions[r.created.key]]
    requires Trade(su, LedgerAt(s, r.created.key), r.created).Ok?
    requires Trade(su, LedgerAt(s, r.created.key), r.created).value == Bought(u.positions[r.created.key], r.openedLong)
    requires r.quantityAfter == Some(u.positions[r.created.key].quantity)
    ensures SettledAt(su.config, u.positions, u.fills, k, t)
  {
    hide TPlusOne, WellFormed, Trade, ValidFill;
    TotalPut(s.fills, SoldThrough(k, t), id, r);
    TotalPut(s.fills, BoughtBefore(k, t), id, r);
    if k == r.created.key {
      TradeSellable(su, LedgerAt(s, k), r.created, t);
      assert LotsAt(s.positions, k) == LedgerAt(s, k).lots;
    }
  }

  lemma ConfirmSettled(su: Setup, s: State, e: FillEvent, u: State, kind: InstrumentType)
    requires ValidSetup(su) && TPlusOne(su, kind) && !su.config.allowUnsettledSales
    requires BooksOk(su.config, s) && Settled(su.config, s, kind) && ValidFill(e)
    requires e.fillId in s.fills && e.status == Confirmed && ApplyFill(su, s, e) == Ok(u)
    ensures Settled(su.config, u, kind)
  {
    hide FillsOk, OrdersOk, QuantitiesOk, CashOk, ConfirmFill, ApplyTrade, Trade, ValidFill, TPlusOne, FillOk,
      WellFormed, ValidSetup;
    PendingFacts(s.orders, s.fills, e);
    var r := s.fills[e.fillId];
    var traded := ConfirmShape(su, s, e, u);
    TradeShape(su, s, r.created, e, traded);
    assert WellFormed(LedgerAt(s, r.created.key)) by { EmptyWellFormed(); }
    var after := u.fills[e.fillId];
    forall k: Key, t: Day | k.instrumentType == kind ensures SettledAt(su.config, u.positions, u.fills, k, t) {
      assert SettledAt(su.config, s.positions, s.fills, k, t);
      ConfirmSettledAt(su, s, u, e.fillId, after, k, t);
    }
  }

  lemma EmptyWellFormed()
    ensures WellFormed(EMPTY_LEDGER)
  {
  }

  lemma QuietFillSettled(su: Setup, s: State, e: FillEvent, u: State, kind: InstrumentType)
    requires BooksOk(su.config, s) && Settled(su.config, s, kind) && ValidFill(e) && ApplyFill(su, s, e) == Ok(u)
    requires e.fillId !in s.fills || e.status != Confirmed
    ensures Settled(su.config, u, kind)
  {
    hide BooksOk, CreateFill, ConfirmFill, ValidFill, SettledAt, Settled;
    if e.fillId !in s.fills {
      CreatedFillOk(su.config, s, e, u);
      QuietFills(su.config, s, e.fillId, u.fills[e.fillId], u, kind);
    } else {
      QuietFills(su.config, s, e.fillId, u.fills[e.fillId], u, kind);
    }
  }

  lemma FeeSettled(su: Setup, s: State, e: FeeEvent, u: State, kind: InstrumentType)
    requires ValidSetup(su) && BooksOk(su.config, s) && Settled(su.config, s, kind) && ValidFee(e)
    requires ApplyFee(su, s, e) == Ok(u)
    ensures Settled(su.config, u, kind)
  {
    hide ApplyFee, ValidSetup, ValidFee, SettledAt, Settled, FillsOk, OrdersOk, LedgersOk, QuantitiesOk, CashOk;
    FeeShape(su, s, e, u);
    FeePositions(su, s, e, u);
    forall k: Key ensures LotsAt(u.positions, k) == LotsAt(s.positions, k) {}
    QuietFills(su.config, s, e.fillId, u.fills[e.fillId], u, kind);
  }

  lemma OtherSettled(su: Setup, s: State, e: Event, u: State)
    requires ValidSetup(su) && BooksOk(su.config, s) && ValidEvent(e) && Dispatch(su, s, e) == Ok(u)
    requires !e.FillEv? && !e.FeeEv?
    ensures u.positions == s.positions && u.fills == s.fills
  {
    hide BooksOk, Dispatch, ValidEvent, ValidSetup, CashMove, SnapshotOf;
    DispatchMoves(su, s, e, u);
  }

  lemma StepKeepsSettled(su: Setup, s: State, e: Event, t: State, kind: InstrumentType)
    requires ValidSetup(su) && TPlusOne(su, kind) && !su.config.allowUnsettledSales
    requires BooksOk(su.config, s) && Settled(su.config, s, kind) && ApplyEvent(su, s, e) == Ok(t)
    ensures Settled(su.config, t, kind)
  {
    hide ApplyTarget, ApplyOrder, ApplyFill, ApplyFee, AttestCash, AttestPosition, BooksOk, TPlusOne, ValidOrder,
      ValidFill, ValidFee, ValidSetup, SettledAt;
    var u := Dispatch(su, s, e).value;
    if e.FillEv? {
      if e.fill.fillId in s.fills && e.fill.status == Confirmed {
        ConfirmSettled(su, s, e.fill, u, kind);
      } else {
        QuietFillSettled(su, s, e.fill, u, kind);
      }
    } else if e.FeeEv? {
      FeeSettled(su, s, e.fee, u, kind);
    } else {
      OtherSettled(su, s, e, u);
    }
    assert t.positions == u.positions && t.fills == u.fills;
  }

  lemma {:induction false} RunKeepsSettled(su: Setup, s: State, es: seq<Event>, t: State, kind: InstrumentType)
    requires ValidSetup(su) && TPlusOne(su, kind) && !su.config.allowUnsettledSales
    requires Inv(su, s) && Settled(su.config, s, kind) && ApplyAll(su, s, es) == Ok(t)
    ensures Settled(su.config, t, kind)
    decreases |es|
  {
    hide Inv, BooksOk, ApplyEvent, TPlusOne, Settled, ValidSetup;
    if es != [] {
      var u := ApplyEvent(su, s, es[0]).value;
      StepKeepsInv(su, s, es[0], u);
      InvBooks(su, s);
      StepKeepsSettled(su, s, es[0], u, kind);
      RunKeepsSettled(su, u, es[1..], t, kind);
    }
  }

  /**
   * T+1 over whole runs. With rules for the instrument's type that settle later and no unsettled sales, shorts allowed
   * or not, for every such instrument and every day: all long units that fills dated up to that day closed are covered
   * by stock sellable at the opening plus the long units that fills dated strictly earlier opened.
   */
  lemma NothingSoldBeforeSettlement(su: Setup, es: seq<Event>, s: State, k: Key, t: Day)
    requires ValidSetup(su) && TPlusOne(su, k.instrumentType) && !su.config.allowUnsettledSales
    requires Run(su, es, s)
    ensures Total(s.fills, SoldThrough(k, t))
      <= SellableTotal(LotsAt(OpeningPositions(su.config.positions), k), t) + Total(s.fills, BoughtBefore(k, t))
  {
    InitialInv(su);
    RunKeepsSettled(su, InitialState(su.config), es, s, k.instrumentType);
    assert SettledAt(su.config, s.positions, s.fills, k, t);
    RunInv(su, es, s);
    hide FillsOk, OrdersOk, QuantitiesOk, CashOk, FeesOk, AttestOk, ReplayOk, ApplyAll;
    TotalsBounded(LotsAt(s.positions, k), t);
  }

  // ---------------------------------------------------------------- without shorts every unit is a long unit

  /** What an applied fill records: the long units it opened or closed, and no short when shorts are forbidden. */
  predicate RecordedOk(c: Config, r: FillRecord) {
    r.applied ==>
      && r.quantityAfter.Some?
      && r.openedLong
        == (if r.created.side == Buy then Max(0.0, Min(r.created.quantity, r.quantityAfter.value)) else 0.0)
      && (!c.allowShortSales ==> 0.0 <= QuantityBefore(r) && 0.0 <= r.quantityAfter.value)
  }

  ghost predicate AllRecorded(c: Config, s: State) {
    forall id :: id in s.fills ==> RecordedOk(c, s.fills[id])
  }

  lemma StepKeepsRecorded(c: Config, s: State, e: Event, t: State)
    requires AllRecorded(c, s) && StepMoves(s, e, t) && LedgersOk(c, s.cash, s.positions)
    requires LedgersOk(c, t.cash, t.positions)
    ensures AllRecorded(c, t)
  {
    hide PositionsMove, CashMove, ClockMove, WellFormed;
    forall id | id in t.fills
      ensures RecordedOk(c, t.fills[id])
    {
      assert id in s.fills ==> RecordedOk(c, s.fills[id]);
    }
  }

  lemma BooksLedgers(su: Setup, s: State)
    requires ValidSetup(su) && Inv(su, s)
    ensures LedgersOk(su.config, s.cash, s.positions)
  {
    hide FeesOk, AttestOk, ReplayOk, QuantitiesOk, CashOk, FillsOk, OrdersOk;
  }

  lemma {:induction false} RunKeepsRecorded(su: Setup, s: State, es: seq<Event>, t: State)
    requires ValidSetup(su) && Inv(su, s) && AllRecorded(su.config, s) && ApplyAll(su, s, es) == Ok(t)
    ensures AllRecorded(su.config, t)
    decreases |es|
  {
    hide Inv, ApplyEvent, AllRecorded, ValidSetup, StepMoves, LedgersOk;
    if es != [] {
      var u := ApplyEvent(su, s, es[0]).value;
      StepKeepsInv(su, s, es[0], u);
      StepIsMove(su, s, es[0], u);
      BooksLedgers(su, s);
      BooksLedgers(su, u);
      StepKeepsRecorded(su.config, s, es[0], u);
      RunKeepsRecorded(su, u, es[1..], t);
    }
  }

  /**
   * Where shorts are forbidden an applied purchase opens its whole quantity and an applied sale closes its whole
   * quantity.
   */
  lemma WholeFillsAreLong(su: Setup, es: seq<Event>, s: State, id: Id)
    requires ValidSetup(su) && Run(su, es, s) && !su.config.allowShortSales && id in s.fills && s.fills[id].applied
    ensures var r := s.fills[id];
      if r.created.side == Buy then r.openedLong == r.created.quantity else ClosedLong(r) == r.created.quantity
  {
    hide Inv, ApplyAll, ValidSetup, ValidateFillOrder;
    InitialInv(su);
    RunKeepsRecorded(su, InitialState(su.config), es, s);
    RunInv(su, es, s);
    FillQuantityPositive(su, s, id);
    assert RecordedOk(su.config, s.fills[id]);
  }

  lemma FillQuantityPositive(su: Setup, s: State, id: Id)
    requires ValidSetup(su) && Inv(su, s) && id in s.fills
    ensures 0.0 < s.fills[id].created.quantity
  {
    hide FeesOk, AttestOk, ReplayOk, QuantitiesOk, CashOk, LedgersOk, OrdersOk, ValidateFillOrder;
    assert FillOk(s.orders, id, s.fills[id]);
  }

  /** On real trading days the opening part is the configured sellable quantity of the instrument's opening position. */
  lemma {:induction false} OpeningSellable(ps: seq<InitialPosition>, i: nat, t: Day)
    requires i < |ps| && DATE_MIN <= t < DATE_MAX
    requires forall j :: 0 <= j < |ps| ==> ValidPositionInput(ps[j])
    requires forall j, k :: 0 <= j < k < |ps| ==> ps[j].key != ps[k].key
    ensures SellableTotal(LotsAt(OpeningPositions(ps), ps[i].key), t) == ps[i].sellableQuantity
  {
    var n := |ps| - 1;
    OpeningWellFormed(ps[n]);
    if i < n {
      OpeningSellable(ps[..n], i, t);
    }
  }
}
