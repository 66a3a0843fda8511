/** What one accepted event may change: the fill table, the ledgers and the pending attestations, kind by kind. */
module Steps {
  import opened Outcomes
  import opened Sums
  import opened Contracts
  import opened EngineModel
  import opened Lots
  import opened Bookkeeping
  import opened Attestation
  import opened EngineRuns

  /** The position a fill met, recomputed from the one it left. */
  function QuantityBefore(r: FillRecord): real
    requires r.quantityAfter.Some?
  {
    r.quantityAfter.value - SignedQuantity(r.created)
  }

  /** A confirmation applies its fill once: what it records about the position it met and left. */
  ghost predicate Confirms(s: State, f: FillEvent, t: State) {
    && f.fillId in s.fills && f.fillId in t.fills && t.fills == s.fills[f.fillId := t.fills[f.fillId]]
    && var r, n := s.fills[f.fillId], t.fills[f.fillId];
    && !r.applied && r.fee.None? && n.created == r.created && n.applied && n.fee.None? && n.latest == f
    && n.quantityAfter.Some? && QuantityBefore(n) == Held(s.positions, f.key) && f.key == n.created.key
    && f.fillId == n.created.fillId
    && f.orderId == n.created.orderId && f.quantity == n.created.quantity
    && n.openedLong == (if n.created.side == Buy then Max(0.0, Min(n.created.quantity, n.quantityAfter.value)) else 0.0)
    && f.key in t.positions && t.positions[f.key].quantity == n.quantityAfter.value
  }

  /** How the fill table moves. */
  ghost predicate FillsMove(s: State, e: Event, t: State) {
    match e
    case FillEv(f) =>
      if f.fillId !in s.fills
        then f.status == FillCreated && t.fills == s.fills[f.fillId := FillRecord(f, f, false, 0.0, None, None, None)]
      else if f.status == Confirmed then Confirms(s, f, t)
      else f.status != FillCreated && t.fills == s.fills[f.fillId := s.fills[f.fillId].(latest := f)]
    case FeeEv(x) =>
      && x.fillId in s.fills && s.fills[x.fillId].applied && s.fills[x.fillId].fee.None?
      && x.head.day == s.fills[x.fillId].created.head.day
      && t.fills == s.fills[x.fillId := s.fills[x.fillId].(fee := Some(x))]
    case _ => t.fills == s.fills
  }

  /** One ledger changes and its new snapshot becomes pending. */
  ghost predicate Moved(s: State, h: Header, t: State, k: Key) {
    && k in t.positions && t.positions == s.positions[k := t.positions[k]] && h.eventId !in s.expectedPositions
    && t.expectedPositions
      == s.expectedPositions[h.eventId := ExpectedPosition(h.time, h.day, SnapshotOf(k, t.positions[k], h.day))]
  }

  /** How ledgers and pending position attestations move together. */
  ghost predicate PositionsMove(s: State, e: Event, t: State) {
    match e
    case FillEv(f) =>
      if f.fillId in s.fills && f.status == Confirmed then Moved(s, f.head, t, f.key)
      else t.positions == s.positions && t.expectedPositions == s.expectedPositions
    case FeeEv(x) =>
      (t.positions == s.positions && t.expectedPositions == s.expectedPositions) || Moved(s, x.head, t, x.key)
    case PositionEv(p) =>
      && p.sourceEventId in s.expectedPositions && t.positions == s.positions
      && t.expectedPositions == s.expectedPositions - {p.sourceEventId}
      && var x := s.expectedPositions[p.sourceEventId];
      && p.head.day == x.day && 0.0 <= p.quantity
      && x.snapshot == PositionSnapshot(p.key, p.quantity, p.sellableQuantity, p.averageCost)
      && x.snapshot == SnapshotOf(p.key, LedgerAt(s, p.key), p.head.day)
    case _ => t.positions == s.positions && t.expectedPositions == s.expectedPositions
  }

  /** The event confirms a recorded fill. */
  predicate Confirming(s: State, e: Event) {
    e.FillEv? && e.fill.fillId in s.fills && e.fill.status == Confirmed
  }

  /** How cash and pending cash attestations move together: only confirmations and fees move cash. */
  ghost predicate CashMove(s: State, e: Event, t: State) {
    if e.CashEv? then
      && e.cash.sourceEventId in s.expectedCash && t.cash == s.cash == e.cash.balanceAfter
      && t.expectedCash == s.expectedCash - {e.cash.sourceEventId}
      && s.expectedCash[e.cash.sourceEventId].day == e.cash.head.day
      && s.expectedCash[e.cash.sourceEventId].balanceAfter == s.cash
    else
      || (t.cash == s.cash && t.expectedCash == s.expectedCash)
      || ((Confirming(s, e) || e.FeeEv?)
          && e.Head().eventId !in s.expectedCash && e.Head().eventId in t.expectedCash
          && t.expectedCash == s.expectedCash[e.Head().eventId := t.expectedCash[e.Head().eventId]]
          && CashPending(t.expectedCash[e.Head().eventId], e.Head(), t.cash))
  }

  predicate CashPending(x: ExpectedCash, h: Header, balance: real) {
    x.sourceTime == h.time && x.day == h.day && 0.0 < x.amount && x.balanceAfter == balance
  }

  /** The clock of an accepted event. */
  ghost predicate ClockMove(s: State, e: Event, t: State) {
    && e.Head().eventId !in s.eventIds && t.eventIds == s.eventIds + {e.Head().eventId} && t.events == s.events + [e]
    && s.lastSequence < e.Head().sequence == t.lastSequence
    && (s.lastTime.Some? ==> s.lastTime.value <= e.Head().time)
    && t.lastTime == Some(e.Head().time) && t.lastDay == Some(e.Head().day)
    && e.Head().day == TradingDayOf(e.Head().time)
  }

  // ---------------------------------------------------------------- fills

  lemma ConfirmMoves(su: Setup, s: State, e: FillEvent, t: State)
    requires ValidSetup(su) && BooksOk(su.config, s) && ValidFill(e) && e.fillId in s.fills && e.status == Confirmed
    requires ApplyFill(su, s, e) == Ok(t)
    ensures Confirms(s, e, t) && Moved(s, e.head, t, e.key) && CashMove(s, FillEv(e), t)
  {
    hide ConfirmFill, ApplyTrade, Trade, ValidFill, FillsOk, OrdersOk, QuantitiesOk, CashOk, LedgersOk, ValidSetup,
      SnapshotOf;
    PendingFacts(s.orders, s.fills, e);
    var r := s.fills[e.fillId];
    var traded := ConfirmShape(su, s, e, t);
    TradeShape(su, s, r.created, e, traded);
    TradeKeepsLedgers(su, s, r.created, e, traded);
    PendingIdentity(s.orders, s.fills, e.fillId);
    OpenedIs(su, s, r.created, e, traded);
    TradePending(su, s, r.created, e, traded);
    GrossPositive(r.created);
  }

  lemma PendingIdentity(orders: map<Id, OrderRecord>, fills: map<Id, FillRecord>, id: Id)
    requires FillsOk(orders, fills) && id in fills
    ensures fills[id].created.fillId == id
  {
    assert FillOk(orders, id, fills[id]);
  }

  lemma OpenedIs(su: Setup, s: State, f: FillEvent, source: FillEvent, r: Traded)
    requires LedgersOk(su.config, s.cash, s.positions) && ValidFill(f) && ApplyTrade(su, s, f, source) == Ok(r)
    ensures r.openedLong == if f.side == Buy
      then Max(0.0, Min(f.quantity, Held(s.positions, f.key) + f.quantity)) else 0.0
  {
    TradeShape(su, s, f, source, r);
    assert WellFormed(LedgerAt(s, f.key));
    if f.side == Buy {
      BuyEffect(su, LedgerAt(s, f.key), f);
    }
    hide WellFormed, ApplyTrade, ValidFill, ApplyBuy, ApplySell;
  }

  lemma TradePending(su: Setup, s: State, f: FillEvent, source: FillEvent, r: Traded)
    requires ApplyTrade(su, s, f, source) == Ok(r)
    ensures f.key in r.state.positions
    ensures r.state.expectedPositions == s.expectedPositions[source.head.eventId :=
      ExpectedPosition(source.head.time, source.head.day, SnapshotOf(f.key, r.state.positions[f.key], source.head.day))]
  {
    hide Trade, SnapshotOf, MoveCash, ExpectPosition;
    var moved := MoveCash(su.config, s, CashDelta(f), source.head).value;
    MoveKeepsPositions(su.config, s, CashDelta(f), source.head, moved);
    var ledger := Trade(su, LedgerAt(s, f.key), f).value.ledger;
    ExpectIs(moved.(positions := moved.positions[f.key := ledger]), source.head, f.key, ledger, r.state);
  }

  lemma MoveKeepsPositions(c: Config, s: State, delta: real, source: Header, t: State)
    requires MoveCash(c, s, delta, source) == Ok(t)
    ensures t.positions == s.positions && t.expectedPositions == s.expectedPositions
  {
  }

  lemma ExpectIs(s: State, source: Header, k: Key, ledger: PositionLedger, t: State)
    requires ExpectPosition(s, source, k, ledger) == Ok(t)
    ensures t.positions == s.positions
    ensures t.expectedPositions == s.expectedPositions[source.eventId :=
      ExpectedPosition(source.time, source.day, SnapshotOf(k, ledger, source.day))]
  {
    hide SnapshotOf;
  }

  lemma FillMoves(su: Setup, s: State, e: FillEvent, t: State)
    requires ValidSetup(su) && BooksOk(su.config, s) && ValidFill(e) && ApplyFill(su, s, e) == Ok(t)
    ensures FillsMove(s, FillEv(e), t) && PositionsMove(s, FillEv(e), t) && CashMove(s, FillEv(e), t)
  {
    hide BooksOk, ConfirmFill, CreateFill, ValidFill, Confirms, Moved, CashPending;
    if e.fillId !in s.fills {
      CreatedFillOk(su.config, s, e, t);
      CreatedStatus(s, e);
    } else if e.status == Confirmed {
      ConfirmMoves(su, s, e, t);
    } else {
      AdvancedStatus(e);
    }
  }

  lemma CreatedStatus(s: State, e: FillEvent)
    requires CreateFill(s, e).Ok?
    ensures e.status == FillCreated
  {
  }

  lemma AdvancedStatus(e: FillEvent)
    requires ValidFill(e) && e.previous.Some?
    ensures e.status != FillCreated
  {
  }

  // ---------------------------------------------------------------- fees

  lemma FeeMoves(su: Setup, s: State, e: FeeEvent, t: State)
    requires ValidSetup(su) && BooksOk(su.config, s) && ValidFee(e) && ApplyFee(su, s, e) == Ok(t)
    ensures FillsMove(s, FeeEv(e), t) && PositionsMove(s, FeeEv(e), t) && CashMove(s, FeeEv(e), t)
  {
    hide ApplyFee, ValidFee, LedgersOk, FillsOk, OrdersOk, QuantitiesOk, CashOk, ValidSetup, SnapshotOf, CheckFeeRule;
    FeeShape(su, s, e, t);
    FeeGuards(su, s, e, t);
    NonNegativeFee(e);
  }

  lemma NonNegativeFee(e: FeeEvent)
    requires ValidFee(e)
    ensures 0.0 <= e.total
  {
  }

  lemma FeeGuards(su: Setup, s: State, e: FeeEvent, t: State)
    requires ValidSetup(su) && ApplyFee(su, s, e) == Ok(t)
    ensures e.fillId in s.fills && e.head.day == s.fills[e.fillId].created.head.day
    ensures (t.positions == s.positions && t.expectedPositions == s.expectedPositions) || Moved(s, e.head, t, e.key)
  {
    hide CheckFeeRule, SnapshotOf, ProRata, ValidSetup, ChargeFee, AllocateFee, Moved;
    var r := s.fills[e.fillId];
    var charged := ChargeFee(su.config, s, e).value;
    ChargeKeeps(su.config, s, e, charged);
    AllocateMoves(charged.(fills := charged.fills[e.fillId := r.(fee := Some(e))]), r, e, t);
    MovedSame(charged.(fills := charged.fills[e.fillId := r.(fee := Some(e))]), s, e.head, t, e.key);
  }

  lemma AllocateMoves(s: State, r: FillRecord, e: FeeEvent, t: State)
    requires AllocateFee(s, r, e) == Ok(t)
    ensures (t.positions == s.positions && t.expectedPositions == s.expectedPositions) || Moved(s, e.head, t, e.key)
  {
    hide SnapshotOf, ProRata;
  }

  lemma MovedSame(x: State, y: State, h: Header, t: State, k: Key)
    requires x.positions == y.positions && x.expectedPositions == y.expectedPositions
    ensures Moved(x, h, t, k) == Moved(y, h, t, k)
  {
    hide SnapshotOf;
  }

  // ---------------------------------------------------------------- all events

  predicate QuietTables(s: State, t: State) {
    && t.fills == s.fills && t.positions == s.positions && t.expectedPositions == s.expectedPositions
    && t.cash == s.cash && t.expectedCash == s.expectedCash
  }

  lemma TargetMoves(c: Config, s: State, e: TargetEvent, t: State)
    requires ApplyTarget(c, s, e) == Ok(t)
    ensures QuietTables(s, t)
  {
  }

  lemma OrderMoves(su: Setup, s: State, e: OrderEvent, t: State)
    requires ApplyOrder(su, s, e) == Ok(t)
    ensures QuietTables(s, t)
  {
    hide SelectRule, ValidateTargetOrder, InstructionOf, HasOverlap;
  }

  lemma AttestMoves(su: Setup, s: State, e: Event, t: State)
    requires ValidSetup(su) && ValidEvent(e) && (e.CashEv? || e.PositionEv?) && Dispatch(su, s, e) == Ok(t)
    ensures FillsMove(s, e, t) && PositionsMove(s, e, t) && CashMove(s, e, t)
  {
    hide SnapshotOf, ValidSetup;
  }

  /** Every accepted event moves the tables in one of these ways. */
  ghost predicate StepMoves(s: State, e: Event, t: State) {
    FillsMove(s, e, t) && PositionsMove(s, e, t) && CashMove(s, e, t) && ClockMove(s, e, t)
  }

  lemma StepIsMove(su: Setup, s: State, e: Event, t: State)
    requires ValidSetup(su) && Inv(su, s) && ApplyEvent(su, s, e) == Ok(t)
    ensures StepMoves(s, e, t)
  {
    hide Inv, BooksOk, ApplyTarget, ApplyOrder, ApplyFill, ApplyFee, AttestCash, AttestPosition, ValidOrder,
      ValidTarget, ValidFill, ValidFee, ValidPosition, ValidCash, ValidSetup, FillsMove, PositionsMove, CashMove;
    InvBooks(su, s);
    var u := Dispatch(su, s, e).value;
    StepAppends(su, s, e, t);
    DispatchKeepsClock(su, s, e, u);
    DispatchMoves(su, s, e, u);
    CommitMoves(s, e, u);
  }

  lemma DispatchMoves(su: Setup, s: State, e: Event, u: State)
    requires ValidSetup(su) && BooksOk(su.config, s) && ValidEvent(e) && Dispatch(su, s, e) == Ok(u)
    ensures FillsMove(s, e, u) && PositionsMove(s, e, u) && CashMove(s, e, u)
  {
    hide BooksOk, ApplyTarget, ApplyOrder, ApplyFill, ApplyFee, AttestCash, AttestPosition, ValidOrder, ValidTarget,
      ValidFill, ValidFee, ValidPosition, ValidCash, ValidSetup, Confirms, Moved;
    match e {
      case FillEv(x) => FillMoves(su, s, x, u);
      case FeeEv(x) => FeeMoves(su, s, x, u);
      case CashEv(_) => AttestMoves(su, s, e, u);
      case PositionEv(_) => AttestMoves(su, s, e, u);
      case TargetEv(x) => TargetMoves(su.config, s, x, u);
      case OrderEv(x) => OrderMoves(su, s, x, u);
      case SignalEv(_) =>
    }
  }

  lemma DispatchKeepsClock(su: Setup, s: State, e: Event, u: State)
    requires ValidSetup(su) && Inv(su, s) && ApplyEvent(su, s, e).Ok? && Dispatch(su, s, e) == Ok(u)
    ensures u.events == s.events && u.eventIds == s.eventIds
  {
    hide Inv, BooksOk, FeesOk, AttestOk, Dispatch, ValidEvent, ValidSetup;
    DispatchStep(su, s, e, u);
  }

  lemma CommitMoves(s: State, e: Event, u: State)
    requires FillsMove(s, e, u) && PositionsMove(s, e, u) && CashMove(s, e, u)
    ensures FillsMove(s, e, Commit(u, e)) && PositionsMove(s, e, Commit(u, e)) && CashMove(s, e, Commit(u, e))
  {
  }
}
