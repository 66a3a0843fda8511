/** Attestation accounting, the fee lag, and agreement with the replay validator, event by event. */
module Attestation {
  import opened Outcomes
  import opened Sums
  import opened Contracts
  import opened FeeRules
  import opened EngineModel
  import opened Bookkeeping
  import opened ReplayStream

  // ---------------------------------------------------------------- every dispatched event

  ghost function ExpectedWeight(): ExpectedCash -> real {
    (x: ExpectedCash) => if x.direction == Credit then x.amount else -x.amount
  }

  /** What any accepted event but an attestation does to cash: nothing, or one expectation of exactly that movement. */
  ghost predicate CashStep(s: State, h: Header, t: State) {
    || (t.cash == s.cash && t.expectedCash == s.expectedCash)
    || (exists x: ExpectedCash :: 0.0 < x.amount && h.eventId !in s.expectedCash
          && t.cash == s.cash + ExpectedWeight()(x)
          && t.expectedCash == s.expectedCash[h.eventId := x])
  }

  ghost predicate QuietStep(s: State, t: State) {
    t.cash == s.cash && t.expectedCash == s.expectedCash && t.expectedPositions == s.expectedPositions
  }

  function OrderStates(orders: map<Id, OrderRecord>): map<Id, OrderStatus> {
    map id | id in orders :: orders[id].latest.status
  }

  function FillStates(fills: map<Id, FillRecord>): map<Id, FillStatus> {
    map id | id in fills :: fills[id].latest.status
  }

  ghost predicate StatesStep(s: State, e: Event, t: State) {
    && t.events == s.events && t.eventIds == s.eventIds
    && t.lastSequence == s.lastSequence && t.lastTime == s.lastTime
    && OrderStates(t.orders)
      == (if e.OrderEv? then OrderStates(s.orders)[e.order.orderId := e.order.status] else OrderStates(s.orders))
    && FillStates(t.fills)
      == (if e.FillEv? then FillStates(s.fills)[e.fill.fillId := e.fill.status] else FillStates(s.fills))
    && (e.OrderEv? ==> e.order.previous == Recorded(OrderStates(s.orders), e.order.orderId))
    && (e.FillEv? ==> e.fill.previous == Recorded(FillStates(s.fills), e.fill.fillId))
  }

  // ---------------------------------------------------------------- fees

  /** The fee recorded on a fill is the one its pinned rule assesses. */
  predicate FeePinned(book: seq<FeeRule>, r: FillRecord)
    requires ValidBook(book)
  {
    r.fee.Some? ==> CheckFeeRule(book, r.fee.value, r.created) == Pass
  }

  /** The position has not moved since the fill was applied. */
  predicate Undisturbed(positions: map<Key, PositionLedger>, r: FillRecord) {
    && r.created.key in positions
    && r.quantityAfter == Some(positions[r.created.key].quantity)
    && r.costAfter == Some(positions[r.created.key].costBasis)
  }

  ghost predicate FeesOk(su: Setup, positions: map<Key, PositionLedger>, fills: map<Id, FillRecord>)
    requires ValidSetup(su)
  {
    su.feeBook.Some? ==>
      && (forall a, b :: a in fills && b in fills && Uncharged(fills[a]) && Uncharged(fills[b]) ==> a == b)
      && (forall a :: a in fills && Uncharged(fills[a]) ==> Undisturbed(positions, fills[a]))
      && (forall a :: a in fills ==> FeePinned(su.feeBook.value, fills[a]))
  }

  // ---------------------------------------------------------------- attestations

  function SignedCash(e: CashEvent): real {
    if e.direction == Credit then e.amount else -e.amount
  }

  /** The signed sum of the committed cash events. */
  function Attested(events: seq<Event>): real {
    if events == [] then 0.0
    else
      var e := events[|events| - 1];
      Attested(events[..|events| - 1]) + (if e.CashEv? then SignedCash(e.cash) else 0.0)
  }

  ghost predicate SourcesOk(s: State) {
    && (forall i, j :: 0 <= i < j < |s.events| && s.events[i].CashEv? && s.events[j].CashEv? ==>
          s.events[i].cash.sourceEventId != s.events[j].cash.sourceEventId)
    && (forall i :: 0 <= i < |s.events| && s.events[i].CashEv? ==>
          && s.events[i].cash.sourceEventId in s.eventIds
          && s.events[i].cash.sourceEventId !in s.expectedCash)
    && (forall i, j :: 0 <= i < j < |s.events| && s.events[i].PositionEv? && s.events[j].PositionEv? ==>
          s.events[i].position.sourceEventId != s.events[j].position.sourceEventId)
    && (forall i :: 0 <= i < |s.events| && s.events[i].PositionEv? ==>
          && s.events[i].position.sourceEventId in s.eventIds
          && s.events[i].position.sourceEventId !in s.expectedPositions)
  }

  ghost predicate AttestOk(c: Config, s: State) {
    && s.expectedCash.Keys <= s.eventIds && s.expectedPositions.Keys <= s.eventIds
    && s.cash == c.initialCash + Attested(s.events) + Total(s.expectedCash, ExpectedWeight())
    && SourcesOk(s)
  }

  ghost predicate ReplayOk(c: Config, s: State) {
    Replayed(c.runId, s.events)
      == Some(ReplayState(s.lastSequence, s.lastTime, s.eventIds, OrderStates(s.orders), FillStates(s.fills)))
  }

  /** The whole invariant of the engine. */
  ghost predicate Inv(su: Setup, s: State)
    requires ValidSetup(su)
  {
    && BooksOk(su.config, s) && FeesOk(su, s.positions, s.fills)
    && AttestOk(su.config, s) && ReplayOk(su.config, s)
  }

  lemma InitialInv(su: Setup)
    requires ValidSetup(su)
    ensures Inv(su, InitialState(su.config))
  {
    InitialBooks(su.config);
  }

  // ---------------------------------------------------------------- one lemma per kind of event

  lemma TargetStep(su: Setup, s: State, e: TargetEvent, t: State)
    requires ValidSetup(su) && Inv(su, s) && ApplyTarget(su.config, s, e) == Ok(t)
    ensures BooksOk(su.config, t) && FeesOk(su, t.positions, t.fills)
    ensures QuietStep(s, t) && StatesStep(s, TargetEv(e), t)
  {
    hide LedgersOk, FillsOk, OrdersOk, QuantitiesOk, CashOk;
  }

  lemma OrderStep(su: Setup, s: State, e: OrderEvent, t: State)
    requires ValidSetup(su) && Inv(su, s) && ValidOrder(e) && ApplyOrder(su, s, e) == Ok(t)
    ensures BooksOk(su.config, t) && FeesOk(su, t.positions, t.fills)
    ensures QuietStep(s, t) && StatesStep(s, OrderEv(e), t)
  {
    hide LedgersOk, FillsOk, OrdersOk, QuantitiesOk, CashOk, FeesOk, AttestOk, ReplayOk;
    if e.orderId !in s.orders {
      CreatedOrderOk(su, s, e, t);
    } else {
      AdvancedOrderOk(su, s, e, t);
    }
  }

  lemma PutFillFees(su: Setup, s: State, id: Id, r: FillRecord)
    requires ValidSetup(su) && FeesOk(su, s.positions, s.fills)
    requires if id in s.fills then r == s.fills[id].(latest := r.latest) else !r.applied && r.fee.None?
    ensures FeesOk(su, s.positions, s.fills[id := r])
  {
    hide CheckFeeRule;
  }

  lemma QuietFillStep(su: Setup, s: State, e: FillEvent, t: State)
    requires ValidSetup(su) && Inv(su, s) && ValidFill(e) && ApplyFill(su, s, e) == Ok(t)
    requires e.fillId !in s.fills || e.status != Confirmed
    ensures BooksOk(su.config, t) && FeesOk(su, t.positions, t.fills)
    ensures QuietStep(s, t) && StatesStep(s, FillEv(e), t)
  {
    hide LedgersOk, FillsOk, OrdersOk, QuantitiesOk, CashOk, FeesOk, AttestOk, ReplayOk, ConfirmFill, CreateFill;
    if e.fillId !in s.fills {
      CreatedFillOk(su.config, s, e, t);
      assert e.previous.None? by { CreatedFillFirst(s, e); }
      PutFillFees(su, s, e.fillId, FillRecord(e, e, false, 0.0, None, None, None));
    } else {
      AdvancedFillOk(su.config, s, e);
      PutFillFees(su, s, e.fillId, s.fills[e.fillId].(latest := e));
    }
  }

  lemma CreatedFillFirst(s: State, e: FillEvent)
    requires CreateFill(s, e).Ok?
    ensures e.previous.None?
  {
  }

  /**
   * Before a confirmation nothing is uncharged, so after it only the new fill is, and the position is as it left it.
   */
  lemma ConfirmFees(su: Setup, s: State, t: State, id: Id, r: FillRecord)
    requires ValidSetup(su) && FeesOk(su, s.positions, s.fills)
    requires su.feeBook.Some? ==> !HasUncharged(s.fills)
    requires t.fills == s.fills[id := r] && r.fee.None? && Undisturbed(t.positions, r)
    ensures FeesOk(su, t.positions, t.fills)
  {
    hide CheckFeeRule, Undisturbed;
    if su.feeBook.Some? {
      forall a | a in t.fills ensures Uncharged(t.fills[a]) ==> a == id {
        assert a != id ==> t.fills[a] == s.fills[a];
      }
    }
  }

  lemma ConfirmStep(su: Setup, s: State, e: FillEvent, t: State)
    requires ValidSetup(su) && Inv(su, s) && ValidFill(e) && ApplyFill(su, s, e) == Ok(t)
    requires e.fillId in s.fills && e.status == Confirmed
    ensures BooksOk(su.config, t) && FeesOk(su, t.positions, t.fills)
    ensures CashStep(s, e.head, t) && t.expectedPositions.Keys <= s.expectedPositions.Keys + {e.head.eventId}
    ensures StatesStep(s, FillEv(e), t)
  {
    hide ConfirmFill, LedgersOk, FillsOk, OrdersOk, QuantitiesOk, CashOk, FeesOk, AttestOk, ReplayOk, ValidFill,
      ValidSetup, ApplyTrade, Trade;
    var r := s.fills[e.fillId];
    ConfirmedFillOk(su, s, e, t);
    PendingFacts(s.orders, s.fills, e);
    var traded := ConfirmShape(su, s, e, t);
    TradeShape(su, s, r.created, e, traded);
    assert 0.0 < r.created.grossAmount by { GrossPositive(r.created); }
    var x := t.expectedCash[e.head.eventId];
    assert ExpectedWeight()(x) == CashDelta(r.created);
    ConfirmFees(su, s, t, e.fillId, t.fills[e.fillId]);
  }

  lemma GrossPositive(f: FillEvent)
    requires ValidFill(f)
    ensures 0.0 < f.grossAmount
  {
  }

  lemma FeeFees(su: Setup, s: State, t: State, e: FeeEvent)
    requires ValidSetup(su) && FeesOk(su, s.positions, s.fills)
    requires e.fillId in s.fills && Uncharged(s.fills[e.fillId])
    requires t.fills == s.fills[e.fillId := s.fills[e.fillId].(fee := Some(e))]
    requires su.feeBook.Some? ==> CheckFeeRule(su.feeBook.value, e, s.fills[e.fillId].created) == Pass
    ensures FeesOk(su, t.positions, t.fills)
  {
    hide CheckFeeRule, Undisturbed;
    if su.feeBook.Some? {
      forall a | a in t.fills ensures !Uncharged(t.fills[a]) {
        assert a != e.fillId ==> t.fills[a] == s.fills[a];
      }
    }
  }

  lemma FeeStep(su: Setup, s: State, e: FeeEvent, t: State)
    requires ValidSetup(su) && Inv(su, s) && ValidFee(e) && ApplyFee(su, s, e) == Ok(t)
    ensures BooksOk(su.config, t) && FeesOk(su, t.positions, t.fills)
    ensures CashStep(s, e.head, t) && t.expectedPositions.Keys <= s.expectedPositions.Keys + {e.head.eventId}
    ensures StatesStep(s, FeeEv(e), t)
  {
    hide ApplyFee, LedgersOk, FillsOk, OrdersOk, QuantitiesOk, CashOk, FeesOk, AttestOk, ReplayOk, ValidSetup,
      CheckFeeRule;
    FeeOk(su, s, e, t);
    FeeShape(su, s, e, t);
    FeeFees(su, s, t, e);
    if e.total != 0.0 {
      var x := t.expectedCash[e.head.eventId];
      assert ExpectedWeight()(x) == -e.total;
    }
  }

  lemma AttestCashStep(su: Setup, s: State, e: CashEvent, t: State)
    requires ValidSetup(su) && Inv(su, s) && AttestCash(su.config, s, e) == Ok(t)
    ensures BooksOk(su.config, t) && FeesOk(su, t.positions, t.fills) && StatesStep(s, CashEv(e), t)
    ensures e.sourceEventId in s.expectedCash
    ensures SignedCash(e) == ExpectedWeight()(s.expectedCash[e.sourceEventId]) && e.balanceAfter == s.cash
    ensures t == s.(expectedCash := s.expectedCash - {e.sourceEventId})
  {
    hide LedgersOk, FillsOk, OrdersOk, QuantitiesOk, CashOk, FeesOk, AttestOk, ReplayOk;
  }

  lemma AttestPositionStep(su: Setup, s: State, e: PositionEvent, t: State)
    requires ValidSetup(su) && Inv(su, s) && AttestPosition(s, e) == Ok(t)
    ensures BooksOk(su.config, t) && FeesOk(su, t.positions, t.fills) && StatesStep(s, PositionEv(e), t)
    ensures e.sourceEventId in s.expectedPositions
    ensures t == s.(expectedPositions := s.expectedPositions - {e.sourceEventId})
  {
    hide LedgersOk, FillsOk, OrdersOk, QuantitiesOk, CashOk, FeesOk, AttestOk, ReplayOk, SnapshotOf;
  }

  // ---------------------------------------------------------------- committing the event

  lemma CommitAttested(events: seq<Event>, e: Event)
    ensures Attested(events + [e]) == Attested(events) + (if e.CashEv? then SignedCash(e.cash) else 0.0)
  {
    assert (events + [e])[..|events|] == events;
  }

  /** Committing an event keeps attestations unique when its own source, if any, has just left the pending ones. */
  lemma CommitSources(s: State, e: Event, t: State)
    requires SourcesOk(s) && t.events == s.events && t.eventIds == s.eventIds
    requires s.expectedCash.Keys <= s.eventIds && s.expectedPositions.Keys <= s.eventIds
    requires e.Head().eventId !in s.eventIds
    requires t.expectedCash.Keys <= s.expectedCash.Keys + {e.Head().eventId}
    requires t.expectedPositions.Keys <= s.expectedPositions.Keys + {e.Head().eventId}
    requires e.CashEv? ==> e.cash.sourceEventId in s.expectedCash && e.cash.sourceEventId !in t.expectedCash
    requires e.PositionEv? ==>
      e.position.sourceEventId in s.expectedPositions && e.position.sourceEventId !in t.expectedPositions
    ensures SourcesOk(Commit(t, e))
  {
  }

  lemma CommitEconomic(c: Config, s: State, e: Event, t: State)
    requires AttestOk(c, s) && t.events == s.events && t.eventIds == s.eventIds && !e.CashEv? && !e.PositionEv?
    requires e.Head().eventId !in s.eventIds
    requires CashStep(s, e.Head(), t) && t.expectedPositions.Keys <= s.expectedPositions.Keys + {e.Head().eventId}
    ensures AttestOk(c, Commit(t, e))
  {
    CommitAttested(s.events, e);
    CommitSources(s, e, t);
    hide SourcesOk;
    if !(t.cash == s.cash && t.expectedCash == s.expectedCash) {
      var x: ExpectedCash :| 0.0 < x.amount && e.Head().eventId !in s.expectedCash
        && t.cash == s.cash + ExpectedWeight()(x)
        && t.expectedCash == s.expectedCash[e.Head().eventId := x];
      TotalPut(s.expectedCash, ExpectedWeight(), e.Head().eventId, x);
    }
  }

  lemma CommitCash(c: Config, s: State, e: CashEvent, t: State)
    requires AttestOk(c, s) && e.head.eventId !in s.eventIds
    requires e.sourceEventId in s.expectedCash
    requires SignedCash(e) == ExpectedWeight()(s.expectedCash[e.sourceEventId])
    requires t == s.(expectedCash := s.expectedCash - {e.sourceEventId})
    ensures AttestOk(c, Commit(t, CashEv(e)))
  {
    CommitAttested(s.events, CashEv(e));
    CommitSources(s, CashEv(e), t);
    hide SourcesOk;
    TotalRemove(s.expectedCash, ExpectedWeight(), e.sourceEventId);
  }

  lemma CommitPosition(c: Config, s: State, e: PositionEvent, t: State)
    requires AttestOk(c, s) && e.head.eventId !in s.eventIds
    requires e.sourceEventId in s.expectedPositions
    requires t == s.(expectedPositions := s.expectedPositions - {e.sourceEventId})
    ensures AttestOk(c, Commit(t, PositionEv(e)))
  {
    CommitAttested(s.events, PositionEv(e));
    CommitSources(s, PositionEv(e), t);
    hide SourcesOk;
  }

  /** Every event the engine commits is one the replay validator admits. */
  lemma CommitReplay(c: Config, s: State, e: Event, t: State)
    requires ReplayOk(c, s) && ValidateClock(c, s, e.Head()) == Pass && StatesStep(s, e, t)
    ensures ReplayOk(c, Commit(t, e))
  {
    assert (s.events + [e])[..|s.events|] == s.events;
  }

  // ---------------------------------------------------------------- the inductive step

  ghost predicate DispatchedOk(su: Setup, s: State, e: Event, t: State)
    requires ValidSetup(su)
  {
    && BooksOk(su.config, t) && FeesOk(su, t.positions, t.fills) && StatesStep(s, e, t)
    && AttestOk(su.config, Commit(t, e))
  }

  lemma EconomicStep(su: Setup, s: State, e: Event, t: State)
    requires ValidSetup(su) && Inv(su, s) && ValidEvent(e) && !e.CashEv? && !e.PositionEv?
    requires ValidateClock(su.config, s, e.Head()) == Pass && Dispatch(su, s, e) == Ok(t)
    ensures DispatchedOk(su, s, e, t)
  {
    hide ApplyTarget, ApplyOrder, ApplyFill, ApplyFee, BooksOk, FeesOk, AttestOk, ReplayOk, ValidOrder, ValidTarget,
      ValidFill, ValidFee, Inv, ValidSetup;
    match e {
      case TargetEv(x) => TargetStep(su, s, x, t);
      case OrderEv(x) => OrderStep(su, s, x, t);
      case FillEv(x) =>
        if x.fillId in s.fills && x.status == Confirmed {
          ConfirmStep(su, s, x, t);
        } else {
          QuietFillStep(su, s, x, t);
        }
      case FeeEv(x) => FeeStep(su, s, x, t);
      case _ =>
    }
    InvAttest(su, s);
    CommitEconomic(su.config, s, e, t);
  }

  lemma InvAttest(su: Setup, s: State)
    requires ValidSetup(su) && Inv(su, s)
    ensures AttestOk(su.config, s) && ReplayOk(su.config, s)
  {
  }

  lemma DispatchStep(su: Setup, s: State, e: Event, t: State)
    requires ValidSetup(su) && Inv(su, s) && ValidEvent(e)
    requires ValidateClock(su.config, s, e.Head()) == Pass && Dispatch(su, s, e) == Ok(t)
    ensures DispatchedOk(su, s, e, t)
  {
    hide AttestCash, AttestPosition, BooksOk, FeesOk, AttestOk, ReplayOk, StatesStep, Inv, ValidSetup;
    if e.CashEv? {
      AttestCashStep(su, s, e.cash, t);
      InvAttest(su, s);
      CommitCash(su.config, s, e.cash, t);
    } else if e.PositionEv? {
      AttestPositionStep(su, s, e.position, t);
      InvAttest(su, s);
      CommitPosition(su.config, s, e.position, t);
    } else {
      EconomicStep(su, s, e, t);
    }
  }

  lemma StepKeepsInv(su: Setup, s: State, e: Event, t: State)
    requires ValidSetup(su) && Inv(su, s) && ApplyEvent(su, s, e) == Ok(t)
    ensures Inv(su, t)
  {
    hide Dispatch, FeesOk, AttestOk, ReplayOk, StatesStep, LedgersOk, QuantitiesOk, CashOk, FillsOk, OrdersOk;
    var u := Dispatch(su, s, e).value;
    DispatchStep(su, s, e, u);
    CommitReplay(su.config, s, e, u);
  }
}
