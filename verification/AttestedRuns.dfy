/**
 * Attestations over whole runs: when a pending movement can be attested, when it never can, and what complete runs
 * attest.
 */
module AttestedRuns {
  import opened Outcomes
  import opened Sums
  import opened Contracts
  import opened EngineModel
  import opened Lots
  import opened Bookkeeping
  import opened Attestation
  import opened EngineRuns
  import opened Steps
  import opened LateFees

  // ---------------------------------------------------------------- what pending movements keep

  /** A pending movement is dated no later than the engine. */
  ghost predicate PendingOk(s: State) {
    && -1 <= s.lastSequence
    && (forall id :: id in s.expectedCash ==> CashDated(s, s.expectedCash[id]))
    && (forall id :: id in s.expectedPositions ==> PositionDated(s, s.expectedPositions[id]))
  }

  predicate CashDated(s: State, x: ExpectedCash) {
    0.0 < x.amount && s.lastTime.Some? && s.lastDay.Some? && x.sourceTime <= s.lastTime.value
      && x.day <= s.lastDay.value
  }

  predicate PositionDated(s: State, x: ExpectedPosition) {
    s.lastTime.Some? && s.lastDay.Some? && x.sourceTime <= s.lastTime.value && x.day <= s.lastDay.value
  }

  lemma CashDatedStep(s: State, e: Event, t: State, id: Id)
    requires DaysOk(s) && PendingOk(s) && StepMoves(s, e, t) && id in t.expectedCash
    ensures CashDated(t, t.expectedCash[id])
  {
    NextDay(s, e, t);
    hide FillsMove, PositionsMove, DaysOk, TradingDayOf, PositionDated;
    assert id in s.expectedCash ==> CashDated(s, s.expectedCash[id]);
  }

  lemma PositionDatedStep(s: State, e: Event, t: State, id: Id)
    requires DaysOk(s) && PendingOk(s) && StepMoves(s, e, t) && id in t.expectedPositions
    ensures PositionDated(t, t.expectedPositions[id])
  {
    NextDay(s, e, t);
    hide FillsMove, CashMove, DaysOk, TradingDayOf, CashDated, SnapshotOf;
    assert id in s.expectedPositions ==> PositionDated(s, s.expectedPositions[id]);
  }

  lemma StepKeepsPending(s: State, e: Event, t: State)
    requires DaysOk(s) && PendingOk(s) && StepMoves(s, e, t)
    ensures PendingOk(t)
  {
    hide FillsMove, PositionsMove, CashMove, DaysOk, CashDated, PositionDated;
    forall id | id in t.expectedCash
      ensures CashDated(t, t.expectedCash[id])
    {
      CashDatedStep(s, e, t, id);
    }
    forall id | id in t.expectedPositions
      ensures PositionDated(t, t.expectedPositions[id])
    {
      PositionDatedStep(s, e, t, id);
    }
  }

  // ---------------------------------------------------------------- last attestations

  /** The balance the last cash event states, or the initial one. */
  function LastBalance(events: seq<Event>, initial: real): real {
    if events == [] then initial
    else
      var e := events[|events| - 1];
      if e.CashEv? then e.cash.balanceAfter else LastBalance(events[..|events| - 1], initial)
  }

  /** The last position event of an instrument. */
  function LastPosition(events: seq<Event>, k: Key): Option<PositionEvent> {
    if events == [] then None
    else
      var e := events[|events| - 1];
      if e.PositionEv? && e.position.key == k then Some(e.position) else LastPosition(events[..|events| - 1], k)
  }

  predicate NothingPending(s: State, k: Key) {
    forall id :: id in s.expectedPositions ==> s.expectedPositions[id].snapshot.key != k
  }

  /** The ledger is what the last position event said, or what it was at the opening. */
  predicate AsAttested(c: Config, s: State, k: Key) {
    match LastPosition(s.events, k)
    case None => LedgerAt(s, k) == LedgerAt(InitialState(c), k)
    case Some(p) => p.quantity == LedgerAt(s, k).quantity && p.averageCost == AverageCost(LedgerAt(s, k))
  }

  ghost predicate CashAttested(c: Config, s: State) {
    s.expectedCash == map[] ==> s.cash == LastBalance(s.events, c.initialCash)
  }

  ghost predicate LedgersAttested(c: Config, s: State) {
    forall k :: NothingPending(s, k) ==> AsAttested(c, s, k)
  }

  lemma CashAttestedStep(c: Config, s: State, e: Event, t: State)
    requires CashAttested(c, s) && StepMoves(s, e, t)
    ensures CashAttested(c, t)
  {
    hide FillsMove, PositionsMove, TradingDayOf, CashPending;
    assert (s.events + [e])[..|s.events|] == s.events;
    if !e.CashEv? && !(t.cash == s.cash && t.expectedCash == s.expectedCash) {
      assert e.Head().eventId in t.expectedCash;
    }
  }

  lemma LastPositionAppend(events: seq<Event>, e: Event, k: Key)
    ensures LastPosition(events + [e], k) == if e.PositionEv? && e.position.key == k
      then Some(e.position) else LastPosition(events, k)
  {
    assert (events + [e])[..|events|] == events;
  }

  /** Pending snapshots of one instrument leave only through its own position events. */
  lemma StillPending(s: State, e: Event, t: State, k: Key)
    requires PositionsMove(s, e, t) && NothingPending(t, k) && !(e.PositionEv? && e.position.key == k)
    ensures NothingPending(s, k) && LedgerAt(t, k) == LedgerAt(s, k)
  {
    hide ProRata, SellableQuantity;
    forall id | id in s.expectedPositions
      ensures s.expectedPositions[id].snapshot.key != k
    {
      assert id in t.expectedPositions || (e.PositionEv? && id == e.position.sourceEventId);
    }
    if e.FillEv? && e.fill.fillId in s.fills && e.fill.status == Confirmed {
      assert e.fill.head.eventId in t.expectedPositions;
    } else if e.FeeEv? && t.positions != s.positions {
      assert e.fee.head.eventId in t.expectedPositions;
    }
  }

  lemma LedgerAttestedStep(c: Config, s: State, e: Event, t: State, k: Key)
    requires LedgersAttested(c, s) && StepMoves(s, e, t) && NothingPending(t, k)
    ensures AsAttested(c, t, k)
  {
    LastPositionAppend(s.events, e, k);
    hide LastPosition, FillsMove, CashMove, TradingDayOf, NothingPending, ProRata, SellableQuantity, InitialState;
    if e.PositionEv? && e.position.key == k {
      AverageOfSnapshot(k, LedgerAt(s, k), e.position.head.day);
    } else {
      StillPending(s, e, t, k);
    }
  }

  // ---------------------------------------------------------------- the invariant over runs

  ghost predicate NegativePending(s: State) {
    exists id :: id in s.expectedPositions && s.expectedPositions[id].snapshot.quantity < 0.0
  }

  /** A fill that left a short position left a pending snapshot of it. */
  ghost predicate ShortsOk(s: State) {
    (exists f :: f in s.fills && LeftShort(s.fills[f])) ==> NegativePending(s)
  }

  predicate LeftShort(r: FillRecord) {
    r.applied && r.quantityAfter.Some? && r.quantityAfter.value < 0.0
  }

  /** A position event never states a negative quantity, so a pending short stays pending. */
  lemma NegativeStays(s: State, e: Event, t: State)
    requires PositionsMove(s, e, t) && NegativePending(s)
    ensures NegativePending(t)
  {
    hide SnapshotOf;
    var id :| id in s.expectedPositions && s.expectedPositions[id].snapshot.quantity < 0.0;
    assert id in t.expectedPositions && t.expectedPositions[id] == s.expectedPositions[id];
  }

  lemma ShortsStep(s: State, e: Event, t: State)
    requires ShortsOk(s) && StepMoves(s, e, t)
    ensures ShortsOk(t)
  {
    hide CashMove, TradingDayOf, QuantityBefore, ProRata, SellableQuantity;
    if NegativePending(s) {
      NegativeStays(s, e, t);
    } else {
      forall f | f in t.fills && LeftShort(t.fills[f])
        ensures NegativePending(t)
      {
        assert f in s.fills ==> !LeftShort(s.fills[f]);
        assert e.FillEv? && f == e.fill.fillId && e.fill.fillId in s.fills && e.fill.status == Confirmed;
        assert t.expectedPositions[e.fill.head.eventId].snapshot.quantity < 0.0;
      }
    }
  }

  ghost predicate HistoryOk(c: Config, s: State) {
    DaysOk(s) && PendingOk(s) && CashAttested(c, s) && LedgersAttested(c, s) && ShortsOk(s)
  }

  lemma StepKeepsHistory(c: Config, s: State, e: Event, t: State)
    requires HistoryOk(c, s) && StepMoves(s, e, t)
    ensures HistoryOk(c, t)
  {
    hide StepMoves, DaysOk, PendingOk, CashAttested, ShortsOk, NothingPending, AsAttested;
    StepKeepsDays(s, e, t);
    StepKeepsPending(s, e, t);
    CashAttestedStep(c, s, e, t);
    ShortsStep(s, e, t);
    forall k | NothingPending(t, k)
      ensures AsAttested(c, t, k)
    {
      LedgerAttestedStep(c, s, e, t, k);
    }
  }

  lemma {:induction false} RunKeepsHistory(su: Setup, s: State, es: seq<Event>, t: State)
    requires ValidSetup(su) && Inv(su, s) && HistoryOk(su.config, s) && ApplyAll(su, s, es) == Ok(t)
    ensures HistoryOk(su.config, t)
    decreases |es|
  {
    hide Inv, ApplyEvent, HistoryOk, ValidSetup, StepMoves;
    if es != [] {
      var u := ApplyEvent(su, s, es[0]).value;
      StepKeepsInv(su, s, es[0], u);
      StepIsMove(su, s, es[0], u);
      StepKeepsHistory(su.config, s, es[0], u);
      RunKeepsHistory(su, u, es[1..], t);
    }
  }

  lemma InitialHistory(c: Config)
    ensures HistoryOk(c, InitialState(c))
  {
    hide OpeningPositions;
  }

  lemma RunHistory(su: Setup, es: seq<Event>, s: State)
    requires ValidSetup(su) && Run(su, es, s)
    ensures HistoryOk(su.config, s) && Inv(su, s) && s.events == es
  {
    hide Inv, ApplyAll, ValidSetup, HistoryOk;
    InitialInv(su);
    InitialHistory(su.config);
    RunInv(su, es, s);
    RunKeepsHistory(su, InitialState(su.config), es, s);
  }

  // ---------------------------------------------------------------- complete runs

  ghost predicate CompleteAttested(su: Setup, s: State, required: Option<bool>) {
    && EnsureComplete(su, s, required) == Pass
    && (required == Some(true) || (required.None? && su.config.requireLedgerEvents))
  }

  lemma CompleteIsEmpty(su: Setup, s: State, required: Option<bool>)
    requires CompleteAttested(su, s, required)
    ensures s.expectedCash == map[] && s.expectedPositions == map[]
  {
    hide HasUncharged;
  }

  /**
   * On a complete attested run the last cash event states the final cash, and the last position event of each
   * instrument its final ledger.
   */
  lemma LastAttestationsAreFinal(su: Setup, es: seq<Event>, s: State, required: Option<bool>, k: Key)
    requires ValidSetup(su) && Run(su, es, s) && CompleteAttested(su, s, required)
    ensures s.cash == LastBalance(es, su.config.initialCash)
    ensures match LastPosition(es, k)
      case None => LedgerAt(s, k) == LedgerAt(InitialState(su.config), k)
      case Some(p) => p.quantity == LedgerAt(s, k).quantity && p.averageCost == AverageCost(LedgerAt(s, k))
  {
    hide Run, Inv, DaysOk, PendingOk, ShortsOk, EnsureComplete, LastPosition, LastBalance, InitialState;
    RunHistory(su, es, s);
    CompleteIsEmpty(su, s, required);
    assert NothingPending(s, k);
  }

  /** No fill of a complete attested run ever left a short position. */
  lemma CompleteRunsLeaveNoShort(su: Setup, es: seq<Event>, s: State, required: Option<bool>, f: Id)
    requires ValidSetup(su) && Run(su, es, s) && CompleteAttested(su, s, required) && f in s.fills && s.fills[f].applied
    ensures s.fills[f].quantityAfter.Some? && 0.0 <= s.fills[f].quantityAfter.value
  {
    hide Run, DaysOk, PendingOk, CashAttested, LedgersAttested, EnsureComplete, FeesOk, AttestOk, ReplayOk, LedgersOk,
      QuantitiesOk, CashOk, OrdersOk, ValidateFillOrder, ValidFill;
    RunHistory(su, es, s);
    CompleteIsEmpty(su, s, required);
    assert FillOk(s.orders, f, s.fills[f]);
  }

  // ---------------------------------------------------------------- discharging one movement

  lemma {:induction false} LengthBound(ids: set<Id>) returns (n: nat)
    ensures forall id :: id in ids ==> |id| < n
    decreases |ids|
  {
    n := 0;
    if ids != {} {
      var one :| one in ids;
      var m := LengthBound(ids - {one});
      n := if m <= |one| then |one| + 1 else m;
    }
  }

  /** There is always an unused event id. */
  lemma FreshId(ids: set<Id>) returns (id: Id)
    ensures id !in ids
  {
    var n := LengthBound(ids);
    id := seq(n, _ => 'x');
  }

  ghost predicate CanAttestCash(su: Setup, s: State, id: Id)
    requires ValidSetup(su)
  {
    exists e: CashEvent :: e.sourceEventId == id && ApplyEvent(su, s, CashEv(e)).Ok?
  }

  lemma CashEventMoves(su: Setup, s: State, e: CashEvent)
    requires ValidSetup(su) && Inv(su, s) && DaysOk(s) && ApplyEvent(su, s, CashEv(e)).Ok?
    ensures e.sourceEventId in s.expectedCash && s.expectedCash[e.sourceEventId].day == e.head.day
    ensures s.expectedCash[e.sourceEventId].balanceAfter == s.cash
    ensures (s.lastDay.Some? ==> s.lastDay.value <= e.head.day)
  {
    hide Inv, ApplyEvent, DaysOk, FillsMove, PositionsMove, TradingDayOf, ValidSetup;
    var t := ApplyEvent(su, s, CashEv(e)).value;
    StepIsMove(su, s, CashEv(e), t);
    NextDay(s, CashEv(e), t);
  }

  lemma CashEventAccepted(su: Setup, s: State, id: Id, unused: Id)
    requires ValidSetup(su) && DaysOk(s) && PendingOk(s) && id in s.expectedCash && unused !in s.eventIds
    requires s.lastDay == Some(s.expectedCash[id].day) && s.cash == s.expectedCash[id].balanceAfter
    ensures CanAttestCash(su, s, id)
  {
    var x := s.expectedCash[id];
    assert CashDated(s, x);
    var h := Header(unused, su.config.runId, s.lastSequence + 1, s.lastTime.value, x.day);
    var e := CashEvent(h, su.config.accountId, id, x.direction, x.amount, x.balanceAfter, su.config.currency);
    hide DaysOk, PendingOk, TradingDayOf, ValidSetup;
    assert h.day == TradingDayOf(h.time) by {
      LastDayIs(s);
    }
    assert AttestCash(su.config, s, e).Ok?;
    assert Dispatch(su, s, CashEv(e)).Ok?;
    assert ValidateClock(su.config, s, h) == Pass;
    assert ApplyEvent(su, s, CashEv(e)).Ok?;
  }

  lemma LastDayIs(s: State)
    requires DaysOk(s) && s.lastDay.Some?
    ensures s.lastTime.Some? && s.lastDay.value == TradingDayOf(s.lastTime.value)
  {
  }

  /** A pending cash movement can be attested exactly while its day lasts and cash is at the balance it left. */
  lemma CashAttestableExactly(su: Setup, es: seq<Event>, s: State, id: Id)
    requires ValidSetup(su) && Run(su, es, s) && id in s.expectedCash
    ensures CanAttestCash(su, s, id) <==>
      s.lastDay == Some(s.expectedCash[id].day) && s.cash == s.expectedCash[id].balanceAfter
  {
    hide Run, Inv, ApplyEvent, DaysOk, CashAttested, LedgersAttested, ShortsOk, ValidSetup;
    RunHistory(su, es, s);
    assert CashDated(s, s.expectedCash[id]);
    var unused := FreshId(s.eventIds);
    if s.lastDay == Some(s.expectedCash[id].day) && s.cash == s.expectedCash[id].balanceAfter {
      CashEventAccepted(su, s, id, unused);
    }
    if CanAttestCash(su, s, id) {
      var e: CashEvent :| e.sourceEventId == id && ApplyEvent(su, s, CashEv(e)).Ok?;
      CashEventMoves(su, s, e);
    }
  }

  ghost predicate CanAttestPosition(su: Setup, s: State, id: Id)
    requires ValidSetup(su)
  {
    exists e: PositionEvent :: e.sourceEventId == id && ApplyEvent(su, s, PositionEv(e)).Ok?
  }

  lemma PositionEventMoves(su: Setup, s: State, e: PositionEvent)
    requires ValidSetup(su) && Inv(su, s) && DaysOk(s) && ApplyEvent(su, s, PositionEv(e)).Ok?
    ensures e.sourceEventId in s.expectedPositions
    ensures var x := s.expectedPositions[e.sourceEventId];
      && x.day == e.head.day && 0.0 <= x.snapshot.quantity && (s.lastDay.Some? ==> s.lastDay.value <= e.head.day)
      && x.snapshot == SnapshotOf(x.snapshot.key, LedgerAt(s, x.snapshot.key), x.day)
  {
    hide Inv, ApplyEvent, DaysOk, FillsMove, CashMove, TradingDayOf, ValidSetup, SnapshotOf;
    var t := ApplyEvent(su, s, PositionEv(e)).value;
    StepIsMove(su, s, PositionEv(e), t);
    NextDay(s, PositionEv(e), t);
  }

  /** A ledger that is not short has a snapshot a position event may state. */
  lemma SnapshotStatable(k: Key, ledger: PositionLedger, day: Day)
    requires WellFormed(ledger) && 0.0 <= SnapshotOf(k, ledger, day).quantity
    ensures var x := SnapshotOf(k, ledger, day);
      0.0 <= x.sellableQuantity <= x.quantity && 0.0 <= x.averageCost
  {
    TotalsBounded(ledger.lots, day);
    if ledger.quantity != 0.0 {
      ProRataNonNegative(ledger.costBasis, 1.0, Abs(ledger.quantity));
    }
  }

  lemma LedgerWell(c: Config, s: State, k: Key)
    requires BooksOk(c, s)
    ensures WellFormed(LedgerAt(s, k))
  {
    hide QuantitiesOk, CashOk, FillsOk, OrdersOk;
  }

  lemma PendingDated(s: State, id: Id)
    requires PendingOk(s) && id in s.expectedPositions
    ensures PositionDated(s, s.expectedPositions[id]) && -1 <= s.lastSequence
  {
    hide PositionDated, CashDated;
  }

  lemma PositionEventAccepted(su: Setup, s: State, id: Id, unused: Id)
    requires ValidSetup(su) && BooksOk(su.config, s) && DaysOk(s) && PendingOk(s) && id in s.expectedPositions
    requires unused !in s.eventIds
    requires var x := s.expectedPositions[id];
      && s.lastDay == Some(x.day) && 0.0 <= x.snapshot.quantity
      && x.snapshot == SnapshotOf(x.snapshot.key, LedgerAt(s, x.snapshot.key), x.day)
    ensures CanAttestPosition(su, s, id)
  {
    hide DaysOk, PendingOk, TradingDayOf, ValidSetup, BooksOk, SnapshotOf, WellFormed;
    var x := s.expectedPositions[id];
    var k := x.snapshot.key;
    PendingDated(s, id);
    LedgerWell(su.config, s, k);
    SnapshotStatable(k, LedgerAt(s, k), x.day);
    var h := Header(unused, su.config.runId, s.lastSequence + 1, s.lastTime.value, x.day);
    var e := PositionEvent(h, k, id, x.snapshot.quantity, x.snapshot.sellableQuantity, x.snapshot.averageCost,
      KnownPrice(None, None, None));
    assert h.day == TradingDayOf(h.time) by {
      LastDayIs(s);
    }
    assert AttestPosition(s, e).Ok?;
    assert Dispatch(su, s, PositionEv(e)).Ok?;
    assert ValidateClock(su.config, s, h) == Pass;
    assert ApplyEvent(su, s, PositionEv(e)).Ok?;
  }

  /**
   * A pending position movement can be attested exactly while its day lasts, it is not short, and its ledger is still
   * as it left it.
   */
  lemma PositionAttestableExactly(su: Setup, es: seq<Event>, s: State, id: Id)
    requires ValidSetup(su) && Run(su, es, s) && id in s.expectedPositions
    ensures var x := s.expectedPositions[id];
      CanAttestPosition(su, s, id) <==>
      && s.lastDay == Some(x.day) && 0.0 <= x.snapshot.quantity
      && x.snapshot == SnapshotOf(x.snapshot.key, LedgerAt(s, x.snapshot.key), x.day)
  {
    hide Run, Inv, BooksOk, ApplyEvent, DaysOk, CashAttested, LedgersAttested, ShortsOk, ValidSetup, SnapshotOf;
    RunHistory(su, es, s);
    InvBooks(su, s);
    var x := s.expectedPositions[id];
    assert PositionDated(s, x);
    var unused := FreshId(s.eventIds);
    if s.lastDay == Some(x.day) && 0.0 <= x.snapshot.quantity
      && x.snapshot == SnapshotOf(x.snapshot.key, LedgerAt(s, x.snapshot.key), x.day) {
      PositionEventAccepted(su, s, id, unused);
    }
    if CanAttestPosition(su, s, id) {
      var e: PositionEvent :| e.sourceEventId == id && ApplyEvent(su, s, PositionEv(e)).Ok?;
      PositionEventMoves(su, s, e);
    }
  }

  // ---------------------------------------------------------------- dead ends

  /** Something pending that no later event can attest: a movement whose day has passed, or a short position. */
  ghost predicate Unattestable(s: State) {
    || NegativePending(s)
    || (s.lastDay.Some? && exists id :: id in s.expectedCash && s.expectedCash[id].day < s.lastDay.value)
    || (s.lastDay.Some? && exists id :: id in s.expectedPositions && s.expectedPositions[id].day < s.lastDay.value)
  }

  lemma UnattestableStays(s: State, e: Event, t: State)
    requires DaysOk(s) && StepMoves(s, e, t) && Unattestable(s)
    ensures Unattestable(t)
  {
    NextDay(s, e, t);
    hide FillsMove, DaysOk, TradingDayOf, SnapshotOf;
    if NegativePending(s) {
      NegativeStays(s, e, t);
    } else if exists id :: id in s.expectedCash && s.expectedCash[id].day < s.lastDay.value {
      var id :| id in s.expectedCash && s.expectedCash[id].day < s.lastDay.value;
      assert id in t.expectedCash && t.expectedCash[id] == s.expectedCash[id];
    } else {
      var id :| id in s.expectedPositions && s.expectedPositions[id].day < s.lastDay.value;
      assert id in t.expectedPositions && t.expectedPositions[id] == s.expectedPositions[id];
    }
  }

  lemma {:induction false} UnattestableRun(su: Setup, s: State, es: seq<Event>, t: State)
    requires ValidSetup(su) && Inv(su, s) && DaysOk(s) && Unattestable(s) && ApplyAll(su, s, es) == Ok(t)
    ensures Unattestable(t)
    decreases |es|
  {
    hide Inv, ApplyEvent, DaysOk, ValidSetup, StepMoves, Unattestable;
    if es != [] {
      var u := ApplyEvent(su, s, es[0]).value;
      StepKeepsInv(su, s, es[0], u);
      StepIsMove(su, s, es[0], u);
      StepKeepsDays(s, es[0], u);
      UnattestableStays(s, es[0], u);
      UnattestableRun(su, u, es[1..], t);
    }
  }

  /** After a missed day or a pending short no continuation completes with attestations. */
  lemma UnattestableIsDeadEnd(su: Setup, es: seq<Event>, s: State, more: seq<Event>, t: State, required: Option<bool>)
    requires ValidSetup(su) && Run(su, es, s) && Unattestable(s) && ApplyAll(su, s, more) == Ok(t)
    ensures !CompleteAttested(su, t, required)
  {
    hide Run, Inv, ApplyAll, DaysOk, ValidSetup, EnsureComplete;
    RunDays(su, es, s);
    UnattestableRun(su, s, more, t);
    if CompleteAttested(su, t, required) {
      CompleteIsEmpty(su, t, required);
    }
  }
}
