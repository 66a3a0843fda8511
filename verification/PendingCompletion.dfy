/** Exactly when a run can complete with attestations from where it stands, without trading or charging again. */
module PendingCompletion {
  import opened Outcomes
  import opened Contracts
  import opened EngineModel
  import opened Attestation
  import opened EngineRuns
  import opened Steps
  import opened LateFees
  import opened AttestedRuns

  /** An event that can move neither cash nor a position: anything but a confirmation and a fee. */
  predicate Still(e: Event) {
    !e.FeeEv? && !ConfirmsFill(e)
  }

  predicate CashCurrent(s: State, x: ExpectedCash) {
    s.lastDay == Some(x.day) && s.cash == x.balanceAfter
  }

  predicate PositionCurrent(s: State, x: ExpectedPosition) {
    && s.lastDay == Some(x.day) && 0.0 <= x.snapshot.quantity
    && x.snapshot == SnapshotOf(x.snapshot.key, LedgerAt(s, x.snapshot.key), x.day)
  }

  /** Every pending movement is of the present day, not short, and still what the ledger shows. */
  ghost predicate AllCurrent(s: State) {
    && (forall id :: id in s.expectedCash ==> CashCurrent(s, s.expectedCash[id]))
    && (forall id :: id in s.expectedPositions ==> PositionCurrent(s, s.expectedPositions[id]))
  }

  ghost predicate Completes(su: Setup, s: State, more: seq<Event>)
    requires ValidSetup(su)
  {
    && (forall i :: 0 <= i < |more| ==> Still(more[i])) && ApplyAll(su, s, more).Ok?
    && var t := ApplyAll(su, s, more).value;
    t.expectedCash == map[] && t.expectedPositions == map[]
  }

  // ---------------------------------------------------------------- a completed run had current movements

  lemma StillKeeps(s: State, e: Event, t: State)
    requires StepMoves(s, e, t) && Still(e)
    ensures t.cash == s.cash && t.positions == s.positions
  {
    hide FillsMove, ClockMove, SnapshotOf;
  }

  lemma CashWasCurrent(s: State, e: Event, t: State, id: Id)
    requires DaysOk(s) && PendingOk(s) && StepMoves(s, e, t) && Still(e) && AllCurrent(t) && id in s.expectedCash
    ensures CashCurrent(s, s.expectedCash[id])
  {
    NextDay(s, e, t);
    StillKeeps(s, e, t);
    hide FillsMove, PositionsMove, DaysOk, TradingDayOf, PositionCurrent, PositionDated;
    assert CashDated(s, s.expectedCash[id]);
    if id in t.expectedCash {
      assert CashCurrent(t, t.expectedCash[id]);
    }
  }

  lemma PositionWasCurrent(s: State, e: Event, t: State, id: Id)
    requires DaysOk(s) && PendingOk(s) && StepMoves(s, e, t) && Still(e) && AllCurrent(t) && id in s.expectedPositions
    ensures PositionCurrent(s, s.expectedPositions[id])
  {
    NextDay(s, e, t);
    StillKeeps(s, e, t);
    hide FillsMove, CashMove, DaysOk, TradingDayOf, CashCurrent, CashDated, SnapshotOf;
    assert PositionDated(s, s.expectedPositions[id]);
    if id in t.expectedPositions {
      assert PositionCurrent(t, t.expectedPositions[id]);
    }
  }

  lemma WasCurrent(s: State, e: Event, t: State)
    requires DaysOk(s) && PendingOk(s) && StepMoves(s, e, t) && Still(e) && AllCurrent(t)
    ensures AllCurrent(s)
  {
    hide StepMoves, DaysOk, PendingOk, CashCurrent, PositionCurrent, Still;
    forall id | id in s.expectedCash
      ensures CashCurrent(s, s.expectedCash[id])
    {
      CashWasCurrent(s, e, t, id);
    }
    forall id | id in s.expectedPositions
      ensures PositionCurrent(s, s.expectedPositions[id])
    {
      PositionWasCurrent(s, e, t, id);
    }
  }

  lemma {:induction false} CompletedWasCurrent(su: Setup, s: State, more: seq<Event>)
    requires ValidSetup(su) && Inv(su, s) && HistoryOk(su.config, s) && Completes(su, s, more)
    ensures AllCurrent(s)
    decreases |more|
  {
    hide Inv, ApplyEvent, ValidSetup, StepMoves, DaysOk, PendingOk, CashAttested, LedgersAttested, ShortsOk,
      AllCurrent, Still;
    if more == [] {
      NothingIsCurrent(s);
    } else {
      var u := ApplyEvent(su, s, more[0]).value;
      StepKeepsInv(su, s, more[0], u);
      StepIsMove(su, s, more[0], u);
      StepKeepsHistory(su.config, s, more[0], u);
      CompletedWasCurrent(su, u, more[1..]);
      WasCurrent(s, more[0], u);
    }
  }

  lemma NothingIsCurrent(s: State)
    requires s.expectedCash == map[] && s.expectedPositions == map[]
    ensures AllCurrent(s)
  {
  }

  // ---------------------------------------------------------------- current movements can all be attested

  lemma CashAttestKeeps(s: State, e: CashEvent, t: State)
    requires StepMoves(s, CashEv(e), t) && AllCurrent(s)
    ensures AllCurrent(t) && e.sourceEventId in s.expectedCash && t.expectedCash == s.expectedCash - {e.sourceEventId}
    ensures t.expectedPositions == s.expectedPositions
  {
    hide FillsMove, SnapshotOf, TradingDayOf;
    assert CashCurrent(s, s.expectedCash[e.sourceEventId]);
  }

  lemma PositionAttestKeeps(s: State, e: PositionEvent, t: State)
    requires StepMoves(s, PositionEv(e), t) && AllCurrent(s) && s.expectedCash == map[]
    ensures AllCurrent(t) && e.sourceEventId in s.expectedPositions
    ensures t.expectedPositions == s.expectedPositions - {e.sourceEventId} && t.expectedCash == map[]
  {
    StillKeeps(s, PositionEv(e), t);
    hide FillsMove, SnapshotOf, TradingDayOf;
    assert PositionCurrent(s, s.expectedPositions[e.sourceEventId]);
  }

  lemma OneCashEvent(su: Setup, es: seq<Event>, s: State, id: Id) returns (e: CashEvent)
    requires ValidSetup(su) && Run(su, es, s) && AllCurrent(s) && id in s.expectedCash
    ensures e.sourceEventId == id && ApplyEvent(su, s, CashEv(e)).Ok?
  {
    hide Run, ApplyEvent, ValidSetup, PositionCurrent;
    assert CashCurrent(s, s.expectedCash[id]);
    CashAttestableExactly(su, es, s, id);
    e :| e.sourceEventId == id && ApplyEvent(su, s, CashEv(e)).Ok?;
  }

  lemma OnePositionEvent(su: Setup, es: seq<Event>, s: State, id: Id) returns (e: PositionEvent)
    requires ValidSetup(su) && Run(su, es, s) && AllCurrent(s) && id in s.expectedPositions
    ensures e.sourceEventId == id && ApplyEvent(su, s, PositionEv(e)).Ok?
  {
    hide Run, ApplyEvent, ValidSetup, CashCurrent, SnapshotOf;
    assert PositionCurrent(s, s.expectedPositions[id]);
    PositionAttestableExactly(su, es, s, id);
    e :| e.sourceEventId == id && ApplyEvent(su, s, PositionEv(e)).Ok?;
  }

  /** Attest one pending movement: it leaves, and the others stay current. */
  lemma AttestOne(su: Setup, es: seq<Event>, s: State) returns (e: Event, t: State)
    requires ValidSetup(su) && Run(su, es, s) && AllCurrent(s)
    requires s.expectedCash != map[] || s.expectedPositions != map[]
    ensures ApplyEvent(su, s, e) == Ok(t) && Still(e) && AllCurrent(t)
    ensures |t.expectedCash| + |t.expectedPositions| < |s.expectedCash| + |s.expectedPositions|
  {
    hide Run, Inv, ApplyEvent, ValidSetup, StepMoves, AllCurrent;
    RunInv(su, es, s);
    if s.expectedCash != map[] {
      var id :| id in s.expectedCash;
      var x := OneCashEvent(su, es, s, id);
      e, t := CashEv(x), ApplyEvent(su, s, CashEv(x)).value;
      StepIsMove(su, s, e, t);
      CashAttestKeeps(s, x, t);
      FewerLeft(s.expectedCash, id);
    } else {
      var id :| id in s.expectedPositions;
      var x := OnePositionEvent(su, es, s, id);
      e, t := PositionEv(x), ApplyEvent(su, s, PositionEv(x)).value;
      StepIsMove(su, s, e, t);
      PositionAttestKeeps(s, x, t);
      FewerLeft(s.expectedPositions, id);
    }
  }

  lemma FewerLeft<V>(pending: map<Id, V>, id: Id)
    requires id in pending
    ensures |pending - {id}| < |pending|
  {
    assert (pending - {id}).Keys == pending.Keys - {id};
  }

  lemma {:induction false} AttestAll(su: Setup, es: seq<Event>, s: State) returns (more: seq<Event>)
    requires ValidSetup(su) && Run(su, es, s) && AllCurrent(s)
    ensures Completes(su, s, more)
    decreases |s.expectedCash| + |s.expectedPositions|
  {
    hide Run, ApplyEvent, ValidSetup, AllCurrent, Still;
    more := [];
    if s.expectedCash != map[] || s.expectedPositions != map[] {
      var e, t := AttestOne(su, es, s);
      RunAppend(su, es, s, e, t);
      var rest := AttestAll(su, es + [e], t);
      more := [e] + rest;
      assert more[1..] == rest && more[0] == e;
    }
  }

  /**
   * A reachable state can be completed with attestations, without another confirmation or fee, exactly when every
   * pending movement is of the present day, not short, and still what the ledger shows.
   */
  lemma CompletableAsItStands(su: Setup, es: seq<Event>, s: State)
    requires ValidSetup(su) && Run(su, es, s)
    ensures (exists more :: Completes(su, s, more)) <==> AllCurrent(s)
  {
    hide Run, Inv, HistoryOk, ValidSetup, AllCurrent, Completes;
    RunHistory(su, es, s);
    if AllCurrent(s) {
      var more := AttestAll(su, es, s);
    } else {
      forall more | Completes(su, s, more)
        ensures false
      {
        CompletedWasCurrent(su, s, more);
      }
    }
  }
}
