/** Fees and calendar days: a fill confirmed after its creation day can never be charged. */
module LateFees {
  import opened Outcomes
  import opened Contracts
  import opened EngineModel
  import opened Attestation
  import opened EngineRuns
  import opened Steps

  predicate ConfirmsFill(e: Event) {
    e.FillEv? && e.fill.status == Confirmed
  }

  /** Days never run backwards: from a fill's creation through its confirmation to its fee and the engine's last day. */
  ghost predicate FillDays(s: State, id: Id)
    requires id in s.fills
  {
    var r := s.fills[id];
    && s.lastDay.Some? && r.created.head.day <= s.lastDay.value
    && s.lastTime.Some? && r.created.head.time <= s.lastTime.value
    && (r.fee.Some? ==> r.fee.value.head.day == r.created.head.day)
  }

  ghost predicate ConfirmationDays(s: State, e: Event) {
    ConfirmsFill(e) ==>
      && e.fill.fillId in s.fills && s.lastDay.Some?
      && var r := s.fills[e.fill.fillId];
      && r.applied && r.created.head.day <= e.Head().day <= s.lastDay.value
      && (r.fee.Some? ==> e.Head().day == r.created.head.day)
  }

  ghost predicate DaysOk(s: State) {
    && (s.lastDay.Some? ==> s.lastTime.Some? && s.lastDay.value == TradingDayOf(s.lastTime.value))
    && (forall id :: id in s.fills ==> FillDays(s, id))
    && (forall i :: 0 <= i < |s.events| ==> ConfirmationDays(s, s.events[i]))
  }

  lemma DayMonotone(a: Instant, b: Instant)
    requires a <= b
    ensures TradingDayOf(a) <= TradingDayOf(b)
  {
  }

  lemma NextDay(s: State, e: Event, t: State)
    requires DaysOk(s) && ClockMove(s, e, t)
    ensures s.lastDay.Some? ==> s.lastDay.value <= e.Head().day
  {
    if s.lastDay.Some? {
      DayMonotone(s.lastTime.value, e.Head().time);
    }
  }

  lemma FillDaysStep(s: State, e: Event, t: State, id: Id)
    requires DaysOk(s) && StepMoves(s, e, t) && id in t.fills
    ensures FillDays(t, id)
  {
    NextDay(s, e, t);
    hide PositionsMove, CashMove, ConfirmationDays, TradingDayOf, QuantityBefore;
    assert id in s.fills ==> FillDays(s, id);
  }

  lemma ConfirmationDaysStep(s: State, e: Event, t: State, earlier: Event)
    requires DaysOk(s) && StepMoves(s, e, t) && ConfirmationDays(s, earlier)
    ensures ConfirmationDays(t, earlier)
  {
    NextDay(s, e, t);
    hide PositionsMove, CashMove, TradingDayOf, QuantityBefore;
    if ConfirmsFill(earlier) {
      assert FillDays(s, earlier.fill.fillId);
    }
  }

  lemma NewConfirmation(s: State, e: Event, t: State)
    requires DaysOk(s) && StepMoves(s, e, t)
    ensures ConfirmationDays(t, e)
  {
    NextDay(s, e, t);
    hide PositionsMove, CashMove, TradingDayOf, QuantityBefore;
    if ConfirmsFill(e) && e.fill.fillId in s.fills {
      assert FillDays(s, e.fill.fillId);
    }
  }

  lemma StepKeepsDays(s: State, e: Event, t: State)
    requires DaysOk(s) && StepMoves(s, e, t)
    ensures DaysOk(t)
  {
    hide FillsMove, PositionsMove, CashMove, FillDays, ConfirmationDays;
    forall id | id in t.fills
      ensures FillDays(t, id)
    {
      FillDaysStep(s, e, t, id);
    }
    forall i | 0 <= i < |t.events|
      ensures ConfirmationDays(t, t.events[i])
    {
      if i < |s.events| {
        assert t.events[i] == s.events[i];
        ConfirmationDaysStep(s, e, t, s.events[i]);
      } else {
        NewConfirmation(s, e, t);
      }
    }
  }

  lemma {:induction false} RunKeepsDays(su: Setup, s: State, es: seq<Event>, t: State)
    requires ValidSetup(su) && Inv(su, s) && DaysOk(s) && ApplyAll(su, s, es) == Ok(t)
    ensures DaysOk(t)
    decreases |es|
  {
    hide Inv, ApplyEvent, DaysOk, ValidSetup, StepMoves;
    if es != [] {
      var u := ApplyEvent(su, s, es[0]).value;
      StepKeepsInv(su, s, es[0], u);
      StepIsMove(su, s, es[0], u);
      StepKeepsDays(s, es[0], u);
      RunKeepsDays(su, u, es[1..], t);
    }
  }

  lemma RunDays(su: Setup, es: seq<Event>, s: State)
    requires ValidSetup(su) && Run(su, es, s)
    ensures DaysOk(s) && s.events == es && Inv(su, s)
  {
    hide Inv, ApplyAll, ValidSetup;
    InitialInv(su);
    RunInv(su, es, s);
    RunKeepsDays(su, InitialState(su.config), es, s);
  }

  /** In every complete run with fees each fill was confirmed on the day it was created. */
  lemma CompleteRunsConfirmOnCreationDay(su: Setup, es: seq<Event>, s: State, required: Option<bool>, i: nat)
    requires ValidSetup(su) && Run(su, es, s) && EnsureComplete(su, s, required) == Pass
    requires su.feeBook.Some? && required != Some(false)
    requires i < |es| && ConfirmsFill(es[i])
    ensures var id := es[i].fill.fillId;
      id in s.fills && s.fills[id].applied && s.fills[id].fee.Some? && es[i].Head().day == s.fills[id].created.head.day
  {
    hide Inv, Run;
    RunDays(su, es, s);
    assert ConfirmationDays(s, s.events[i]);
    var id := es[i].fill.fillId;
    assert !Uncharged(s.fills[id]);
  }

  // ---------------------------------------------------------------- the dead end

  /** An applied fill without its fee, after its creation day has passed. */
  predicate Overdue(s: State, id: Id) {
    && id in s.fills && s.fills[id].applied && s.fills[id].fee.None?
    && s.lastDay.Some? && s.fills[id].created.head.day < s.lastDay.value
  }

  /** A confirmation on a later day than the creation is overdue at once. */
  lemma LateConfirmationIsOverdue(su: Setup, es: seq<Event>, s: State, e: FillEvent, t: State)
    requires ValidSetup(su) && Run(su, es, s) && ApplyEvent(su, s, FillEv(e)) == Ok(t)
    requires e.status == Confirmed && e.fillId in s.fills && s.fills[e.fillId].created.head.day < e.head.day
    ensures Overdue(t, e.fillId)
  {
    hide Run, Inv, ApplyEvent, PositionsMove, CashMove;
    RunInv(su, es, s);
    StepIsMove(su, s, FillEv(e), t);
  }

  lemma OverdueKept(s: State, e: Event, t: State, id: Id)
    requires StepMoves(s, e, t) && Overdue(s, id) && s.lastDay.value <= e.Head().day
    ensures Overdue(t, id)
  {
    hide PositionsMove, CashMove, QuantityBefore, TradingDayOf;
  }

  lemma NothingApplied(s: State, e: Event, t: State)
    requires FillsMove(s, e, t) && !(ConfirmsFill(e) && e.fill.fillId in s.fills)
    ensures forall f :: f in t.fills && t.fills[f].applied ==> f in s.fills && s.fills[f].applied
  {
    hide QuantityBefore;
  }

  lemma ConfirmNeedsFees(su: Setup, s: State, e: FillEvent)
    requires e.fillId in s.fills && e.status == Confirmed && ApplyFill(su, s, e).Ok? && su.feeBook.Some?
    ensures !HasUncharged(s.fills)
  {
    hide ApplyTrade, HasUncharged, ExecutionOf;
  }

  lemma AcceptedFill(su: Setup, s: State, e: FillEvent)
    requires ValidSetup(su) && ApplyEvent(su, s, FillEv(e)).Ok?
    ensures ApplyFill(su, s, e).Ok?
  {
    hide ApplyFill, ValidEvent, ValidateClock, ValidSetup;
  }

  lemma OverdueStep(su: Setup, s: State, e: Event, t: State, id: Id)
    requires ValidSetup(su) && Inv(su, s) && DaysOk(s) && ApplyEvent(su, s, e) == Ok(t) && Overdue(s, id)
    ensures Overdue(t, id)
    ensures su.feeBook.Some? ==> forall f :: f in t.fills && t.fills[f].applied ==> f in s.fills && s.fills[f].applied
  {
    hide Inv, ApplyEvent, DaysOk, ValidSetup, FillsMove, PositionsMove, CashMove, ApplyFill, HasUncharged;
    StepIsMove(su, s, e, t);
    NextDay(s, e, t);
    OverdueKept(s, e, t, id);
    if su.feeBook.Some? {
      OverdueUncharged(s, id);
      if ConfirmsFill(e) && e.fill.fillId in s.fills {
        AcceptedFill(su, s, e.fill);
        ConfirmNeedsFees(su, s, e.fill);
      }
      NothingApplied(s, e, t);
    }
  }

  lemma OverdueUncharged(s: State, id: Id)
    requires Overdue(s, id)
    ensures HasUncharged(s.fills)
  {
    assert Uncharged(s.fills[id]);
  }

  lemma {:induction false} OverdueRun(su: Setup, s: State, es: seq<Event>, t: State, id: Id)
    requires ValidSetup(su) && Inv(su, s) && DaysOk(s) && ApplyAll(su, s, es) == Ok(t) && Overdue(s, id)
    ensures Overdue(t, id)
    ensures su.feeBook.Some? ==> forall f :: f in t.fills && t.fills[f].applied ==> f in s.fills && s.fills[f].applied
    decreases |es|
  {
    hide Inv, ApplyEvent, DaysOk, ValidSetup, Overdue, StepMoves;
    if es != [] {
      var u := ApplyEvent(su, s, es[0]).value;
      StepKeepsInv(su, s, es[0], u);
      StepIsMove(su, s, es[0], u);
      StepKeepsDays(s, es[0], u);
      OverdueStep(su, s, es[0], u, id);
      OverdueRun(su, u, es[1..], t, id);
    }
  }

  /**
   * The dead end. Once a fill is overdue no continuation ever charges it; with a rule book none confirms another fill,
   * and none completes with fees.
   */
  lemma OverdueIsDeadEnd(su: Setup, es: seq<Event>, s: State, id: Id, more: seq<Event>, t: State,
      required: Option<bool>)
    requires ValidSetup(su) && Run(su, es, s) && Overdue(s, id) && ApplyAll(su, s, more) == Ok(t)
    ensures id in t.fills && t.fills[id].applied && t.fills[id].fee.None?
    ensures su.feeBook.Some? ==> forall f :: f in t.fills && t.fills[f].applied ==> f in s.fills && s.fills[f].applied
    ensures su.feeBook.Some? && required != Some(false) ==> EnsureComplete(su, t, required).Fail?
  {
    hide Inv, Run, ApplyAll, DaysOk, ValidSetup;
    RunDays(su, es, s);
    OverdueRun(su, s, more, t, id);
    OverdueUncharged(t, id);
  }
}
