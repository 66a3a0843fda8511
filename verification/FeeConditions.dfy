/** When an outstanding fee can still be charged, and exactly when a run can still complete with fees. */
module FeeConditions {
  import opened Outcomes
  import opened Contracts
  import opened FeeRules
  import opened EngineModel
  import opened Bookkeeping
  import opened Attestation
  import opened EngineRuns
  import opened Steps
  import opened LateFees
  import opened AttestedRuns

  /** An effective rule of the book whose fee on the fill can be paid from the present cash. */
  ghost predicate Payable(su: Setup, cash: real, f: FillEvent)
    requires ValidSetup(su) && su.feeBook.Some?
  {
    exists rule :: rule in su.feeBook.value
      && Candidate(rule, f.key.instrumentType, f.side, f.head.day, None)
      && (su.config.allowNegativeCash || rule.Fee(f.grossAmount).total <= cash)
  }

  /** The creation day of the fill lasts and some rule's fee can be paid. */
  ghost predicate Chargeable(su: Setup, s: State, id: Id)
    requires ValidSetup(su) && su.feeBook.Some? && id in s.fills
  {
    s.lastDay == Some(s.fills[id].created.head.day) && Payable(su, s.cash, s.fills[id].created)
  }

  ghost predicate CanCharge(su: Setup, s: State, id: Id)
    requires ValidSetup(su)
  {
    exists e: FeeEvent :: e.fillId == id && ApplyEvent(su, s, FeeEv(e)).Ok?
  }

  // ---------------------------------------------------------------- a fee that was accepted could be paid

  lemma RuleOfFee(book: seq<FeeRule>, e: FeeEvent, created: FillEvent) returns (rule: FeeRule)
    requires ValidBook(book) && CheckFeeRule(book, e, created) == Pass && e.key == created.key && e.side == created.side
    ensures rule in book && Candidate(rule, created.key.instrumentType, created.side, created.head.day, None)
    ensures rule.Valid() && e.total == rule.Fee(created.grossAmount).total
  {
    var pinned := Some(e.ruleVersion);
    SelectLatest(book, e.key.instrumentType, e.side, created.head.day, pinned);
    rule := Select(book, e.key.instrumentType, e.side, created.head.day, pinned).value;
    hide FeeRule.Fee;
    rule.AssessTotal(created.grossAmount);
  }

  lemma ChargePaid(c: Config, s: State, e: FeeEvent)
    requires ChargeFee(c, s, e).Ok? && (s.cash < 0.0 ==> c.allowNegativeCash)
    ensures c.allowNegativeCash || e.total <= s.cash
  {
  }

  lemma AcceptedFee(su: Setup, s: State, e: FeeEvent)
    requires ValidSetup(su) && su.feeBook.Some? && ApplyFee(su, s, e).Ok?
    requires (s.cash < 0.0 ==> su.config.allowNegativeCash)
    ensures e.fillId in s.fills && Payable(su, s.cash, s.fills[e.fillId].created)
    ensures e.head.day == s.fills[e.fillId].created.head.day
  {
    hide CheckFeeRule, ChargeFee, AllocateFee, FeeRule.Fee, Candidate;
    var rule := RuleOfFee(su.feeBook.value, e, s.fills[e.fillId].created);
    ChargePaid(su.config, s, e);
  }

  lemma BooksCash(c: Config, s: State)
    requires BooksOk(c, s)
    ensures s.cash < 0.0 ==> c.allowNegativeCash
  {
    hide QuantitiesOk, CashOk, FillsOk, OrdersOk;
  }

  lemma ChargedWasChargeable(su: Setup, s: State, e: FeeEvent)
    requires ValidSetup(su) && su.feeBook.Some? && Inv(su, s) && DaysOk(s) && ApplyEvent(su, s, FeeEv(e)).Ok?
    ensures e.fillId in s.fills && Chargeable(su, s, e.fillId)
  {
    hide Inv, DaysOk, ValidSetup, ApplyEvent, BooksOk, Payable, StepMoves;
    var t := ApplyEvent(su, s, FeeEv(e)).value;
    InvBooks(su, s);
    BooksCash(su.config, s);
    DispatchedFee(su, s, e);
    AcceptedFee(su, s, e);
    StepIsMove(su, s, FeeEv(e), t);
    StepClock(s, FeeEv(e), t);
    NextDay(s, FeeEv(e), t);
    FillDay(s, e.fillId);
  }

  lemma StepClock(s: State, e: Event, t: State)
    requires StepMoves(s, e, t)
    ensures ClockMove(s, e, t)
  {
    hide FillsMove, PositionsMove, CashMove, ClockMove;
  }

  lemma DispatchedFee(su: Setup, s: State, e: FeeEvent)
    requires ValidSetup(su) && ApplyEvent(su, s, FeeEv(e)).Ok?
    ensures ApplyFee(su, s, e).Ok?
  {
    hide ApplyFee, ValidEvent, ValidateClock, ValidSetup;
  }

  lemma FillDay(s: State, id: Id)
    requires DaysOk(s) && id in s.fills
    ensures s.lastDay.Some? && s.fills[id].created.head.day <= s.lastDay.value
    ensures s.lastTime.Some? && s.fills[id].created.head.time <= s.lastTime.value
  {
    hide ConfirmationDays, TradingDayOf;
    assert FillDays(s, id);
  }

  // ---------------------------------------------------------------- a fee that can be paid is accepted

  /** The event that charges a fill under a rule. */
  function ChargeUnder(su: Setup, h: Header, f: FillEvent, rule: FeeRule): FeeEvent
    requires rule.increment > 0.0
  {
    var fee := rule.Fee(f.grossAmount);
    FeeEvent(h, f.key, f.fillId, f.head.time, f.side, rule.version, fee.commission, fee.stampDuty, fee.transferFee,
      fee.otherFee, fee.total, su.config.currency)
  }

  /** The version pins the rule, because no other rule of its type and side carries it. */
  lemma VersionPins(book: seq<FeeRule>, rule: FeeRule, kind: InstrumentType, side: Side, day: Day)
    requires ValidBook(book) && rule in book && Candidate(rule, kind, side, day, None)
    ensures rule.Valid() && Select(book, kind, side, day, Some(rule.version)) == Some(rule)
  {
    var i :| 0 <= i < |book| && book[i] == rule;
    hide FeeRule.Valid;
    assert book[i].Valid();
    forall j | 0 <= j < |book| && Candidate(book[j], kind, side, day, Some(rule.version))
      ensures j == i
    {
      SameVersion(book, i, j);
    }
    SelectUnique(book, kind, side, day, Some(rule.version), i);
  }

  lemma SameVersion(book: seq<FeeRule>, i: nat, j: nat)
    requires ValidBook(book) && i < |book| && j < |book| && book[i].version == book[j].version
    requires book[i].instrumentType == book[j].instrumentType && book[i].side == book[j].side
    ensures i == j
  {
    assert j < i ==> Clash(book[j], book[i]);
    assert i < j ==> Clash(book[i], book[j]);
  }

  lemma PayingRule(su: Setup, cash: real, f: FillEvent) returns (rule: FeeRule)
    requires ValidSetup(su) && su.feeBook.Some? && Payable(su, cash, f)
    ensures rule in su.feeBook.value && rule.Valid() && Candidate(rule, f.key.instrumentType, f.side, f.head.day, None)
    ensures su.config.allowNegativeCash || rule.Fee(f.grossAmount).total <= cash
  {
    hide FeeRule.Fee, Candidate, ValidConfig;
    rule :| rule in su.feeBook.value && Candidate(rule, f.key.instrumentType, f.side, f.head.day, None)
      && (su.config.allowNegativeCash || rule.Fee(f.grossAmount).total <= cash);
  }

  lemma RuleAccepts(su: Setup, h: Header, f: FillEvent, rule: FeeRule)
    requires ValidSetup(su) && su.feeBook.Some? && rule in su.feeBook.value && 0.0 < f.grossAmount
    requires Candidate(rule, f.key.instrumentType, f.side, f.head.day, None) && f.head.time <= h.time
    ensures rule.Valid() && ValidFee(ChargeUnder(su, h, f, rule))
    ensures CheckFeeRule(su.feeBook.value, ChargeUnder(su, h, f, rule), f) == Pass
  {
    VersionPins(su.feeBook.value, rule, f.key.instrumentType, f.side, f.head.day);
    hide FeeRule.Fee, ValidSetup, Select;
    rule.AssessTotal(f.grossAmount);
    SelectLatest(su.feeBook.value, f.key.instrumentType, f.side, f.head.day, Some(rule.version));
  }

  lemma ChargeAccepted(c: Config, s: State, e: FeeEvent)
    requires e.head.eventId !in s.expectedCash && 0.0 <= e.total && (c.allowNegativeCash || e.total <= s.cash)
    ensures ChargeFee(c, s, e).Ok?
  {
  }

  lemma PendingCash(su: Setup, s: State)
    requires ValidSetup(su) && Inv(su, s)
    ensures s.expectedCash.Keys <= s.eventIds
  {
    hide BooksOk, FeesOk, ReplayOk, SourcesOk;
  }

  lemma FillOfBooks(c: Config, s: State, id: Id)
    requires BooksOk(c, s) && id in s.fills
    ensures FillOk(s.orders, id, s.fills[id])
  {
    hide LedgersOk, QuantitiesOk, CashOk, OrdersOk, FillOk;
  }

  lemma FillFacts(orders: map<Id, OrderRecord>, id: Id, r: FillRecord)
    requires FillOk(orders, id, r)
    ensures r.created.fillId == id && 0.0 < r.created.grossAmount
    ensures (r.applied ==> r.latest.status in {Confirmed, Settled})
  {
    hide ValidateFillOrder;
  }

  lemma FeeAccepted(su: Setup, s: State, e: FeeEvent)
    requires ValidSetup(su) && Inv(su, s) && su.feeBook.Some? && e.fillId in s.fills && Uncharged(s.fills[e.fillId])
    requires var f := s.fills[e.fillId].created;
      && e.key == f.key && e.side == f.side && e.fillTime == f.head.time && e.head.day == f.head.day
      && e.currency == su.config.currency && CheckFeeRule(su.feeBook.value, e, f) == Pass
    requires e.head.eventId !in s.eventIds && 0.0 <= e.total && (su.config.allowNegativeCash || e.total <= s.cash)
    ensures ApplyFee(su, s, e).Ok?
  {
    hide Inv, BooksOk, FillOk, ValidSetup, CheckFeeRule, ChargeFee, AllocateFee, ValidFill;
    InvBooks(su, s);
    FillOfBooks(su.config, s, e.fillId);
    FillFacts(s.orders, e.fillId, s.fills[e.fillId]);
    PendingCash(su, s);
    ChargeAccepted(su.config, s, e);
    var t := ChargeFee(su.config, s, e).value;
    AllocationAccepted(su, s, e, t);
  }

  lemma ChargeableIsCharged(su: Setup, s: State, id: Id)
    requires ValidSetup(su) && su.feeBook.Some? && Inv(su, s) && DaysOk(s) && PendingOk(s)
    requires id in s.fills && Uncharged(s.fills[id]) && Chargeable(su, s, id)
    ensures CanCharge(su, s, id)
  {
    hide Inv, DaysOk, BooksOk, FillOk, Payable, CheckFeeRule, FeeRule.Fee, ApplyFee, ValidFee, Candidate, ValidSetup,
      CashDated, PositionDated, TradingDayOf;
    var f := s.fills[id].created;
    var rule := PayingRule(su, s.cash, f);
    InvBooks(su, s);
    FillOfBooks(su.config, s, id);
    FillFacts(s.orders, id, s.fills[id]);
    FillDay(s, id);
    LastDayIs(s);
    var unused := FreshId(s.eventIds);
    var h := Header(unused, su.config.runId, s.lastSequence + 1, s.lastTime.value, f.head.day);
    RuleAccepts(su, h, f, rule);
    var e := ChargeUnder(su, h, f, rule);
    NonNegativeFee(e);
    FeeAccepted(su, s, e);
    assert ValidEvent(FeeEv(e));
    assert ValidateClock(su.config, s, h) == Pass;
    assert Dispatch(su, s, FeeEv(e)).Ok?;
    assert ApplyEvent(su, s, FeeEv(e)).Ok?;
  }

  /**
   * An outstanding fee can be charged exactly while the fill's creation day lasts and the book has an effective rule
   * for it whose fee the cash can pay.
   */
  lemma ChargeableExactly(su: Setup, es: seq<Event>, s: State, id: Id)
    requires ValidSetup(su) && Run(su, es, s) && su.feeBook.Some? && id in s.fills && Uncharged(s.fills[id])
    ensures CanCharge(su, s, id) <==> Chargeable(su, s, id)
  {
    hide Run, Inv, DaysOk, PendingOk, CashAttested, LedgersAttested, ShortsOk, ApplyEvent, Chargeable, ValidSetup;
    RunHistory(su, es, s);
    if Chargeable(su, s, id) {
      ChargeableIsCharged(su, s, id);
    }
    if CanCharge(su, s, id) {
      var e: FeeEvent :| e.fillId == id && ApplyEvent(su, s, FeeEv(e)).Ok?;
      ChargedWasChargeable(su, s, e);
    }
  }

  // ---------------------------------------------------------------- completion

  /** An outstanding fee that cannot be charged. */
  ghost predicate Stuck(su: Setup, s: State, id: Id)
    requires ValidSetup(su) && su.feeBook.Some?
  {
    id in s.fills && Uncharged(s.fills[id]) && !Chargeable(su, s, id)
  }

  lemma UnchargedExists(s: State, id: Id)
    requires id in s.fills && Uncharged(s.fills[id])
    ensures HasUncharged(s.fills)
  {
  }

  /** While a fee is stuck nothing is confirmed and nothing is charged, so cash stays what it is. */
  lemma StuckQuiet(su: Setup, s: State, e: Event, t: State, id: Id)
    requires ValidSetup(su) && su.feeBook.Some? && Inv(su, s) && DaysOk(s) && Stuck(su, s, id)
    requires ApplyEvent(su, s, e) == Ok(t)
    ensures !e.FeeEv? && !Confirming(s, e)
  {
    hide Inv, DaysOk, ValidSetup, ApplyEvent, Chargeable, HasUncharged, ApplyFill, Uncharged, StepMoves;
    UnchargedFacts(su, s, id);
    UnchargedExists(s, id);
    if e.FeeEv? {
      StepIsMove(su, s, e, t);
      ChargedFirst(s, e.fee, t);
      ChargedWasChargeable(su, s, e.fee);
    } else if Confirming(s, e) {
      AcceptedFill(su, s, e.fill);
      ConfirmNeedsFees(su, s, e.fill);
    }
  }

  lemma ChargedFirst(s: State, e: FeeEvent, t: State)
    requires StepMoves(s, FeeEv(e), t)
    ensures e.fillId in s.fills && Uncharged(s.fills[e.fillId])
  {
    hide PositionsMove, CashMove, ClockMove;
  }

  lemma QuietKeeps(s: State, e: Event, t: State, id: Id)
    requires StepMoves(s, e, t) && !e.FeeEv? && !Confirming(s, e) && id in s.fills
    ensures t.cash == s.cash && id in t.fills && t.fills[id] == s.fills[id].(latest := t.fills[id].latest)
    ensures forall f :: f in t.fills && t.fills[f].applied ==> f in s.fills && s.fills[f].applied
  {
    hide PositionsMove, ClockMove, QuantityBefore;
  }

  lemma StuckStep(su: Setup, s: State, e: Event, t: State, id: Id)
    requires ValidSetup(su) && su.feeBook.Some? && Inv(su, s) && DaysOk(s) && Stuck(su, s, id)
    requires ApplyEvent(su, s, e) == Ok(t)
    ensures Stuck(su, t, id)
    ensures forall f :: f in t.fills && t.fills[f].applied ==> f in s.fills && s.fills[f].applied
  {
    hide Inv, DaysOk, ValidSetup, ApplyEvent, Payable, StepMoves, Confirming;
    StuckQuiet(su, s, e, t, id);
    StepIsMove(su, s, e, t);
    QuietKeeps(s, e, t, id);
    StepClock(s, e, t);
    NextDay(s, e, t);
    FillDay(s, id);
  }

  lemma {:induction false} StuckRun(su: Setup, s: State, es: seq<Event>, t: State, id: Id)
    requires ValidSetup(su) && su.feeBook.Some? && Inv(su, s) && DaysOk(s) && Stuck(su, s, id)
    requires ApplyAll(su, s, es) == Ok(t)
    ensures Stuck(su, t, id)
    ensures forall f :: f in t.fills && t.fills[f].applied ==> f in s.fills && s.fills[f].applied
    decreases |es|
  {
    hide Inv, DaysOk, ValidSetup, ApplyEvent, Stuck, StepMoves;
    if es != [] {
      var u := ApplyEvent(su, s, es[0]).value;
      StepKeepsInv(su, s, es[0], u);
      StepIsMove(su, s, es[0], u);
      StepKeepsDays(s, es[0], u);
      StuckStep(su, s, es[0], u, id);
      StuckRun(su, u, es[1..], t, id);
    }
  }

  /** Once a fee is stuck, no continuation charges it or confirms another fill. */
  lemma StuckIsDeadEnd(su: Setup, es: seq<Event>, s: State, id: Id, more: seq<Event>, t: State)
    requires ValidSetup(su) && su.feeBook.Some? && Run(su, es, s) && Stuck(su, s, id) && ApplyAll(su, s, more) == Ok(t)
    ensures id in t.fills && Uncharged(t.fills[id]) && HasUncharged(t.fills)
    ensures forall f :: f in t.fills && t.fills[f].applied ==> f in s.fills && s.fills[f].applied
  {
    hide Run, Inv, DaysOk, ValidSetup, ApplyAll, Chargeable;
    RunDays(su, es, s);
    StuckRun(su, s, more, t, id);
  }

  /** Some continuation charges every fill. */
  ghost predicate FeesCompletable(su: Setup, s: State)
    requires ValidSetup(su)
  {
    exists more, t :: ApplyAll(su, s, more) == Ok(t) && !HasUncharged(t.fills)
  }

  lemma CompletedBy(su: Setup, s: State, more: seq<Event>, t: State)
    requires ValidSetup(su) && ApplyAll(su, s, more) == Ok(t) && !HasUncharged(t.fills)
    ensures FeesCompletable(su, s)
  {
  }

  /** The only outstanding fee is charged, so nothing is outstanding. */
  lemma LastCharged(su: Setup, s: State, e: FeeEvent, t: State)
    requires ValidSetup(su) && su.feeBook.Some? && Inv(su, s) && ApplyEvent(su, s, FeeEv(e)) == Ok(t)
    ensures !HasUncharged(t.fills)
  {
    hide Inv, ValidSetup, ApplyEvent, PositionsMove, CashMove, ClockMove;
    StepIsMove(su, s, FeeEv(e), t);
    UnchargedFacts(su, s, e.fillId);
    forall f | f in t.fills
      ensures !Uncharged(t.fills[f])
    {
      assert f != e.fillId ==> t.fills[f] == s.fills[f];
    }
  }

  /**
   * A run can still complete with fees exactly when every outstanding fee can be charged now: its fill's creation day
   * lasts, a rule is effective, and cash can pay it. Waiting never helps, because nothing else can move cash first.
   */
  lemma FeesCompletableExactly(su: Setup, es: seq<Event>, s: State)
    requires ValidSetup(su) && su.feeBook.Some? && Run(su, es, s)
    ensures FeesCompletable(su, s) <==> forall id :: id in s.fills && Uncharged(s.fills[id]) ==> Chargeable(su, s, id)
  {
    hide Run, Inv, DaysOk, ValidSetup, ApplyAll, ApplyEvent, Chargeable, Uncharged, FeesCompletable;
    RunDays(su, es, s);
    if forall id :: id in s.fills && Uncharged(s.fills[id]) ==> Chargeable(su, s, id) {
      ChargeAll(su, es, s);
    } else {
      var id :| id in s.fills && Uncharged(s.fills[id]) && !Chargeable(su, s, id);
      forall more, t | ApplyAll(su, s, more) == Ok(t)
        ensures HasUncharged(t.fills)
      {
        StuckIsDeadEnd(su, es, s, id, more, t);
      }
      NoneCompletes(su, s);
    }
  }

  lemma NoneCompletes(su: Setup, s: State)
    requires ValidSetup(su) && forall more, t :: ApplyAll(su, s, more) == Ok(t) ==> HasUncharged(t.fills)
    ensures !FeesCompletable(su, s)
  {
  }

  lemma ChargeAll(su: Setup, es: seq<Event>, s: State)
    requires ValidSetup(su) && su.feeBook.Some? && Run(su, es, s)
    requires forall id :: id in s.fills && Uncharged(s.fills[id]) ==> Chargeable(su, s, id)
    ensures FeesCompletable(su, s)
  {
    hide Run, Inv, DaysOk, ValidSetup, ApplyEvent, Chargeable, Uncharged, FeesCompletable;
    RunDays(su, es, s);
    if HasUncharged(s.fills) {
      var id :| id in s.fills && Uncharged(s.fills[id]);
      ChargeableExactly(su, es, s, id);
      var e: FeeEvent :| e.fillId == id && ApplyEvent(su, s, FeeEv(e)).Ok?;
      var t := ApplyEvent(su, s, FeeEv(e)).value;
      LastCharged(su, s, e, t);
      ApplyOne(su, s, FeeEv(e));
      CompletedBy(su, s, [FeeEv(e)], t);
    } else {
      CompletedBy(su, s, [], s);
    }
  }
}
