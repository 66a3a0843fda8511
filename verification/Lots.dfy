/** Dated lots: what consuming, adding and merging them does to the position's totals. */
module Lots {
  import opened Outcomes
  import opened Sums
  import opened Contracts
  import opened EngineModel

  predicate NonNegative(lots: seq<Lot>) {
    forall i :: 0 <= i < |lots| ==> 0.0 <= lots[i].quantity
  }

  predicate Positive(lots: seq<Lot>) {
    forall i :: 0 <= i < |lots| ==> 0.0 < lots[i].quantity
  }

  /** The quantity one draining pass may touch. */
  function Reach(lots: seq<Lot>, day: Day, eligible: bool): real {
    if eligible then SellableTotal(lots, day) else LotTotal(lots) - SellableTotal(lots, day)
  }

  lemma {:induction false} TotalsOfAppend(a: seq<Lot>, lot: Lot, t: Day)
    ensures LotTotal(a + [lot]) == LotTotal(a) + lot.quantity
    ensures SellableTotal(a + [lot], t) == SellableTotal(a, t) + (if lot.sellableOn <= t then lot.quantity else 0.0)
  {
    if a == [] {
      assert a + [lot] == [lot];
    } else {
      assert (a + [lot])[1..] == a[1..] + [lot];
      TotalsOfAppend(a[1..], lot, t);
    }
  }

  lemma {:induction false} TotalsBounded(lots: seq<Lot>, day: Day)
    requires NonNegative(lots)
    ensures 0.0 <= SellableTotal(lots, day) <= LotTotal(lots)
  {
    if lots != [] {
      TotalsBounded(lots[1..], day);
    }
  }

  /** One pass takes exactly min(amount, reach), keeps dates, and lowers every later day's sellable total. */
  lemma {:induction false} DrainEffect(lots: seq<Lot>, amount: real, day: Day, eligible: bool)
    requires NonNegative(lots) && 0.0 <= amount
    ensures var d := Drain(lots, amount, day, eligible);
      && NonNegative(d.lots)
      && d.remaining == Max(0.0, amount - Reach(lots, day, eligible))
      && LotTotal(d.lots) == LotTotal(lots) - (amount - d.remaining)
  {
    if lots != [] && amount != 0.0 {
      TotalsBounded(lots[1..], day);
      var consumed := if (lots[0].sellableOn <= day) == eligible then Min(lots[0].quantity, amount) else 0.0;
      DrainEffect(lots[1..], amount - consumed, day, eligible);
    } else {
      TotalsBounded(lots, day);
    }
  }

  lemma {:induction false} DrainSellable(lots: seq<Lot>, amount: real, day: Day, eligible: bool, t: Day)
    requires NonNegative(lots) && 0.0 <= amount
    ensures var d := Drain(lots, amount, day, eligible);
      && SellableTotal(d.lots, t) <= SellableTotal(lots, t)
      && (eligible && day <= t ==> SellableTotal(d.lots, t) == SellableTotal(lots, t) - (amount - d.remaining))
      && (!eligible && t <= day ==> SellableTotal(d.lots, t) == SellableTotal(lots, t))
  {
    if lots != [] && amount != 0.0 {
      var consumed := if (lots[0].sellableOn <= day) == eligible then Min(lots[0].quantity, amount) else 0.0;
      DrainSellable(lots[1..], amount - consumed, day, eligible, t);
    }
  }

  /** Dates stay, lots out of reach stay, and a lot shrinks only when every earlier lot within reach is used up. */
  predicate TakenInOrder(lots: seq<Lot>, after: seq<Lot>, day: Day, eligible: bool) {
    && |after| == |lots|
    && (forall i :: 0 <= i < |lots| ==>
      after[i].sellableOn == lots[i].sellableOn && 0.0 <= after[i].quantity <= lots[i].quantity)
    && (forall i :: 0 <= i < |lots| && (lots[i].sellableOn <= day) != eligible ==> after[i] == lots[i])
    && (forall i, j :: 0 <= i < j < |lots| && after[j] != lots[j] && (lots[i].sellableOn <= day) == eligible ==>
          after[i].quantity == 0.0)
  }

  lemma TakenCons(lot: Lot, left: Lot, rest: seq<Lot>, after: seq<Lot>, day: Day, eligible: bool)
    requires TakenInOrder(rest, after, day, eligible) && left.sellableOn == lot.sellableOn
    requires 0.0 <= left.quantity <= lot.quantity
    requires (lot.sellableOn <= day) != eligible ==> left == lot
    requires (lot.sellableOn <= day) == eligible && left.quantity != 0.0 ==> after == rest
    ensures TakenInOrder([lot] + rest, [left] + after, day, eligible)
  {
    var x, y := [lot] + rest, [left] + after;
    assert forall i :: 0 < i < |x| ==> x[i] == rest[i - 1] && y[i] == after[i - 1];
  }

  /** One pass takes lots strictly in order. */
  lemma {:induction false} DrainInOrder(lots: seq<Lot>, amount: real, day: Day, eligible: bool)
    requires NonNegative(lots) && 0.0 <= amount
    ensures TakenInOrder(lots, Drain(lots, amount, day, eligible).lots, day, eligible)
  {
    hide TakenInOrder;
    if lots == [] || amount == 0.0 {
      TakenNothing(lots, day, eligible);
    } else {
      var consumed := if (lots[0].sellableOn <= day) == eligible then Min(lots[0].quantity, amount) else 0.0;
      DrainInOrder(lots[1..], amount - consumed, day, eligible);
      DrainNothing(lots[1..], day, eligible);
      var d := Drain(lots[1..], amount - consumed, day, eligible);
      assert lots == [lots[0]] + lots[1..];
      TakenCons(lots[0], lots[0].(quantity := lots[0].quantity - consumed), lots[1..], d.lots, day, eligible);
      DrainHead(lots, amount, day, eligible, consumed);
    }
  }

  lemma DrainHead(lots: seq<Lot>, amount: real, day: Day, eligible: bool, consumed: real)
    requires lots != [] && amount != 0.0
    requires consumed == if (lots[0].sellableOn <= day) == eligible then Min(lots[0].quantity, amount) else 0.0
    ensures Drain(lots, amount, day, eligible).lots
      == [lots[0].(quantity := lots[0].quantity - consumed)] + Drain(lots[1..], amount - consumed, day, eligible).lots
  {
  }

  lemma TakenNothing(lots: seq<Lot>, day: Day, eligible: bool)
    requires NonNegative(lots)
    ensures TakenInOrder(lots, lots, day, eligible)
  {
  }

  lemma DrainNothing(lots: seq<Lot>, day: Day, eligible: bool)
    ensures Drain(lots, 0.0, day, eligible) == Drained(lots, 0.0)
  {
  }

  lemma {:induction false} NonEmptyEffect(lots: seq<Lot>, t: Day)
    requires NonNegative(lots)
    ensures Positive(NonEmpty(lots))
    ensures LotTotal(NonEmpty(lots)) == LotTotal(lots)
    ensures SellableTotal(NonEmpty(lots), t) == SellableTotal(lots, t)
  {
    if lots != [] {
      NonEmptyEffect(lots[1..], t);
      var rest := NonEmpty(lots[1..]);
      assert lots[0].quantity != 0.0 ==> ([lots[0]] + rest)[1..] == rest;
      assert lots[0].quantity == 0.0 ==> NonEmpty(lots) == rest;
    }
  }

  /**
   * Consuming lots never fails while the amount is within what the policy may touch; it removes exactly the
   * amount, leaves only positive lots, and without unsettled sales touches only lots sellable on the day.
   */
  lemma ConsumeExact(lots: seq<Lot>, amount: real, day: Day, allowUnsettled: bool)
    requires Positive(lots) && 0.0 <= amount
    ensures var r := ConsumeLots(lots, amount, day, allowUnsettled);
      && (r.Ok? <==> amount <= (if allowUnsettled then LotTotal(lots) else SellableTotal(lots, day)))
      && (r.Ok? ==> Positive(r.value) && LotTotal(r.value) == LotTotal(lots) - amount)
  {
    TotalsBounded(lots, day);
    DrainEffect(lots, amount, day, true);
    var first := Drain(lots, amount, day, true);
    DrainSellable(lots, amount, day, true, day);
    DrainEffect(first.lots, first.remaining, day, false);
    NonEmptyEffect(DrainAll(lots, amount, day, allowUnsettled).lots, day);
  }

  /** Sellable totals after a sale: exactly lower from the sale day on, and never higher before it. */
  lemma ConsumeSellable(lots: seq<Lot>, amount: real, day: Day, allowUnsettled: bool, t: Day)
    requires Positive(lots) && 0.0 <= amount
    ensures var r := ConsumeLots(lots, amount, day, allowUnsettled);
      r.Ok? ==> SellableTotal(r.value, t) <= SellableTotal(lots, t)
    ensures var r := ConsumeLots(lots, amount, day, allowUnsettled);
      r.Ok? && !allowUnsettled && day <= t ==> SellableTotal(r.value, t) == SellableTotal(lots, t) - amount
  {
    DrainEffect(lots, amount, day, true);
    DrainSellable(lots, amount, day, true, t);
    var first := Drain(lots, amount, day, true);
    DrainEffect(first.lots, first.remaining, day, false);
    DrainSellable(first.lots, first.remaining, day, false, t);
    NonEmptyEffect(DrainAll(lots, amount, day, allowUnsettled).lots, t);
  }

  /**
   * Settled lots are used before any other, so on the sale's own day exactly what they cannot give comes from the rest.
   */
  lemma SettledFirst(lots: seq<Lot>, amount: real, day: Day, allowUnsettled: bool)
    requires Positive(lots) && 0.0 <= amount && ConsumeLots(lots, amount, day, allowUnsettled).Ok?
    ensures SellableTotal(ConsumeLots(lots, amount, day, allowUnsettled).value, day)
      == Max(0.0, SellableTotal(lots, day) - amount)
  {
    TotalsBounded(lots, day);
    DrainEffect(lots, amount, day, true);
    DrainSellable(lots, amount, day, true, day);
    var first := Drain(lots, amount, day, true);
    DrainEffect(first.lots, first.remaining, day, false);
    DrainSellable(first.lots, first.remaining, day, false, day);
    NonEmptyEffect(DrainAll(lots, amount, day, allowUnsettled).lots, day);
  }

  /** What one lot adds to the units sellable on a day: all of it from its own date on, nothing before. */
  lemma {:induction false} SellableWithout(lots: seq<Lot>, day: Day, i: nat)
    requires i < |lots|
    ensures SellableTotal(lots, day)
      == SellableTotal(lots[..i] + lots[i + 1..], day) + (if lots[i].sellableOn <= day then lots[i].quantity else 0.0)
  {
    var others := lots[..i] + lots[i + 1..];
    if i == 0 {
      assert others == lots[1..];
    } else {
      SellableWithout(lots[1..], day, i - 1);
      assert others[1..] == lots[1..][..i - 1] + lots[1..][i..];
      assert others[0] == lots[0];
    }
  }

  // ---------------------------------------------------------------- whole ledgers

  /** Lots are positive and add up to the long quantity; the cost basis is never negative and dies with the position. */
  predicate WellFormed(ledger: PositionLedger) {
    && Positive(ledger.lots)
    && LotTotal(ledger.lots) == Max(ledger.quantity, 0.0)
    && 0.0 <= ledger.costBasis
    && (ledger.quantity == 0.0 ==> ledger.costBasis == 0.0)
  }

  lemma ProRataNonNegative(value: real, numerator: real, denominator: real)
    requires 0.0 <= value && 0.0 <= numerator && 0.0 < denominator
    ensures 0.0 <= ProRata(value, numerator, denominator)
  {
    ScaleLe(0.0, value, numerator);
    QuotientLe(0.0, value * numerator, denominator);
  }

  lemma OpeningWellFormed(p: InitialPosition)
    requires ValidPositionInput(p)
    ensures WellFormed(OpeningLedger(p))
    ensures forall t: Day :: DATE_MIN <= t < DATE_MAX ==>
      SellableTotal(OpeningLots(p), t) == p.sellableQuantity
  {
    ScaleLe(0.0, Abs(p.quantity), p.averageCost);
    var unsettled := p.quantity - p.sellableQuantity;
    var settledLots := if p.sellableQuantity != 0.0 then [Lot(p.sellableQuantity, DATE_MIN)] else [];
    if 0.0 < p.quantity && unsettled != 0.0 {
      TotalsOfAppend(settledLots, Lot(unsettled, DATE_MAX), 0);
      forall t: Day | DATE_MIN <= t < DATE_MAX
        ensures SellableTotal(OpeningLots(p), t) == p.sellableQuantity
      {
        TotalsOfAppend(settledLots, Lot(unsettled, DATE_MAX), t);
      }
    }
  }

  /** The opening positions: each configured one as it is, its cost quantity times average cost, and no others. */
  lemma {:induction false} OpeningIs(ps: seq<InitialPosition>)
    requires forall i, j :: 0 <= i < j < |ps| ==> ps[i].key != ps[j].key
    ensures OpeningPositions(ps).Keys == Named(ps)
    ensures forall i :: 0 <= i < |ps| ==> ps[i].key in Named(ps) && Opens(OpeningPositions(ps)[ps[i].key], ps[i])
  {
    hide Opens, Named;
    NamedGrows(ps);
    if ps != [] {
      var n := |ps| - 1;
      OpeningIs(ps[..n]);
      OpeningCost(ps[n]);
      hide OpeningLedger;
      assert forall i :: 0 <= i < n ==> ps[..n][i] == ps[i];
    }
  }

  function Named(ps: seq<InitialPosition>): set<Key> {
    set i | 0 <= i < |ps| :: ps[i].key
  }

  lemma NamedGrows(ps: seq<InitialPosition>)
    ensures if ps == [] then Named(ps) == {} else Named(ps) == Named(ps[..|ps| - 1]) + {ps[|ps| - 1].key}
    ensures forall i :: 0 <= i < |ps| ==> ps[i].key in Named(ps)
  {
  }

  predicate Opens(ledger: PositionLedger, p: InitialPosition) {
    && ledger.quantity == p.quantity && ledger.costBasis == Abs(p.quantity) * p.averageCost
    && ledger.lots == OpeningLots(p)
  }

  lemma OpeningCost(p: InitialPosition)
    ensures Opens(OpeningLedger(p), p)
  {
  }

  /** The first day on which units bought by a fill may be sold, as its market rule answers. */
  function SettlesOn(su: Setup, f: FillEvent): Option<Day> {
    var rule := SelectRule(su.rules, f.key.instrumentType, f.head.day);
    if rule.Err? then None else rule.value.sellableOn(f.head.day)
  }

  /** A latest rule of the type that is effective by the day. */
  ghost predicate InForce(rules: seq<MarketRule>, kind: InstrumentType, day: Day, rule: MarketRule) {
    && rule in rules && rule.instrumentType == kind && rule.effectiveFrom <= day
    && forall i :: 0 <= i < |rules| && rules[i].instrumentType == kind && rules[i].effectiveFrom <= day ==>
      rules[i].effectiveFrom <= rule.effectiveFrom
  }

  /** Rule selection returns a latest effective rule and fails only without any. */
  lemma {:induction false} RuleInForce(rules: seq<MarketRule>, kind: InstrumentType, day: Day)
    ensures match SelectRule(rules, kind, day)
      case Ok(rule) => InForce(rules, kind, day, rule)
      case Err(_) => forall i :: 0 <= i < |rules| ==> rules[i].instrumentType != kind || day < rules[i].effectiveFrom
  {
    if rules != [] {
      var n := |rules| - 1;
      RuleInForce(rules[..n], kind, day);
      assert forall i :: 0 <= i < n ==> rules[i] == rules[..n][i];
    }
  }

  /** A purchase covers the short first and opens one lot for the rest, dated no earlier than the fill. */
  lemma BuyEffect(su: Setup, ledger: PositionLedger, f: FillEvent)
    requires WellFormed(ledger) && 0.0 < f.quantity && 0.0 < f.price
    ensures var r := ApplyBuy(su, ledger, f);
      r.Ok? ==>
        && WellFormed(r.value.ledger)
        && r.value.ledger.quantity == ledger.quantity + f.quantity
        && r.value.openedLong == Max(0.0, Min(f.quantity, ledger.quantity + f.quantity))
        && (0.0 < r.value.openedLong ==> 0.0 < r.value.ledger.quantity)
        && (r.value.openedLong == 0.0 ==> r.value.ledger.lots == ledger.lots)
        && (0.0 < r.value.openedLong ==>
              && SettlesOn(su, f).Some? && f.head.day <= SettlesOn(su, f).value
              && r.value.ledger.lots == ledger.lots + [Lot(r.value.openedLong, SettlesOn(su, f).value)])
  {
    var covered := CoverShort(ledger, f.quantity);
    var rest := Uncovered(ledger, f.quantity);
    if ledger.quantity < 0.0 && covered.quantity != 0.0 {
      ProRataNonNegative(ledger.costBasis, -covered.quantity, -ledger.quantity);
    }
    var r := ApplyBuy(su, ledger, f);
    if r.Ok? && 0.0 < rest {
      ScaleLe(0.0, rest, f.price);
      TotalsOfAppend(ledger.lots, Lot(rest, SettlesOn(su, f).value), 0);
    }
  }

  /** A sale lowers the quantity by exactly the fill; the lot ledger can always satisfy it once the guards pass. */
  lemma SellEffect(c: Config, ledger: PositionLedger, f: FillEvent)
    requires WellFormed(ledger) && 0.0 < f.quantity && 0.0 < f.price
    ensures var r := ApplySell(c, ledger, f);
      && (r.Ok? <==>
            && (Min(f.quantity, Max(ledger.quantity, 0.0)) <= SellableQuantity(ledger, f.head.day)
                || c.allowUnsettledSales)
            && (f.quantity <= Max(ledger.quantity, 0.0) || c.allowShortSales))
      && (r.Ok? ==> WellFormed(r.value) && r.value.quantity == ledger.quantity - f.quantity)
  {
    var long := Max(ledger.quantity, 0.0);
    var closing := Min(f.quantity, long);
    var excess := f.quantity - long;
    if 0.0 < closing {
      ConsumeExact(ledger.lots, closing, f.head.day, c.allowUnsettledSales);
      if closing < long {
        ProRataNonNegative(ledger.costBasis, long - closing, long);
      }
    }
    if 0.0 < excess {
      ScaleLe(0.0, excess, f.price);
    }
  }

  // ---------------------------------------------------------------- cost

  /** What one unit of the position cost on average, as every snapshot reports it. */
  function AverageCost(ledger: PositionLedger): real {
    if ledger.quantity != 0.0 then ledger.costBasis / Abs(ledger.quantity) else 0.0
  }

  lemma AverageOfSnapshot(k: Key, ledger: PositionLedger, day: Day)
    ensures SnapshotOf(k, ledger, day).averageCost == AverageCost(ledger)
  {
  }

  lemma ProRataKeepsAverage(cost: real, part: real, whole: real)
    requires 0.0 < part && 0.0 < whole
    ensures ProRata(ProRata(cost, part, whole), 1.0, part) == ProRata(cost, 1.0, whole)
  {
    var unit := cost / whole;
    assert cost == unit * whole;
    assert cost * part == (unit * part) * whole;
    assert cost * part / whole == unit * part by {
      TimesDivide(unit * part, whole);
    }
    TimesDivide(unit, part);
    assert unit * part / part == unit;
  }

  /** Buying adds its notional to a flat or long position; covering a short keeps the average cost of what is left. */
  lemma BuyCost(su: Setup, ledger: PositionLedger, f: FillEvent)
    requires WellFormed(ledger) && 0.0 < f.quantity && 0.0 < f.price && ApplyBuy(su, ledger, f).Ok?
    ensures var after := ApplyBuy(su, ledger, f).value.ledger;
      if 0.0 <= ledger.quantity then after.costBasis == ledger.costBasis + Times(f.quantity, f.price)
      else if f.quantity < -ledger.quantity then AverageCost(after) == AverageCost(ledger)
      else after.costBasis == Times(after.quantity, f.price)
  {
    if ledger.quantity < 0.0 && f.quantity < -ledger.quantity {
      ProRataKeepsAverage(ledger.costBasis, -ledger.quantity - f.quantity, -ledger.quantity);
      hide ProRata;
    }
    TimesAdd(0.0, 0.0, f.price);
    hide Times;
  }

  /** A partial sale keeps the average cost; selling through zero leaves only the new short at its own price. */
  lemma SellCost(c: Config, ledger: PositionLedger, f: FillEvent)
    requires WellFormed(ledger) && 0.0 < f.quantity && 0.0 < f.price && ApplySell(c, ledger, f).Ok?
    ensures var after := ApplySell(c, ledger, f).value;
      if ledger.quantity <= 0.0 then after.costBasis == ledger.costBasis + Times(f.quantity, f.price)
      else if f.quantity < ledger.quantity then AverageCost(after) == AverageCost(ledger)
      else after.costBasis == Times(-after.quantity, f.price)
  {
    SellEffect(c, ledger, f);
    hide ConsumeLots, WellFormed;
    if f.quantity < ledger.quantity {
      ProRataKeepsAverage(ledger.costBasis, ledger.quantity - f.quantity, ledger.quantity);
      hide ProRata;
    }
    TimesAdd(0.0, 0.0, f.price);
    hide Times;
  }
}
