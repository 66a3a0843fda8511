/** Exactly when a rebalance returns, and what it then achieves without fees. */
module RebalanceConditions {
  import opened Outcomes
  import opened Sums
  import opened Contracts
  import opened FeeRules
  import opened BuyScale
  import opened Simulator
  import opened Rebalancing
  import opened RebalanceTargets

  // ---------------------------------------------------------------- the sales

  function FeeOf(book: Book, kind: InstrumentType, side: Side, day: Day, notional: real): real
    requires GoodBook(book)
  {
    var fee := TradeFee(book, kind, side, day, notional);
    if fee.Ok? then fee.value.total else 0.0
  }

  /** A rule exists for every planned sale. */
  predicate SalesCovered(book: Book, kinds: Kinds, day: Day, sells: seq<Leg>) {
    book.Fees? ==> forall i :: 0 <= i < |sells| ==>
      Select(book.rules, KindOf(kinds, sells[i].asset), Sell, day, None).Some?
  }

  /** What the planned sales bring in, fees deducted. */
  function Proceeds(book: Book, kinds: Kinds, day: Day, sells: seq<Leg>): real
    requires GoodBook(book)
  {
    if sells == [] then 0.0
    else
      sells[0].notional - FeeOf(book, KindOf(kinds, sells[0].asset), Sell, day, sells[0].notional)
      + Proceeds(book, kinds, day, sells[1..])
  }

  predicate PositiveLegs(sells: seq<Leg>) {
    forall i :: 0 <= i < |sells| ==> 0.0 < sells[i].price && 0.0 < sells[i].notional
  }

  lemma SaleOutcome(book: Book, kinds: Kinds, m: DayView, leg: Leg, acc: Account)
    requires GoodBook(book) && m.signalDate.Some? && m.signalDate.value < m.day && 0.0 < leg.price && 0.0 < leg.notional
    ensures var r := SellOne(book, kinds, m, leg, acc);
      && (r.Ok? <==> (book.Fees? ==> Select(book.rules, KindOf(kinds, leg.asset), Sell, m.day, None).Some?))
      && (r.Ok? ==>
        r.value.cash == acc.cash + leg.notional - FeeOf(book, KindOf(kinds, leg.asset), Sell, m.day, leg.notional))
  {
    hide TradeFee, Select, KindOf, GoodBook, ValidBreakdown;
    FeeGrows(book, KindOf(kinds, leg.asset), Sell, m.day, leg.notional, leg.notional);
  }

  /** The sales succeed exactly with a fee rule for each, and add exactly their proceeds to cash. */
  lemma {:induction false} SalesOutcome(book: Book, kinds: Kinds, m: DayView, sells: seq<Leg>, acc: Account)
    requires GoodBook(book) && m.signalDate.Some? && m.signalDate.value < m.day && PositiveLegs(sells)
    ensures var r := SellAll(book, kinds, m, sells, acc);
      && (r.Ok? <==> SalesCovered(book, kinds, m.day, sells))
      && (r.Ok? ==> r.value.cash == acc.cash + Proceeds(book, kinds, m.day, sells))
    decreases |sells|
  {
    hide SellOne, Select, KindOf, FeeOf, GoodBook;
    if sells != [] {
      SaleOutcome(book, kinds, m, sells[0], acc);
      var next := SellOne(book, kinds, m, sells[0], acc);
      if next.Ok? {
        SalesOutcome(book, kinds, m, sells[1..], next.value);
      }
      assert forall i :: 0 < i < |sells| ==> sells[i] == sells[1..][i - 1];
      assert SalesCovered(book, kinds, m.day, sells) ==> SalesCovered(book, kinds, m.day, sells[1..]);
    }
  }

  lemma {:induction false} PlanExactly(kinds: Kinds, m: DayView, holdings: map<Asset, real>, targets: map<Asset, real>,
      pretrade: real, ids: seq<Asset>)
    ensures MakePlan(kinds, m, holdings, targets, pretrade, ids).Ok? <==> forall a :: a in ids ==> a in m.bars
    decreases |ids|
  {
    hide Classify;
    if ids != [] {
      PlanExactly(kinds, m, holdings, targets, pretrade, ids[1..]);
      assert ids == [ids[0]] + ids[1..];
    }
  }

  lemma PlannedLegsPositive(kinds: Kinds, m: DayView, holdings: map<Asset, real>, plan: Plan, ids: seq<Asset>)
    requires GoodMarket(kinds, m) && PlanOk(kinds, m, holdings, plan, ids)
    ensures PositiveLegs(plan.sells)
  {
    hide PurchasesOk, Times;
    forall i | 0 <= i < |plan.sells|
      ensures 0.0 < plan.sells[i].price && 0.0 < plan.sells[i].notional
    {
      assert LegOk(m, holdings, plan.sells[i]);
    }
  }

  // ---------------------------------------------------------------- the rebalance

  function PlanOf(kinds: Kinds, m: DayView, holdings: map<Asset, real>, pretrade: real): Result<Plan>
    requires m.targets.Some?
  {
    MakePlan(kinds, m, holdings, m.targets.value, pretrade, SortedAssets(holdings.Keys + m.targets.value.Keys))
  }

  /**
   * Everything held and targeted has a bar, the portfolio is worth something, the sales have fee rules and cover their
   * fees, and the purchases have fee rules and some of them can be paid.
   */
  ghost predicate RebalanceAllowed(book: Book, kinds: Kinds, m: DayView, holdings: map<Asset, real>, cash: real)
    requires GoodBook(book) && m.targets.Some?
  {
    && Priced(holdings, m.bars) && Priced(m.targets.value, m.bars)
    && var pretrade := cash + Worth(holdings, m.bars, true);
    && 0.0 < pretrade
    && (PlanOf(kinds, m, holdings, pretrade).Ok? ==>
      TradesAllowed(book, kinds, m, cash, PlanOf(kinds, m, holdings, pretrade).value))
  }

  predicate TradesAllowed(book: Book, kinds: Kinds, m: DayView, cash: real, plan: Plan)
    requires GoodBook(book)
  {
    var after := cash + Proceeds(book, kinds, m.day, plan.sells);
    && SalesCovered(book, kinds, m.day, plan.sells) && 0.0 <= after
    && (plan.buys != [] ==>
      0.0 < after && Covered(book, m.day, plan.buys) && SomeAffordable(book, m.day, plan.buys, after))
  }

  lemma AllPriced(m: DayView, holdings: map<Asset, real>)
    requires m.targets.Some?
    ensures (forall a :: a in SortedAssets(holdings.Keys + m.targets.value.Keys) ==> a in m.bars)
      <==> Priced(holdings, m.bars) && Priced(m.targets.value, m.bars)
  {
    SortedMeaning(holdings.Keys + m.targets.value.Keys);
    hide SortedAssets;
    forall a
      ensures a in SortedAssets(holdings.Keys + m.targets.value.Keys) <==> a in holdings || a in m.targets.value
    {
    }
  }

  lemma StepsExactly(book: Book, kinds: Kinds, m: DayView, holdings: map<Asset, real>, cash: real)
    requires GoodBook(book) && GoodMarket(kinds, m) && m.targets.Some? && m.signalDate.Some?
    requires NonNegativeHoldings(holdings)
    ensures StepsAllowed(book, kinds, m, holdings, cash) <==> RebalanceAllowed(book, kinds, m, holdings, cash)
  {
    hide GoodMarket, Worth, MakePlan, SellAll, BuyAll, Scale, SortedAssets, SalesCovered, Covered, Proceeds, PlanOk,
      Priced, NonNegativeHoldings, GoodBook, PositiveLegs, Positive, SomeAffordable;
    MarketFacts(kinds, m, holdings);
    var pretrade := cash + Worth(holdings, m.bars, true);
    var ids := SortedAssets(holdings.Keys + m.targets.value.Keys);
    SortedMeaning(holdings.Keys + m.targets.value.Keys);
    AscendingDistinct(ids);
    AllPriced(m, holdings);
    PlanExactly(kinds, m, holdings, m.targets.value, pretrade, ids);
    var plan := MakePlan(kinds, m, holdings, m.targets.value, pretrade, ids);
    if plan.Ok? && 0.0 < pretrade {
      PlanIsOk(kinds, m, holdings, m.targets.value, pretrade, ids);
      PlannedLegsPositive(kinds, m, holdings, plan.value, ids);
      PlannedBuysPositive(kinds, m, holdings, plan.value, ids);
      SalesOutcome(book, kinds, m, plan.value.sells, Account(cash, holdings, []));
      var after := cash + Proceeds(book, kinds, m.day, plan.value.sells);
      if plan.value.buys != [] && 0.0 < after && Covered(book, m.day, plan.value.buys) {
        ScaleZeroExactly(book, m.day, plan.value.buys, after);
      }
    }
  }

  /**
   * A rebalance returns exactly when that holds: prices, worth, fee rules, and cash for the fees are all it can fail
   * on.
   */
  lemma RebalanceExactly(book: Book, kinds: Kinds, m: DayView, holdings: map<Asset, real>, cash: real)
    requires GoodBook(book) && GoodMarket(kinds, m) && m.targets.Some? && NonNegativeHoldings(holdings)
    ensures m.signalDate.Some?
    ensures (Rebalance(book, kinds, m, holdings, cash).Ok? <==> RebalanceAllowed(book, kinds, m, holdings, cash))
  {
    hide Rebalance, GoodMarket, StepsAllowed, RebalanceAllowed, GoodBook, NonNegativeHoldings, Worth, TradesOk,
      CashFlow, FeeSum;
    MarketFacts(kinds, m, holdings);
    RebalanceSelfFinancing(book, kinds, m, holdings, cash);
    StepsExactly(book, kinds, m, holdings, cash);
  }

  // ---------------------------------------------------------------- what the fees leave

  /** The fees of the planned sales. */
  function SaleFees(book: Book, kinds: Kinds, day: Day, sells: seq<Leg>): real
    requires GoodBook(book)
  {
    if sells == [] then 0.0
    else
      FeeOf(book, KindOf(kinds, sells[0].asset), Sell, day, sells[0].notional)
      + SaleFees(book, kinds, day, sells[1..])
  }

  lemma SaleFee(book: Book, kinds: Kinds, m: DayView, leg: Leg, acc: Account)
    requires GoodBook(book) && m.signalDate.Some? && SellOne(book, kinds, m, leg, acc).Ok?
    ensures FeeSum(SellOne(book, kinds, m, leg, acc).value.trades)
      == FeeSum(acc.trades) + FeeOf(book, KindOf(kinds, leg.asset), Sell, m.day, leg.notional)
  {
    hide TradeFee, KindOf, GoodBook, FeeSum;
    FeeSumAppend(acc.trades,
      MakeTrade(book, kinds, m.signalDate.value, m.day, leg.asset, Sell, leg.price, leg.notional).value);
  }

  lemma {:induction false} SalesFees(book: Book, kinds: Kinds, m: DayView, sells: seq<Leg>, acc: Account)
    requires GoodBook(book) && m.signalDate.Some? && SellAll(book, kinds, m, sells, acc).Ok?
    ensures FeeSum(SellAll(book, kinds, m, sells, acc).value.trades)
      == FeeSum(acc.trades) + SaleFees(book, kinds, m.day, sells)
    decreases |sells|
  {
    hide SellOne, KindOf, FeeOf, GoodBook, FeeSum;
    if sells != [] {
      SaleFee(book, kinds, m, sells[0], acc);
      SalesFees(book, kinds, m, sells[1..], SellOne(book, kinds, m, sells[0], acc).value);
    }
  }

  /** A purchase leaves something owned. */
  lemma BoughtSomething(kinds: Kinds, m: DayView, quantities: map<Asset, real>, buys: seq<Purchase>, scale: real,
      done: map<Asset, real>)
    requires PurchasesOk(kinds, m, quantities, buys) && buys != [] && 0.0 < scale
    requires forall b :: b in buys ==> b.price != 0.0 && HeldOf(done, b.asset) == BoughtQuantity(b, scale)
    ensures buys[0].asset in done && 0.0 < done[buys[0].asset]
  {
    hide KindOf;
    var b := buys[0];
    assert b in buys && PurchaseOk(kinds, m, quantities, b);
    PositiveStep(scale, b);
  }

  lemma PositiveStep(scale: real, b: Purchase)
    requires 0.0 < scale && 0.0 < b.desired && 0.0 < b.price && 0.0 <= b.current
    ensures 0.0 < BoughtQuantity(b, scale)
  {
    var spent := Times(scale, b.desired);
    assert 0.0 < spent;
    OverBounds(spent, b.price);
  }

  /** What a successful rebalance owns after its sales and after its purchases. */
  lemma WhatIsLeft(book: Book, kinds: Kinds, m: DayView, holdings: map<Asset, real>, cash: real)
    returns (plan: Plan, sold: Account)
    requires GoodBook(book) && GoodMarket(kinds, m) && m.targets.Some? && NonNegativeHoldings(holdings)
    requires Rebalance(book, kinds, m, holdings, cash).Ok?
    ensures m.signalDate.Some? && PlanOf(kinds, m, holdings, cash + Worth(holdings, m.bars, true)) == Ok(plan)
    ensures SellAll(book, kinds, m, plan.sells, Account(cash, holdings, [])) == Ok(sold)
    ensures NonNegativeHoldings(sold.quantities) && Gross(m, sold) == cash + Worth(holdings, m.bars, true)
    ensures var done := Rebalance(book, kinds, m, holdings, cash).value.account;
      if plan.buys == [] then done == sold
      else 0.0 < sold.cash && exists a :: a in done.quantities && 0.0 < done.quantities[a]
  {
    MarketFacts(kinds, m, holdings);
    hide Worth, GoodMarket, Priced, Rebalance, MakePlan, PlanOk, SortedAssets, SellAll, Scale, Cost, Covered, Gross,
      LegsOk, PurchasesOk, NonNegativeHoldings, Positive, BoughtQuantity, TradesOk, CashFlow;
    var scale;
    plan, sold, scale := RebalanceParts(book, kinds, m, holdings, cash);
    var ids := SortedAssets(holdings.Keys + m.targets.value.Keys);
    SortedMeaning(holdings.Keys + m.targets.value.Keys);
    AscendingDistinct(ids);
    PlanIsOk(kinds, m, holdings, m.targets.value, cash + Worth(holdings, m.bars, true), ids);
    PlanLegs(kinds, m, holdings, plan, ids);
    OpeningAccount(m, holdings, cash);
    SellAllOk(book, kinds, m, plan.sells, Account(cash, holdings, []), cash, holdings.Keys);
    if plan.buys != [] {
      PurchasesAfterSales(kinds, m, holdings, plan, ids, sold.quantities);
      ScaleOutcome(book, m.day, plan.buys, sold.cash, scale);
      BoughtQuantities(book, kinds, m, plan.buys, scale, sold, cash, holdings.Keys);
      var done := BuyAll(book, kinds, m, plan.buys, scale, sold).value;
      BoughtSomething(kinds, m, sold.quantities, plan.buys, scale, done.quantities);
      ScalePositiveCash(book, m.day, plan.buys, sold.cash, scale);
    }
  }

  lemma ScalePositiveCash(book: Book, day: Day, buys: seq<Purchase>, cash: real, scale: real)
    requires GoodBook(book) && buys != [] && Scale(book, day, buys, cash) == Ok(scale) && scale != 0.0
    ensures 0.0 < cash
  {
    hide Cost, Refine, Bisect, Covered;
  }

  /**
   * The fees of a rebalance leave something exactly when those of its sales do: a purchase is never made with the last
   * of it.
   */
  lemma FeesLeaveSomething(book: Book, kinds: Kinds, m: DayView, holdings: map<Asset, real>, cash: real)
    requires GoodBook(book) && GoodMarket(kinds, m) && m.targets.Some? && NonNegativeHoldings(holdings)
    requires Rebalance(book, kinds, m, holdings, cash).Ok?
    ensures var pretrade := cash + Worth(holdings, m.bars, true);
      && PlanOf(kinds, m, holdings, pretrade).Ok?
      && (FeeSum(Rebalance(book, kinds, m, holdings, cash).value.account.trades) < pretrade
          <==> SaleFees(book, kinds, m.day, PlanOf(kinds, m, holdings, pretrade).value.sells) < pretrade)
  {
    MarketFacts(kinds, m, holdings);
    hide Worth, GoodMarket, Priced, Rebalance, PlanOf, SellAll, NonNegativeHoldings, TradesOk, CashFlow, FeeSum,
      SaleFees, GoodBook, StepsAllowed;
    RebalanceSelfFinancing(book, kinds, m, holdings, cash);
    var plan, sold := WhatIsLeft(book, kinds, m, holdings, cash);
    SalesFees(book, kinds, m, plan.sells, Account(cash, holdings, []));
    assert FeeSum([]) == 0.0 by { NoFeesPaid(); }
    WorthNonNegative(kinds, m, sold.quantities, true);
    if plan.buys != [] {
      var done := Rebalance(book, kinds, m, holdings, cash).value.account;
      OwnedIsWorth(kinds, m, done.quantities);
    }
  }

  lemma NoFeesPaid()
    ensures FeeSum([]) == 0.0
  {
  }

  lemma OwnedIsWorth(kinds: Kinds, m: DayView, quantities: map<Asset, real>)
    requires GoodMarket(kinds, m) && NonNegativeHoldings(quantities) && Priced(quantities, m.bars)
    requires exists a :: a in quantities && 0.0 < quantities[a]
    ensures 0.0 < Worth(quantities, m.bars, true)
  {
    var a :| a in quantities && 0.0 < quantities[a];
    WorthNonNegative(kinds, m, quantities, true);
    var marks := Marks(quantities, m.bars, true);
    TimesMonotone(0.0, quantities[a], PriceOf(m.bars, a, true));
    assert Times(0.0, PriceOf(m.bars, a, true)) == 0.0;
    hide Times, PriceOf;
    TotalNonNegative(marks, Itself());
    assert marks[a] <= Total(marks, Itself());
  }

  // ---------------------------------------------------------------- without fees

  function SumOver(values: map<Asset, real>, ids: seq<Asset>): real {
    if ids == [] then 0.0 else HeldOf(values, ids[0]) + SumOver(values, ids[1..])
  }

  lemma {:induction false} SumOverSame(x: map<Asset, real>, y: map<Asset, real>, ids: seq<Asset>)
    requires forall a :: a in ids ==> HeldOf(x, a) == HeldOf(y, a)
    ensures SumOver(x, ids) == SumOver(y, ids)
  {
    hide HeldOf;
    if ids != [] {
      assert ids == [ids[0]] + ids[1..];
      SumOverSame(x, y, ids[1..]);
    }
  }

  /** Adding up along any list of distinct keys that covers the map gives the map's total. */
  lemma {:induction false} SumOverTotal(values: map<Asset, real>, ids: seq<Asset>)
    requires Distinct(ids) && forall a :: a in values ==> a in ids
    ensures SumOver(values, ids) == Total(values, Itself())
  {
    if ids == [] {
      assert values == map[];
    } else {
      var a, rest := ids[0], ids[1..];
      assert ids == [a] + rest;
      assert a !in rest;
      if a in values {
        TotalRemove(values, Itself(), a);
        SumOverSame(values, values - {a}, rest);
        SumOverTotal(values - {a}, rest);
      } else {
        SumOverTotal(values, rest);
      }
    }
  }

  function SellTotal(sells: seq<Leg>): real {
    if sells == [] then 0.0 else sells[0].notional + SellTotal(sells[1..])
  }

  lemma {:induction false} JoinTotals(p: Plan, q: Plan)
    requires |p.sells| <= 1 && |p.buys| <= 1
    ensures SellTotal(Join(p, q).sells) == SellTotal(p.sells) + SellTotal(q.sells)
    ensures DesiredTotal(Join(p, q).buys) == DesiredTotal(p.buys) + DesiredTotal(q.buys)
  {
    assert p.sells != [] ==> (p.sells + q.sells)[1..] == q.sells;
    assert p.buys != [] ==> (p.buys + q.buys)[1..] == q.buys;
    assert p.sells == [] ==> p.sells + q.sells == q.sells;
    assert p.buys == [] ==> p.buys + q.buys == q.buys;
  }

  ghost function OpenMarks(m: DayView, holdings: map<Asset, real>): map<Asset, real> {
    Marks(holdings, m.bars, true)
  }

  lemma MarkIsValue(m: DayView, holdings: map<Asset, real>, a: Asset)
    ensures HeldOf(OpenMarks(m, holdings), a) == ValueOf(m, holdings, a)
  {
    TimesAdd(0.0, 0.0, PriceOf(m.bars, a, true));
    hide Times, PriceOf;
  }

  lemma TimesRight(u: real, a: real, b: real)
    ensures Times(u, a + b) == Times(u, a) + Times(u, b) && Times(u, 0.0) == 0.0
  {
  }

  /** Planned purchases less planned sales are what the instruments want more than they have. */
  lemma {:induction false} PlanTotals(kinds: Kinds, m: DayView, holdings: map<Asset, real>, targets: map<Asset, real>,
      pretrade: real, ids: seq<Asset>)
    requires MakePlan(kinds, m, holdings, targets, pretrade, ids).Ok? && 0.0 < pretrade
    requires forall a :: a in m.bars ==> 0.0 < m.bars[a].open
    requires forall a :: 0.0 <= HeldOf(holdings, a) && 0.0 <= HeldOf(targets, a)
    ensures var plan := MakePlan(kinds, m, holdings, targets, pretrade, ids).value;
      DesiredTotal(plan.buys) - SellTotal(plan.sells)
        == Times(pretrade, SumOver(targets, ids)) - SumOver(OpenMarks(m, holdings), ids)
    decreases |ids|
  {
    hide Classify, Times, ValueOf, OpenMarks, HeldOf, KindOf;
    TimesRight(pretrade, 0.0, 0.0);
    if ids != [] {
      var a := ids[0];
      PlanTotals(kinds, m, holdings, targets, pretrade, ids[1..]);
      ClassifyValues(kinds, m, holdings, targets, pretrade, a);
      ClassifyShape(kinds, m, holdings, targets, pretrade, a);
      OneTotal(kinds, m, holdings, targets, pretrade, a);
      JoinTotals(Classify(kinds, m, holdings, targets, pretrade, a), MakePlan(kinds, m, holdings, targets, pretrade,
        ids[1..]).value);
      TimesRight(pretrade, HeldOf(targets, a), SumOver(targets, ids[1..]));
      MarkIsValue(m, holdings, a);
    }
  }

  lemma OneTotal(kinds: Kinds, m: DayView, holdings: map<Asset, real>, targets: map<Asset, real>, pretrade: real,
      a: Asset)
    requires a in m.bars && 0.0 < m.bars[a].open && 0.0 < pretrade && 0.0 <= HeldOf(holdings, a)
    requires 0.0 <= HeldOf(targets, a)
    ensures var p := Classify(kinds, m, holdings, targets, pretrade, a);
      && |p.sells| <= 1 && |p.buys| <= 1
      && DesiredTotal(p.buys) - SellTotal(p.sells) == WantedValue(targets, pretrade, a) - ValueOf(m, holdings, a)
  {
    ClassifyValues(kinds, m, holdings, targets, pretrade, a);
    hide Classify, Times, ValueOf, WantedValue, HeldOf, KindOf;
  }

  lemma {:induction false} FreeProceeds(kinds: Kinds, day: Day, sells: seq<Leg>)
    ensures Proceeds(NoFees, kinds, day, sells) == SellTotal(sells)
  {
    if sells != [] {
      FreeProceeds(kinds, day, sells[1..]);
    }
  }

  lemma {:induction false} FreeCost(day: Day, buys: seq<Purchase>)
    ensures Cost(NoFees, day, buys, 1.0) == DesiredTotal(buys)
  {
    if buys != [] {
      TimesAdd(0.0, 0.0, buys[0].desired);
      FreeCost(day, buys[1..]);
    }
  }

  lemma {:induction false} NothingDesired(buys: seq<Purchase>)
    requires Positive(buys)
    ensures 0.0 <= DesiredTotal(buys) && (buys != [] ==> 0.0 < DesiredTotal(buys))
  {
    if buys != [] {
      NothingDesired(buys[1..]);
    }
  }

  lemma SellTotalNonNegative(sells: seq<Leg>)
    requires PositiveLegs(sells)
    ensures 0.0 <= SellTotal(sells)
  {
    if sells != [] {
      SellTotalNonNegative(sells[1..]);
    }
  }

  /** The whole of the purchases is affordable when nothing is charged. */
  lemma FreeScale(day: Day, buys: seq<Purchase>, cash: real)
    requires Positive(buys) && DesiredTotal(buys) <= cash
    ensures Scale(NoFees, day, buys, cash) == Ok(1.0) && (buys != [] ==> 0.0 < cash)
  {
    FreeCost(day, buys);
    NothingDesired(buys);
    hide Cost, DesiredTotal, Refine, Bisect;
  }

  /** Target weights of one batch add up to at most one. */
  ghost predicate WeightsWithinOne(targets: map<Asset, real>) {
    Total(targets, Itself()) <= 1.0
  }

  /** After the sales cash covers every planned purchase. */
  lemma CashCoversPurchases(kinds: Kinds, m: DayView, holdings: map<Asset, real>, cash: real, plan: Plan)
    requires GoodMarket(kinds, m) && m.targets.Some? && NonNegativeHoldings(holdings)
    requires WeightsWithinOne(m.targets.value)
    requires var pretrade :=
      cash + Worth(holdings, m.bars, true); 0.0 < pretrade && PlanOf(kinds, m, holdings, pretrade) == Ok(plan)
    ensures DesiredTotal(plan.buys) <= cash + SellTotal(plan.sells)
    ensures Positive(plan.buys) && PositiveLegs(plan.sells)
  {
    hide Worth, MakePlan, SortedAssets, PlanOk, GoodMarket, NonNegativeHoldings, Times, Marks, SumOver, Positive,
      PositiveLegs;
    MarketFacts(kinds, m, holdings);
    var pretrade, targets := cash + Worth(holdings, m.bars, true), m.targets.value;
    var ids := SortedAssets(holdings.Keys + targets.Keys);
    SortedMeaning(holdings.Keys + targets.Keys);
    AscendingDistinct(ids);
    PlanIsOk(kinds, m, holdings, targets, pretrade, ids);
    PlannedLegsPositive(kinds, m, holdings, plan, ids);
    PlannedBuysPositive(kinds, m, holdings, plan, ids);
    PlanTotals(kinds, m, holdings, targets, pretrade, ids);
    SumOverTotal(targets, ids);
    MarkKeys(m, holdings);
    SumOverTotal(OpenMarks(m, holdings), ids);
    TimesWithinOne(pretrade, SumOver(targets, ids));
    WorthIsMarks(m, holdings);
  }

  lemma PlannedBuysPositive(kinds: Kinds, m: DayView, holdings: map<Asset, real>, plan: Plan, ids: seq<Asset>)
    requires PlanOk(kinds, m, holdings, plan, ids)
    ensures Positive(plan.buys)
  {
    hide LegsOk, KindOf;
    forall i | 0 <= i < |plan.buys|
      ensures 0.0 < plan.buys[i].desired && 0.0 < plan.buys[i].price
    {
      assert PurchaseOk(kinds, m, holdings, plan.buys[i]);
    }
  }

  lemma MarkKeys(m: DayView, holdings: map<Asset, real>)
    ensures OpenMarks(m, holdings).Keys == holdings.Keys
  {
  }

  lemma WorthIsMarks(m: DayView, holdings: map<Asset, real>)
    ensures Worth(holdings, m.bars, true) == Total(OpenMarks(m, holdings), Itself())
  {
  }

  lemma TimesWithinOne(u: real, w: real)
    requires 0.0 < u && w <= 1.0
    ensures Times(u, w) <= u
  {
  }

  /**
   * Without fees, from cash that is not negative and with weights of at most one in all, a rebalance returns exactly
   * when everything is priced and the portfolio is worth something, and then every instrument lands exactly on its
   * target.
   */
  lemma FreeRebalanceExact(kinds: Kinds, m: DayView, holdings: map<Asset, real>, cash: real)
    requires GoodMarket(kinds, m) && m.targets.Some? && m.signalDate.Some? && NonNegativeHoldings(holdings)
    requires 0.0 <= cash && WeightsWithinOne(m.targets.value)
    ensures var pretrade := cash + Worth(holdings, m.bars, true);
      && (Rebalance(NoFees, kinds, m, holdings, cash).Ok? <==>
            Priced(holdings, m.bars) && Priced(m.targets.value, m.bars) && 0.0 < pretrade)
      && (Rebalance(NoFees, kinds, m, holdings, cash).Ok? ==>
            OnTarget(m, pretrade, Rebalance(NoFees, kinds, m, holdings, cash).value.account.quantities))
  {
    hide GoodMarket, NonNegativeHoldings, Worth, Rebalance, Scale, Proceeds, SellTotal, DesiredTotal, Priced,
      WeightsWithinOne, Positive, PositiveLegs, OnTarget, Lands, MakePlan, SortedAssets, AllLand, PlanOf,
      SomeAffordable;
    RebalanceExactly(NoFees, kinds, m, holdings, cash);
    var pretrade := cash + Worth(holdings, m.bars, true);
    if 0.0 < pretrade && PlanOf(kinds, m, holdings, pretrade).Ok? {
      var plan := PlanOf(kinds, m, holdings, pretrade).value;
      CashCoversPurchases(kinds, m, holdings, cash, plan);
      FreeProceeds(kinds, m.day, plan.sells);
      SellTotalNonNegative(plan.sells);
      FreeScale(m.day, plan.buys, cash + SellTotal(plan.sells));
      if plan.buys != [] {
        ScaleZeroExactly(NoFees, m.day, plan.buys, cash + SellTotal(plan.sells));
      }
    }
    if Rebalance(NoFees, kinds, m, holdings, cash).Ok? {
      FreeLanding(kinds, m, holdings, cash);
    }
  }

  ghost predicate OnTarget(m: DayView, pretrade: real, quantities: map<Asset, real>)
    requires m.targets.Some?
  {
    forall a :: ValueOf(m, quantities, a) == WantedValue(m.targets.value, pretrade, a)
  }

  lemma FreeLanding(kinds: Kinds, m: DayView, holdings: map<Asset, real>, cash: real)
    requires GoodMarket(kinds, m) && m.targets.Some? && m.signalDate.Some? && NonNegativeHoldings(holdings)
    requires WeightsWithinOne(m.targets.value) && Rebalance(NoFees, kinds, m, holdings, cash).Ok?
    ensures OnTarget(m, cash
      + Worth(holdings, m.bars, true), Rebalance(NoFees, kinds, m, holdings, cash).value.account.quantities)
  {
    hide GoodMarket, NonNegativeHoldings, Worth, Rebalance, Scale, Proceeds, SellTotal, DesiredTotal, Priced,
      WeightsWithinOne, Positive, PositiveLegs, MakePlan, SortedAssets, SellAll, BuyAll, ValueOf, WantedValue, PlanOk,
      Times;
    MarketFacts(kinds, m, holdings);
    var plan, sold, scale := RebalanceLands(NoFees, kinds, m, holdings, cash);
    var pretrade := cash + Worth(holdings, m.bars, true);
    RebalancePositive(NoFees, kinds, m, holdings, cash);
    CashCoversPurchases(kinds, m, holdings, cash, plan);
    SalesOutcome(NoFees, kinds, m, plan.sells, Account(cash, holdings, []));
    FreeProceeds(kinds, m.day, plan.sells);
    FreeScale(m.day, plan.buys, sold.cash);
    var done := Rebalance(NoFees, kinds, m, holdings, cash).value.account.quantities;
    forall a
      ensures ValueOf(m, done, a) == WantedValue(m.targets.value, pretrade, a)
    {
      assert Lands(m, holdings, m.targets.value, pretrade, done, scale, a);
      WholeWay(WantedValue(m.targets.value, pretrade, a) - ValueOf(m, holdings, a));
    }
  }

  lemma WholeWay(gap: real)
    ensures Times(1.0, gap) == gap
  {
  }

  lemma RebalancePositive(book: Book, kinds: Kinds, m: DayView, holdings: map<Asset, real>, cash: real)
    requires GoodBook(book) && m.signalDate.Some? && m.targets.Some? && Rebalance(book, kinds, m, holdings, cash).Ok?
    ensures 0.0 < cash + Worth(holdings, m.bars, true)
  {
    hide Worth, Priced, MakePlan, SellAll, BuyAll, Scale, SortedAssets, NotionalSum, FeeSum, Over;
  }
}
