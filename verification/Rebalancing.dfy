/** One rebalance is self-financing: it never needs the clamp, never borrows, and conserves value exactly. */
module Rebalancing {
  import opened Outcomes
  import opened Sums
  import opened Contracts
  import opened FeeRules
  import opened BuyScale
  import opened Simulator

  // ---------------------------------------------------------------- values

  lemma MarksPut(quantities: map<Asset, real>, bars: map<Asset, Bar>, atOpen: bool, a: Asset, q: real)
    ensures Marks(quantities[a := q], bars, atOpen)
      == Marks(quantities, bars, atOpen)[a := Times(q, PriceOf(bars, a, atOpen))]
  {
    hide Times, PriceOf;
  }

  /** Changing one quantity changes the portfolio's worth by exactly that instrument's change. */
  lemma WorthPut(quantities: map<Asset, real>, bars: map<Asset, Bar>, atOpen: bool, a: Asset, q: real)
    ensures Worth(quantities[a := q], bars, atOpen) == Worth(quantities, bars, atOpen)
      + Times(q, PriceOf(bars, a, atOpen)) - Times(HeldOf(quantities, a), PriceOf(bars, a, atOpen))
  {
    MarksPut(quantities, bars, atOpen, a, q);
    TotalPut(Marks(quantities, bars, atOpen), Itself(), a, Times(q, PriceOf(bars, a, atOpen)));
    assert a !in quantities ==> Times(0.0, PriceOf(bars, a, atOpen)) == 0.0;
    hide Times, PriceOf;
  }

  ghost predicate NonNegativeHoldings(quantities: map<Asset, real>) {
    forall a :: a in quantities ==> 0.0 <= quantities[a]
  }

  lemma WorthNonNegative(kinds: Kinds, m: DayView, quantities: map<Asset, real>, atOpen: bool)
    requires GoodMarket(kinds, m) && NonNegativeHoldings(quantities)
    ensures 0.0 <= Worth(quantities, m.bars, atOpen)
    ensures forall a :: a in quantities ==> 0.0 <= Times(quantities[a], PriceOf(m.bars, a, atOpen))
  {
    var marks := Marks(quantities, m.bars, atOpen);
    forall a | a in quantities ensures 0.0 <= Times(quantities[a], PriceOf(m.bars, a, atOpen)) {
      TimesNonNegative(quantities[a], PriceOf(m.bars, a, atOpen));
    }
    hide Times, PriceOf;
    TotalNonNegative(marks, Itself());
  }

  lemma TimesNonNegative(a: real, b: real)
    requires 0.0 <= a && 0.0 <= b
    ensures 0.0 <= Times(a, b)
  {
  }

  // ---------------------------------------------------------------- plans

  predicate Distinct(ids: seq<Asset>) {
    forall i, j :: 0 <= i < j < |ids| ==> ids[i] != ids[j]
  }

  /** A sale leg is exact: selling its notional at its price leaves its quantity, which is not negative. */
  ghost predicate LegOk(m: DayView, quantities: map<Asset, real>, leg: Leg) {
    && leg.asset in m.bars && leg.asset in quantities && leg.price == m.bars[leg.asset].open
    && 0.0 < leg.notional && 0.0 <= leg.quantity
    && Times(leg.quantity, leg.price) == Times(quantities[leg.asset], leg.price) - leg.notional
  }

  ghost predicate PurchaseOk(kinds: Kinds, m: DayView, quantities: map<Asset, real>, b: Purchase) {
    && b.asset in m.bars && b.price == m.bars[b.asset].open && b.kind == KindOf(kinds, b.asset)
    && 0.0 < b.price && 0.0 < b.desired && b.current == HeldOf(quantities, b.asset) && 0.0 <= b.current
  }

  ghost predicate LegsOk(m: DayView, quantities: map<Asset, real>, sells: seq<Leg>) {
    && (forall i :: 0 <= i < |sells| ==> LegOk(m, quantities, sells[i]))
    && (forall i, j :: 0 <= i < j < |sells| ==> sells[i].asset != sells[j].asset)
  }

  ghost predicate PurchasesOk(kinds: Kinds, m: DayView, quantities: map<Asset, real>, buys: seq<Purchase>) {
    && (forall i :: 0 <= i < |buys| ==> PurchaseOk(kinds, m, quantities, buys[i]))
    && (forall i, j :: 0 <= i < j < |buys| ==> buys[i].asset != buys[j].asset)
  }

  ghost predicate PlanOk(kinds: Kinds, m: DayView, quantities: map<Asset, real>, plan: Plan, ids: seq<Asset>) {
    && LegsOk(m, quantities, plan.sells) && PurchasesOk(kinds, m, quantities, plan.buys)
    && (forall i :: 0 <= i < |plan.sells| ==> plan.sells[i].asset in ids)
    && (forall i :: 0 <= i < |plan.buys| ==> plan.buys[i].asset in ids)
    && (forall i, j :: 0 <= i < |plan.sells| && 0 <= j < |plan.buys| ==> plan.sells[i].asset != plan.buys[j].asset)
  }

  /** The leg or purchase planned for one instrument is exact. */
  lemma PlannedExact(desired: real, current: real, price: real)
    requires 0.0 < price && 0.0 <= desired && 0.0 <= current
    ensures var quantity := if desired > 0.0 then Over(desired, price) else 0.0;
      0.0 <= quantity && Times(quantity, price) == desired
    ensures desired < Times(current, price) ==> 0.0 < current
  {
    TimesDivide(desired, price);
    TimesAdd(0.0, 0.0, price);
    OverBounds(desired, price);
  }

  lemma ClassifyOk(kinds: Kinds, m: DayView, holdings: map<Asset, real>, targets: map<Asset, real>, pretrade: real,
      a: Asset)
    requires GoodMarket(kinds, m) && NonNegativeHoldings(holdings) && 0.0 < pretrade && a in m.bars
    requires forall b :: b in targets ==> 0.0 <= targets[b]
    ensures PlanOk(kinds, m, holdings, Classify(kinds, m, holdings, targets, pretrade, a), [a])
  {
    hide Times, KindOf, Over;
    TimesNonNegative(pretrade, HeldOf(targets, a));
    PlannedExact(Times(pretrade, HeldOf(targets, a)), HeldOf(holdings, a), m.bars[a].open);
  }

  lemma JoinOk(kinds: Kinds, m: DayView, holdings: map<Asset, real>, p: Plan, q: Plan, a: Asset, rest: seq<Asset>)
    requires PlanOk(kinds, m, holdings, p, [a]) && PlanOk(kinds, m, holdings, q, rest) && a !in rest
    requires |p.sells| + |p.buys| <= 1
    ensures PlanOk(kinds, m, holdings, Join(p, q), [a] + rest)
  {
    hide LegOk, PurchaseOk;
  }

  lemma {:induction false} PlanIsOk(kinds: Kinds, m: DayView, holdings: map<Asset, real>, targets: map<Asset, real>,
      pretrade: real, ids: seq<Asset>)
    requires GoodMarket(kinds, m) && NonNegativeHoldings(holdings) && 0.0 < pretrade && Distinct(ids)
    requires forall a :: a in targets ==> 0.0 <= targets[a]
    requires MakePlan(kinds, m, holdings, targets, pretrade, ids).Ok?
    ensures PlanOk(kinds, m, holdings, MakePlan(kinds, m, holdings, targets, pretrade, ids).value, ids)
    decreases |ids|
  {
    if ids != [] {
      hide PlanOk, GoodMarket, NonNegativeHoldings, Times, Over, KindOf;
      var a := ids[0];
      PlanIsOk(kinds, m, holdings, targets, pretrade, ids[1..]);
      ClassifyOk(kinds, m, holdings, targets, pretrade, a);
      assert a !in ids[1..];
      assert [a] + ids[1..] == ids;
      JoinOk(kinds, m, holdings, Classify(kinds, m, holdings, targets, pretrade, a),
        MakePlan(kinds, m, holdings, targets, pretrade, ids[1..]).value, a, ids[1..]);
    }
  }

  // ---------------------------------------------------------------- the account

  lemma FeeSumAppend(trades: seq<VectorTrade>, t: VectorTrade)
    ensures FeeSum(trades + [t]) == FeeSum(trades) + t.fee.total
    ensures NotionalSum(trades + [t]) == NotionalSum(trades) + t.notional
    ensures CashFlow(trades + [t]) == CashFlow(trades) + CashOf(t)
    ensures forall side :: (
      SideFees(trades + [t], side) == SideFees(trades, side) + (if t.side == side then t.fee.total else 0.0))
  {
    assert (trades + [t])[..|trades|] == trades;
  }

  ghost predicate TradesOk(m: DayView, trades: seq<VectorTrade>) {
    forall i :: 0 <= i < |trades| ==> ValidTrade(trades[i]) && trades[i].day == m.day
  }

  /** Value plus fees paid so far: constant through the whole rebalance. */
  ghost function Gross(m: DayView, acc: Account): real {
    acc.cash + Worth(acc.quantities, m.bars, true) + FeeSum(acc.trades)
  }

  ghost predicate AccountOk(m: DayView, acc: Account, cash: real, keys: set<Asset>) {
    && NonNegativeHoldings(acc.quantities) && TradesOk(m, acc.trades)
    && acc.cash == cash + CashFlow(acc.trades) && keys <= acc.quantities.Keys
    && Priced(acc.quantities, m.bars)
  }

  lemma SellOneOk(book: Book, kinds: Kinds, m: DayView, leg: Leg, acc: Account, cash: real, keys: set<Asset>)
    requires GoodBook(book) && m.signalDate.Some? && LegOk(m, acc.quantities, leg)
    requires AccountOk(m, acc, cash, keys) && SellOne(book, kinds, m, leg, acc).Ok?
    ensures var next := SellOne(book, kinds, m, leg, acc).value;
      && next.quantities == acc.quantities[leg.asset := leg.quantity]
      && AccountOk(m, next, cash, keys) && Gross(m, next) == Gross(m, acc)
      && next.trades != []
  {
    hide Times, TradeFee, Worth, CashFlow, FeeSum;
    WorthPut(acc.quantities, m.bars, true, leg.asset, leg.quantity);
    var t := MakeTrade(book, kinds, m.signalDate.value, m.day, leg.asset, Sell, leg.price, leg.notional).value;
    FeeSumAppend(acc.trades, t);
  }

  lemma LegsTail(m: DayView, quantities: map<Asset, real>, sells: seq<Leg>)
    requires sells != [] && LegsOk(m, quantities, sells)
    ensures LegOk(m, quantities, sells[0])
    ensures LegsOk(m, quantities[sells[0].asset := sells[0].quantity], sells[1..])
  {
    hide Times;
  }

  /** The sales: value is conserved up to fees, and only planned instruments change. */
  lemma {:induction false} SellAllOk(book: Book, kinds: Kinds, m: DayView, sells: seq<Leg>, acc: Account, cash: real,
      keys: set<Asset>)
    requires GoodBook(book) && m.signalDate.Some? && LegsOk(m, acc.quantities, sells)
    requires AccountOk(m, acc, cash, keys) && SellAll(book, kinds, m, sells, acc).Ok?
    ensures var done := SellAll(book, kinds, m, sells, acc).value;
      && AccountOk(m, done, cash, keys) && Gross(m, done) == Gross(m, acc)
      && forall a :: (forall i :: 0 <= i < |sells| ==> sells[i].asset != a) ==>
           HeldOf(done.quantities, a) == HeldOf(acc.quantities, a)
    decreases |sells|
  {
    hide SellOne, Gross, AccountOk, LegOk, LegsOk;
    if sells != [] {
      LegsTail(m, acc.quantities, sells);
      SellOneOk(book, kinds, m, sells[0], acc, cash, keys);
      var next := SellOne(book, kinds, m, sells[0], acc).value;
      SellAllOk(book, kinds, m, sells[1..], next, cash, keys);
      var done := SellAll(book, kinds, m, sells, acc).value;
      forall a | forall i :: 0 <= i < |sells| ==> sells[i].asset != a
        ensures HeldOf(done.quantities, a) == HeldOf(acc.quantities, a)
      {
        assert sells[0].asset != a;
        assert forall i :: 0 <= i < |sells[1..]| ==> sells[1..][i] == sells[i + 1];
      }
    }
  }

  lemma CoveredTrade(book: Book, kinds: Kinds, m: DayView, b: Purchase, notional: real)
    requires GoodBook(book) && m.signalDate.Some? && m.signalDate.value < m.day && 0.0 < notional && 0.0 < b.price
    requires Covered(book, m.day, [b]) && b.kind == KindOf(kinds, b.asset)
    ensures var r := MakeTrade(book, kinds, m.signalDate.value, m.day, b.asset, Buy, b.price, notional);
      && r.Ok? && ValidTrade(r.value) && r.value.day == m.day && r.value.side == Buy && r.value.notional == notional
      && notional + r.value.fee.total == CostOne(book, b.kind, m.day, notional)
  {
    hide TradeFee, Covered, Select, ValidBook, KindOf;
    CoveredRule(book, m.day, b);
    FeeGrows(book, b.kind, Buy, m.day, notional, notional);
  }

  lemma CoveredRule(book: Book, day: Day, b: Purchase)
    requires Covered(book, day, [b])
    ensures book.Fees? ==> Select(book.rules, b.kind, Buy, day, None).Some?
  {
    hide Select;
    assert [b][0] == b;
  }

  lemma PurchasedOk(m: DayView, b: Purchase, t: VectorTrade, acc: Account, cash: real, keys: set<Asset>)
    requires 0.0 < b.price && b.asset in m.bars && b.price == m.bars[b.asset].open
    requires b.current == HeldOf(acc.quantities, b.asset) && 0.0 <= b.current
    requires ValidTrade(t) && t.day == m.day && t.side == Buy && AccountOk(m, acc, cash, keys)
    ensures var next := Purchased(b, t, acc);
      AccountOk(m, next, cash, keys) && Gross(m, next) == Gross(m, acc)
  {
    var after := b.current + t.notional / b.price;
    QuotientLe(0.0, t.notional, b.price);
    BoughtValue(b.current, t.notional, b.price);
    WorthPut(acc.quantities, m.bars, true, b.asset, after);
    FeeSumAppend(acc.trades, t);
    hide Times, Worth, CashFlow, FeeSum;
  }

  /** With cash for this purchase at the common scale the clamp is not taken and the purchase is exact. */
  lemma BuyOneOk(book: Book, kinds: Kinds, m: DayView, b: Purchase, scale: real, acc: Account, cash: real,
      keys: set<Asset>)
    requires GoodBook(book) && m.signalDate.Some? && m.signalDate.value < m.day
    requires PurchaseOk(kinds, m, acc.quantities, b)
    requires AccountOk(m, acc, cash, keys) && 0.0 < scale <= 1.0 && Covered(book, m.day, [b])
    requires CostOne(book, b.kind, m.day, Times(scale, b.desired)) <= acc.cash
    ensures var t := MakeTrade(book, kinds, m.signalDate.value, m.day, b.asset, Buy, b.price, Times(scale, b.desired));
      t.Ok? && BuyOne(book, kinds, m, b, scale, acc) == Ok(Purchased(b, t.value, acc))
    ensures var r := BuyOne(book, kinds, m, b, scale, acc);
      && AccountOk(m, r.value, cash, keys) && Gross(m, r.value) == Gross(m, acc)
      && r.value.cash == acc.cash - CostOne(book, b.kind, m.day, Times(scale, b.desired))
      && b.asset in r.value.quantities
      && r.value.quantities == acc.quantities[b.asset := r.value.quantities[b.asset]]
  {
    hide Times, AccountOk, Gross, CostOne, Covered, MakeTrade, GoodBook, KindOf;
    var actual := Times(scale, b.desired);
    TimesMonotone(0.0, scale, b.desired);
    TimesAdd(0.0, 0.0, b.desired);
    CoveredTrade(book, kinds, m, b, actual);
    var t := MakeTrade(book, kinds, m.signalDate.value, m.day, b.asset, Buy, b.price, actual).value;
    PurchasedOk(m, b, t, acc, cash, keys);
  }

  lemma BoughtValue(current: real, notional: real, price: real)
    requires 0.0 < price
    ensures Times(current + notional / price, price) == Times(current, price) + notional
  {
    TimesDivide(notional, price);
    TimesAdd(current, notional / price, price);
  }

  lemma PurchasesTail(kinds: Kinds, m: DayView, quantities: map<Asset, real>, buys: seq<Purchase>, q: real)
    requires buys != [] && PurchasesOk(kinds, m, quantities, buys)
    ensures PurchaseOk(kinds, m, quantities, buys[0])
    ensures PurchasesOk(kinds, m, quantities[buys[0].asset := q], buys[1..])
  {
  }

  lemma {:induction false} CostNonNegative(book: Book, day: Day, buys: seq<Purchase>, scale: real)
    requires GoodBook(book) && Positive(buys) && 0.0 <= scale
    ensures 0.0 <= Cost(book, day, buys, scale)
  {
    hide Cost;
    CostGrows(book, day, buys, scale, scale);
  }

  /**
   * The purchases: at an affordable scale every one executes in full, cash ends non-negative, value is conserved up to
   * fees.
   */
  lemma {:induction false} BuyAllOk(book: Book, kinds: Kinds, m: DayView, buys: seq<Purchase>, scale: real,
      acc: Account, cash: real, keys: set<Asset>)
    requires GoodBook(book) && m.signalDate.Some? && m.signalDate.value < m.day
    requires PurchasesOk(kinds, m, acc.quantities, buys) && AccountOk(m, acc, cash, keys)
    requires 0.0 < scale <= 1.0 && Covered(book, m.day, buys) && Positive(buys)
    requires Cost(book, m.day, buys, scale) <= acc.cash
    ensures var r := BuyAll(book, kinds, m, buys, scale, acc);
      && r.Ok? && AccountOk(m, r.value, cash, keys) && Gross(m, r.value) == Gross(m, acc)
      && r.value.cash == acc.cash - Cost(book, m.day, buys, scale)
    decreases |buys|
  {
    hide BuyOne, Gross, AccountOk, PurchaseOk, PurchasesOk, CostOne, Times;
    if buys != [] {
      var b := buys[0];
      CostNonNegative(book, m.day, buys[1..], scale);
      assert Covered(book, m.day, [b]) && Covered(book, m.day, buys[1..]);
      hide Covered;
      PurchasesTail(kinds, m, acc.quantities, buys, 0.0);
      BuyOneOk(book, kinds, m, b, scale, acc, cash, keys);
      var next := BuyOne(book, kinds, m, b, scale, acc).value;
      PurchasesTail(kinds, m, acc.quantities, buys, next.quantities[b.asset]);
      BuyAllOk(book, kinds, m, buys[1..], scale, next, cash, keys);
    }
  }

  // ---------------------------------------------------------------- the whole rebalance

  /**
   * The refusals a rebalance can still make: prices, wealth, fee rules, fees of the sales, or no cash to buy at all.
   */
  ghost predicate StepsAllowed(book: Book, kinds: Kinds, m: DayView, holdings: map<Asset, real>, cash: real)
    requires GoodBook(book) && m.signalDate.Some? && m.targets.Some?
  {
    && Priced(holdings, m.bars)
    && var pretrade := cash + Worth(holdings, m.bars, true);
       && 0.0 < pretrade
       && var plan :=
         MakePlan(kinds, m, holdings, m.targets.value, pretrade, SortedAssets(holdings.Keys + m.targets.value.Keys));
          && plan.Ok?
          && var sold := SellAll(book, kinds, m, plan.value.sells, Account(cash, holdings, []));
             && sold.Ok? && 0.0 <= sold.value.cash
             && (plan.value.buys != [] ==>
                   0.0 < sold.value.cash && Covered(book, m.day, plan.value.buys)
                   && Scale(book, m.day, plan.value.buys, sold.value.cash) != Ok(0.0))
  }

  /** After the sales: untouched purchases are still planned against the current quantities. */
  lemma PurchasesAfterSales(kinds: Kinds, m: DayView, holdings: map<Asset, real>, plan: Plan, ids: seq<Asset>,
      quantities: map<Asset, real>)
    requires PlanOk(kinds, m, holdings, plan, ids)
    requires forall a :: (forall i :: 0 <= i < |plan.sells| ==> plan.sells[i].asset != a) ==>
      HeldOf(quantities, a) == HeldOf(holdings, a)
    ensures PurchasesOk(kinds, m, quantities, plan.buys) && Positive(plan.buys)
  {
    hide LegsOk, KindOf;
    forall j | 0 <= j < |plan.buys| ensures PurchaseOk(kinds, m, quantities, plan.buys[j]) {
      assert PurchaseOk(kinds, m, holdings, plan.buys[j]);
      assert HeldOf(quantities, plan.buys[j].asset) == HeldOf(holdings, plan.buys[j].asset);
    }
  }

  lemma OpeningAccount(m: DayView, holdings: map<Asset, real>, cash: real)
    requires NonNegativeHoldings(holdings) && Priced(holdings, m.bars)
    ensures AccountOk(m, Account(cash, holdings, []), cash, holdings.Keys)
    ensures Gross(m, Account(cash, holdings, [])) == cash + Worth(holdings, m.bars, true)
  {
    hide Worth;
  }

  lemma AscendingDistinct(ids: seq<Asset>)
    requires Ascending(ids)
    ensures Distinct(ids)
  {
  }

  /** Selling and then buying at the common scale: the final account, and why every later check passes. */
  lemma SettledAccount(book: Book, kinds: Kinds, m: DayView, holdings: map<Asset, real>, cash: real, plan: Plan,
      ids: seq<Asset>, scale: real)
    requires GoodBook(book) && GoodMarket(kinds, m) && m.targets.Some? && NonNegativeHoldings(holdings)
    requires Priced(holdings, m.bars)
    requires PlanOk(kinds, m, holdings, plan, ids)
    requires SellAll(book, kinds, m, plan.sells, Account(cash, holdings, [])).Ok?
    requires var sold := SellAll(book, kinds, m, plan.sells, Account(cash, holdings, [])).value;
      0.0 <= sold.cash && Scale(book, m.day, plan.buys, sold.cash) == Ok(scale) && (plan.buys != [] ==> scale != 0.0)
    ensures var sold := SellAll(book, kinds, m, plan.sells, Account(cash, holdings, [])).value;
      var done := BuyAll(book, kinds, m, plan.buys, scale, sold);
      && done.Ok? && 0.0 <= done.value.cash
      && AccountOk(m, done.value, cash, holdings.Keys)
      && Gross(m, done.value) == cash + Worth(holdings, m.bars, true)
  {
    assert m.signalDate.value < m.day;
    hide Worth, Gross, AccountOk, NonNegativeHoldings, PlanOk, Cost, Scale, GoodMarket, SellAll, BuyAll, PurchasesOk,
      LegsOk, Priced;
    OpeningAccount(m, holdings, cash);
    PlanLegs(kinds, m, holdings, plan, ids);
    SellAllOk(book, kinds, m, plan.sells, Account(cash, holdings, []), cash, holdings.Keys);
    var sold := SellAll(book, kinds, m, plan.sells, Account(cash, holdings, [])).value;
    PurchasesAfterSales(kinds, m, holdings, plan, ids, sold.quantities);
    ScaleOutcome(book, m.day, plan.buys, sold.cash, scale);
    BuyAllOk(book, kinds, m, plan.buys, scale, sold, cash, holdings.Keys);
  }

  lemma PlanLegs(kinds: Kinds, m: DayView, holdings: map<Asset, real>, plan: Plan, ids: seq<Asset>)
    requires PlanOk(kinds, m, holdings, plan, ids)
    ensures LegsOk(m, holdings, plan.sells)
  {
  }

  /** A usable scale comes with covered purchases that cash can pay for. */
  lemma ScaleOutcome(book: Book, day: Day, buys: seq<Purchase>, cash: real, scale: real)
    requires GoodBook(book) && Positive(buys) && 0.0 <= cash
    requires Scale(book, day, buys, cash) == Ok(scale) && (buys != [] ==> scale != 0.0)
    ensures 0.0 < scale <= 1.0 && Covered(book, day, buys) && Cost(book, day, buys, scale) <= cash
  {
    if buys != [] {
      assert 0.0 < cash && Covered(book, day, buys);
      hide Cost;
      ScaleSafeAndTight(book, day, buys, cash);
    }
  }

  /**
   * A rebalance is self-financing. It succeeds exactly when its inputs allow it: neither assertion of the code
   * (negative cash, value not conserved) can fail, and the clamp is never taken. On success cash and holdings are not
   * negative, cash moved by exactly the trades, and value fell by exactly the fees.
   */
  lemma RebalanceSelfFinancing(book: Book, kinds: Kinds, m: DayView, holdings: map<Asset, real>, cash: real)
    requires GoodBook(book) && GoodMarket(kinds, m) && m.targets.Some? && NonNegativeHoldings(holdings)
    ensures var r := Rebalance(book, kinds, m, holdings, cash);
      && (r.Ok? <==> StepsAllowed(book, kinds, m, holdings, cash))
      && r != Err(LedgerInvariant)
      && (r.Ok? ==> var acc := r.value.account;
            && 0.0 <= acc.cash && NonNegativeHoldings(acc.quantities) && TradesOk(m, acc.trades)
            && acc.cash == cash + CashFlow(acc.trades)
            && acc.cash + Worth(acc.quantities, m.bars, true)
              == cash + Worth(holdings, m.bars, true) - FeeSum(acc.trades)
            && holdings.Keys <= acc.quantities.Keys && Priced(acc.quantities, m.bars))
  {
    hide Worth, NonNegativeHoldings, PlanOk, MakePlan, SellAll, BuyAll, Scale, CashFlow, FeeSum, TradesOk,
      NotionalSum, SortedAssets, Covered;
    var pretrade := cash + Worth(holdings, m.bars, true);
    var ids := SortedAssets(holdings.Keys + m.targets.value.Keys);
    SortedMeaning(holdings.Keys + m.targets.value.Keys);
    AscendingDistinct(ids);
    var plan := MakePlan(kinds, m, holdings, m.targets.value, pretrade, ids);
    PlanErrors(kinds, m, holdings, m.targets.value, pretrade, ids);
    if Priced(holdings, m.bars) && 0.0 < pretrade && plan.Ok? {
      PlanIsOk(kinds, m, holdings, m.targets.value, pretrade, ids);
      SellErrors(book, kinds, m, plan.value.sells, Account(cash, holdings, []));
      var sold := SellAll(book, kinds, m, plan.value.sells, Account(cash, holdings, []));
      if sold.Ok? && 0.0 <= sold.value.cash {
        ScaleErrors(book, m.day, plan.value.buys, sold.value.cash);
        var scale := Scale(book, m.day, plan.value.buys, sold.value.cash);
        if scale.Ok? && !(plan.value.buys != [] && scale.value == 0.0) {
          SettledAccount(book, kinds, m, holdings, cash, plan.value, ids, scale.value);
        }
      }
    }
  }

  lemma ScaleErrors(book: Book, day: Day, buys: seq<Purchase>, cash: real)
    requires GoodBook(book)
    ensures Scale(book, day, buys, cash) != Err(LedgerInvariant)
    ensures buys == [] ==> Scale(book, day, buys, cash).Ok?
    ensures buys != [] ==> (Scale(book, day, buys, cash).Ok? && Scale(book, day, buys, cash) != Ok(0.0) <==>
      0.0 < cash && Covered(book, day, buys) && Scale(book, day, buys, cash) != Ok(0.0))
  {
    hide Cost, Refine, Bisect;
  }

  lemma {:induction false} PlanErrors(kinds: Kinds, m: DayView, holdings: map<Asset, real>, targets: map<Asset, real>,
      pretrade: real, ids: seq<Asset>)
    ensures MakePlan(kinds, m, holdings, targets, pretrade, ids) != Err(LedgerInvariant)
    decreases |ids|
  {
    hide Classify;
    if ids != [] {
      PlanErrors(kinds, m, holdings, targets, pretrade, ids[1..]);
    }
  }

  lemma TradeErrors(book: Book, kinds: Kinds, signalDate: Day, day: Day, a: Asset, side: Side, price: real,
      notional: real)
    requires GoodBook(book)
    ensures MakeTrade(book, kinds, signalDate, day, a, side, price, notional) != Err(LedgerInvariant)
  {
    hide FeeRule.Fee, Select;
  }

  lemma {:induction false} SellErrors(book: Book, kinds: Kinds, m: DayView, sells: seq<Leg>, acc: Account)
    requires GoodBook(book) && m.signalDate.Some?
    ensures SellAll(book, kinds, m, sells, acc) != Err(LedgerInvariant)
    decreases |sells|
  {
    hide MakeTrade;
    if sells != [] {
      var leg := sells[0];
      TradeErrors(book, kinds, m.signalDate.value, m.day, leg.asset, Sell, leg.price, leg.notional);
      var next := SellOne(book, kinds, m, leg, acc);
      if next.Ok? {
        SellErrors(book, kinds, m, sells[1..], next.value);
      }
    }
  }
}
