/** What a simulation's daily points and trades say, stated over its inputs. */
module DailyPoints {
  import opened Outcomes
  import opened Sums
  import opened Contracts
  import opened FeeRules
  import opened BuyScale
  import opened Simulator
  import opened Rebalancing
  import opened RebalanceTargets
  import opened RebalanceConditions
  import opened Simulation

  // ---------------------------------------------------------------- values over the inputs

  ghost predicate PricedOn(inp: Inputs, quantities: map<Asset, real>, day: Day) {
    forall a :: a in quantities ==> (a, day) in inp.bars
  }

  ghost function AtClose(inp: Inputs, quantities: map<Asset, real>, day: Day): map<Asset, real>
    requires PricedOn(inp, quantities, day)
  {
    map a | a in quantities :: quantities[a] * inp.bars[(a, day)].close
  }

  ghost function AtOpen(inp: Inputs, quantities: map<Asset, real>, day: Day): map<Asset, real>
    requires PricedOn(inp, quantities, day)
  {
    map a | a in quantities :: quantities[a] * inp.bars[(a, day)].open
  }

  /** The sum of quantity times close over the holdings. */
  ghost function CloseValue(inp: Inputs, quantities: map<Asset, real>, day: Day): real
    requires PricedOn(inp, quantities, day)
  {
    Total(AtClose(inp, quantities, day), Itself())
  }

  /** The sum of quantity times open over the holdings. */
  ghost function OpenValue(inp: Inputs, quantities: map<Asset, real>, day: Day): real
    requires PricedOn(inp, quantities, day)
  {
    Total(AtOpen(inp, quantities, day), Itself())
  }

  lemma PricedMeans(inp: Inputs, i: nat, quantities: map<Asset, real>)
    requires ValidInputs(inp) && i < |inp.calendar|
    ensures Priced(quantities, MarketOn(inp, i).bars) <==> PricedOn(inp, quantities, inp.calendar[i])
    ensures forall a :: a in MarketOn(inp, i).bars <==> (a, inp.calendar[i]) in inp.bars
    ensures forall a :: a in MarketOn(inp, i).bars ==> MarketOn(inp, i).bars[a] == inp.bars[(a, inp.calendar[i])]
  {
    hide GoodBook;
    var bars := MarketOn(inp, i).bars;
    assert forall a :: a in bars <==> (a, inp.calendar[i]) in inp.bars;
    assert Priced(quantities, bars) <==> forall a :: a in quantities ==> a in bars;
  }

  lemma MarkIs(inp: Inputs, i: nat, quantities: map<Asset, real>, a: Asset)
    requires ValidInputs(inp) && i < |inp.calendar| && PricedOn(inp, quantities, inp.calendar[i]) && a in quantities
    ensures var bars, day := MarketOn(inp, i).bars, inp.calendar[i];
      && (a, day) in inp.bars
      && Times(quantities[a], PriceOf(bars, a, false)) == quantities[a] * inp.bars[(a, day)].close
      && Times(quantities[a], PriceOf(bars, a, true)) == quantities[a] * inp.bars[(a, day)].open
  {
    PricedMeans(inp, i, quantities);
    hide ValidInputs, MarketOn;
  }

  lemma WorthIsValue(inp: Inputs, i: nat, quantities: map<Asset, real>)
    requires ValidInputs(inp) && i < |inp.calendar| && PricedOn(inp, quantities, inp.calendar[i])
    ensures Worth(quantities, MarketOn(inp, i).bars, false) == CloseValue(inp, quantities, inp.calendar[i])
    ensures Worth(quantities, MarketOn(inp, i).bars, true) == OpenValue(inp, quantities, inp.calendar[i])
  {
    hide ValidInputs, MarketOn, Times, PriceOf, PricedOn;
    var bars, day := MarketOn(inp, i).bars, inp.calendar[i];
    forall a | a in quantities
      ensures (a, day) in inp.bars
      ensures Marks(quantities, bars, false)[a] == AtClose(inp, quantities, day)[a]
      ensures Marks(quantities, bars, true)[a] == AtOpen(inp, quantities, day)[a]
    {
      MarkIs(inp, i, quantities, a);
    }
    assert Marks(quantities, bars, false) == AtClose(inp, quantities, day);
    assert Marks(quantities, bars, true) == AtOpen(inp, quantities, day);
  }

  // ---------------------------------------------------------------- one session

  /** What a session keeps of its rebalance, and the point it records. */
  lemma SessionShape(book: Book, kinds: Kinds, m: DayView, first: bool, sim: Sim) returns (reb: Rebalanced)
    requires GoodBook(book) && (m.targets.Some? ==> m.signalDate.Some?) && Session(book, kinds, m, first, sim).Ok?
    ensures MaybeRebalance(book, kinds, m, sim) == Ok(reb)
    ensures var t := Session(book, kinds, m, first, sim).value;
      && Priced(reb.account.quantities, m.bars) && t.cash == reb.account.cash && t.holdings == reb.account.quantities
      && t.nav == t.cash + Worth(t.holdings, m.bars, false) && 0.0 < t.nav
      && t.points == sim.points + [MakePoint(m, first, sim, reb, t.nav)] && t.trades == sim.trades + reb.account.trades
  {
    hide Rebalance, Worth, Priced, ValidPoint, MakePoint, BenchmarkNav, GoodBook;
    reb := MaybeRebalance(book, kinds, m, sim).value;
  }

  // ---------------------------------------------------------------- points

  function WeightSum(weights: seq<(Asset, real)>): real {
    if weights == [] then 0.0 else weights[0].1 + WeightSum(weights[1..])
  }

  predicate Listed(weights: seq<(Asset, real)>, a: Asset) {
    exists i :: 0 <= i < |weights| && weights[i].0 == a
  }

  /** One recorded weight is the share of one holding. */
  ghost predicate ShareOf(inp: Inputs, quantities: map<Asset, real>, day: Day, nav: real, weight: (Asset, real)) {
    && weight.0 in quantities && (weight.0, day) in inp.bars
    && weight.1 * nav == quantities[weight.0] * inp.bars[(weight.0, day)].close
  }

  /** The recorded weights are all holdings in ascending order, each with its share of the value. */
  ghost predicate WeightsAre(inp: Inputs, quantities: map<Asset, real>, day: Day, nav: real,
      weights: seq<(Asset, real)>)
  {
    && (forall i, j :: 0 <= i < j < |weights| ==> weights[i].0 < weights[j].0)
    && (forall i :: 0 <= i < |weights| ==> ShareOf(inp, quantities, day, nav, weights[i]))
    && (forall a :: a in quantities ==> Listed(weights, a))
  }

  lemma ShareTimes(part: real, whole: real)
    requires whole != 0.0
    ensures Over(part, whole) * whole == part
  {
  }

  lemma {:induction false} WeightsTotal(inp: Inputs, i: nat, quantities: map<Asset, real>, nav: real, ids: seq<Asset>)
    requires ValidInputs(inp) && i < |inp.calendar| && PricedOn(inp, quantities, inp.calendar[i]) && 0.0 < nav
    requires forall k :: 0 <= k < |ids| ==> ids[k] in quantities
    ensures WeightSum(WeightsOf(quantities, MarketOn(inp, i).bars, nav, ids)) * nav
      == SumOver(AtClose(inp, quantities, inp.calendar[i]), ids)
    decreases |ids|
  {
    hide ValidInputs, MarketOn, Times, PriceOf, Over;
    var bars := MarketOn(inp, i).bars;
    var w := WeightsOf(quantities, bars, nav, ids);
    if ids != [] {
      WeightsTotal(inp, i, quantities, nav, ids[1..]);
      assert w[1..] == WeightsOf(quantities, bars, nav, ids[1..]);
      MarkIs(inp, i, quantities, ids[0]);
      ShareTimes(Times(quantities[ids[0]], PriceOf(bars, ids[0], false)), nav);
      Distribute(w[0].1, WeightSum(w[1..]), nav);
    }
  }

  lemma Distribute(a: real, b: real, c: real)
    ensures (a + b) * c == a * c + b * c
  {
  }

  lemma WeightIs(inp: Inputs, i: nat, quantities: map<Asset, real>, nav: real, ids: seq<Asset>, k: nat)
    requires ValidInputs(inp) && i < |inp.calendar| && PricedOn(inp, quantities, inp.calendar[i]) && 0.0 < nav
    requires k < |ids| && ids[k] in quantities
    ensures var w := WeightsOf(quantities, MarketOn(inp, i).bars, nav, ids);
      && |w| == |ids| && w[k].0 == ids[k]
      && w[k].1 * nav == quantities[ids[k]] * inp.bars[(ids[k], inp.calendar[i])].close
  {
    hide ValidInputs, MarketOn, Times, PriceOf, Over;
    MarkIs(inp, i, quantities, ids[k]);
    ShareTimes(Times(quantities[ids[k]], PriceOf(MarketOn(inp, i).bars, ids[k], false)), nav);
  }

  lemma WeightIds(quantities: map<Asset, real>, bars: map<Asset, Bar>, nav: real, ids: seq<Asset>)
    ensures var w := WeightsOf(quantities, bars, nav, ids);
      |w| == |ids| && forall k :: 0 <= k < |ids| ==> w[k].0 == ids[k]
  {
    hide Times, PriceOf, Over;
  }

  lemma SortedCovers(quantities: map<Asset, real>)
    ensures Covers(SortedAssets(quantities.Keys), quantities)
  {
    SortedMeaning(quantities.Keys);
    hide SortedAssets;
    var ids := SortedAssets(quantities.Keys);
    assert forall k :: 0 <= k < |ids| ==> ids[k] in ids;
  }

  predicate Covers(ids: seq<Asset>, quantities: map<Asset, real>) {
    && Ascending(ids) && (forall k :: 0 <= k < |ids| ==> ids[k] in quantities)
    && forall a :: a in quantities ==> a in ids
  }

  lemma WeightsListed(inp: Inputs, i: nat, quantities: map<Asset, real>, nav: real, ids: seq<Asset>)
    requires ValidInputs(inp) && i < |inp.calendar| && PricedOn(inp, quantities, inp.calendar[i]) && 0.0 < nav
    requires Covers(ids, quantities)
    ensures WeightsAre(inp, quantities, inp.calendar[i], nav, WeightsOf(quantities, MarketOn(inp, i).bars, nav, ids))
  {
    hide ValidInputs, MarketOn, WeightsOf, PricedOn;
    var w := WeightsOf(quantities, MarketOn(inp, i).bars, nav, ids);
    WeightIds(quantities, MarketOn(inp, i).bars, nav, ids);
    forall k | 0 <= k < |w|
      ensures ShareOf(inp, quantities, inp.calendar[i], nav, w[k])
    {
      PricedAt(inp, quantities, inp.calendar[i], ids[k]);
      WeightIs(inp, i, quantities, nav, ids, k);
    }
    forall a | a in quantities
      ensures Listed(w, a)
    {
      var k :| 0 <= k < |ids| && ids[k] == a;
      assert w[k].0 == a;
    }
  }

  lemma WeightsMeaning(inp: Inputs, i: nat, quantities: map<Asset, real>, nav: real)
    requires ValidInputs(inp) && i < |inp.calendar| && PricedOn(inp, quantities, inp.calendar[i]) && 0.0 < nav
    ensures var w := WeightsOf(quantities, MarketOn(inp, i).bars, nav, SortedAssets(quantities.Keys));
      && WeightsAre(inp, quantities, inp.calendar[i], nav, w)
      && WeightSum(w) * nav == CloseValue(inp, quantities, inp.calendar[i])
  {
    hide ValidInputs, MarketOn, SortedAssets, WeightsOf, PricedOn, WeightSum, AtClose, SumOver, WeightsAre;
    var ids := SortedAssets(quantities.Keys);
    SortedCovers(quantities);
    WeightsListed(inp, i, quantities, nav, ids);
    AscendingDistinct(ids);
    WeightsTotal(inp, i, quantities, nav, ids);
    CloseKeys(inp, quantities, inp.calendar[i]);
    SumOverTotal(AtClose(inp, quantities, inp.calendar[i]), ids);
  }

  lemma CloseKeys(inp: Inputs, quantities: map<Asset, real>, day: Day)
    requires PricedOn(inp, quantities, day)
    ensures AtClose(inp, quantities, day).Keys == quantities.Keys
  {
  }

  lemma PricedAt(inp: Inputs, quantities: map<Asset, real>, day: Day, a: Asset)
    requires PricedOn(inp, quantities, day) && a in quantities
    ensures (a, day) in inp.bars
  {
  }

  lemma PointParts(m: DayView, first: bool, sim: Sim, reb: Rebalanced, nav: real)
    requires 0.0 < nav
    ensures var p := MakePoint(m, first, sim, reb, nav);
      && p.day == m.day && p.nav == nav && p.cash == reb.account.cash && p.turnover == reb.turnover
      && p.cashWeight * nav == p.cash && p.excess == p.dailyReturn - p.benchmarkReturn
      && (first ==> p.dailyReturn == 0.0) && (!first && sim.nav != 0.0 ==> (1.0 + p.dailyReturn) * sim.nav == nav)
      && p.weights == WeightsOf(reb.account.quantities, m.bars, nav, SortedAssets(reb.account.quantities.Keys))
      && p.executed == (if m.targets.Some? then m.signalDate else None)
      && p.buyFees == SideFees(reb.account.trades, Buy) && p.sellFees == SideFees(reb.account.trades, Sell)
      && p.totalFees == p.buyFees + p.sellFees
  {
    hide WeightsOf, SideFees, SortedAssets, BenchmarkReturn, BenchmarkNav, Over;
    ShareTimes(reb.account.cash, nav);
    if sim.nav != 0.0 {
      ShareTimes(nav, sim.nav);
    }
  }

  /** The point of the last session, over the inputs. */
  ghost predicate PointOk(inp: Inputs, n: nat, sim: Sim, p: Point)
    requires 0 < n <= |inp.calendar|
  {
    var day := inp.calendar[n - 1];
    && p.day == day && PricedOn(inp, sim.holdings, day) && 0.0 < p.nav
    && p.cash == sim.cash && p.nav == sim.cash + CloseValue(inp, sim.holdings, day)
    && WeightsAre(inp, sim.holdings, day, p.nav, p.weights)
    && p.cashWeight * p.nav == p.cash && p.cashWeight + WeightSum(p.weights) == 1.0
    && p.excess == p.dailyReturn - p.benchmarkReturn && p.totalFees == p.buyFees + p.sellFees
  }

  lemma SumToOne(cashWeight: real, weights: real, cash: real, value: real, nav: real)
    requires 0.0 < nav && cashWeight * nav == cash && weights * nav == value && nav == cash + value
    ensures cashWeight + weights == 1.0
  {
    assert (cashWeight + weights - 1.0) * nav == 0.0;
  }

  lemma LastSession(inp: Inputs, n: nat) returns (reb: Rebalanced)
    requires ValidInputs(inp) && GoodBook(inp.book) && 0 < n <= |inp.calendar| && Days(inp, n).Ok?
    ensures Days(inp, n - 1).Ok? && Running(Days(inp, n - 1).value)
    ensures var m := MarketOn(inp, n - 1);
      var before, t := Days(inp, n - 1).value, Days(inp, n).value;
      && (m.targets.Some? ==> m.signalDate.Some?)
      && MaybeRebalance(inp.book, inp.kinds, m, before) == Ok(reb)
      && Priced(reb.account.quantities, m.bars) && t.cash == reb.account.cash && t.holdings == reb.account.quantities
      && t.nav == t.cash + Worth(t.holdings, m.bars, false) && 0.0 < t.nav
      && t.points == before.points + [MakePoint(m, n == 1, before, reb, t.nav)]
      && t.trades == before.trades + reb.account.trades
  {
    hide Session, ValidInputs, MarketOn, GoodBook, Running, Advanced, MakePoint, MaybeRebalance, Worth, Priced;
    DaysAdvance(inp, n);
    DaysAdvance(inp, n - 1);
    SignalBeforeTargets(inp, n - 1);
    reb := SessionShape(inp.book, inp.kinds, MarketOn(inp, n - 1), n == 1, Days(inp, n - 1).value);
  }

  /**
   * Every daily point states its own close: value is cash plus quantity times close over what is held then, and the
   * recorded weights are those shares of it, cash included.
   */
  lemma PointsAreMarked(inp: Inputs, n: nat)
    requires ValidInputs(inp) && GoodBook(inp.book) && 0 < n <= |inp.calendar| && Days(inp, n).Ok?
    ensures var sim := Days(inp, n).value;
      |sim.points| == n && PointOk(inp, n, sim, sim.points[n - 1])
  {
    hide ValidInputs, MarketOn, GoodBook, Running, MakePoint, MaybeRebalance, Worth, Priced, Days, WeightsAre,
      CloseValue, WeightsOf, AccountsOk, PricedOn;
    var reb := LastSession(inp, n);
    var sim, m := Days(inp, n).value, MarketOn(inp, n - 1);
    RunAccounts(inp, n);
    AccountsCount(inp, n, sim);
    PointParts(m, n == 1, Days(inp, n - 1).value, reb, sim.nav);
    MarketDay(inp, n - 1);
    PricedMeans(inp, n - 1, sim.holdings);
    WorthIsValue(inp, n - 1, sim.holdings);
    WeightsMeaning(inp, n - 1, sim.holdings, sim.nav);
    var p := sim.points[n - 1];
    SumToOne(p.cashWeight, WeightSum(p.weights), p.cash, CloseValue(inp, sim.holdings, inp.calendar[n - 1]), p.nav);
  }

  lemma AccountsCount(inp: Inputs, n: nat, sim: Sim)
    requires n <= |inp.calendar| && AccountsOk(inp, n, sim)
    ensures |sim.points| == n
  {
    hide ValidPoint, CashFlow;
  }

  // ---------------------------------------------------------------- returns

  /** The product of all growth factors 1 + dailyReturn. */
  function Growth(points: seq<Point>): real {
    if points == [] then 1.0
    else Times(Growth(points[..|points| - 1]), 1.0 + points[|points| - 1].dailyReturn)
  }

  lemma Chain(growth: real, factor: real, first: real, before: real, last: real)
    requires Times(growth, first) == before && factor * before == last
    ensures Times(Times(growth, factor), first) == last
  {
    assert growth * factor * first == factor * (growth * first);
  }

  /** Daily returns are growth from close to close, so their product telescopes to the last value over the first. */
  lemma {:induction false} ReturnsTelescope(inp: Inputs, n: nat)
    requires ValidInputs(inp) && GoodBook(inp.book) && 0 < n <= |inp.calendar| && Days(inp, n).Ok?
    ensures var sim := Days(inp, n).value;
      && |sim.points| == n && sim.points[n - 1].nav == sim.nav
      && (if n == 1 then sim.points[0].dailyReturn == 0.0
          else (1.0 + sim.points[n - 1].dailyReturn) * sim.points[n - 2].nav == sim.points[n - 1].nav)
      && Times(Growth(sim.points), sim.points[0].nav) == sim.points[n - 1].nav
    decreases n
  {
    hide ValidInputs, MarketOn, GoodBook, Running, MakePoint, MaybeRebalance, Worth, Priced, Days, Times, AccountsOk;
    var reb := LastSession(inp, n);
    var before, sim := Days(inp, n - 1).value, Days(inp, n).value;
    RunAccounts(inp, n);
    AccountsCount(inp, n, sim);
    PointParts(MarketOn(inp, n - 1), n == 1, before, reb, sim.nav);
    var point := sim.points[n - 1];
    assert sim.points[..n - 1] == before.points;
    TimesAdd(1.0, 0.0, 1.0);
    TimesAdd(1.0, 0.0, sim.nav);
    if n == 1 {
      assert before.points == [];
      assert Growth(sim.points) == Times(1.0, 1.0);
    } else {
      ReturnsTelescope(inp, n - 1);
      assert sim.points[n - 2] == before.points[n - 2] && sim.points[0] == before.points[0];
      PositiveBefore(before);
      Chain(Growth(before.points), 1.0 + point.dailyReturn, sim.points[0].nav, before.nav, sim.nav);
    }
  }

  lemma PositiveBefore(sim: Sim)
    requires Running(sim)
    ensures 0.0 < sim.nav && 0.0 <= sim.cash && NonNegativeHoldings(sim.holdings)
  {
  }

  // ---------------------------------------------------------------- trades

  /** A latest effective rule of the book for the trade. */
  predicate RuleFor(rules: seq<FeeRule>, t: VectorTrade, rule: FeeRule) {
    && rule in rules && Candidate(rule, t.kind, t.side, t.day, None)
    && forall other :: other in rules && Candidate(other, t.kind, t.side, t.day, None) ==>
      other.effectiveFrom <= rule.effectiveFrom
  }

  ghost predicate FeeIsDue(book: Book, t: VectorTrade)
    requires GoodBook(book)
  {
    match book
    case NoFees => t.fee.total == 0.0
    case Fees(rules) => exists rule :: RuleFor(rules, t, rule) && rule.Valid() && t.fee == rule.Fee(t.notional)
  }

  /** A trade of a session: on its day, at its open, for its signal, with the fee its rule assesses. */
  ghost predicate TradedAtOpen(inp: Inputs, i: nat, signalDate: Day, t: VectorTrade)
    requires i < |inp.calendar| && GoodBook(inp.book)
  {
    var day := inp.calendar[i];
    && t.day == day && t.signalDate == signalDate && 0.0 < t.notional
    && (t.asset, day) in inp.bars && t.price == inp.bars[(t.asset, day)].open
    && t.asset in inp.kinds && t.kind == inp.kinds[t.asset] && FeeIsDue(inp.book, t)
  }

  ghost predicate Made(book: Book, kinds: Kinds, m: DayView, t: VectorTrade)
    requires GoodBook(book) && m.signalDate.Some?
  {
    && t.asset in m.bars && 0.0 < t.notional
    && MakeTrade(book, kinds, m.signalDate.value, m.day, t.asset, t.side, m.bars[t.asset].open, t.notional) == Ok(t)
  }

  ghost predicate AllMade(book: Book, kinds: Kinds, m: DayView, trades: seq<VectorTrade>)
    requires GoodBook(book) && m.signalDate.Some?
  {
    forall i :: 0 <= i < |trades| ==> Made(book, kinds, m, trades[i])
  }

  predicate LegsAtOpen(m: DayView, sells: seq<Leg>) {
    forall i :: 0 <= i < |sells| ==>
      sells[i].asset in m.bars && sells[i].price == m.bars[sells[i].asset].open
  }

  predicate BuysAtOpen(m: DayView, buys: seq<Purchase>) {
    forall i :: 0 <= i < |buys| ==> buys[i].asset in m.bars && buys[i].price == m.bars[buys[i].asset].open
  }

  lemma MadeOne(book: Book, kinds: Kinds, m: DayView, a: Asset, side: Side, notional: real)
    requires GoodBook(book) && m.signalDate.Some? && a in m.bars
    ensures var t := MakeTrade(book, kinds, m.signalDate.value, m.day, a, side, m.bars[a].open, notional);
      t.Ok? ==> Made(book, kinds, m, t.value) && t.value.side == side && t.value.notional == notional
  {
    hide TradeFee;
  }

  lemma {:induction false} SalesMade(book: Book, kinds: Kinds, m: DayView, sells: seq<Leg>, acc: Account)
    requires GoodBook(book) && m.signalDate.Some? && LegsAtOpen(m, sells) && AllMade(book, kinds, m, acc.trades)
    requires SellAll(book, kinds, m, sells, acc).Ok?
    ensures AllMade(book, kinds, m, SellAll(book, kinds, m, sells, acc).value.trades)
    decreases |sells|
  {
    hide MakeTrade, Made;
    if sells != [] {
      MadeOne(book, kinds, m, sells[0].asset, Sell, sells[0].notional);
      SalesMade(book, kinds, m, sells[1..], SellOne(book, kinds, m, sells[0], acc).value);
    }
  }

  lemma PurchaseMade(book: Book, kinds: Kinds, m: DayView, b: Purchase, scale: real, acc: Account)
    requires GoodBook(book) && m.signalDate.Some? && b.asset in m.bars && b.price == m.bars[b.asset].open
    requires AllMade(book, kinds, m, acc.trades) && BuyOne(book, kinds, m, b, scale, acc).Ok?
    ensures AllMade(book, kinds, m, BuyOne(book, kinds, m, b, scale, acc).value.trades)
  {
    hide MakeTrade, Made, Times;
    var actual := Times(scale, b.desired);
    MadeOne(book, kinds, m, b.asset, Buy, actual);
    if actual != 0.0 {
      var t := MakeTrade(book, kinds, m.signalDate.value, m.day, b.asset, Buy, b.price, actual).value;
      MadeOne(book, kinds, m, b.asset, Buy, acc.cash - t.fee.total);
    }
  }

  lemma {:induction false} PurchasesMade(book: Book, kinds: Kinds, m: DayView, buys: seq<Purchase>, scale: real,
      acc: Account)
    requires GoodBook(book) && m.signalDate.Some? && BuysAtOpen(m, buys) && AllMade(book, kinds, m, acc.trades)
    requires BuyAll(book, kinds, m, buys, scale, acc).Ok?
    ensures AllMade(book, kinds, m, BuyAll(book, kinds, m, buys, scale, acc).value.trades)
    decreases |buys|
  {
    hide BuyOne, AllMade;
    if buys != [] {
      PurchaseMade(book, kinds, m, buys[0], scale, acc);
      PurchasesMade(book, kinds, m, buys[1..], scale, BuyOne(book, kinds, m, buys[0], scale, acc).value);
    }
  }

  lemma PlanAtOpen(kinds: Kinds, m: DayView, holdings: map<Asset, real>, plan: Plan, ids: seq<Asset>)
    requires PlanOk(kinds, m, holdings, plan, ids)
    ensures LegsAtOpen(m, plan.sells) && BuysAtOpen(m, plan.buys)
  {
    hide Times, KindOf;
    forall i | 0 <= i < |plan.sells|
      ensures plan.sells[i].asset in m.bars && plan.sells[i].price == m.bars[plan.sells[i].asset].open
    {
      assert LegOk(m, holdings, plan.sells[i]);
    }
    forall i | 0 <= i < |plan.buys|
      ensures plan.buys[i].asset in m.bars && plan.buys[i].price == m.bars[plan.buys[i].asset].open
    {
      assert PurchaseOk(kinds, m, holdings, plan.buys[i]);
    }
  }

  lemma RebalanceTrades(book: Book, kinds: Kinds, m: DayView, holdings: map<Asset, real>, cash: real)
    requires GoodBook(book) && GoodMarket(kinds, m) && m.targets.Some? && NonNegativeHoldings(holdings)
    requires m.signalDate.Some? && Rebalance(book, kinds, m, holdings, cash).Ok?
    ensures AllMade(book, kinds, m, Rebalance(book, kinds, m, holdings, cash).value.account.trades)
  {
    hide Worth, GoodMarket, NonNegativeHoldings, Priced, Rebalance, MakePlan, PlanOk, SortedAssets, SellAll, BuyAll,
      Scale, Made, LegsAtOpen, BuysAtOpen;
    MarketFacts(kinds, m, holdings);
    var plan, sold, scale := RebalanceParts(book, kinds, m, holdings, cash);
    var pretrade := cash + Worth(holdings, m.bars, true);
    var ids := SortedAssets(holdings.Keys + m.targets.value.Keys);
    SortedMeaning(holdings.Keys + m.targets.value.Keys);
    AscendingDistinct(ids);
    PlanIsOk(kinds, m, holdings, m.targets.value, pretrade, ids);
    PlanAtOpen(kinds, m, holdings, plan, ids);
    SalesMade(book, kinds, m, plan.sells, Account(cash, holdings, []));
    PurchasesMade(book, kinds, m, plan.buys, scale, sold);
  }

  lemma FeeDue(book: Book, t: VectorTrade)
    requires GoodBook(book) && 0.0 < t.notional && TradeFee(book, t.kind, t.side, t.day, t.notional) == Ok(t.fee)
    ensures FeeIsDue(book, t)
  {
    if book.Fees? {
      SelectLatest(book.rules, t.kind, t.side, t.day, None);
      var rule := Select(book.rules, t.kind, t.side, t.day, None).value;
      hide FeeRule.Fee;
      rule.AssessTotal(t.notional);
      assert RuleFor(book.rules, t, rule) by {
        assert forall other :: other in book.rules ==> exists i :: 0 <= i < |book.rules| && book.rules[i] == other;
      }
    }
  }

  lemma MadeIsTraded(inp: Inputs, i: nat, t: VectorTrade)
    requires ValidInputs(inp) && GoodBook(inp.book) && 0 < i < |inp.calendar|
    requires MarketOn(inp, i).signalDate.Some? && Made(inp.book, inp.kinds, MarketOn(inp, i), t)
    ensures TradedAtOpen(inp, i, inp.calendar[i - 1], t)
  {
    hide FeeIsDue, TradeFee, GoodBook, ValidBreakdown;
    PricedMeans(inp, i, map[]);
    FeeDue(inp.book, t);
  }

  // ---------------------------------------------------------------- what a session does

  /** The batch dated the trading day before session i. */
  function SignalOf(inp: Inputs, i: nat): Option<Day>
    requires i < |inp.calendar|
  {
    if 0 < i && inp.calendar[i - 1] in inp.batches then Some(inp.calendar[i - 1]) else None
  }

  /**
   * At the open an overweight instrument ends on its wanted value, an underweight one the common share of its way
   * there.
   */
  predicate LandsOn(pretrade: real, weight: real, price: real, before: real, after: real, scale: real) {
    var wanted, had := pretrade * weight, before * price;
    after * price == if wanted <= had then wanted else had + scale * (wanted - had)
  }

  ghost predicate AllLandOn(inp: Inputs, day: Day, batch: map<Asset, real>, pretrade: real, before: map<Asset, real>,
      after: map<Asset, real>, scale: real)
  {
    forall a :: (a, day) in inp.bars ==>
      LandsOn(pretrade, HeldOf(batch, a), inp.bars[(a, day)].open, HeldOf(before, a), HeldOf(after, a), scale)
  }

  lemma MarketSignal(inp: Inputs, i: nat)
    requires i < |inp.calendar|
    ensures var m, signal := MarketOn(inp, i), SignalOf(inp, i);
      if signal.None? then m.targets == None
      else m.signalDate == signal && m.targets == Some(inp.batches[signal.value])
  {
  }

  lemma LandsInArithmetic(m: DayView, targets: map<Asset, real>, pretrade: real, before: map<Asset, real>,
      after: map<Asset, real>, scale: real, a: Asset)
    requires a in m.bars && Lands(m, before, targets, pretrade, after, scale, a)
    ensures LandsOn(pretrade, HeldOf(targets, a), m.bars[a].open, HeldOf(before, a), HeldOf(after, a), scale)
  {
    hide HeldOf;
  }

  lemma LandingIs(inp: Inputs, i: nat, pretrade: real, before: map<Asset, real>, after: map<Asset, real>, scale: real)
    requires ValidInputs(inp) && i < |inp.calendar| && MarketOn(inp, i).targets.Some?
    requires AllLand(MarketOn(inp, i), before, pretrade, after, scale)
    ensures AllLandOn(inp, inp.calendar[i], MarketOn(inp, i).targets.value, pretrade, before, after, scale)
  {
    hide ValidInputs, MarketOn, HeldOf, Lands, LandsOn;
    var m, day := MarketOn(inp, i), inp.calendar[i];
    PricedMeans(inp, i, map[]);
    forall a | (a, day) in inp.bars
      ensures LandsOn(pretrade, HeldOf(m.targets.value, a), inp.bars[(a, day)].open, HeldOf(before, a),
        HeldOf(after, a), scale)
    {
      assert a in m.bars;
      LandsInArithmetic(m, m.targets.value, pretrade, before, after, scale, a);
    }
  }

  /** The day's own trades, and what they did to cash. */
  ghost predicate TradesOfDay(inp: Inputs, i: nat, signalDate: Day, before: Sim, after: Sim, p: Point)
    requires i < |inp.calendar| && GoodBook(inp.book)
  {
    && |before.trades| <= |after.trades| && after.trades[..|before.trades|] == before.trades
    && var day := after.trades[|before.trades|..];
    && (forall k :: 0 <= k < |day| ==> TradedAtOpen(inp, i, signalDate, day[k]))
    && after.cash == before.cash + CashFlow(day)
    && p.buyFees == SideFees(day, Buy) && p.sellFees == SideFees(day, Sell)
  }

  /** With no batch of the day before nothing changes; with one the portfolio is rebalanced to it at the open. */
  ghost predicate FollowsSignal(inp: Inputs, i: nat, before: Sim, after: Sim, p: Point)
    requires i < |inp.calendar| && GoodBook(inp.book)
  {
    var signal, day := SignalOf(inp, i), inp.calendar[i];
    && p.executed == signal
    && (signal.None? ==>
      after.cash == before.cash && after.holdings == before.holdings && after.trades == before.trades)
    && (signal.Some? ==>
      && PricedOn(inp, before.holdings, day) && PricedOn(inp, inp.batches[signal.value], day)
      && PricedOn(inp, after.holdings, day) && TradesOfDay(inp, i, signal.value, before, after, p)
      && RebalancedTo(inp, day, inp.batches[signal.value], before, after, p))
  }

  ghost predicate RebalancedTo(inp: Inputs, day: Day, batch: map<Asset, real>, before: Sim, after: Sim, p: Point)
    requires PricedOn(inp, before.holdings, day)
  {
    var pretrade := before.cash + OpenValue(inp, before.holdings, day);
    && 0.0 < pretrade
    && (exists scale ::
      0.0 < scale <= 1.0 && AllLandOn(inp, day, batch, pretrade, before.holdings, after.holdings, scale))
    && |before.trades| <= |after.trades|
    && p.turnover * pretrade == NotionalSum(after.trades[|before.trades|..])
  }

  lemma TurnoverIs(book: Book, kinds: Kinds, m: DayView, holdings: map<Asset, real>, cash: real)
    requires GoodBook(book) && m.signalDate.Some? && m.targets.Some? && Rebalance(book, kinds, m, holdings, cash).Ok?
    ensures var r, pretrade := Rebalance(book, kinds, m, holdings, cash).value, cash + Worth(holdings, m.bars, true);
      0.0 < pretrade && r.turnover * pretrade == NotionalSum(r.account.trades)
  {
    hide Worth, Priced, MakePlan, SellAll, BuyAll, Scale, SortedAssets, NotionalSum, FeeSum, Over;
    ShareTimes(NotionalSum(Rebalance(book, kinds, m, holdings, cash).value.account.trades),
      cash + Worth(holdings, m.bars, true));
  }

  lemma TargetsPriced(book: Book, kinds: Kinds, m: DayView, holdings: map<Asset, real>, cash: real)
    requires GoodBook(book) && GoodMarket(kinds, m) && m.targets.Some? && NonNegativeHoldings(holdings)
    requires m.signalDate.Some? && Rebalance(book, kinds, m, holdings, cash).Ok?
    ensures Priced(holdings, m.bars) && Priced(m.targets.value, m.bars)
  {
    hide Worth, Priced, Rebalance, GoodMarket, NonNegativeHoldings, PlanOf, TradesAllowed, GoodBook;
    RebalanceExactly(book, kinds, m, holdings, cash);
  }

  lemma RebalanceCash(book: Book, kinds: Kinds, m: DayView, holdings: map<Asset, real>, cash: real)
    requires GoodBook(book) && GoodMarket(kinds, m) && m.targets.Some? && NonNegativeHoldings(holdings)
    requires m.signalDate.Some? && Rebalance(book, kinds, m, holdings, cash).Ok?
    ensures var acc := Rebalance(book, kinds, m, holdings, cash).value.account;
      acc.cash == cash + CashFlow(acc.trades)
  {
    hide Worth, Priced, Rebalance, GoodMarket, NonNegativeHoldings, GoodBook, StepsAllowed, TradesOk, FeeSum,
      CashFlow;
    RebalanceSelfFinancing(book, kinds, m, holdings, cash);
  }

  lemma DayTrades(before: seq<VectorTrade>, added: seq<VectorTrade>)
    ensures (before + added)[|before|..] == added && (before + added)[..|before|] == before
  {
  }

  lemma TradesFollow(inp: Inputs, n: nat, reb: Rebalanced)
    requires ValidInputs(inp) && GoodBook(inp.book) && 1 < n <= |inp.calendar| && SignalOf(inp, n - 1).Some?
    requires Days(inp, n).Ok? && Days(inp, n - 1).Ok?
    requires var m, before, t := MarketOn(inp, n - 1), Days(inp, n - 1).value, Days(inp, n).value;
      && GoodMarket(inp.kinds, m) && NonNegativeHoldings(before.holdings) && m.targets.Some? && m.signalDate.Some?
      && Rebalance(inp.book, inp.kinds, m, before.holdings, before.cash) == Ok(reb)
      && t.cash == reb.account.cash && t.trades == before.trades + reb.account.trades && t.points != []
      && t.points[|t.points| - 1].buyFees == SideFees(reb.account.trades, Buy)
      && t.points[|t.points| - 1].sellFees == SideFees(reb.account.trades, Sell)
    ensures var before, t := Days(inp, n - 1).value, Days(inp, n).value;
      TradesOfDay(inp, n - 1, SignalOf(inp, n - 1).value, before, t, t.points[|t.points| - 1])
  {
    hide ValidInputs, MarketOn, GoodBook, GoodMarket, Days, Rebalance, NonNegativeHoldings, Made, TradedAtOpen,
      CashFlow, SideFees;
    var m, before := MarketOn(inp, n - 1), Days(inp, n - 1).value;
    RebalanceTrades(inp.book, inp.kinds, m, before.holdings, before.cash);
    RebalanceCash(inp.book, inp.kinds, m, before.holdings, before.cash);
    DayTrades(before.trades, reb.account.trades);
    forall k | 0 <= k < |reb.account.trades|
      ensures TradedAtOpen(inp, n - 1, inp.calendar[n - 2], reb.account.trades[k])
    {
      MadeIsTraded(inp, n - 1, reb.account.trades[k]);
    }
  }

  /**
   * A session trades exactly when a batch is dated the trading day before it, and then at its own open, for that batch,
   * with the assessed fees, until every instrument lands on its target or the affordable share of the way to it.
   */
  lemma SessionsFollowSignals(inp: Inputs, n: nat)
    requires ValidInputs(inp) && GoodBook(inp.book) && 0 < n <= |inp.calendar| && Days(inp, n).Ok?
    ensures Days(inp, n - 1).Ok? && |Days(inp, n).value.points| == n
    ensures var before, t := Days(inp, n - 1).value, Days(inp, n).value;
      FollowsSignal(inp, n - 1, before, t, t.points[n - 1])
  {
    hide ValidInputs, MarketOn, GoodBook, GoodMarket, Running, MakePoint, Worth, Priced, Days, AccountsOk, Rebalance,
      TradesOfDay, OpenValue, NonNegativeHoldings, AllLand, AllLandOn, PricedOn, NotionalSum, SideFees;
    var reb := LastSession(inp, n);
    var before, t, m := Days(inp, n - 1).value, Days(inp, n).value, MarketOn(inp, n - 1);
    RunAccounts(inp, n);
    AccountsCount(inp, n, t);
    PointParts(m, n == 1, before, reb, t.nav);
    MarketSignal(inp, n - 1);
    MarketIsGood(inp, n - 1);
    PositiveBefore(before);
    DayTrades(before.trades, reb.account.trades);
    if SignalOf(inp, n - 1).Some? {
      TradesFollow(inp, n, reb);
      TargetsPriced(inp.book, inp.kinds, m, before.holdings, before.cash);
      PricedMeans(inp, n - 1, before.holdings);
      PricedMeans(inp, n - 1, m.targets.value);
      PricedMeans(inp, n - 1, t.holdings);
      WorthIsValue(inp, n - 1, before.holdings);
      TurnoverIs(inp.book, inp.kinds, m, before.holdings, before.cash);
      var plan, sold, scale := RebalanceLands(inp.book, inp.kinds, m, before.holdings, before.cash);
      LandingIs(inp, n - 1, before.cash + Worth(before.holdings, m.bars, true), before.holdings, t.holdings, scale);
    }
  }
}
