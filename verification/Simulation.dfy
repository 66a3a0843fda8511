/** Whole simulations: accounts over every run, drawdown, absence of lookahead, and the loops that compute them. */
module Simulation {
  import opened Outcomes
  import opened Sums
  import opened Contracts
  import opened BuyScale
  import opened Simulator
  import opened Rebalancing
  import opened KindIndependence
  import opened RebalanceConditions

  datatype Inputs = Inputs(
    calendar: seq<Day>, initialNav: real, book: Book, kinds: Kinds,
    bars: map<(Asset, Day), Bar>, benchmark: map<Day, real>, batches: map<Day, map<Asset, real>>)

  /** What `run` has validated before it simulates. */
  ghost predicate ValidInputs(inp: Inputs) {
    && inp.calendar != [] && (forall i, j :: 0 <= i < j < |inp.calendar| ==> inp.calendar[i] < inp.calendar[j])
    && 0.0 < inp.initialNav && GoodBook(inp.book)
    && (forall k :: k in inp.bars ==> k.0 in inp.kinds && 0.0 < inp.bars[k].open && 0.0 < inp.bars[k].close)
    && (forall i :: 0 <= i < |inp.calendar| ==>
      inp.calendar[i] in inp.benchmark && 0.0 < inp.benchmark[inp.calendar[i]])
    && (forall d :: d in inp.batches ==> forall a :: a in inp.batches[d] ==> 0.0 <= inp.batches[d][a] <= 1.0)
  }

  function MarketOn(inp: Inputs, i: nat): DayView
    requires i < |inp.calendar|
  {
    var day := inp.calendar[i];
    DayView(day, map a | a in inp.kinds && (a, day) in inp.bars :: inp.bars[(a, day)],
      if day in inp.benchmark then inp.benchmark[day] else 0.0,
      if i == 0 then None else Some(inp.calendar[i - 1]),
      if i == 0 || inp.calendar[i - 1] !in inp.batches then None else Some(inp.batches[inp.calendar[i - 1]]))
  }

  lemma MarketIsGood(inp: Inputs, i: nat)
    requires ValidInputs(inp) && i < |inp.calendar|
    ensures GoodMarket(inp.kinds, MarketOn(inp, i))
  {
  }

  function Start(inp: Inputs): Sim {
    Sim(inp.initialNav, map[], inp.initialNav, inp.initialNav, inp.initialNav, None, [], [])
  }

  // ---------------------------------------------------------------- one session

  lemma {:induction false} SideFeesSplit(m: DayView, trades: seq<VectorTrade>)
    requires TradesOk(m, trades)
    ensures 0.0 <= SideFees(trades, Buy) && 0.0 <= SideFees(trades, Sell) && 0.0 <= NotionalSum(trades)
    ensures SideFees(trades, Buy) + SideFees(trades, Sell) == FeeSum(trades)
  {
    if trades != [] {
      var n := |trades| - 1;
      assert ValidTrade(trades[n]);
      SideFeesSplit(m, trades[..n]);
    }
  }

  lemma WeightsOk(kinds: Kinds, m: DayView, quantities: map<Asset, real>, nav: real)
    requires GoodMarket(kinds, m) && NonNegativeHoldings(quantities) && 0.0 < nav
    ensures var w := WeightsOf(quantities, m.bars, nav, SortedAssets(quantities.Keys));
      && (forall i :: 0 <= i < |w| ==> 0.0 <= w[i].1)
      && (forall i, j :: 0 <= i < j < |w| ==> w[i].0 <= w[j].0)
  {
    var ids := SortedAssets(quantities.Keys);
    SortedMeaning(quantities.Keys);
    var w := WeightsOf(quantities, m.bars, nav, ids);
    WorthNonNegative(kinds, m, quantities, false);
    hide Times, PriceOf, SortedAssets, Over;
    forall i | 0 <= i < |w| ensures 0.0 <= w[i].1 {
      assert ids[i] in ids;
      OverBounds(Times(quantities[ids[i]], PriceOf(m.bars, ids[i], false)), nav);
    }
  }

  ghost predicate Running(sim: Sim) {
    && 0.0 < sim.nav <= sim.peak && 0.0 < sim.benchmarkNav
      && (sim.previousClose.Some? ==> 0.0 < sim.previousClose.value)
    && 0.0 <= sim.cash && NonNegativeHoldings(sim.holdings) && Owns(sim.cash, sim.holdings)
  }

  /** Some cash or some units are left. */
  ghost predicate Owns(cash: real, quantities: map<Asset, real>) {
    0.0 < cash || exists a :: a in quantities && 0.0 < quantities[a]
  }

  /** A priced portfolio is worth something, at the open or at the close, exactly when it owns something. */
  lemma OwnsIsWorth(kinds: Kinds, m: DayView, cash: real, quantities: map<Asset, real>, atOpen: bool)
    requires GoodMarket(kinds, m) && NonNegativeHoldings(quantities) && Priced(quantities, m.bars) && 0.0 <= cash
    ensures 0.0 < cash + Worth(quantities, m.bars, atOpen) <==> Owns(cash, quantities)
  {
    WorthNonNegative(kinds, m, quantities, atOpen);
    var marks := Marks(quantities, m.bars, atOpen);
    forall a | a in quantities
      ensures 0.0 <= marks[a] && (0.0 < marks[a] <==> 0.0 < quantities[a])
    {
      PositiveMark(quantities[a], PriceOf(m.bars, a, atOpen));
    }
    hide Times, PriceOf, Marks;
    TotalNonNegative(marks, Itself());
    if forall a :: a in quantities ==> quantities[a] == 0.0 {
      TotalZero(marks, Itself());
    } else {
      var a :| a in quantities && quantities[a] != 0.0;
      assert marks[a] <= Total(marks, Itself());
    }
  }

  lemma PositiveMark(q: real, price: real)
    requires 0.0 <= q && 0.0 < price
    ensures 0.0 <= Times(q, price) && (0.0 < Times(q, price) <==> 0.0 < q)
  {
  }

  lemma BenchmarkPositive(kinds: Kinds, m: DayView, sim: Sim)
    requires GoodMarket(kinds, m) && Running(sim)
    ensures 0.0 < BenchmarkNav(m, sim)
  {
    hide Times, Over;
    if sim.previousClose.Some? {
      OverBounds(m.benchmarkClose, sim.previousClose.value);
      TimesMonotone(0.0, Over(m.benchmarkClose, sim.previousClose.value), sim.benchmarkNav);
      TimesAdd(0.0, 0.0, sim.benchmarkNav);
    }
  }

  /** The constructor of a daily point never rejects what a session builds. */
  lemma PointIsValid(kinds: Kinds, m: DayView, first: bool, sim: Sim, reb: Rebalanced, nav: real)
    requires GoodMarket(kinds, m) && Running(sim) && 0.0 < nav && 0.0 <= reb.turnover
    requires 0.0 <= reb.account.cash <= nav && NonNegativeHoldings(reb.account.quantities)
    requires TradesOk(m, reb.account.trades)
    ensures ValidPoint(MakePoint(m, first, sim, reb, nav))
  {
    hide TradesOk, SideFees, WeightsOf, SortedAssets, BenchmarkNav, BenchmarkReturn, NonNegativeHoldings, Over;
    SideFeesSplit(m, reb.account.trades);
    WeightsOk(kinds, m, reb.account.quantities, nav);
    BenchmarkPositive(kinds, m, sim);
    OverBounds(nav, Max(sim.peak, nav));
    OverBounds(reb.account.cash, nav);
    var p := MakePoint(m, first, sim, reb, nav);
    assert 0.0 <= p.drawdown < 1.0;
    assert 0.0 <= p.cashWeight <= 1.0;
    assert 0.0 < p.benchmarkNav;
    assert p.executed.Some? ==> p.executed.value < p.day;
    assert p.weights == WeightsOf(reb.account.quantities, m.bars, nav, SortedAssets(reb.account.quantities.Keys));
  }

  ghost function MaybeRebalance(book: Book, kinds: Kinds, m: DayView, sim: Sim): Result<Rebalanced>
    requires GoodBook(book) && (m.targets.Some? ==> m.signalDate.Some?)
  {
    if m.targets.Some? then Rebalance(book, kinds, m, sim.holdings, sim.cash)
    else Ok(Rebalanced(Account(sim.cash, sim.holdings, []), 0.0))
  }

  lemma MaybeRebalanceOk(book: Book, kinds: Kinds, m: DayView, sim: Sim)
    requires GoodBook(book) && GoodMarket(kinds, m) && Running(sim)
    ensures var r := MaybeRebalance(book, kinds, m, sim);
      && r != Err(LedgerInvariant)
      && (r.Ok? ==> var acc := r.value.account;
            && 0.0 <= acc.cash && NonNegativeHoldings(acc.quantities) && TradesOk(m, acc.trades)
              && 0.0 <= r.value.turnover
            && acc.cash == sim.cash + CashFlow(acc.trades))
      && (m.targets.Some? ==> (r.Ok? <==> RebalanceAllowed(book, kinds, m, sim.holdings, sim.cash)))
      && (m.targets.Some? && r.Ok? ==> var acc := r.value.account;
            && Priced(acc.quantities, m.bars)
            && acc.cash + Worth(acc.quantities, m.bars, true)
              == sim.cash + Worth(sim.holdings, m.bars, true) - FeeSum(acc.trades))
  {
    if m.targets.Some? {
      hide Worth, TradesOk, NonNegativeHoldings, GoodMarket, CashFlow, StepsAllowed, RebalanceAllowed, Owns, FeeSum,
        Priced, Rebalance;
      RebalanceSelfFinancing(book, kinds, m, sim.holdings, sim.cash);
      RebalanceExactly(book, kinds, m, sim.holdings, sim.cash);
      var r := Rebalance(book, kinds, m, sim.holdings, sim.cash);
      if r.Ok? {
        TurnoverNonNegative(book, kinds, m, sim.holdings, sim.cash);
      }
    }
  }

  lemma TurnoverNonNegative(book: Book, kinds: Kinds, m: DayView, holdings: map<Asset, real>, cash: real)
    requires GoodBook(book) && m.signalDate.Some? && m.targets.Some?
    requires Rebalance(book, kinds, m, holdings, cash).Ok?
    requires TradesOk(m, Rebalance(book, kinds, m, holdings, cash).value.account.trades)
    ensures 0.0 <= Rebalance(book, kinds, m, holdings, cash).value.turnover
  {
    hide Worth, MakePlan, SellAll, BuyAll, Scale, SortedAssets, TradesOk, NotionalSum, Over;
    SideFeesSplit(m, Rebalance(book, kinds, m, holdings, cash).value.account.trades);
    OverBounds(NotionalSum(Rebalance(book, kinds, m, holdings, cash).value.account.trades),
      cash + Worth(holdings, m.bars, true));
  }

  lemma {:induction false} CashFlowConcat(a: seq<VectorTrade>, b: seq<VectorTrade>)
    ensures CashFlow(a + b) == CashFlow(a) + CashFlow(b)
  {
    if b == [] {
      assert a + b == a;
    } else {
      var n := |b| - 1;
      assert (a + b)[..|a + b| - 1] == a + b[..n];
      CashFlowConcat(a, b[..n]);
    }
  }

  /** What a successful session adds: one valid point, an exact cash movement, and drawdown from the running peak. */
  ghost predicate Advanced(m: DayView, sim: Sim, t: Sim) {
    && Running(t) && |t.points| == |sim.points| + 1 && sim.points <= t.points && sim.trades <= t.trades
    && t.cash - CashFlow(t.trades) == sim.cash - CashFlow(sim.trades)
    && t.peak == Max(sim.peak, t.nav)
    && var p := t.points[|sim.points|];
       ValidPoint(p) && p.nav == t.nav && p.drawdown == 1.0 - Over(t.nav, t.peak) && p.day == m.day
  }

  lemma MarketSignals(kinds: Kinds, m: DayView)
    requires GoodMarket(kinds, m)
    ensures 0.0 < m.benchmarkClose && (m.targets.Some? ==> m.signalDate.Some?)
  {
  }

  /**
   * With targets the rebalance is allowed and the fees of its sales leave something; without, everything held has a
   * bar.
   */
  ghost predicate SessionAllowed(book: Book, kinds: Kinds, m: DayView, sim: Sim)
    requires GoodBook(book) && (m.targets.Some? ==> m.signalDate.Some?)
  {
    if m.targets.None? then Priced(sim.holdings, m.bars)
    else
      && RebalanceAllowed(book, kinds, m, sim.holdings, sim.cash)
      && var pretrade := sim.cash + Worth(sim.holdings, m.bars, true);
      var plan := PlanOf(kinds, m, sim.holdings, pretrade);
      (plan.Ok? ==> SaleFees(book, kinds, m.day, plan.value.sells) < pretrade)
  }

  /** The recorded point always passes its own checks, and a session returns exactly when the above holds. */
  lemma SessionReturns(book: Book, kinds: Kinds, m: DayView, first: bool, sim: Sim)
    requires GoodBook(book) && GoodMarket(kinds, m) && Running(sim)
    ensures Session(book, kinds, m, first, sim) != Err(LedgerInvariant)
    ensures Session(book, kinds, m, first, sim).Ok? <==> SessionAllowed(book, kinds, m, sim)
  {
    hide Rebalance, Worth, TradesOk, ValidPoint, CashFlow, WeightsOf, SideFees, GoodBook, BenchmarkNav,
      BenchmarkReturn, Over, RebalanceAllowed, Owns, FeeSum, GoodMarket, Priced, NonNegativeHoldings, MakePoint,
      SaleFees, PlanOf;
    MarketSignals(kinds, m);
    MaybeRebalanceOk(book, kinds, m, sim);
    var reb := MaybeRebalance(book, kinds, m, sim);
    if reb.Ok? && m.targets.Some? {
      FeesLeaveSomething(book, kinds, m, sim.holdings, sim.cash);
    }
    if reb.Ok? {
      var acc := reb.value.account;
      WorthNonNegative(kinds, m, acc.quantities, false);
      if Priced(acc.quantities, m.bars) {
        OwnsIsWorth(kinds, m, acc.cash, acc.quantities, true);
        OwnsIsWorth(kinds, m, acc.cash, acc.quantities, false);
      }
      var nav := acc.cash + Worth(acc.quantities, m.bars, false);
      if 0.0 < nav {
        PointIsValid(kinds, m, first, sim, reb.value, nav);
      }
    }
  }

  lemma SessionAdvances(book: Book, kinds: Kinds, m: DayView, first: bool, sim: Sim)
    requires GoodBook(book) && GoodMarket(kinds, m) && Running(sim) && Session(book, kinds, m, first, sim).Ok?
    ensures Advanced(m, sim, Session(book, kinds, m, first, sim).value)
  {
    hide Rebalance, Worth, TradesOk, ValidPoint, CashFlow, WeightsOf, SideFees, GoodBook, BenchmarkNav,
      BenchmarkReturn, Over, RebalanceAllowed, Owns, FeeSum, GoodMarket, Priced, NonNegativeHoldings;
    MarketSignals(kinds, m);
    MaybeRebalanceOk(book, kinds, m, sim);
    BenchmarkPositive(kinds, m, sim);
    var reb := MaybeRebalance(book, kinds, m, sim).value;
    var acc := reb.account;
    CashFlowConcat(sim.trades, acc.trades);
    OwnsIsWorth(kinds, m, acc.cash, acc.quantities, false);
    WorthNonNegative(kinds, m, acc.quantities, false);
    PointIsValid(kinds, m, first, sim, reb, acc.cash + Worth(acc.quantities, m.bars, false));
  }

  /** One session returns exactly when it is allowed, and keeps the portfolio solvent and its cash account exact. */
  lemma SessionOk(book: Book, kinds: Kinds, m: DayView, first: bool, sim: Sim)
    requires GoodBook(book) && GoodMarket(kinds, m) && Running(sim)
    ensures Session(book, kinds, m, first, sim) != Err(LedgerInvariant)
    ensures Session(book, kinds, m, first, sim).Ok? <==> SessionAllowed(book, kinds, m, sim)
    ensures Session(book, kinds, m, first, sim).Ok? ==> Advanced(m, sim, Session(book, kinds, m, first, sim).value)
  {
    MarketSignals(kinds, m);
    hide Session, Running, GoodMarket, GoodBook, SessionAllowed, Advanced;
    SessionReturns(book, kinds, m, first, sim);
    if Session(book, kinds, m, first, sim).Ok? {
      SessionAdvances(book, kinds, m, first, sim);
    }
  }

  // ---------------------------------------------------------------- days

  /** The state after the first n sessions. */
  ghost function Days(inp: Inputs, n: nat): Result<Sim>
    requires GoodBook(inp.book) && n <= |inp.calendar|
  {
    if n == 0 then Ok(Start(inp))
    else
      var sim :- Days(inp, n - 1);
      Session(inp.book, inp.kinds, MarketOn(inp, n - 1), n == 1, sim)
  }

  lemma ValidBookOf(inp: Inputs)
    requires ValidInputs(inp)
    ensures GoodBook(inp.book) && 0.0 < inp.initialNav
  {
  }

  /** Unfold the last session of a successful run. */
  lemma {:induction false} DaysAdvance(inp: Inputs, n: nat)
    requires ValidInputs(inp) && GoodBook(inp.book) && n <= |inp.calendar|
    ensures Days(inp, n) != Err(LedgerInvariant)
    ensures Days(inp, n).Ok? ==> Running(Days(inp, n).value)
    ensures Days(inp, n).Ok? && 0 < n ==> Days(inp, n - 1).Ok?
    ensures Days(inp, n).Ok? && 0 < n ==> Advanced(MarketOn(inp, n - 1), Days(inp, n - 1).value, Days(inp, n).value)
  {
    hide Session, ValidInputs, MarketOn, GoodBook;
    ValidBookOf(inp);
    if n != 0 {
      DaysAdvance(inp, n - 1);
      MarketIsGood(inp, n - 1);
      if Days(inp, n - 1).Ok? {
        SessionOk(inp.book, inp.kinds, MarketOn(inp, n - 1), n == 1, Days(inp, n - 1).value);
      }
    }
  }

  /** One valid point a day, solvency, and cash equal to initial value plus sales minus purchases minus fees. */
  ghost predicate AccountsOk(inp: Inputs, n: nat, sim: Sim)
    requires n <= |inp.calendar|
  {
    && |sim.points| == n
    && 0.0 <= sim.cash == inp.initialNav + CashFlow(sim.trades)
    && (forall a :: a in sim.holdings ==> 0.0 <= sim.holdings[a])
    && 0.0 < sim.nav <= sim.peak
    && (forall i :: 0 <= i < n ==> ValidPoint(sim.points[i]) && sim.points[i].day == inp.calendar[i])
  }

  lemma AccountsAdvance(inp: Inputs, n: nat, m: DayView, sim: Sim, t: Sim)
    requires n < |inp.calendar| && AccountsOk(inp, n, sim) && Advanced(m, sim, t) && m.day == inp.calendar[n]
    ensures AccountsOk(inp, n + 1, t)
  {
    hide ValidPoint, CashFlow, Over;
  }

  /** Over every run the accounts hold, and none of the code's internal assertions or constructors ever rejects. */
  lemma {:induction false} RunAccounts(inp: Inputs, n: nat)
    requires ValidInputs(inp) && GoodBook(inp.book) && n <= |inp.calendar|
    ensures Days(inp, n) != Err(LedgerInvariant)
    ensures Days(inp, n).Ok? ==> AccountsOk(inp, n, Days(inp, n).value)
  {
    hide Session, ValidInputs, Advanced, AccountsOk, GoodBook, Running, MarketOn;
    DaysAdvance(inp, n);
    if n == 0 {
      StartOk(inp);
    } else if Days(inp, n).Ok? {
      RunAccounts(inp, n - 1);
      MarketDay(inp, n - 1);
      AccountsAdvance(inp, n - 1, MarketOn(inp, n - 1), Days(inp, n - 1).value, Days(inp, n).value);
    }
  }

  lemma MarketDay(inp: Inputs, i: nat)
    requires i < |inp.calendar|
    ensures MarketOn(inp, i).day == inp.calendar[i]
  {
  }

  lemma StartOk(inp: Inputs)
    requires ValidInputs(inp)
    ensures AccountsOk(inp, 0, Start(inp)) && PeakOk(inp.initialNav, Start(inp), 0)
  {
    assert NavAt(inp.initialNav, Start(inp).points, 0) == inp.initialNav;
  }

  // ---------------------------------------------------------------- drawdown

  /** The value before the first session, then at each close. */
  function NavAt(initial: real, points: seq<Point>, i: nat): real
    requires i <= |points|
  {
    if i == 0 then initial else points[i - 1].nav
  }

  /** The share of the i-th value lost by the last close. */
  function LossSince(initial: real, points: seq<Point>, i: nat): real
    requires i <= |points|
  {
    1.0 - Over(NavAt(initial, points, |points|), NavAt(initial, points, i))
  }

  /** The running peak is the greatest value seen. */
  ghost predicate PeakOk(initial: real, sim: Sim, n: nat) {
    && |sim.points| == n && sim.nav == NavAt(initial, sim.points, n)
    && (forall i :: 0 <= i <= n ==> 0.0 < NavAt(initial, sim.points, i) <= sim.peak)
    && (exists i :: 0 <= i <= n && NavAt(initial, sim.points, i) == sim.peak)
  }

  lemma PeakAdvance(initial: real, m: DayView, sim: Sim, t: Sim, n: nat)
    requires PeakOk(initial, sim, n) && Advanced(m, sim, t)
    ensures PeakOk(initial, t, n + 1)
  {
    hide ValidPoint, Over, CashFlow;
    forall i | 0 <= i <= n
      ensures NavAt(initial, t.points, i) == NavAt(initial, sim.points, i)
    {
    }
    var k :| 0 <= k <= n && NavAt(initial, sim.points, k) == sim.peak;
    assert NavAt(initial, t.points, k) == sim.peak;
    assert NavAt(initial, t.points, n + 1) == t.nav;
  }

  lemma {:induction false} PeakMeaning(inp: Inputs, n: nat)
    requires ValidInputs(inp) && GoodBook(inp.book) && n <= |inp.calendar| && Days(inp, n).Ok?
    ensures PeakOk(inp.initialNav, Days(inp, n).value, n)
  {
    hide Session, ValidInputs, Advanced, MarketOn, PeakOk, Running, GoodBook;
    if n == 0 {
      StartOk(inp);
    } else {
      DaysAdvance(inp, n);
      PeakMeaning(inp, n - 1);
      PeakAdvance(inp.initialNav, MarketOn(inp, n - 1), Days(inp, n - 1).value, Days(inp, n).value, n - 1);
    }
  }

  lemma DrawdownFromPeak(initial: real, m: DayView, sim: Sim, t: Sim, n: nat)
    requires PeakOk(initial, sim, n) && Advanced(m, sim, t)
    ensures |t.points| == n + 1
    ensures forall i :: 0 <= i <= n + 1 ==> LossSince(initial, t.points, i) <= t.points[n].drawdown
    ensures exists i :: 0 <= i <= n + 1 && LossSince(initial, t.points, i) == t.points[n].drawdown
  {
    PeakAdvance(initial, m, sim, t, n);
    hide ValidPoint, Over, CashFlow;
    var k :| 0 <= k <= n + 1 && NavAt(initial, t.points, k) == t.peak;
    assert LossSince(initial, t.points, k) == t.points[n].drawdown;
    forall i | 0 <= i <= n + 1
      ensures LossSince(initial, t.points, i) <= t.points[n].drawdown
    {
      OverAntitone(t.nav, NavAt(initial, t.points, i), t.peak);
    }
  }

  /**
   * The one-pass drawdown is the quadratic one: the drawdown recorded on a day is the greatest loss from any earlier
   * (or equal) value to that day's close, and is attained.
   */
  lemma DrawdownIsMaximalLoss(inp: Inputs, n: nat)
    requires ValidInputs(inp) && GoodBook(inp.book) && 0 < n <= |inp.calendar| && Days(inp, n).Ok?
    ensures var points := Days(inp, n).value.points;
      && |points| == n
      && (forall i :: 0 <= i <= n ==> LossSince(inp.initialNav, points, i) <= points[n - 1].drawdown)
      && (exists i :: 0 <= i <= n && LossSince(inp.initialNav, points, i) == points[n - 1].drawdown)
  {
    hide Session, ValidInputs, Advanced, MarketOn, PeakOk, Running, GoodBook, LossSince;
    DaysAdvance(inp, n);
    PeakMeaning(inp, n - 1);
    DrawdownFromPeak(inp.initialNav, MarketOn(inp, n - 1), Days(inp, n - 1).value, Days(inp, n).value, n - 1);
  }

  /** And the reported maximum is the largest of them over all days. */
  function MaxDrawdown(points: seq<Point>): real {
    if points == [] then 0.0 else Max(MaxDrawdown(points[..|points| - 1]), points[|points| - 1].drawdown)
  }

  /** Loss from the i-th value to the j-th. */
  function Loss(initial: real, points: seq<Point>, i: nat, j: nat): real
    requires i <= |points| && j <= |points|
  {
    1.0 - Over(NavAt(initial, points, j), NavAt(initial, points, i))
  }

  lemma LossOfPrefix(initial: real, early: seq<Point>, points: seq<Point>, i: nat)
    requires early <= points && i <= |early|
    ensures LossSince(initial, early, i) == Loss(initial, points, i, |early|)
  {
    hide Over;
  }

  /** The loss recorded on day j bounds every loss to that day, and is one of them, in the final list of points too. */
  lemma RecordedLoss(inp: Inputs, n: nat, j: nat)
    requires ValidInputs(inp) && GoodBook(inp.book) && 0 < j <= n <= |inp.calendar| && Days(inp, n).Ok?
    ensures var points := Days(inp, n).value.points;
      && |points| == n
      && (forall i :: 0 <= i <= j ==> Loss(inp.initialNav, points, i, j) <= points[j - 1].drawdown)
      && (exists i :: 0 <= i <= j && Loss(inp.initialNav, points, i, j) == points[j - 1].drawdown)
  {
    hide Days, ValidInputs, GoodBook, LossSince, Loss, PeakOk;
    DaysExtend(inp, j, n);
    DrawdownIsMaximalLoss(inp, j);
    PeakMeaning(inp, n);
    PointCount(inp, n);
    var early, points := Days(inp, j).value.points, Days(inp, n).value.points;
    forall i | 0 <= i <= j
      ensures Loss(inp.initialNav, points, i, j) <= points[j - 1].drawdown
    {
      LossOfPrefix(inp.initialNav, early, points, i);
      assert early[j - 1] == points[j - 1];
    }
    var k :| 0 <= k <= j && LossSince(inp.initialNav, early, k) == early[j - 1].drawdown;
    LossOfPrefix(inp.initialNav, early, points, k);
  }

  lemma PointCount(inp: Inputs, n: nat)
    requires ValidInputs(inp) && GoodBook(inp.book) && n <= |inp.calendar| && Days(inp, n).Ok?
    ensures |Days(inp, n).value.points| == n
  {
    hide Days, ValidInputs;
    PeakMeaning(inp, n);
  }

  lemma {:induction false} MaxDrawdownBounds(points: seq<Point>)
    requires forall i :: 0 <= i < |points| ==> 0.0 <= points[i].drawdown
    ensures forall i :: 0 <= i < |points| ==> points[i].drawdown <= MaxDrawdown(points)
    ensures points != [] ==> exists i :: 0 <= i < |points| && points[i].drawdown == MaxDrawdown(points)
  {
    if points != [] {
      var n := |points| - 1;
      var front := points[..n];
      assert forall i :: 0 <= i < n ==> front[i] == points[i];
      MaxDrawdownBounds(front);
      if MaxDrawdown(points) == points[n].drawdown {
      } else if front != [] {
        var i :| 0 <= i < n && front[i].drawdown == MaxDrawdown(front);
        assert points[i].drawdown == MaxDrawdown(points);
      }
    }
  }

  /**
   * The reported maximum drawdown is the maximum, over all pairs of an earlier and a later value, of the share lost.
   */
  lemma MaxDrawdownQuadratic(inp: Inputs, n: nat)
    requires ValidInputs(inp) && GoodBook(inp.book) && 0 < n <= |inp.calendar| && Days(inp, n).Ok?
    ensures var points := Days(inp, n).value.points;
      && |points| == n
      && (forall i, j :: 0 <= i <= j <= n && 0 < j ==> Loss(inp.initialNav, points, i, j) <= MaxDrawdown(points))
      && (exists i, j :: 0 <= i <= j <= n && Loss(inp.initialNav, points, i, j) == MaxDrawdown(points))
  {
    hide Days, ValidInputs, GoodBook, Loss;
    PointCount(inp, n);
    var points := Days(inp, n).value.points;
    forall j | 0 <= j < n ensures 0.0 <= points[j].drawdown {
      RecordedLoss(inp, n, j + 1);
      LossOfSame(inp, n, j + 1);
    }
    MaxDrawdownBounds(points);
    forall i, j | 0 <= i <= j <= n && 0 < j
      ensures Loss(inp.initialNav, points, i, j) <= MaxDrawdown(points)
    {
      RecordedLoss(inp, n, j);
    }
    var d :| 0 <= d < n && points[d].drawdown == MaxDrawdown(points);
    RecordedLoss(inp, n, d + 1);
    var i :| 0 <= i <= d + 1 && Loss(inp.initialNav, points, i, d + 1) == points[d].drawdown;
  }

  lemma LossOfSame(inp: Inputs, n: nat, j: nat)
    requires ValidInputs(inp) && GoodBook(inp.book) && j <= n <= |inp.calendar| && Days(inp, n).Ok?
    ensures |Days(inp, n).value.points| == n && Loss(inp.initialNav, Days(inp, n).value.points, j, j) == 0.0
  {
    hide Days, ValidInputs, GoodBook;
    PeakMeaning(inp, n);
    var v := NavAt(inp.initialNav, Days(inp, n).value.points, j);
    OverBounds(v, v);
  }

  // ---------------------------------------------------------------- no lookahead

  /**
   * Two inputs agree on the bars and benchmarks of the first n sessions, on the types of the instruments priced there,
   * and on the signals dated before the last of them. Types known only from later rows or signals may differ.
   */
  ghost predicate AgreeThrough(a: Inputs, b: Inputs, n: nat) {
    && n <= |a.calendar| && n <= |b.calendar| && a.calendar[..n] == b.calendar[..n]
    && a.initialNav == b.initialNav && a.book == b.book
    && (forall i, x: Asset :: 0 <= i < n && (x, a.calendar[i]) in a.bars ==> KindOf(a.kinds, x) == KindOf(b.kinds, x))
    && (forall i, x: Asset :: 0 <= i < n ==>
          ((x, a.calendar[i]) in a.bars <==> (x, a.calendar[i]) in b.bars)
          && ((x, a.calendar[i]) in a.bars ==> a.bars[(x, a.calendar[i])] == b.bars[(x, a.calendar[i])]))
    && (forall i :: 0 <= i < n && a.calendar[i] in a.benchmark && a.calendar[i] in b.benchmark ==>
          a.benchmark[a.calendar[i]] == b.benchmark[a.calendar[i]])
    && (forall i :: 0 <= i < n - 1 ==>
          (a.calendar[i] in a.batches <==> a.calendar[i] in b.batches)
          && (a.calendar[i] in a.batches ==> a.batches[a.calendar[i]] == b.batches[a.calendar[i]]))
  }

  lemma SameMarket(a: Inputs, b: Inputs, n: nat, i: nat)
    requires ValidInputs(a) && ValidInputs(b) && AgreeThrough(a, b, n) && i < n
    ensures MarketOn(a, i) == MarketOn(b, i) && SameKinds(a.kinds, b.kinds, MarketOn(a, i))
  {
    hide GoodBook, KindOf;
    assert a.calendar[i] == a.calendar[..n][i] == b.calendar[..n][i] == b.calendar[i];
    if i != 0 {
      assert a.calendar[i - 1] == a.calendar[..n][i - 1] == b.calendar[..n][i - 1] == b.calendar[i - 1];
    }
  }

  lemma {:induction false} SameDays(a: Inputs, b: Inputs, n: nat, k: nat)
    requires ValidInputs(a) && ValidInputs(b) && AgreeThrough(a, b, n) && k <= n && GoodBook(a.book) && GoodBook(b.book)
    ensures Days(a, k) == Days(b, k)
  {
    hide Session, MarketOn, ValidInputs, AgreeThrough, GoodBook, SameKinds;
    AgreeSetup(a, b, n);
    if k != 0 {
      SameDays(a, b, n, k - 1);
      SameMarket(a, b, n, k - 1);
      SignalBeforeTargets(a, k - 1);
      if Days(a, k - 1).Ok? {
        SessionSameKinds(a.book, a.kinds, b.kinds, MarketOn(a, k - 1), k == 1, Days(a, k - 1).value);
      }
    }
  }

  lemma SignalBeforeTargets(inp: Inputs, i: nat)
    requires i < |inp.calendar|
    ensures MarketOn(inp, i).targets.Some? ==> MarketOn(inp, i).signalDate.Some?
  {
  }

  lemma AgreeSetup(a: Inputs, b: Inputs, n: nat)
    requires AgreeThrough(a, b, n)
    ensures n <= |a.calendar| && n <= |b.calendar|
    ensures a.initialNav == b.initialNav && a.book == b.book
  {
  }

  lemma AdvancedExtends(m: DayView, sim: Sim, t: Sim)
    requires Advanced(m, sim, t)
    ensures sim.points <= t.points && sim.trades <= t.trades
  {
    hide ValidPoint, CashFlow;
  }

  lemma {:induction false} DaysExtend(inp: Inputs, k: nat, n: nat)
    requires ValidInputs(inp) && GoodBook(inp.book) && k <= n <= |inp.calendar| && Days(inp, n).Ok?
    ensures Days(inp, k).Ok?
    ensures Days(inp, k).value.points <= Days(inp, n).value.points
    ensures Days(inp, k).value.trades <= Days(inp, n).value.trades
    decreases n - k
  {
    hide Session, ValidInputs, MarketOn, Running, GoodBook, Advanced;
    if k < n {
      DaysAdvance(inp, n);
      DaysExtend(inp, k, n - 1);
      AdvancedExtends(MarketOn(inp, n - 1), Days(inp, n - 1).value, Days(inp, n).value);
    }
  }

  /**
   * No lookahead: when two whole simulations return and their inputs agree through session n, their first n points are
   * equal and so are the trades those sessions made, whatever prices, benchmarks and signals come later.
   */
  lemma NoLookahead(a: Inputs, b: Inputs, n: nat)
    requires ValidInputs(a) && ValidInputs(b) && AgreeThrough(a, b, n) && GoodBook(a.book) && GoodBook(b.book)
    requires Days(a, |a.calendar|).Ok? && Days(b, |b.calendar|).Ok?
    ensures n <= |a.calendar| && Days(a, n).Ok?
    ensures var early, pa, pb := Days(a, n).value, Days(a, |a.calendar|).value, Days(b, |b.calendar|).value;
      && |early.points| == n
      && early.points <= pa.points && early.points <= pb.points
      && early.trades <= pa.trades && early.trades <= pb.trades
  {
    hide Days, AgreeThrough, ValidInputs, GoodBook, ValidPoint, CashFlow;
    AgreeSetup(a, b, n);
    DaysExtend(a, n, |a.calendar|);
    DaysExtend(b, n, |b.calendar|);
    SameDays(a, b, n, n);
    RunAccounts(a, n);
  }
}
