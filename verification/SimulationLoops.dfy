/** The simulator's loops, each proved to compute the function that specifies it. */
module SimulationLoops {
  import opened Outcomes
  import opened Sums
  import opened BuyScale
  import opened Simulator
  import opened Simulation

  lemma MarksRemove(quantities: map<Asset, real>, bars: map<Asset, Bar>, atOpen: bool, a: Asset)
    requires a in quantities
    ensures Worth(quantities, bars, atOpen)
      == Times(quantities[a], PriceOf(bars, a, atOpen)) + Worth(quantities - {a}, bars, atOpen)
  {
    hide Times, PriceOf;
    TotalRemove(Marks(quantities, bars, atOpen), Itself(), a);
    assert Marks(quantities, bars, atOpen) - {a} == Marks(quantities - {a}, bars, atOpen);
  }

  method PortfolioValue(cash: real, quantities: map<Asset, real>, bars: map<Asset, Bar>,
      atOpen: bool) returns (r: Result<real>)
    ensures r == if Priced(quantities, bars) then Ok(cash + Worth(quantities, bars, atOpen)) else Err(InvalidInput)
  {
    hide Worth;
    var value := cash;
    var rest := quantities;
    while rest != map[]
      invariant forall a :: a in rest ==> a in quantities && rest[a] == quantities[a]
      invariant forall a :: a in quantities && a !in rest ==> a in bars
      invariant value + Worth(rest, bars, atOpen) == cash + Worth(quantities, bars, atOpen)
      decreases |rest|
    {
      var a :| a in rest;
      if a !in bars {
        return Err(InvalidInput);
      }
      MarksRemove(rest, bars, atOpen, a);
      value := value + Times(rest[a], PriceOf(bars, a, atOpen));
      rest := rest - {a};
    }
    WorthOfNothing(bars, atOpen);
    return Ok(value);
  }

  lemma WorthOfNothing(bars: map<Asset, Bar>, atOpen: bool)
    ensures Worth(map[], bars, atOpen) == 0.0
  {
  }

  lemma JoinAssociates(p: Plan, q: Plan, r: Plan)
    ensures Join(Join(p, q), r) == Join(p, Join(q, r))
    ensures Join(Plan([], []), p) == p && Join(p, Plan([], [])) == p
  {
    assert p.sells + q.sells + r.sells == p.sells + (q.sells + r.sells);
    assert p.buys + q.buys + r.buys == p.buys + (q.buys + r.buys);
    assert [] + p.sells == p.sells && [] + p.buys == p.buys && p.sells + [] == p.sells && p.buys + [] == p.buys;
  }

  /** Classify every held or targeted instrument, in id order, as a sale, a purchase, or nothing to do. */
  method PlanTrades(kinds: Kinds, m: DayView, holdings: map<Asset, real>, targets: map<Asset, real>, pretrade: real,
      ids: seq<Asset>)
    returns (r: Result<Plan>)
    ensures r == MakePlan(kinds, m, holdings, targets, pretrade, ids)
  {
    hide Classify, Join;
    var plan := Plan([], []);
    ghost var whole := MakePlan(kinds, m, holdings, targets, pretrade, ids);
    assert ids[0..] == ids;
    assert whole.Ok? ==> Join(plan, whole.value) == whole.value by {
      if whole.Ok? { JoinAssociates(whole.value, plan, plan); }
    }
    for i := 0 to |ids|
      invariant whole ==
        var rest := MakePlan(kinds, m, holdings, targets, pretrade, ids[i..]);
        if rest.Err? then rest else Ok(Join(plan, rest.value))
    {
      assert ids[i..][0] == ids[i] && ids[i..][1..] == ids[i + 1..];
      if ids[i] !in m.bars {
        return Err(InvalidInput);
      }
      var one := Classify(kinds, m, holdings, targets, pretrade, ids[i]);
      ghost var rest := MakePlan(kinds, m, holdings, targets, pretrade, ids[i + 1..]);
      if rest.Ok? {
        JoinAssociates(plan, one, rest.value);
      }
      plan := Join(plan, one);
    }
    JoinAssociates(plan, plan, plan);
    return Ok(plan);
  }

  method SellLegs(book: Book, kinds: Kinds, m: DayView, sells: seq<Leg>, opening: Account) returns (r: Result<Account>)
    requires GoodBook(book) && m.signalDate.Some?
    ensures r == SellAll(book, kinds, m, sells, opening)
  {
    hide SellOne;
    var acc := opening;
    assert sells[0..] == sells;
    for i := 0 to |sells|
      invariant SellAll(book, kinds, m, sells, opening) == SellAll(book, kinds, m, sells[i..], acc)
    {
      assert sells[i..][0] == sells[i] && sells[i..][1..] == sells[i + 1..];
      var next := SellOne(book, kinds, m, sells[i], acc);
      if next.Err? {
        return next;
      }
      acc := next.value;
    }
    return Ok(acc);
  }

  method BuyPurchases(book: Book, kinds: Kinds, m: DayView, buys: seq<Purchase>, scale: real,
      opening: Account) returns (r: Result<Account>)
    requires GoodBook(book) && m.signalDate.Some?
    ensures r == BuyAll(book, kinds, m, buys, scale, opening)
  {
    hide BuyOne;
    var acc := opening;
    assert buys[0..] == buys;
    for i := 0 to |buys|
      invariant BuyAll(book, kinds, m, buys, scale, opening) == BuyAll(book, kinds, m, buys[i..], scale, acc)
    {
      assert buys[i..][0] == buys[i] && buys[i..][1..] == buys[i + 1..];
      var next := BuyOne(book, kinds, m, buys[i], scale, acc);
      if next.Err? {
        return next;
      }
      acc := next.value;
    }
    return Ok(acc);
  }

  method RebalanceDay(book: Book, kinds: Kinds, m: DayView, holdings: map<Asset, real>,
      cash: real) returns (r: Result<Rebalanced>)
    requires GoodBook(book) && m.signalDate.Some? && m.targets.Some?
    ensures r == Rebalance(book, kinds, m, holdings, cash)
  {
    hide Worth, MakePlan, SellAll, BuyAll, Scale, SortedAssets, FeeSum, NotionalSum, Over;
    var pretrade := PortfolioValue(cash, holdings, m.bars, true);
    if pretrade.Err? {
      return Err(pretrade.error);
    }
    if pretrade.value <= 0.0 {
      return Err(InvalidInput);
    }
    var ids := SortedAssets(holdings.Keys + m.targets.value.Keys);
    var plan := PlanTrades(kinds, m, holdings, m.targets.value, pretrade.value, ids);
    if plan.Err? {
      return Err(plan.error);
    }
    var sold := SellLegs(book, kinds, m, plan.value.sells, Account(cash, holdings, []));
    if sold.Err? {
      return Err(sold.error);
    }
    if sold.value.cash < 0.0 {
      return Err(InvalidInput);
    }
    var scale := AffordableBuyScale(book, m.day, plan.value.buys, sold.value.cash);
    if scale.Err? {
      return Err(scale.error);
    }
    if plan.value.buys != [] && scale.value == 0.0 {
      return Err(InvalidInput);
    }
    var bought := BuyPurchases(book, kinds, m, plan.value.buys, scale.value, sold.value);
    if bought.Err? {
      return Err(bought.error);
    }
    var acc := bought.value;
    if acc.cash < 0.0 {
      return Err(LedgerInvariant);
    }
    var posttrade := PortfolioValue(acc.cash, acc.quantities, m.bars, true);
    if posttrade.Err? {
      return Err(posttrade.error);
    }
    if posttrade.value != pretrade.value - FeeSum(acc.trades) {
      return Err(LedgerInvariant);
    }
    return Ok(Rebalanced(acc, Over(NotionalSum(acc.trades), pretrade.value)));
  }

  method SimulateDay(book: Book, kinds: Kinds, m: DayView, first: bool, sim: Sim) returns (r: Result<Sim>)
    requires GoodBook(book) && (m.targets.Some? ==> m.signalDate.Some?)
    ensures r == Session(book, kinds, m, first, sim)
  {
    hide Worth, Rebalance, ValidPoint, MakePoint, BenchmarkNav;
    var reb := Ok(Rebalanced(Account(sim.cash, sim.holdings, []), 0.0));
    if m.targets.Some? {
      reb := RebalanceDay(book, kinds, m, sim.holdings, sim.cash);
      if reb.Err? {
        return Err(reb.error);
      }
    }
    var acc := reb.value.account;
    var nav := PortfolioValue(acc.cash, acc.quantities, m.bars, false);
    if nav.Err? {
      return Err(nav.error);
    }
    if nav.value <= 0.0 {
      return Err(InvalidInput);
    }
    var point := MakePoint(m, first, sim, reb.value, nav.value);
    if !ValidPoint(point) {
      return Err(LedgerInvariant);
    }
    return Ok(Sim(acc.cash, acc.quantities, nav.value, Max(sim.peak, nav.value), BenchmarkNav(m, sim),
      Some(m.benchmarkClose),
      sim.points + [point], sim.trades + acc.trades));
  }

  lemma {:induction false} DaysErrorPersists(inp: Inputs, k: nat, n: nat)
    requires GoodBook(inp.book) && k <= n <= |inp.calendar| && Days(inp, k).Err?
    ensures Days(inp, n) == Days(inp, k)
    decreases n - k
  {
    hide Session;
    if k < n {
      DaysErrorPersists(inp, k, n - 1);
    }
  }

  /**
   * The whole simulation. It returns the points and trades of the last session, or the first session's refusal; and
   * whatever it returns keeps the accounts.
   */
  method Simulate(inp: Inputs) returns (r: Result<(seq<Point>, seq<VectorTrade>)>)
    requires ValidInputs(inp) && GoodBook(inp.book)
    ensures match Days(inp, |inp.calendar|)
      case Ok(sim) => r == Ok((sim.points, sim.trades)) && AccountsOk(inp, |inp.calendar|, sim)
      case Err(e) => r == Err(e) && e != LedgerInvariant
  {
    hide Session, ValidInputs, MarketOn, AccountsOk, GoodBook;
    RunAccounts(inp, |inp.calendar|);
    var sim := Start(inp);
    for i := 0 to |inp.calendar|
      invariant Days(inp, i) == Ok(sim)
    {
      var m := MarketOn(inp, i);
      assert m.targets.Some? ==> m.signalDate.Some? by { SignalBeforeTargets(inp, i); }
      var next := SimulateDay(inp.book, inp.kinds, m, i == 0, sim);
      if next.Err? {
        DaysErrorPersists(inp, i + 1, |inp.calendar|);
        return Err(next.error);
      }
      sim := next.value;
    }
    return Ok((sim.points, sim.trades));
  }
}
