/** The benchmark a simulation reports is the benchmark's own growth, whatever path it took. */
module Benchmark {
  import opened Outcomes
  import opened Sums
  import opened BuyScale
  import opened Simulator
  import opened Simulation

  lemma SessionBenchmark(book: Book, kinds: Kinds, m: DayView, first: bool, sim: Sim)
    requires GoodBook(book) && (m.targets.Some? ==> m.signalDate.Some?) && Session(book, kinds, m, first, sim).Ok?
    ensures var t := Session(book, kinds, m, first, sim).value;
      && t.benchmarkNav == BenchmarkNav(m, sim) && t.previousClose == Some(m.benchmarkClose)
      && t.points != [] && t.points[|t.points| - 1].benchmarkNav == t.benchmarkNav
      && t.points[|t.points| - 1].benchmarkReturn == BenchmarkReturn(m, sim)
  {
    hide Rebalance, Worth, Priced, ValidPoint, BenchmarkNav, BenchmarkReturn, WeightsOf, SortedAssets, SideFees, Over;
  }

  lemma QuotientIs(a: real, b: real)
    requires 0.0 < b
    ensures (1.0 + (Over(a, b) - 1.0)) * b == a
  {
  }

  lemma GrowthStep(nav: real, previous: real, close: real, first: real, initial: real)
    requires 0.0 < previous && Times(nav, first) == Times(initial, previous)
    ensures Times(Times(1.0 + (Over(close, previous) - 1.0), nav), first) == Times(initial, close)
  {
    var growth := close / previous;
    assert growth * previous == close;
    assert growth * nav * first == growth * (nav * first);
    assert growth * (initial * previous) == initial * (growth * previous);
  }

  /** Chained daily returns telescope: benchmark value over initial value is last close over first close. */
  lemma {:induction false} BenchmarkTelescopes(inp: Inputs, n: nat)
    requires ValidInputs(inp) && GoodBook(inp.book) && 0 < n <= |inp.calendar| && Days(inp, n).Ok?
    requires inp.calendar[0] in inp.benchmark && inp.calendar[n - 1] in inp.benchmark
    ensures var sim := Days(inp, n).value;
      && Times(sim.benchmarkNav, inp.benchmark[inp.calendar[0]])
        == Times(inp.initialNav, inp.benchmark[inp.calendar[n - 1]])
      && sim.previousClose == Some(inp.benchmark[inp.calendar[n - 1]])
      && sim.points != [] && sim.points[|sim.points| - 1].benchmarkNav == sim.benchmarkNav
  {
    hide Session, Times, Over, Running, Advanced;
    DaysAdvance(inp, n);
    MarketIsGood(inp, n - 1);
    var m := MarketOn(inp, n - 1);
    var before := Days(inp, n - 1).value;
    SessionBenchmark(inp.book, inp.kinds, m, n == 1, before);
    if 1 < n {
      BenchmarkTelescopes(inp, n - 1);
      GrowthStep(before.benchmarkNav, before.previousClose.value, m.benchmarkClose, inp.benchmark[inp.calendar[0]],
        inp.initialNav);
    }
  }

  /** The benchmark return of a day is the growth of its close since the day before. */
  lemma BenchmarkDaily(inp: Inputs, n: nat)
    requires ValidInputs(inp) && GoodBook(inp.book) && 0 < n <= |inp.calendar| && Days(inp, n).Ok?
    requires inp.calendar[0] in inp.benchmark && inp.calendar[n - 1] in inp.benchmark
    requires 1 < n ==> inp.calendar[n - 2] in inp.benchmark
    ensures var points := Days(inp, n).value.points;
      points != [] && points[|points| - 1].day == inp.calendar[n - 1]
    ensures var r := Days(inp, n).value.points[|Days(inp, n).value.points| - 1].benchmarkReturn;
      if n == 1 then r == 0.0
      else (1.0 + r) * inp.benchmark[inp.calendar[n - 2]] == inp.benchmark[inp.calendar[n - 1]]
  {
    hide Session, Times, Over, Running, Advanced, AccountsOk, Days, ValidInputs, GoodBook, GoodMarket;
    DaysAdvance(inp, n);
    RunAccounts(inp, n);
    LastDay(inp, n, Days(inp, n).value);
    MarketIsGood(inp, n - 1);
    SignalBeforeTargets(inp, n - 1);
    var m, before := MarketOn(inp, n - 1), Days(inp, n - 1).value;
    DaysStep(inp, n);
    SessionBenchmark(inp.book, inp.kinds, m, n == 1, before);
    if 1 < n {
      BenchmarkTelescopes(inp, n - 1);
      PositiveClose(inp, n - 2);
      QuotientIs(m.benchmarkClose, before.previousClose.value);
    }
  }

  lemma PositiveClose(inp: Inputs, i: nat)
    requires ValidInputs(inp) && i < |inp.calendar|
    ensures inp.calendar[i] in inp.benchmark && 0.0 < inp.benchmark[inp.calendar[i]]
  {
  }

  lemma DaysStep(inp: Inputs, n: nat)
    requires GoodBook(inp.book) && 0 < n <= |inp.calendar| && Days(inp, n).Ok?
    ensures Days(inp, n - 1).Ok?
    ensures Session(inp.book, inp.kinds, MarketOn(inp, n - 1), n == 1, Days(inp, n - 1).value) == Days(inp, n)
    ensures n == 1 ==> Days(inp, 0) == Ok(Start(inp))
  {
    hide Session, MarketOn, Start;
  }

  lemma LastDay(inp: Inputs, n: nat, sim: Sim)
    requires 0 < n <= |inp.calendar| && AccountsOk(inp, n, sim)
    ensures |sim.points| == n && sim.points[n - 1].day == inp.calendar[n - 1]
  {
    hide ValidPoint, CashFlow;
  }
}
