/**
 * The daily research portfolio: one rebalance, one session, and a whole simulation, as functions and as the loops that
 * compute them.
 */
module Simulator {
  import opened Outcomes
  import opened Sums
  import opened Contracts
  import opened FeeRules
  import opened BuyScale

  datatype Bar = Bar(open: real, close: real)

  /** Everything one session can see: its own bars and benchmark close, and the batch of the session before it. */
  datatype DayView = DayView(
    day: Day, bars: map<Asset, Bar>, benchmarkClose: real, signalDate: Option<Day>, targets: Option<map<Asset, real>>)

  type Kinds = map<Asset, InstrumentType>

  ghost predicate GoodMarket(kinds: Kinds, m: DayView) {
    && (forall a :: a in m.bars ==> a in kinds && 0.0 < m.bars[a].open && 0.0 < m.bars[a].close)
    && 0.0 < m.benchmarkClose
    && (m.targets.Some? ==> m.signalDate.Some? && m.signalDate.value < m.day)
    && (m.targets.Some? ==> forall a :: a in m.targets.value ==> 0.0 <= m.targets.value[a] <= 1.0)
  }

  // ---------------------------------------------------------------- sorted ids

  predicate Least(s: set<Asset>, a: Asset) {
    a in s && forall b :: b in s ==> a <= b
  }

  lemma {:induction false} LeastExists(s: set<Asset>)
    requires s != {}
    ensures exists a :: Least(s, a)
  {
    var a :| a in s;
    if s == {a} {
      assert Least(s, a);
    } else {
      LeastExists(s - {a});
      var c :| Least(s - {a}, c);
      var least := if a <= c then a else c;
      forall b | b in s ensures least <= b {
        assert b != a ==> b in s - {a};
      }
      assert Least(s, least);
    }
  }

  /** `sorted(s)`. */
  function SortedAssets(s: set<Asset>): seq<Asset>
    decreases |s|
  {
    if s == {} then []
    else
      LeastExists(s);
      var a :| Least(s, a);
      [a] + SortedAssets(s - {a})
  }

  predicate Ascending(ids: seq<Asset>) {
    forall i, j :: 0 <= i < j < |ids| ==> ids[i] < ids[j]
  }

  lemma AscendingCons(a: Asset, rest: seq<Asset>)
    requires Ascending(rest) && forall b :: b in rest ==> a < b
    ensures Ascending([a] + rest)
  {
    forall j | 0 <= j < |rest| ensures a < rest[j] {
      assert rest[j] in rest;
    }
  }

  /** Each element exactly once, in ascending order. */
  lemma {:induction false} SortedMeaning(s: set<Asset>)
    ensures forall a :: a in SortedAssets(s) <==> a in s
    ensures Ascending(SortedAssets(s))
    decreases |s|
  {
    hide Ascending;
    if s == {} {
      assert Ascending([]) by { EmptyAscends(); }
    } else {
      LeastExists(s);
      var a :| Least(s, a) && SortedAssets(s) == [a] + SortedAssets(s - {a});
      SortedMeaning(s - {a});
      AscendingCons(a, SortedAssets(s - {a}));
    }
  }

  lemma EmptyAscends()
    ensures Ascending([])
  {
  }

  // ---------------------------------------------------------------- values

  function PriceOf(bars: map<Asset, Bar>, a: Asset, atOpen: bool): real {
    if a !in bars then 0.0 else if atOpen then bars[a].open else bars[a].close
  }

  ghost function Marks(quantities: map<Asset, real>, bars: map<Asset, Bar>, atOpen: bool): map<Asset, real> {
    map a | a in quantities :: Times(quantities[a], PriceOf(bars, a, atOpen))
  }

  ghost function Itself(): real -> real {
    (x: real) => x
  }

  /** The market value of the holdings at the session's open or close. */
  ghost function Worth(quantities: map<Asset, real>, bars: map<Asset, Bar>, atOpen: bool): real {
    Total(Marks(quantities, bars, atOpen), Itself())
  }

  predicate Priced(quantities: map<Asset, real>, bars: map<Asset, Bar>) {
    quantities.Keys <= bars.Keys
  }

  // ---------------------------------------------------------------- trades

  datatype VectorTrade = VectorTrade(
    signalDate: Day, day: Day, asset: Asset, kind: InstrumentType, side: Side, price: real, notional: real,
      fee: FeeBreakdown)

  predicate ValidTrade(t: VectorTrade) {
    t.signalDate < t.day && 0.0 < t.price && 0.0 < t.notional && ValidBreakdown(t.fee)
  }

  function KindOf(kinds: Kinds, a: Asset): InstrumentType {
    if a in kinds then kinds[a] else Stock
  }

  function MakeTrade(book: Book, kinds: Kinds, signalDate: Day, day: Day, a: Asset, side: Side, price: real,
      notional: real): Result<VectorTrade>
    requires GoodBook(book)
  {
    var fee := TradeFee(book, KindOf(kinds, a), side, day, notional);
    if fee.Err? then Err(fee.error)
    else
      var t := VectorTrade(signalDate, day, a, KindOf(kinds, a), side, price, notional, fee.value);
      if ValidTrade(t) then Ok(t) else Err(InvalidInput)
  }

  function FeeSum(trades: seq<VectorTrade>): real {
    if trades == [] then 0.0 else FeeSum(trades[..|trades| - 1]) + trades[|trades| - 1].fee.total
  }

  function SideFees(trades: seq<VectorTrade>, side: Side): real {
    if trades == [] then 0.0
    else
      var t := trades[|trades| - 1];
      SideFees(trades[..|trades| - 1], side) + (if t.side == side then t.fee.total else 0.0)
  }

  function NotionalSum(trades: seq<VectorTrade>): real {
    if trades == [] then 0.0 else NotionalSum(trades[..|trades| - 1]) + trades[|trades| - 1].notional
  }

  function CashOf(t: VectorTrade): real {
    (if t.side == Sell then t.notional else -t.notional) - t.fee.total
  }

  /** Sales in, purchases and fees out. */
  function CashFlow(trades: seq<VectorTrade>): real {
    if trades == [] then 0.0 else CashFlow(trades[..|trades| - 1]) + CashOf(trades[|trades| - 1])
  }

  // ---------------------------------------------------------------- planning

  /** A planned sale down to `quantity`. */
  datatype Leg = Leg(asset: Asset, price: real, notional: real, quantity: real)
  datatype Plan = Plan(sells: seq<Leg>, buys: seq<Purchase>)

  function HeldOf(quantities: map<Asset, real>, a: Asset): real {
    if a in quantities then quantities[a] else 0.0
  }

  function Join(p: Plan, q: Plan): Plan {
    Plan(p.sells + q.sells, p.buys + q.buys)
  }

  /** What one instrument needs at the open: a sale, a purchase, or nothing. */
  function Classify(kinds: Kinds, m: DayView, holdings: map<Asset, real>, targets: map<Asset, real>, pretrade: real,
      a: Asset): Plan
  {
    var price := PriceOf(m.bars, a, true);
    var current := HeldOf(holdings, a);
    var desired := Times(pretrade, HeldOf(targets, a));
    var quantity := if desired > 0.0 then Over(desired, price) else 0.0;
    var delta := desired - Times(current, price);
    if delta < 0.0 then Plan([Leg(a, price, -delta, quantity)], [])
    else if delta > 0.0 then Plan([], [Purchase(a, KindOf(kinds, a), price, delta, current)])
    else Plan([], [])
  }

  function MakePlan(kinds: Kinds, m: DayView, holdings: map<Asset, real>, targets: map<Asset, real>, pretrade: real,
      ids: seq<Asset>): Result<Plan>
  {
    if ids == [] then Ok(Plan([], []))
    else if ids[0] !in m.bars then Err(InvalidInput)
    else
      var rest :- MakePlan(kinds, m, holdings, targets, pretrade, ids[1..]);
      Ok(Join(Classify(kinds, m, holdings, targets, pretrade, ids[0]), rest))
  }

  datatype Account = Account(cash: real, quantities: map<Asset, real>, trades: seq<VectorTrade>)

  function SellOne(book: Book, kinds: Kinds, m: DayView, leg: Leg, acc: Account): Result<Account>
    requires GoodBook(book) && m.signalDate.Some?
  {
    var t := MakeTrade(book, kinds, m.signalDate.value, m.day, leg.asset, Sell, leg.price, leg.notional);
    if t.Err? then Err(t.error)
    else Ok(Account(acc.cash + (t.value.notional - t.value.fee.total),
      acc.quantities[leg.asset := leg.quantity], acc.trades + [t.value]))
  }

  function SellAll(book: Book, kinds: Kinds, m: DayView, sells: seq<Leg>, acc: Account): Result<Account>
    requires GoodBook(book) && m.signalDate.Some?
    decreases |sells|
  {
    if sells == [] then Ok(acc)
    else
      var next :- SellOne(book, kinds, m, sells[0], acc);
      SellAll(book, kinds, m, sells[1..], next)
  }

  /** One purchase at the common scale; the clamp to remaining cash is the code's last line of defence. */
  function BuyOne(book: Book, kinds: Kinds, m: DayView, b: Purchase, scale: real, acc: Account): Result<Account>
    requires GoodBook(book) && m.signalDate.Some?
  {
    var actual := Times(scale, b.desired);
    if actual == 0.0 then Ok(acc)
    else if b.price == 0.0 then Err(InvalidInput)
    else
      var t :- MakeTrade(book, kinds, m.signalDate.value, m.day, b.asset, Buy, b.price, actual);
      var most := acc.cash - t.fee.total;
      if t.notional <= most then Ok(Purchased(b, t, acc))
      else if most <= 0.0 then Err(InvalidInput)
      else
        var clamped :- MakeTrade(book, kinds, m.signalDate.value, m.day, b.asset, Buy, b.price, most);
        Ok(Purchased(b, clamped, acc))
  }

  function Purchased(b: Purchase, t: VectorTrade, acc: Account): Account
    requires b.price != 0.0
  {
    Account(acc.cash - (t.notional + t.fee.total),
      acc.quantities[b.asset := b.current + t.notional / b.price], acc.trades + [t])
  }

  function BuyAll(book: Book, kinds: Kinds, m: DayView, buys: seq<Purchase>, scale: real, acc: Account): Result<Account>
    requires GoodBook(book) && m.signalDate.Some?
    decreases |buys|
  {
    if buys == [] then Ok(acc)
    else
      var next :- BuyOne(book, kinds, m, buys[0], scale, acc);
      BuyAll(book, kinds, m, buys[1..], scale, next)
  }

  datatype Rebalanced = Rebalanced(account: Account, turnover: real)

  /**
   * Sell first, scale purchases to what cash then allows, and re-check conservation; assertion failures are
   * LedgerInvariant.
   */
  ghost function Rebalance(book: Book, kinds: Kinds, m: DayView, holdings: map<Asset, real>,
      cash: real): Result<Rebalanced>
    requires GoodBook(book) && m.signalDate.Some? && m.targets.Some?
  {
    if !Priced(holdings, m.bars) then Err(InvalidInput)
    else
      var pretrade := cash + Worth(holdings, m.bars, true);
      :- Need(0.0 < pretrade, InvalidInput);
      var plan :- MakePlan(kinds, m, holdings, m.targets.value, pretrade,
        SortedAssets(holdings.Keys + m.targets.value.Keys));
      var sold :- SellAll(book, kinds, m, plan.sells, Account(cash, holdings, []));
      :- Need(0.0 <= sold.cash, InvalidInput);
      var scale :- Scale(book, m.day, plan.buys, sold.cash);
      :- Need(!(plan.buys != [] && scale == 0.0), InvalidInput);
      var done :- BuyAll(book, kinds, m, plan.buys, scale, sold);
      :- Need(0.0 <= done.cash, LedgerInvariant);
      :- Need(Priced(done.quantities, m.bars), InvalidInput);
      :- Need(done.cash + Worth(done.quantities, m.bars, true) == pretrade - FeeSum(done.trades), LedgerInvariant);
      Ok(Rebalanced(done, Over(NotionalSum(done.trades), pretrade)))
  }

  // ---------------------------------------------------------------- sessions

  datatype Point = Point(
    day: Day, nav: real, benchmarkNav: real, dailyReturn: real, benchmarkReturn: real, excess: real, drawdown: real,
    turnover: real, buyFees: real, sellFees: real, totalFees: real, cash: real, cashWeight: real,
    weights: seq<(Asset, real)>, executed: Option<Day>)

  predicate ValidPoint(p: Point) {
    && 0.0 < p.nav && 0.0 < p.benchmarkNav && 0.0 <= p.drawdown < 1.0 && 0.0 <= p.turnover
    && 0.0 <= p.cash && 0.0 <= p.cashWeight <= 1.0
    && 0.0 <= p.buyFees && 0.0 <= p.sellFees && 0.0 <= p.totalFees && p.buyFees + p.sellFees == p.totalFees
    && (forall i :: 0 <= i < |p.weights| ==> 0.0 <= p.weights[i].1)
    && (forall i, j :: 0 <= i < j < |p.weights| ==> p.weights[i].0 <= p.weights[j].0)
    && (p.executed.Some? ==> p.executed.value < p.day)
  }

  datatype Sim = Sim(
    cash: real, holdings: map<Asset, real>, nav: real, peak: real, benchmarkNav: real,
    previousClose: Option<real>, points: seq<Point>, trades: seq<VectorTrade>)

  function WeightsOf(quantities: map<Asset, real>, bars: map<Asset, Bar>, nav: real,
      ids: seq<Asset>): seq<(Asset, real)>
  {
    seq(|ids|,
      i requires 0 <= i < |ids| => (ids[i], Over(Times(HeldOf(quantities, ids[i]), PriceOf(bars, ids[i], false)), nav)))
  }

  function BenchmarkReturn(m: DayView, sim: Sim): real {
    if sim.previousClose.None? then 0.0 else Over(m.benchmarkClose, sim.previousClose.value) - 1.0
  }

  function BenchmarkNav(m: DayView, sim: Sim): real {
    if sim.previousClose.None? then sim.benchmarkNav else Times(1.0 + BenchmarkReturn(m, sim), sim.benchmarkNav)
  }

  /** The point a session records, given the marked portfolio. */
  function MakePoint(m: DayView, first: bool, sim: Sim, reb: Rebalanced, nav: real): Point {
    var benchmarkReturn := BenchmarkReturn(m, sim);
    var dailyReturn := if first then 0.0 else Over(nav, sim.nav) - 1.0;
    var acc := reb.account;
    var buyFees := SideFees(acc.trades, Buy);
    var sellFees := SideFees(acc.trades, Sell);
    Point(m.day, nav, BenchmarkNav(m, sim), dailyReturn, benchmarkReturn, dailyReturn - benchmarkReturn,
      1.0 - Over(nav, Max(sim.peak, nav)), reb.turnover, buyFees, sellFees,
      buyFees + sellFees, acc.cash, Over(acc.cash, nav),
      WeightsOf(acc.quantities, m.bars, nav, SortedAssets(acc.quantities.Keys)),
      if m.targets.Some? then m.signalDate else None)
  }

  ghost function Session(book: Book, kinds: Kinds, m: DayView, first: bool, sim: Sim): Result<Sim>
    requires GoodBook(book) && (m.targets.Some? ==> m.signalDate.Some?)
  {
    var reb := if m.targets.Some? then Rebalance(book, kinds, m, sim.holdings, sim.cash)
      else Ok(Rebalanced(Account(sim.cash, sim.holdings, []), 0.0));
    if reb.Err? then Err(reb.error)
    else
      var acc := reb.value.account;
      :- Need(Priced(acc.quantities, m.bars), InvalidInput);
      var nav := acc.cash + Worth(acc.quantities, m.bars, false);
      :- Need(0.0 < nav, InvalidInput);
      var point := MakePoint(m, first, sim, reb.value, nav);
      :- Need(ValidPoint(point), LedgerInvariant);
      Ok(Sim(acc.cash, acc.quantities, nav, Max(sim.peak, nav), BenchmarkNav(m, sim), Some(m.benchmarkClose),
        sim.points + [point], sim.trades + acc.trades))
  }
}
