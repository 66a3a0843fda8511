/** A session uses the instrument types of the instruments it prices, and no others. */
module KindIndependence {
  import opened Contracts
  import opened BuyScale
  import opened Simulator

  predicate SameKinds(x: Kinds, y: Kinds, m: DayView) {
    forall a :: a in m.bars ==> KindOf(x, a) == KindOf(y, a)
  }

  predicate PricedPlan(m: DayView, plan: Plan) {
    && (forall i :: 0 <= i < |plan.sells| ==> plan.sells[i].asset in m.bars)
    && (forall i :: 0 <= i < |plan.buys| ==> plan.buys[i].asset in m.bars)
  }

  lemma {:induction false} PlanSameKinds(x: Kinds, y: Kinds, m: DayView, holdings: map<Asset, real>,
      targets: map<Asset, real>, pretrade: real, ids: seq<Asset>)
    requires SameKinds(x, y, m)
    ensures MakePlan(x, m, holdings, targets, pretrade, ids) == MakePlan(y, m, holdings, targets, pretrade, ids)
    ensures MakePlan(x, m, holdings, targets, pretrade, ids).Ok? ==>
      PricedPlan(m, MakePlan(x, m, holdings, targets, pretrade, ids).value)
    decreases |ids|
  {
    hide KindOf;
    if ids != [] {
      PlanSameKinds(x, y, m, holdings, targets, pretrade, ids[1..]);
    }
  }

  lemma TradeSameKinds(book: Book, x: Kinds, y: Kinds, m: DayView, signalDate: Day, a: Asset, side: Side, price: real,
      notional: real)
    requires GoodBook(book) && SameKinds(x, y, m) && a in m.bars
    ensures MakeTrade(book, x, signalDate, m.day, a, side, price, notional)
      == MakeTrade(book, y, signalDate, m.day, a, side, price, notional)
  {
    hide KindOf, TradeFee;
  }

  lemma {:induction false} SellSameKinds(book: Book, x: Kinds, y: Kinds, m: DayView, sells: seq<Leg>, acc: Account)
    requires GoodBook(book) && m.signalDate.Some? && SameKinds(x, y, m)
    requires forall i :: 0 <= i < |sells| ==> sells[i].asset in m.bars
    ensures SellAll(book, x, m, sells, acc) == SellAll(book, y, m, sells, acc)
    decreases |sells|
  {
    hide MakeTrade, SameKinds, GoodBook;
    if sells != [] {
      TradeSameKinds(book, x, y, m, m.signalDate.value, sells[0].asset, Sell, sells[0].price, sells[0].notional);
      var next := SellOne(book, x, m, sells[0], acc);
      if next.Ok? {
        SellSameKinds(book, x, y, m, sells[1..], next.value);
      }
    }
  }

  lemma BuyOneSameKinds(book: Book, x: Kinds, y: Kinds, m: DayView, b: Purchase, scale: real, acc: Account)
    requires GoodBook(book) && m.signalDate.Some? && SameKinds(x, y, m) && b.asset in m.bars
    ensures BuyOne(book, x, m, b, scale, acc) == BuyOne(book, y, m, b, scale, acc)
  {
    hide MakeTrade, SameKinds, GoodBook, Purchased;
    forall notional: real
      ensures MakeTrade(book, x, m.signalDate.value, m.day, b.asset, Buy, b.price, notional)
           == MakeTrade(book, y, m.signalDate.value, m.day, b.asset, Buy, b.price, notional)
    {
      TradeSameKinds(book, x, y, m, m.signalDate.value, b.asset, Buy, b.price, notional);
    }
  }

  lemma {:induction false} BuySameKinds(book: Book, x: Kinds, y: Kinds, m: DayView, buys: seq<Purchase>, scale: real,
      acc: Account)
    requires GoodBook(book) && m.signalDate.Some? && SameKinds(x, y, m)
    requires forall i :: 0 <= i < |buys| ==> buys[i].asset in m.bars
    ensures BuyAll(book, x, m, buys, scale, acc) == BuyAll(book, y, m, buys, scale, acc)
    decreases |buys|
  {
    hide BuyOne, SameKinds, GoodBook;
    if buys != [] {
      BuyOneSameKinds(book, x, y, m, buys[0], scale, acc);
      var next := BuyOne(book, x, m, buys[0], scale, acc);
      if next.Ok? {
        BuySameKinds(book, x, y, m, buys[1..], scale, next.value);
      }
    }
  }

  /** Changing the types of instruments without a bar in the session changes nothing about its rebalance. */
  lemma RebalanceSameKinds(book: Book, x: Kinds, y: Kinds, m: DayView, holdings: map<Asset, real>, cash: real)
    requires GoodBook(book) && m.signalDate.Some? && m.targets.Some? && SameKinds(x, y, m)
    ensures Rebalance(book, x, m, holdings, cash) == Rebalance(book, y, m, holdings, cash)
  {
    hide Worth, Priced, MakePlan, SellAll, BuyAll, Scale, SortedAssets, NotionalSum, FeeSum, SameKinds, GoodBook;
    var pretrade := cash + Worth(holdings, m.bars, true);
    var ids := SortedAssets(holdings.Keys + m.targets.value.Keys);
    PlanSameKinds(x, y, m, holdings, m.targets.value, pretrade, ids);
    var plan := MakePlan(x, m, holdings, m.targets.value, pretrade, ids);
    if plan.Ok? {
      SellSameKinds(book, x, y, m, plan.value.sells, Account(cash, holdings, []));
      var sold := SellAll(book, x, m, plan.value.sells, Account(cash, holdings, []));
      if sold.Ok? {
        var scale := Scale(book, m.day, plan.value.buys, sold.value.cash);
        if scale.Ok? {
          BuySameKinds(book, x, y, m, plan.value.buys, scale.value, sold.value);
        }
      }
    }
  }

  /** Nor about the session. */
  lemma SessionSameKinds(book: Book, x: Kinds, y: Kinds, m: DayView, first: bool, sim: Sim)
    requires GoodBook(book) && (m.targets.Some? ==> m.signalDate.Some?) && SameKinds(x, y, m)
    ensures Session(book, x, m, first, sim) == Session(book, y, m, first, sim)
  {
    hide Rebalance, Worth, Priced, ValidPoint, MakePoint, BenchmarkNav, SameKinds, GoodBook;
    if m.targets.Some? {
      RebalanceSameKinds(book, x, y, m, sim.holdings, sim.cash);
    }
  }
}
