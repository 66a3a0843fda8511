/** Where a rebalance lands: overweight instruments exactly on target, underweight ones the same share of the way. */
module RebalanceTargets {
  import opened Outcomes
  import opened Sums
  import opened Contracts
  import opened BuyScale
  import opened Simulator
  import opened Rebalancing

  // ---------------------------------------------------------------- what is planned

  /** The plan consists of exactly the legs and purchases of its instruments. */
  ghost predicate PlanIs(kinds: Kinds, m: DayView, holdings: map<Asset, real>, targets: map<Asset, real>,
      pretrade: real, ids: seq<Asset>, plan: Plan)
  {
    && (forall leg :: leg in plan.sells ==>
      leg.asset in ids && Classify(kinds, m, holdings, targets, pretrade, leg.asset) == Plan([leg], []))
    && (forall b :: b in plan.buys ==>
      b.asset in ids && Classify(kinds, m, holdings, targets, pretrade, b.asset) == Plan([], [b]))
    && (forall a, leg :: a in ids && Classify(kinds, m, holdings, targets, pretrade, a) == Plan([leg], []) ==>
      leg in plan.sells)
    && (forall a, b :: a in ids && Classify(kinds, m, holdings, targets, pretrade, a) == Plan([], [b]) ==>
      b in plan.buys)
  }

  lemma {:induction false} PlanMeaning(kinds: Kinds, m: DayView, holdings: map<Asset, real>,
      targets: map<Asset, real>, pretrade: real, ids: seq<Asset>)
    requires MakePlan(kinds, m, holdings, targets, pretrade, ids).Ok?
    ensures PlanIs(kinds, m, holdings, targets, pretrade, ids,
      MakePlan(kinds, m, holdings, targets, pretrade, ids).value)
    decreases |ids|
  {
    hide Classify, PlanIs;
    if ids == [] {
      PlanOfNothing(kinds, m, holdings, targets, pretrade);
    } else {
      PlanMeaning(kinds, m, holdings, targets, pretrade, ids[1..]);
      ClassifyShape(kinds, m, holdings, targets, pretrade, ids[0]);
      PlanCons(kinds, m, holdings, targets, pretrade, ids, MakePlan(kinds, m, holdings, targets, pretrade,
        ids[1..]).value);
    }
  }

  lemma PlanOfNothing(kinds: Kinds, m: DayView, holdings: map<Asset, real>, targets: map<Asset, real>, pretrade: real)
    ensures PlanIs(kinds, m, holdings, targets, pretrade, [], Plan([], []))
  {
    hide Classify;
  }

  lemma PlanCons(kinds: Kinds, m: DayView, holdings: map<Asset, real>, targets: map<Asset, real>, pretrade: real,
      ids: seq<Asset>, rest: Plan)
    requires ids != [] && PlanIs(kinds, m, holdings, targets, pretrade, ids[1..], rest)
    requires var p := Classify(kinds, m, holdings, targets, pretrade, ids[0]);
      || p == Plan([], [])
      || (|p.sells| == 1 && p == Plan([p.sells[0]], []) && p.sells[0].asset == ids[0])
      || (|p.buys| == 1 && p == Plan([], [p.buys[0]]) && p.buys[0].asset == ids[0])
    ensures PlanIs(kinds, m, holdings, targets, pretrade, ids,
      Join(Classify(kinds, m, holdings, targets, pretrade, ids[0]), rest))
  {
    hide Classify;
    assert forall a :: a in ids <==> a == ids[0] || a in ids[1..];
    var p := Classify(kinds, m, holdings, targets, pretrade, ids[0]);
    assert forall leg :: leg in p.sells + rest.sells <==> leg in p.sells || leg in rest.sells;
    assert forall b :: b in p.buys + rest.buys <==> b in p.buys || b in rest.buys;
  }

  lemma ClassifyShape(kinds: Kinds, m: DayView, holdings: map<Asset, real>, targets: map<Asset, real>, pretrade: real,
      a: Asset)
    ensures var p := Classify(kinds, m, holdings, targets, pretrade, a);
      || p == Plan([], [])
      || (|p.sells| == 1 && p == Plan([p.sells[0]], []) && p.sells[0].asset == a)
      || (|p.buys| == 1 && p == Plan([], [p.buys[0]]) && p.buys[0].asset == a)
  {
    hide Times, Over;
  }

  // ---------------------------------------------------------------- what is executed

  lemma {:induction false} SoldQuantities(book: Book, kinds: Kinds, m: DayView, sells: seq<Leg>, acc: Account)
    requires GoodBook(book) && m.signalDate.Some? && SellAll(book, kinds, m, sells, acc).Ok?
    requires forall i, j :: 0 <= i < j < |sells| ==> sells[i].asset != sells[j].asset
    ensures var done := SellAll(book, kinds, m, sells, acc).value;
      && (forall leg :: leg in sells ==> HeldOf(done.quantities, leg.asset) == leg.quantity)
      && (forall a :: (forall leg :: leg in sells ==> leg.asset != a) ==>
        HeldOf(done.quantities, a) == HeldOf(acc.quantities, a))
    decreases |sells|
  {
    hide SellOne, MakeTrade, GoodBook;
    if sells != [] {
      var next := SellOne(book, kinds, m, sells[0], acc).value;
      SoldOne(book, kinds, m, sells[0], acc);
      SoldQuantities(book, kinds, m, sells[1..], next);
      assert sells == [sells[0]] + sells[1..];
      var done := SellAll(book, kinds, m, sells, acc).value;
      forall leg | leg in sells[1..]
        ensures leg.asset != sells[0].asset
      {
        var j :| 0 <= j < |sells[1..]| && sells[1..][j] == leg;
        assert sells[j + 1] == leg;
      }
      assert HeldOf(done.quantities, sells[0].asset) == sells[0].quantity;
      forall a | forall leg :: leg in sells ==> leg.asset != a
        ensures HeldOf(done.quantities, a) == HeldOf(acc.quantities, a)
      {
        assert sells[0] in sells;
        assert HeldOf(done.quantities, a) == HeldOf(next.quantities, a);
      }
    }
  }

  lemma SoldOne(book: Book, kinds: Kinds, m: DayView, leg: Leg, acc: Account)
    requires GoodBook(book) && m.signalDate.Some? && SellOne(book, kinds, m, leg, acc).Ok?
    ensures SellOne(book, kinds, m, leg, acc).value.quantities == acc.quantities[leg.asset := leg.quantity]
  {
    hide MakeTrade;
  }

  function BoughtQuantity(b: Purchase, scale: real): real
    requires b.price != 0.0
  {
    b.current + Times(scale, b.desired) / b.price
  }

  /** Every purchase executes at the common scale; nothing else changes. */
  lemma {:induction false} BoughtQuantities(book: Book, kinds: Kinds, m: DayView, buys: seq<Purchase>, scale: real,
      acc: Account, cash: real, keys: set<Asset>)
    requires GoodBook(book) && m.signalDate.Some? && m.signalDate.value < m.day
    requires PurchasesOk(kinds, m, acc.quantities, buys) && AccountOk(m, acc, cash, keys)
    requires 0.0 < scale <= 1.0 && Covered(book, m.day, buys) && Positive(buys)
    requires Cost(book, m.day, buys, scale) <= acc.cash && BuyAll(book, kinds, m, buys, scale, acc).Ok?
    ensures var done := BuyAll(book, kinds, m, buys, scale, acc).value;
      && (forall b :: b in buys ==> b.price != 0.0 && HeldOf(done.quantities, b.asset) == BoughtQuantity(b, scale))
      && (forall a :: (forall b :: b in buys ==> b.asset != a) ==>
        HeldOf(done.quantities, a) == HeldOf(acc.quantities, a))
    decreases |buys|
  {
    hide BuyOne, AccountOk, PurchaseOk, PurchasesOk, CostOne, Times, MakeTrade, GoodBook, Gross, BoughtQuantity;
    if buys != [] {
      var b := buys[0];
      CostNonNegative(book, m.day, buys[1..], scale);
      assert Covered(book, m.day, [b]) && Covered(book, m.day, buys[1..]);
      hide Covered;
      PurchasesTail(kinds, m, acc.quantities, buys, 0.0);
      BuyOneOk(book, kinds, m, b, scale, acc, cash, keys);
      BoughtOne(book, kinds, m, b, scale, acc);
      var next := BuyOne(book, kinds, m, b, scale, acc).value;
      PurchasesTail(kinds, m, acc.quantities, buys, next.quantities[b.asset]);
      BoughtQuantities(book, kinds, m, buys[1..], scale, next, cash, keys);
      OtherPurchases(kinds, m, acc.quantities, buys);
      assert buys == [b] + buys[1..];
      var done := BuyAll(book, kinds, m, buys, scale, acc).value;
      assert done == BuyAll(book, kinds, m, buys[1..], scale, next).value;
      assert HeldOf(done.quantities, b.asset) == HeldOf(next.quantities, b.asset);
      forall a | forall c :: c in buys ==> c.asset != a
        ensures HeldOf(done.quantities, a) == HeldOf(acc.quantities, a)
      {
        assert b in buys;
        assert HeldOf(done.quantities, a) == HeldOf(next.quantities, a);
      }
    }
  }

  lemma OtherPurchases(kinds: Kinds, m: DayView, quantities: map<Asset, real>, buys: seq<Purchase>)
    requires buys != [] && PurchasesOk(kinds, m, quantities, buys)
    ensures forall b :: b in buys[1..] ==> b.asset != buys[0].asset
  {
    hide PurchaseOk;
    forall b | b in buys[1..]
      ensures b.asset != buys[0].asset
    {
      var j :| 0 <= j < |buys[1..]| && buys[1..][j] == b;
      assert buys[j + 1] == b;
    }
  }

  lemma BoughtOne(book: Book, kinds: Kinds, m: DayView, b: Purchase, scale: real, acc: Account)
    requires GoodBook(book) && m.signalDate.Some? && b.price != 0.0
    requires var t := MakeTrade(book, kinds, m.signalDate.value, m.day, b.asset, Buy, b.price, Times(scale, b.desired));
      t.Ok? && BuyOne(book, kinds, m, b, scale, acc) == Ok(Purchased(b, t.value, acc))
    ensures BuyOne(book, kinds, m, b, scale, acc).value.quantities
      == acc.quantities[b.asset := BoughtQuantity(b, scale)]
  {
    hide TradeFee, BuyOne, Times;
  }

  // ---------------------------------------------------------------- where it lands

  /** The market value at the open that one instrument has, wants, and ends with. */
  function ValueOf(m: DayView, quantities: map<Asset, real>, a: Asset): real {
    Times(HeldOf(quantities, a), PriceOf(m.bars, a, true))
  }

  function WantedValue(targets: map<Asset, real>, pretrade: real, a: Asset): real {
    Times(pretrade, HeldOf(targets, a))
  }

  predicate Lands(m: DayView, holdings: map<Asset, real>, targets: map<Asset, real>, pretrade: real,
      quantities: map<Asset, real>, scale: real, a: Asset)
  {
    var before, wanted := ValueOf(m, holdings, a), WantedValue(targets, pretrade, a);
    ValueOf(m, quantities, a) == if wanted <= before then wanted else before + Times(scale, wanted - before)
  }

  ghost predicate AllLand(m: DayView, holdings: map<Asset, real>, pretrade: real, quantities: map<Asset, real>,
      scale: real)
    requires m.targets.Some?
  {
    forall a :: Lands(m, holdings, m.targets.value, pretrade, quantities, scale, a)
  }

  /** The three outcomes of classification, and what they say about the values. */
  lemma ClassifyValues(kinds: Kinds, m: DayView, holdings: map<Asset, real>, targets: map<Asset, real>,
      pretrade: real, a: Asset)
    requires a in m.bars && 0.0 < m.bars[a].open && 0.0 < pretrade && 0.0 <= HeldOf(holdings, a)
    requires 0.0 <= HeldOf(targets, a)
    ensures var p := Classify(kinds, m, holdings, targets, pretrade, a);
      var before, wanted, price := ValueOf(m, holdings, a), WantedValue(targets, pretrade, a), m.bars[a].open;
      && (wanted < before ==> |p.sells| == 1 && Times(p.sells[0].quantity, price) == wanted)
      && (wanted < before ==> p == Plan([Leg(a, price, before - wanted, p.sells[0].quantity)], []))
      && (before < wanted ==>
        p == Plan([], [Purchase(a, KindOf(kinds, a), price, wanted - before, HeldOf(holdings, a))]))
      && (before == wanted ==> p == Plan([], []))
  {
    TimesNonNegative(pretrade, HeldOf(targets, a));
    PlannedExact(WantedValue(targets, pretrade, a), HeldOf(holdings, a), m.bars[a].open);
    hide Times, Over, KindOf;
  }

  lemma LandsAt(kinds: Kinds, m: DayView, holdings: map<Asset, real>, targets: map<Asset, real>, pretrade: real,
      ids: seq<Asset>,
      plan: Plan, sold: map<Asset, real>, done: map<Asset, real>, scale: real, a: Asset)
    requires PlanIs(kinds, m, holdings, targets, pretrade, ids, plan)
    requires forall leg :: leg in plan.sells ==> HeldOf(sold, leg.asset) == leg.quantity
    requires forall b :: (forall leg :: leg in plan.sells ==> leg.asset != b) ==> HeldOf(sold, b) == HeldOf(holdings, b)
    requires forall b :: b in plan.buys ==> b.price != 0.0 && HeldOf(done, b.asset) == BoughtQuantity(b, scale)
    requires forall b :: (forall c :: c in plan.buys ==> c.asset != b) ==> HeldOf(done, b) == HeldOf(sold, b)
    requires a in ids && a in m.bars && 0.0 < m.bars[a].open && 0.0 < pretrade && 0.0 <= HeldOf(holdings, a)
    requires 0.0 <= HeldOf(targets, a)
    ensures Lands(m, holdings, targets, pretrade, done, scale, a)
  {
    ClassifyValues(kinds, m, holdings, targets, pretrade, a);
    var p := Classify(kinds, m, holdings, targets, pretrade, a);
    var before, wanted, price := ValueOf(m, holdings, a), WantedValue(targets, pretrade, a), m.bars[a].open;
    BoughtValue(HeldOf(holdings, a), Times(scale, wanted - before), price);
    hide Classify, Times;
    if wanted < before {
      assert p.sells[0] in plan.sells;
      assert HeldOf(done, a) == HeldOf(sold, a);
    } else if before < wanted {
      assert p.buys[0] in plan.buys;
    } else {
      assert HeldOf(done, a) == HeldOf(sold, a) == HeldOf(holdings, a);
    }
  }

  /** An instrument neither held nor targeted stays out. */
  lemma LandsElsewhere(kinds: Kinds, m: DayView, holdings: map<Asset, real>, targets: map<Asset, real>,
      pretrade: real, ids: seq<Asset>,
      plan: Plan, sold: map<Asset, real>, done: map<Asset, real>, scale: real, a: Asset)
    requires PlanIs(kinds, m, holdings, targets, pretrade, ids, plan) && a !in ids && a !in holdings && a !in targets
    requires forall b :: (forall leg :: leg in plan.sells ==> leg.asset != b) ==> HeldOf(sold, b) == HeldOf(holdings, b)
    requires forall b :: (forall c :: c in plan.buys ==> c.asset != b) ==> HeldOf(done, b) == HeldOf(sold, b)
    ensures Lands(m, holdings, targets, pretrade, done, scale, a)
  {
    hide Classify;
    assert HeldOf(done, a) == HeldOf(sold, a) == HeldOf(holdings, a) == 0.0;
  }

  /** The pieces of a successful rebalance. */
  lemma RebalanceParts(book: Book, kinds: Kinds, m: DayView, holdings: map<Asset, real>,
      cash: real) returns (plan: Plan, sold: Account, scale: real)
    requires GoodBook(book) && m.signalDate.Some? && m.targets.Some? && Rebalance(book, kinds, m, holdings, cash).Ok?
    ensures var pretrade := cash + Worth(holdings, m.bars, true);
      && Priced(holdings, m.bars) && 0.0 < pretrade
      && MakePlan(kinds, m, holdings, m.targets.value, pretrade, SortedAssets(holdings.Keys + m.targets.value.Keys))
        == Ok(plan)
      && SellAll(book, kinds, m, plan.sells, Account(cash, holdings, [])) == Ok(sold) && 0.0 <= sold.cash
      && Scale(book, m.day, plan.buys, sold.cash) == Ok(scale) && (plan.buys != [] ==> scale != 0.0)
      && BuyAll(book, kinds, m, plan.buys, scale, sold) == Ok(Rebalance(book, kinds, m, holdings, cash).value.account)
  {
    hide Worth, Priced, MakePlan, SellAll, BuyAll, Scale, SortedAssets, NotionalSum, FeeSum, Over;
    var ids := SortedAssets(holdings.Keys + m.targets.value.Keys);
    plan := MakePlan(kinds, m, holdings, m.targets.value, cash + Worth(holdings, m.bars, true), ids).value;
    sold := SellAll(book, kinds, m, plan.sells, Account(cash, holdings, [])).value;
    scale := Scale(book, m.day, plan.buys, sold.cash).value;
  }

  lemma {:induction false} PlanPriced(kinds: Kinds, m: DayView, holdings: map<Asset, real>, targets: map<Asset, real>,
      pretrade: real, ids: seq<Asset>)
    requires MakePlan(kinds, m, holdings, targets, pretrade, ids).Ok?
    ensures forall a :: a in ids ==> a in m.bars
    decreases |ids|
  {
    hide Classify;
    if ids != [] {
      PlanPriced(kinds, m, holdings, targets, pretrade, ids[1..]);
      assert ids == [ids[0]] + ids[1..];
    }
  }

  lemma MarketFacts(kinds: Kinds, m: DayView, holdings: map<Asset, real>)
    requires GoodMarket(kinds, m) && m.targets.Some? && NonNegativeHoldings(holdings)
    ensures m.signalDate.Some? && m.signalDate.value < m.day
    ensures forall a :: a in m.targets.value ==> 0.0 <= m.targets.value[a]
    ensures forall a :: 0.0 <= HeldOf(m.targets.value, a) && 0.0 <= HeldOf(holdings, a)
    ensures forall a :: a in m.bars ==> 0.0 < m.bars[a].open
  {
  }

  /**
   * A rebalance that returns does what its targets ask. At the open every overweight instrument is sold to exactly its
   * target value, every underweight one is bought the same share of its way, that share is the affordable scale of the
   * purchases, and nothing else moves.
   */
  lemma RebalanceLands(book: Book, kinds: Kinds, m: DayView, holdings: map<Asset, real>, cash: real)
    returns (plan: Plan, sold: Account, scale: real)
    requires GoodBook(book) && GoodMarket(kinds, m) && m.targets.Some? && m.signalDate.Some?
    requires NonNegativeHoldings(holdings)
    requires Rebalance(book, kinds, m, holdings, cash).Ok?
    ensures MakePlan(kinds, m, holdings, m.targets.value, cash + Worth(holdings, m.bars, true),
      SortedAssets(holdings.Keys + m.targets.value.Keys)) == Ok(plan)
    ensures SellAll(book, kinds, m, plan.sells, Account(cash, holdings, [])) == Ok(sold)
    ensures 0.0 < scale <= 1.0 && Scale(book, m.day, plan.buys, sold.cash) == Ok(scale)
    ensures var done := Rebalance(book, kinds, m, holdings, cash).value.account;
      AllLand(m, holdings, cash + Worth(holdings, m.bars, true), done.quantities, scale)
  {
    hide Worth, GoodMarket, NonNegativeHoldings, Priced, Rebalance, MakePlan, PlanIs, PlanOk, SortedAssets, SellAll,
      BuyAll, Scale, Cost, Covered, AccountOk, Gross, LegsOk, PurchasesOk, Lands, HeldOf;
    MarketFacts(kinds, m, holdings);
    plan, sold, scale := RebalanceParts(book, kinds, m, holdings, cash);
    var pretrade := cash + Worth(holdings, m.bars, true);
    var targets := m.targets.value;
    var ids := SortedAssets(holdings.Keys + targets.Keys);
    SortedMeaning(holdings.Keys + targets.Keys);
    AscendingDistinct(ids);
    PlanIsOk(kinds, m, holdings, targets, pretrade, ids);
    PlanMeaning(kinds, m, holdings, targets, pretrade, ids);
    PlanPriced(kinds, m, holdings, targets, pretrade, ids);
    PlanLegs(kinds, m, holdings, plan, ids);
    OpeningAccount(m, holdings, cash);
    SellAllOk(book, kinds, m, plan.sells, Account(cash, holdings, []), cash, holdings.Keys);
    SellsDistinct(m, holdings, plan.sells);
    SoldQuantities(book, kinds, m, plan.sells, Account(cash, holdings, []));
    PurchasesAfterSales(kinds, m, holdings, plan, ids, sold.quantities);
    ScaleOutcome(book, m.day, plan.buys, sold.cash, scale);
    BoughtQuantities(book, kinds, m, plan.buys, scale, sold, cash, holdings.Keys);
    var done := Rebalance(book, kinds, m, holdings, cash).value.account.quantities;
    forall a
      ensures Lands(m, holdings, targets, pretrade, done, scale, a)
    {
      if a in ids {
        LandsAt(kinds, m, holdings, targets, pretrade, ids, plan, sold.quantities, done, scale, a);
      } else {
        LandsElsewhere(kinds, m, holdings, targets, pretrade, ids, plan, sold.quantities, done, scale, a);
      }
    }
  }

  lemma SellsDistinct(m: DayView, quantities: map<Asset, real>, sells: seq<Leg>)
    requires LegsOk(m, quantities, sells)
    ensures forall i, j :: 0 <= i < j < |sells| ==> sells[i].asset != sells[j].asset
  {
    hide LegOk;
  }
}
