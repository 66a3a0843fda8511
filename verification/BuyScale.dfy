/** Fee-aware purchases: the largest proportional scale that available cash can pay for. */
module BuyScale {
  import opened Outcomes
  import opened Sums
  import opened Contracts
  import opened FeeRules

  /** Instrument ids of the research engine: only their order matters. */
  type Asset = nat

  datatype Book = NoFees | Fees(rules: seq<FeeRule>)

  predicate GoodBook(book: Book) {
    book.Fees? ==> ValidBook(book.rules)
  }

  /** One planned purchase: the notional it wants and the quantity already held. */
  datatype Purchase = Purchase(asset: Asset, kind: InstrumentType, price: real, desired: real, current: real)

  predicate Positive(buys: seq<Purchase>) {
    forall i :: 0 <= i < |buys| ==> 0.0 < buys[i].desired && 0.0 < buys[i].price
  }

  const FREE := FeeBreakdown(0.0, 0.0, 0.0, 0.0, 0.0)

  /** Fees of a trade; it fails when the book has no effective rule. */
  function TradeFee(book: Book, kind: InstrumentType, side: Side, day: Day, notional: real): Result<FeeBreakdown>
    requires GoodBook(book)
  {
    match book
    case NoFees => Ok(FREE)
    case Fees(rules) =>
      var rule := Select(rules, kind, side, day, None);
      SelectLatest(rules, kind, side, day, None);
      if rule.None? then Err(FeeRuleNotFound) else rule.value.Assess(notional)
  }

  /** A rule exists for every purchase. */
  predicate Covered(book: Book, day: Day, buys: seq<Purchase>) {
    book.Fees? ==> forall i :: 0 <= i < |buys| ==> Select(book.rules, buys[i].kind, Buy, day, None).Some?
  }

  /** Notional plus fee of one purchase; nothing at all for a zero notional. */
  function CostOne(book: Book, kind: InstrumentType, day: Day, notional: real): real
    requires GoodBook(book)
  {
    if notional == 0.0 then 0.0
    else
      var fee := TradeFee(book, kind, Buy, day, notional);
      notional + (if fee.Ok? then fee.value.total else 0.0)
  }

  function Cost(book: Book, day: Day, buys: seq<Purchase>, scale: real): real
    requires GoodBook(book)
  {
    if buys == [] then 0.0
    else CostOne(book, buys[0].kind, day, Times(scale, buys[0].desired)) + Cost(book, day, buys[1..], scale)
  }

  function DesiredTotal(buys: seq<Purchase>): real {
    if buys == [] then 0.0 else buys[0].desired + DesiredTotal(buys[1..])
  }

  /** The lower end after at most `rounds` halvings of [low, high]. */
  function Bisect(book: Book, day: Day, buys: seq<Purchase>, cash: real, low: real, high: real, rounds: nat): real
    requires GoodBook(book)
    decreases rounds
  {
    if rounds == 0 then low
    else
      var mid := (low + high) / 2.0;
      if mid == low || mid == high then low
      else if Cost(book, day, buys, mid) <= cash then Bisect(book, day, buys, cash, mid, high, rounds - 1)
      else Bisect(book, day, buys, cash, low, mid, rounds - 1)
  }

  const ROUNDS: nat := 128

  /** Spend what the fees at the bisected scale leave over, if that is affordable and no smaller. */
  function Refine(book: Book, day: Day, buys: seq<Purchase>, cash: real, low: real): real
    requires GoodBook(book)
  {
    var total := DesiredTotal(buys);
    if total == 0.0 then low
    else
      var fees := Cost(book, day, buys, low) - Times(low, total);
      var candidate := (cash - fees) / total;
      if low <= candidate <= 1.0 && Cost(book, day, buys, candidate) <= cash then candidate else low
  }

  function Scale(book: Book, day: Day, buys: seq<Purchase>, cash: real): Result<real>
    requires GoodBook(book)
  {
    if buys == [] then Ok(1.0)
    else if cash <= 0.0 then Ok(0.0)
    else if !Covered(book, day, buys) then Err(FeeRuleNotFound)
    else if Cost(book, day, buys, 1.0) <= cash then Ok(1.0)
    else Ok(Refine(book, day, buys, cash, Bisect(book, day, buys, cash, 0.0, 1.0, ROUNDS)))
  }

  // ---------------------------------------------------------------- cost is monotone

  lemma FeeGrows(book: Book, kind: InstrumentType, side: Side, day: Day, a: real, b: real)
    requires GoodBook(book) && 0.0 < a <= b
    ensures var x, y := TradeFee(book, kind, side, day, a), TradeFee(book, kind, side, day, b);
      && (x.Ok? <==> y.Ok?)
      && (x.Ok? ==> 0.0 <= x.value.total <= y.value.total && ValidBreakdown(x.value))
      && (x.Ok? <==> (book.Fees? ==> Select(book.rules, kind, side, day, None).Some?))
  {
    if book.Fees? && Select(book.rules, kind, side, day, None).Some? {
      SelectLatest(book.rules, kind, side, day, None);
      var rule := Select(book.rules, kind, side, day, None).value;
      hide FeeRule.Fee;
      rule.AssessTotal(a);
      rule.AssessTotal(b);
      rule.FeeMonotone(a, b);
    }
  }

  lemma CostOneGrows(book: Book, kind: InstrumentType, day: Day, a: real, b: real)
    requires GoodBook(book) && 0.0 <= a <= b
    ensures 0.0 <= CostOne(book, kind, day, a) <= CostOne(book, kind, day, b)
    ensures a <= CostOne(book, kind, day, a)
  {
    hide TradeFee;
    if 0.0 < a {
      FeeGrows(book, kind, Buy, day, a, b);
    } else if 0.0 < b {
      FeeGrows(book, kind, Buy, day, b, b);
    }
  }

  lemma {:induction false} CostGrows(book: Book, day: Day, buys: seq<Purchase>, s: real, t: real)
    requires GoodBook(book) && Positive(buys) && 0.0 <= s <= t
    ensures 0.0 <= Cost(book, day, buys, s) <= Cost(book, day, buys, t)
  {
    hide CostOne, Times;
    if buys != [] {
      var d := buys[0].desired;
      TimesMonotone(0.0, s, d);
      TimesMonotone(s, t, d);
      TimesAdd(0.0, 0.0, d);
      CostOneGrows(book, buys[0].kind, day, Times(s, d), Times(t, d));
      CostGrows(book, day, buys[1..], s, t);
    }
  }

  lemma {:induction false} CostOfNothing(book: Book, day: Day, buys: seq<Purchase>)
    requires GoodBook(book)
    ensures Cost(book, day, buys, 0.0) == 0.0
    ensures buys == [] ==> forall scale :: Cost(book, day, buys, scale) == 0.0
  {
    if buys != [] {
      assert Times(0.0, buys[0].desired) == 0.0;
      CostOfNothing(book, day, buys[1..]);
    }
  }

  // ---------------------------------------------------------------- bisection

  /** Two to the power minus n. */
  function HalfPower(n: nat): real {
    if n == 0 then 1.0 else HalfPower(n - 1) / 2.0
  }

  /** Every affordable scale lies below the bound. */
  ghost predicate Bounded(book: Book, day: Day, buys: seq<Purchase>, cash: real, bound: real)
    requires GoodBook(book)
  {
    forall t: real :: 0.0 <= t && Cost(book, day, buys, t) <= cash ==> t < bound
  }

  lemma UnaffordableBounds(book: Book, day: Day, buys: seq<Purchase>, cash: real, high: real)
    requires GoodBook(book) && Positive(buys) && 0.0 <= high && cash < Cost(book, day, buys, high)
    ensures Bounded(book, day, buys, cash, high)
  {
    hide Cost;
    forall t: real | 0.0 <= t && Cost(book, day, buys, t) <= cash
      ensures t < high
    {
      if high <= t {
        CostGrows(book, day, buys, high, t);
      }
    }
  }

  /** The search keeps an affordable lower end, and every round halves the distance to an unaffordable one. */
  lemma {:induction false} BisectTight(book: Book, day: Day, buys: seq<Purchase>, cash: real, low: real, high: real,
      done: nat, rounds: nat)
    requires GoodBook(book) && Positive(buys) && 0.0 <= low < high <= 1.0 && high - low == HalfPower(done)
    requires Cost(book, day, buys, low) <= cash < Cost(book, day, buys, high)
    ensures var s := Bisect(book, day, buys, cash, low, high, rounds);
      && low <= s < high && Cost(book, day, buys, s) <= cash
      && Bounded(book, day, buys, cash, s + HalfPower(done + rounds))
    decreases rounds
  {
    hide Cost, Bounded, HalfPower;
    if rounds == 0 {
      UnaffordableBounds(book, day, buys, cash, high);
    } else {
      var mid := (low + high) / 2.0;
      Halve(done);
      if Cost(book, day, buys, mid) <= cash {
        BisectTight(book, day, buys, cash, mid, high, done + 1, rounds - 1);
      } else {
        BisectTight(book, day, buys, cash, low, mid, done + 1, rounds - 1);
      }
    }
  }

  lemma Halve(n: nat)
    ensures HalfPower(n + 1) == HalfPower(n) / 2.0
  {
  }

  lemma RefineSafe(book: Book, day: Day, buys: seq<Purchase>, cash: real, low: real)
    requires GoodBook(book) && 0.0 <= low <= 1.0 && Cost(book, day, buys, low) <= cash
    ensures low <= Refine(book, day, buys, cash, low) <= 1.0
    ensures Cost(book, day, buys, Refine(book, day, buys, cash, low)) <= cash
  {
    hide Cost;
  }

  /**
   * The scale is safe and almost optimal: in [0, 1], affordable, equal to one whenever the full purchase is affordable,
   * and no affordable scale exceeds it by 2^-128.
   */
  lemma ScaleSafeAndTight(book: Book, day: Day, buys: seq<Purchase>, cash: real)
    requires GoodBook(book) && Positive(buys) && 0.0 < cash && Covered(book, day, buys)
    ensures var r := Scale(book, day, buys, cash);
      && r.Ok? && 0.0 <= r.value <= 1.0
      && Cost(book, day, buys, r.value) <= cash
      && (Cost(book, day, buys, 1.0) <= cash ==> r.value == 1.0)
      && forall t: real :: 0.0 <= t <= 1.0 && Cost(book, day, buys, t) <= cash ==> t <= r.value + HalfPower(ROUNDS)
  {
    hide Bisect, HalfPower, Refine, Cost, Covered, Positive, GoodBook;
    HalfPowerPositive(ROUNDS);
    WholeInterval();
    CostOfNothing(book, day, buys);
    if cash < Cost(book, day, buys, 1.0) {
      BisectTight(book, day, buys, cash, 0.0, 1.0, 0, ROUNDS);
      RefineSafe(book, day, buys, cash, Bisect(book, day, buys, cash, 0.0, 1.0, ROUNDS));
    }
  }

  lemma WholeInterval()
    ensures HalfPower(0) == 1.0
  {
  }

  lemma {:induction false} HalfPowerPositive(n: nat)
    ensures 0.0 < HalfPower(n)
  {
    if n != 0 {
      HalfPowerPositive(n - 1);
    }
  }

  // ---------------------------------------------------------------- when nothing can be bought

  lemma {:induction false} HalfPowerFalls(n: nat, k: nat)
    ensures 0.0 < HalfPower(n + k) <= HalfPower(n)
    decreases k
  {
    if k == 0 {
      HalfPowerPositive(n);
    } else {
      HalfPowerFalls(n, k - 1);
      Halve(n + k - 1);
    }
  }

  /** From zero the search stays at zero exactly when not even its last step is affordable. */
  lemma {:induction false} BisectZero(book: Book, day: Day, buys: seq<Purchase>, cash: real, done: nat, rounds: nat)
    requires GoodBook(book) && Positive(buys)
    requires Cost(book, day, buys, 0.0) <= cash < Cost(book, day, buys, HalfPower(done))
    requires HalfPower(done) <= 1.0
    ensures Bisect(book, day, buys, cash, 0.0, HalfPower(done), rounds) == 0.0 <==>
      cash < Cost(book, day, buys, HalfPower(done + rounds))
    decreases rounds
  {
    hide Cost, HalfPower;
    if rounds != 0 {
      Halve(done);
      HalfPowerFalls(done, 1);
      var mid := HalfPower(done + 1);
      if Cost(book, day, buys, mid) <= cash {
        BisectTight(book, day, buys, cash, mid, HalfPower(done), done + 1, rounds - 1);
        HalfPowerFalls(done + 1, rounds - 1);
        CostGrows(book, day, buys, HalfPower(done + rounds), mid);
      } else {
        BisectZero(book, day, buys, cash, done + 1, rounds - 1);
      }
    }
  }

  /** Either the last step of the search can be paid, or all cash can be spent without a fee. */
  predicate SomeAffordable(book: Book, day: Day, buys: seq<Purchase>, cash: real)
    requires GoodBook(book)
  {
    || Cost(book, day, buys, HalfPower(ROUNDS)) <= cash
    || Cost(book, day, buys, Over(cash, DesiredTotal(buys))) <= cash
  }

  lemma {:induction false} DesiredPositive(buys: seq<Purchase>)
    requires Positive(buys) && buys != []
    ensures 0.0 < DesiredTotal(buys)
  {
    if |buys| != 1 {
      DesiredPositive(buys[1..]);
    }
  }

  lemma RefineZero(book: Book, day: Day, buys: seq<Purchase>, cash: real)
    requires GoodBook(book) && Positive(buys) && buys != [] && 0.0 < cash < Cost(book, day, buys, 1.0)
    ensures Refine(book, day, buys, cash, 0.0) == 0.0 <==> cash < Cost(book, day, buys, Over(cash, DesiredTotal(buys)))
  {
    hide Cost, DesiredTotal;
    DesiredPositive(buys);
    CostOfNothing(book, day, buys);
    var total := DesiredTotal(buys);
    var candidate := Over(cash, total);
    OverBounds(cash, total);
    assert Times(0.0, total) == 0.0;
    if 1.0 < candidate {
      CostGrows(book, day, buys, 1.0, candidate);
    }
  }

  lemma RefineKeeps(book: Book, day: Day, buys: seq<Purchase>, cash: real, low: real)
    requires GoodBook(book) && 0.0 < low
    ensures 0.0 < Refine(book, day, buys, cash, low)
  {
    hide Cost, DesiredTotal;
  }

  /** Covered purchases get the scale zero exactly when neither can be paid. */
  lemma ScaleZeroExactly(book: Book, day: Day, buys: seq<Purchase>, cash: real)
    requires GoodBook(book) && Positive(buys) && buys != [] && 0.0 < cash && Covered(book, day, buys)
    ensures Scale(book, day, buys, cash) == Ok(0.0) <==> !SomeAffordable(book, day, buys, cash)
  {
    hide Bisect, HalfPower, Refine, Cost, Covered, Positive, GoodBook, DesiredTotal;
    CostOfNothing(book, day, buys);
    WholeInterval();
    HalfPowerFalls(0, ROUNDS);
    if Cost(book, day, buys, 1.0) <= cash {
      CostGrows(book, day, buys, HalfPower(ROUNDS), 1.0);
    } else {
      BisectZero(book, day, buys, cash, 0, ROUNDS);
      RefineZero(book, day, buys, cash);
      var low := Bisect(book, day, buys, cash, 0.0, 1.0, ROUNDS);
      BisectTight(book, day, buys, cash, 0.0, 1.0, 0, ROUNDS);
      if 0.0 < low {
        RefineKeeps(book, day, buys, cash, low);
      }
    }
  }

  // ---------------------------------------------------------------- the loops

  method TotalCost(book: Book, day: Day, buys: seq<Purchase>, scale: real) returns (total: real)
    requires GoodBook(book)
    ensures total == Cost(book, day, buys, scale)
  {
    hide TradeFee, CostOne;
    total := 0.0;
    assert buys[0..] == buys;
    for i := 0 to |buys|
      invariant total + Cost(book, day, buys[i..], scale) == Cost(book, day, buys, scale)
    {
      assert buys[i..][0] == buys[i] && buys[i..][1..] == buys[i + 1..];
      total := total + CostOne(book, buys[i].kind, day, Times(scale, buys[i].desired));
    }
  }

  method AffordableBuyScale(book: Book, day: Day, buys: seq<Purchase>, cash: real) returns (r: Result<real>)
    requires GoodBook(book)
    ensures r == Scale(book, day, buys, cash)
  {
    hide Cost;
    if buys == [] {
      return Ok(1.0);
    }
    if cash <= 0.0 {
      return Ok(0.0);
    }
    if !Covered(book, day, buys) {
      return Err(FeeRuleNotFound);
    }
    var full := TotalCost(book, day, buys, 1.0);
    if full <= cash {
      return Ok(1.0);
    }
    var low, high := 0.0, 1.0;
    var n := 0;
    while n < ROUNDS
      invariant 0 <= n <= ROUNDS
      invariant Bisect(book, day, buys, cash, low, high, ROUNDS - n) == Bisect(book, day, buys, cash, 0.0, 1.0, ROUNDS)
    {
      var mid := (low + high) / 2.0;
      if mid == low || mid == high {
        break;
      }
      var price := TotalCost(book, day, buys, mid);
      if price <= cash {
        low := mid;
      } else {
        high := mid;
      }
      n := n + 1;
    }
    var atLow := TotalCost(book, day, buys, low);
    var total := DesiredTotal(buys);
    if total != 0.0 {
      var candidate := (cash - (atLow - Times(low, total))) / total;
      if low <= candidate <= 1.0 {
        var price := TotalCost(book, day, buys, candidate);
        if price <= cash {
          return Ok(candidate);
        }
      }
    }
    return Ok(low);
  }
}
