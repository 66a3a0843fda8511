/** Reconciliation arithmetic: why 832 working digits are enough. */
module Reconciliation {
  import opened Outcomes
  import opened Contracts
  import opened Decimals

  const MAX_DIGITS: nat := 200
  const MAX_EXPONENT: nat := 200
  const PRECISION: nat := 4 * MAX_DIGITS + 32

  /** Every accepted number is a multiple of 10^LOWEST below 10^HIGHEST. */
  const LOWEST: int := 1 - MAX_DIGITS - MAX_EXPONENT
  const HIGHEST: int := MAX_EXPONENT + 1

  predicate ExactDecimal(d: Dec) {
    Digits(Abs(d.coeff)) <= MAX_DIGITS && Abs(Adjusted(d)) <= MAX_EXPONENT
  }

  predicate Integral(d: Dec) {
    0 <= d.exp || d.coeff % Pow10(-d.exp) == 0
  }

  predicate Whole(d: Dec, positive: bool) {
    ExactDecimal(d) && Integral(d) && (if positive then 1 else 0) <= d.coeff
  }

  /** The boundary: up to 200 digits, with the first one between the 200th place before and after the point. */
  lemma Boundary(n: nat, exp: int)
    requires 1 <= n
    ensures ExactDecimal(Dec(Pow10(n - 1), exp)) <==> n <= 200 && -200 <= exp + n - 1 <= 200
    ensures ExactDecimal(Dec(0 - Pow10(n - 1), exp)) <==> n <= 200 && -200 <= exp + n - 1 <= 200
  {
    DigitsBoundsOf(n);
    hide Pow10, Digits;
  }

  /** A positive whole number is at least one; a whole number may be zero. */
  lemma WholeNumbers(coeff: int)
    requires ExactDecimal(Dec(coeff, 0))
    ensures Whole(Dec(coeff, 0), true) <==> 1 <= coeff
    ensures Whole(Dec(coeff, 0), false) <==> 0 <= coeff
  {
  }

  // ---------------------------------------------------------------- the working context

  function Add(a: Dec, b: Dec): Dec {
    Round(ExactAdd(a, b), PRECISION)
  }

  function Sub(a: Dec, b: Dec): Dec {
    Round(ExactAdd(a, Negated(b)), PRECISION)
  }

  function Mul(a: Dec, b: Dec): Dec {
    Round(ExactMul(a, b), PRECISION)
  }

  function Neg(a: Dec): Dec {
    Round(Negated(a), PRECISION)
  }

  lemma AcceptedBox(d: Dec)
    requires ExactDecimal(d)
    ensures InBox(d, LOWEST, HIGHEST)
  {
    hide InBox, Digits;
    OwnBox(d);
    BoxWiden(d, d.exp, Adjusted(d) + 1, LOWEST, HIGHEST);
  }

  lemma BoxUnrounded(d: Dec, low: int, high: int)
    requires InBox(d, low, high) && 1 <= high - low <= PRECISION
    ensures Round(d, PRECISION) == d
  {
    hide InBox, Digits;
    BoxDigits(d, low, high);
  }

  /** Sums and differences of accepted numbers are never rounded. */
  lemma SumAndDifferenceExact(a: Dec, b: Dec)
    requires ExactDecimal(a) && ExactDecimal(b)
    ensures Add(a, b) == ExactAdd(a, b) && Sub(a, b) == ExactAdd(a, Negated(b))
  {
    hide InBox, ExactDecimal, ExactAdd, Round;
    AcceptedBox(a);
    AcceptedBox(b);
    BoxAdd(a, b, LOWEST, HIGHEST);
    BoxUnrounded(ExactAdd(a, b), LOWEST, HIGHEST + 1);
    BoxNegated(b, LOWEST, HIGHEST);
    BoxAdd(a, Negated(b), LOWEST, HIGHEST);
    BoxUnrounded(ExactAdd(a, Negated(b)), LOWEST, HIGHEST + 1);
  }

  /** Nor are products: 400 digits at most. */
  lemma ProductExact(a: Dec, b: Dec)
    requires ExactDecimal(a) && ExactDecimal(b)
    ensures Mul(a, b) == ExactMul(a, b)
  {
    var m, n := Digits(Abs(a.coeff)), Digits(Abs(b.coeff));
    DigitsBound(Abs(a.coeff), m);
    DigitsBound(Abs(b.coeff), n);
    hide Pow10, Digits;
    ProductBelow(Abs(a.coeff), Abs(b.coeff), Pow10(m), Pow10(n));
    AbsProduct(a.coeff, b.coeff);
    Pow10Add(m, n);
    DigitsBound(Abs(a.coeff * b.coeff), m + n);
  }

  // ---------------------------------------------------------------- differences

  predicate DifferenceMatches(expected: Dec, observed: Dec, delta: Dec) {
    Same(delta, Sub(observed, expected))
  }

  /** The check holds exactly when delta is the true difference, on any common scale. */
  lemma DifferenceIsTrue(expected: Dec, observed: Dec, delta: Dec, e: int)
    requires ExactDecimal(expected) && ExactDecimal(observed)
    requires e <= expected.exp && e <= observed.exp && e <= delta.exp
    ensures DifferenceMatches(expected, observed, delta) <==> At(delta, e) == At(observed, e) - At(expected, e)
  {
    hide ExactDecimal, At, Same, Sub;
    SumAndDifferenceExact(observed, expected);
    var d := ExactAdd(observed, Negated(expected));
    AddAt(observed, Negated(expected), e);
    NegatedAt(expected, e);
    SameAt(delta, d, e);
  }

  lemma NegatedAt(d: Dec, e: int)
    requires e <= d.exp
    ensures At(Negated(d), e) == -At(d, e)
  {
    Flip(d.coeff, Pow10(d.exp - e));
  }

  // ---------------------------------------------------------------- fill economics

  datatype Charges = Charges(commission: Dec, stampDuty: Dec, transferFee: Dec, otherFee: Dec) {
    predicate Ok() {
      ExactDecimal(commission) && ExactDecimal(stampDuty) && ExactDecimal(transferFee) && ExactDecimal(otherFee)
    }

    function Total(): Dec {
      Add(Add(Add(commission, stampDuty), transferFee), otherFee)
    }

    function ExactTotal(): Dec {
      ExactAdd(ExactAdd(ExactAdd(commission, stampDuty), transferFee), otherFee)
    }
  }

  datatype Economics = Economics(gross: Dec, fee: Dec, cash: Dec) {
    predicate Ok() {
      ExactDecimal(gross) && ExactDecimal(fee) && ExactDecimal(cash)
    }
  }

  /** As the code computes it, with every operation rounded to the working precision. */
  function WorkingEconomics(side: Side, quantity: Dec, price: Dec, charges: Charges): Economics {
    var gross, fee := Mul(quantity, price), charges.Total();
    Economics(gross, fee, if side == Buy then Neg(Add(gross, fee)) else Sub(gross, fee))
  }

  function ExactEconomics(side: Side, quantity: Dec, price: Dec, charges: Charges): Economics {
    var gross, fee := ExactMul(quantity, price), charges.ExactTotal();
    Economics(gross, fee, if side == Buy then Negated(ExactAdd(gross, fee)) else ExactAdd(gross, Negated(fee)))
  }

  function FillEconomics(side: Side, quantity: Dec, price: Dec, charges: Charges): Result<Economics> {
    var r := WorkingEconomics(side, quantity, price, charges);
    if !ExactDecimal(quantity) || !ExactDecimal(price) || !charges.Ok() then Err(InvalidInput)
    else if !r.Ok() then Err(InvalidInput)
    else Ok(r)
  }

  lemma FeesBox(charges: Charges)
    requires charges.Ok()
    ensures charges.Total() == charges.ExactTotal() && InBox(charges.ExactTotal(), LOWEST, HIGHEST + 3)
  {
    hide InBox, ExactDecimal, ExactAdd, Round;
    AcceptedBox(charges.commission);
    AcceptedBox(charges.stampDuty);
    AcceptedBox(charges.transferFee);
    AcceptedBox(charges.otherFee);
    BoxSum(charges.commission, charges.stampDuty, HIGHEST);
    var two := ExactAdd(charges.commission, charges.stampDuty);
    BoxSum(two, charges.transferFee, HIGHEST + 1);
    BoxSum(ExactAdd(two, charges.transferFee), charges.otherFee, HIGHEST + 2);
  }

  /** Adding one accepted number to a sum that still fits. */
  lemma BoxSum(sum: Dec, d: Dec, high: int)
    requires InBox(sum, LOWEST, high) && InBox(d, LOWEST, HIGHEST) && HIGHEST <= high < LOWEST + PRECISION
    ensures Add(sum, d) == ExactAdd(sum, d) && InBox(ExactAdd(sum, d), LOWEST, high + 1)
  {
    hide InBox, ExactAdd, Round;
    BoxWiden(d, LOWEST, HIGHEST, LOWEST, high);
    BoxAdd(sum, d, LOWEST, high);
    BoxUnrounded(ExactAdd(sum, d), LOWEST, high + 1);
  }

  /** A rounded number is too long to be accepted, and so is the exact one. */
  lemma RoundedIsRefused(d: Dec)
    ensures ExactDecimal(Round(d, PRECISION)) <==> ExactDecimal(d)
    ensures ExactDecimal(d) ==> Round(d, PRECISION) == d
    ensures Neg(Round(d, PRECISION)) == Negated(Round(d, PRECISION))
    ensures ExactDecimal(Negated(d)) <==> ExactDecimal(d)
  {
    hide Digits, Adjusted;
    if PRECISION < Digits(Abs(d.coeff)) {
      RoundedDigits(d, PRECISION);
    }
    assert Adjusted(Negated(d)) == Adjusted(d) by {
      NegatedAdjusted(d);
    }
  }

  lemma NegatedAdjusted(d: Dec)
    ensures Adjusted(Negated(d)) == Adjusted(d)
  {
  }

  /** For all inputs: the economics are the exact ones, or the fill is refused; rounding is never delivered. */
  lemma EconomicsExact(side: Side, quantity: Dec, price: Dec, charges: Charges)
    ensures var exact := ExactEconomics(side, quantity, price, charges);
      FillEconomics(side, quantity, price, charges) ==
      if ExactDecimal(quantity) && ExactDecimal(price) && charges.Ok() && exact.Ok()
        then Ok(exact) else Err(InvalidInput)
  {
    if ExactDecimal(quantity) && ExactDecimal(price) && charges.Ok() {
      ProductExact(quantity, price);
      FeesBox(charges);
      hide ExactDecimal, Round, ExactAdd, ExactMul, Charges.Total, Charges.ExactTotal;
      var gross, fee := ExactMul(quantity, price), charges.ExactTotal();
      RoundedIsRefused(ExactAdd(gross, fee));
      RoundedIsRefused(Round(ExactAdd(gross, fee), PRECISION));
      RoundedIsRefused(ExactAdd(gross, Negated(fee)));
    }
  }

  lemma WholeIsAtLeastOne(d: Dec)
    requires Integral(d) && 1 <= d.coeff
    ensures 0 <= Adjusted(d)
  {
    if d.exp < 0 {
      var k := -d.exp;
      assert Pow10(k) <= d.coeff by {
        assert d.coeff == d.coeff / Pow10(k) * Pow10(k);
        ProductUpTo(Pow10(k), 1, if d.coeff / Pow10(k) < 1 then 1 else d.coeff / Pow10(k));
      }
      DigitsBound(d.coeff, k);
    }
  }

  lemma SmallestExponent(d: Dec)
    requires ExactDecimal(d)
    ensures Adjusted(d) - 199 <= d.exp && Adjusted(d) <= 200
  {
    hide Digits;
  }

  /** With a whole positive quantity nothing is rounded at all: the cash movement has at most 803 digits. */
  lemma EconomicsNeverRounds(side: Side, quantity: Dec, price: Dec, charges: Charges)
    requires Whole(quantity, true) && ExactDecimal(price) && charges.Ok()
    ensures WorkingEconomics(side, quantity, price, charges) == ExactEconomics(side, quantity, price, charges)
    ensures Digits(Abs(ExactEconomics(side, quantity, price, charges).cash.coeff)) <= 803
  {
    hide ExactDecimal, Round, ExactAdd, ExactMul, Charges.Total, Charges.ExactTotal, InBox, Digits, Adjusted,
      Integral;
    WholeIsAtLeastOne(quantity);
    ProductExact(quantity, price);
    FeesBox(charges);
    OwnBox(quantity);
    AcceptedBox(price);
    var top := Adjusted(quantity);
    SmallestExponent(quantity);
    BoxMul(quantity, price, quantity.exp, top + 1, LOWEST, HIGHEST);
    var gross, fee := ExactMul(quantity, price), charges.ExactTotal();
    var low := if top == 200 then LOWEST else top - 199 + LOWEST;
    var high := if top < 2 then HIGHEST + 3 else top + 1 + HIGHEST;
    BoxWiden(gross, quantity.exp + LOWEST, top + 1 + HIGHEST, low, high);
    BoxWiden(fee, LOWEST, HIGHEST + 3, low, high);
    CashBox(gross, fee, low, high);
  }

  lemma CashBox(gross: Dec, fee: Dec, low: int, high: int)
    requires InBox(gross, low, high) && InBox(fee, low, high) && 1 <= high + 1 - low <= 803
    ensures Add(gross, fee) == ExactAdd(gross, fee) && Sub(gross, fee) == ExactAdd(gross, Negated(fee))
    ensures Neg(ExactAdd(gross, fee)) == Negated(ExactAdd(gross, fee))
    ensures Digits(Abs(Negated(ExactAdd(gross, fee)).coeff)) <= 803
    ensures Digits(Abs(ExactAdd(gross, Negated(fee)).coeff)) <= 803
  {
    hide InBox, ExactAdd, Round, Digits;
    BoxAdd(gross, fee, low, high);
    BoxNegated(fee, low, high);
    BoxAdd(gross, Negated(fee), low, high);
    BoxNegated(ExactAdd(gross, fee), low, high + 1);
    BoxUnrounded(ExactAdd(gross, fee), low, high + 1);
    BoxUnrounded(ExactAdd(gross, Negated(fee)), low, high + 1);
    BoxUnrounded(Negated(ExactAdd(gross, fee)), low, high + 1);
    BoxDigits(ExactAdd(gross, Negated(fee)), low, high + 1);
    BoxDigits(Negated(ExactAdd(gross, fee)), low, high + 1);
  }

  /**
   * What the exact economics mean: the cash movement is the signed gross amount less every charge, on any common scale.
   */
  lemma EconomicsMeaning(side: Side, quantity: Dec, price: Dec, charges: Charges, e: int, f: int)
    requires e <= quantity.exp && f <= price.exp && e + f <= charges.commission.exp && e + f <= charges.stampDuty.exp
    requires e + f <= charges.transferFee.exp && e + f <= charges.otherFee.exp
    ensures var r, s := ExactEconomics(side, quantity, price, charges), e + f;
      && s <= r.gross.exp && s <= r.fee.exp && s <= r.cash.exp
      && At(r.gross, s) == At(quantity, e) * At(price, f)
      && At(r.fee, s)
        == At(charges.commission, s) + At(charges.stampDuty, s) + At(charges.transferFee, s) + At(charges.otherFee, s)
      && At(r.cash, s) == (if side == Buy then -At(r.gross, s) else At(r.gross, s)) - At(r.fee, s)
  {
    hide At;
    var s := e + f;
    MulAt(quantity, price, e, f);
    var two := ExactAdd(charges.commission, charges.stampDuty);
    var three := ExactAdd(two, charges.transferFee);
    AddAt(charges.commission, charges.stampDuty, s);
    AddAt(two, charges.transferFee, s);
    AddAt(three, charges.otherFee, s);
    var gross, fee := ExactMul(quantity, price), charges.ExactTotal();
    AddAt(gross, fee, s);
    NegatedAt(ExactAdd(gross, fee), s);
    NegatedAt(fee, s);
    AddAt(gross, Negated(fee), s);
  }

  // ---------------------------------------------------------------- per-order aggregates

  const ZERO: Dec := Dec(0, 0)

  function WorkingSum(xs: seq<Dec>): Dec {
    if xs == [] then ZERO else Add(WorkingSum(xs[..|xs| - 1]), xs[|xs| - 1])
  }

  function ExactSum(xs: seq<Dec>): Dec {
    if xs == [] then ZERO else ExactAdd(ExactSum(xs[..|xs| - 1]), xs[|xs| - 1])
  }

  predicate AllExact(xs: seq<Dec>) {
    forall i :: 0 <= i < |xs| ==> ExactDecimal(xs[i])
  }

  /** A multiple of the unit, at most n times the largest accepted size. */
  predicate Stacked(d: Dec, n: nat) {
    LOWEST <= d.exp && Abs(At(d, LOWEST)) <= n * Pow10(HIGHEST - LOWEST)
  }

  lemma StackedAdd(a: Dec, n: nat, b: Dec)
    requires Stacked(a, n) && ExactDecimal(b)
    ensures Stacked(ExactAdd(a, b), n + 1)
  {
    hide At, Pow10, ExactDecimal;
    AcceptedBox(b);
    AddAt(a, b, LOWEST);
    assert (n + 1) * Pow10(HIGHEST - LOWEST) == n * Pow10(HIGHEST - LOWEST) + Pow10(HIGHEST - LOWEST);
  }

  /** Up to 10^231 accepted amounts stay within the working precision. */
  lemma StackedUnrounded(d: Dec, n: nat)
    requires Stacked(d, n) && n <= Pow10(231)
    ensures Round(d, PRECISION) == d
  {
    hide At, Pow10, Round;
    ProductUpTo(Pow10(HIGHEST - LOWEST), n, Pow10(231));
    Pow10Add(231, HIGHEST - LOWEST);
    BelowNext(231 + HIGHEST - LOWEST);
    BoxUnrounded(d, LOWEST, HIGHEST + 232);
  }

  lemma BelowNext(k: nat)
    ensures Pow10(k) < Pow10(k + 1)
  {
  }

  /** So the running total is exact after every one of up to 10^231 fills. */
  lemma {:induction false} SumsExact(xs: seq<Dec>)
    requires AllExact(xs) && |xs| <= Pow10(231)
    ensures WorkingSum(xs) == ExactSum(xs) && Stacked(ExactSum(xs), |xs|)
  {
    hide Stacked, ExactDecimal, ExactAdd, Round, Pow10;
    if xs == [] {
      ZeroStacked();
    } else {
      var n := |xs| - 1;
      SumsExact(xs[..n]);
      StackedAdd(ExactSum(xs[..n]), n, xs[n]);
      StackedUnrounded(ExactAdd(ExactSum(xs[..n]), xs[n]), |xs|);
    }
  }

  lemma ZeroStacked()
    ensures Stacked(ZERO, 0)
  {
  }

  function SumAt(xs: seq<Dec>, e: int): int
    requires forall i :: 0 <= i < |xs| ==> e <= xs[i].exp
  {
    if xs == [] then 0 else SumAt(xs[..|xs| - 1], e) + At(xs[|xs| - 1], e)
  }

  /** The total is the sum of the amounts on any common scale, so the order of fills does not matter. */
  lemma {:induction false} SumMeaning(xs: seq<Dec>, e: int)
    requires e <= 0 && forall i :: 0 <= i < |xs| ==> e <= xs[i].exp
    ensures e <= ExactSum(xs).exp && At(ExactSum(xs), e) == SumAt(xs, e)
  {
    hide At;
    if xs == [] {
      assert At(ZERO, e) == 0 by {
        ZeroAt(e);
      }
    } else {
      SumMeaning(xs[..|xs| - 1], e);
      AddAt(ExactSum(xs[..|xs| - 1]), xs[|xs| - 1], e);
    }
  }

  lemma ZeroAt(e: int)
    requires e <= 0
    ensures At(ZERO, e) == 0
  {
  }

  /** One numeric field of one fill. */
  datatype Posting = Posting(order: Id, amount: Dec)

  function Of(postings: seq<Posting>, order: Id): seq<Dec> {
    if postings == [] then []
    else
      var last := postings[|postings| - 1];
      Of(postings[..|postings| - 1], order) + (if last.order == order then [last.amount] else [])
  }

  function Orders(postings: seq<Posting>): set<Id> {
    set p | p in postings :: p.order
  }

  /** One more posting joins the group of its order and leaves the other groups as they are. */
  lemma Posted(postings: seq<Posting>, n: nat)
    requires n < |postings|
    ensures Orders(postings[..n + 1]) == Orders(postings[..n]) + {postings[n].order}
    ensures forall order :: (
      Of(postings[..n + 1], order)
      == Of(postings[..n], order) + (if postings[n].order == order then [postings[n].amount] else []))
    ensures postings[n].order !in Orders(postings[..n]) ==> Of(postings[..n], postings[n].order) == []
  {
    assert postings[..n + 1] == postings[..n] + [postings[n]];
    assert postings[..n + 1][..n] == postings[..n];
    if postings[n].order !in Orders(postings[..n]) {
      NothingOf(postings[..n], postings[n].order);
    }
  }

  method GroupByOrder(postings: seq<Posting>) returns (groups: map<Id, seq<Dec>>)
    ensures groups.Keys == Orders(postings)
    ensures forall order :: order in groups ==> groups[order] == Of(postings, order)
  {
    groups := map[];
    assert Orders([]) == {};
    hide Of, Orders;
    for n := 0 to |postings|
      invariant groups.Keys == Orders(postings[..n])
      invariant forall order :: order in groups ==> groups[order] == Of(postings[..n], order)
    {
      var p := postings[n];
      Posted(postings, n);
      groups := groups[p.order := (if p.order in groups then groups[p.order] else []) + [p.amount]];
    }
    assert postings[..|postings|] == postings;
  }

  lemma {:induction false} NothingOf(postings: seq<Posting>, order: Id)
    requires order !in Orders(postings)
    ensures Of(postings, order) == []
  {
    if postings != [] {
      var n := |postings| - 1;
      assert postings[n] in postings;
      assert Orders(postings[..n]) <= Orders(postings);
      NothingOf(postings[..n], order);
    }
  }

  method Total(xs: seq<Dec>) returns (total: Dec)
    ensures total == WorkingSum(xs)
  {
    total := ZERO;
    for n := 0 to |xs|
      invariant total == WorkingSum(xs[..n])
    {
      assert xs[..n + 1][..n] == xs[..n];
      total := Add(total, xs[n]);
    }
    assert xs[..|xs|] == xs;
  }

  /** The totals of each order, or nothing when one of them is out of bounds. */
  method Aggregates(groups: map<Id, seq<Dec>>) returns (totals: Option<map<Id, Dec>>)
    ensures totals.Some? <==> forall order :: order in groups ==> ExactDecimal(WorkingSum(groups[order]))
    ensures totals.Some? ==> totals.value == map order | order in groups :: WorkingSum(groups[order])
  {
    hide ExactDecimal, WorkingSum;
    var result: map<Id, Dec> := map[];
    var rest := groups.Keys;
    while rest != {}
      invariant rest <= groups.Keys
      invariant forall order :: order in groups && order !in rest ==> ExactDecimal(WorkingSum(groups[order]))
      invariant result == map order | order in groups && order !in rest :: WorkingSum(groups[order])
    {
      var order :| order in rest;
      var total := Total(groups[order]);
      if !ExactDecimal(total) {
        return None;
      }
      result := result[order := total];
      rest := rest - {order};
    }
    return Some(result);
  }

  function Lookup(totals: map<Id, Dec>, order: Id): Dec {
    if order in totals then totals[order] else ZERO
  }

  /** One field's boundary check over expected and observed fills, in the exact arithmetic it is meant to have. */
  ghost predicate WithinBoundaries(expected: seq<Posting>, observed: seq<Posting>) {
    && (forall order :: order in Orders(expected) ==> ExactDecimal(ExactSum(Of(expected, order))))
    && (forall order :: order in Orders(observed) ==> ExactDecimal(ExactSum(Of(observed, order))))
    && (forall order :: order in Orders(expected) + Orders(observed) ==>
          ExactDecimal(ExactAdd(ExactSum(Of(observed, order)), Negated(ExactSum(Of(expected, order))))))
  }

  predicate Manageable(postings: seq<Posting>) {
    |postings| <= Pow10(231) && forall i :: 0 <= i < |postings| ==> ExactDecimal(postings[i].amount)
  }

  lemma {:induction false} OfManageable(postings: seq<Posting>, order: Id)
    requires forall i :: 0 <= i < |postings| ==> ExactDecimal(postings[i].amount)
    ensures AllExact(Of(postings, order)) && |Of(postings, order)| <= |postings|
  {
    hide ExactDecimal;
    if postings != [] {
      OfManageable(postings[..|postings| - 1], order);
    }
  }

  lemma OfExact(postings: seq<Posting>, order: Id)
    requires Manageable(postings)
    ensures WorkingSum(Of(postings, order)) == ExactSum(Of(postings, order))
  {
    hide ExactDecimal, WorkingSum, ExactSum, Pow10;
    OfManageable(postings, order);
    SumsExact(Of(postings, order));
  }

  /** The check as coded, rounding to the working precision at every step, decides the exact question. */
  method CheckAggregates(expected: seq<Posting>, observed: seq<Posting>) returns (ok: bool)
    ensures Manageable(expected) && Manageable(observed) ==> (ok <==> WithinBoundaries(expected, observed))
  {
    hide ExactDecimal, WorkingSum, ExactSum, ExactAdd, Round, Of, Manageable, Orders;
    var expectedGroups := GroupByOrder(expected);
    var observedGroups := GroupByOrder(observed);
    forall order
      ensures Manageable(expected) ==> WorkingSum(Of(expected, order)) == ExactSum(Of(expected, order))
      ensures Manageable(observed) ==> WorkingSum(Of(observed, order)) == ExactSum(Of(observed, order))
    {
      if Manageable(expected) {
        OfExact(expected, order);
      }
      if Manageable(observed) {
        OfExact(observed, order);
      }
    }
    var before := Aggregates(expectedGroups);
    if before.None? {
      return false;
    }
    var after := Aggregates(observedGroups);
    if after.None? {
      return false;
    }
    var rest := before.value.Keys + after.value.Keys;
    while rest != {}
      invariant rest <= Orders(expected) + Orders(observed)
      invariant forall order :: order in Orders(expected) + Orders(observed) && order !in rest ==>
        ExactDecimal(Sub(Lookup(after.value, order), Lookup(before.value, order)))
    {
      var order :| order in rest;
      if !ExactDecimal(Sub(Lookup(after.value, order), Lookup(before.value, order))) {
        LookupExact(expected, observed, before.value, after.value, order);
        return false;
      }
      rest := rest - {order};
    }
    forall order | Manageable(expected) && Manageable(observed) && order in Orders(expected) + Orders(observed)
      ensures ExactDecimal(ExactAdd(ExactSum(Of(observed, order)), Negated(ExactSum(Of(expected, order)))))
    {
      LookupExact(expected, observed, before.value, after.value, order);
    }
    return true;
  }

  lemma LookupExact(expected: seq<Posting>, observed: seq<Posting>, before: map<Id, Dec>, after: map<Id, Dec>,
      order: Id)
    requires before.Keys == Orders(expected) && after.Keys == Orders(observed)
    requires forall o :: o in before ==> before[o] == WorkingSum(Of(expected, o)) && ExactDecimal(before[o])
    requires forall o :: o in after ==> after[o] == WorkingSum(Of(observed, o)) && ExactDecimal(after[o])
    ensures Manageable(expected) && Manageable(observed) ==>
      Sub(Lookup(after, order), Lookup(before, order))
        == ExactAdd(ExactSum(Of(observed, order)), Negated(ExactSum(Of(expected, order))))
  {
    hide WorkingSum, ExactSum, ExactAdd, Round, Of, Manageable, Orders;
    NothingExact(expected, order);
    NothingExact(observed, order);
    ZeroAccepted();
    SumAndDifferenceExact(Lookup(after, order), Lookup(before, order));
    if Manageable(expected) && Manageable(observed) {
      OfExact(expected, order);
      OfExact(observed, order);
    }
  }

  lemma NothingExact(postings: seq<Posting>, order: Id)
    ensures order !in Orders(postings) ==> ExactSum(Of(postings, order)) == ZERO
  {
    if order !in Orders(postings) {
      NothingOf(postings, order);
    }
  }

  lemma ZeroAccepted()
    ensures ExactDecimal(ZERO)
  {
  }
}
