/** What a match promises: the largest fill, a fair price, and exact bookkeeping over repeated sessions. */
module Matching {
  import opened Outcomes
  import opened Sums
  import opened TickMath
  import opened Contracts
  import opened CNMarket

  lemma CapacityBounds(rule: CNMarketRule, s: SessionState)
    requires rule.Valid() && 0.0 <= s.available
    ensures 0.0 <= Capacity(rule, s) <= s.available
  {
    if 0.0 < s.available {
      TimesMonotone(0.0, rule.maxParticipation, s.available);
      TimesMonotone(rule.maxParticipation, 1.0, s.available);
      TimesAdd(0.0, 0.0, s.available);
    } else {
      assert Times(rule.maxParticipation, 0.0) == 0.0;
    }
  }

  predicate WholeResidual(rule: CNMarketRule, order: OrderEvent, s: SessionState, liquidation: Option<bool>)
    requires rule.Valid()
  {
    order.side == Sell && rule.allowOddLot && Liquidates(rule, order, liquidation)
    && order.quantity - order.filledQuantity <= Capacity(rule, s)
  }

  /**
   * The fill is the largest lot multiple within min(residual, capacity), except that an authorised odd-lot
   * liquidation within capacity takes the whole residual.
   */
  lemma FillIsLargest(rule: CNMarketRule, order: OrderEvent, s: SessionState, liquidation: Option<bool>)
    requires rule.Valid() && ValidSession(s) && order.filledQuantity <= order.quantity
    ensures var requested := order.quantity - order.filledQuantity;
      var bound := Min(requested, Capacity(rule, s));
      var lot := rule.LotSize(order.side);
      var fill := FillQuantity(rule, order, s, liquidation);
      && 0.0 <= fill <= bound
      && (WholeResidual(rule, order, s, liquidation) ==> fill == requested)
      && (!WholeResidual(rule, order, s, liquidation) ==>
            Aligned(fill, lot) && bound < fill + lot
            && forall q: real :: Aligned(q, lot) && q <= bound ==> q <= fill)
  {
    hide FloorToUnit, Capacity;
    var requested := order.quantity - order.filledQuantity;
    var bound := Min(requested, Capacity(rule, s));
    var lot := rule.LotSize(order.side);
    CapacityBounds(rule, s);
    FloorIsGreatest(bound, lot);
    AlignedZero(lot);
    AlignedBelowFloor(0.0, bound, lot);
    forall q: real | Aligned(q, lot) && q <= bound
      ensures q <= FloorToUnit(bound, lot)
    {
      AlignedBelowFloor(q, bound, lot);
    }
  }

  // ---------------------------------------------------------------- prices

  lemma RateBounds(m: Slippage, p: real, q: real)
    requires m.Valid() && 0.0 <= p <= q
    ensures 0.0 <= m.Rate(p) <= m.Rate(q) < 1.0
  {
    if 0.0 < m.impactRate {
      TimesMonotone(p, q, m.impactRate);
      TimesMonotone(0.0, p, m.impactRate);
      TimesAdd(0.0, 0.0, m.impactRate);
      TimesSymmetric(m.impactRate, p);
      TimesSymmetric(m.impactRate, q);
    } else {
      assert Times(0.0, p) == 0.0 && Times(0.0, q) == 0.0;
    }
  }

  lemma TimesSymmetric(a: real, b: real)
    ensures Times(a, b) == Times(b, a)
  {
  }

  /** Slippage is adverse, and more adverse the larger the participation. */
  lemma RawPriceAdverse(m: Slippage, side: Side, reference: real, p: real, q: real)
    requires m.Valid() && 0.0 <= p <= q && 0.0 < reference
    ensures side == Buy ==> reference <= RawPrice(m, side, reference, p) <= RawPrice(m, side, reference, q)
    ensures side == Sell ==> 0.0 < RawPrice(m, side, reference, q) <= RawPrice(m, side, reference, p) <= reference
  {
    hide Times;
    RateBounds(m, p, q);
    var a, b := m.Rate(p), m.Rate(q);
    TimesMonotone(1.0, 1.0 + a, reference);
    TimesMonotone(1.0 + a, 1.0 + b, reference);
    TimesMonotone(1.0 - b, 1.0 - a, reference);
    TimesMonotone(1.0 - a, 1.0, reference);
    TimesMonotone(0.0, 1.0 - b, reference);
    TimesAdd(0.0, 0.0, reference);
  }

  /** An executed price is tick-aligned, never better than the reference, and inside the session's limits. */
  lemma PriceBounds(rule: CNMarketRule, m: Slippage, side: Side, s: SessionState, participation: real)
    requires rule.Valid() && m.Valid() && ValidSession(s) && PricesAligned(rule, s)
    requires ExecutionPrice(m, side, s.reference, participation, rule.tick).Ok?
    ensures var price := Clamp(ExecutionPrice(m, side, s.reference, participation, rule.tick).value, s);
      && Aligned(price, rule.tick) && 0.0 < price
      && (side == Buy ==> s.reference <= price && (s.upper.Some? ==> price <= s.upper.value))
      && (side == Sell ==> price <= s.reference && (s.lower.Some? ==> s.lower.value <= price))
  {
    hide FloorToUnit, CeilToUnit, RawPrice;
    var raw := RawPrice(m, side, s.reference, participation);
    RawPriceAdverse(m, side, s.reference, participation, participation);
    if side == Buy {
      CeilIsLeast(raw, rule.tick);
    } else {
      FloorIsGreatest(raw, rule.tick);
    }
  }

  /** The executed price weakly worsens for the trader as the filled share grows. */
  lemma PriceWorsens(rule: CNMarketRule, m: Slippage, side: Side, s: SessionState, p: real, q: real)
    requires rule.Valid() && m.Valid() && ValidSession(s) && 0.0 <= p <= q
    requires ExecutionPrice(m, side, s.reference, p, rule.tick).Ok?
    requires ExecutionPrice(m, side, s.reference, q, rule.tick).Ok?
    ensures var small := Clamp(ExecutionPrice(m, side, s.reference, p, rule.tick).value, s);
      var large := Clamp(ExecutionPrice(m, side, s.reference, q, rule.tick).value, s);
      if side == Buy then small <= large else large <= small
  {
    hide FloorToUnit, CeilToUnit, RawPrice;
    RawPriceAdverse(m, side, s.reference, p, q);
    if side == Buy {
      CeilMonotone(RawPrice(m, side, s.reference, p), RawPrice(m, side, s.reference, q), rule.tick);
    } else {
      FloorMonotone(RawPrice(m, side, s.reference, q), RawPrice(m, side, s.reference, p), rule.tick);
    }
  }

  // ---------------------------------------------------------------- one match

  lemma ParticipationBounds(rule: CNMarketRule, s: SessionState, fill: real)
    requires rule.Valid() && ValidSession(s) && 0.0 < fill <= Capacity(rule, s)
    ensures 0.0 < s.available && 0.0 <= fill / s.available <= 1.0
  {
    CapacityBounds(rule, s);
    hide Capacity;
    QuotientLe(0.0, fill, s.available);
    QuotientLe(fill, s.available, s.available);
    SelfQuotient(s.available);
  }

  lemma SelfQuotient(a: real)
    requires 0.0 < a
    ensures a / a == 1.0
  {
  }

  /** Everything an executed match says about itself. */
  lemma MatchMeaning(rule: CNMarketRule, order: OrderEvent, model: Slippage, allowPartial: bool,
      liquidation: Option<bool>)
    requires rule.Valid() && model.Valid() && ValidOrder(order)
    requires MatchOrder(rule, order, model, allowPartial, liquidation).Ok?
    ensures var m := MatchOrder(rule, order, model, allowPartial, liquidation).value;
      var s := ValidateOrder(rule, order, liquidation).value;
      && ValidMatch(m) && m.requested == order.quantity - order.filledQuantity
      && s in rule.sessions && Known(s, order.key.instrumentId, order.head.day, order.head.time)
      && (m.status != NoFill ==>
            && m.filled == FillQuantity(rule, order, s, liquidation)
            && (order.side == Buy ==>
              s.reference <= m.price.value && (s.upper.Some? ==> m.price.value <= s.upper.value))
            && (order.side == Sell ==>
              m.price.value <= s.reference && (s.lower.Some? ==> s.lower.value <= m.price.value))
            && Aligned(m.price.value, rule.tick) && Marketable(order, m.price.value)
            && (!allowPartial ==> m.status == FullFill))
  {
    hide FloorToUnit, CeilToUnit, RawPrice, FillQuantity, Times, QuantityAllowed, PriceAllowed, StateFor,
      ExecutionPrice, ValidOrder, ValidSession, Aligned;
    var s := ValidateOrder(rule, order, liquidation).value;
    StateForMeaning(rule, order.key.instrumentId, order.head.day, order.head.time);
    SessionOfRule(rule, s);
    var fill := FillQuantity(rule, order, s, liquidation);
    if 0.0 < fill && s.available != 0.0 {
      var participation := fill / s.available;
      if ExecutionPrice(model, order.side, s.reference, participation, rule.tick).Ok? {
        PriceBounds(rule, model, order.side, s, participation);
      }
    }
  }

  lemma SessionOfRule(rule: CNMarketRule, s: SessionState)
    requires rule.Valid() && s in rule.sessions
    ensures ValidSession(s)
  {
  }

  /**
   * After order validation a match fails only where it must: the slippage model does not cover the day, the order has
   * no residual left, or a sale's adverse price rounds below one tick. The result's own validator never rejects else.
   */
  lemma MatchAccepted(rule: CNMarketRule, order: OrderEvent, model: Slippage, allowPartial: bool,
      liquidation: Option<bool>)
    requires rule.Valid() && model.Valid() && ValidOrder(order) && ValidateOrder(rule, order, liquidation).Ok?
    ensures var s := ValidateOrder(rule, order, liquidation).value;
      var fill := FillQuantity(rule, order, s, liquidation);
      var executes := 0.0 < fill && (allowPartial || fill == order.quantity - order.filledQuantity);
      MatchOrder(rule, order, model, allowPartial, liquidation).Ok? <==>
        && model.effectiveFrom <= order.head.day
        && (model.effectiveTo.Some? ==> order.head.day <= model.effectiveTo.value)
        && order.filledQuantity < order.quantity
        && (executes && order.side == Sell ==>
              0.0 < FloorToUnit(RawPrice(model, Sell, s.reference, fill / s.available), rule.tick))
  {
    ValidatedSession(rule, order, liquidation);
    var s := ValidateOrder(rule, order, liquidation).value;
    FillIsLargest(rule, order, s, liquidation);
    hide FillQuantity, Capacity, Times, QuantityAllowed, PriceAllowed, StateFor, ValidOrder, CNMarketRule.Valid,
      ValidSession, Aligned, FloorToUnit, CeilToUnit, RawPrice, ExecutionPrice, ValidateOrder;
    var fill := FillQuantity(rule, order, s, liquidation);
    if 0.0 < fill {
      ParticipationBounds(rule, s, fill);
      PriceSucceeds(model, order.side, s.reference, fill / s.available, rule.tick);
      ClampPositive(rule, model, order.side, s, fill / s.available);
      GrossPositive(fill);
    }
  }

  lemma ValidatedSession(rule: CNMarketRule, order: OrderEvent, liquidation: Option<bool>)
    requires rule.Valid() && ValidOrder(order) && ValidateOrder(rule, order, liquidation).Ok?
    ensures var s := ValidateOrder(rule, order, liquidation).value;
      s in rule.sessions && ValidSession(s) && 0.0 < s.reference && order.filledQuantity <= order.quantity
  {
    StateForMeaning(rule, order.key.instrumentId, order.head.day, order.head.time);
    SessionOfRule(rule, ValidateOrder(rule, order, liquidation).value);
  }

  lemma PriceSucceeds(m: Slippage, side: Side, reference: real, participation: real, tick: real)
    requires m.Valid() && 0.0 < reference && 0.0 < tick && 0.0 <= participation <= 1.0
    ensures ExecutionPrice(m, side, reference, participation, tick).Ok? <==>
      (side == Sell ==> 0.0 < FloorToUnit(RawPrice(m, Sell, reference, participation), tick))
  {
    hide FloorToUnit, CeilToUnit, RawPrice;
    RawPriceAdverse(m, side, reference, participation, participation);
    CeilIsLeast(RawPrice(m, side, reference, participation), tick);
  }

  lemma ClampPositive(rule: CNMarketRule, m: Slippage, side: Side, s: SessionState, participation: real)
    requires rule.Valid() && ValidSession(s)
    ensures var r := ExecutionPrice(m, side, s.reference, participation, rule.tick);
      r.Ok? ==> 0.0 < Clamp(r.value, s)
  {
    hide FloorToUnit, CeilToUnit, RawPrice;
  }

  lemma GrossPositive(fill: real)
    requires 0.0 < fill
    ensures forall price: real :: 0.0 < price ==> 0.0 <= Times(fill, price)
  {
  }

  // ---------------------------------------------------------------- repeated sessions

  datatype Attempt = Attempt(rule: CNMarketRule, head: Header, model: Slippage, allowPartial: bool,
    liquidation: Option<bool>)

  predicate ValidAttempt(a: Attempt) {
    a.rule.Valid() && a.model.Valid()
  }

  /** Carry an order through successive sessions, each filling part of the residual. */
  function Work(order: OrderEvent, attempts: seq<Attempt>): Result<OrderEvent>
    requires forall i :: 0 <= i < |attempts| ==> ValidAttempt(attempts[i])
    decreases |attempts|
  {
    if attempts == [] then Ok(order)
    else
      var a := attempts[0];
      assert ValidAttempt(a);
      var m :- MatchOrder(a.rule, order.(head := a.head), a.model, a.allowPartial, a.liquidation);
      Work(order.(filledQuantity := order.filledQuantity + m.filled), attempts[1..])
  }

  function Filled(order: OrderEvent, attempts: seq<Attempt>): real
    requires forall i :: 0 <= i < |attempts| ==> ValidAttempt(attempts[i])
    requires Work(order, attempts).Ok?
    decreases |attempts|
  {
    if attempts == [] then 0.0
    else
      var a := attempts[0];
      assert ValidAttempt(a);
      var m := MatchOrder(a.rule, order.(head := a.head), a.model, a.allowPartial, a.liquidation).value;
      m.filled + Filled(order.(filledQuantity := order.filledQuantity + m.filled), attempts[1..])
  }

  lemma MatchWithinResidual(a: Attempt, order: OrderEvent)
    requires ValidAttempt(a) && 0.0 <= order.filledQuantity <= order.quantity
    requires MatchOrder(a.rule, order.(head := a.head), a.model, a.allowPartial, a.liquidation).Ok?
    ensures 0.0 <= MatchOrder(a.rule, order.(head := a.head), a.model, a.allowPartial, a.liquidation).value.filled
      <= order.quantity - order.filledQuantity
  {
    hide ValidateOrder, FillQuantity, Capacity, Times, RawPrice, CNMarketRule.Valid, FloorToUnit, CeilToUnit,
      ExecutionPrice;
  }

  lemma MatchAligned(a: Attempt, order: OrderEvent)
    requires ValidAttempt(a) && 0.0 <= order.filledQuantity <= order.quantity
    requires MatchOrder(a.rule, order.(head := a.head), a.model, a.allowPartial, a.liquidation).Ok?
    ensures var lot := a.rule.LotSize(order.side);
      var m := MatchOrder(a.rule, order.(head := a.head), a.model, a.allowPartial, a.liquidation).value;
      && 0.0 < lot
      && (Aligned(order.quantity - order.filledQuantity, lot) ==>
        Aligned(order.quantity - order.filledQuantity - m.filled, lot))
  {
    var o := order.(head := a.head);
    var s := ValidateOrder(a.rule, o, a.liquidation).value;
    StateForMeaning(a.rule, o.key.instrumentId, o.head.day, o.head.time);
    SessionOfRule(a.rule, s);
    var lot := a.rule.LotSize(order.side);
    hide ValidateOrder, FillQuantity, Capacity, Times, RawPrice, CNMarketRule.Valid, ValidSession, FloorToUnit,
      CeilToUnit, ExecutionPrice, Aligned, CNMarketRule.LotSize;
    FillIsLargest(a.rule, o, s, a.liquidation);
    var requested := order.quantity - order.filledQuantity;
    var m := MatchOrder(a.rule, o, a.model, a.allowPartial, a.liquidation).value;
    AlignedZero(lot);
    if Aligned(requested, lot) && Aligned(m.filled, lot) {
      AlignedCombine(requested, m.filled, lot);
    }
  }

  /**
   * Over any sessions, whatever their rules and lot sizes, fills plus residual equal the order; nothing else of it
   * changes.
   */
  lemma {:induction false} RepeatedSessions(order: OrderEvent, attempts: seq<Attempt>)
    requires forall i :: 0 <= i < |attempts| ==> ValidAttempt(attempts[i])
    requires 0.0 <= order.filledQuantity <= order.quantity && Work(order, attempts).Ok?
    ensures var final := Work(order, attempts).value;
      && final.filledQuantity == order.filledQuantity + Filled(order, attempts)
      && final == order.(filledQuantity := final.filledQuantity)
      && order.filledQuantity <= final.filledQuantity <= order.quantity
    decreases |attempts|
  {
    hide MatchOrder, CNMarketRule.Valid, Slippage.Valid;
    if attempts != [] {
      var a := attempts[0];
      assert ValidAttempt(a);
      MatchWithinResidual(a, order);
      var m := MatchOrder(a.rule, order.(head := a.head), a.model, a.allowPartial, a.liquidation).value;
      RepeatedSessions(order.(filledQuantity := order.filledQuantity + m.filled), attempts[1..]);
    }
  }

  /** And while the sessions share a lot size, a lot-aligned residual stays lot-aligned. */
  lemma {:induction false} ResidualStaysAligned(order: OrderEvent, attempts: seq<Attempt>, lot: real)
    requires forall i :: 0 <= i < |attempts| ==>
      ValidAttempt(attempts[i]) && attempts[i].rule.LotSize(order.side) == lot
    requires 0.0 < lot && 0.0 <= order.filledQuantity <= order.quantity && Work(order, attempts).Ok?
    requires Aligned(order.quantity - order.filledQuantity, lot)
    ensures var final := Work(order, attempts).value;
      final.quantity == order.quantity && Aligned(order.quantity - final.filledQuantity, lot)
    decreases |attempts|
  {
    hide MatchOrder, CNMarketRule.Valid, Slippage.Valid, Aligned, CNMarketRule.LotSize;
    if attempts != [] {
      var a := attempts[0];
      assert ValidAttempt(a);
      MatchWithinResidual(a, order);
      MatchAligned(a, order);
      var m := MatchOrder(a.rule, order.(head := a.head), a.model, a.allowPartial, a.liquidation).value;
      ResidualStaysAligned(order.(filledQuantity := order.filledQuantity + m.filled), attempts[1..], lot);
    }
  }
}
