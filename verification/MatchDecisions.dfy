/** What a match decides, in arithmetic: how much is filled, at which price, and why nothing is. */
module MatchDecisions {
  import opened Outcomes
  import opened Sums
  import opened TickMath
  import opened Contracts
  import opened CNMarket
  import opened Matching

  // ---------------------------------------------------------------- which orders are valid

  /** The session state an order sees: its instrument and day, known at its time, and no later one known. */
  ghost predicate SessionSeen(rule: CNMarketRule, order: OrderEvent, s: SessionState) {
    && s in rule.sessions && KnownAt(order, s)
    && forall other :: other in rule.sessions && KnownAt(order, other) ==> other.availableAt <= s.availableAt
  }

  predicate KnownAt(order: OrderEvent, s: SessionState) {
    && s.key.instrumentId == order.key.instrumentId && s.day == order.head.day
    && s.observedAt <= order.head.time && s.availableAt <= order.head.time
  }

  /** A price on the tick grid and inside the day's limits. */
  ghost predicate PriceInside(rule: CNMarketRule, s: SessionState, price: real) {
    && MultipleOf(price, rule.tick)
    && (s.lower.Some? ==> s.lower.value <= price) && (s.upper.Some? ==> price <= s.upper.value)
  }

  /** The session trades the order's side, and its quantity and prices are on their grids. */
  ghost predicate Tradable(rule: CNMarketRule, order: OrderEvent, liquidation: Option<bool>, s: SessionState) {
    && MultipleOf(s.reference, rule.tick)
    && (s.lower.Some? ==> MultipleOf(s.lower.value, rule.tick))
    && (s.upper.Some? ==> MultipleOf(s.upper.value, rule.tick))
    && s.state != Suspended && (order.side == Buy ==> s.buyAllowed) && (order.side == Sell ==> s.sellAllowed)
    && 0.0 < order.quantity && order.quantity.Floor as real == order.quantity
    && (order.side == Buy ==> MultipleOf(order.quantity, rule.buyLot))
    && (order.side == Sell ==>
      MultipleOf(order.quantity, rule.sellLot) || (rule.allowOddLot && FullLiquidation(rule, order, liquidation)))
    && (order.limitPrice.Some? ==> PriceInside(rule, s, order.limitPrice.value))
    && (order.reference.price.Some? ==> PriceInside(rule, s, order.reference.price.value))
  }

  lemma KnownIs(order: OrderEvent)
    ensures forall s :: Known(s, order.key.instrumentId, order.head.day, order.head.time) <==> KnownAt(order, s)
  {
  }

  lemma SeenIsState(rule: CNMarketRule, order: OrderEvent, s: SessionState)
    requires rule.Valid()
    ensures StateFor(rule, order.key.instrumentId, order.head.day, order.head.time) == Ok(s) <==>
      SessionSeen(rule, order, s) && PricesAligned(rule, s)
  {
    hide CNMarketRule.Valid, StateFor, LatestKnown, PricesAligned, Known, KnownAt;
    TickPositive(rule);
    var id, day, asOf := order.key.instrumentId, order.head.day, order.head.time;
    KnownIs(order);
    StateForMeaning(rule, id, day, asOf);
    LatestKnownMeaning(rule.sessions, id, day, asOf);
    var r := StateFor(rule, id, day, asOf);
    if r == Ok(s) {
      forall other | other in rule.sessions && KnownAt(order, other)
        ensures other.availableAt <= s.availableAt
      {
        var i :| 0 <= i < |rule.sessions| && rule.sessions[i] == other;
        assert Known(rule.sessions[i], id, day, asOf);
      }
    }
    if SessionSeen(rule, order, s) && PricesAligned(rule, s) {
      var i :| 0 <= i < |rule.sessions| && rule.sessions[i] == s;
      assert Known(rule.sessions[i], id, day, asOf);
      var latest := LatestKnown(rule.sessions, id, day, asOf).value;
      KnownTogether(id, day, asOf, s, latest);
      SameSession(rule, s, latest);
    }
  }

  lemma KnownTogether(id: Id, day: Day, asOf: Instant, s: SessionState, t: SessionState)
    requires Known(s, id, day, asOf) && Known(t, id, day, asOf) && s.availableAt == t.availableAt
    ensures SameIdentity(s, t)
  {
  }

  lemma SameSession(rule: CNMarketRule, s: SessionState, t: SessionState)
    requires rule.Valid() && s in rule.sessions && t in rule.sessions && SameIdentity(s, t)
    ensures s == t
  {
  }

  lemma GridsAre(rule: CNMarketRule, order: OrderEvent, liquidation: Option<bool>, s: SessionState)
    requires rule.Valid()
    ensures Tradable(rule, order, liquidation, s) <==>
      && PricesAligned(rule, s) && s.state != Suspended && (if order.side == Buy then s.buyAllowed else s.sellAllowed)
      && QuantityAllowed(rule, order.side, order.quantity, Liquidates(rule, order, liquidation))
      && (order.limitPrice.Some? ==> PriceAllowed(rule, order.limitPrice.value, s))
      && (order.reference.price.Some? ==> PriceAllowed(rule, order.reference.price.value, s))
  {
    TickPositive(rule);
    LotPositive(rule, Buy);
    LotPositive(rule, Sell);
    AlignedIsMultiple(s.reference, rule.tick);
    if s.lower.Some? {
      AlignedIsMultiple(s.lower.value, rule.tick);
    }
    if s.upper.Some? {
      AlignedIsMultiple(s.upper.value, rule.tick);
    }
    if order.limitPrice.Some? {
      AlignedIsMultiple(order.limitPrice.value, rule.tick);
    }
    if order.reference.price.Some? {
      AlignedIsMultiple(order.reference.price.value, rule.tick);
    }
    AlignedIsMultiple(order.quantity, rule.buyLot);
    AlignedIsMultiple(order.quantity, rule.sellLot);
    hide MultipleOf, Aligned, CNMarketRule.Valid;
  }

  /** An order is valid, and sees session s, exactly when the rule is its type's and in force and s trades the order. */
  lemma OrderValidExactly(rule: CNMarketRule, order: OrderEvent, liquidation: Option<bool>, s: SessionState)
    requires rule.Valid()
    ensures ValidateOrder(rule, order, liquidation) == Ok(s) <==>
      && order.key.instrumentType == rule.instrumentType && rule.effectiveFrom <= order.head.day
      && (rule.effectiveTo.Some? ==> order.head.day <= rule.effectiveTo.value)
      && SessionSeen(rule, order, s) && Tradable(rule, order, liquidation, s)
  {
    hide CNMarketRule.Valid, SessionSeen, Tradable, StateFor, PricesAligned, QuantityAllowed, PriceAllowed,
      Liquidates;
    SeenIsState(rule, order, s);
    GridsAre(rule, order, liquidation, s);
  }

  // ---------------------------------------------------------------- when units settle

  /**
   * Units settle on the settlementDays-th trading day after the one they were acquired on, if the calendar has both.
   */
  lemma SettlesOnNth(rule: CNMarketRule, acquired: Day, settles: Day)
    requires rule.Valid()
    ensures SellableOn(rule, acquired) == Some(settles) <==>
      if rule.settlementDays == 0 then settles == acquired
      else exists i :: (
        && 0 <= i && i + rule.settlementDays < |rule.calendar|
        && rule.calendar[i] == acquired && rule.calendar[i + rule.settlementDays] == settles)
  {
    var k := IndexOf(rule.calendar, acquired);
    if k < |rule.calendar| {
      assert forall i :: 0 <= i < |rule.calendar| && rule.calendar[i] == acquired ==> i == k;
    }
  }

  // ---------------------------------------------------------------- what a match decides

  /** The caller's word, or the rule's list, makes the order a full liquidation. */
  predicate FullLiquidation(rule: CNMarketRule, order: OrderEvent, liquidation: Option<bool>) {
    liquidation == Some(true) || (liquidation.None? && order.orderId in rule.oddLotOrders)
  }

  /**
   * The largest quantity the rules permit: the residual itself when a sale may liquidate an odd lot within capacity,
   * otherwise the last lot multiple that neither the residual nor the capacity cuts off.
   */
  ghost predicate LargestPermitted(rule: CNMarketRule, order: OrderEvent, liquidation: Option<bool>, available: real,
      fill: real)
  {
    var residual := order.quantity - order.filledQuantity;
    var capacity := rule.maxParticipation * available;
    var lot := if order.side == Buy then rule.buyLot else rule.sellLot;
    if order.side == Sell && rule.allowOddLot && FullLiquidation(rule, order, liquidation) && residual <= capacity
    then fill == residual
    else
      && MultipleOf(fill, lot) && fill <= residual && fill <= capacity
      && (residual < fill + lot || capacity < fill + lot)
  }

  /** The share of the price lost to slippage: base plus impact times the share of the available quantity, capped. */
  function SlippageShare(model: Slippage, fill: real, available: real): real
    requires available != 0.0
  {
    var linear := model.baseRate + model.impactRate * (fill / available);
    if linear <= model.maximumRate then linear else model.maximumRate
  }

  /** The reference moved against the trader and rounded against the trader to a tick. */
  ghost predicate Rounded(reference: real, share: real, side: Side, tick: real, price: real) {
    && MultipleOf(price, tick) && 0.0 < price
    && (side == Buy ==> price - tick < reference * (1.0 + share) <= price)
    && (side == Sell ==> price <= reference * (1.0 - share) < price + tick)
  }

  /** Such a price, moved back inside the day's limits. */
  ghost predicate FairPrice(rule: CNMarketRule, model: Slippage, side: Side, s: SessionState, fill: real, price: real)
    requires s.available != 0.0
  {
    exists open :: Rounded(s.reference, SlippageShare(model, fill, s.available), side, rule.tick, open)
      && price == (
           if s.upper.Some? && s.upper.value < open then s.upper.value
           else if s.lower.Some? && open < s.lower.value then s.lower.value
           else open)
  }

  /** Neither leaves a choice. */
  lemma DecidedOnce(rule: CNMarketRule, order: OrderEvent, liquidation: Option<bool>, model: Slippage, s: SessionState,
      f: real, g: real, p: real, q: real)
    requires rule.Valid() && s.available != 0.0
    requires LargestPermitted(rule, order, liquidation, s.available, f)
    requires LargestPermitted(rule, order, liquidation, s.available, g)
    requires FairPrice(rule, model, order.side, s, f, p) && FairPrice(rule, model, order.side, s, f, q)
    ensures f == g && p == q
  {
    hide MultipleOf, SlippageShare, FullLiquidation;
    if f != g {
      SameMultiple(f, g, if order.side == Buy then rule.buyLot else rule.sellLot);
    }
    var share := SlippageShare(model, f, s.available);
    var a :| Rounded(s.reference, share, order.side, rule.tick, a) && p == (
           if s.upper.Some? && s.upper.value < a then s.upper.value
           else if s.lower.Some? && a < s.lower.value then s.lower.value else a);
    var b :| Rounded(s.reference, share, order.side, rule.tick, b) && q == (
           if s.upper.Some? && s.upper.value < b then s.upper.value
           else if s.lower.Some? && b < s.lower.value then s.lower.value else b);
    SameMultiple(a, b, rule.tick);
  }

  lemma FillIsPermitted(rule: CNMarketRule, order: OrderEvent, s: SessionState, liquidation: Option<bool>)
    requires rule.Valid() && ValidSession(s) && order.filledQuantity <= order.quantity
    ensures LargestPermitted(rule, order, liquidation, s.available, FillQuantity(rule, order, s, liquidation))
    ensures 0.0 < FillQuantity(rule, order, s, liquidation) ==> 0.0 < s.available
  {
    hide MultipleOf, Aligned, FillQuantity, Capacity, ValidSession, CNMarketRule.Valid, FloorToUnit;
    var fill := FillQuantity(rule, order, s, liquidation);
    FillIsLargest(rule, order, s, liquidation);
    CapacityIs(rule, s);
    LotPositive(rule, order.side);
    AlignedIsMultiple(fill, rule.LotSize(order.side));
    if 0.0 < fill {
      ParticipationBounds(rule, s, fill);
    }
  }

  lemma LotPositive(rule: CNMarketRule, side: Side)
    requires rule.Valid()
    ensures 0.0 < rule.LotSize(side)
  {
  }

  lemma CapacityIs(rule: CNMarketRule, s: SessionState)
    ensures Capacity(rule, s) == rule.maxParticipation * s.available
  {
  }

  lemma PriceIsFair(rule: CNMarketRule, model: Slippage, side: Side, s: SessionState, fill: real)
    requires rule.Valid() && ValidSession(s) && 0.0 < s.available
    requires ExecutionPrice(model, side, s.reference, fill / s.available, rule.tick).Ok?
    ensures var open := ExecutionPrice(model, side, s.reference, fill / s.available, rule.tick).value;
      FairPrice(rule, model, side, s, fill, Clamp(open, s))
  {
    hide CNMarketRule.Valid, ValidSession, Rounded, ExecutionPrice, Clamp, SlippageShare;
    TickPositive(rule);
    var open := ExecutionPrice(model, side, s.reference, fill / s.available, rule.tick).value;
    OpenIsRounded(model, side, s, fill, rule.tick);
    ClampIs(s, open);
  }

  lemma TickPositive(rule: CNMarketRule)
    requires rule.Valid()
    ensures 0.0 < rule.tick
  {
  }

  lemma OpenIsRounded(model: Slippage, side: Side, s: SessionState, fill: real, tick: real)
    requires 0.0 < s.available && 0.0 < tick && ExecutionPrice(model, side, s.reference, fill / s.available, tick).Ok?
    ensures Rounded(s.reference, SlippageShare(model, fill, s.available), side, tick,
      ExecutionPrice(model, side, s.reference, fill / s.available, tick).value)
  {
    hide MultipleOf, Aligned, SlippageShare, RawPrice, CeilToUnit, FloorToUnit;
    var open := ExecutionPrice(model, side, s.reference, fill / s.available, tick).value;
    var raw := RawPrice(model, side, s.reference, fill / s.available);
    RawIs(model, side, s, fill);
    if side == Buy {
      CeilIsLeast(raw, tick);
    } else {
      FloorIsGreatest(raw, tick);
    }
    AlignedIsMultiple(open, tick);
  }

  lemma RawIs(model: Slippage, side: Side, s: SessionState, fill: real)
    requires 0.0 < s.available
    ensures var share := SlippageShare(model, fill, s.available);
      RawPrice(model, side, s.reference, fill / s.available)
        == s.reference * (if side == Buy then 1.0 + share else 1.0 - share)
  {
  }

  lemma ClampIs(s: SessionState, price: real)
    requires ValidSession(s)
    ensures Clamp(price, s) == (
      if s.upper.Some? && s.upper.value < price then s.upper.value
      else if s.lower.Some? && price < s.lower.value then s.lower.value
      else price)
  {
  }

  /**
   * What a match answers. With the largest permitted quantity and the fair price it fills exactly when that quantity is
   * positive, is the whole residual or may be a part of it, and the price meets the limit if there is one; it then
   * fills that quantity at that price. Otherwise it says which of the three failed first.
   */
  lemma MatchDecides(rule: CNMarketRule, order: OrderEvent, model: Slippage, allowPartial: bool,
      liquidation: Option<bool>) returns (s: SessionState, fill: real, price: real)
    requires rule.Valid() && model.Valid() && ValidOrder(order)
    requires MatchOrder(rule, order, model, allowPartial, liquidation).Ok?
    ensures ValidateOrder(rule, order, liquidation) == Ok(s)
    ensures LargestPermitted(rule, order, liquidation, s.available, fill)
    ensures var residual := order.quantity - order.filledQuantity;
      var allowed := allowPartial || fill == residual;
      var meets := order.limitPrice.None?
        || (order.side == Buy && price <= order.limitPrice.value)
        || (order.side == Sell && order.limitPrice.value <= price);
      && (0.0 < fill && allowed ==> s.available != 0.0 && FairPrice(rule, model, order.side, s, fill, price))
      && MatchOrder(rule, order, model, allowPartial, liquidation).value == (
           if 0.0 < fill && allowed && meets && s.available != 0.0 then
             Match(if fill == residual then FullFill else PartFill, None, residual, fill, residual - fill, s.reference,
               Some(price), fill * price, fill / s.available)
           else
             Match(NoFill,
               Some(if fill <= 0.0 then ZeroCapacity else if !allowed then PartialDisabled else NotMarketable),
               residual, 0.0, residual, s.reference, None, 0.0, 0.0))
  {
    hide ValidateOrder, ValidOrder, CNMarketRule.Valid, ValidSession, LargestPermitted, FairPrice, FillQuantity,
      ExecutionPrice, Clamp, Slippage.Valid;
    TickPositive(rule);
    s := ValidateOrder(rule, order, liquidation).value;
    ValidatedSession(rule, order, liquidation);
    fill := FillQuantity(rule, order, s, liquidation);
    FillIsPermitted(rule, order, s, liquidation);
    FillWithin(rule, order, s, liquidation);
    LimitOrders(order);
    price := 0.0;
    var residual := order.quantity - order.filledQuantity;
    if 0.0 < fill && (allowPartial || fill == residual) {
      PriceIsFair(rule, model, order.side, s, fill);
      price := Clamp(ExecutionPrice(model, order.side, s.reference, fill / s.available, rule.tick).value, s);
      assert Times(fill, price) == fill * price;
    }
    hide Times;
  }

  lemma FillWithin(rule: CNMarketRule, order: OrderEvent, s: SessionState, liquidation: Option<bool>)
    requires rule.Valid() && ValidSession(s) && order.filledQuantity <= order.quantity
    ensures FillQuantity(rule, order, s, liquidation) <= order.quantity - order.filledQuantity
  {
    FillIsLargest(rule, order, s, liquidation);
  }

  lemma LimitOrders(order: OrderEvent)
    requires ValidOrder(order)
    ensures order.limitPrice.Some? <==> order.orderType == Limit
  {
  }
}
