/** China market mechanics: point-in-time session states, settlement dates, order units, slippage and matching. */
module CNMarket {
  import opened Outcomes
  import opened Sums
  import opened TickMath
  import opened Contracts
  import opened EngineModel

  datatype TradeState = Normal | Suspended | OnePriceLimitUp | OnePriceLimitDown | LimitUp | LimitDown

  datatype SessionState = SessionState(
    key: Key, day: Day, observedAt: Instant, availableAt: Instant, revision: Id, dataVersion: Id,
    state: TradeState, buyAllowed: bool, sellAllowed: bool, reference: real,
    lower: Option<real>, upper: Option<real>, available: real)

  predicate ValidSession(s: SessionState) {
    && TradingDayOf(s.observedAt) == s.day && s.observedAt <= s.availableAt
    && 0.0 < s.reference && 0.0 <= s.available && Whole(s.available)
    && (s.lower.None? <==> s.upper.None?)
    && (s.lower.Some? ==>
          && 0.0 < s.lower.value < s.upper.value && s.lower.value <= s.reference <= s.upper.value
          && (s.state in {OnePriceLimitUp, LimitUp} ==> s.reference == s.upper.value)
          && (s.state in {OnePriceLimitDown, LimitDown} ==> s.reference == s.lower.value))
    && (s.lower.None? ==> s.state in {Normal, Suspended})
    && (s.state == Suspended ==> !s.buyAllowed && !s.sellAllowed)
  }

  datatype CNMarketRule = CNMarketRule(
    instrumentType: InstrumentType, effectiveFrom: Day, effectiveTo: Option<Day>,
    sessions: seq<SessionState>, calendar: seq<Day>, buyLot: real, sellLot: real,
    allowOddLot: bool, oddLotOrders: set<Id>, settlementDays: nat, tick: real, maxParticipation: real)
  {
    predicate Valid() {
      && (effectiveTo.Some? ==> effectiveFrom <= effectiveTo.value)
      && 0.0 < buyLot && Whole(buyLot) && 0.0 < sellLot && Whole(sellLot)
      && 0.0 < tick && 0.0 < maxParticipation <= 1.0
      && (forall i, j :: 0 <= i < j < |calendar| ==> calendar[i] < calendar[j])
      && (oddLotOrders != {} ==> allowOddLot)
      && (forall i :: 0 <= i < |sessions| ==>
        ValidSession(sessions[i]) && sessions[i].key.instrumentType == instrumentType)
      && (forall i, j :: 0 <= i < j < |sessions| && SameIdentity(sessions[i], sessions[j]) ==>
        sessions[i] == sessions[j])
    }

    predicate AppliesOn(day: Day) {
      effectiveFrom <= day && (effectiveTo.None? || day <= effectiveTo.value)
    }

    function LotSize(side: Side): real {
      if side == Buy then buyLot else sellLot
    }
  }

  predicate SameIdentity(a: SessionState, b: SessionState) {
    a.key.instrumentId == b.key.instrumentId && a.day == b.day && a.availableAt == b.availableAt
  }

  // ---------------------------------------------------------------- settlement

  function IndexOf(calendar: seq<Day>, day: Day): (i: nat)
    ensures i <= |calendar|
    ensures i < |calendar| ==> calendar[i] == day
    ensures i == |calendar| ==> day !in calendar
  {
    if calendar == [] then 0 else if calendar[0] == day then 0 else 1 + IndexOf(calendar[1..], day)
  }

  /** The first sellable date of units acquired on a day; none when the calendar cannot resolve the horizon. */
  function SellableOn(rule: CNMarketRule, acquired: Day): Option<Day> {
    if rule.settlementDays == 0 then Some(acquired)
    else
      var i := IndexOf(rule.calendar, acquired);
      if i + rule.settlementDays < |rule.calendar| then Some(rule.calendar[i + rule.settlementDays]) else None
  }

  /**
   * Settlement answers a strictly later trading date (when any settlement is configured), monotone in the acquisition.
   */
  lemma SettlementMonotone(rule: CNMarketRule, a: Day, b: Day)
    requires rule.Valid() && a <= b && SellableOn(rule, a).Some? && SellableOn(rule, b).Some?
    ensures SellableOn(rule, a).value <= SellableOn(rule, b).value
    ensures 0 < rule.settlementDays ==> a < SellableOn(rule, a).value && SellableOn(rule, a).value in rule.calendar
    ensures a < b ==> SellableOn(rule, a).value < SellableOn(rule, b).value
  {
    var i, j := IndexOf(rule.calendar, a), IndexOf(rule.calendar, b);
    if 0 < rule.settlementDays {
      assert rule.calendar[i] < rule.calendar[i + rule.settlementDays];
      if i < j {
        assert rule.calendar[i + rule.settlementDays] < rule.calendar[j + rule.settlementDays];
      }
    }
  }

  // ---------------------------------------------------------------- session states

  predicate Known(s: SessionState, id: Id, day: Day, asOf: Instant) {
    s.key.instrumentId == id && s.day == day && s.observedAt <= asOf && s.availableAt <= asOf
  }

  /** The first known state with the greatest availability. */
  function LatestKnown(states: seq<SessionState>, id: Id, day: Day, asOf: Instant): Option<SessionState> {
    if states == [] then None
    else
      var best := LatestKnown(states[..|states| - 1], id, day, asOf);
      var s := states[|states| - 1];
      if Known(s, id, day, asOf) && (best.None? || best.value.availableAt < s.availableAt) then Some(s) else best
  }

  predicate Ambiguous(states: seq<SessionState>, id: Id, day: Day, asOf: Instant, latest: SessionState) {
    exists i :: 0 <= i < |states| && Known(states[i], id, day, asOf)
      && states[i].availableAt == latest.availableAt && states[i] != latest
  }

  predicate PricesAligned(rule: CNMarketRule, s: SessionState)
    requires rule.tick > 0.0
  {
    && Aligned(s.reference, rule.tick)
    && (s.lower.Some? ==> Aligned(s.lower.value, rule.tick))
    && (s.upper.Some? ==> Aligned(s.upper.value, rule.tick))
  }

  function StateFor(rule: CNMarketRule, id: Id, day: Day, asOf: Instant): Result<SessionState>
    requires rule.Valid()
  {
    var latest := LatestKnown(rule.sessions, id, day, asOf);
    if latest.None? then Err(MarketRuleRejected)
    else if Ambiguous(rule.sessions, id, day, asOf, latest.value) then Err(MarketRuleRejected)
    else if !PricesAligned(rule, latest.value) then Err(MarketRuleRejected)
    else Ok(latest.value)
  }

  lemma {:induction false} LatestKnownMeaning(states: seq<SessionState>, id: Id, day: Day, asOf: Instant)
    ensures var r := LatestKnown(states, id, day, asOf);
      && (r.None? <==> forall i :: 0 <= i < |states| ==> !Known(states[i], id, day, asOf))
      && (r.Some? ==> r.value in states && Known(r.value, id, day, asOf))
      && (r.Some? ==> (forall i :: 0 <= i < |states| && Known(states[i], id, day, asOf) ==>
            states[i].availableAt <= r.value.availableAt))
  {
    if states != [] {
      var n := |states| - 1;
      var front := states[..n];
      LatestKnownMeaning(front, id, day, asOf);
      assert forall i :: 0 <= i < n ==> states[i] == front[i];
    }
  }

  /** The state returned is the latest one known, and the ambiguity check can never fire on a constructed rule. */
  lemma StateForMeaning(rule: CNMarketRule, id: Id, day: Day, asOf: Instant)
    requires rule.Valid()
    ensures var r := StateFor(rule, id, day, asOf);
      && (r.Ok? ==> r.value in rule.sessions && Known(r.value, id, day, asOf) && PricesAligned(rule, r.value))
      && (r.Ok? ==> (forall i :: 0 <= i < |rule.sessions| && Known(rule.sessions[i], id, day, asOf) ==>
            rule.sessions[i].availableAt < r.value.availableAt || rule.sessions[i] == r.value))
      && (r.Err? <==> (LatestKnown(rule.sessions, id, day, asOf).None?
            || !PricesAligned(rule, LatestKnown(rule.sessions, id, day, asOf).value)))
  {
    LatestKnownMeaning(rule.sessions, id, day, asOf);
    var latest := LatestKnown(rule.sessions, id, day, asOf);
    if latest.Some? {
      var k :| 0 <= k < |rule.sessions| && rule.sessions[k] == latest.value;
      forall i | 0 <= i < |rule.sessions| && Known(rule.sessions[i], id, day, asOf)
        && rule.sessions[i].availableAt == latest.value.availableAt
        ensures rule.sessions[i] == latest.value
      {
        assert SameIdentity(rule.sessions[i], rule.sessions[k]);
      }
    }
  }

  function KnownOnly(states: seq<SessionState>, id: Id, day: Day, asOf: Instant): seq<SessionState> {
    if states == [] then []
    else
      var s := states[|states| - 1];
      KnownOnly(states[..|states| - 1], id, day, asOf) + (if Known(s, id, day, asOf) then [s] else [])
  }

  /** Point in time: two histories that agree on what was known give the same state, whatever was published later. */
  lemma {:induction false} LatestKnownPointInTime(states: seq<SessionState>, id: Id, day: Day, asOf: Instant)
    ensures LatestKnown(states, id, day, asOf) == LatestKnown(KnownOnly(states, id, day, asOf), id, day, asOf)
  {
    if states != [] {
      var front, s := states[..|states| - 1], states[|states| - 1];
      LatestKnownPointInTime(front, id, day, asOf);
      var kept := KnownOnly(front, id, day, asOf);
      assert (kept + [s])[..|kept|] == kept;
      assert kept + [] == kept;
    }
  }

  // ---------------------------------------------------------------- order validation

  predicate QuantityAllowed(rule: CNMarketRule, side: Side, quantity: real, liquidation: bool)
    requires rule.Valid()
  {
    && 0.0 < quantity && Whole(quantity)
    && (side == Buy ==> Aligned(quantity, rule.buyLot))
    && (side == Sell ==> Aligned(quantity, rule.sellLot) || (rule.allowOddLot && liquidation))
  }

  predicate PriceAllowed(rule: CNMarketRule, price: real, s: SessionState)
    requires rule.Valid()
  {
    && Aligned(price, rule.tick)
    && (s.lower.Some? ==> s.lower.value <= price)
    && (s.upper.Some? ==> price <= s.upper.value)
  }

  function Liquidates(rule: CNMarketRule, order: OrderEvent, liquidation: Option<bool>): bool {
    if liquidation.None? then order.orderId in rule.oddLotOrders else liquidation.value
  }

  function ValidateOrder(rule: CNMarketRule, order: OrderEvent, liquidation: Option<bool>): Result<SessionState>
    requires rule.Valid()
  {
    if order.key.instrumentType != rule.instrumentType || !rule.AppliesOn(order.head.day) then Err(MarketRuleRejected)
    else
      var s :- StateFor(rule, order.key.instrumentId, order.head.day, order.head.time);
      :- Need(s.state != Suspended, MarketRuleRejected);
      :- Need(if order.side == Buy then s.buyAllowed else s.sellAllowed, MarketRuleRejected);
      :- Need(QuantityAllowed(rule, order.side, order.quantity, Liquidates(rule, order, liquidation)),
        MarketRuleRejected);
      :- Need(order.limitPrice.Some? ==> PriceAllowed(rule, order.limitPrice.value, s), MarketRuleRejected);
      :- Need(order.reference.price.Some? ==> PriceAllowed(rule, order.reference.price.value, s), MarketRuleRejected);
      Ok(s)
  }

  /** The shared MarketRule protocol, as this rule implements it for the engine. */
  function AsMarketRule(rule: CNMarketRule): MarketRule
    requires rule.Valid()
  {
    MarketRule(rule.instrumentType, rule.effectiveFrom,
      (order: OrderEvent) => ValidateOrder(rule, order, None).Ok?,
      (day: Day) => SellableOn(rule, day))
  }

  // ---------------------------------------------------------------- slippage

  datatype Slippage = Slippage(
    effectiveFrom: Day, effectiveTo: Option<Day>, baseRate: real, impactRate: real, maximumRate: real)
  {
    predicate Valid() {
      && (effectiveTo.Some? ==> effectiveFrom <= effectiveTo.value)
      && 0.0 <= baseRate <= maximumRate < 1.0 && 0.0 <= impactRate
    }

    predicate AppliesOn(day: Day) {
      effectiveFrom <= day && (effectiveTo.None? || day <= effectiveTo.value)
    }

    function Rate(participation: real): real {
      Min(baseRate + Times(impactRate, participation), maximumRate)
    }
  }

  function RawPrice(m: Slippage, side: Side, reference: real, participation: real): real {
    if side == Buy then Times(1.0 + m.Rate(participation), reference) else Times(1.0 - m.Rate(participation), reference)
  }

  /** Adverse slippage, rounded against the trader to a tick; the code raises when nothing positive is left. */
  function ExecutionPrice(m: Slippage, side: Side, reference: real, participation: real, tick: real): Result<real>
    requires tick > 0.0
  {
    if !(0.0 <= participation <= 1.0) then Err(InvalidInput)
    else
      var raw := RawPrice(m, side, reference, participation);
      var price := if side == Buy then CeilToUnit(raw, tick) else FloorToUnit(raw, tick);
      :- Need(0.0 < price, InvalidInput);
      Ok(price)
  }

  // ---------------------------------------------------------------- matching

  datatype MatchStatus = NoFill | PartFill | FullFill
  datatype NoFillReason = ZeroCapacity | PartialDisabled | NotMarketable

  datatype Match = Match(
    status: MatchStatus, reason: Option<NoFillReason>, requested: real, filled: real, unfilled: real,
    reference: real, price: Option<real>, gross: real, participation: real)

  /** What MatchResult's own constructor enforces. */
  predicate ValidMatch(m: Match) {
    && 0.0 < m.requested && 0.0 <= m.filled && 0.0 <= m.unfilled && 0.0 < m.reference && 0.0 <= m.gross
    && 0.0 <= m.participation <= 1.0
    && m.filled + m.unfilled == m.requested
    && (m.status == NoFill ==> m.reason.Some? && m.filled == 0.0 && m.price.None? && m.gross == 0.0)
    && (m.status != NoFill ==>
      m.reason.None? && m.price.Some? && 0.0 < m.filled && m.gross == Times(m.filled, m.price.value))
    && (m.status == FullFill ==> m.unfilled == 0.0)
    && (m.status == PartFill ==> 0.0 < m.unfilled)
  }

  function Build(m: Match): Result<Match> {
    if ValidMatch(m) then Ok(m) else Err(InvalidInput)
  }

  function Unfilled(s: SessionState, requested: real, reason: NoFillReason): Result<Match> {
    Build(Match(NoFill, Some(reason), requested, 0.0, requested, s.reference, None, 0.0, 0.0))
  }

  function Capacity(rule: CNMarketRule, s: SessionState): real {
    Times(rule.maxParticipation, s.available)
  }

  function FillQuantity(rule: CNMarketRule, order: OrderEvent, s: SessionState, liquidation: Option<bool>): real
    requires rule.Valid()
  {
    var requested := order.quantity - order.filledQuantity;
    var candidate := Min(requested, Capacity(rule, s));
    if order.side == Sell && rule.allowOddLot && Liquidates(rule, order, liquidation) && requested <= candidate
    then requested
    else FloorToUnit(candidate, rule.LotSize(order.side))
  }

  /** The execution price clamped into the session's daily limits. */
  function Clamp(price: real, s: SessionState): real {
    var capped := if s.upper.Some? then Min(price, s.upper.value) else price;
    if s.lower.Some? then Max(capped, s.lower.value) else capped
  }

  predicate Marketable(order: OrderEvent, price: real) {
    order.orderType == Limit && order.limitPrice.Some? ==>
      if order.side == Buy then price <= order.limitPrice.value else order.limitPrice.value <= price
  }

  function MatchOrder(rule: CNMarketRule, order: OrderEvent, model: Slippage, allowPartial: bool,
      liquidation: Option<bool>): Result<Match>
    requires rule.Valid()
  {
    var s :- ValidateOrder(rule, order, liquidation);
    :- Need(model.AppliesOn(order.head.day), InvalidInput);
    var requested := order.quantity - order.filledQuantity;
    var fill := FillQuantity(rule, order, s, liquidation);
    if fill <= 0.0 then Unfilled(s, requested, ZeroCapacity)
    else if fill < requested && !allowPartial then Unfilled(s, requested, PartialDisabled)
    else if s.available == 0.0 then Err(InvalidInput) // division by zero; a positive fill rules it out
    else
      var participation := fill / s.available;
      var executed :- ExecutionPrice(model, order.side, s.reference, participation, rule.tick);
      var price := Clamp(executed, s);
      if !Marketable(order, price) then Unfilled(s, requested, NotMarketable)
      else
        var unfilled := requested - fill;
        Build(Match(if unfilled == 0.0 then FullFill else PartFill, None, requested, fill, unfilled,
          s.reference, Some(price), Times(fill, price), participation))
  }
}
