/** Orders and their targets: what an accepted order achieves, and that a signal never has two live orders. */
module TargetOrders {
  import opened Outcomes
  import opened Sums
  import opened Contracts
  import opened EngineModel
  import opened Lots
  import opened Bookkeeping
  import opened Attestation
  import opened EngineRuns
  import opened Steps

  function SignedOrder(e: OrderEvent): real {
    if e.side == Buy then e.quantity else -e.quantity
  }

  /** What a quantity target asks of the position: so many units long, so many short, or none. */
  predicate MeetsTarget(t: TargetEvent, position: real) {
    t.targetQuantity.Some? ==>
      && (t.direction == Long ==> position == t.targetQuantity.value)
      && (t.direction == Short ==> position == -t.targetQuantity.value)
      && (t.direction == Flat ==> position == 0.0)
  }

  /** An order passes its quantity target exactly when executing it in full moves the position to the target. */
  lemma OrderReachesTarget(s: State, t: TargetEvent, e: OrderEvent)
    requires 0.0 < e.quantity
    ensures ValidateTargetOrder(s, t, e) == Pass <==>
      t.head.time <= e.head.time && MeetsTarget(t, Held(s.positions, e.key) + SignedOrder(e))
  {
  }

  predicate Live(r: OrderRecord) {
    !OrderTerminal(r.latest.status)
  }

  predicate SameTarget(a: OrderRecord, b: OrderRecord) {
    a.created.signalEventId == b.created.signalEventId && a.created.key == b.created.key
  }

  predicate Rivals(a: OrderRecord, b: OrderRecord) {
    Live(a) && Live(b) && SameTarget(a, b)
  }

  /** Every order has its target, and no target has two live orders. */
  ghost predicate TargetsOk(s: State) {
    && (forall id :: id in s.orders ==>
      TargetKey(s.orders[id].created.signalEventId, s.orders[id].created.key) in s.targets)
    && (forall a, b :: a in s.orders && b in s.orders && Rivals(s.orders[a], s.orders[b]) ==> a == b)
  }

  /** Later events of an order cannot revive it, so updating a record keeps uniqueness. */
  lemma PutRecord(s: State, t: State, id: Id, r: OrderRecord)
    requires TargetsOk(s) && id in s.orders && r.created == s.orders[id].created && (Live(r) ==> Live(s.orders[id]))
    requires t.orders == s.orders[id := r] && t.targets == s.targets
    ensures TargetsOk(t)
  {
  }

  lemma CreatedKeeps(su: Setup, s: State, e: OrderEvent, t: State)
    requires su.config.requireTarget && TargetsOk(s) && e.orderId !in s.orders && CreateOrder(su, s, e) == Ok(t)
    ensures TargetsOk(t)
  {
    hide SelectRule, ValidateTargetOrder;
    forall a | a in s.orders && Live(s.orders[a])
      ensures !SameTarget(s.orders[a], OrderRecord(e, e, 0.0))
    {
      assert !Overlaps(s.orders[a], e);
    }
  }

  lemma OrderKeepsTargets(su: Setup, s: State, e: OrderEvent, t: State)
    requires su.config.requireTarget && TargetsOk(s) && BooksOk(su.config, s) && ValidOrder(e)
    requires ApplyOrder(su, s, e) == Ok(t)
    ensures TargetsOk(t)
  {
    hide BooksOk, TargetsOk, CreateOrder, ValidOrder;
    if e.orderId !in s.orders {
      CreatedKeeps(su, s, e, t);
    } else {
      AdvancedOrderOk(su, s, e, t);
      LiveBefore(e);
      PutRecord(s, t, e.orderId, s.orders[e.orderId].(latest := e));
    }
  }

  lemma LiveBefore(e: OrderEvent)
    requires ValidOrder(e) && e.previous.Some?
    ensures !OrderTerminal(e.previous.value)
  {
  }

  lemma FillKeepsTargets(su: Setup, s: State, e: FillEvent, t: State)
    requires TargetsOk(s) && BooksOk(su.config, s) && ValidFill(e) && ApplyFill(su, s, e) == Ok(t)
    ensures TargetsOk(t)
  {
    hide TargetsOk, LedgersOk, QuantitiesOk, CashOk, FillsOk, OrdersOk, ConfirmFill, CreateFill, ApplyTrade, Trade,
      ValidFill;
    if e.fillId !in s.fills {
      CreatedFillOk(su.config, s, e, t);
      SameOrders(s, t);
    } else if e.status == Confirmed {
      PendingFacts(s.orders, s.fills, e);
      var traded := ConfirmShape(su, s, e, t);
      TradeShape(su, s, s.fills[e.fillId].created, e, traded);
      PutRecord(s, t, e.orderId, t.orders[e.orderId]);
    } else {
      SameOrders(s, t);
    }
  }

  lemma SameOrders(s: State, t: State)
    requires TargetsOk(s) && t.orders == s.orders && s.targets.Keys <= t.targets.Keys
    ensures TargetsOk(t)
  {
  }

  lemma FeeKeepsTargets(su: Setup, s: State, e: FeeEvent, t: State)
    requires ValidSetup(su) && TargetsOk(s) && BooksOk(su.config, s) && ValidFee(e) && ApplyFee(su, s, e) == Ok(t)
    ensures TargetsOk(t)
  {
    hide ApplyFee, TargetsOk, ValidFee;
    FeeShape(su, s, e, t);
    SameOrders(s, t);
  }

  lemma AttestationKeepsTargets(su: Setup, s: State, e: Event, t: State)
    requires ValidSetup(su) && (e.CashEv? || e.PositionEv? || e.TargetEv?) && Dispatch(su, s, e) == Ok(t)
    ensures t.orders == s.orders && s.targets.Keys <= t.targets.Keys
  {
    hide SnapshotOf;
  }

  lemma StepKeepsTargets(su: Setup, s: State, e: Event, t: State)
    requires ValidSetup(su) && su.config.requireTarget && BooksOk(su.config, s) && TargetsOk(s)
    requires ApplyEvent(su, s, e) == Ok(t)
    ensures TargetsOk(t)
  {
    hide ApplyTarget, ApplyOrder, ApplyFill, ApplyFee, AttestCash, AttestPosition, BooksOk, TargetsOk, ValidOrder,
      ValidFill, ValidFee, ValidSetup;
    var u := Dispatch(su, s, e).value;
    match e {
      case OrderEv(x) => OrderKeepsTargets(su, s, x, u);
      case FillEv(x) => FillKeepsTargets(su, s, x, u);
      case FeeEv(x) => FeeKeepsTargets(su, s, x, u);
      case _ => {
        AttestationKeepsTargets(su, s, e, u);
        SameOrders(s, u);
      }
    }
    SameOrders(u, t);
  }

  lemma {:induction false} RunKeepsTargets(su: Setup, s: State, es: seq<Event>, t: State)
    requires ValidSetup(su) && su.config.requireTarget && Inv(su, s) && TargetsOk(s) && ApplyAll(su, s, es) == Ok(t)
    ensures TargetsOk(t)
    decreases |es|
  {
    hide Inv, BooksOk, ApplyEvent, TargetsOk, ValidSetup;
    if es != [] {
      var u := ApplyEvent(su, s, es[0]).value;
      StepKeepsInv(su, s, es[0], u);
      InvBooks(su, s);
      StepKeepsTargets(su, s, es[0], u);
      RunKeepsTargets(su, u, es[1..], t);
    }
  }

  /**
   * When targets are required, in every reachable state each order has its target and no target has two live orders.
   */
  lemma OneLiveOrder(su: Setup, es: seq<Event>, s: State, a: Id, b: Id)
    requires ValidSetup(su) && su.config.requireTarget && Run(su, es, s) && a in s.orders && b in s.orders
    ensures TargetKey(s.orders[a].created.signalEventId, s.orders[a].created.key) in s.targets
    ensures Live(s.orders[a]) && Live(s.orders[b]) && SameTarget(s.orders[a], s.orders[b]) ==> a == b
  {
    hide Inv, ApplyAll, ValidSetup, OrderTerminal;
    InitialInv(su);
    RunKeepsTargets(su, InitialState(su.config), es, s);
  }

  // ---------------------------------------------------------------- executing an order under its target

  /** Nothing an applied fill did is ever undone or changed. */
  ghost predicate Extends(s: State, t: State) {
    forall id :: id in s.fills ==>
      id in t.fills && t.fills[id].created == s.fills[id].created && (s.fills[id].applied ==> t.fills[id].applied)
  }

  lemma StepExtends(s: State, e: Event, t: State)
    requires FillsMove(s, e, t)
    ensures Extends(s, t)
  {
    hide QuantityBefore;
  }

  lemma {:induction false} RunExtends(su: Setup, s: State, es: seq<Event>, t: State)
    requires ValidSetup(su) && Inv(su, s) && ApplyAll(su, s, es) == Ok(t)
    ensures Extends(s, t) && Inv(su, t)
    decreases |es|
  {
    hide Inv, ApplyEvent, ValidSetup, FillsMove, PositionsMove, CashMove, ClockMove;
    if es != [] {
      var u := ApplyEvent(su, s, es[0]).value;
      StepKeepsInv(su, s, es[0], u);
      StepIsMove(su, s, es[0], u);
      StepExtends(s, es[0], u);
      RunExtends(su, u, es[1..], t);
    }
  }

  /** Applied quantity of one order and of all others, in one instrument. */
  ghost function NetOf(k: Key, orderId: Id, own: bool): FillRecord -> real {
    (r: FillRecord) => if r.applied && r.created.key == k && (r.created.orderId == orderId) == own
      then SignedQuantity(r.created) else 0.0
  }

  lemma {:induction false} TotalExtend(m: map<Id, FillRecord>, n: map<Id, FillRecord>, w: FillRecord -> real)
    requires m.Keys <= n.Keys && (forall id :: id in m ==> w(m[id]) == w(n[id]))
    requires forall id :: id in n && id !in m ==> w(n[id]) == 0.0
    ensures Total(m, w) == Total(n, w)
    decreases |m|
  {
    if m == map[] {
      TotalZero(n, w);
    } else {
      var id :| id in m;
      TotalRemove(m, w, id);
      TotalRemove(n, w, id);
      TotalExtend(m - {id}, n - {id}, w);
    }
  }

  /** Since then, applied fills of the instrument belong to this order only. */
  ghost predicate OnlyThisOrder(s: State, t: State, k: Key, orderId: Id) {
    forall id :: id in t.fills && t.fills[id].applied && t.fills[id].created.key == k ==>
      t.fills[id].created.orderId == orderId || (id in s.fills && s.fills[id].applied)
  }

  /** Before its creation an order has no fills. */
  lemma NoFillsYet(su: Setup, s: State, orderId: Id, id: Id)
    requires ValidSetup(su) && Inv(su, s) && orderId !in s.orders && id in s.fills
    ensures s.fills[id].created.orderId != orderId
  {
    hide FeesOk, AttestOk, ReplayOk, LedgersOk, QuantitiesOk, CashOk, OrdersOk, ValidateFillOrder, ValidFill;
    assert FillOk(s.orders, id, s.fills[id]);
  }

  lemma FillOfOrder(su: Setup, t: State, id: Id)
    requires ValidSetup(su) && Inv(su, t) && id in t.fills
    ensures var f := t.fills[id].created;
      f.orderId in t.orders && f.key == t.orders[f.orderId].created.key && f.side == t.orders[f.orderId].created.side
  {
    hide FeesOk, AttestOk, ReplayOk, LedgersOk, QuantitiesOk, CashOk, OrdersOk, ValidFill;
    assert FillOk(t.orders, id, t.fills[id]);
  }

  lemma ConfirmedIsApplied(su: Setup, t: State, orderId: Id)
    requires ValidSetup(su) && Inv(su, t) && orderId in t.orders
    ensures t.orders[orderId].confirmedQuantity == Total(t.fills, AppliedWeight(orderId))
  {
    hide FeesOk, AttestOk, ReplayOk, LedgersOk, QuantitiesOk, CashOk, FillsOk, ValidOrder;
    assert OrderOk(t.fills, orderId, t.orders[orderId]);
  }

  ghost function Opposite(w: FillRecord -> real): FillRecord -> real {
    (r: FillRecord) => -w(r)
  }

  lemma TotalOpposite(fills: map<Id, FillRecord>, w: FillRecord -> real)
    ensures Total(fills, Opposite(w)) == -Total(fills, w)
  {
    var nothing := (r: FillRecord) => 0.0;
    TotalAdd(fills, nothing, w, Opposite(w));
    TotalZero(fills, nothing);
  }

  /** An order's applied fills have its instrument and side, so their net effect is its confirmed quantity. */
  lemma OwnNet(su: Setup, t: State, orderId: Id)
    requires ValidSetup(su) && Inv(su, t) && orderId in t.orders
    ensures var o := t.orders[orderId];
      Total(t.fills, NetOf(o.created.key, orderId, true))
        == (if o.created.side == Buy then o.confirmedQuantity else -o.confirmedQuantity)
  {
    hide Inv, ValidSetup;
    ConfirmedIsApplied(su, t, orderId);
    var o := t.orders[orderId];
    var own := NetOf(o.created.key, orderId, true);
    forall id | id in t.fills
      ensures own(t.fills[id]) == if o.created.side == Buy
        then AppliedWeight(orderId)(t.fills[id]) else -AppliedWeight(orderId)(t.fills[id])
    {
      FillOfOrder(su, t, id);
    }
    if o.created.side == Buy {
      TotalSame(t.fills, own, AppliedWeight(orderId));
    } else {
      TotalSame(t.fills, own, Opposite(AppliedWeight(orderId)));
      TotalOpposite(t.fills, AppliedWeight(orderId));
    }
  }

  lemma NetSplit(fills: map<Id, FillRecord>, k: Key, orderId: Id)
    ensures Total(fills, NetWeight(k)) == Total(fills, NetOf(k, orderId, true)) + Total(fills, NetOf(k, orderId, false))
  {
    TotalAdd(fills, NetWeight(k), NetOf(k, orderId, true), NetOf(k, orderId, false));
  }

  lemma OthersUnchanged(su: Setup, s: State, t: State, orderId: Id, k: Key)
    requires ValidSetup(su) && Inv(su, s) && Extends(s, t) && orderId !in s.orders && OnlyThisOrder(s, t, k, orderId)
    ensures Total(t.fills, NetOf(k, orderId, false)) == Total(s.fills, NetWeight(k))
  {
    hide Inv, ValidSetup;
    var other := NetOf(k, orderId, false);
    forall id | id in s.fills
      ensures other(s.fills[id]) == other(t.fills[id]) && NetWeight(k)(s.fills[id]) == other(s.fills[id])
    {
      NoFillsYet(su, s, orderId, id);
    }
    TotalExtend(s.fills, t.fills, other);
    TotalSame(s.fills, NetWeight(k), other);
  }

  /** The position moves by what this order executed, when nothing else of the instrument was applied meanwhile. */
  lemma PositionMovesByOrder(su: Setup, s: State, t: State, orderId: Id, k: Key)
    requires ValidSetup(su) && Inv(su, s) && Inv(su, t) && Extends(s, t) && orderId !in s.orders
    requires orderId in t.orders && t.orders[orderId].created.key == k && OnlyThisOrder(s, t, k, orderId)
    ensures var o := t.orders[orderId];
      Held(t.positions, k) == Held(s.positions, k) + if o.created.side == Buy
        then o.confirmedQuantity else -o.confirmedQuantity
  {
    hide Inv, BooksOk, ValidSetup, Extends, OnlyThisOrder, Held, NetOf, NetWeight;
    InvBooks(su, s);
    InvBooks(su, t);
    BooksQuantities(su.config, s, k);
    BooksQuantities(su.config, t, k);
    OwnNet(su, t, orderId);
    NetSplit(t.fills, k, orderId);
    OthersUnchanged(su, s, t, orderId, k);
  }

  lemma BooksQuantities(c: Config, s: State, k: Key)
    requires BooksOk(c, s)
    ensures Held(s.positions, k) == Held(OpeningPositions(c.positions), k) + Total(s.fills, NetWeight(k))
  {
    hide LedgersOk, CashOk, FillsOk, OrdersOk;
  }

  lemma CreatedFacts(su: Setup, s: State, e: OrderEvent, u: State)
    requires ValidOrder(e) && e.orderId !in s.orders && ApplyOrder(su, s, e) == Ok(u)
    ensures e.orderId in u.orders && u.orders[e.orderId].created == e && 0.0 < e.quantity
    ensures TargetKey(e.signalEventId, e.key) in s.targets ==>
      ValidateTargetOrder(s, s.targets[TargetKey(e.signalEventId, e.key)], e) == Pass
    ensures u.positions == s.positions && u.fills == s.fills
  {
    hide SelectRule, ValidateTargetOrder, HasOverlap, ValidOrder;
    OrderPositive(e);
  }

  lemma OrderPositive(e: OrderEvent)
    requires ValidOrder(e)
    ensures 0.0 < e.quantity
  {
  }

  lemma CreatedUnderTarget(su: Setup, s: State, e: OrderEvent, u: State)
    requires ValidSetup(su) && Inv(su, s) && ApplyEvent(su, s, OrderEv(e)) == Ok(u) && e.orderId !in s.orders
    ensures e.orderId in u.orders && u.orders[e.orderId].created == e && 0.0 < e.quantity
    ensures TargetKey(e.signalEventId, e.key) in s.targets ==>
      ValidateTargetOrder(s, s.targets[TargetKey(e.signalEventId, e.key)], e) == Pass
    ensures u.positions == s.positions && u.fills == s.fills && Inv(su, u)
  {
    hide Inv, ApplyOrder, ValidateTargetOrder, ValidateClock, ValidSetup, ValidOrder;
    StepKeepsInv(su, s, OrderEv(e), u);
    CreatedFacts(su, s, e, ApplyOrder(su, s, e).value);
  }

  /**
   * The point of a quantity target. Take any reachable state, an accepted new order under a quantity target, and any
   * continuation. Once the order is confirmed in full, with no other fill of the instrument applied meanwhile, the
   * position is exactly the target.
   */
  lemma ExecutedOrderHitsTarget(su: Setup, es: seq<Event>, s: State, e: OrderEvent, u: State, more: seq<Event>,
      t: State)
    requires ValidSetup(su) && Run(su, es, s) && e.orderId !in s.orders && ApplyEvent(su, s, OrderEv(e)) == Ok(u)
    requires TargetKey(e.signalEventId, e.key) in s.targets
    requires s.targets[TargetKey(e.signalEventId, e.key)].targetQuantity.Some?
    requires ApplyAll(su, u, more) == Ok(t) && OnlyThisOrder(s, t, e.key, e.orderId)
    requires e.orderId in t.orders ==> t.orders[e.orderId].confirmedQuantity == e.quantity
    ensures var target := s.targets[TargetKey(e.signalEventId, e.key)];
      match target.direction
      case Long => Held(t.positions, e.key) == target.targetQuantity.value
      case Short => Held(t.positions, e.key) == -target.targetQuantity.value
      case Flat => Held(t.positions, e.key) == 0.0
  {
    hide Inv, Run, ApplyAll, ApplyEvent, Held, ValidateTargetOrder, ValidSetup, OnlyThisOrder, Extends, OnlyAdmitted;
    RunInv(su, es, s);
    CreatedUnderTarget(su, s, e, u);
    RunExtends(su, u, more, t);
    RunAdmitted(su, u, more, t);
    CreationKept(su, u, t, e.orderId);
    SameFills(s, u, t);
    OrderReachesTarget(s, s.targets[TargetKey(e.signalEventId, e.key)], e);
    PositionMovesByOrder(su, s, t, e.orderId, e.key);
  }

  lemma CreationKept(su: Setup, s: State, t: State, id: Id)
    requires OnlyAdmitted(su, s, t) && id in s.orders
    ensures id in t.orders && t.orders[id].created == s.orders[id].created
  {
  }

  lemma SameFills(s: State, u: State, t: State)
    requires u.fills == s.fills && Extends(u, t)
    ensures Extends(s, t)
  {
  }

  // ---------------------------------------------------------------- market rules

  /** The market rule effective on the order's day accepts it. */
  predicate Admitted(su: Setup, e: OrderEvent) {
    var rule := SelectRule(su.rules, e.key.instrumentType, e.head.day);
    rule.Ok? && rule.value.accepts(e)
  }

  /** Orders keep the event that created them, and new ones were admitted. */
  ghost predicate OnlyAdmitted(su: Setup, s: State, t: State) {
    && (forall id :: id in s.orders ==> id in t.orders && t.orders[id].created == s.orders[id].created)
    && (forall id :: id in t.orders && id !in s.orders ==> Admitted(su, t.orders[id].created))
  }

  /** A step creates an order only from its own order event. */
  ghost predicate OrdersMove(su: Setup, s: State, e: Event, t: State) {
    && (forall id :: id in s.orders ==> id in t.orders && t.orders[id].created == s.orders[id].created)
    && (forall id :: id in t.orders && id !in s.orders ==>
      e == OrderEv(t.orders[id].created) && Admitted(su, t.orders[id].created))
  }

  lemma OrderAdmitted(su: Setup, s: State, e: OrderEvent, t: State)
    requires BooksOk(su.config, s) && ValidOrder(e) && ApplyOrder(su, s, e) == Ok(t)
    ensures OrdersMove(su, s, OrderEv(e), t)
  {
    hide BooksOk, ValidOrder, SelectRule, ValidateTargetOrder;
    if e.orderId !in s.orders {
      CreatedOrderOk(su, s, e, t);
    } else {
      AdvancedOrderOk(su, s, e, t);
    }
  }

  lemma FillAdmitted(su: Setup, s: State, e: FillEvent, t: State)
    requires BooksOk(su.config, s) && ValidFill(e) && ApplyFill(su, s, e) == Ok(t)
    ensures OrdersMove(su, s, FillEv(e), t)
  {
    hide LedgersOk, QuantitiesOk, CashOk, FillsOk, OrdersOk, ConfirmFill, CreateFill, ApplyTrade, Trade, ValidFill,
      Admitted;
    if e.fillId !in s.fills {
      CreatedFillOk(su.config, s, e, t);
    } else if e.status == Confirmed {
      PendingFacts(s.orders, s.fills, e);
      var traded := ConfirmShape(su, s, e, t);
      TradeShape(su, s, s.fills[e.fillId].created, e, traded);
    }
  }

  lemma FeeAdmitted(su: Setup, s: State, e: FeeEvent, t: State)
    requires ValidSetup(su) && BooksOk(su.config, s) && ValidFee(e) && ApplyFee(su, s, e) == Ok(t)
    ensures OrdersMove(su, s, FeeEv(e), t)
  {
    hide ApplyFee, ValidFee, Admitted, OrdersMove, BooksOk, ValidSetup;
    FeeKeepsOrders(su, s, e, t);
    SameOrdersAdmitted(su, s, FeeEv(e), t);
  }

  lemma SameOrdersAdmitted(su: Setup, s: State, e: Event, t: State)
    requires t.orders == s.orders
    ensures OrdersMove(su, s, e, t)
  {
    hide Admitted;
  }

  lemma StepAdmitted(su: Setup, s: State, e: Event, t: State)
    requires ValidSetup(su) && BooksOk(su.config, s) && ApplyEvent(su, s, e) == Ok(t)
    ensures OrdersMove(su, s, e, t)
  {
    hide ApplyTarget, ApplyOrder, ApplyFill, ApplyFee, AttestCash, AttestPosition, BooksOk, Admitted, ValidOrder,
      ValidFill, ValidFee, ValidSetup;
    var u := Dispatch(su, s, e).value;
    match e {
      case OrderEv(x) => OrderAdmitted(su, s, x, u);
      case FillEv(x) => FillAdmitted(su, s, x, u);
      case FeeEv(x) => FeeAdmitted(su, s, x, u);
      case _ => AttestationKeepsTargets(su, s, e, u);
    }
  }

  lemma {:induction false} RunAdmitted(su: Setup, s: State, es: seq<Event>, t: State)
    requires ValidSetup(su) && Inv(su, s) && ApplyAll(su, s, es) == Ok(t)
    ensures OnlyAdmitted(su, s, t)
    decreases |es|
  {
    hide Inv, BooksOk, ApplyEvent, Admitted, ValidSetup;
    if es != [] {
      var u := ApplyEvent(su, s, es[0]).value;
      StepKeepsInv(su, s, es[0], u);
      InvBooks(su, s);
      StepAdmitted(su, s, es[0], u);
      RunAdmitted(su, u, es[1..], t);
    }
  }

  /**
   * Every order in a reachable state was accepted by a latest market rule of its type that was effective on its day.
   */
  lemma OrdersAdmitted(su: Setup, es: seq<Event>, s: State, id: Id)
    requires ValidSetup(su) && Run(su, es, s) && id in s.orders
    ensures var o := s.orders[id].created;
      exists rule: MarketRule :: InForce(su.rules, o.key.instrumentType, o.head.day, rule) && rule.accepts(o)
  {
    hide Inv, ApplyAll, ValidSetup;
    InitialInv(su);
    RunAdmitted(su, InitialState(su.config), es, s);
    var o := s.orders[id].created;
    assert Admitted(su, o);
    RuleInForce(su.rules, o.key.instrumentType, o.head.day);
  }
}
