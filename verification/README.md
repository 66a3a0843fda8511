# Verified model of the quant_agent trading core

A Dafny model of the parts of `packages/quant_agent` where money, quantities, dates and state must agree, with proofs of what
they promise:

- the **event-driven ledger** (`backtest/engine.py` with its fee rules, event contracts and replay validator): a state machine over
  target, order, fill, fee, cash and position events with staged, atomic commits;
- the **China market mechanics** it is configured with (`backtest/cn_market.py`): settlement dates, point-in-time session states,
  order units, slippage and matching;
- the **daily portfolio simulator** (`backtest/vectorized.py`): revision selection, ranked layers, fee-aware rebalancing, drawdown;
- the **regime hysteresis** (`regime/transitions.py`) and the run-length evaluator of its output (`evaluation/regime_mainline.py`);
- the **reconciliation arithmetic** (`reconciliation/contracts.py`), the **sync partitions and watermarks**
  (`data/tushare_sync.py`) and the **mid-rank leadership scores** (`leaders/engine.py`).

`dafny verify dfyconfig.toml` checks everything.

## How the model is built

Code that mutates objects or loops is modelled by classes and methods (`Engine`, `SimulationLoops`, `Regime`, `Reconciliation`,
`TushareSync`, `Leaders`, and the loops of `FeeRules`, `ReplayStream`, `BuyScale`, `Revisions`, `Layers`, `RegimeStability`). Each
method is proved equal to a function on values (`EngineModel`, `Simulator`, ...); the theorems are lemmas about those functions, and
they hold for every input, every run and every reachable state. `raise` becomes the `Err` case of a `Result`; the constructors of
`Outcomes.EngineError` separate the exception classes where a theorem needs to tell them apart. `ApplyEvent` and `Rebalance`
include the code's defensive branches, so "this branch is unreachable" is a statement about the modelled code and not an omission.

| file | what it holds |
|---|---|
| `Outcomes`, `Sums`, `Contracts` | results, totals over dictionaries, the event contracts with their lifecycle tables and validators |
| `FeeRules` | half-up rounding, assessment, rule books and selection |
| `EngineModel`, `Lots`, `Bookkeeping`, `ReplayStream`, `Attestation`, `EngineRuns`, `TargetOrders` | the ledger's transition function, lots and cost, the invariant piece by piece, and the theorems over runs |
| `LedgerEffects`, `Acceptance` | what confirmations and fees do to cash, cost and lots in arithmetic; exactly which events are accepted in a reachable state |
| `Steps`, `LateFees`, `FeeConditions`, `AttestedRuns`, `PendingCompletion`, `DeadEndRuns` | what one accepted event may change, and from it which runs can still complete, with concrete runs that cannot |
| `Engine` | the mutable engine: staged state, in-place updates, atomic commits |
| `TickMath`, `CNMarket`, `Matching`, `MatchDecisions`, `MatchedFills`, `Settlement` | the China market rule, matching, what a match decides in arithmetic, the step from a match to a fill, and T+1 safety over engine runs |
| `BuyScale`, `Simulator`, `Rebalancing`, `RebalanceTargets`, `RebalanceConditions`, `KindIndependence`, `Simulation`, `DailyPoints`, `SimulationLoops`, `Benchmark`, `Revisions`, `Layers` | the daily simulator |
| `Regime`, `RegimeStability` | the transition engine and the segment encoder |
| `Decimals`, `Reconciliation` | decimal numbers with coefficient and exponent, and the 832-digit argument |
| `IsoDates`, `TushareSync`, `Leaders` | the calendar and its ISO texts; partitions and watermarks; rank scores and capped penalties |

Conventions. Money, prices, quantities and weights are exact `real` numbers, so the theorems outside `Reconciliation` are about
exact arithmetic; the code computes them in decimal contexts of 28 digits, and pro-rata cost in one of 50. In `Reconciliation`,
where precision is the point, a decimal is an integer coefficient and an exponent and every operation rounds. Instants are
microseconds counted from a midnight in Asia/Shanghai and a day is 24 hours of them; in the sync model days are calendar ordinals and
a watermark keeps its date as ASCII text, read as CPython's `date.fromisoformat` reads it, which accepts the calendar and week
forms of ISO 8601 and, without separators, ignores two further characters at the end.
Identifiers are strings compared by equality; the simulator's instrument ids are numbers because their order matters.

Findings about the code.

- The instrument source's resume law holds at every partition exactly when the target watermark is `as_of` in `YYYY-MM-DD` form and
  nothing else (`InstrumentResume`, `InstrumentResumesAlways`). An extra key breaks it (`ExtraKeyRepeats`), and so does the same date
  without separators, which parses but is never the text of a committed watermark (`CompactDateRepeats`). The pipeline only builds
  targets of the first kind.
- Price revisions are refused as ambiguous exactly when some row ties with an earlier one at what is the latest availability of
  their key so far (`RefusedExactly`). So an old tie is reported or not depending on input order (`AmbiguityDependsOnOrder`); all
  orders agree exactly when some key is tied at its latest availability or no key has a tie (`OrderMattersExactly`). What is selected
  when the call returns never depends on order (`SelectionOrderFree`).
- With a fee book, a run can reach a state from which no continuation completes with fees. In every reachable state an outstanding
  fee can be charged exactly while its fill's creation day lasts and the book has an effective rule for the fill whose fee the cash
  can pay, unless negative cash is allowed (`ChargeableExactly`); and the run can still complete with fees exactly when every outstanding
  fee can be charged now (`FeesCompletableExactly`), because until then nothing else is confirmed and cash cannot move. Three
  runs of five events fail it: a confirmation on the day after creation (`LateConfirmationRun`), a purchase on its own day that spends
  the cash its fee needs (`UnpaidFeeRun`), and a fill that no rule covers (`NoRuleRun`).
- With attestations required, a fill that leaves a short position, or a movement whose day passed before its event, means that the
  run can never complete (`UnattestableIsDeadEnd`, with `PendingShortRun` and `MissedDayRun`). This goes one way: a movement
  overtaken by a later one of the same day is stuck too unless further trades bring its balance or ledger back. Without further
  trades and fees the condition is exact: the run can complete as it stands exactly when every pending movement is of the present
  day, not short, and still what the ledger shows (`CompletableAsItStands`).

## Model

| member | source | states |
|---|---|---|
| EngineRuns.LedgerSafety | packages/quant_agent/backtest/engine.py:657-764 | in every reachable state lots are positive and add up to the long quantity, cost basis is never negative and dies with the position, quantity is opening plus confirmed buys minus sells, cash is initial plus sales minus purchases minus fees, and neither cash nor quantity is negative without permission |
| EngineRuns.OrderFillBookkeeping | packages/quant_agent/backtest/engine.py:540-655 | filled <= confirmed = sum of applied fills <= sum of active fills <= ordered; a fill is applied exactly when confirmed or settled; a terminal order has nothing pending and reports what was confirmed |
| EngineRuns.TerminalOrderFrozen | packages/quant_agent/backtest/engine.py:445-472 | whatever is replayed afterwards, a terminal order's record never changes |
| EngineRuns.ConfirmAccepted | packages/quant_agent/backtest/engine.py:569-596 | a pending fill is confirmed exactly when no fee is outstanding, cash suffices and the trade is allowed; the guards for double application, unknown or closed orders, overfilling and duplicate movements are unreachable |
| EngineRuns.SaleAllowed | packages/quant_agent/backtest/engine.py:710-736 | in every reachable state a sale succeeds exactly under the two permission guards, so the raise for a lot ledger that cannot satisfy the sale is unreachable |
| EngineRuns.FeeNeverDelayed | packages/quant_agent/backtest/engine.py:813-831 | with a rule book at most one applied fill lacks its fee, its position has not moved, and the rejection of a delayed buy fee is unreachable |
| EngineRuns.CompleteRunFees | packages/quant_agent/backtest/engine.py:926-941 | a run that ends complete with fees has cash equal to initial plus and minus gross amounts minus exactly what the pinned rules assess |
| EngineRuns.AttestationAccount | packages/quant_agent/backtest/engine.py:833-889 | always cash = initial + signed committed cash events + signed movements still expected, and every expectation comes from a committed event |
| EngineRuns.CompleteRunReconstructsCash | packages/quant_agent/backtest/engine.py:926-936 | on a complete replay the cash events alone reconstruct final cash, each economic source counted once |
| EngineRuns.AttestationsHoldInRun | packages/quant_agent/backtest/engine.py:874-924 | every cash or position event anywhere in a run states the ledger of the state that exactly the events up to it lead to |
| AttestedRuns.LastAttestationsAreFinal | packages/quant_agent/backtest/engine.py:874-941 | on a complete attested run the last cash event states the final cash and the last position event of each instrument its final ledger; an instrument without one still has its opening ledger |
| AttestedRuns.CompleteRunsLeaveNoShort | packages/quant_agent/backtest/engine.py:891-941 | no fill of a complete attested run ever left a short position |
| AttestedRuns.CashAttestableExactly | packages/quant_agent/backtest/engine.py:874-889 | in any reachable state some event for a pending cash movement is accepted exactly while its day lasts and cash is still the balance it left |
| AttestedRuns.PositionAttestableExactly | packages/quant_agent/backtest/engine.py:891-924 | likewise for a pending position movement: its day lasts, it is not short, and the ledger is still as it left it |
| AttestedRuns.UnattestableIsDeadEnd | packages/quant_agent/backtest/engine.py:891-941 | once a pending movement is short or its day has passed, no continuation completes with attestations |
| DeadEndRuns.PendingShortRun | packages/quant_agent/backtest/engine.py:710-736 | five accepted events that leave a pending short position |
| DeadEndRuns.MissedDayRun | packages/quant_agent/backtest/engine.py:874-889 | six accepted events after which the day of a pending movement has passed |
| PendingCompletion.CompletableAsItStands | packages/quant_agent/backtest/engine.py:874-941 | a reachable state can be completed with attestations, without another confirmation or fee, exactly when every pending movement is of the present day, not short, and still what the ledger shows |
| LateFees.CompleteRunsConfirmOnCreationDay | packages/quant_agent/backtest/engine.py:766-811 | in every complete run with fees each fill was confirmed on the day it was created |
| LateFees.LateConfirmationIsOverdue | packages/quant_agent/backtest/engine.py:569-596 | in a reachable state an accepted confirmation after the creation day leaves the fill overdue |
| LateFees.OverdueIsDeadEnd | packages/quant_agent/backtest/engine.py:584-596 | an overdue fill is never charged whatever follows, with or without a rule book; with one nothing else is confirmed and no run completes with fees |
| FeeConditions.ChargeableExactly | packages/quant_agent/backtest/engine.py:766-811 | in every reachable state some fee event for an uncharged fill is accepted exactly while its creation day lasts and the book has an effective rule whose fee cash can pay, unless negative cash is allowed |
| FeeConditions.FeesCompletableExactly | packages/quant_agent/backtest/engine.py:584-596 | a reachable state has a continuation that charges every fill exactly when every uncharged fill can be charged now |
| FeeConditions.StuckIsDeadEnd | packages/quant_agent/backtest/engine.py:584-596 | while an outstanding fee cannot be charged, no continuation charges it or confirms another fill |
| DeadEndRuns.LateConfirmationRun | packages/quant_agent/backtest/engine.py:569-596 | five accepted events, the confirmation on the day after creation, after which no continuation completes with fees |
| DeadEndRuns.UnpaidFeeRun | packages/quant_agent/backtest/engine.py:833-841 | five accepted events on one day that spend all cash, after which no continuation completes with fees |
| DeadEndRuns.NoRuleRun | packages/quant_agent/backtest/engine.py:789-795 | five accepted events whose fill no rule of the book covers, after which no continuation completes with fees |
| Steps.StepIsMove | packages/quant_agent/backtest/engine.py:402-425 | the frame of one accepted event: ledgers move only by confirmations and fees, every movement of cash or a ledger becomes pending with the event's day, only a true statement of it on that day discharges it, and the clock moves forward |
| LedgerEffects.FeeEffect | packages/quant_agent/backtest/engine.py:811-831 | in a reachable state an accepted fee lowers cash by its total; on a purchase that opened long units it adds total times opened over quantity to the cost of that position and nothing else moves; no other fee moves a position |
| LedgerEffects.ConfirmationEffect | packages/quant_agent/backtest/engine.py:657-736 | an accepted confirmation moves cash by quantity times price and the quantity by the fill; cost grows by the notional away from zero, keeps its average towards zero, and is only the new part at the trade's price across zero |
| LedgerEffects.PurchasesKeepWorth | packages/quant_agent/backtest/engine.py:679-831 | while a run from an opening without shorts applies only purchases, cash plus the cost of all positions stays what it was at the opening, so every fee that left cash is in a cost |
| Acceptance.ConfirmedLots | packages/quant_agent/backtest/engine.py:700-758 | after an accepted purchase exactly one lot is added, of the units above zero, dated by the rule in force; after a sale the settled lots gave all they could first |
| Acceptance.TimelyExactly | packages/quant_agent/backtest/engine.py:427-435 | the clock admits exactly events of the run with a new id, a greater sequence and no earlier time than every committed event |
| Acceptance.TargetAcceptedExactly | packages/quant_agent/backtest/engine.py:437-443 | a target is accepted exactly when it is timely, states one magnitude that is zero exactly when flat, is short only with permission, and is the first of its signal and instrument; only it is recorded |
| Acceptance.OrderAcceptedExactly | packages/quant_agent/backtest/engine.py:445-538 | an order event is accepted exactly when it opens a lifecycle that implements its target alone and is admitted by its rule, or continues one with the same instruction and the confirmed quantity; only its record changes |
| Acceptance.FillAcceptedExactly | packages/quant_agent/backtest/engine.py:540-643 | a fill event is accepted exactly when it opens a fill of an open order within its identity, limit and room, or repeats its execution and follows its last status, a confirmation also with fees paid before and cash, rule and position allowing it |
| Acceptance.FeeAcceptedExactly | packages/quant_agent/backtest/engine.py:766-831 | a fee event is accepted exactly for a confirmed fill without fee, with its identity, day and currency, part by part as the rule of its version assesses, and payable from cash |
| Acceptance.CashAcceptedExactly | packages/quant_agent/backtest/engine.py:874-889 | a cash event is accepted exactly when it repeats a pending movement of the account on its day at the present balance |
| Acceptance.PositionAcceptedExactly | packages/quant_agent/backtest/engine.py:891-924 | a position event is accepted exactly when it repeats a pending snapshot on its day and the ledger still has that quantity, sellable part and average cost |
| Acceptance.CompleteExactly | packages/quant_agent/backtest/engine.py:926-941 | completeness asks for no pending movement when ledger events are required, and for every fee when there is a book and completion is not waived |
| EngineRuns.AcceptedEventsReplay | packages/quant_agent/backtest/engine.py:943-967 | every event list the engine commits passes the replay validator, so building a result never rejects an applied event |
| EngineRuns.ApplyAllConcat | packages/quant_agent/backtest/engine.py:363-371 | applying two batches in sequence is applying their concatenation, rejections included |
| TargetOrders.ExecutedOrderHitsTarget | packages/quant_agent/backtest/engine.py:474-522 | from any reachable state, an accepted order under a quantity target, once confirmed in full with no other fill of its instrument applied meanwhile, leaves the position at plus the quantity for a long target, minus it for a short one, zero for a flat one |
| TargetOrders.OrderReachesTarget | packages/quant_agent/backtest/engine.py:500-522 | an order passes its target exactly when the target is not later and executing it in full reaches that position |
| TargetOrders.OneLiveOrder | packages/quant_agent/backtest/engine.py:474-498 | when targets are required, in every reachable state each order has its target and no target has two live orders |
| TargetOrders.OrdersAdmitted | packages/quant_agent/backtest/engine.py:474-498 | every order in a reachable state was accepted by a latest market rule of its type that was effective on its day |
| EngineRuns.FillsRespectOrders | packages/quant_agent/backtest/engine.py:598-614 | every fill in a reachable state matches its order's instrument, side and signal and keeps to its limit price |
| Attestation.StepKeepsInv | packages/quant_agent/backtest/engine.py:402-425 | every accepted event preserves the whole invariant: books, fee lag, attestations and agreement with the replay validator |
| Attestation.InitialInv | packages/quant_agent/backtest/engine.py:309-332 | the opening state of any valid configuration satisfies the invariant |
| Bookkeeping.PendingFillConfirmable | packages/quant_agent/backtest/engine.py:575-583 | the invariant alone makes a pending fill's order open and large enough |
| Lots.ConsumeExact | packages/quant_agent/backtest/engine.py:738-758 | consuming lots succeeds exactly within what the policy may touch, removes exactly the amount and leaves only positive lots |
| Lots.ConsumeSellable | packages/quant_agent/backtest/engine.py:738-758 | a settled sale lowers the sellable total of its own and every later day by exactly the amount, and never raises an earlier one |
| Lots.SettledFirst | packages/quant_agent/backtest/engine.py:738-758 | with or without unsettled sales, settled lots are used before any other |
| Lots.SellableWithout | packages/quant_agent/backtest/engine.py:738-758 | a lot counts as sellable in full from its own date on and not before |
| Lots.DrainInOrder | packages/quant_agent/backtest/engine.py:746-757 | a lot shrinks only when every earlier lot within reach is used up; dates and lots out of reach stay |
| Lots.BuyEffect | packages/quant_agent/backtest/engine.py:679-708 | a purchase covers the short first and opens one lot for the rest, dated by the market rule and not before the fill |
| Lots.SellEffect | packages/quant_agent/backtest/engine.py:710-736 | a sale lowers the quantity by exactly the fill and fails only on its two guards |
| Lots.BuyCost | packages/quant_agent/backtest/engine.py:679-708 | buying adds the notional to cost; partly covering a short keeps its average cost; buying through zero leaves only the new long at its price |
| Lots.SellCost | packages/quant_agent/backtest/engine.py:710-764 | a partial sale keeps the average cost; selling through zero leaves only the new short at its price |
| Lots.OpeningWellFormed | packages/quant_agent/backtest/engine.py:318-332 | the opening lots of a valid position are well formed and sellable as configured on every real trading day |
| Lots.OpeningIs | packages/quant_agent/backtest/engine.py:318-332 | the opening positions are exactly the configured ones, at quantity times average cost |
| Lots.RuleInForce | packages/quant_agent/backtest/engine.py:269-303 | rule selection returns a latest effective rule of the type and fails only without any |
| Engine.EventDrivenBacktestEngine.Process | packages/quant_agent/backtest/engine.py:352-359 | commits exactly the transition of one event or leaves the same state object untouched; the result describes the new state |
| Engine.EventDrivenBacktestEngine.ProcessAll | packages/quant_agent/backtest/engine.py:363-371 | commits a whole batch or nothing |
| Engine.EventDrivenBacktestEngine.Run | packages/quant_agent/backtest/engine.py:373-387 | commits a batch only if it is accepted and the replay it completes is complete |
| Engine.EventDrivenBacktestEngine.Result | packages/quant_agent/backtest/engine.py:389-393 | a snapshot of the committed state, refused exactly when incomplete |
| Engine.EventDrivenBacktestEngine.Replay | packages/quant_agent/backtest/engine.py:395-400 | refuses an engine that has committed events, otherwise runs |
| Engine.ProcessInTwo | packages/quant_agent/backtest/engine.py:363-371 | two successive commits end where one commit of the concatenation ends |
| Engine.EventDrivenBacktestEngine.Snapshot | packages/quant_agent/backtest/engine.py:943-979 | on every reachable state the replay re-validation passes and the result lists exactly the open positions and all orders |
| Engine.EventDrivenBacktestEngine.EventStaged | packages/quant_agent/backtest/engine.py:402-435 | the staged in-place update equals the transition function, field by field |
| Engine.EventDrivenBacktestEngine.TradeStaged | packages/quant_agent/backtest/engine.py:657-677 | cash, ledger, lots and expectation after a trade equal the model's |
| Engine.EventDrivenBacktestEngine.FeeStaged | packages/quant_agent/backtest/engine.py:766-831 | charging, recording and allocating a fee equals the model's |
| Engine.ConsumePositionLots | packages/quant_agent/backtest/engine.py:738-758 | the in-place consumption loop computes the functional result |
| Engine.ActiveFillQuantity | packages/quant_agent/backtest/engine.py:633-643 | the loop over fills computes the total that the invariant speaks about, in any iteration order |
| ReplayStream.ValidateReplayStream | packages/quant_agent/backtest/serialization.py:82-116 | the validator's loop accepts exactly the valid streams |
| ReplayStream.ValidStreamMeaning | packages/quant_agent/backtest/serialization.py:82-116 | a valid stream has one run id, strictly increasing sequences, monotone times and unique ids |
| ReplayStream.OrderHistory | packages/quant_agent/backtest/serialization.py:100-114 | each order event's previous status is the status of the last earlier event of that order |
| ReplayStream.FillHistory | packages/quant_agent/backtest/serialization.py:100-114 | each fill event's previous status is the status of the last earlier event of that fill |
| FeeRules.FeeRule.FeeMonotone | packages/quant_agent/backtest/rules.py:127-154 | a larger trade never pays less in fees, rounding and minimum commission included |
| FeeRules.FeeRule.AssessTotal | packages/quant_agent/backtest/rules.py:127-154 | assessment succeeds exactly on positive amounts; the breakdown validator never rejects what it builds |
| FeeRules.FeeRule.FeeComponents | packages/quant_agent/backtest/rules.py:139-154 | each component is the nearest multiple of the increment to its own rate of the amount, commission not below its minimum, ties upward; the total is their sum |
| FeeRules.HalfUpNearest | packages/quant_agent/backtest/rules.py:139-147 | a rounded component is within half an increment of its value, above on a tie |
| FeeRules.CheckBook | packages/quant_agent/backtest/rules.py:160-172 | the constructor's loop accepts exactly books without clashing dates or versions |
| FeeRules.SelectLatest | packages/quant_agent/backtest/rules.py:174-198 | selection returns a latest effective candidate and fails only without one |
| FeeRules.SelectUnique | packages/quant_agent/backtest/rules.py:174-198 | on a valid book that candidate is unique, so rule order is irrelevant |
| CNMarket.SettlementMonotone | packages/quant_agent/backtest/cn_market.py:600-611 | settlement is strictly after acquisition when any is configured, on a trading day, and strictly monotone |
| MatchDecisions.SettlesOnNth | packages/quant_agent/backtest/cn_market.py:600-611 | units settle on the trading day that many places after the acquisition in the calendar, if both are in it |
| CNMarket.StateForMeaning | packages/quant_agent/backtest/cn_market.py:618-645 | the state returned is the only latest known one; the ambiguity error cannot occur on a constructed rule |
| CNMarket.LatestKnownPointInTime | packages/quant_agent/backtest/cn_market.py:618-645 | states published later never change the answer |
| MatchDecisions.OrderValidExactly | packages/quant_agent/backtest/cn_market.py:768-840 | an order is valid and sees a session exactly when the rule is its type's and in force, the session is the latest known one, trades its side, and quantity and prices are on their grids and inside the limits |
| Matching.FillIsLargest | packages/quant_agent/backtest/cn_market.py:673-726 | the fill is the largest lot multiple within min(residual, capacity), or the whole residual on an authorised odd-lot liquidation |
| Matching.PriceBounds | packages/quant_agent/backtest/cn_market.py:291-312 | an executed price is tick-aligned, never better than the reference, and inside the daily limits |
| Matching.PriceWorsens | packages/quant_agent/backtest/cn_market.py:280-312 | it weakly worsens for the trader as participation grows |
| Matching.MatchMeaning | packages/quant_agent/backtest/cn_market.py:673-766 | an executed match respects residual, limits, ticks, the order's limit and the partial-fill switch |
| MatchDecisions.MatchDecides | packages/quant_agent/backtest/cn_market.py:673-766 | with the largest permitted quantity and the fair price, a match fills exactly when that quantity is positive, partial fills are allowed or it is the whole residual, and the price meets the limit; then it fills that quantity at that price, else it names the first of the three that failed |
| MatchDecisions.DecidedOnce | packages/quant_agent/backtest/cn_market.py:291-312 | quantity and price are determined: lot multiples cut off by residual or capacity, and the reference times one plus or minus min(base + impact * fill / available, maximum), rounded against the trader to a tick and moved inside the limits |
| Matching.MatchAccepted | packages/quant_agent/backtest/cn_market.py:673-766 | after order validation a match fails exactly for an uncovered date, no residual, or a sale price below one tick |
| Matching.RepeatedSessions | packages/quant_agent/backtest/cn_market.py:673-766 | over any sessions, whatever their rules and lot sizes, fills plus residual equal the order and nothing else of it changes |
| Matching.ResidualStaysAligned | packages/quant_agent/backtest/cn_market.py:673-766 | over sessions with one lot size a lot-aligned residual stays aligned |
| MatchedFills.MatchedFillAccepted | packages/quant_agent/backtest/engine.py:554-567 | in every reachable state the fill that an executed match of an open order describes is accepted exactly when it fits what active fills leave of the order, and always when the matcher was told of all of them |
| Settlement.NothingSoldBeforeSettlement | packages/quant_agent/backtest/engine.py:700-758 | over whole runs, shorts allowed or not, the long units that fills dated up to a day closed are covered by opening sellable stock plus the long units opened on strictly earlier dates |
| Settlement.WholeFillsAreLong | packages/quant_agent/backtest/engine.py:679-736 | where shorts are forbidden those long units are the whole quantities of the fills |
| Settlement.SaleSellable | packages/quant_agent/backtest/engine.py:710-758 | without unsettled sales, shorts allowed or not, the closing part of a sale takes only units sellable on its own date |
| Settlement.ChinaRulesSettle | packages/quant_agent/backtest/cn_market.py:600-611 | rules of the China market with a settlement day meet the T+1 assumption |
| Settlement.OpeningSellable | packages/quant_agent/backtest/engine.py:318-332 | on real trading days the opening part is the configured sellable quantity |
| BuyScale.ScaleSafeAndTight | packages/quant_agent/backtest/vectorized.py:950-1002 | the scale is in [0,1], affordable, 1 whenever everything is affordable, and no affordable scale exceeds it by 2^-128 |
| BuyScale.ScaleZeroExactly | packages/quant_agent/backtest/vectorized.py:950-1002 | covered purchases get the scale zero exactly when neither 2^-128 of them nor all cash spent on them can be paid, fees included |
| BuyScale.CostGrows | packages/quant_agent/backtest/vectorized.py:965-981 | the cost of a set of purchases is monotone in the scale |
| BuyScale.AffordableBuyScale | packages/quant_agent/backtest/vectorized.py:950-1002 | the bisection loop, with its early stop and final refinement, computes that scale |
| BuyScale.TotalCost | packages/quant_agent/backtest/vectorized.py:965-981 | the cost loop computes the total |
| Rebalancing.RebalanceSelfFinancing | packages/quant_agent/backtest/vectorized.py:762-894 | a rebalance conserves value up to fees, moves cash by exactly its trades and never borrows; both internal assertions hold |
| RebalanceConditions.RebalanceExactly | packages/quant_agent/backtest/vectorized.py:762-894 | it returns exactly when everything held and targeted is priced, the portfolio is worth something, the sales have fee rules and pay their fees, and the purchases have fee rules and either 2^-128 of them or all remaining cash spent on them can be paid |
| RebalanceConditions.FeesLeaveSomething | packages/quant_agent/backtest/vectorized.py:829-894 | the fees of a rebalance leave something exactly when those of its planned sales do |
| RebalanceConditions.FreeRebalanceExact | packages/quant_agent/backtest/vectorized.py:762-882 | without fees, from non-negative cash and with weights of at most one in all, it returns exactly when all is priced and worth something, and every instrument then lands exactly on target |
| Rebalancing.BuyAllOk | packages/quant_agent/backtest/vectorized.py:829-875 | at the computed scale every purchase executes in full and the clamp is never taken |
| RebalanceTargets.RebalanceLands | packages/quant_agent/backtest/vectorized.py:762-882 | overweight instruments end exactly on target, underweight ones are bought the same share of the way, that share is the affordable scale, and nothing else moves |
| Simulation.RunAccounts | packages/quant_agent/backtest/vectorized.py:726-948 | over every run cash = initial value + sales - purchases - fees, cash and quantities never negative, one valid point a day, no internal check fires |
| Simulation.SessionOk | packages/quant_agent/backtest/vectorized.py:726-948 | a session returns exactly when its rebalance is allowed and the fees of its planned sales are less than the portfolio is worth (or, without signals, holdings are priced); no internal check fires, and it keeps the portfolio solvent and its account exact |
| DailyPoints.PointsAreMarked | packages/quant_agent/backtest/vectorized.py:897-945 | every daily point states its own close: value is cash plus quantity times close of what is held, the weights are those shares in ascending order, and with the cash weight they add up to one |
| DailyPoints.ReturnsTelescope | packages/quant_agent/backtest/vectorized.py:897-908 | one plus the daily return is growth from close to close, zero on the first day; the product telescopes to last value over first |
| DailyPoints.SessionsFollowSignals | packages/quant_agent/backtest/vectorized.py:745-945 | a session trades exactly when a batch is dated the trading day before, and then on its day at its open for that batch with the assessed fees, until overweight instruments are on target and underweight ones the common share of the way; cash, turnover and fees of the day are those of these trades |
| Simulation.DrawdownIsMaximalLoss | packages/quant_agent/backtest/vectorized.py:907-908 | the one-pass drawdown is the greatest loss from any earlier value, and attained |
| Simulation.MaxDrawdownQuadratic | packages/quant_agent/backtest/vectorized.py:1148 | the reported maximum is the maximum over all pairs of an earlier and a later value |
| Simulation.NoLookahead | packages/quant_agent/backtest/vectorized.py:726-948 | points and trades up to a session do not depend on later prices, benchmarks, signals dated on or after it, or the types of instruments that only later rows or signals introduce |
| KindIndependence.SessionSameKinds | packages/quant_agent/backtest/vectorized.py:730-948 | a session depends on the types of the instruments priced on it and on no others |
| Benchmark.BenchmarkTelescopes | packages/quant_agent/backtest/vectorized.py:747-753 | chained benchmark returns telescope to last close over first close |
| Benchmark.BenchmarkDaily | packages/quant_agent/backtest/vectorized.py:747-753 | the daily benchmark return is the growth of its close since the day before, zero on the first day |
| SimulationLoops.Simulate | packages/quant_agent/backtest/vectorized.py:726-948 | the simulation loop returns the model's points and trades, or the first refusal, and keeps the accounts |
| SimulationLoops.RebalanceDay | packages/quant_agent/backtest/vectorized.py:762-894 | the sell, scale and buy loops compute the rebalance |
| SimulationLoops.PortfolioValue | packages/quant_agent/backtest/vectorized.py:1018-1032 | the loop over holdings computes cash plus market value, in any order |
| Revisions.SelectRevisions | packages/quant_agent/backtest/vectorized.py:597-616 | the selection loop computes the model's selection, error included |
| Revisions.SelectionMeaning | packages/quant_agent/backtest/vectorized.py:597-616 | whenever it returns, each eligible key holds its unique latest eligible row and there are no other keys |
| Revisions.SelectionOrderFree | packages/quant_agent/backtest/vectorized.py:597-616 | two orders of the same rows that both return select the same rows |
| Revisions.LaterRowsIgnored | packages/quant_agent/backtest/vectorized.py:597-616 | rows available only after the boundary change nothing, not even whether it returns |
| Revisions.RefusedExactly | packages/quant_agent/backtest/vectorized.py:597-616 | selection is refused exactly when an eligible row ties with a different earlier one of its key and no earlier row of that key is more recent |
| Revisions.OrderMattersExactly | packages/quant_agent/backtest/vectorized.py:603-613 | all orders of the rows agree on refusal exactly when some key is tied at its latest availability, or no two different eligible rows of a key share their availability |
| Revisions.AmbiguityDependsOnOrder | packages/quant_agent/backtest/vectorized.py:603-613 | three rows that are refused in one order and accepted in another |
| Layers.LayerIsBlock | packages/quant_agent/backtest/vectorized.py:486-511 | a layer is the contiguous block of ranks between consecutive first ranks, and every rank has a layer |
| Layers.BlockSizes | packages/quant_agent/backtest/vectorized.py:486-511 | blocks cover all ranks and have floor or ceiling size, never empty with enough items |
| Layers.MembersCount | packages/quant_agent/backtest/vectorized.py:486-511 | the comprehension selects the ranks of the block one after the other |
| Layers.MembersAre | packages/quant_agent/backtest/vectorized.py:486-511 | a layer holds exactly the ranks with layer * count <= rank * layers < (layer + 1) * count |
| Layers.SelectLayer | packages/quant_agent/backtest/vectorized.py:460-511 | fails exactly on bad arguments or too few items; otherwise equal weights that sum to the gross weight |
| Regime.PendingMeaning | packages/quant_agent/regime/transitions.py:302-428 | closed form: the pending candidate and count are the last raw regime and its longest qualifying suffix, not yet enough for that session; the required count is the severe one for a severe downtrend, the bottom one for a bottom recovery, the normal one otherwise |
| Regime.ChangeMeaning | packages/quant_agent/regime/transitions.py:330-383 | the effective regime changes exactly when that suffix suffices by that case distinction, and exactly then the action is TRANSITION_CONFIRMED |
| Regime.EventMeaning | packages/quant_agent/regime/transitions.py:302-428 | action, candidate, count and required count of every recorded event in closed form |
| Regime.ConfirmedExactly | packages/quant_agent/regime/transitions.py:330-383 | a whole qualifying suffix makes its regime effective exactly when some session in it found enough sessions behind it |
| Regime.ClassConverges | packages/quant_agent/regime/transitions.py:450-463 | without severe sessions that is exactly when the suffix has the bottom count for a bottom recovery, the normal count for any other regime, and one fewer is not enough |
| Regime.StreakIsLongest | packages/quant_agent/regime/transitions.py:347-350 | the streak is the length of the longest suffix of qualifying sessions |
| Regime.Converges | packages/quant_agent/regime/transitions.py:302-463 | severe or not, and whatever came before, the count of its class is enough to make a regime effective |
| Regime.NeverTooQuick | packages/quant_agent/regime/transitions.py:450-463 | no change with fewer qualifying sessions than each of the configured counts |
| Regime.StepAccepted | packages/quant_agent/regime/transitions.py:181-202 | the result and event validators never reject what a step builds |
| Regime.RunAccepted | packages/quant_agent/regime/transitions.py:438-448 | a run succeeds exactly on strictly increasing dates with one identity |
| Regime.RegimeTransitionEngine.Process | packages/quant_agent/regime/transitions.py:302-428 | the fields after one session equal the model's step; on an error nothing changes |
| Regime.RegimeTransitionEngine.ProcessAll | packages/quant_agent/regime/transitions.py:430-436 | returns all outputs, or stops at the first refused session with exactly the earlier ones committed |
| RegimeStability.MeasureStability | packages/quant_agent/evaluation/regime_mainline.py:665-737 | the loop returns the run-length segments and their counts |
| RegimeStability.SegmentsMeaning | packages/quant_agent/evaluation/regime_mainline.py:665-700 | segments expand back to the effective sequence, neighbours differ, durations sum to the number of sessions |
| RegimeStability.SegmentSpans | packages/quant_agent/evaluation/regime_mainline.py:665-700 | each segment carries the dates of its own first and last session |
| RegimeStability.CodeIsUnique | packages/quant_agent/evaluation/regime_mainline.py:665-700 | alternating segments of positive duration are determined by the sequence they code |
| RegimeStability.DwellTime | packages/quant_agent/evaluation/regime_mainline.py:727-735 | on a fresh engine's outputs switches equal confirmed transitions and every finished segment lasts at least one of the configured counts |
| Decimals.RoundedNearest | packages/quant_agent/reconciliation/contracts.py:23 | rounding keeps the nearest multiple of the cut unit, the even one in a tie |
| Decimals.RoundedDigits | packages/quant_agent/reconciliation/contracts.py:23 | a rounded coefficient has exactly the working precision's digits |
| Reconciliation.SumAndDifferenceExact | packages/quant_agent/reconciliation/contracts.py:45-53 | sums and differences of accepted numbers are never rounded |
| Reconciliation.Boundary | packages/quant_agent/reconciliation/contracts.py:35-49 | numbers are accepted up to 200 digits with the first one at most 200 places from the point, and not beyond |
| Reconciliation.WholeNumbers | packages/quant_agent/reconciliation/contracts.py:56-61 | a positive whole quantity is at least one, a whole quantity at least zero |
| Reconciliation.ProductExact | packages/quant_agent/reconciliation/contracts.py:139-140 | products of accepted numbers are never rounded |
| Reconciliation.DifferenceIsTrue | packages/quant_agent/reconciliation/contracts.py:68-71 | the difference check is true equality of values on any common scale |
| Reconciliation.EconomicsExact | packages/quant_agent/reconciliation/contracts.py:116-149 | for all inputs fill economics are the exact ones or the fill is refused; a rounded value is never delivered |
| Reconciliation.EconomicsNeverRounds | packages/quant_agent/reconciliation/contracts.py:116-149 | with a whole positive quantity nothing is rounded: at most 803 of 832 digits are used |
| Reconciliation.EconomicsMeaning | packages/quant_agent/reconciliation/contracts.py:139-143 | on any common scale gross is quantity times price and cash is signed gross less all four charges |
| Reconciliation.SumsExact | packages/quant_agent/reconciliation/contracts.py:882-899 | per-order running totals of up to 10^231 accepted amounts are exact at every step |
| Reconciliation.SumMeaning | packages/quant_agent/reconciliation/contracts.py:882-899 | the total is the sum of the amounts on any common scale |
| Reconciliation.CheckAggregates | packages/quant_agent/reconciliation/contracts.py:858-912 | the grouped, rounded boundary check decides exactly the check in exact arithmetic |
| Reconciliation.Aggregates | packages/quant_agent/reconciliation/contracts.py:882-899 | totals per order, refused exactly when one is out of bounds |
| TushareSync.DatePartitions | packages/quant_agent/data/tushare_sync.py:76-92 | the loop returns the plan, or the overflow that occurs exactly when the target is the last representable day |
| TushareSync.DatePlanMeaning | packages/quant_agent/data/tushare_sync.py:76-92 | exactly the missing days in increasing order |
| TushareSync.DatePlanFails | packages/quant_agent/data/tushare_sync.py:76-92 | a plan fails exactly for unreadable dates, a target before the committed day, or a target on the last representable day |
| TushareSync.DateResume | packages/quant_agent/data/tushare_sync.py:178-192 | resuming from any committed partition continues with exactly the later ones |
| TushareSync.DateSplit | packages/quant_agent/data/tushare_sync.py:76-92 | a plan through an intermediate day is the two plans in sequence |
| TushareSync.AnnouncementPartitions | packages/quant_agent/data/tushare_sync.py:553-598 | the nested loops return the plan with the code's error precedence |
| TushareSync.AnnouncementCovers | packages/quant_agent/data/tushare_sync.py:553-598 | the plan holds exactly the (date, instrument) pairs after the cursor up to the target |
| TushareSync.AnnouncementOrder | packages/quant_agent/data/tushare_sync.py:553-598 | it is contiguous and strictly increasing in date and instrument |
| TushareSync.AnnouncementPlanFails | packages/quant_agent/data/tushare_sync.py:553-598 | when and with which error the plan fails, in the code's order of checks |
| TushareSync.AnnouncementResume | packages/quant_agent/data/tushare_sync.py:553-611 | resuming from any committed partition, mid-date or not, continues with exactly the later ones |
| TushareSync.AnnouncementSplit | packages/quant_agent/data/tushare_sync.py:553-598 | plans concatenate at an intermediate date |
| TushareSync.WatermarkCursor | packages/quant_agent/data/tushare_sync.py:600-611 | committing a partition moves the cursor to exactly that pair |
| IsoDates.ParseFormat | packages/quant_agent/data/tushare_sync.py:54-63 | reading the text written for a day gives that day back, and so does the different text without separators |
| IsoDates.WeekDateExactly | packages/quant_agent/data/tushare_sync.py:54-63 | a week date is the representable day of that weekday whose Thursday lies in that week of that year, and is refused exactly without one |
| IsoDates.WeekForms | packages/quant_agent/data/tushare_sync.py:54-63 | the four ways of writing a week date are read as that week date |
| TushareSync.InstrumentResume | packages/quant_agent/data/tushare_sync.py:249-287 | with watermarks compared as their raw contents, the resume law at a snapshot, mid-status or last, holds exactly when the target equals its watermark at the end and not before |
| TushareSync.InstrumentResumesAlways | packages/quant_agent/data/tushare_sync.py:249-287 | so it holds at every partition exactly for a target whose only content is the date in its written form |
| TushareSync.ExtraKeyRepeats | packages/quant_agent/data/tushare_sync.py:249-287 | one extra key in the target makes the committed snapshot come back forever |
| TushareSync.CompactDateRepeats | packages/quant_agent/data/tushare_sync.py:249-287 | the target date 20240105 makes the snapshot come back forever and the stock statuses start again |
| Leaders.ScoresConserved | packages/quant_agent/leaders/engine.py:239-258 | in a theme of n >= 2 stocks the scores sum to exactly 50 n whatever the ties |
| Leaders.ScoreBounds | packages/quant_agent/leaders/engine.py:239-258 | scores lie in [0, 100] |
| Leaders.ScoreIs | packages/quant_agent/leaders/engine.py:239-258 | a score is 100 times the share of the other members ranked below, ties counted half; a lone member scores zero |
| Leaders.ScoreOrder | packages/quant_agent/leaders/engine.py:239-258 | equal returns score the same and a better return scores strictly more, in both directions |
| Leaders.ThemeReturnRankScores | packages/quant_agent/leaders/engine.py:239-258 | the grouping and counting loops give every stock its score within its own theme |
| Leaders.ApplyRisks | packages/quant_agent/leaders/engine.py:394-404 | the applied risks are the first positive candidates in order, all but the last in full, something is cut or left out only once the cap is spent, and together they are the smaller of the cap and all positive candidates |

## Left out

- Rounding of the 28-digit default decimal context and of the 50-digit pro-rata context: everything outside `Decimals` and `Reconciliation` is exact. With rounding the simulator's equality assertion is not covered by these proofs.
- Bisection's stop at a midpoint that is no longer representable: the branch is modelled, but over exact numbers it is never taken.
- Event parsing: pydantic coercion, blank-identifier checks, time zones and offset changes; an event here already has its fields, and the validators of those fields are modelled.
- Hashes, JSON canonicalisation, event and result hashes, `data_version` and fee-rule-version fields of simulated trades.
- The market rule resolver's uniqueness check, the slippage model book and the fee schedule builder: one loop each with the shape of `FeeRules.CheckBook`.
- Sorted tuples: engine results are kept as maps by key; price rows and signal batches are grouped by key and not sorted.
- Engine.EventDrivenBacktestEngine.Snapshot: lists positions and orders as maps; the event log's text, its hash and the sorted order of the tables are not modelled.
- AttestedRuns.UnattestableIsDeadEnd: goes one way; whether later trades can bring back an overtaken balance or ledger is not characterised, because it depends on which orders the injected market rule accepts. Without such trades `CompletableAsItStands` is exact.
- Layers.SelectLayer: models one signal date whose items are already ranked; grouping by date and sorting by score and id are not modelled.
- Leaders.ThemeReturnRankScores: takes the shortest-horizon return of each stock as given; component scoring, classification and the two rank tables are left out.
- Regime.RegimeTransitionEngine.Process: takes the classifier's regime, score, confidence and identity as given and keeps no hash chain between events.
- RegimeStability.MeasureStability: leaves out the per-regime summaries (count, median, mean, extremes) and the switch rate.
- Reconciliation.CheckAggregates: checks one numeric field at a time over fills that are already free of duplicates; duplicate exclusion and report hashes are not modelled.
- Reconciliation.SumsExact: stops at 10^231 fills per order, beyond any possible input.
- TushareSync.AnnouncementPartitions: the instrument list is duplicate-free and in a fixed order; that the order is alphabetical is not modelled. A date that fails to parse is one error, whatever is wrong with it.
- Annualised return, volatility and Sharpe ratio, turnover averages: transcendental or one-line metrics.
- Providers, pagination, database ingestion, agents, web and command line: input and output, or behaviour of the database.
