# Verified model of the lazytrade core

lazytrade runs trading strategies against an exchange and replays them over historical candles. This project models
its three connected cores and proves what they promise.

**The durable order and fill protocol.** A worker folds market events into a strategy row and emits signals in the same
commit (`StrategyEvents`, `StrategyWorkers`). Each signal gets one risk decision; an allowed one becomes an order intent
that is moved to *submitting* before the exchange is called (`OrderIntents`, `OrderRules`, `OrderAgent`). Fills come
back through a deduplicating inbox, from the live stream and from history, into execution rows, fill levels, positions,
commissions and daily statistics (`Ledger`, `LedgerLemmas`, `LedgerInvariant`, `LedgerRuns`, `LedgerTheorems`,
`LedgerDays`, `LedgerRules`, `LedgerExamples`, `LedgerStore`). A watermark says through when history has been covered
(`HistoryCheckpoints`, `HistoryCoverage`, `HistoryRecovery`). Every SQL transaction is one atomic step that changes
nothing when it fails. A crash wipes the agent's memory and may happen between any two steps. The exchange executes
every placement request it receives; nothing relies on it recognizing a repeated one.

**Accounting.** Average-cost profit and loss is kept in three places: the statistics reducer, the backtest report and
the SQLite projection (`Decimals`, `Accounting`, `Statistics`, `Drawdowns`, `Reports`, `Ledger`). Amounts are exact
reals; division rounds to sixteen places, half away from zero (`Decimals.RoundIsSymmetric`), as shopspring/decimal
v1.4.0 does, and every error bound is derived from that.

**The backtest engine.** Candles are read from a dataset (`Dataset`), strategies such as the moving-average crossover
(`MovingAverage`) propose orders, a simulated broker prices and fills them (`Pricing`, `Broker`, `BrokerLemmas`,
`OrderLife`, `SimulatedBrokers`), and an event loop ties everything to the report (`Runs`,
`OrderRequests`, `Runners`, `BrokerExamples`).

Objects whose methods update fields are classes proved against functions on values; the theorems are about those
functions, over every input, every run or every reachable state.

## Findings

Some properties that the code or its comments suggest hold only under a condition. Each is stated with its exact
condition and an input for which it fails.

- Charges and the order of reports: a key keeps its first staged report, and stream and history report one fill with
  different commissions (internal/storage/sqlite/inbox.go:90-92, internal/agent/execution_ingress.go:164-172).
  `LedgerTheorems.ChargesAgreeExactly`: two accepted orders of the same transactions charge alike exactly when the first
  reports of the applied fills add up alike, or both sums stay within what history observed or was charged before.
  `LedgerExamples.FirstReportDecides`: otherwise the same transactions charge five or nothing.
- Lost updates: a comment (internal/strategy/durable.go:15-17) says accidental concurrent use of a state port fails.
  `StrategyEvents.RevisionsPreventLostUpdates`: a commit overwrites the row its writer loaded exactly when it carries
  the revision that was loaded. `StrategyWorkers.Overlap`: two workers that both load before either commits lose the
  first one's update exactly when they share a port and the signals do not clash; `StrategyEvents.CountersDiffer` is
  such an input.
- Late fills: `LedgerTheorems.LateFillReopens`: a fill of an order that is no longer open puts it back among the open
  orders exactly when it leaves the order short of its requested quantity. `LedgerExamples.CancelledOrderReopens`: a
  cancelled order counts as open again.
- At-most-once placement is the agent's doing. `OrderRules.HarmlessTransitions`: of the status changes the store accepts
  exactly those are harmless that take a pending intent with no call under way anywhere but to submitted, and to a
  status that denies an order only when there is none. `OrderRules.SubmittedCanBeReplaced`: a submitted intent made
  ready again is placed a second time.
- Rejections: `OrderRules.ClearRejectionsAreSafe`: a rejected intent has no order in any run exactly when the error says
  whether the request was applied; an exchange error with its outcome unset does not, and the adapter never returns one.
- The commission cap: `BrokerExamples.RunsStaySolvent`: every run keeps cash from going negative exactly when the
  product of tick and lot has at most sixteen decimal places. `BrokerExamples.RunCanOverdraw`: a run from a new broker
  that ends overdrawn.
- Reused order identifiers: `OrderLife.SubmitKeepsOrders` says exactly when a submission leaves known orders alone;
  `BrokerExamples.FilledOrderCanReturn` is a filled order that waits again. The event loop names orders and clients
  alike, so its runs are safe.
- Limits: a limit bounds the raw price. `Pricing.LimitFollowsSlippage`: the fill price keeps the limit exactly when the
  slipped price does, on both sides. `Pricing.LimitHoldsOnlyBeforeSlippage`: it does for every candle exactly when no
  slippage survives rounding.
- Repeated events: `StrategyEvents.DuplicatesNeedWholeMicroseconds`: stored cursors keep microseconds, so a worker that
  emits no signal recognizes a repeated event exactly when its time is a whole number of microseconds.
- Gaps: `Dataset.GapsAccountForEveryInterval`: differences of times saturate, so gap counting is exact exactly when the
  interval does not divide the longest duration; `Dataset.FarApartIsMiscounted` is an input.

## Model

| member | source | states |
|---|---|---|
| Accounting.ProfitFollowsCash | internal/statistics/reducer.go:100-127 | for every fill sequence, shorts and crossings through zero included, realized profit less the cost of the position differs from net cash flow by at most half a last-place unit per unit held after each averaging step |
| Accounting.ProfitIsExact | internal/statistics/reducer.go:100-127 | the same difference is zero when every average divides exactly |
| Accounting.MarkedProfit | internal/statistics/reducer.go:75-127 | at any mark price, realized plus unrealized profit is net cash flow plus the marked net quantity, within the rounding bound and exactly for exact averages |
| Accounting.ClosingDrift | internal/statistics/reducer.go:112-126 | closing part or all of a long or short position, or crossing through zero, moves profit against cash by nothing |
| Accounting.QuantityIsNet | internal/statistics/reducer.go:109-126 | the position after any fills is what they bought less what they sold |
| Accounting.ProjectionAgreesWithReducer | internal/storage/sqlite/fill.go:192-238 | the SQLite projection accepts exactly the sequences that never go short, and on those it has the reducer's quantity and realized total, and its average whenever something is held |
| Statistics.TotalFollowsCash | internal/statistics/reducer.go:30-92 | the reported total after any executions and a mark is cash flow plus the marked holding less all commissions, within the rounding bound |
| Statistics.FoldExecutionsKeepsBooks | internal/statistics/reducer.go:30-59 | executions add up commissions and drive the position books, and change nothing else of the state |
| Statistics.ReducerAccepts | internal/statistics/reducer.go:31-59 | an execution is taken exactly when it is the strategy's own and both assets are the state's, and a total is given exactly when it is complete |
| Drawdowns.DrawdownIsLargestFall | internal/backtest/report.go:155-169 | the online drawdown is the largest fall between any two points of the equity curve, initial cash first, and the percentage is that fall over the peak at the first moment it was reached |
| Drawdowns.PercentIsQuotient | internal/backtest/report.go:155-169 | a percentage is a hundred times the quotient, up to a hundred times the rounding |
| Reports.TallyBalances | internal/backtest/report.go:117-134 | gross profit less gross loss is the realized total, and won plus lost trades never exceed closed ones |
| Reports.TallyCounts | internal/backtest/report.go:117-134 | closed trades are the fills against an open position, won and lost ones those after which realized profit is higher or lower, and gross profit is the sum of the rises |
| Reports.StepShape | internal/backtest/report.go:115-149 | one fill changes position, average and realized profit in the report's branches exactly as the reducer does |
| Reports.Report.ObserveFill | internal/backtest/report.go:110-150 | the report's ledger and trade statistics stay those of the reducer over all fills seen |
| Reports.Report.Observe | internal/backtest/report.go:102-153 | an event's executions and then its equity are taken in, in order |
| Reports.Report.ObserveEquity | internal/backtest/report.go:155-169 | equity in another asset is ignored; otherwise the tracker follows the longer curve |
| Reports.Report.MarkEquity | internal/backtest/report.go:159-168 | peak, drawdown and percentage updated in place follow the curve extended by one point |
| Reports.Report.Finalize | internal/backtest/report.go:171-218 | final profit figures satisfy the marked-profit identity, the drawdown is the largest fall of the curve, the win rate is a percentage, and the profit factor is unbounded exactly for profit without loss |
| Pricing.RawFillIsTouched | internal/backtest/broker.go:186-207 | the raw price lies within the candle and is the open wherever that is no worse than the limit and the limit otherwise; an order is passed over exactly when its limit is out of the candle's reach |
| Pricing.TickDivisionIsExact | internal/backtest/broker.go:209-218 | slippage of a tick-aligned price divides by the tick without rounding |
| Pricing.FillPriceIsAdverse | internal/backtest/broker.go:209-256 | the fill price is a whole number of ticks, on the costly side of the slipped price and less than a tick away |
| Pricing.SlippageCostsAreBounded | internal/backtest/broker.go:209-256 | no fill is better than its raw price, and it is worse by less than the slippage fraction plus one tick |
| Pricing.FillPriceFollowsRate | internal/backtest/broker.go:209-256 | the fill price is the raw price moved against the trader by the configured basis points, within the rounding of the fraction and one tick |
| Pricing.LimitFollowsSlippage | internal/backtest/broker.go:186-256 | for every side, candle and aligned limit the fill price is no worse than the limit exactly when the slipped price is: rounding to ticks never carries a price across a limit |
| Pricing.LimitHoldsOnlyBeforeSlippage | internal/backtest/broker.go:186-221 | the orders of one limit, on either side, never fill beyond it whatever the candle exactly when no slippage survives rounding |
| Broker.SortedListIsUnique | internal/backtest/broker.go:147-153 | the sorted list of open orders does not depend on the order in which the map yields them |
| BrokerLemmas.CommissionFollowsRate | internal/backtest/broker.go:222-223 | for every notional and percentage the commission is the percentage of the notional within half a last-place unit |
| BrokerLemmas.FillDecision | internal/backtest/broker.go:209-248 | a fill fails exactly for a price that is not positive and is refused exactly when cash does not cover a purchase with its commission or stock a sale; otherwise the trade has the order's side and quantity |
| BrokerLemmas.FillConserves | internal/backtest/broker.go:222-247 | a fill moves cash by its signed notional and its commission, and the position by its signed quantity, never below zero |
| BrokerLemmas.SettlementConserves | internal/backtest/broker.go:155-183 | offering a candle to any list of orders keeps cash, position, commissions, slippage and fill count equal to what the trades imply |
| BrokerLemmas.CapCoversSale | internal/backtest/broker.go:222-223 | no permitted percentage of a notional exceeds it exactly when the notional does not round upwards |
| BrokerLemmas.CapProtectsCoarseGrids | internal/backtest/broker.go:47-53 | the 100% cap keeps the commission of every aligned sale within what it brings in exactly when tick times lot has at most sixteen decimal places |
| BrokerLemmas.SlippageIsCost | internal/backtest/broker.go:224-239 | what the broker adds to its slippage is the adverse price difference times the quantity, never a gain |
| BrokerLemmas.SettlementStaysSolvent | internal/backtest/broker.go:209-248 | with ticks and lots whose notionals need no rounding, cash stays non-negative through any candle |
| BrokerExamples.RunCanOverdraw | internal/backtest/broker.go:222-237 | a run from a new broker holding three half last-place units buys one lot and sells it again, and ends one half unit overdrawn |
| BrokerExamples.RunsStaySolvent | internal/backtest/broker.go:47-53 | for any tick and lot, every run of every valid configuration keeps cash from going negative exactly when tick times lot has at most sixteen decimal places |
| OrderLife.OrderFate | internal/backtest/broker.go:154-183 | a candle fills completely or rejects exactly the orders that are due, by one trade at its open, and leaves every other order as it was |
| OrderLife.SmallerIdsFirst | internal/backtest/broker.go:147-183 | what becomes of an order on a candle depends only on accepted orders with smaller identifiers |
| OrderLife.AcceptableRequests | internal/backtest/broker.go:286-339 | a request is valid exactly when instrument, quantity, lots, times, and limit with its asset and ticks are as required of its type |
| OrderLife.TakenEvents | internal/backtest/broker.go:124-146 | a candle is taken exactly when it is of the broker's instrument and asset, valid and in whole ticks and lots |
| OrderLife.RepeatsAgree | internal/backtest/broker.go:341-353 | a request is a repeat exactly when it agrees in every field, the limit's asset where there is a limit |
| OrderLife.SubmitKeepsOrders | internal/backtest/broker.go:102-122 | a submission leaves known orders alone exactly when its client identifier is known, its order identifier is not, or it recreates the same order |
| BrokerExamples.FilledOrderCanReturn | internal/backtest/broker.go:102-122 | after any purchase by a new broker, submitting the filled order under another client identifier makes it wait again while the broker holds what it bought |
| SimulatedBrokers.SimulatedBroker.constructor | internal/backtest/broker.go:91-100 | a new broker holds the initial cash and nothing else |
| SimulatedBrokers.SimulatedBroker.Submit | internal/backtest/broker.go:102-122 | a new acceptable request is stored as an order waiting on exactly its terms; a repeated one returns its order, a different one under a known client identifier conflicts, an invalid one changes nothing |
| SimulatedBrokers.SimulatedBroker.TryOrder | internal/backtest/broker.go:209-248 | prices, charges and books one fill, or refuses it leaving every field as it was |
| SimulatedBrokers.SimulatedBroker.AcceptedIds | internal/backtest/broker.go:147-153 | walks the map in any order and yields the sorted list of accepted orders |
| SimulatedBrokers.SimulatedBroker.Visit | internal/backtest/broker.go:156-181 | one order is passed over, filled or rejected |
| SimulatedBrokers.SimulatedBroker.VisitAll | internal/backtest/broker.go:155-183 | the loop settles every listed order in turn and stops at a fill that fails |
| SimulatedBrokers.SimulatedBroker.OnMarketEvent | internal/backtest/broker.go:124-184 | other events and refused candles change nothing; a candle settles the accepted orders in sorted order |
| SimulatedBrokers.SimulatedBroker.Snapshot | internal/backtest/broker.go:258-270 | the account's own figures, with equity as cash plus the position at the last close |
| Runs.TickFate | internal/backtest/runner.go:52-104 | one turn decides an accepted order that is due, keeps every other, and adds only orders requested in that turn |
| OrderRequests.OrderFollowsRequest | internal/backtest/broker.go:102-207 | in every run and by its request alone, an order is unknown until the turn that requests it, waits on the requested side, quantity and limit while every candle is out of reach, and is decided by the first candle within reach, which opens no earlier than the requesting candle ended: rejected without a trade, or filled once at the open or the limit, at the configured slippage and commission |
| Runs.RunConserves | internal/backtest/broker.go:124-248 | in every reachable state cash is the initial cash less signed notionals and commissions, the position is the net quantity traded and not negative, commissions and slippage are those of the trades, every trade is priced and charged by the configured rates, and cash is not negative on a grid without rounding |
| Runs.EquityIdentity | internal/backtest/report.go:102-218 | over any run, final equity less initial cash is realized plus unrealized profit less commissions, within the rounding bound and exactly for exact averages |
| Runners.SubmitSignals | internal/backtest/runner.go:85-103 | submits exactly the requests of the signals that the risk check allows, in their order and none besides, each as its signal asks, and counts the others as rejected |
| Runners.RequestsAsk | internal/backtest/runner.go:111-134 | a signal asks for nothing exactly when its action is none of buy, sell and close; otherwise for a purchase exactly when it buys, on the draft's terms, at its event's moment, under one name |
| Runners.OrdersAreCalledFor | internal/backtest/runner.go:47-134 | every order of a run has exactly the terms of a draft that the strategy made of the candles so far and the risk check allowed |
| Runners.Turn | internal/backtest/runner.go:63-104 | one turn of the loop is one turn of the run on values with exactly the requests the strategy and the risk check call for, and the report sees the same fills and equities |
| Runners.Execute | internal/backtest/runner.go:47-109 | a successful run is a run of the value-level broker over exactly the candles of the dataset; every order in it belongs to an allowed draft of the strategy, which sees only candles so far, on that draft's terms; its metrics satisfy the equity identity, solvency and the drawdown property |
| Dataset.CandlesAreOrdered | internal/backtest/dataset.go:151-209 | candles of every accepted dataset have strictly increasing starts and never overlap; only the mark policy records gaps, and under the fail policy consecutive candles touch |
| Dataset.RowIsAccepted | internal/backtest/dataset.go:145-209 | exactly the well-formed rows that follow the previous one by whole intervals, by one where gaps fail, are accepted |
| Dataset.CandlesAreRows | internal/backtest/dataset.go:178-209 | the candles of an accepted dataset show the times, prices and volumes of its rows, one for one |
| Dataset.GapsAccountForEveryInterval | internal/backtest/dataset.go:151-209 | under the mark policy rows plus missing candles equal the intervals from first to last plus one, for all accepted datasets exactly when the interval does not divide the longest duration |
| Dataset.GapsAreBreaks | internal/backtest/dataset.go:160-176 | for an interval that does not divide the longest duration the recorded gaps are exactly the breaks between consecutive candles, each with the number of intervals it leaves out |
| Dataset.FarApartIsMiscounted | internal/backtest/dataset.go:160-176 | two rows further apart than a duration can express are accepted and miscounted when the interval does divide it |
| Dataset.CSVIterator.Next | internal/backtest/dataset.go:117-209 | emits the next candle of the reading of all consumed rows, ends exactly after the last row, and reports the first refused row |
| MovingAverage.StepRefinesHistory | internal/strategy/movingaverage/moving_average.go:64-105 | one windowed step yields the state and the signals that the whole history of closes calls for |
| MovingAverage.WindowRefinesHistory | internal/strategy/movingaverage/moving_average.go:64-105 | after any events the state holds the last closes and the relation of the means, and a buy or sell is emitted exactly when more closes than the slow period exist and the relation changed strictly to the other side |
| MovingAverage.CrossingsEmit | internal/strategy/movingaverage/moving_average.go:64-105 | after any events the next close buys exactly when there were enough closes and the fast mean was not above the slow one and now is, sells exactly with the inequalities reversed, and otherwise emits nothing |
| MovingAverage.MatchingEvents | internal/strategy/movingaverage/moving_average.go:73-75 | the strategy takes part in complete candles of its interval only |
| MovingAverage.MeanIsQuotient | internal/strategy/movingaverage/moving_average.go:114-124 | a mean is the sum over the number of values within half a last-place unit |
| MovingAverage.RelationIsSound | internal/strategy/movingaverage/moving_average.go:81-90 | one rounded mean is above or below another only if the exact quotients are; the relation is that of the means |
| MovingAverage.Average | internal/strategy/movingaverage/moving_average.go:114-124 | the loop computes the rounded mean |
| LedgerLemmas.AdvanceMoves | internal/storage/sqlite/commission.go:74-143 | an advance never lowers an order's level, sets it to the target and returns exactly the rise |
| LedgerLemmas.SynchronizeMoves | internal/storage/sqlite/commission.go:168-189 | a synchronization raises the level to the larger of level and target and returns exactly the rise |
| LedgerLemmas.DiscardedDeltaIsZero | internal/storage/sqlite/fill.go:100-117 | the delta of the first synchronization of a fill, which is thrown away, is always zero |
| LedgerLemmas.RecordFillBalances | internal/storage/sqlite/fill.go:240-297 | booking a fill keeps every daily total and the equality of daily and event sums, and charges its commission delta to its order |
| LedgerLemmas.RecordCommissionBalances | internal/storage/sqlite/commission.go:191-231 | booking a commission seen in history keeps the same equalities |
| LedgerInvariant.StageKeepsSound | internal/storage/sqlite/inbox.go:20-88 | staging adds at most one pending entry, never replaces one, and keeps the invariant |
| LedgerRules.ReportIsStaged | internal/storage/sqlite/inbox.go:20-113 | a valid report is staged exactly when its trade's entry, if any, has the same day and agrees in everything but the commission; a further report changes nothing |
| LedgerRules.OrderIsStored | internal/storage/sqlite/mapper.go:70-107 | an order row is stored exactly when it is new, asks for a positive quantity and is filled within it |
| LedgerRules.OpenOrdersAre | internal/storage/sqlite/generated/execution.sql.go:642-650 | open orders are those pending, accepted, partially filled or unknown |
| LedgerRules.FillIsApplied | internal/storage/sqlite/fill.go:62-283 | a staged fill that is not recorded is applied exactly when it fits its order's strategy, instrument, side and remaining quantity, every asset agrees, its identifier is new and a sale is covered |
| LedgerRules.KnownFillIsMarked | internal/storage/sqlite/fill.go:18-60 | a staged fill that is recorded already only has its entry marked, exactly when it is the same fill |
| LedgerRules.PersistedIsShared | internal/storage/sqlite/commission.go:145-166 | stored commissions add up exactly when they share one asset, which is known exactly when there are any |
| LedgerInvariant.ObserveRaises | internal/storage/sqlite/commission.go:18-72 | an accepted observation raises its order's level to the reported amount, charges exactly the rise and touches no other order |
| LedgerInvariant.ObserveKeepsSound | internal/storage/sqlite/commission.go:18-72 | an accepted observation keeps the ledger invariant |
| LedgerInvariant.ProjectShape | internal/storage/sqlite/fill.go:62-190 | what one new fill changes in every table: execution row, fill level and status, position, watermark, profit events |
| LedgerInvariant.ApplyKeepsSound | internal/storage/sqlite/fill.go:18-60 | applying an entry keeps the invariant, marks exactly it, and projects its fill only if it was not recorded before |
| LedgerInvariant.PlaceKeepsSound | internal/storage/sqlite/execution.go:138-156 | storing an order of positive size, filled at most completely, under a new identifier keeps the invariant; nothing was charged under that identifier before |
| LedgerRuns.NewLedgerIsSound | internal/storage/sqlite/fill.go:62-190 | a database with only unfilled orders satisfies the invariant |
| LedgerRuns.RunsExtend | internal/storage/sqlite/commission.go:74-189 | over any run, with orders stored along the way, nothing recorded is lost or altered, fill levels and watermarks only rise, and each order is charged exactly the rise of its watermark |
| LedgerRuns.AppliedExactlyOnce | internal/storage/sqlite/fill.go:18-60 | after any interleaving of staging, duplicates, drains and failures, each key has one recorded fill exactly when its entry was applied, and it is the staged fill |
| LedgerTheorems.FillLevelsHold | internal/storage/sqlite/fill.go:142-171 | after any run the fills of an order add up to at most its fill level, which has not fallen and is at most the unchanged requested quantity |
| LedgerTheorems.StatisticsBalance | internal/storage/sqlite/fill.go:240-297 | after any run every daily total is realized plus unrealized less commissions plus funding, and over all days realized profit, commissions and closed trades equal those of the matching profit events |
| LedgerDays.FillBooks | internal/storage/sqlite/fill.go:240-283 | applying a new fill adds its gain, the rise of its order's level and its closed trade to the row of its strategy, staged day and asset; unrealized profit and funding stay, and every other row reads as before |
| LedgerDays.ObservationBooks | internal/storage/sqlite/commission.go:191-231 | an observation adds exactly the rise to the row of the order's strategy, the day and the asset, and touches no row without a rise |
| LedgerDays.DaysAddUp | internal/storage/sqlite/fill.go:240-283 | after any run each row is what it was plus what exactly the fills and observations of its strategy, day and asset booked |
| LedgerTheorems.HoldingFollowsFills | internal/storage/sqlite/fill.go:192-283 | every holding is what its recorded fills bought less what they sold, never short, and its realized events plus its open gain follow the cash of those fills |
| LedgerTheorems.LevelIsLargest | internal/storage/sqlite/commission.go:74-189 | after any run an order's level is the largest of its initial level, its stored commissions and every accepted observation, and the charge is the rise |
| LedgerTheorems.ObservationAccepted | internal/storage/sqlite/commission.go:83-128 | an observation of a known order is accepted exactly when it is not below the level and its asset agrees |
| LedgerTheorems.ChargesAgreeExactly | internal/storage/sqlite/commission.go:74-189 | two accepted orders of the same transactions charge an order the same exactly when the first reports of the fills they apply add up to the same commissions, or both sums stay within what was charged before and what history observed |
| LedgerTheorems.AgreeingReportsChargeTheSame | internal/storage/sqlite/inbox.go:90-110 | when all reports of each fill agree, commission included, the charge is the same in any order |
| LedgerTheorems.StoredByRun | internal/storage/sqlite/inbox.go:20-88 | the commissions stored after an accepted run are those of the first staged reports of the fills it newly applies |
| LedgerExamples.FirstReportDecides | internal/agent/execution_ingress.go:164-172 | the same accepted transactions on one fill charge five or nothing, depending on which of two reports was staged first |
| LedgerTheorems.HistoryDecides | internal/storage/sqlite/commission.go:179-183 | two runs that observed the same history charge the same exactly when they stored the same commissions or history had reported at least as much as either, and then the level is what history reported |
| LedgerTheorems.IdentifiersNeverCollide | internal/storage/sqlite/fill.go:285-297 | profit event identifiers never collide; a repeated identifier always means another fill with the same execution identifier |
| LedgerTheorems.LateFillReopens | internal/storage/sqlite/fill.go:154-171 | a new fill of an order that is not open puts it back among the open orders exactly when the larger of its fill level and the sum of its fills stays below the request |
| LedgerExamples.CancelledOrderReopens | internal/storage/sqlite/generated/execution.sql.go:642-650 | an order stored as cancelled is selected as open again after a fill staged late is applied |
| LedgerStore.Transaction.PersistedOrderCommission | internal/storage/sqlite/commission.go:145-166 | the loop sums an order's stored commissions, or finds the first clash of assets |
| LedgerStore.Transaction.AdvanceOrderCommission | internal/storage/sqlite/commission.go:74-143 | inserts and updates the watermark row in place |
| LedgerStore.Transaction.SynchronizeCommission | internal/storage/sqlite/commission.go:168-189 | a watermark at or above the target stays |
| LedgerStore.Transaction.ApplyCommissionDelta | internal/storage/sqlite/commission.go:191-231 | a positive delta goes into the day's row and one profit event |
| LedgerStore.Transaction.ApplyPosition | internal/storage/sqlite/fill.go:192-238 | the position row is replaced in place, or the fill is refused for its asset or for selling more than is held |
| LedgerStore.Transaction.ApplyExecutionProfit | internal/storage/sqlite/fill.go:240-283 | realized profit and the commission delta go into the day's row and the events |
| LedgerStore.Transaction.InsertExecution | internal/storage/sqlite/fill.go:118-171 | adds the execution row and raises the fill level to the larger of level and sum, within the request |
| LedgerStore.Transaction.ApplyExecutionProjection | internal/storage/sqlite/fill.go:62-190 | the whole projection in the code's order, with the same errors |
| LedgerStore.Store.StageExecution | internal/storage/sqlite/inbox.go:20-88 | stages a fill once per key; a known key with another day or identity is an error |
| LedgerStore.Store.InsertExchangeOrder | internal/storage/sqlite/mapper.go:70-107 | adds the row of a new order, or refuses a bad quantity or a known identifier and changes nothing |
| LedgerStore.Store.ApplyStagedExecution | internal/storage/sqlite/fill.go:18-60 | one transaction that commits everything or nothing and reports whether the fill was new |
| LedgerStore.Store.ApplyCumulativeOrderCommission | internal/storage/sqlite/commission.go:18-72 | one transaction that charges the rise of the level or nothing |
| LedgerStore.Store.ListPendingExecutions | internal/storage/sqlite/inbox.go:115-140 | a page is short only when it holds every pending entry |
| LedgerStore.Store.DrainPendingExecutions | internal/agent/execution_ingress.go:224-240 | the drain terminates, and on success nothing is pending, also when the count is a multiple of the page size |
| OrderIntents.StepKeepsSafe | internal/agent/order_submission.go:17-76 | every step, a crash included, keeps at most one order made or in flight per signal and the intent rows consistent with it |
| OrderIntents.AtMostOneOrder | internal/agent/order_submission.go:17-76 | in every run at most one order is created per signal, a submitted intent is that order with the intent's terms, and an intent exists exactly for an allowed decision |
| OrderIntents.StepKeepsTerminal | internal/storage/sqlite/execution.go:109-198 | decisions never change and resolved intents never move |
| OrderIntents.ResolvedForever | internal/storage/sqlite/execution.go:109-198 | submitted, rejected, failed and not-submitted intents stay as they are in any continuation, and a not-submitted one never gets an order |
| OrderIntents.DecisionIsRecorded | internal/storage/sqlite/execution.go:330-379 | a known signal without a decision may be decided either way; exactly an allowed one gets a ready intent on the signal's terms |
| OrderRules.ResolutionIsAccepted | internal/storage/sqlite/execution.go:109-164 | a resolution is accepted exactly for an unresolved intent, with an order exactly when submitted, of the same account, first of its intent and under an identifier not taken there, and changes nothing else |
| OrderIntents.ReadyOnlyWhenNotApplied | internal/agent/order_submission.go:38-75 | an intent returns to ready exactly on a rate-limit or transient error known not to have been applied, is marked unknown exactly when the outcome is reported unknown or the error is none of the exchange's, and is rejected exactly on the other errors of a rejecting category |
| OrderIntents.OnlyRateLimitsAreRetried | internal/exchange/tinvest/errors.go:12-67 | of all transport errors of a placement only an exhausted rate limit leads to another attempt, those after which an order may exist mark the intent unknown, four codes reject it, and not found leaves it as it is |
| OrderRules.HarmlessTransitions | internal/storage/sqlite/execution.go:166-198 | of the status changes the store accepts, those keep the system safe and resolved intents in place that take a pending intent with no call under way anywhere but to submitted, and to ready, not submitted or rejected only when no order was made |
| OrderRules.ReadyAgainPlacesTwice | internal/storage/sqlite/execution.go:166-198 | from any safe system, an intent whose order exists and that is made ready again gets a second order by the ordinary steps |
| OrderRules.SubmittedCanBeReplaced | internal/storage/sqlite/execution.go:166-198 | a run from the empty system submits an intent; the store then lets it become ready, and a second order follows |
| OrderRules.RejectedHaveNoOrder | internal/agent/order_submission.go:46-56 | in every run whose errors say what became of the request, a rejected intent has no order and none in flight |
| OrderRules.ClearRejectionsAreSafe | internal/exchange/errors.go:24-29 | a reply rejects safely, in every run that hears no other, exactly when it does not leave the outcome of a rejecting category unset, as no error of the adapter does |
| OrderRules.ExchangeIdsAreUnique | internal/storage/sqlite/execution.go:138-156 | in every run the recorded orders of an account have distinct exchange identifiers |
| OrderAgent.Agent.PlaceOrder | internal/agent/order_submission.go:31-31 | the call changes only the network, the exchange and the agent's memory |
| OrderAgent.Agent.SubmitIntent | internal/agent/order_submission.go:17-76 | on success the intent is submitted or rejected; no other signal's rows change, and every change is a step of the system |
| OrderAgent.Agent.LookUp | internal/agent/startup.go:154-159 | an order found on the exchange and matching the intent is recorded; nothing is placed |
| OrderAgent.Agent.ResolvePendingIntents | internal/agent/startup.go:139-170 | on success every submitting or unknown intent is recorded as submitted and exactly the ready ones remain |
| OrderAgent.Agent.SubmitReady | internal/agent/startup.go:84-90 | on success every listed intent is submitted or rejected and no intent became pending |
| OrderAgent.Agent.ProcessSignal | internal/agent/signal_pipeline.go:58-97 | records one decision for an undecided signal and submits an allowed one; no other signal's rows change |
| OrderAgent.Agent.RecoverSignals | internal/agent/signal_pipeline.go:38-56 | terminates, and on success no signal is undecided and no intent was left pending |
| OrderAgent.Agent.Startup | internal/agent/startup.go:45-109 | a successful startup leaves no pending intent and, unless risk checks have yet to observe the market, no undecided signal; while they have, no decision is taken |
| OrderAgent.NothingUndecided | internal/storage/sqlite/execution.go:209-328 | what it means for paging that no signal is undecided: each has a decision |
| OrderAgent.NothingPends | internal/storage/sqlite/execution.go:52-107 | what it means for paging that no intent is pending: each is submitted, rejected, failed or not submitted |
| OrderAgent.Agent.TerminalizeFailedStrategySignals | internal/agent/lifecycle.go:256-283 | terminates, and on success the strategy has no undecided signal; other strategies' rows are untouched |
| OrderAgent.Agent.ResolveFailedStrategyIntents | internal/agent/lifecycle.go:206-254 | on success the strategy has no ready, submitting or unknown intent; other strategies' rows are untouched |
| OrderAgent.Runtime.IsolateStrategyFailure | internal/agent/lifecycle.go:166-204 | on success the strategy has no worker, no undecided signal and no pending intent, and nothing of another strategy changed |
| StrategyEvents.ComparisonsAgree | internal/strategy/worker.go:146-166 | the worker's and the store's cursor comparisons are the same total order |
| StrategyEvents.KindsAreOrdered | internal/strategy/worker.go:129-144 | events of one instant are taken other kinds first, then trades, order books and candle closes, whatever their sequence numbers |
| StrategyEvents.DeliverKeepsRepresents | internal/storage/sqlite/strategy.go:140-217 | an accepted delivery extends the folded history by its event and any other changes nothing |
| StrategyEvents.DeliveryFollowsAnswer | internal/strategy/worker.go:58-127 | an event is folded in exactly when it is awaited, the strategy's answer has few enough valid drafts and no stored signal clashes; then the row holds the answered state, and exactly the answer's drafts become signals, numbered in order, stored and returned |
| StrategyEvents.RefusalsAreExplained | internal/strategy/worker.go:66-118 | which reason each other event is refused or ignored for |
| StrategyEvents.CommitAccepted | internal/storage/sqlite/strategy.go:140-217 | a commit takes effect exactly at the expected revision, not before the row's event and with storable signals; it then writes state, cursor, signals and the next revision; one whose state and cursor are stored already succeeds without effect, and any other is refused |
| StrategyEvents.RunsFoldAcceptedEvents | internal/strategy/worker.go:58-127 | after any deliveries the durable state is the fold of the strategy's own answers to the accepted events, its revision their number, and the signal table the concatenation of the drafts of those answers as signals |
| StrategyEvents.AlignedHistoryIncreases | internal/strategy/worker.go:73-81 | with whole microseconds the accepted events have strictly increasing cursors |
| StrategyEvents.RedeliveryIsHarmless | internal/strategy/worker.go:73-81 | delivering any event of such a history again changes nothing, and the last one is recognized as a retry |
| StrategyEvents.DuplicatesAreHarmless | internal/strategy/worker.go:58-127 | after any run of whole-microsecond deliveries an accepted event delivered once more changes nothing |
| StrategyEvents.DuplicatesNeedWholeMicroseconds | internal/storage/sqlite/strategy.go:149-181 | a worker that emits no signal folds a repeated event in again exactly when its time is not a whole number of microseconds |
| StrategyEvents.RevisionsPreventLostUpdates | internal/storage/sqlite/strategy.go:164-195 | with any commits of any writers before and after a load, a commit that takes effect overwrites the very row that was loaded exactly when it carries the loaded revision |
| StrategyEvents.RetriedCommit | internal/storage/sqlite/strategy.go:164-178 | committing once more what was just committed succeeds and changes nothing |
| StrategyEvents.SignalsStayDistinct | db/sqlite/migrations/000001_initial.up.sql:44-44 | after any commits no two stored signals share strategy, stored cursor and ordinal |
| StrategyEvents.CountersDiffer | internal/strategy/worker.go:58-127 | two events delivered in turn are counted twice, while two prepared from one load each ask to store a count of one |
| StrategyWorkers.EventStore.CommitEvent | internal/storage/sqlite/strategy.go:140-217 | state, cursor and signals are written together or not at all |
| StrategyWorkers.DurableStatePort.Load | internal/strategy/durable.go:36-56 | returns the durable row and remembers its revision |
| StrategyWorkers.DurableStatePort.CommitState | internal/strategy/durable.go:58-91 | commits with the remembered revision and moves it on by one |
| StrategyWorkers.EventWorker.Begin | internal/strategy/worker.go:58-122 | the first half of a delivery prepares a commit from the durable row and remembers its revision |
| StrategyWorkers.EventWorker.Finish | internal/strategy/worker.go:123-126 | the second half commits under whatever revision the port remembers by then |
| StrategyWorkers.EventWorker.Process | internal/strategy/worker.go:58-127 | what one delivery does depends on the database only, not on what the port remembered |
| StrategyWorkers.Overlap | internal/strategy/durable.go:15-91 | two workers that both load before either commits: the later event replaces the earlier one's row, as if it had never been delivered, exactly when they share a port and its signals do not clash; otherwise only the first commit counts |
| StrategyWorkers.RunWithRestarts | internal/strategy/worker.go:58-127 | with restarts at any point the database is still the fold of the accepted events |
| HistoryCheckpoints.AdvanceClimbs | internal/storage/sqlite/history_checkpoint.go:72-122 | an advance is accepted exactly when it does not regress, and the newest row then covers the most |
| HistoryCheckpoints.LatestIsLast | internal/storage/sqlite/history_checkpoint.go:40-70 | the newest row by creation time is the last appended and carries the largest coverage |
| HistoryCheckpoints.CheckpointStore.AdvanceCheckpoint | internal/storage/sqlite/history_checkpoint.go:72-122 | moves the watermark forward by one appended row, or leaves the log as it was |
| HistoryCoverage.StepKeepsInv | internal/agent/execution_ingress.go:87-204 | every step of staging, scanning, draining, checkpointing and crashing keeps coverage free of gaps |
| HistoryCoverage.ScanReaches | internal/agent/execution_ingress.go:101-118 | a scan reaches from the overlap before the watermark, or the bootstrap before its end where there is none, up to the visibility delay ago, and starts exactly when that window is not empty |
| HistoryCoverage.WatermarkNeverRegresses | internal/storage/sqlite/history_checkpoint.go:85-99 | the log is only appended to and the watermark never falls |
| HistoryCoverage.CoverageHasNoGaps | internal/agent/startup.go:57-83 | in every run, every fill from the start of the first committed window through the watermark is recorded, once |
| HistoryRecovery.StageFills | internal/agent/execution_ingress.go:160-178 | on success every reported fill is in the inbox |
| HistoryRecovery.ChargeTotals | internal/agent/execution_ingress.go:182-200 | on success every reported cumulative commission is charged |
| HistoryRecovery.ApplyHistory | internal/agent/execution_ingress.go:160-200 | stages, drains, charges and drains again: on success nothing is pending, every reported fill is recorded and every total charged, by transactions on fills that happened |
| HistoryRecovery.RecoveryMoves | internal/agent/startup.go:57-83 | the transactions of a recovery between a scan and its checkpoint are moves of the coverage system |
| HistoryRecovery.WindowIsScanned | internal/agent/execution_ingress.go:109-121 | the window a recovery asks for is that of a scan |
| HistoryRecovery.HistoryFills | internal/agent/execution_ingress.go:160-168 | a fill from the history is staged under its trade's name as reported, without a commission |
| HistoryRecovery.RecoverExecutionHistory | internal/agent/execution_ingress.go:87-204 | an incomplete answer or another window stops it; on success every reported fill is recorded, every total charged and the watermark at the end of the window, otherwise the watermark has not moved; either way the database and the log are those after moves of the coverage system |

## Left out

- Exposure time and its percentage in the report, and the report's JSON form: presentation beside the profit figures.
- Configuration, command line, logging, gRPC transport, mappers, retries and stream plumbing: only the outcome contract of the exchange is modelled.
- SQL text, migrations, the file lock and decoding errors of stored rows: tables are maps and sequences, with one process writing.
- SHA-256 and identifier shapes: identifiers are the values they digest, or an injective function of them.
- The checksum of version 4 inbox rows: fills are compared by their identity without commission.
- Legacy executions recorded before the inbox existed: runs may start from any ledger state that satisfies the invariant, and `LedgerRuns.AppliedExactlyOnce` additionally from one where everything came through the inbox.
- More than one exchange account in the ledger tables: dedupe keys and orders are those of one account.
- Audit rows of decisions and transitions, the time stamps of intents, and row revision counters other than the strategy row's.
- Trading days and daylight saving: a day is an arbitrary function of strategy and time.
- Risk limits, reconciliation and market risk observers: risk is an arbitrary decision per signal, reconciliation a gate that passes or fails.
- Order cancellation, the strategy registry and lifecycle status rows beyond the failure of `SetStrategyStatus`.
- The order of pages and of recovered fills: pages may come in any order and fills in any sequence, which proves more.
- Decoding of candle records, dataset checksums and state payloads: a row is malformed or a tuple of numbers, a state is its payload.
- Identifier syntax and UTC checks of events and submitted requests, and the text of errors.
- Funding: no operation of the modelled files changes it, so it only takes part in the totals.
- Whether an exchange ever answers: an intent left submitting and not found blocks by design, so placement is at most once, not exactly once.
- HistoryCoverage.CoverageHasNoGaps: assumes the contract of a complete provider, which reports every fill of its window older than the visibility delay, and a clock that does not run backwards.
- HistoryRecovery.RecoverExecutionHistory: assumes the same contract of the answer it is given, and starts from attributed fills: matching history orders to submitted intents (internal/agent/execution_ingress.go:138-153) is not modelled.
- BrokerLemmas.SettlementStaysSolvent: stated for grids whose notionals have at most sixteen decimal places, because `BrokerExamples.RunsStaySolvent` shows that runs on any other can end overdrawn.
