# Verified model of a day-trading bot's accounting, protocols and reports

The repository is a Japanese stock trading bot: it filters symbols each morning and at midday, trades them,
backtests its rules, watches its positions and repairs its own reports. This project models the parts of it
in which money, state or a protocol has to come out right, and proves what each of them promises.

- **Backtest** (`Backtest`, `BacktestEngine`, `BacktestLedger`, `BacktestRuns`, `BacktestLimits`,
  `BacktestConditions`, `BacktestPositions`, `BacktestStops`, `BacktestOrders`, `BacktestLookAhead`,
  `BacktestWithinDay`): the replay of dates, moments and quotes over cash, holdings and records.
  `Backtest` defines every step as a function, `BacktestEngine` is the class that updates its fields in place and is
  proved equal to those functions, and the other modules prove what every run keeps: money is conserved, cash never
  goes negative, signals alternate, positions stay within the target and purchases within their limits, every day
  ends flat, and nothing depends on later dates or, when orders are executed at once, on later quotes of the day.
  `BacktestConditions` says in terms of prices and settings what asks for a sale or a purchase and at which price an
  order is executed; `BacktestStops` proves that every deal of every run follows these conditions and that none was
  missed in between, and `BacktestOrders` when a signal leads to a purchase and of how much.
- **Indicators** (`Indicators`): the price band and the strength index on which the rules decide.
- **Fixed list** (`FixedListBacktest`, `FixedListLedger`, `FixedListStops`): the older backtest of one symbol after
  the other, its money and the causes of its trades.
- **Metrics** (`Metrics`): drawdown and the other figures of a list of results.
- **Lot matching** (`LotMatching`): which sales close which purchases. The greedy pass is proved optimal.
- **Budget** (`Allocation`): money shared out over candidates.
- **Exit lines** (`ExitLines`, `ChartLines`): two loops that follow a trailing stop, the line that is drawn and
  the compressed form in which it is published.
- **Shadow tracker** (`ShadowTracker`): observation of a held position at checkpoints.
- **Requests** (`RequestSlots`, `RetryCounters`): the slots that space out HTTP requests under any interleaving of
  threads, and the retries and counters of refused ones.
- **Filtering** (`FilteringRounds`, `Filtering`, `MiddayFiltering`): one record for every symbol, boards fetched
  again, deadlines.
- **Report repair** (`ReportDiff`, `PeriodPatch`, `ReportMarks`, `ReportRepair`): the comparison of JSON reports, the
  replacement of their profit totals, the marks that take reports out of the evaluation, and the writing of files
  behind backups, with a crash possible anywhere.
- **Rank correlation and sensitivity** (`RankCorrelation`) and the **listed-securities master** (`SecuritiesMaster`).

`Common` holds the shared vocabulary; its `Fold` is what a loop makes of its state, and the loops in place are
proved equal to folds. Floats are real numbers. Dates, times of day and security codes of the backtest are numbers in
the order of their text. Functions whose value does not matter to a proof (the volatility assessment, `float` of a
text, square roots, rounding) are parameters; the two indicators are parameters of the rules as well, which the
program's own functions in `Indicators` meet.

Seven promises turn out to hold only under a condition. The model keeps the code as it is and proves the condition:

- A trailing line can fall. It never does exactly when the profit-lock multiplier is at most the stop multiplier or
  the trigger is zero, and the shipped settings (src/config/config.py:222-239) meet neither.
- Within a day a run can look ahead. Its account and records depend only on the quotes shown before if and only if
  orders are executed without delay; cash, positions and results alone do so also when they are limit orders. A
  delayed market order takes the price of a later bar (src/application/backtest_usecase.py:43-49).
- A trade of the fixed-list backtest takes exactly one bar for every price history and all rules over the program's
  indicators if and only if no symbol is listed twice. Listed twice, it can leave before it enters.
- `succeeded + failed` counts the requests that met a 429 if and only if none of them ends in an exception that is no
  `RequestException`.
- The evaluated records of the filter are the scored candidates if and only if every board that a round of fetching
  again comes to has a turnover and an average that can be read as numbers: otherwise the record is marked evaluated
  before the exception (src/application/filtering_usecase.py:178-188).
- A run that marks reports completes if and only if none of the planned reports had one of the three added fields. A
  mark that is `null`, or a reason without a mark, is not noticed before the report has been replaced, and then the
  check after writing raises (scripts/ops/mark_report_data_quality.py:209-214).
- A published step line gives back every value of its series, rounded, if and only if bars of one minute agree after
  rounding. Fetched bars have their times cut to the minute, so two bars can share one.

## Model

| member | source | states |
|---|---|---|
| LotMatching.GreedyIsOptimal | scripts/analysis/analyze_intraday_movement_and_stagnant_positions.py:164-199 | No feasible assignment of strictly later sales of the same security places more quantity than the positions of the one-pass matching |
| LotMatching.TradePositions | scripts/analysis/analyze_intraday_movement_and_stagnant_positions.py:164-199 | Every purchase receives the exits, exit time, profit and unmatched rest of its row of the matching; a profit is what its exits bring less the price of the whole purchase, and a gain when every exit is above it |
| LotMatching.MatchOne | scripts/analysis/analyze_intraday_movement_and_stagnant_positions.py:178-190 | One purchase lowers the sales in place by exactly what it takes of each |
| LotMatching.SalesConserved | scripts/analysis/analyze_intraday_movement_and_stagnant_positions.py:184-190 | A sale's drop is the sum of what all purchases took of it |
| LotMatching.PurchasesConserved | scripts/analysis/analyze_intraday_movement_and_stagnant_positions.py:178-199 | What is open of a purchase is its quantity less what it took, between zero and the quantity |
| LotMatching.RemainingFalls | scripts/analysis/analyze_intraday_movement_and_stagnant_positions.py:181-188 | Sales are only lowered, never below zero, and a used-up one stays |
| LotMatching.MatchingIsFeasible | scripts/analysis/analyze_intraday_movement_and_stagnant_positions.py:176-190 | The matching respects the symbols, the order in time and both quantities |
| LotMatching.NoMissedSale | scripts/analysis/analyze_intraday_movement_and_stagnant_positions.py:176-191 | No purchase is left open beside a later sale of its security that is not used up |
| LotMatching.OutcomeConserves | scripts/analysis/analyze_intraday_movement_and_stagnant_positions.py:191-198 | Exits and unmatched rest make up the quantity; there is an exit time exactly when nothing is left, and a profit exactly when all exits are priced too |
| LotMatching.ProfitIsProceedsLessCost | scripts/analysis/analyze_intraday_movement_and_stagnant_positions.py:193-197 | The realized profit is the sum of price times quantity over the exits less the entry price times their quantity |
| LotMatching.ExitsAreMatched | scripts/analysis/analyze_intraday_movement_and_stagnant_positions.py:184-189 | The exits of a purchase are exactly what it takes of the sales in the matching, each at the time and price of its sale |
| LotMatching.FeasibleWithinBound | scripts/analysis/analyze_intraday_movement_and_stagnant_positions.py:176-191 | Every feasible assignment stays within a bound computed from what the greedy pass leaves over |
| LotMatching.GreedyReachesBound | scripts/analysis/analyze_intraday_movement_and_stagnant_positions.py:176-191 | The greedy pass reaches that bound |
| LotMatching.SortOrders | scripts/analysis/analyze_intraday_movement_and_stagnant_positions.py:176-177 | The orders are sorted by time |
| LotMatching.SortIsStable | scripts/analysis/analyze_intraday_movement_and_stagnant_positions.py:176-177 | Orders of one moment stay as they were recorded |
| LotMatching.BuysArePositive | scripts/analysis/analyze_intraday_movement_and_stagnant_positions.py:144-161 | Purchases that take part have positive price and quantity |
| LotMatching.OrdersIff | scripts/analysis/analyze_intraday_movement_and_stagnant_positions.py:144-175 | Which events are purchases and sales, with which price and quantity: the delayed price only where no price is recorded, acceptance only for purchases in production |
| Allocation.AllocateBudget | src/application/allocate_budget.py:7-44 | The loop equals: keep the candidates one unit of which fits the budget of a position, give each the most whole units, take the first ones. In terms of prices: the allotments go to the first candidates one unit of which, times the number of positions, the cash pays for within the limit of an order, each with the most such units. It never spends more than the cash and raises exactly on rejected arguments |
| Allocation.Distribute | src/application/allocate_budget.py:30-44 | The cash left always covers the budget of a free position, so neither the cap by the cash nor the check against it takes effect |
| Allocation.Serve | src/application/allocate_budget.py:33-41 | With the budget covered, a candidate receives its stateless share |
| Allocation.CalcAffordableStocks | src/domain/affordability.py:6-21 | What is returned stands at ascending places of the list, which are exactly those of the candidates one unit of which the cash pays for; it raises exactly on negative cash or a non-positive unit |
| Allocation.FilterIsRedundant | src/application/allocate_budget.py:32-36 | The filter by the whole cash changes no allotment |
| Allocation.WholeUnitsAreMaximal | src/application/allocate_budget.py:34 | The quantity is the largest multiple of the unit that the budget pays for |
| Allocation.LotsAreMaximal | src/application/allocate_budget.py:34 | The floor division gives a number of lots exactly when that many are payable and no more are |
| Allocation.BudgetIff | src/application/allocate_budget.py:27-29 | An amount is within the budget of a position exactly when the cash pays for it as often as there are positions, and within the limit of an order |
| Allocation.SpentIsSum | src/application/allocate_budget.py:36-41 | What is spent is the sum of the cash required |
| Metrics.MaxDrawdown | src/application/backtest_usecase.py:113-119 | The running maximum equals the largest fall from an earlier to a later equity, for every list of results |
| Metrics.CalculateMetrics | src/application/backtest_usecase.py:100-125 | The win rate times the number of results is the number of gains, the profit factor times what the losses lose is the sum of the gains, absent exactly without losses, and the drawdown is the largest fall |
| Metrics.FiguresCountGainsAndLosses | src/application/backtest_usecase.py:109-111 | The wins counted are the results above zero, gross profit is their sum and gross loss what the results below zero lose |
| Metrics.ProfitAndLossBalance | src/application/backtest_usecase.py:109-111 | Gross profit less gross loss is the change of equity |
| Backtest.PositionIsLast | src/application/backtest_usecase.py:992-1013 | The bar found for a time of day is the last one of that time, and none is found exactly when no bar has it |
| Backtest.QuoteIff | src/application/backtest_usecase.py:990-1005 | A symbol with minute bars is quoted at their times only, at the price and place of the last bar of each; one without is quoted once, at 15:30, at its daily close if there is one |
| Backtest.TicksAscend | src/application/backtest_usecase.py:998-1012 | The quotes of a moment are those of all symbols quoted then, in the order of the symbols |
| Backtest.BeforeIsInOrder | src/application/backtest_usecase.py:1019-1024 | The daily values used on a date are those of all earlier dates, in ascending order of the dates |
| BacktestEngine.Engine.TradeDay | src/application/backtest_usecase.py:979-1200 | One date, moment by moment and with liquidation, updates the fields as the function of a date says |
| BacktestEngine.Simulate | src/application/backtest_usecase.py:673-1200 | A whole run in place equals the fold over its dates, with sound keys |
| BacktestEngine.Engine.CollectSignals | src/application/backtest_usecase.py:1010-1074 | Stops come first, quote by quote, and no stopped-out symbol signals in its moment |
| BacktestEngine.Engine.CheckStops | src/application/backtest_usecase.py:1025-1070 | The high is raised before the stops are tested, and the trailing stop names the sale; `BacktestStops` states when each is due |
| BacktestEngine.Engine.ExecuteSignals | src/application/backtest_usecase.py:1076-1189 | All sales of a moment are executed before any purchase |
| BacktestEngine.Engine.ClosePosition | src/application/backtest_usecase.py:813-902 | A sale updates cash, records and position maps as the function of a sale says |
| BacktestEngine.Engine.Buy | src/application/backtest_usecase.py:1079-1189 | A purchase passes the limit of positions, the sizing, the regime gate and both checks of the cash |
| BacktestEngine.Engine.Liquidate | src/application/backtest_usecase.py:1196-1200 | The quoted positions are sold in the order of their keys |
| BacktestLedger.RunKeeps | src/application/backtest_usecase.py:979-1200 | A property of the opening account that every sale, high and purchase keeps holds at the end of every run |
| BacktestLedger.DayUntilKeeps | src/application/backtest_usecase.py:1008-1194 | And at every moment of every day |
| BacktestLedger.KeysAreKept | src/application/backtest_usecase.py:896-902 | The position maps hold keys for exactly the open positions |
| BacktestLedger.MoneyIsConserved | src/application/backtest_usecase.py:833-836 | Cash plus the cost of the open positions is the starting cash plus the realized results, at the end of every run |
| BacktestLedger.MoneyIsConservedThroughoutTheDay | src/application/backtest_usecase.py:1163-1168 | And at every moment of every day |
| BacktestRuns.CashNeverNegative | src/application/backtest_usecase.py:1149-1163 | With a fee rate of at most one and at most 10,000 basis points of slippage the cash never goes negative |
| BacktestRuns.CashFallsOnSaleIff | src/application/backtest_usecase.py:833-835 | A sale at a positive price lowers the cash exactly when the fee rate exceeds one |
| BacktestRuns.PositionsWithinTarget | src/application/backtest_usecase.py:1086-1096 | Open positions never exceed the target |
| BacktestRuns.SignalsAlternate | src/application/backtest_usecase.py:869-883 | The signals of a symbol strictly alternate between buying and selling the same quantity, and what they leave open is what is held |
| BacktestRuns.TradesAccountForResults | src/application/backtest_usecase.py:834-864 | Every recorded result is the proceeds less the cost and both fees |
| BacktestRuns.EveryDayEndsFlat | src/application/backtest_usecase.py:1196-1200 | With liquidation nothing is held after a date, and every trade is entered and left on one date |
| BacktestRuns.ReportedProfitIsRealized | src/application/backtest_usecase.py:1213-1221 | Then the reported profit is the sum of the realized results |
| BacktestRuns.ReportedProfitIsRealizedAndOpen | src/application/backtest_usecase.py:1213-1221 | In every run the reported profit is the sum of the realized results and what the open positions are worth above their cost |
| BacktestLimits.EveryPurchaseIsAllowed | src/application/backtest_usecase.py:1079-1187 | At every moment of every run each purchase was on a day that is not one of danger, and with a target of positions within both order limits and of whole lots |
| BacktestLimits.OrderFitsBudget | src/application/backtest_usecase.py:1096-1111 | An order costs no more at its signal's price than its share of the cash and is of whole lots |
| BacktestConditions.TrailingLineIff | src/domain/volatility.py:50-98 | The trailing stop is hit exactly at a price at or below the highest price less the range times the multiplier that `resolve_atr_exit_multiplier` gives |
| BacktestConditions.SignalIff | src/application/backtest_usecase.py:904-976 | A signal to sell is given exactly when there are prices enough, the price is far enough from the middle of its band, at or below the lower edge and the strength at or below the exit threshold; a signal to buy at or above the upper edge with the strength of the entry threshold, or of the one for caution unless the regime is normal |
| BacktestConditions.ExecutedIff | src/application/backtest_usecase.py:33-50 | An order is executed at the quoted price, or at the price of the bar that is the delay later or the last of the day, raised by the slippage for a purchase and lowered by it for a sale, with the fee on that amount |
| BacktestStops.EveryDealIsJustified | src/application/backtest_usecase.py:1025-1189 | At every moment of every run, for each deal in the record: a purchase was at a quote that signals to buy, after the last sale; a sale noted as a trailing stop was at or below the line of the highest quote held, one noted as a stop loss at or below the average cost less the loss allowed, any other a signal or the liquidation at the last quote of the day; and every quote between purchase and sale was strictly above both levels and gave no signal to sell. The same holds of what is still open |
| BacktestStops.EveryDealOfRunIsJustified | src/application/backtest_usecase.py:979-1200 | And at the end of every run |
| BacktestStops.StopsLeaveAbove | src/application/backtest_usecase.py:1025-1070 | Whatever the account was, after the stops of a moment a position that is still open and was quoted lies strictly above both levels |
| BacktestStops.LatestPriceIsRecorded | src/application/backtest_usecase.py:1014-1015 | The price at which a run values a symbol is that of its latest quote |
| BacktestPositions.MomentShows | src/application/backtest_usecase.py:1010-1189 | A moment changes the position and the deals of a symbol only at its own quote: the stop, the sale on a signal, the purchase |
| BacktestPositions.EverySaleHasItsRecord | src/application/backtest_usecase.py:839-883 | At every moment of every run each signal to sell has its trade record |
| BacktestPositions.DealsListAllSignals | src/application/backtest_usecase.py:839-883 | The deals of a symbol are all its signals, in order |
| BacktestOrders.BuysIff | src/application/backtest_usecase.py:1079-1187 | A signal to buy leads to a purchase, with cash, holdings and details as its order says, if and only if the symbol is not held, there is room, the day does not forbid it, a positive quantity is asked for, and the cash covers it at the signal's price and as executed with its fee |
| BacktestOrders.OrderIsAsked | src/application/backtest_usecase.py:1086-1117 | The quantity of an order is the most lots that the cash pays for once for each free position and the order limits allow, or the fixed one, less what the volatility takes: at caution the most lots within the ratio, but one; at danger one or none |
| BacktestOrders.AskedIsUnique | src/application/backtest_usecase.py:1086-1117 | There is only one such quantity |
| BacktestOrders.SignalToBuyIsTried | src/application/backtest_usecase.py:1079-1189 | Whenever a symbol that is not held signals to buy, its purchase is tried within the moment |
| BacktestLookAhead.NoLookAhead | src/application/backtest_usecase.py:979-1200 | Two data sets that agree up to a date leave the same cash, holdings, signals and trades after it |
| BacktestLookAhead.IndicatorsUseEarlierDates | src/application/backtest_usecase.py:1019-1024 | Daily indicators and ranges use only strictly earlier dates |
| BacktestLookAhead.LaterDatesOnlyAdd | src/application/backtest_usecase.py:836-883 | Later dates only append to results, trades and signals |
| BacktestWithinDay.SeenIsEarlierMinutePrices | src/application/backtest_usecase.py:1191-1194 | At every second of a day the minute prices recorded for a symbol are those from before the day, then those of the day's earlier seconds in order, and no other |
| BacktestWithinDay.SeenIsAllMinutePrices | src/application/backtest_usecase.py:1191-1194 | Between dates they are the minute prices of all dates so far |
| BacktestWithinDay.SeenUsesEarlierQuotes | src/application/backtest_usecase.py:1191-1194 | Data sets whose quotes agree before a second of a date have the same minute prices recorded at it for every symbol that occurs in both |
| BacktestWithinDay.SignalUsesEarlierQuotes | src/application/backtest_usecase.py:904-930 | So quotes of the same price and time give the same signal there |
| BacktestWithinDay.NoLookAheadWithinDay | src/application/backtest_usecase.py:1008-1194 | Without delay such data sets leave the same account at that second, and with limit orders the same cash, positions and results |
| BacktestWithinDay.LateOrdersLookAhead | src/application/backtest_usecase.py:36-50 | With a delay two data sets that differ only in a later minute leave different signals, and under market orders different cash |
| BacktestWithinDay.NoLookAheadWithinDayIff | src/application/backtest_usecase.py:36-50 | Rules over the program's indicators never look ahead within a day exactly without delay; in cash, positions and results exactly without delay or with limit orders |
| Indicators.RsiIsBounded | src/domain/rules.py:42-71 | The strength index lies between 0 and 100, and is 100 exactly when the closes rise and never fall and 0 exactly when they fall and never rise |
| Indicators.CalculateRsi | src/domain/rules.py:42-71 | The loop that smooths gains and losses together gives the index, absent exactly with too few closes or one that is not positive |
| Indicators.NoIndexIff | src/domain/rules.py:44-47 | There is no index exactly with too few closes or one that is not positive |
| Indicators.StrengthIsShareOfGains | src/domain/rules.py:58-63 | The index is the share of the gains in gains and losses, in percent, and 50 without either |
| Indicators.SmoothedTurns | src/domain/rules.py:49-56 | The average starts with the mean of the first changes and takes each further one in with a weight of one in the period |
| Indicators.BandIsAroundMean | src/domain/rules.py:21-40 | The band lies one percent to either side of the mean of the last five closes |
| Indicators.RisingThenJumpBuys | src/domain/rules.py:21-71 | After thirty rising closes a jump above the band is a signal to buy, however ties are rounded |
| FixedListBacktest.OneBarIffDistinct | src/application/backtest_usecase.py:306-351 | Every trade takes exactly one bar, for all prices and all rules over the program's indicators, if and only if no symbol is listed twice |
| FixedListBacktest.EveryTradeTakesOneBar | src/application/backtest_usecase.py:310-351 | With liquidation and distinct symbols every trade leaves one bar after it enters |
| FixedListBacktest.RepeatedSymbolExitsBeforeEntry | src/application/backtest_usecase.py:402-456 | Thirty rising closes and a jump, under the program's indicators, with which a symbol listed twice leaves before it enters |
| FixedListBacktest.SimulateList | src/application/backtest_usecase.py:306-548 | The nested loops equal the fold over symbols and bars |
| FixedListLedger.ListMoneyIsConserved | src/application/backtest_usecase.py:306-548 | Whatever symbols are listed, once or more often, cash and the cost of the holdings are the starting cash and the results |
| FixedListStops.EveryTradeIsJustified | src/application/backtest_usecase.py:306-548 | In every run over distinct symbols each trade enters on a signal to buy and leaves at the first later bar that asks for it: with liquidation the next one, else the first at or below the trailing line of the highest close held or the loss limit, or with a signal to sell |
| FixedListStops.BarLeavesIff | src/application/backtest_usecase.py:308-456 | Whatever is held and whichever symbols are listed, a bar ends a holding exactly when liquidation is on and it was bought at an earlier bar, or when the bar asks for it |
| FixedListStops.BarBuysIff | src/application/backtest_usecase.py:462-548 | A bar at which nothing is held ends with a purchase exactly when it signals to buy, the volatility leaves a positive quantity, and the cash covers it with its fee |
| FixedListBacktest.BarTradesOneBar | src/application/backtest_usecase.py:310-548 | With liquidation, what a bar closes was bought at the bar before, what it leaves open was bought at it, and other symbols stay as they are |
| ExitLines.FollowLine | scripts/analysis/entry_condition.py:142-165 | The loop finds the least bar at or below the line, with the line and the high of every bar up to it |
| ExitLines.HypotheticalExit | scripts/analysis/entry_condition.py:116-180 | The assumed exit, unavailable exactly without a range or without bars: the range of the daily bars or else the recorded one, the stop that many ranges below the entry, each line at the multiplier resolved for the highest price so far, and the distance of each price from it |
| ExitLines.FollowUntil | scripts/analysis/analyze_market_regime_skip_study.py:134-161 | The first exit before the first bar after the cutoff, or else the line reached by then |
| ExitLines.AtrScenario | scripts/analysis/analyze_market_regime_skip_study.py:115-180 | The scenario of a recorded skip, along its bars or from the day's extremes |
| ExitLines.FirstHitIsLeast | scripts/analysis/entry_condition.py:147-165 | The first exit is the least bar at or below its line, or there is none |
| ExitLines.ExitLoopsAgree | scripts/analysis/analyze_market_regime_skip_study.py:137-152 | Both loops find the same exit, up to the cutoff |
| ExitLines.AggregateIsSound | scripts/analysis/analyze_market_regime_skip_study.py:162-180 | What the extremes decide without a path holds of every path between them |
| ExitLines.ExtremesDecideIff | scripts/analysis/analyze_market_regime_skip_study.py:162-180 | The extremes decide exactly when the high is no gain and no path between them comes down to the line |
| ExitLines.LineNeverFallsIff | src/domain/volatility.py:50-83 | The line never falls exactly when the lock multiplier is at most the stop multiplier or the trigger is zero |
| ExitLines.ShippedLineFalls | src/config/config.py:222-239 | Under the shipped settings a line falls from 97.5 to 96 |
| ExitLines.ExitLineIsLine | src/domain/volatility.py:50-98 | With accepted settings the multiplier never raises and gives the line |
| ExitLines.MultiplierIff | src/domain/volatility.py:31-83 | The multiplier resolved is the profit-lock setting of the level once the gain is the trigger multiple of the range, and its stop setting before; it raises exactly on a negative trigger or a setting that is not positive |
| ExitLines.AcceptedIff | src/domain/volatility.py:31-83 | Settings are accepted exactly when it raises on them for no position |
| ChartLines.CalculateTrailingLines | scripts/analysis/plot_intraday_trade_diagnostics.py:229-251 | The drawn line, the distance of each price from line and stop, and the least of each |
| ChartLines.TrailingNeverFalls | scripts/analysis/plot_intraday_trade_diagnostics.py:237-245 | Once drawn, the line stays and never falls |
| ChartLines.DrawnLineIsExitLine | scripts/analysis/plot_intraday_trade_diagnostics.py:216-245 | The drawn line is the exit line on exactly the bars where profit is locked in |
| ChartLines.StepPoints | scripts/analysis/intraday_chart_payload.py:59-70 | The loop keeps the bars where the value changes and the last bar |
| ChartLines.OnlyChangesAreKept | scripts/analysis/intraday_chart_payload.py:59-70 | Only bars with a value other than the last one are kept, and the last bar |
| ChartLines.StepLineRestores | scripts/analysis/intraday_chart_payload.py:59-70 | Decoding gives back a value up to rounding if and only if the last bar of its minute agrees with it |
| ChartLines.SeriesRestoredIff | scripts/analysis/intraday_chart_payload.py:59-70 | Every value of a series comes back, rounded, if and only if bars with the same label agree after rounding |
| ChartLines.BarsOfOneMinuteAreLost | scripts/analysis/intraday_chart_payload.py:59-70 | Of two bars of one minute that differ after rounding the first is not given back |
| ChartLines.DecodeShowsLastValue | scripts/analysis/intraday_chart_payload.py:59-70 | The step line shows the last value at or before a label |
| ChartLines.PublishedTrailingLine | scripts/analysis/intraday_chart_payload.py:59-70 | With one bar a minute the published line is the drawn one, absent before it starts |
| ShadowTracker.ElapsedTradingMinutes | src/application/shadow_position_tracker.py:24-39 | The loop over the sessions gives the whole minutes of open time |
| ShadowTracker.TradingTimeIsClockDifference | src/application/shadow_position_tracker.py:28-38 | Open time is the difference of two readings of a clock that runs only in the sessions |
| ShadowTracker.ElapsedTimeLaws | src/application/shadow_position_tracker.py:24-39 | Elapsed minutes grow with the end, never exceed 320, and open time adds up within a day |
| ShadowTracker.ResolveReference | src/application/shadow_position_tracker.py:42-47 | A reference is positive and exists exactly when one of the sources is usable |
| ShadowTracker.EachCheckpointOnce | src/application/shadow_position_tracker.py:113-118 | Over any run checkpoints come out strictly increasing, each exactly when an observation before 15:20 has passed it |
| ShadowTracker.EntriesArePassed | src/application/shadow_position_tracker.py:110-140 | Every row is from before 15:20 with the elapsed minutes of its moment |
| ShadowTracker.ExtremesAreExact | src/application/shadow_position_tracker.py:104-108 | Highest and lowest are exactly those of the bought and the usable prices so far, and every usable price is counted |
| ShadowTracker.RowsShowRunningState | src/application/shadow_position_tracker.py:126-150 | Every row shows the extremes, the count and the blocked candidates right after its event, and a ratio, exactly with a complete history and a reference, that times the reference is highest less lowest |
| ShadowTracker.RowsReportTheirEvents | src/application/shadow_position_tracker.py:92-150 | Every row of a run reports the events up to its own: the highest and the lowest of the bought and the usable prices, their distance in units of the first reference resolved, absent exactly without the history or a reference, the number of usable prices, and the blocked candidates |
| ShadowTracker.ReferenceIsFirst | src/application/trading_usecase.py:343-350 | The reference is the one at the start or the first that a resolution gives: the usable range, else half a percent of the usable close |
| ShadowTracker.RangeRatioNeverFalls | src/application/shadow_position_tracker.py:126-129 | The reported range ratio never falls |
| ShadowTracker.FlagsAreReportedOnce | src/application/shadow_position_tracker.py:119-160 | A passing flag is in a row exactly when the row's own numbers give it or it was raised since the row before |
| ShadowTracker.StandingFlagsAreExact | src/application/shadow_position_tracker.py:119-160 | Unless an event raises a flag of that name, every row carries those of a missing history and a missing reference exactly as long as these are missing |
| ShadowTracker.ShadowPosition.Observe | src/application/shadow_position_tracker.py:92-161 | One observation updates the fields and emits the rows as the step function says |
| ShadowTracker.FreshPosition | src/application/shadow_position_tracker.py:68-78 | A position starts with its price as both extremes and one observation, or, without its history, with neither |
| ShadowTracker.BlockedAreCounted | src/application/shadow_position_tracker.py:80-90 | Over any run every candidate is listed with the number of its blocks since the purchase and the first and the last moment of them, or not at all without one |
| ShadowTracker.SettledAddsUp | src/application/shadow_position_tracker.py:163-171 | Over any run the settled quantity is the sum of the positive quantities of the settlements |
| RequestSlots.SlotsAreSpaced | src/api/request_handler.py:23-32 | Under every interleaving consecutive slots are at least the interval apart and only one thread is inside |
| RequestSlots.DistantSlots | src/api/request_handler.py:23-32 | Any two slots are apart by the interval for every slot between them |
| RequestSlots.HolderCanProceed | src/api/request_handler.py:25-32 | The holder of the lock can always go on to release it |
| RequestSlots.WaitIsExact | src/api/request_handler.py:26-31 | A thread that has the lock waits until the interval after the last slot has passed, and no longer |
| RequestSlots.StepKeepsSound | src/api/request_handler.py:25-32 | Every atomic step keeps the holder unique and its slot late enough |
| RetryCounters.RequestHandler.RequestWithRetry | src/api/request_handler.py:85-113 | The loop ends with the first answer that is not retried and adds exactly the counts of the request |
| RetryCounters.RequestHandler.SendWithAuthRetry | src/api/request_handler.py:116-144 | At most twice the retries plus one attempts, a second request exactly after a 401 with a new token, the counts of both requests, and the reply of the last answer: a body exactly for an answer, an exception exactly for a broken attempt |
| RetryCounters.RequestHandler.RecordMetric | src/api/request_handler.py:56-62 | One count of one path rises by one, and no other changes |
| RetryCounters.LastAttemptIsFirst | src/api/request_handler.py:92-113 | The settling attempt is the least that is no 429 or has no retry left |
| RetryCounters.AttemptsAreBounded | src/api/request_handler.py:98-101 | A request makes at most one attempt more than its retries |
| RetryCounters.RecordedBalances | src/api/request_handler.py:94-112 | Of one request: it is counted as ended exactly when it met a 429 and did not break, and has one response more than retries exactly when it ran out |
| RetryCounters.RecordedIff | src/api/request_handler.py:85-113 | A request of the board records a response for each 429, a retry for each attempt after the first, and its end by its last answer once it has met a 429; no other request records anything |
| RetryCounters.CountersBalanceAtRest | src/api/request_handler.py:94-112 | Under every interleaving, at rest, the counters of a path add up to its requests that met a 429 and to those that ran out of retries |
| RetryCounters.CountersAreExactAtRest | src/api/request_handler.py:85-113 | Under every interleaving, at rest, each counter of a path is the sum of what the answers of its requests record |
| RetryCounters.EveryHitIsCountedIff | src/api/request_handler.py:92-112 | They count every request that met a 429 if and only if none broke |
| RetryCounters.BrokenRequestIsNotCounted | src/api/request_handler.py:90-112 | A run in which one is not counted |
| RetryCounters.NoRequestExceedsRetries | src/api/request_handler.py:98-101 | No request makes more attempts than allowed, at any time |
| FilteringRounds.VerdictIff | src/application/filtering_usecase.py:222-265 | A record set aside has a verdict exactly when some round comes to a board that settles it, and then the verdict of that board |
| FilteringRounds.NothingBreaksIff | src/application/filtering_usecase.py:178-220 | No verdict breaks off if and only if every board that a round comes to can be read |
| FilteringRounds.OthersHaveNone | src/application/filtering_usecase.py:222-265 | Only records set aside get verdicts |
| FilteringRounds.AttemptIff | src/application/filtering_usecase.py:151-220 | An attempt gives the one verdict that the fields of its board allow: a ratio that times the positive average is the turnover, its own or price times volume; no average; an average that is not positive; or none that can be read. It breaks off exactly on factors that are no numbers and comes to nothing exactly without a turnover |
| Filtering.FilteringRun.Execute | src/application/filtering_usecase.py:284-448 | It raises, ends early or completes exactly as the visits decide; one record for each symbol in input order; when complete, each record says what the fields of its board or the daily data show, or those of the board that settles it, or else that the turnover is missing; and the ratio of each candidate times the positive average is the turnover shown |
| Filtering.FilteringRun.Scan | src/application/filtering_usecase.py:284-420 | Where the scan ends, the records up to there and the records set aside are those the visits give |
| Filtering.FilteringRun.VisitLive | src/application/filtering_usecase.py:341-420 | A visit today adds the record that its board gives, or raises |
| Filtering.FilteringRun.VisitPast | src/application/filtering_usecase.py:314-339 | A visit of a past date adds the record that the daily data give, or raises |
| Filtering.RecordIff | src/application/filtering_usecase.py:302-420 | The record of a visit, its status, reason and ratio, is the one that its data allow |
| Filtering.VisitEndIff | src/application/filtering_usecase.py:302-420 | When a visit raises, stops the scan or sets its symbol aside, in terms of its data |
| Filtering.ScanIff | src/application/filtering_usecase.py:284-420 | The scan ends at the first visit that is too late, stops or raises, and finishes exactly when there is none |
| Filtering.FilteringRun.RetryBoards | src/application/filtering_usecase.py:222-270 | The verdicts are those of the rounds, and however these stop every record set aside is resolved once: by its verdict or as missing |
| Filtering.FilteringRun.RunRound | src/application/filtering_usecase.py:254-265 | The verdicts, the records still open and the end of a round are those of its boards, tried in order until a result is missing or an exception strikes |
| Filtering.FilteringRun.Attempt | src/application/filtering_usecase.py:151-220 | An attempt applies the verdict of its board, or changes nothing |
| Filtering.RecordsAddUp | src/application/filtering_usecase.py:123-129 | Evaluated records are as many as the candidates and the unscored ones, skipped records as many as the skips and the open ones |
| Filtering.EvaluatedAreScoredIff | src/application/filtering_usecase.py:178-213 | Evaluated records are the scored candidates if and only if every board that a round comes to has a turnover and an average that can be read |
| Filtering.UnreadableTurnoverIsNotScored | src/application/filtering_usecase.py:178-188 | A whole run, from the scan to the decision to save, that leaves its record evaluated and unscored |
| MiddayFiltering.FetchBands | src/application/midday_filtering_usecase.py:148-162 | If a symbol of a trading band is unfetched at the deadline, no symbol that only comparison bands need was fetched; without a deadline all are |
| MiddayFiltering.CollectSymbols | src/application/midday_filtering_usecase.py:149-156 | All symbols once each, those of the trading bands first |
| MiddayFiltering.FetchAll | src/application/midday_filtering_usecase.py:158-162 | Exactly the symbols before the first late reading of the clock are evaluated |
| MiddayFiltering.EvaluateSymbol | src/application/midday_filtering_usecase.py:191-230 | Attempts are bounded by the retries, only the last can succeed, and an early end left no time for the wait |
| MiddayFiltering.EvaluateBand | src/application/midday_filtering_usecase.py:232-320 | One record per symbol in order, whose ratio times the positive average is the value or whose reason is that of the outcome; every input counted once, and a result kept exactly of a fully processed trading band whose saving does not raise |
| ReportDiff.NoDifferenceIffEqual | scripts/ops/recompute_daily_reports.py:147-164 | There is no difference exactly when the trees are equal as Python compares them |
| ReportDiff.EqualIffPlainSame | scripts/ops/recompute_daily_reports.py:164 | Values are equal as Python compares them exactly when they are the same but for the kinds of their numbers |
| ReportDiff.OnlyProfitPathsDiffer | scripts/ops/recompute_daily_reports.py:147-168 | Trees equal but for profit totals differ only at paths of profit totals |
| PeriodPatch.PlanPeriodFiles | scripts/ops/recompute_daily_reports.py:297-357 | It raises exactly when a file cannot be read as it needs; afterwards all comparisons agree, no unexpected path differs, and a file is written exactly when it is in scope, had no problem and differs |
| PeriodPatch.PlannableIff | scripts/ops/recompute_daily_reports.py:171-349 | Which files let it raise, in terms of their fields: the days must be readable, the period have texts for bounds, and a comparison be false or an object whose previous part can be read |
| PeriodPatch.AlignedComparisonsAgree | scripts/ops/recompute_daily_reports.py:322-341 | Where a report compares with a period that other reports cover, its stored total is within the tolerance of the daily total of the last of them |
| PeriodPatch.PatchPeriodReport | scripts/ops/recompute_daily_reports.py:171-219 | Nothing but profit totals changes, the daily total is the rounded sum of its rows, the comparison shows it as current, the problems are exactly those of the days, and it raises exactly when a part cannot be read |
| PeriodPatch.PatchComparison | scripts/ops/recompute_daily_reports.py:200-218 | The current total is set, the rest kept, and the previous total follows the days of its period, whatever list of them has the changed ones with their old totals: left alone when their sum changes by no more than the tolerance, else moved by the change in whole cents, so that a total that was their sum within the tolerance is their new sum within twice that |
| PeriodPatch.MovedFollowsDays | scripts/ops/recompute_daily_reports.py:204-211 | That of the previous total alone, for one such list |
| PeriodPatch.MovedPreviousRaisesIff | scripts/ops/recompute_daily_reports.py:206-218 | That is so exactly when its period lacks a bound or has one that a day cannot be compared with, or its days changed and its total is no number |
| PeriodPatch.ReplaceRows | scripts/ops/recompute_daily_reports.py:186-195 | Each row has the total given for it, if any, and every day without a row is noted |
| PeriodPatch.TotalForIff | scripts/ops/recompute_daily_reports.py:187-194 | When each day has one total, the first row of a day of the period receives it and no other row changes |
| PeriodPatch.DailyProblemsIff | scripts/ops/recompute_daily_reports.py:182-192 | It is noted exactly that the stored total is not the rounded sum of the rows within the tolerance, and each day of the period without a row |
| PeriodPatch.AlignOne | scripts/ops/recompute_daily_reports.py:322-341 | A comparison agrees afterwards with the report of its previous period within the tolerance, changed only if it did not; it raises exactly when the comparison, its period or its total cannot be read |
| PeriodPatch.NothingUnexpectedChanges | scripts/ops/recompute_daily_reports.py:343-357 | The unexpected paths of a patched report are always empty |
| PeriodPatch.InScopeIff | scripts/ops/recompute_daily_reports.py:345-347 | A report is in scope exactly when one of the dates lies in its period or the one it compares with |
| PeriodPatch.RoundingStaysWithinTolerance | scripts/ops/recompute_daily_reports.py:335 | Rounding to cents moves a total by no more than the tolerance |
| ReportRepair.EveryCrashPointIsSafe | scripts/ops/recompute_daily_reports.py:387-405 | At every crash point each report is as before or completely new with a complete backup, and no backup that was there has changed |
| ReportRepair.AlwaysRecoverable | scripts/ops/mark_report_data_quality.py:184-206 | Through any sequence of runs cut off anywhere every original stays recoverable and no backup is overwritten |
| ReportRepair.CompletedRunReplacesAll | scripts/ops/mark_report_data_quality.py:199-205 | A run that is not stopped leaves every target new |
| ReportRepair.CompletedRunLeaves | scripts/ops/recompute_daily_reports.py:387-405 | It leaves a complete backup of every original and no temporary file |
| ReportRepair.OthersStay | scripts/ops/recompute_daily_reports.py:387-405 | No run touches a file of another name |
| ReportRepair.Disk.ApplyPlan | scripts/ops/mark_report_data_quality.py:184-206 | The loops pass through exactly the states of the model run, and a run that completes returns the written names in order |
| ReportRepair.RunCompletesIff | scripts/ops/mark_report_data_quality.py:184-206 | A run completes if and only if no backup was there, every report is there and copied faithfully, and every replacement passes the check |
| ReportMarks.WrittenIsVerifiedIff | scripts/ops/mark_report_data_quality.py:209-214 | The check after writing passes if and only if the report had none of the three fields, and only a report with the hash it was examined with is written (lines 113-122) |
| ReportMarks.WritePlanIff | scripts/ops/mark_report_data_quality.py:100-131 | A report is to be written exactly when it is an object without a mark or with one that is `null`, as it was examined, and formatting keeps its text |
| ReportMarks.MarkSetsFields | scripts/ops/mark_report_data_quality.py:123-126 | A mark sets its three fields and keeps all others |
| ReportMarks.MarkDiffersInThreeFields | scripts/ops/mark_report_data_quality.py:123-126 | A report without the three fields differs from its marked version at exactly these |
| ReportMarks.NullMarkFailsTheCheck | scripts/ops/mark_report_data_quality.py:107-131 | A report whose mark is `null` is planned to be written, and the check then fails |
| ReportMarks.MarkedOnce | scripts/ops/mark_report_data_quality.py:107-112 | A report that has been marked is not marked again |
| ReportMarks.MarkingCompletesIff | scripts/ops/mark_report_data_quality.py:184-214 | With faithful copies and no earlier backup a run over the planned reports completes if and only if none of them had one of the three fields |
| RankCorrelation.AverageRanks | scripts/analysis/analyze_price_band_comparison.py:504-519 | The cursor loop gives every value the average of the positions it shares with its equals |
| RankCorrelation.RanksPreserveOrder | scripts/analysis/analyze_price_band_comparison.py:504-519 | Ranks are equal exactly for equal values and ordered exactly as the values are |
| RankCorrelation.RanksAddUp | scripts/analysis/analyze_price_band_comparison.py:504-519 | The ranks of n values add up to n(n+1)/2 |
| RankCorrelation.Spearman | scripts/analysis/analyze_price_band_comparison.py:522-537 | The rank correlation exists exactly for two lists of equal length, at least two, neither constant, lies within [-1, 1] and is the correlation of their ranks |
| RankCorrelation.DotIsBounded | scripts/analysis/analyze_price_band_comparison.py:529-536 | The square of the numerator is at most the product of both sums of squares |
| RankCorrelation.CorrelationAndBeta | scripts/analysis/analyze_regime_skip_by_sensitivity.py:52-76 | An estimate exists exactly with enough days and neither series constant on them; the correlation lies within [-1, 1], and it and the slope are those of the values on the days |
| RankCorrelation.EstimateFrom | scripts/analysis/analyze_regime_skip_by_sensitivity.py:68-76 | The slope times the sum of squares is the sum of products, and so is the correlation times the root of the product of both sums of squares |
| RankCorrelation.LaterDaysDoNotMatter | scripts/analysis/analyze_regime_skip_by_sensitivity.py:61-66 | Series that agree before the date give the same days and values |
| RankCorrelation.RecentDaysIff | scripts/analysis/analyze_regime_skip_by_sensitivity.py:61-66 | The days are exactly the last common ones before the date, as many as the window |
| SecuritiesMaster.BuildUpdatedMaster | scripts/tasks/update_listed_securities_master.py:120-163 | The loop carries every row over and appends the new symbols in order |
| SecuritiesMaster.MasterShowsLastListing | scripts/tasks/update_listed_securities_master.py:126-163 | After any updates of an unambiguous master the active rows are exactly the last listing, one for each symbol |
| SecuritiesMaster.UpdatedShowsListing | scripts/tasks/update_listed_securities_master.py:129-161 | The active rows are exactly the listing with its divisions |
| SecuritiesMaster.UpdatedIsUnambiguousIff | scripts/tasks/update_listed_securities_master.py:129-161 | No symbol has two active rows afterwards exactly when no listed one had before |
| SecuritiesMaster.HistoryIsKept | scripts/tasks/update_listed_securities_master.py:129-151 | Closed rows, symbols and entry dates never change, and a row is closed exactly when its symbol is no longer listed |
| SecuritiesMaster.ClosedRowsStay | scripts/tasks/update_listed_securities_master.py:129-135 | That holds through any sequence of updates |
| SecuritiesMaster.ReapplyingChangesNothing | scripts/tasks/update_listed_securities_master.py:120-163 | Applying the same listing again changes nothing |

## Left out

- Floating-point rounding, NaN and infinities, and the fields rounded for display: amounts are real numbers, and the ledger is stated on the unrounded values.
- The internals of the volatility assessment and the market regime: they are parameters, and what they answer may be anything.
- Exceptions of the backtest on prices or settings that are not positive, on a price band around zero, by whose middle the program would divide, and on invalid arguments: settings are taken to have passed the startup check (docs/tasks/task-startup-config-validation.md:54), which `ExitLines.Accepted` states.
- A symbol has one quote at a second of a day. Appending and the nightly merge keep the times of its bars distinct; the midday run can store bars of equal time (src/application/midday_filtering_usecase.py:412-422), of which the model takes the last where the program would visit each.
- BacktestWithinDay.NoLookAheadWithinDayIff: the half that needs a failing input is shown for strength periods from 2 to 29 and rounding to one decimal, which the program uses; without delay, or with limit orders, nothing is assumed of the rules. The same holds of `FixedListBacktest.OneBarIffDistinct`.
- Observation records, statistics and summaries of the backtest: they do not feed back into the account. `holding_days`, the diagnostics of a trade and the two-decimal copies are not modelled.
- BacktestEngine.Engine.TradeDay: the dictionary of quotes by time is not built; the moments of a day are visited second by second, and the quotes of each are looked up.
- BacktestStops.EveryDealIsJustified: it takes exit settings that the startup check accepts and ranges that are not negative, which the volatility assessment gives. With a purchase, why its quantity was asked for is stated by `BacktestOrders` for every account and not repeated for the run.
- FixedListStops.EveryTradeIsJustified: symbols are distinct, without which a trade can leave before it enters.
- PeriodPatch.MovedFollowsDays: each changed day has one total, as the keys of a dictionary do.
- BacktestLimits.EveryPurchaseIsAllowed: the limits hold at the signal's price; the price of execution may be higher by the slippage or a later bar.
- FixedListBacktest.SimulateList: the book of the account is one value that the loops replace; the dictionaries inside it are not updated in place, and equity and summaries at the end are left out.
- Reading order events, minute bars and reports from files, time zones and the parsing of timestamps: events come with an instant or without one.
- ShadowTracker.ShadowPosition.Observe: rows leave out the fields copied from the position (key, symbol, quantity, reference kind), and flags are a set, which the program sorts. Elapsed time is in whole microseconds.
- ShadowTracker.RangeRatioNeverFalls: a reference is positive or absent, which `ResolveReference` guarantees for every caller; a reference of zero would raise.
- RequestSlots.SlotsAreSpaced: what is spaced is the grant of a slot; the thread may send its request any time later.
- RetryCounters.RequestHandler.SendWithAuthRetry: obtaining a token is one answer, yes or no; the reports to the token provider and the sum of the counters over several paths are left out.
- Filtering.FilteringRun.Execute: reason counts, ranks, selection, metrics and retry statistics are left out; a skip carries the reason of the diagnostics, of which the journal's is a renaming. The clock appears as the answer of each look at the deadline.
- MiddayFiltering.EvaluateBand: ranking, the comparison with the morning's boards and the saving of bars are left out.
- PeriodPatch.PlanPeriodFiles: a report whose period bounds are no texts counts as raising, where the program would go on as long as no day has to be compared. Notes for the reader and the old-format files are left out.
- ReportDiff.NoDifferenceIffEqual: the differences are a set of paths; their order is not modelled.
- ReportRepair.EveryCrashPointIsSafe: the hash that compares a copy with its source is taken to be free of collisions; nobody else writes to the directory; the texts to be written are inputs, and the answer of the check after writing is one too, which `ReportMarks` computes for marks.
- ReportMarks.WrittenIsVerifiedIff: a text written is taken to read back as the value it was formatted from; the notes and the order count of a plan are left out, and so is the summary of period reports.
- RankCorrelation.CorrelationAndBeta: a missing date bound is a date after the last one, and a negative window is left out.
- RankCorrelation.Spearman: the square root is exact.
- SecuritiesMaster.BuildUpdatedMaster: an empty date text for today, which would leave rows open, is not modelled; dates are numbers.
- Network, databases, Parquet files, Slack messages, charts, Markdown reports, log parsing and language-model calls: effects without an invariant of their own.
- The selection by surge ratio, terciles, turnover averages and the ingestion of financial statements: thresholds and sorting that would add only easy members.
