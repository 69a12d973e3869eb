# Trader backend core, modelled in Dafny

This project models the decision-and-execution core of a paper-trading
backend: two RSI indicators, the strategy decision over an opaque condition
evaluator, the cross-exchange arbitrage scanner, the preview, test and backtest
simulations, the backtest history pages, the keyword sentiment score, the
pause/resume switch, and the live-trading state machine with its arbitrage
attempt. Money, prices and times are `real`. Counters are `nat`. All I/O is
stripped away and arrives as parameters:

- the strategy file, as `Option<seq<StrategyModule>>`, where `None` is a file that is missing, does not parse, or has no `modules` list;
- the market snapshot;
- the settled venue lookups, in the order they settled;
- the fetched posts;
- the clock, as `now`.

The JavaScript `new Function` evaluation becomes an abstract
`Evaluator = (Expr, IndicatorMap) -> Option<bool>`, where `None` is a thrown error.

Modules follow the source files:

- `Common` (shared vocabulary: `Option`, `Action`, the buy-over-sell rule, ASCII case mapping, `Math.min`/`Math.abs`);
- `Indicators` (backend/services/indicators.js);
- `StrategyExecutor` (backend/services/strategyExecutor.js);
- `ArbitrageScanner` (backend/services/arbitrageScanner.js);
- the following from backend/server.js:
  - `Simulation` (preview, test-sim, backtest);
  - `History` (`GET /api/history`);
  - `LiveTrading` (`arbConfig`, `liveState`, `maybeExecuteArbitrage`, `runLiveCycle`, live start and stop);
- `Reddit` (backend/adapters/reddit.js);
- `ControlState` (backend/services/controlState.js).

Code that changes state step by step is imperative Dafny, each part proved
against a specification function:

- the RSI accumulator loops;
- the executor's loop over modules;
- the scanner's settlement callbacks, its nested pairing loop and an in-place insertion sort on an `array`;
- the backtest loop;
- the sentiment loop;
- the classes `ExecutionControl`, `ArbConfig` and `LiveState`.

The class methods' `ensures` tie the new state to those functions. The
properties are lemmas about the functions.

Where the code departs from a plain reading of the system's description, the
model follows the code:

- A live tick evaluates the buy and sell conditions before it checks the price.
- The price check comes before the daily-loss guardrail, and the guardrail reads `pnlToday` as it stood before the tick.
- `nextAllowedTs` is set only by a start, to the start time. The cooldown therefore never blocks a tick once the clock has reached that time (`CooldownNeverBlocks`).
- The price guard `!price` rejects only 0 and a missing price. The model rejects exactly those, so a negative price gets through as in the code.
- On a sell, a `null` entry price counts as 0 in `position * entryPrice`.
- The server's endpoints do not reject a strategy without an `ExecutionLogic` module, unlike `executeStrategy`. They compile an absent condition to `undefined` and hold (`NoLogicMeansHold`).
- The two RSI copies differ on a zero move, which is a gain in one and a loss in the other. Both add 0, and they agree (`RsiMatchesIndicators`).

## Model

Several specification functions have no contract of their own. The lemma and
method rows below state what they mean:

- `StrategyExecutor.IndicatorsFor` and `Contribute` (strategyExecutor.js:29-46): `IndicatorKeys`, `RsiEntryFromLastRsiModule`, `SentimentEntry`, and `ExecuteStrategy`, whose loop is proved equal to them.
- `ArbitrageScanner.PriceMap`, `ErrorMap` and `PricedVenues` (arbitrageScanner.js:84-98): `Collect`, `SettlementsPartition` and `PricedVenuesAreDistinct`.
- `ArbitrageScanner.Cell` and `Opportunities` (arbitrageScanner.js:101-123): `PairUp`, `OpportunityMembers`, `EveryTradablePairListed`, `ListedOpportunity` and `OpportunityCount`.
- `Simulation.Step` and `ReplayUpTo` (server.js:143-179): `StepKeepsInvariant`, `StepAppendsRow`, `ReplayKeepsInvariant`, `ReplayRows`, `BalanceCompounds` and `ReplayLoop`.
- `Reddit.Includes` and `Text` (reddit.js:11, 18-19): `IncludesIffOccurs` and `FetchRedditSentiment`.
- `History.WantsTrades` (server.js:226): `TrueInAnyCase` and `RowsKeptOnlyForTrue`.
- `LiveTrading.ArbitrageFires` (server.js:323-333): `ArbitrageStep`.
- `LiveTrading.StartSpec`, `StopSpec` and `UpdateSpec` (server.js:462-488, 490-497, 263-271): `StartRefusedWhileRunning`, `StartResets`, `StopIsIdempotent`, `UpdateIsIdempotent`, and the class methods proved equal to them.

Small helpers whose contracts only spell out their definition have no row either: the case mappings, `Closes`, `ClampIndex`, `Slice`, `Strip`, `Present`, `ServerIndicators`, `BuyLogic`, `SellLogic`, `ProfitRate`, `OrElse` and `Coalesce`.

| member | source | states |
|---|---|---|
| `Common.Decide` | backend/services/strategyExecutor.js:58 | Buy exactly when the buy condition holds, Sell exactly when sell holds without buy, Hold exactly when neither holds; buy and sell are never both reported |
| `Common.Min` | backend/server.js:331 | `Math.min`: the result is at most both arguments and is one of them |
| `Common.Abs` | backend/server.js:383 | `Math.abs`: non-negative and equal to x or −x |
| `Common.UpperIsIdempotent` | backend/services/arbitrageScanner.js:14 | an upper-cased string has no lower-case letter, and upper-casing twice is upper-casing once |
| `Common.LowerIsIdempotent` | backend/services/arbitrageScanner.js:54 | a lower-cased string has no upper-case letter, and lower-casing twice is lower-casing once |
| `Common.LowerOfConcat` | backend/services/arbitrageScanner.js:54 | lower-casing a concatenation lower-cases each part |
| `Indicators.RsiFromSums` | backend/services/indicators.js:13-20 | the closed form lies in [0, 100]; it is 100 with no losses; otherwise it equals 100·gains/(gains+losses), below 100, and is 0 exactly when there are no gains |
| `Indicators.Rsi` | backend/services/indicators.js:1-21 | `null` exactly when fewer than period+1 candles are given; otherwise a value in [0, 100] |
| `Indicators.CalculateRsi` | backend/services/indicators.js:4-20 | the loop over the moves 1..period returns `Rsi(candles, period)` |
| `Indicators.GainsLossesNonNegative` | backend/services/indicators.js:7-11 | both accumulators stay non-negative |
| `Indicators.Telescoping` | backend/services/indicators.js:7-11 | gains − losses = close[k] − close[0]: the moves telescope |
| `Indicators.SumsReadOnlyWindow` | backend/services/indicators.js:7-8 | the accumulators after k moves depend only on the closes 0..k |
| `Indicators.RsiReadsOnlyWindow` | backend/services/indicators.js:7-8 | two candle lists that agree on the closes 0..period give the same result |
| `Indicators.RsiIgnoresLaterCandles` | backend/services/indicators.js:7-8 | appending candles after a full window never changes the result |
| `Indicators.NoDownMoveNoLoss` | backend/services/indicators.js:9-10 | without a down-move the losses are 0 |
| `Indicators.RsiOfNonDecreasingCloses` | backend/services/indicators.js:16 | constant or rising closes give exactly 100 |
| `Indicators.NoUpMoveNoGain` | backend/services/indicators.js:9-10 | without an up-move the gains are 0 |
| `Indicators.LossesCoverEachMove` | backend/services/indicators.js:10 | the losses are at least the loss of any single move counted |
| `Indicators.RsiOfFallingCloses` | backend/services/indicators.js:13-20 | no up-move and at least one down-move give exactly 0 |
| `Indicators.RsiBelowHundredWithLosses` | backend/services/indicators.js:16-20 | with losses the value is in [0, 100), and it is 0 exactly when there are no gains |
| `Indicators.RsiOfStairs` | backend/services/indicators.js:1-21 | fifteen closes rising by one give 100 at period 14 |
| `StrategyExecutor.EvaluateCondition` | backend/services/strategyExecutor.js:4-15 | true exactly when the evaluator yields true; a thrown error gives false |
| `StrategyExecutor.Condition` | backend/server.js:36-44 | true exactly when a condition is present and evaluates to true; an absent condition or an error is false |
| `StrategyExecutor.GainsLossesNonNegative` | backend/services/strategyExecutor.js:69-73 | both accumulators of the closes copy stay non-negative |
| `StrategyExecutor.Moves` | backend/services/strategyExecutor.js:69 | the loop reads no move when the period is below 1, and otherwise reads as many moves as the whole part of the period |
| `StrategyExecutor.Rsi` | backend/services/strategyExecutor.js:63-81 | `null` exactly when there are fewer than period+1 closes, for any non-zero period; otherwise a value in [0, 100], and exactly 100 when the period is below 1, since no move is read |
| `StrategyExecutor.CalculateRsi` | backend/services/strategyExecutor.js:64-80 | the `i <= period` loop, run for a real period, returns `Rsi(closes, period)` |
| `StrategyExecutor.FractionalPeriodReadsWholePart` | backend/services/strategyExecutor.js:64-76 | with enough closes, a fractional period gives the RSI of its whole part; the fraction only moves the `null` threshold |
| `StrategyExecutor.NegativePeriodGivesHundred` | backend/services/strategyExecutor.js:64-78 | a period of −1 or below is never `null` and gives 100 for any closes, including none |
| `StrategyExecutor.SumsMatchIndicators` | backend/services/strategyExecutor.js:69-73 | the closes copy's accumulators equal the candle copy's, although a zero move goes to a different branch |
| `StrategyExecutor.RsiMatchesIndicators` | backend/services/strategyExecutor.js:63-81 | on a whole positive period the two RSI copies compute the same value on the same closes |
| `StrategyExecutor.PeriodOf` | backend/services/strategyExecutor.js:36 | `params.period \|\| 14` is never 0: any non-zero period is kept, negative or fractional included, and an absent or zero one becomes 14 |
| `StrategyExecutor.FindLogic` | backend/services/strategyExecutor.js:48 | absent exactly when no module is an ExecutionLogic module |
| `StrategyExecutor.ExecuteStrategy` | backend/services/strategyExecutor.js:17-60 | a load error, or a missing-logic error when no ExecutionLogic module exists; otherwise the indicators the module loop builds and the buy-over-sell decision on the two conditions |
| `StrategyExecutor.IndicatorKeys` | backend/services/strategyExecutor.js:31-46 | the only keys are RSI and Sentiment, each present exactly when a module of its type is |
| `StrategyExecutor.RsiEntryFromLastRsiModule` | backend/services/strategyExecutor.js:34-39 | the RSI entry is the last RSI module's RSI over the candle closes, with that module's period |
| `StrategyExecutor.SentimentEntry` | backend/services/strategyExecutor.js:41-43 | the Sentiment entry is the snapshot's Reddit score |
| `ArbitrageScanner.TakerFee` | backend/services/arbitrageScanner.js:5-11 | every venue's taker fee is positive and below 1% |
| `ArbitrageScanner.ToPair` | backend/services/arbitrageScanner.js:13-15 | both parts keep their length and contain no lower-case letter |
| `ArbitrageScanner.ToPairIsIdempotent` | backend/services/arbitrageScanner.js:13-15 | normalising a normalised pair changes nothing |
| `ArbitrageScanner.VenuePair` | backend/services/arbitrageScanner.js:17-64 | for an upper-cased pair, every venue but Bitstamp asks for an upper-case market name; Bitstamp always asks in lower case |
| `ArbitrageScanner.KrakenRenamesBitcoin` | backend/services/arbitrageScanner.js:29-31 | Kraken's market is `XBT`+quote for BTC and otherwise Binance's concatenation |
| `ArbitrageScanner.BitstampLowerCasesBinance` | backend/services/arbitrageScanner.js:54 | Bitstamp's market is Binance's lower-cased, which is the two parts lower-cased |
| `ArbitrageScanner.HyphenatedVenuesAgree` | backend/services/arbitrageScanner.js:43 | Coinbase and KuCoin both write symbol, dash, quote |
| `ArbitrageScanner.Collect` | backend/services/arbitrageScanner.js:84-96 | the settlement callbacks fill `Object.keys(prices)`, `prices`, `feeMap` and `errors` as the fold over the settlements |
| `ArbitrageScanner.FeeMap` | backend/services/arbitrageScanner.js:76-92 | each priced venue's fee is that venue's taker fee, so every fee in `feeMap` is positive |
| `ArbitrageScanner.SettlementsPartition` | backend/services/arbitrageScanner.js:88-96 | each venue lands in exactly one of `prices` (with its own price and taker fee in `feeMap`) or `errors` (with its message); no other venue appears |
| `ArbitrageScanner.PricedVenuesAreDistinct` | backend/services/arbitrageScanner.js:98 | the venues listed have no duplicate and each comes from a settlement |
| `ArbitrageScanner.MakeOpportunity` | backend/services/arbitrageScanner.js:110-120 | grossPct = (sell−buy)/buy·100, estFeesPct = (buy fee + sell fee)·100, netPct = grossPct − estFeesPct |
| `ArbitrageScanner.PairUp` | backend/services/arbitrageScanner.js:101-123 | the nested loop pushes exactly the cells (i, j) in row-major order |
| `ArbitrageScanner.RowsOfMembers` | backend/services/arbitrageScanner.js:101-102 | an element was pushed by the nested loop exactly when some cell pushed it |
| `ArbitrageScanner.OpportunityMembers` | backend/services/arbitrageScanner.js:101-108 | an opportunity is listed exactly when some cell (i, j) pushed it |
| `ArbitrageScanner.EveryTradablePairListed` | backend/services/arbitrageScanner.js:101-108 | every ordered pair of distinct venues with non-zero prices is listed |
| `ArbitrageScanner.ListedOpportunity` | backend/services/arbitrageScanner.js:103-108 | each listed opportunity pairs two different listed venues with non-zero prices and carries their prices and fees |
| `ArbitrageScanner.FeesCostSomething` | backend/services/arbitrageScanner.js:110-112 | with positive fees net < gross for every opportunity, and A→B and B→A carry equal fees |
| `ArbitrageScanner.OpportunityCount` | backend/services/arbitrageScanner.js:101-108 | with V venues all priced there are V·(V−1) opportunities |
| `ArbitrageScanner.InsertDown` | backend/services/arbitrageScanner.js:125 | one insertion pass extends the ordered prefix by one, leaves the elements after it in place, and permutes the array |
| `ArbitrageScanner.SortByNetDesc` | backend/services/arbitrageScanner.js:125 | the array ends ordered by non-increasing netPct and is a permutation of what it held |
| `ArbitrageScanner.ScanArbitrage` | backend/services/arbitrageScanner.js:73-136 | upper-cased symbol and quote; prices, positive fees and errors from the settlements; the ranked list is a permutation of the opportunities, ordered by netPct; `best` is its head or absent when empty; `top` is its prefix of length min(10, n) |
| `ArbitrageScanner.BestIsMaximal` | backend/services/arbitrageScanner.js:132 | `best` beats or ties every opportunity of the scan |
| `ArbitrageScanner.BestAbsentIffFewerThanTwoVenues` | backend/services/arbitrageScanner.js:132 | with every listed venue priced, `best` is absent exactly when fewer than two venues answered |
| `Simulation.ServerDecision` | backend/server.js:63-68 | buy exactly when the buy condition evaluates to true; sell exactly when buy does not and the sell condition evaluates to true; errors and absent conditions count as false |
| `Simulation.NoLogicMeansHold` | backend/server.js:60-68 | without an ExecutionLogic module the server holds |
| `Simulation.ServerDecisionMatchesExecutor` | backend/server.js:63-68 | the server's action equals `executeStrategy`'s decision on the same indicators |
| `Simulation.Preview` | backend/server.js:54-84 | fails exactly when the strategy cannot be loaded; otherwise reports the context, the server's action, the sentiment as confidence and a profit that is positive exactly for a buy and negative exactly for a sell |
| `Simulation.TestSim` | backend/server.js:86-122 | fails exactly when the strategy cannot be loaded; otherwise stakes 50 and ends at the stake plus the profit |
| `Simulation.TestSimScalesPreview` | backend/server.js:99-104 | the test simulation takes the preview's action, and its profit is 50 times the preview's rate, ending at 50.75, 49.6 or 50 |
| `Simulation.WindowRsi` | backend/server.js:144-147 | a full window of 15 candles always has an RSI, in [0, 100] |
| `Simulation.CountProfitable` | backend/server.js:181 | at most one per row |
| `Simulation.StepKeepsInvariant` | backend/server.js:157-178 | one step multiplies the balance by its factor, appends the row with its profit and new balance, and keeps the replay invariant |
| `Simulation.StepAppendsRow` | backend/server.js:171-178 | a step keeps the earlier rows and appends exactly one, carrying the candle's close time, the RSI, the sentiment and the action |
| `Simulation.ReplayKeepsInvariant` | backend/server.js:143-179 | at every index the balance is positive and equals 50 + netProfit, netProfit is the sum of the row profits, and profitable rows = buys ≤ executed trades ≤ rows |
| `Simulation.ReplayRows` | backend/server.js:143-178 | one row per index 14..k−1, each recording that candle's close time, its window's RSI, the sentiment and the action taken |
| `Simulation.BalanceCompounds` | backend/server.js:157-169 | each replayed index multiplies the balance by 1.015, 0.992 or 1, keeps the earlier rows, and records the new balance in its row |
| `Simulation.Accuracy` | backend/server.js:181 | in [0, 100]; 0 with no executed trades; 100 when every executed trade was profitable |
| `Simulation.EngagementRate` | backend/server.js:182 | undefined (0/0) exactly when there are no rows; otherwise in [0, 100] |
| `Simulation.Backtest` | backend/server.js:128-204 | fails exactly when the strategy cannot be loaded; otherwise candlesAnalyzed = max(0, n−14) rows, tradesExecuted ≤ candlesAnalyzed, a positive ending balance equal to 50 + netProfit, accuracy in [0, 100] and 0 without trades |
| `Simulation.ReplayStep` | backend/server.js:144-178 | the loop body takes the loop's variables one step |
| `Simulation.ReplayLoop` | backend/server.js:143-179 | the loop leaves the variables as the replay of every index from 14 on |
| `Simulation.RunBacktest` | backend/server.js:128-204 | the endpoint's loop and summary give the backtest specification |
| `History.Page` | backend/server.js:215-228 | count is the archive size; limit and offset default to 20 and 0; the results are the documents from the clamped offset on, in archive order, as many as lie between the clamped start and end and never more than a non-negative limit; each keeps its summary, and keeps its rows exactly when rows were asked for |
| `History.WindowOfNonNegativeQuery` | backend/server.js:225 | for a non-negative offset and limit the page is documents offset..offset+limit−1 that exist |
| `History.NegativeWindowCountsFromEnd` | backend/server.js:225 | a window wholly before the end counts back from the end |
| `History.NegativeOffsetShortLimitIsEmpty` | backend/server.js:225 | a negative offset with a non-negative end index and a limit below the archive size gives an empty page |
| `History.PagesTile` | backend/server.js:225 | two consecutive pages are the page of their combined limit |
| `History.DefaultPageIsNewestTwenty` | backend/server.js:217-227 | without a query the page is the first twenty documents, stripped of their rows |
| `History.TrueInAnyCase` | backend/server.js:226 | rows are wanted exactly for the four letters t, r, u, e in any case |
| `History.RowsKeptOnlyForTrue` | backend/server.js:226-227 | otherwise no result carries rows |
| `Reddit.IncludesIffOccurs` | backend/adapters/reddit.js:18-19 | `includes` holds exactly when the word occurs at some position |
| `Reddit.PostScore` | backend/adapters/reddit.js:17-19 | one post scores −1, 0 or +1: +1 exactly when bullish and not bearish, −1 exactly when bearish and not bullish |
| `Reddit.Score` | backend/adapters/reddit.js:16-21 | the score of n posts lies in [−n, n] |
| `Reddit.Sentiment` | backend/adapters/reddit.js:23 | the sentiment lies in [−1, 1] and is 0 without posts |
| `Reddit.FetchRedditSentiment` | backend/adapters/reddit.js:3-29 | returns the given subreddit, or `cryptocurrency` when none is given; a failed fetch gives 0; otherwise the loop gives the sentiment of the title + " " + selftext texts |
| `Reddit.MixedPostIsNeutral` | backend/adapters/reddit.js:18-19 | a post with both a bullish and a bearish keyword contributes 0 |
| `Reddit.LowerForgetsCase` | backend/adapters/reddit.js:17 | lower-casing an upper-cased text is lower-casing it |
| `Reddit.ScoreIgnoresCase` | backend/adapters/reddit.js:17-19 | matching ignores case: upper-casing a post does not change its score |
| `Reddit.ScoreOfConcat` | backend/adapters/reddit.js:16-21 | the score of two batches is the sum of their scores |
| `ControlState.ExecutionControl.constructor` | backend/services/controlState.js:1 | execution starts active and should run |
| `ControlState.ExecutionControl.PauseExecution` | backend/services/controlState.js:3-6 | from any state: paused and should not run |
| `ControlState.ExecutionControl.ResumeExecution` | backend/services/controlState.js:8-11 | from any state: active and should run |
| `ControlState.ExecutionControl.GetExecutionState` | backend/services/controlState.js:13-15 | 'paused' or 'active', 'paused' exactly when execution should not run |
| `ControlState.ExecutionControl.ShouldExecute` | backend/services/controlState.js:17-19 | run exactly when not paused |
| `ControlState.PauseResumeScenario` | backend/services/controlState.js:1-19 | pausing twice and resuming twice act as once, ending active |
| `LiveTrading.ArbitrageStep` | backend/server.js:322-361 | trades exactly when arbitrage is enabled, a best opportunity exists, its netPct reaches the minimum and min(notional, balance) > 0; otherwise changes nothing |
| `LiveTrading.ArbConfig.constructor` | backend/server.js:239-245 | the initial configuration |
| `LiveTrading.ArbConfig.Update` | backend/server.js:263-271 | the fields become the partial update of the old ones, and the endpoint returns them |
| `LiveTrading.LiveState.constructor` | backend/server.js:277-299 | the initial live state |
| `LiveTrading.LiveState.AppendLiveTrade` | backend/server.js:308-320 | the trade is appended to the log and nothing else changes |
| `LiveTrading.LiveState.MaybeExecuteArbitrage` | backend/server.js:322-361 | the new state and the returned trade are the arbitrage step's |
| `LiveTrading.LiveState.OpenPosition` | backend/server.js:395-410 | opens position size / price at the price, pays the size, counts the trade and returns the buy record |
| `LiveTrading.LiveState.ClosePosition` | backend/server.js:411-434 | is paid position · price, books the difference to the entry as today's profit, counts the trade, goes flat and returns the sell record |
| `LiveTrading.LiveState.ApplyStrategy` | backend/server.js:390-434 | the new state, action and trade are the strategy step's |
| `LiveTrading.LiveState.RunLiveCycle` | backend/server.js:363-458 | the new state is one tick of the old |
| `LiveTrading.LiveState.FinishCycle` | backend/server.js:444-449 | records the run time and action, counts the cycle, clears the error and appends the strategy trade |
| `LiveTrading.LiveState.Start` | backend/server.js:462-488 | the new state and the result are the start specification's |
| `LiveTrading.LiveState.Stop` | backend/server.js:490-497 | the new state is the stop specification's |
| `LiveTrading.SkippedTickChangesNothing` | backend/server.js:365-366 | a tick is a no-op when not running or inside the cooldown |
| `LiveTrading.MissingPriceIsAnError` | backend/server.js:379-380 | a missing or zero price records the error and the time, and changes neither the run, the money, the position, the counters nor the log; the guardrail is not reached |
| `LiveTrading.DailyLossHalts` | backend/server.js:383-388 | at pnlToday ≤ −\|maxDailyLoss\| the tick stops the run with lastAction halted, trades nothing, attempts no arbitrage and counts no cycle |
| `LiveTrading.StrategyActionChoice` | backend/server.js:393-434 | a buy happens exactly when the buy condition holds, the account is flat and the position size is positive; a sell exactly when no buy happens, sell holds and a position is open; hold changes nothing; tradesToday rises by one per trade |
| `LiveTrading.BuySpendsPositionSize` | backend/server.js:393-410 | a buy spends exactly min(balance, maxPosition), position · entry price equals it, and the balance stays non-negative |
| `LiveTrading.SellClosesPosition` | backend/server.js:411-434 | a sell adds position · price to the balance, position · (price − entry) to pnlToday, and leaves the account flat |
| `LiveTrading.StrategyStep` | backend/server.js:393-434 | the buy/sell branches leave the log, the run and the cooldown fields alone, and keep "flat exactly when no entry price is recorded" |
| `LiveTrading.CompletedCycle` | backend/server.js:390-449 | a cycle past both guards counts one cycle, records its time, clears the error, keeps the run and the cooldown, and keeps the position consistent |
| `LiveTrading.Tick` | backend/server.js:363-458 | a tick never starts a run, never changes nextAllowedTs or cooldownMs, and keeps the position consistent |
| `LiveTrading.ArbitrageEffect` | backend/server.js:328-358 | a firing arbitrage moves balance and pnlToday by the same pnl, leaves the position and counters alone, logs its trade and records it as the last; with an unrounded opportunity the pnl is notional · netPct / 100 |
| `LiveTrading.StrategyStepBookkeeping` | backend/server.js:395-434 | the strategy step raises tradesToday by the strategy trades it returns |
| `LiveTrading.ArbitrageStepBookkeeping` | backend/server.js:338-357 | the arbitrage step appends its own trade and no strategy trade, and leaves tradesToday alone |
| `LiveTrading.CompletedCycleAppends` | backend/server.js:436-449 | a completed cycle appends at most the arbitrage trade and then the strategy trade, and counts the strategy trade |
| `LiveTrading.TickAppendsToLog` | backend/server.js:363-458 | a tick only appends to the log, at most two entries with the arbitrage trade first, and tradesToday grows by the strategy trades appended |
| `LiveTrading.StartRefusedWhileRunning` | backend/server.js:464 | a start while running is refused and changes nothing |
| `LiveTrading.StartResets` | backend/server.js:466-484 | otherwise the run starts with balance = startingCash, flat, fresh counters and no error, with `\|\|` fields treating 0 as absent and `??` fields not, and nextAllowedTs = now |
| `LiveTrading.StopIsIdempotent` | backend/server.js:490-497 | stop ends the run with lastAction stopped, keeps the money, position and log, and stopping twice is stopping once |
| `LiveTrading.HaltIsSticky` | backend/server.js:365 | once stopped or halted, no tick changes anything |
| `LiveTrading.RunTicks` | backend/server.js:363-458 | over any run of ticks the log only grows, by at most two entries a tick; the position stays consistent; a run is never started; and the cooldown fields stay where the last start put them |
| `LiveTrading.CooldownNeverBlocks` | backend/server.js:479-480 | after a start at time t, no tick at a time ≥ t is held back by the cooldown |
| `LiveTrading.RoundTripScenario` | backend/server.js:393-434 | from the defaults, buying at 100 and selling at 110 ends flat at 55 with 5 booked, two cycles and two logged trades |
| `LiveTrading.UpdateIsIdempotent` | backend/server.js:263-271 | an empty update changes nothing, the same update twice is the update once, and a given non-empty symbol or quote is stored upper-cased |

## Left out

- HTTP routes, response codes and JSON bodies; reading and writing files (strategy file, archives, status and trade files); the file listing sorted by modification time. The backtest archive arrives as a sequence in the handler's order, and the live trade log is the append-only `log` field.
- Timers (`setInterval`/`clearInterval`) and concurrency. Ticks are explicit calls (`RunTicks`), and the scanner's concurrent lookups arrive as the sequence of settlements in settlement order.
- Network calls (the venue price lookups, the Reddit request, the candle and snapshot fetches). Their results are inputs. The venue market strings serve only to build lookup URLs and are modelled by `VenuePair` without the URLs.
- The snapshot glue (backend/services/getUnifiedMarketSnapshot.js, backend/services/marketFeed.js) is not part of this model. Its output is a tick input.
- The model-backed sentiment wrappers (backend/services/redditSentiment.js, backend/services/ollama.js, backend/services/geminiSentiment.js), backend/services/modelSelector.js, backend/services/tradeLogger.js, the frontend and the console scripts are not part of this model. The backtest receives the model's sentiment as `Option<real>`.
- JavaScript `new Function` evaluation: kept abstract as the `Evaluator` parameter.
- `toFixed` and `Math.round` rounding, IEEE-754 arithmetic and NaN. All properties are about unrounded reals. The backtest's engagement rate with no rows, 0/0 in the source, is `None`.
- `Number(...)` coercion of query and body values: limits, offsets, notionals and settings arrive as numbers. A truthy non-boolean `enabled` arrives as its boolean.
- Wall-clock time: `isoStamp` and `Date.now` are the parameter `now`.
- Case mapping beyond ASCII letters.
- The `limit` parameter of `fetchRedditSentiment`, which only shapes the request URL.
- A failed strategy-file read or snapshot fetch inside `runLiveCycle`. It falls into the same handler as the price error, with a different message. The model records only the price error.
- A scan that throws inside `maybeExecuteArbitrage`. `scanArbitrage` catches each failed lookup itself, and the configuration endpoint stores only upper-cased strings, so the tick's catch around it is never reached.
- The configuration stays fixed during one `RunTicks` sequence. Updates between runs are `ArbConfig.Update`.
- Indicators.Rsi: requires period > 0. Every caller of this copy passes 14. With period 0 the source computes 0/0 (NaN), which is outside real arithmetic.
- StrategyExecutor.Rsi: requires a non-zero period. `params.period || 14` never passes 0, and 0 would give NaN. Negative and fractional periods are modelled. A `period` that is not a number, such as a string in the file, is not.
- StrategyExecutor.ExecuteStrategy: a strategy file that parses but lacks `modules`, or whose RSI or ExecutionLogic module lacks `params`, makes `executeStrategy` throw to its caller (strategyExecutor.js:31, 36, 51). In the model every module has its `params`, and a file without `modules` is the load error. The thrown error is not modelled.
- Simulation.Backtest: a file without `modules` is a load failure here. The source reads `modules` only inside the candle loop (server.js:148), so with fewer than 15 candles such a file still gives a report.
- ArbitrageScanner.SortByNetDesc: states an ordered permutation, not the stability of the engine's sort for equal netPct.
- ArbitrageScanner.ScanArbitrage: also returns the sorted list `ranked`, which the source keeps local, so that the lemmas about `best` and `top` can speak of it.
- LiveTrading.LiveState: keeps `liveState`'s fields together as one `LiveStatus` record, and each field assignment of the source is a record update. Aliasing of the nested `arb` object is not modelled.
