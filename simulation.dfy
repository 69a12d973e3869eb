/** The three simulation endpoints of backend/server.js: the one-tick preview,
    the one-tick test simulation over a fixed stake, and the backtest, which
    replays candles one RSI window at a time and compounds a paper balance.
    The strategy file, the market snapshot and the model sentiment are inputs;
    a strategy file that is missing, does not parse, or has no `modules` list is
    `None`. */
module Simulation {
  import opened Common
  import Indicators
  import StrategyExecutor

  /** What `getUnifiedMarketSnapshot` hands over: the last close (`null` when
      the lookup failed) and two numbers, each already defaulted to 0. */
  datatype UnifiedSnapshot = UnifiedSnapshot(price: Option<real>, rsi: real, sentiment: real)

  /** `{ RSI, Sentiment }`, the context the server's conditions run in. */
  function ServerIndicators(rsi: real, sentiment: real): (m: StrategyExecutor.IndicatorMap)
    ensures m.Keys == {"RSI", "Sentiment"}
    ensures m["RSI"] == Some(rsi) && m["Sentiment"] == Some(sentiment)
  {
    map["RSI" := Some(rsi), "Sentiment" := Some(sentiment)]
  }

  /** `strategy.modules.find(m => m.type === 'ExecutionLogic')?.params?.buy` */
  function BuyLogic(modules: seq<StrategyExecutor.StrategyModule>): (e: Option<StrategyExecutor.Expr>)
    ensures StrategyExecutor.FindLogic(modules).None? ==> e.None?
    ensures StrategyExecutor.FindLogic(modules).Some? ==> e == StrategyExecutor.FindLogic(modules).value.buy
  {
    match StrategyExecutor.FindLogic(modules)
    case None => None
    case Some(p) => p.buy
  }

  /** The same lookup for `sell`. */
  function SellLogic(modules: seq<StrategyExecutor.StrategyModule>): (e: Option<StrategyExecutor.Expr>)
    ensures StrategyExecutor.FindLogic(modules).None? ==> e.None?
    ensures StrategyExecutor.FindLogic(modules).Some? ==> e == StrategyExecutor.FindLogic(modules).value.sell
  {
    match StrategyExecutor.FindLogic(modules)
    case None => None
    case Some(p) => p.sell
  }

  /** `evaluateLogic` on both conditions and the if/else-if action choice. A
      thrown error, like a missing condition, is falsy. */
  function ServerDecision(eval: StrategyExecutor.Evaluator, modules: seq<StrategyExecutor.StrategyModule>,
                          indicators: StrategyExecutor.IndicatorMap): (a: Action)
    ensures a == Buy <==> BuyLogic(modules).Some? && eval(BuyLogic(modules).value, indicators) == Some(true)
    ensures a == Sell <==> !(BuyLogic(modules).Some? && eval(BuyLogic(modules).value, indicators) == Some(true))
                           && SellLogic(modules).Some? && eval(SellLogic(modules).value, indicators) == Some(true)
  {
    Decide(StrategyExecutor.Condition(eval, BuyLogic(modules), indicators),
           StrategyExecutor.Condition(eval, SellLogic(modules), indicators))
  }

  /** Unlike `executeStrategy`, the server does not reject a strategy without an
      ExecutionLogic module: both conditions are missing and it holds. */
  lemma NoLogicMeansHold(eval: StrategyExecutor.Evaluator, modules: seq<StrategyExecutor.StrategyModule>,
                         indicators: StrategyExecutor.IndicatorMap)
    requires forall i :: 0 <= i < |modules| ==> modules[i].kind != StrategyExecutor.ExecutionLogic
    ensures ServerDecision(eval, modules, indicators) == Hold
  {
  }

  /** On the same indicators the server and `executeStrategy` decide alike. */
  lemma ServerDecisionMatchesExecutor(eval: StrategyExecutor.Evaluator, modules: seq<StrategyExecutor.StrategyModule>,
                                      indicators: StrategyExecutor.IndicatorMap)
    requires StrategyExecutor.FindLogic(modules).Some?
    ensures ServerDecision(eval, modules, indicators) ==
            Decide(StrategyExecutor.Condition(eval, StrategyExecutor.FindLogic(modules).value.buy, indicators),
                   StrategyExecutor.Condition(eval, StrategyExecutor.FindLogic(modules).value.sell, indicators))
  {
  }

  /** The return of one step, as a fraction of the stake: +1.5% on a buy,
      −0.8% on a sell, nothing on a hold. Preview, test-sim and backtest share it. */
  function ProfitRate(a: Action): (rate: real)
    ensures a == Buy ==> rate == 0.015
    ensures a == Sell ==> rate == -0.008
    ensures a == Hold ==> rate == 0.0
    ensures -1.0 < rate
  {
    match a
    case Buy => 0.015
    case Sell => -0.008
    case Hold => 0.0
  }

  datatype PreviewResult = PreviewResult(indicators: StrategyExecutor.IndicatorMap,
                                         buyLogic: Option<StrategyExecutor.Expr>,
                                         sellLogic: Option<StrategyExecutor.Expr>,
                                         action: Action, simulatedProfit: real, confidence: real)

  /** `GET /api/preview`; `None` is the failure response. */
  function Preview(loaded: Option<seq<StrategyExecutor.StrategyModule>>, snapshot: UnifiedSnapshot,
                   eval: StrategyExecutor.Evaluator): (r: Option<PreviewResult>)
    ensures r.None? <==> loaded.None?
    ensures r.Some? ==> r.value.indicators == ServerIndicators(snapshot.rsi, snapshot.sentiment)
                        && r.value.action == ServerDecision(eval, loaded.value, r.value.indicators)
                        && r.value.confidence == snapshot.sentiment
    ensures r.Some? ==> r.value.simulatedProfit in {0.015, -0.008, 0.0}
                        && (r.value.simulatedProfit > 0.0 <==> r.value.action == Buy)
                        && (r.value.simulatedProfit < 0.0 <==> r.value.action == Sell)
  {
    match loaded
    case None => None
    case Some(modules) =>
      var indicators := ServerIndicators(snapshot.rsi, snapshot.sentiment);
      var action := ServerDecision(eval, modules, indicators);
      Some(PreviewResult(indicators, BuyLogic(modules), SellLogic(modules), action, ProfitRate(action), snapshot.sentiment))
  }

  /** The stake of the test simulation and the backtest. */
  const StartingCash: real := 50.0

  datatype TestSimResult = TestSimResult(indicators: StrategyExecutor.IndicatorMap, action: Action,
                                         startingCash: real, positionSize: real,
                                         simulatedProfit: real, endingBalance: real, confidence: real)

  /** `GET /api/test-sim`: one step over the whole stake. */
  function TestSim(loaded: Option<seq<StrategyExecutor.StrategyModule>>, snapshot: UnifiedSnapshot,
                   eval: StrategyExecutor.Evaluator): (r: Option<TestSimResult>)
    ensures r.None? <==> loaded.None?
    ensures r.Some? ==> r.value.startingCash == StartingCash && r.value.positionSize == StartingCash
                        && r.value.endingBalance == r.value.startingCash + r.value.simulatedProfit
  {
    match loaded
    case None => None
    case Some(modules) =>
      var indicators := ServerIndicators(snapshot.rsi, snapshot.sentiment);
      var action := ServerDecision(eval, modules, indicators);
      var profit := StartingCash * ProfitRate(action);
      Some(TestSimResult(indicators, action, StartingCash, StartingCash, profit, StartingCash + profit, snapshot.sentiment))
  }

  /** The test simulation takes the preview's action and scales its rate by the
      stake: it ends at 50.75, 49.60 or 50. */
  lemma TestSimScalesPreview(loaded: Option<seq<StrategyExecutor.StrategyModule>>, snapshot: UnifiedSnapshot,
                             eval: StrategyExecutor.Evaluator)
    requires loaded.Some?
    ensures TestSim(loaded, snapshot, eval).Some? && Preview(loaded, snapshot, eval).Some?
    ensures TestSim(loaded, snapshot, eval).value.action == Preview(loaded, snapshot, eval).value.action
    ensures TestSim(loaded, snapshot, eval).value.simulatedProfit ==
            StartingCash * Preview(loaded, snapshot, eval).value.simulatedProfit
    ensures TestSim(loaded, snapshot, eval).value.endingBalance in {50.75, 49.6, 50.0}
  {
  }

  /** The number of candles before the first replayed one: the RSI window
      ending at candle i is candles i−14..i. */
  const Warmup: nat := 14

  /** One row of the backtest's `trades`, before rounding. */
  datatype BacktestTrade = BacktestTrade(time: real, rsi: real, sentiment: real, action: Action,
                                         profit: real, balance: real)

  /** The loop's variables `balance`, `trades`, `tradesExecuted`, `netProfit`. */
  datatype Replay = Replay(balance: real, trades: seq<BacktestTrade>, tradesExecuted: nat, netProfit: real)

  const InitialReplay: Replay := Replay(StartingCash, [], 0, 0.0)

  /** RSI over the 15 candles ending at i; a `null` would be fed as 0, but a
      full window always yields a value. */
  function WindowRsi(candles: seq<Indicators.Candle>, i: nat): (r: real)
    requires Warmup <= i < |candles|
    ensures Indicators.Rsi(candles[i - Warmup..i + 1], Indicators.DefaultPeriod).Some?
    ensures r == Indicators.Rsi(candles[i - Warmup..i + 1], Indicators.DefaultPeriod).value
    ensures 0.0 <= r <= 100.0
  {
    var rsi := Indicators.Rsi(candles[i - Warmup..i + 1], Indicators.DefaultPeriod);
    if rsi.Some? then rsi.value else 0.0
  }

  /** The action taken at candle i. */
  function StepAction(eval: StrategyExecutor.Evaluator, modules: seq<StrategyExecutor.StrategyModule>,
                      candles: seq<Indicators.Candle>, sentiment: real, i: nat): Action
    requires Warmup <= i < |candles|
  {
    ServerDecision(eval, modules, ServerIndicators(WindowRsi(candles, i), sentiment))
  }

  /** One pass of the loop body, for a candle closing at `time` whose window
      has RSI `rsi`, taking `action`. */
  function Step(s: Replay, time: real, rsi: real, sentiment: real, action: Action): Replay
  {
    var profit := s.balance * ProfitRate(action);
    var balance := s.balance + profit;
    var trade := BacktestTrade(time, rsi, sentiment, action, profit, balance);
    if action == Hold then Replay(s.balance, s.trades + [trade], s.tradesExecuted, s.netProfit)
    else Replay(balance, s.trades + [trade], s.tradesExecuted + 1, s.netProfit + profit)
  }

  /** The loop's state after the indices Warmup..k−1. */
  function ReplayUpTo(eval: StrategyExecutor.Evaluator, modules: seq<StrategyExecutor.StrategyModule>,
                      candles: seq<Indicators.Candle>, sentiment: real, k: nat): Replay
    requires k <= |candles|
    decreases k
  {
    if k <= Warmup then InitialReplay
    else
      Step(ReplayUpTo(eval, modules, candles, sentiment, k - 1), candles[k - 1].closeTime,
           WindowRsi(candles, k - 1), sentiment, StepAction(eval, modules, candles, sentiment, k - 1))
  }

  /** `trades.filter(t => t.profit > 0).length` */
  function CountProfitable(trades: seq<BacktestTrade>): (n: nat)
    ensures n <= |trades|
    decreases |trades|
  {
    if trades == [] then 0
    else CountProfitable(trades[..|trades| - 1]) + (if trades[|trades| - 1].profit > 0.0 then 1 else 0)
  }

  function CountBuys(trades: seq<BacktestTrade>): nat
    decreases |trades|
  {
    if trades == [] then 0
    else CountBuys(trades[..|trades| - 1]) + (if trades[|trades| - 1].action == Buy then 1 else 0)
  }

  function CountActive(trades: seq<BacktestTrade>): nat
    decreases |trades|
  {
    if trades == [] then 0
    else CountActive(trades[..|trades| - 1]) + (if trades[|trades| - 1].action != Hold then 1 else 0)
  }

  function SumProfits(trades: seq<BacktestTrade>): real
    decreases |trades|
  {
    if trades == [] then 0.0 else SumProfits(trades[..|trades| - 1]) + trades[|trades| - 1].profit
  }

  /** The per-step growth factor of the balance. */
  function Factor(a: Action): real
  {
    match a
    case Buy => 1.015
    case Sell => 0.992
    case Hold => 1.0
  }

  /** What the replay keeps true at every index. */
  predicate ReplayInvariant(r: Replay)
  {
    && r.balance > 0.0
    && r.balance == StartingCash + r.netProfit
    && r.netProfit == SumProfits(r.trades)
    && r.tradesExecuted == CountActive(r.trades)
    && CountBuys(r.trades) <= r.tradesExecuted <= |r.trades|
    && CountProfitable(r.trades) == CountBuys(r.trades)
  }

  /** One step multiplies the balance by its factor, records the new balance
      and keeps the invariant. */
  lemma StepKeepsInvariant(s: Replay, time: real, rsi: real, sentiment: real, action: Action)
    requires ReplayInvariant(s)
    ensures ReplayInvariant(Step(s, time, rsi, sentiment, action))
    ensures Step(s, time, rsi, sentiment, action).balance == s.balance * Factor(action)
    ensures Step(s, time, rsi, sentiment, action).trades ==
            s.trades + [BacktestTrade(time, rsi, sentiment, action, s.balance * ProfitRate(action),
                                      s.balance * Factor(action))]
  {
    var t := Step(s, time, rsi, sentiment, action);
    assert t.trades[..|t.trades| - 1] == s.trades;
    var last := t.trades[|t.trades| - 1];
    assert last.profit > 0.0 <==> action == Buy by {
      assert s.balance > 0.0;
      match action
      case Buy => assert last.profit == s.balance * 0.015;
      case Sell => assert last.profit == s.balance * -0.008;
      case Hold => assert last.profit == 0.0;
    }
  }

  /** One step appends one row, recording its inputs, and keeps the rows
      before it. */
  lemma StepAppendsRow(s: Replay, time: real, rsi: real, sentiment: real, action: Action)
    ensures var t := Step(s, time, rsi, sentiment, action);
            |t.trades| == |s.trades| + 1
            && (forall j :: 0 <= j < |s.trades| ==> t.trades[j] == s.trades[j])
            && t.trades[|s.trades|].time == time && t.trades[|s.trades|].rsi == rsi
            && t.trades[|s.trades|].sentiment == sentiment && t.trades[|s.trades|].action == action
  {
  }

  /** The replay keeps its invariant at every index. */
  lemma {:induction false} ReplayKeepsInvariant(eval: StrategyExecutor.Evaluator, modules: seq<StrategyExecutor.StrategyModule>,
                                                candles: seq<Indicators.Candle>, sentiment: real, k: nat)
    requires k <= |candles|
    ensures ReplayInvariant(ReplayUpTo(eval, modules, candles, sentiment, k))
    decreases k
  {
    if k > Warmup {
      ReplayKeepsInvariant(eval, modules, candles, sentiment, k - 1);
      StepKeepsInvariant(ReplayUpTo(eval, modules, candles, sentiment, k - 1), candles[k - 1].closeTime,
                         WindowRsi(candles, k - 1), sentiment, StepAction(eval, modules, candles, sentiment, k - 1));
    }
  }

  /** One row per replayed index, each recording that index's candle, RSI
      window, sentiment and action. */
  lemma {:induction false} ReplayRows(eval: StrategyExecutor.Evaluator, modules: seq<StrategyExecutor.StrategyModule>,
                                      candles: seq<Indicators.Candle>, sentiment: real, k: nat)
    requires k <= |candles|
    ensures |ReplayUpTo(eval, modules, candles, sentiment, k).trades| == if k <= Warmup then 0 else k - Warmup
    ensures forall j :: 0 <= j < |ReplayUpTo(eval, modules, candles, sentiment, k).trades| ==>
              RowAt(ReplayUpTo(eval, modules, candles, sentiment, k).trades[j], eval, modules, candles, sentiment, j + Warmup)
    decreases k
  {
    if k > Warmup {
      ReplayRows(eval, modules, candles, sentiment, k - 1);
      var s := ReplayUpTo(eval, modules, candles, sentiment, k - 1);
      var t := ReplayUpTo(eval, modules, candles, sentiment, k);
      StepAppendsRow(s, candles[k - 1].closeTime, WindowRsi(candles, k - 1), sentiment,
                     StepAction(eval, modules, candles, sentiment, k - 1));
      forall j | 0 <= j < |t.trades|
        ensures RowAt(t.trades[j], eval, modules, candles, sentiment, j + Warmup)
      {
        if j < |s.trades| {
          assert t.trades[j] == s.trades[j];
        }
      }
    }
  }

  /** Row `t` is the one the loop records at candle i. */
  predicate RowAt(t: BacktestTrade, eval: StrategyExecutor.Evaluator, modules: seq<StrategyExecutor.StrategyModule>,
                  candles: seq<Indicators.Candle>, sentiment: real, i: nat)
    requires Warmup <= i < |candles|
  {
    t.time == candles[i].closeTime && t.rsi == WindowRsi(candles, i) && t.sentiment == sentiment
    && t.action == StepAction(eval, modules, candles, sentiment, i)
  }

  /** Each replayed index multiplies the balance by 1.015 (buy), 0.992 (sell)
      or 1 (hold), appends one row and leaves the earlier rows alone; the row
      carries the balance after the step. */
  lemma BalanceCompounds(eval: StrategyExecutor.Evaluator, modules: seq<StrategyExecutor.StrategyModule>,
                         candles: seq<Indicators.Candle>, sentiment: real, k: nat)
    requires Warmup < k <= |candles|
    ensures ReplayUpTo(eval, modules, candles, sentiment, k).balance ==
            ReplayUpTo(eval, modules, candles, sentiment, k - 1).balance
            * Factor(StepAction(eval, modules, candles, sentiment, k - 1))
    ensures ReplayUpTo(eval, modules, candles, sentiment, k - 1).trades
            < ReplayUpTo(eval, modules, candles, sentiment, k).trades
    ensures var r := ReplayUpTo(eval, modules, candles, sentiment, k);
            r.trades[|r.trades| - 1].balance == r.balance
  {
    ReplayKeepsInvariant(eval, modules, candles, sentiment, k - 1);
    StepKeepsInvariant(ReplayUpTo(eval, modules, candles, sentiment, k - 1), candles[k - 1].closeTime,
                       WindowRsi(candles, k - 1), sentiment, StepAction(eval, modules, candles, sentiment, k - 1));
  }

  datatype BacktestSummary = BacktestSummary(startingCash: real, endingBalance: real, netProfit: real,
                                             tradesExecuted: nat, engagementRate: Option<real>,
                                             accuracy: real, candlesAnalyzed: nat)

  /** `trades.filter(t => t.profit > 0).length / (tradesExecuted || 1) * 100`,
      before `Math.round`. */
  function Accuracy(profitable: nat, executed: nat): (a: real)
    requires profitable <= executed
    ensures 0.0 <= a <= 100.0
    ensures executed == 0 ==> a == 0.0
    ensures executed > 0 && profitable == executed ==> a == 100.0
  {
    var divisor := if executed == 0 then 1 else executed;
    RatioAtMostOne(profitable as real, divisor as real);
    profitable as real / divisor as real * 100.0
  }

  lemma RatioAtMostOne(p: real, d: real)
    requires 0.0 <= p <= d && d > 0.0
    ensures 0.0 <= p / d <= 1.0
  {
    assert p / d * d == p;
  }

  /** `tradesExecuted / trades.length * 100`; with no rows it is 0/0, which is
      `None` here. */
  function EngagementRate(executed: nat, rows: nat): (e: Option<real>)
    requires executed <= rows
    ensures e.None? <==> rows == 0
    ensures e.Some? ==> 0.0 <= e.value <= 100.0
  {
    if rows == 0 then None
    else
      RatioAtMostOne(executed as real, rows as real);
      Some(executed as real / rows as real * 100.0)
  }

  datatype BacktestOutcome = BacktestFailed | BacktestReport(summary: BacktestSummary, trades: seq<BacktestTrade>)

  /** `GET /api/backtest` over the given candles; `gemini` is the model's
      sentiment, `None` when it is not a number. */
  function Backtest(loaded: Option<seq<StrategyExecutor.StrategyModule>>, candles: seq<Indicators.Candle>,
                    gemini: Option<real>, eval: StrategyExecutor.Evaluator): (r: BacktestOutcome)
    ensures r.BacktestFailed? <==> loaded.None?
    ensures r.BacktestReport? ==>
      var s := r.summary;
      && |r.trades| == s.candlesAnalyzed == (if |candles| <= Warmup then 0 else |candles| - Warmup)
      && s.startingCash == StartingCash
      && s.tradesExecuted <= s.candlesAnalyzed
      && s.endingBalance > 0.0
      && s.endingBalance == s.startingCash + s.netProfit
      && 0.0 <= s.accuracy <= 100.0
      && (s.tradesExecuted == 0 ==> s.accuracy == 0.0)
      && (s.engagementRate.None? <==> s.candlesAnalyzed == 0)
  {
    match loaded
    case None => BacktestFailed
    case Some(modules) =>
      var sentiment := if gemini.Some? then gemini.value else 0.0;
      var replay := ReplayUpTo(eval, modules, candles, sentiment, |candles|);
      ReplayKeepsInvariant(eval, modules, candles, sentiment, |candles|);
      ReplayRows(eval, modules, candles, sentiment, |candles|);
      var summary := BacktestSummary(StartingCash, replay.balance, replay.netProfit, replay.tradesExecuted,
                                     EngagementRate(replay.tradesExecuted, |replay.trades|),
                                     Accuracy(CountProfitable(replay.trades), replay.tradesExecuted),
                                     |replay.trades|);
      BacktestReport(summary, replay.trades)
  }

  /** The loop body at index i: compute the window's RSI, evaluate the two
      conditions, and book the trade. */
  method ReplayStep(modules: seq<StrategyExecutor.StrategyModule>, candles: seq<Indicators.Candle>,
                    sentiment: real, eval: StrategyExecutor.Evaluator, i: nat,
                    balance: real, trades: seq<BacktestTrade>, tradesExecuted: nat, netProfit: real)
    returns (balance': real, trades': seq<BacktestTrade>, tradesExecuted': nat, netProfit': real)
    requires Warmup <= i < |candles|
    ensures Replay(balance', trades', tradesExecuted', netProfit') ==
            Step(Replay(balance, trades, tradesExecuted, netProfit), candles[i].closeTime,
                 WindowRsi(candles, i), sentiment, StepAction(eval, modules, candles, sentiment, i))
  {
    balance', tradesExecuted', netProfit' := balance, tradesExecuted, netProfit;
    var rsi := Indicators.CalculateRsi(candles[i - Warmup..i + 1], Indicators.DefaultPeriod);
    var rsiValue := if rsi.Some? then rsi.value else 0.0;
    assert rsiValue == WindowRsi(candles, i);
    var indicators := ServerIndicators(rsiValue, sentiment);
    var buy := StrategyExecutor.Condition(eval, BuyLogic(modules), indicators);
    var sell := StrategyExecutor.Condition(eval, SellLogic(modules), indicators);
    var action := Hold;
    var profit := 0.0;
    if buy {
      action := Buy;
      profit := balance' * 0.015;
      balance' := balance' + profit;
      tradesExecuted' := tradesExecuted' + 1;
      netProfit' := netProfit' + profit;
    } else if sell {
      action := Sell;
      profit := balance' * -0.008;
      balance' := balance' + profit;
      tradesExecuted' := tradesExecuted' + 1;
      netProfit' := netProfit' + profit;
    }
    assert action == StepAction(eval, modules, candles, sentiment, i);
    trades' := trades + [BacktestTrade(candles[i].closeTime, rsiValue, sentiment, action, profit, balance')];
  }

  /** The endpoint's loop, mutating `balance`, `trades`, `tradesExecuted` and
      `netProfit` once per candle from index 14 on. */
  method ReplayLoop(modules: seq<StrategyExecutor.StrategyModule>, candles: seq<Indicators.Candle>,
                    sentiment: real, eval: StrategyExecutor.Evaluator) returns (r: Replay)
    ensures r == ReplayUpTo(eval, modules, candles, sentiment, |candles|)
  {
    var balance := StartingCash;
    var trades: seq<BacktestTrade> := [];
    var tradesExecuted: nat := 0;
    var netProfit := 0.0;
    if |candles| > Warmup {
      for i := Warmup to |candles|
        invariant Replay(balance, trades, tradesExecuted, netProfit) == ReplayUpTo(eval, modules, candles, sentiment, i)
      {
        balance, trades, tradesExecuted, netProfit :=
          ReplayStep(modules, candles, sentiment, eval, i, balance, trades, tradesExecuted, netProfit);
      }
    }
    r := Replay(balance, trades, tradesExecuted, netProfit);
  }

  /** `GET /api/backtest`: the loop, then the summary over its rows. */
  method RunBacktest(loaded: Option<seq<StrategyExecutor.StrategyModule>>, candles: seq<Indicators.Candle>,
                     gemini: Option<real>, eval: StrategyExecutor.Evaluator) returns (r: BacktestOutcome)
    ensures r == Backtest(loaded, candles, gemini, eval)
  {
    if loaded.None? {
      return BacktestFailed;
    }
    var modules := loaded.value;
    var sentiment := if gemini.Some? then gemini.value else 0.0;
    var replay := ReplayLoop(modules, candles, sentiment, eval);
    ReplayKeepsInvariant(eval, modules, candles, sentiment, |candles|);
    var summary := BacktestSummary(StartingCash, replay.balance, replay.netProfit, replay.tradesExecuted,
                                   EngagementRate(replay.tradesExecuted, |replay.trades|),
                                   Accuracy(CountProfitable(replay.trades), replay.tradesExecuted), |replay.trades|);
    r := BacktestReport(summary, replay.trades);
  }
}
