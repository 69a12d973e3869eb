/** backend/services/strategyExecutor.js: the second RSI copy (over plain
    closes), the fail-safe condition evaluator and `executeStrategy`, which
    fills the indicator dictionary from the strategy's modules and returns a
    BUY/SELL/HOLD decision. The JavaScript `new Function` evaluation is kept
    abstract: it is a parameter `eval`, and `None` stands for a thrown error. */
module StrategyExecutor {
  import opened Common
  import Indicators

  /** A strategy condition, as written in the strategy file. */
  type Expr = string

  /** The `indicators` dictionary; `None` is a `null` indicator value. */
  type IndicatorMap = map<string, Option<real>>

  /** The evaluation of a condition against the indicators: `Some(b)` is the
      truthiness of the value it returned, `None` a thrown error. */
  type Evaluator = (Expr, IndicatorMap) -> Option<bool>

  /** The fail-safe: any evaluation error counts as false. */
  function EvaluateCondition(eval: Evaluator, condition: Expr, indicators: IndicatorMap): (r: bool)
    ensures r <==> eval(condition, indicators) == Some(true)
    ensures eval(condition, indicators).None? ==> !r
  {
    match eval(condition, indicators)
    case None => false
    case Some(b) => b
  }

  /** A condition that is absent (`undefined`) compiles to `return undefined;`,
      which is falsy and does not throw. */
  function Condition(eval: Evaluator, condition: Option<Expr>, indicators: IndicatorMap): (r: bool)
    ensures r <==> condition.Some? && eval(condition.value, indicators) == Some(true)
  {
    match condition
    case None => false
    case Some(c) => EvaluateCondition(eval, c, indicators)
  }

  /** `snapshot.binance.map(c => parseFloat(c.close))` */
  function Closes(candles: seq<Indicators.Candle>): (r: seq<real>)
    ensures |r| == |candles|
    ensures forall i :: 0 <= i < |candles| ==> r[i] == candles[i].close
  {
    seq(|candles|, i requires 0 <= i < |candles| => candles[i].close)
  }

  /** Here only a strictly positive move is a gain; a zero move goes to the losses. */
  function Gain(delta: real): real { if delta > 0.0 then delta else 0.0 }

  function Loss(delta: real): real { if delta > 0.0 then 0.0 else -delta }

  /** `gains` after the first k moves; k == 0 reads no close and so needs none. */
  function Gains(closes: seq<real>, k: nat): real
    requires k == 0 || k < |closes|
  {
    if k == 0 then 0.0 else Gains(closes, k - 1) + Gain(closes[k] - closes[k - 1])
  }

  function Losses(closes: seq<real>, k: nat): real
    requires k == 0 || k < |closes|
  {
    if k == 0 then 0.0 else Losses(closes, k - 1) + Loss(closes[k] - closes[k - 1])
  }

  lemma {:induction false} GainsLossesNonNegative(closes: seq<real>, k: nat)
    requires k == 0 || k < |closes|
    ensures Gains(closes, k) >= 0.0 && Losses(closes, k) >= 0.0
  {
    if k > 0 {
      GainsLossesNonNegative(closes, k - 1);
    }
  }

  /** How many moves `for (let i = 1; i <= period; i++)` reads: none below 1,
      otherwise the whole part of the period. */
  function Moves(period: real): (k: nat)
    ensures period < 1.0 ==> k == 0
    ensures period >= 1.0 ==> 1 <= k && k as real <= period < k as real + 1.0
  {
    if period < 1.0 then 0 else period.Floor
  }

  /** `calculateRSI(closes, period)` with the rounding left out. The period
      comes from the strategy file and may be negative or fractional; 0 never
      reaches here (`period || 14`), and would give NaN. */
  function Rsi(closes: seq<real>, period: real): (r: Option<real>)
    requires period != 0.0
    ensures r.None? <==> (|closes| as real) < period + 1.0
    ensures r.Some? ==> 0.0 <= r.value <= 100.0
    ensures r.Some? && period < 1.0 ==> r.value == 100.0
  {
    if (|closes| as real) < period + 1.0 then None
    else
      var k := Moves(period);
      GainsLossesNonNegative(closes, k);
      Some(Indicators.RsiFromSums(Gains(closes, k), Losses(closes, k), period))
  }

  method CalculateRsi(closes: seq<real>, period: real) returns (r: Option<real>)
    requires period != 0.0
    ensures r == Rsi(closes, period)
  {
    if (|closes| as real) < period + 1.0 {
      return None;
    }
    var gains, losses := 0.0, 0.0;
    var i := 1;
    while i as real <= period
      invariant 1 <= i <= Moves(period) + 1
      invariant gains == Gains(closes, i - 1)
      invariant losses == Losses(closes, i - 1)
      decreases Moves(period) + 1 - i
    {
      var delta := closes[i] - closes[i - 1];
      if delta > 0.0 {
        gains := gains + delta;
      } else {
        losses := losses - delta;
      }
      i := i + 1;
    }
    assert i - 1 == Moves(period);
    GainsLossesNonNegative(closes, i - 1);
    var avgGain := gains / period;
    var avgLoss := losses / period;
    if avgLoss == 0.0 {
      return Some(100.0);
    }
    Indicators.RsiAlgebra(gains, losses, period);
    var rs := avgGain / avgLoss;
    r := Some(100.0 - 100.0 / (1.0 + rs));
  }

  /** A fractional period reads the moves of its whole part, and only the
      `null` threshold sees the fraction. */
  lemma FractionalPeriodReadsWholePart(closes: seq<real>, period: real)
    requires period >= 1.0 && (|closes| as real) >= period + 1.0
    ensures Rsi(closes, period) == Rsi(closes, Moves(period) as real)
  {
    var k := Moves(period);
    assert (k as real).Floor == k;
    GainsLossesNonNegative(closes, k);
  }

  /** A negative period reads no move and reports 100 for any closes, the
      empty list included once the period is -1 or below. */
  lemma NegativePeriodGivesHundred(closes: seq<real>, period: real)
    requires period <= -1.0
    ensures Rsi(closes, period) == Some(100.0)
  {
  }

  /** A zero move lands in a different accumulator in the two copies, but adds 0
      to it either way, so the sums agree. */
  lemma {:induction false} SumsMatchIndicators(candles: seq<Indicators.Candle>, k: nat)
    requires k < |candles|
    ensures Gains(Closes(candles), k) == Indicators.Gains(candles, k)
    ensures Losses(Closes(candles), k) == Indicators.Losses(candles, k)
  {
    if k > 0 {
      SumsMatchIndicators(candles, k - 1);
    }
  }

  /** On a whole positive period the two RSI copies compute the same value on
      the same closes. */
  lemma RsiMatchesIndicators(candles: seq<Indicators.Candle>, period: nat)
    requires period > 0
    ensures Rsi(Closes(candles), period as real) == Indicators.Rsi(candles, period)
  {
    assert Moves(period as real) == period by {
      assert (period as real).Floor == period;
    }
    if |candles| >= period + 1 {
      SumsMatchIndicators(candles, period);
    }
  }

  datatype ModuleType = RSI | SentimentFilter | ExecutionLogic | OtherModule(name: string)

  /** The module parameters the executor reads: `period` for RSI, `buy`/`sell`
      for ExecutionLogic. A `period` the file omits is `None`; a given one is
      any number the file holds. */
  datatype ModuleParams = ModuleParams(period: Option<real>, buy: Option<Expr>, sell: Option<Expr>)

  datatype StrategyModule = StrategyModule(kind: ModuleType, params: ModuleParams)

  /** The snapshot `executeStrategy` expects: Binance candles and a Reddit score. */
  datatype MarketSnapshot = MarketSnapshot(binance: seq<Indicators.Candle>, redditSentiment: real)

  datatype StrategyOutcome =
    | StrategyError(error: string)
    | StrategyDecision(indicators: IndicatorMap, decision: Action)

  const LoadError: string := "Strategy file missing or invalid"
  const NoLogicError: string := "No ExecutionLogic found"

  /** `params.period || 14`: only an absent or zero period falls back to 14;
      a negative or fractional one is kept. */
  function PeriodOf(params: ModuleParams): (p: real)
    ensures p != 0.0
    ensures params.period.Some? && params.period.value != 0.0 ==> p == params.period.value
    ensures params.period.None? || params.period == Some(0.0) ==> p == Indicators.DefaultPeriod as real
  {
    if params.period.Some? && params.period.value != 0.0 then params.period.value else Indicators.DefaultPeriod as real
  }

  /** What one module adds to the indicator dictionary. */
  function Contribute(indicators: IndicatorMap, m: StrategyModule, snapshot: MarketSnapshot): IndicatorMap
  {
    match m.kind
    case RSI => indicators["RSI" := Rsi(Closes(snapshot.binance), PeriodOf(m.params))]
    case SentimentFilter => indicators["Sentiment" := Some(snapshot.redditSentiment)]
    case _ => indicators
  }

  /** The dictionary after the loop over `modules`, in order. */
  function IndicatorsFor(modules: seq<StrategyModule>, snapshot: MarketSnapshot): IndicatorMap
    decreases |modules|
  {
    if modules == [] then map[]
    else Contribute(IndicatorsFor(modules[..|modules| - 1], snapshot), modules[|modules| - 1], snapshot)
  }

  /** `modules.find(m => m.type === 'ExecutionLogic')`, giving its params. */
  function FindLogic(modules: seq<StrategyModule>): (r: Option<ModuleParams>)
    ensures r.None? <==> forall i :: 0 <= i < |modules| ==> modules[i].kind != ExecutionLogic
    ensures r.Some? ==> exists i :: 0 <= i < |modules| && modules[i].kind == ExecutionLogic
                                  && modules[i].params == r.value
                                  && forall j :: 0 <= j < i ==> modules[j].kind != ExecutionLogic
  {
    if modules == [] then None
    else if modules[0].kind == ExecutionLogic then Some(modules[0].params)
    else
      var r := FindLogic(modules[1..]);
      assert forall i :: 1 <= i < |modules| ==> modules[i] == modules[1..][i - 1];
      r
  }

  /** `executeStrategy(snapshot)` with the strategy file given: `None` is a
      file that is missing or does not parse. */
  method ExecuteStrategy(loaded: Option<seq<StrategyModule>>, snapshot: MarketSnapshot, eval: Evaluator)
    returns (r: StrategyOutcome)
    ensures loaded.None? ==> r == StrategyError(LoadError)
    ensures loaded.Some? && FindLogic(loaded.value).None? ==> r == StrategyError(NoLogicError)
    ensures loaded.Some? && FindLogic(loaded.value).Some? ==>
      var indicators := IndicatorsFor(loaded.value, snapshot);
      var logic := FindLogic(loaded.value).value;
      r == StrategyDecision(indicators, Decide(Condition(eval, logic.buy, indicators),
                                               Condition(eval, logic.sell, indicators)))
  {
    if loaded.None? {
      return StrategyError(LoadError);
    }
    var modules := loaded.value;
    var indicators: IndicatorMap := map[];
    for i := 0 to |modules|
      invariant indicators == IndicatorsFor(modules[..i], snapshot)
    {
      var m := modules[i];
      if m.kind == RSI {
        var rsi := CalculateRsi(Closes(snapshot.binance), PeriodOf(m.params));
        indicators := indicators["RSI" := rsi];
      }
      if m.kind == SentimentFilter {
        indicators := indicators["Sentiment" := Some(snapshot.redditSentiment)];
      }
      assert modules[..i + 1][..i] == modules[..i];
    }
    assert modules[..|modules|] == modules;
    var logic := FindLogic(modules);
    if logic.None? {
      return StrategyError(NoLogicError);
    }
    var shouldBuy := Condition(eval, logic.value.buy, indicators);
    var shouldSell := Condition(eval, logic.value.sell, indicators);
    r := StrategyDecision(indicators, if shouldBuy then Buy else if shouldSell then Sell else Hold);
  }

  /** Indicator keys appear only for the module types present. */
  lemma {:induction false} IndicatorKeys(modules: seq<StrategyModule>, snapshot: MarketSnapshot)
    ensures IndicatorsFor(modules, snapshot).Keys <= {"RSI", "Sentiment"}
    ensures "RSI" in IndicatorsFor(modules, snapshot) <==>
            exists i :: 0 <= i < |modules| && modules[i].kind == RSI
    ensures "Sentiment" in IndicatorsFor(modules, snapshot) <==>
            exists i :: 0 <= i < |modules| && modules[i].kind == SentimentFilter
  {
    if modules != [] {
      var front := modules[..|modules| - 1];
      IndicatorKeys(front, snapshot);
      assert forall i :: 0 <= i < |front| ==> front[i] == modules[i];
    }
  }

  /** The RSI entry comes from the last RSI module, with that module's period. */
  lemma {:induction false} RsiEntryFromLastRsiModule(modules: seq<StrategyModule>, snapshot: MarketSnapshot, i: nat)
    requires i < |modules| && modules[i].kind == RSI
    requires forall j :: i < j < |modules| ==> modules[j].kind != RSI
    ensures "RSI" in IndicatorsFor(modules, snapshot)
    ensures IndicatorsFor(modules, snapshot)["RSI"] == Rsi(Closes(snapshot.binance), PeriodOf(modules[i].params))
  {
    var front := modules[..|modules| - 1];
    if i < |modules| - 1 {
      assert forall j :: i < j < |front| ==> front[j] == modules[j];
      RsiEntryFromLastRsiModule(front, snapshot, i);
    }
  }

  /** The Sentiment entry, when present, is the snapshot's Reddit score. */
  lemma {:induction false} SentimentEntry(modules: seq<StrategyModule>, snapshot: MarketSnapshot)
    requires "Sentiment" in IndicatorsFor(modules, snapshot)
    ensures IndicatorsFor(modules, snapshot)["Sentiment"] == Some(snapshot.redditSentiment)
  {
    var front := modules[..|modules| - 1];
    if modules[|modules| - 1].kind != SentimentFilter {
      SentimentEntry(front, snapshot);
    }
  }
}
