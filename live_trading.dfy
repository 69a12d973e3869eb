/** The paper-trading live mode of backend/server.js: the mutable `liveState`
    and `arbConfig` objects, one timer tick (`runLiveCycle`, with its
    arbitrage attempt `maybeExecuteArbitrage`), and the start, stop and
    config endpoints. Every transition is first a function on a `LiveStatus`
    value; the classes then do it field by field, and are proved to agree.
    A tick's inputs are the clock, the market snapshot, the two condition
    results and the scan the arbitrage attempt would get; the timer, the
    files and the strategy read are outside. */
module LiveTrading {
  import opened Common
  import ArbitrageScanner
  import StrategyExecutor
  import Simulation

  /** `lastAction`: 'idle', 'buy'/'sell'/'hold', 'error', 'stopped',
      'halted_max_daily_loss'. */
  datatype LastAction = Idle | Acted(action: Action) | Errored | Stopped | HaltedMaxDailyLoss

  /** One entry appended to the live trade log. */
  datatype LiveTrade =
    | BuyTrade(timestamp: real, price: real, qty: real, notional: real, balance: real,
               indicators: StrategyExecutor.IndicatorMap)
    | SellTrade(timestamp: real, price: real, qty: real, pnl: real, balance: real,
                indicators: StrategyExecutor.IndicatorMap)
    | ArbitrageTrade(timestamp: real, path: ArbitrageScanner.Path, symbol: string, quote: string,
                     buyPrice: real, sellPrice: real, grossPct: real, estFeesPct: real, netPct: real,
                     notional: real, pnl: real, balance: real)

  /** The fields of `arbConfig`. */
  datatype ArbSettings = ArbSettings(enabled: bool, symbol: string, quote: string,
                                     minNetSpreadPct: real, notional: real)

  const DefaultArbSettings: ArbSettings := ArbSettings(true, "BTC", "USDT", 0.25, 25.0)

  /** The fields of `liveState`, with `arb.enabled`/`arb.last` flattened and
      the trade log (the file `liveTrades.json`) as `log`. Times are
      milliseconds. */
  datatype LiveStatus = LiveStatus(
    running: bool, intervalMs: real, startingCash: real, balance: real, position: real,
    entryPrice: Option<real>, lastAction: LastAction, lastError: Option<string>, lastRun: Option<real>,
    cycles: nat, tradesToday: nat, pnlToday: real, maxDailyLoss: real, maxPosition: real,
    cooldownMs: real, nextAllowedTs: real, arbEnabled: bool, arbLast: Option<LiveTrade>,
    log: seq<LiveTrade>)

  const InitialStatus: LiveStatus :=
    LiveStatus(false, 60000.0, 50.0, 50.0, 0.0, None, Idle, None, None, 0, 0, 0.0, 5.0, 50.0, 0.0, 0.0,
               true, None, [])

  /** Two statuses agreeing field by field are equal. */
  lemma SameStatus(a: LiveStatus, b: LiveStatus)
    requires a.running == b.running && a.intervalMs == b.intervalMs && a.startingCash == b.startingCash
    requires a.balance == b.balance && a.position == b.position && a.entryPrice == b.entryPrice
    requires a.lastAction == b.lastAction && a.lastError == b.lastError && a.lastRun == b.lastRun
    requires a.cycles == b.cycles && a.tradesToday == b.tradesToday && a.pnlToday == b.pnlToday
    requires a.maxDailyLoss == b.maxDailyLoss && a.maxPosition == b.maxPosition
    requires a.cooldownMs == b.cooldownMs && a.nextAllowedTs == b.nextAllowedTs
    requires a.arbEnabled == b.arbEnabled && a.arbLast == b.arbLast && a.log == b.log
    ensures a == b
  {
  }

  const PriceError: string := "Snapshot price not available"

  /** `Math.min(arbConfig.notional, liveState.balance)` */
  function ArbNotional(s: LiveStatus, cfg: ArbSettings): real
  {
    Min(cfg.notional, s.balance)
  }

  /** `gross − feesCost` for a notional and an opportunity. */
  function ArbPnl(notional: real, best: ArbitrageScanner.Opportunity): real
  {
    notional * (best.grossPct / 100.0) - notional * (best.estFeesPct / 100.0)
  }

  /** When the arbitrage attempt trades. */
  predicate ArbitrageFires(s: LiveStatus, cfg: ArbSettings, scan: ArbitrageScanner.ScanResult)
  {
    cfg.enabled && scan.best.Some? && scan.best.value.netPct >= cfg.minNetSpreadPct && ArbNotional(s, cfg) > 0.0
  }

  datatype ArbResult = ArbResult(status: LiveStatus, trade: Option<LiveTrade>)

  /** `maybeExecuteArbitrage()`, given the scan it would receive. */
  function ArbitrageStep(s: LiveStatus, cfg: ArbSettings, scan: ArbitrageScanner.ScanResult, now: real): (r: ArbResult)
    ensures r.trade.Some? <==> ArbitrageFires(s, cfg, scan)
    ensures r.trade.None? ==> r.status == s
  {
    if !cfg.enabled then ArbResult(s, None)
    else if scan.best.None? then ArbResult(s, None)
    else
      var best := scan.best.value;
      if best.netPct >= cfg.minNetSpreadPct then
        var notional := ArbNotional(s, cfg);
        if notional <= 0.0 then ArbResult(s, None)
        else
          var pnl := ArbPnl(notional, best);
          var balance := s.balance + pnl;
          var trade := ArbitrageTrade(now, best.path, scan.symbol, scan.quote, best.buyPrice, best.sellPrice,
                                      best.grossPct, best.estFeesPct, best.netPct, notional, pnl, balance);
          ArbResult(s.(balance := balance, pnlToday := s.pnlToday + pnl, arbLast := Some(trade),
                       log := s.log + [trade]), Some(trade))
      else ArbResult(s, None)
  }

  datatype StepResult = StepResult(status: LiveStatus, action: Action, trade: Option<LiveTrade>)

  /** `Math.min(liveState.balance, liveState.maxPosition)` */
  function PositionSize(s: LiveStatus): real
  {
    Min(s.balance, s.maxPosition)
  }

  /** The buy/sell branches of `runLiveCycle` at a checked price. They leave
      the log to the caller, never touch the run or the cooldown, and keep the
      position consistent with the entry price. */
  function StrategyStep(s: LiveStatus, price: real, buy: bool, sell: bool,
                        indicators: StrategyExecutor.IndicatorMap, now: real): (r: StepResult)
    requires price != 0.0
    ensures r.status.log == s.log && r.status.running == s.running
    ensures r.status.nextAllowedTs == s.nextAllowedTs && r.status.cooldownMs == s.cooldownMs
    ensures PositionConsistent(s) ==> PositionConsistent(r.status)
  {
    var positionSize := PositionSize(s);
    if buy && s.position == 0.0 && positionSize > 0.0 then
      QuotientTimesDivisor(positionSize, price);
      var position := positionSize / price;
      var balance := s.balance - positionSize;
      StepResult(s.(position := position, entryPrice := Some(price), balance := balance,
                    tradesToday := s.tradesToday + 1),
                 Buy, Some(BuyTrade(now, price, position, positionSize, balance, indicators)))
    else if sell && s.position > 0.0 then
      var exitNotional := s.position * price;
      var entryNotional := s.position * (if s.entryPrice.Some? then s.entryPrice.value else 0.0);
      var pnl := exitNotional - entryNotional;
      var balance := s.balance + exitNotional;
      StepResult(s.(balance := balance, pnlToday := s.pnlToday + pnl, tradesToday := s.tradesToday + 1,
                    position := 0.0, entryPrice := None),
                 Sell, Some(SellTrade(now, price, s.position, pnl, balance, indicators)))
    else StepResult(s, Hold, None)
  }

  /** `Number(snapshot.price || … || 0)`: a missing price reads as 0. */
  function TickPrice(snapshot: Simulation.UnifiedSnapshot): real
  {
    if snapshot.price.Some? then snapshot.price.value else 0.0
  }

  /** The early return for a stopped run or an unexpired cooldown. */
  predicate Skipped(s: LiveStatus, now: real)
  {
    !s.running || (s.cooldownMs != 0.0 && now < s.nextAllowedTs)
  }

  /** The daily stop, on `pnlToday` as it stood before the tick. */
  predicate DailyLossReached(s: LiveStatus)
  {
    s.pnlToday <= -Abs(s.maxDailyLoss)
  }

  /** A cycle that got past the price check and the daily stop: the strategy
      step, then the arbitrage attempt, then the bookkeeping, with the strategy
      trade logged after the arbitrage trade. It counts one cycle, clears the
      error, keeps the run and the cooldown, and keeps the position consistent. */
  function CompletedCycle(s: LiveStatus, cfg: ArbSettings, now: real, price: real,
                          indicators: StrategyExecutor.IndicatorMap, buy: bool, sell: bool,
                          scan: ArbitrageScanner.ScanResult): (r: LiveStatus)
    requires price != 0.0
    ensures r.cycles == s.cycles + 1 && r.lastError.None? && r.lastRun == Some(now)
    ensures r.running == s.running && r.nextAllowedTs == s.nextAllowedTs && r.cooldownMs == s.cooldownMs
    ensures PositionConsistent(s) ==> PositionConsistent(r)
  {
    var step := StrategyStep(s, price, buy, sell, indicators, now);
    var arb := ArbitrageStep(step.status, cfg, scan, now);
    arb.status.(lastRun := Some(now), lastAction := Acted(step.action), cycles := arb.status.cycles + 1,
                lastError := None,
                log := arb.status.log + (if step.trade.Some? then [step.trade.value] else []))
  }

  /** `runLiveCycle()` at time `now`. A tick never starts a run, never
      touches the cooldown fields (only a start sets them), and keeps the
      position consistent with the entry price. */
  function Tick(s: LiveStatus, cfg: ArbSettings, now: real, snapshot: Simulation.UnifiedSnapshot,
                buy: bool, sell: bool, scan: ArbitrageScanner.ScanResult): (r: LiveStatus)
    ensures r.running ==> s.running
    ensures r.nextAllowedTs == s.nextAllowedTs && r.cooldownMs == s.cooldownMs
    ensures PositionConsistent(s) ==> PositionConsistent(r)
  {
    if Skipped(s, now) then s
    else
      var price := TickPrice(snapshot);
      if price == 0.0 then s.(lastError := Some(PriceError), lastRun := Some(now), lastAction := Errored)
      else if DailyLossReached(s) then s.(running := false, lastAction := HaltedMaxDailyLoss)
      else CompletedCycle(s, cfg, now, price, Simulation.ServerIndicators(snapshot.rsi, snapshot.sentiment),
                          buy, sell, scan)
  }

  /** The body of `POST /api/live-start`; absent fields are `None`. */
  datatype StartRequest = StartRequest(intervalMs: Option<real>, startingCash: Option<real>,
                                       maxDailyLoss: Option<real>, maxPosition: Option<real>,
                                       cooldownMs: Option<real>)

  /** `given || fallback`: an absent or zero value falls back. */
  function OrElse(given: Option<real>, fallback: real): (r: real)
    ensures given.Some? && given.value != 0.0 ==> r == given.value
    ensures given.None? || given.value == 0.0 ==> r == fallback
  {
    if given.Some? && given.value != 0.0 then given.value else fallback
  }

  /** `given ?? fallback`: only an absent value falls back. */
  function Coalesce(given: Option<real>, fallback: real): (r: real)
    ensures given.Some? ==> r == given.value
    ensures given.None? ==> r == fallback
  {
    if given.Some? then given.value else fallback
  }

  datatype StartResult = StartResult(status: LiveStatus, ok: bool)

  /** `POST /api/live-start` at time `now`, less the timer. */
  function StartSpec(s: LiveStatus, req: StartRequest, now: real): StartResult
  {
    if s.running then StartResult(s, false)
    else
      var startingCash := OrElse(req.startingCash, s.startingCash);
      StartResult(s.(intervalMs := OrElse(req.intervalMs, s.intervalMs), startingCash := startingCash,
                     balance := startingCash, position := 0.0, entryPrice := None, lastAction := Idle,
                     lastError := None, lastRun := None, cycles := 0, tradesToday := 0, pnlToday := 0.0,
                     maxDailyLoss := Coalesce(req.maxDailyLoss, s.maxDailyLoss),
                     maxPosition := Coalesce(req.maxPosition, s.maxPosition),
                     cooldownMs := OrElse(req.cooldownMs, 0.0), nextAllowedTs := now, running := true),
                  true)
  }

  /** `POST /api/live-stop`, less the timer. */
  function StopSpec(s: LiveStatus): LiveStatus
  {
    s.(running := false, lastAction := Stopped)
  }

  /** The body of `POST /api/arbitrage-config`; absent fields are `None`,
      `enabled` is given as its truthiness. */
  datatype ArbUpdate = ArbUpdate(enabled: Option<bool>, symbol: Option<string>, quote: Option<string>,
                                 minNetSpreadPct: Option<real>, notional: Option<real>)

  /** The partial update: a symbol or quote counts only when non-empty and is
      upper-cased; the other fields count whenever present. */
  function UpdateSpec(c: ArbSettings, u: ArbUpdate): ArbSettings
  {
    ArbSettings(if u.enabled.Some? then u.enabled.value else c.enabled,
                if u.symbol.Some? && u.symbol.value != "" then Upper(u.symbol.value) else c.symbol,
                if u.quote.Some? && u.quote.value != "" then Upper(u.quote.value) else c.quote,
                if u.minNetSpreadPct.Some? then u.minNetSpreadPct.value else c.minNetSpreadPct,
                if u.notional.Some? then u.notional.value else c.notional)
  }

  /** The object `arbConfig`, updated field by field by its endpoint. */
  class ArbConfig {
    var enabled: bool
    var symbol: string
    var quote: string
    var minNetSpreadPct: real
    var notional: real

    function Settings(): ArbSettings
      reads this
    {
      ArbSettings(enabled, symbol, quote, minNetSpreadPct, notional)
    }

    constructor ()
      ensures Settings() == DefaultArbSettings
    {
      enabled, symbol, quote, minNetSpreadPct, notional := true, "BTC", "USDT", 0.25, 25.0;
    }

    method Update(u: ArbUpdate) returns (r: ArbSettings)
      modifies this
      ensures Settings() == UpdateSpec(old(Settings()), u) && r == Settings()
    {
      if u.enabled.Some? {
        enabled := u.enabled.value;
      }
      if u.symbol.Some? && u.symbol.value != "" {
        symbol := Upper(u.symbol.value);
      }
      if u.quote.Some? && u.quote.value != "" {
        quote := Upper(u.quote.value);
      }
      if u.minNetSpreadPct.Some? {
        minNetSpreadPct := u.minNetSpreadPct.value;
      }
      if u.notional.Some? {
        notional := u.notional.value;
      }
      r := Settings();
    }
  }

  /** The object `liveState`, with the trade log beside it. Its fields are
      kept together as one `LiveStatus` record, and each assignment to a field
      of `liveState` is an update of that record. */
  class LiveState {
    var status: LiveStatus

    constructor ()
      ensures status == InitialStatus
    {
      status := InitialStatus;
    }

    /** `appendLiveTrade` */
    method AppendLiveTrade(trade: LiveTrade)
      modifies this
      ensures status == old(status).(log := old(status).log + [trade])
    {
      status := status.(log := status.log + [trade]);
    }

    method MaybeExecuteArbitrage(config: ArbConfig, scan: ArbitrageScanner.ScanResult, now: real)
      returns (trade: Option<LiveTrade>)
      modifies this
      ensures ArbResult(status, trade) == ArbitrageStep(old(status), config.Settings(), scan, now)
    {
      ghost var s := status;
      if !config.enabled {
        return None;
      }
      var best := scan.best;
      if best.None? {
        return None;
      }
      var net := best.value.netPct;
      if net >= config.minNetSpreadPct {
        var notional := Min(config.notional, status.balance);
        if notional <= 0.0 {
          return None;
        }
        var gross := notional * (best.value.grossPct / 100.0);
        var feesCost := notional * (best.value.estFeesPct / 100.0);
        var pnl := gross - feesCost;
        status := status.(balance := status.balance + pnl);
        status := status.(pnlToday := status.pnlToday + pnl);
        var t := ArbitrageTrade(now, best.value.path, scan.symbol, scan.quote, best.value.buyPrice,
                                best.value.sellPrice, best.value.grossPct, best.value.estFeesPct,
                                best.value.netPct, notional, pnl, status.balance);
        AppendLiveTrade(t);
        status := status.(arbLast := Some(t));
        SameStatus(status, ArbitrageStep(s, config.Settings(), scan, now).status);
        return Some(t);
      }
      return None;
    }

    /** The buy branch of `runLiveCycle`. */
    method OpenPosition(price: real, positionSize: real, indicators: StrategyExecutor.IndicatorMap, now: real)
      returns (trade: LiveTrade)
      requires price != 0.0
      modifies this
      ensures status == old(status).(position := positionSize / price, entryPrice := Some(price),
                                     balance := old(status).balance - positionSize,
                                     tradesToday := old(status).tradesToday + 1)
      ensures trade == BuyTrade(now, price, positionSize / price, positionSize, status.balance, indicators)
    {
      status := status.(position := positionSize / price, entryPrice := Some(price));
      status := status.(balance := status.balance - positionSize, tradesToday := status.tradesToday + 1);
      trade := BuyTrade(now, price, status.position, positionSize, status.balance, indicators);
    }

    /** The sell branch of `runLiveCycle`. */
    method ClosePosition(price: real, indicators: StrategyExecutor.IndicatorMap, now: real)
      returns (trade: LiveTrade)
      modifies this
      ensures var exitNotional := old(status).position * price;
              var pnl := exitNotional - old(status).position * (if old(status).entryPrice.Some? then old(status).entryPrice.value else 0.0);
              && status == old(status).(balance := old(status).balance + exitNotional,
                                        pnlToday := old(status).pnlToday + pnl,
                                        tradesToday := old(status).tradesToday + 1,
                                        position := 0.0, entryPrice := None)
              && trade == SellTrade(now, price, old(status).position, pnl, status.balance, indicators)
    {
      var exitNotional := status.position * price;
      var entryNotional := status.position * (if status.entryPrice.Some? then status.entryPrice.value else 0.0);
      var pnl := exitNotional - entryNotional;
      status := status.(balance := status.balance + exitNotional, pnlToday := status.pnlToday + pnl);
      status := status.(tradesToday := status.tradesToday + 1);
      trade := SellTrade(now, price, status.position, pnl, status.balance, indicators);
      status := status.(position := 0.0, entryPrice := None);
    }

    /** The buy/sell choice of `runLiveCycle` at a checked price. */
    method ApplyStrategy(price: real, buy: bool, sell: bool, indicators: StrategyExecutor.IndicatorMap, now: real)
      returns (action: Action, trade: Option<LiveTrade>)
      requires price != 0.0
      modifies this
      ensures StepResult(status, action, trade) == StrategyStep(old(status), price, buy, sell, indicators, now)
    {
      action := Hold;
      trade := None;
      var positionSize := Min(status.balance, status.maxPosition);
      if buy && status.position == 0.0 && positionSize > 0.0 {
        var t := OpenPosition(price, positionSize, indicators, now);
        action, trade := Buy, Some(t);
      } else if sell && status.position > 0.0 {
        var t := ClosePosition(price, indicators, now);
        action, trade := Sell, Some(t);
      }
    }

    method RunLiveCycle(config: ArbConfig, now: real, snapshot: Simulation.UnifiedSnapshot,
                        buy: bool, sell: bool, scan: ArbitrageScanner.ScanResult)
      modifies this
      ensures status == Tick(old(status), config.Settings(), now, snapshot, buy, sell, scan)
    {
      if !status.running {
        return;
      }
      if status.cooldownMs != 0.0 && now < status.nextAllowedTs {
        return;
      }
      var indicators := Simulation.ServerIndicators(snapshot.rsi, snapshot.sentiment);
      var price := if snapshot.price.Some? then snapshot.price.value else 0.0;
      if price == 0.0 {
        status := status.(lastError := Some(PriceError), lastRun := Some(now), lastAction := Errored);
        return;
      }
      if status.pnlToday <= -Abs(status.maxDailyLoss) {
        status := status.(running := false, lastAction := HaltedMaxDailyLoss);
        return;
      }
      var action, trade := ApplyStrategy(price, buy, sell, indicators, now);
      var arbTrade := MaybeExecuteArbitrage(config, scan, now);
      FinishCycle(now, action, trade);
    }

    /** The bookkeeping that closes a completed cycle. */
    method FinishCycle(now: real, action: Action, trade: Option<LiveTrade>)
      modifies this
      ensures status == old(status).(lastRun := Some(now), lastAction := Acted(action), cycles := old(status).cycles + 1,
                                     lastError := None,
                                     log := old(status).log + (if trade.Some? then [trade.value] else []))
    {
      status := status.(lastRun := Some(now), lastAction := Acted(action), cycles := status.cycles + 1,
                        lastError := None);
      if trade.Some? {
        AppendLiveTrade(trade.value);
      }
    }

    method Start(req: StartRequest, now: real) returns (ok: bool)
      modifies this
      ensures StartResult(status, ok) == StartSpec(old(status), req, now)
    {
      if status.running {
        return false;
      }
      status := status.(intervalMs := OrElse(req.intervalMs, status.intervalMs));
      status := status.(startingCash := OrElse(req.startingCash, status.startingCash));
      status := status.(balance := status.startingCash, position := 0.0, entryPrice := None, lastAction := Idle,
                        lastError := None, lastRun := None, cycles := 0, tradesToday := 0, pnlToday := 0.0);
      status := status.(maxDailyLoss := Coalesce(req.maxDailyLoss, status.maxDailyLoss),
                        maxPosition := Coalesce(req.maxPosition, status.maxPosition));
      status := status.(cooldownMs := OrElse(req.cooldownMs, 0.0), nextAllowedTs := now, running := true);
      return true;
    }

    method Stop()
      modifies this
      ensures status == StopSpec(old(status))
    {
      status := status.(running := false, lastAction := Stopped);
    }
  }

  // Properties of the transitions.

  /** A stopped run, or a tick inside the cooldown, changes nothing. */
  lemma SkippedTickChangesNothing(s: LiveStatus, cfg: ArbSettings, now: real, snapshot: Simulation.UnifiedSnapshot,
                                  buy: bool, sell: bool, scan: ArbitrageScanner.ScanResult)
    requires !s.running || (s.cooldownMs != 0.0 && now < s.nextAllowedTs)
    ensures Tick(s, cfg, now, snapshot, buy, sell, scan) == s
  {
  }

  /** A missing or zero price records the error and nothing else: the run,
      the money, the position, the counters and the log stay, and the daily
      stop is not consulted. */
  lemma MissingPriceIsAnError(s: LiveStatus, cfg: ArbSettings, now: real, snapshot: Simulation.UnifiedSnapshot,
                              buy: bool, sell: bool, scan: ArbitrageScanner.ScanResult)
    requires !Skipped(s, now)
    requires snapshot.price.None? || snapshot.price == Some(0.0)
    ensures var t := Tick(s, cfg, now, snapshot, buy, sell, scan);
            && t.lastError == Some(PriceError) && t.lastAction == Errored && t.lastRun == Some(now)
            && t.running && t.balance == s.balance && t.position == s.position && t.entryPrice == s.entryPrice
            && t.cycles == s.cycles && t.tradesToday == s.tradesToday && t.pnlToday == s.pnlToday
            && t.log == s.log
  {
  }

  /** At the daily loss limit the tick halts the run with no trade, no
      arbitrage and no cycle counted. */
  lemma DailyLossHalts(s: LiveStatus, cfg: ArbSettings, now: real, snapshot: Simulation.UnifiedSnapshot,
                       buy: bool, sell: bool, scan: ArbitrageScanner.ScanResult)
    requires !Skipped(s, now) && TickPrice(snapshot) != 0.0
    requires s.pnlToday <= -Abs(s.maxDailyLoss)
    ensures var t := Tick(s, cfg, now, snapshot, buy, sell, scan);
            && !t.running && t.lastAction == HaltedMaxDailyLoss
            && t.balance == s.balance && t.position == s.position && t.cycles == s.cycles
            && t.tradesToday == s.tradesToday && t.log == s.log && t.arbLast == s.arbLast
  {
  }

  /** A buy happens exactly when the buy condition holds, the account is flat
      and the position size is positive; a sell exactly when no buy happens,
      the sell condition holds and a position is open. */
  lemma StrategyActionChoice(s: LiveStatus, price: real, buy: bool, sell: bool,
                             indicators: StrategyExecutor.IndicatorMap, now: real)
    requires price != 0.0
    ensures var r := StrategyStep(s, price, buy, sell, indicators, now);
            && (r.action == Buy <==> buy && s.position == 0.0 && PositionSize(s) > 0.0)
            && (r.action == Sell <==> !(buy && s.position == 0.0 && PositionSize(s) > 0.0) && sell && s.position > 0.0)
            && (r.trade.None? <==> r.action == Hold)
            && (r.action == Hold ==> r.status == s)
            && r.status.tradesToday == s.tradesToday + (if r.action == Hold then 0 else 1)
  {
  }

  lemma QuotientTimesDivisor(a: real, p: real)
    requires p != 0.0
    ensures a / p * p == a
  {
  }

  /** A buy spends exactly the position size and buys that much at the price. */
  lemma BuySpendsPositionSize(s: LiveStatus, price: real, sell: bool, indicators: StrategyExecutor.IndicatorMap, now: real)
    requires price != 0.0 && s.position == 0.0 && PositionSize(s) > 0.0
    ensures var r := StrategyStep(s, price, true, sell, indicators, now);
            && r.status.balance == s.balance - PositionSize(s)
            && r.status.position * price == PositionSize(s)
            && r.status.position != 0.0
            && r.status.entryPrice == Some(price)
            && r.status.pnlToday == s.pnlToday
            && PositionSize(s) <= s.maxPosition && r.status.balance >= 0.0
  {
    QuotientTimesDivisor(PositionSize(s), price);
  }

  /** A sell is paid the position at the price, books the difference to the
      entry as today's profit and leaves the account flat. */
  lemma SellClosesPosition(s: LiveStatus, price: real, indicators: StrategyExecutor.IndicatorMap, now: real)
    requires price != 0.0 && s.position > 0.0 && s.entryPrice.Some?
    ensures var r := StrategyStep(s, price, false, true, indicators, now);
            && r.status.balance == s.balance + s.position * price
            && r.status.pnlToday == s.pnlToday + s.position * (price - s.entryPrice.value)
            && r.status.position == 0.0 && r.status.entryPrice.None?
  {
  }

  /** The arbitrage attempt moves balance and today's profit by the same
      amount, leaves the position alone and logs one trade. With an unrounded
      opportunity that amount is the net spread on the notional. */
  lemma ArbitrageEffect(s: LiveStatus, cfg: ArbSettings, scan: ArbitrageScanner.ScanResult, now: real)
    requires ArbitrageFires(s, cfg, scan)
    ensures var r := ArbitrageStep(s, cfg, scan, now);
            var pnl := ArbPnl(ArbNotional(s, cfg), scan.best.value);
            && r.status.balance == s.balance + pnl
            && r.status.pnlToday == s.pnlToday + pnl
            && r.status.position == s.position && r.status.entryPrice == s.entryPrice
            && r.status.tradesToday == s.tradesToday && r.status.cycles == s.cycles
            && r.status.log == s.log + [r.trade.value] && r.status.arbLast == r.trade
            && r.trade.value.ArbitrageTrade? && r.trade.value.balance == r.status.balance
            && 0.0 < ArbNotional(s, cfg) <= cfg.notional
    ensures scan.best.value.netPct == scan.best.value.grossPct - scan.best.value.estFeesPct ==>
              ArbPnl(ArbNotional(s, cfg), scan.best.value) == ArbNotional(s, cfg) * scan.best.value.netPct / 100.0
  {
  }

  /** The account is flat exactly when no entry price is recorded, and an open
      position is worth a positive amount at its entry price. */
  predicate PositionConsistent(s: LiveStatus)
  {
    (s.position == 0.0 <==> s.entryPrice.None?)
    && (s.entryPrice.Some? ==> s.position * s.entryPrice.value > 0.0)
  }

  function CountStrategyTrades(log: seq<LiveTrade>): nat
    decreases |log|
  {
    if log == [] then 0
    else CountStrategyTrades(log[..|log| - 1]) + (if log[|log| - 1].ArbitrageTrade? then 0 else 1)
  }

  lemma {:induction false} CountStrategyTradesOfConcat(a: seq<LiveTrade>, b: seq<LiveTrade>)
    ensures CountStrategyTrades(a + b) == CountStrategyTrades(a) + CountStrategyTrades(b)
    decreases |b|
  {
    if b == [] {
      assert a + b == a;
    } else {
      CountStrategyTradesOfConcat(a, b[..|b| - 1]);
      assert (a + b)[..|a + b| - 1] == a + b[..|b| - 1];
    }
  }

  /** The strategy step counts its own trade, and that trade is a strategy
      trade. */
  lemma StrategyStepBookkeeping(s: LiveStatus, price: real, buy: bool, sell: bool,
                                indicators: StrategyExecutor.IndicatorMap, now: real)
    requires price != 0.0
    ensures var r := StrategyStep(s, price, buy, sell, indicators, now);
            r.status.tradesToday == s.tradesToday + CountStrategyTrades(if r.trade.Some? then [r.trade.value] else [])
  {
    var r := StrategyStep(s, price, buy, sell, indicators, now);
    if r.trade.Some? {
      assert [r.trade.value][..0] == [];
    }
  }

  /** The arbitrage step appends its own trade, an arbitrage trade, and no
      other. */
  lemma ArbitrageStepBookkeeping(s: LiveStatus, cfg: ArbSettings, scan: ArbitrageScanner.ScanResult, now: real)
    ensures var r := ArbitrageStep(s, cfg, scan, now);
            && r.status.log == s.log + (if r.trade.Some? then [r.trade.value] else [])
            && CountStrategyTrades(if r.trade.Some? then [r.trade.value] else []) == 0
            && r.status.tradesToday == s.tradesToday
  {
    var r := ArbitrageStep(s, cfg, scan, now);
    if r.trade.Some? {
      assert [r.trade.value][..0] == [];
    } else {
      assert s.log + [] == s.log;
    }
  }

  /** A completed cycle logs at most the arbitrage trade and then the strategy
      trade, and counts the strategy trade. */
  lemma CompletedCycleAppends(s: LiveStatus, cfg: ArbSettings, now: real, price: real,
                              indicators: StrategyExecutor.IndicatorMap, buy: bool, sell: bool,
                              scan: ArbitrageScanner.ScanResult)
    requires price != 0.0
    ensures var step := StrategyStep(s, price, buy, sell, indicators, now);
            var arb := ArbitrageStep(step.status, cfg, scan, now);
            var added := (if arb.trade.Some? then [arb.trade.value] else [])
                         + (if step.trade.Some? then [step.trade.value] else []);
            var t := CompletedCycle(s, cfg, now, price, indicators, buy, sell, scan);
            && t.log == s.log + added
            && t.tradesToday == s.tradesToday + CountStrategyTrades(added)
            && (|added| == 2 ==> added[0].ArbitrageTrade? && !added[1].ArbitrageTrade?)
  {
    var step := StrategyStep(s, price, buy, sell, indicators, now);
    var arb := ArbitrageStep(step.status, cfg, scan, now);
    StrategyStepBookkeeping(s, price, buy, sell, indicators, now);
    ArbitrageStepBookkeeping(step.status, cfg, scan, now);
    var arbPart := if arb.trade.Some? then [arb.trade.value] else [];
    var stepPart := if step.trade.Some? then [step.trade.value] else [];
    assert s.log + arbPart + stepPart == s.log + (arbPart + stepPart);
    CountStrategyTradesOfConcat(arbPart, stepPart);
  }

  /** A tick only appends to the log: at most the arbitrage trade and then the
      strategy trade, and `tradesToday` grows by the strategy trades it
      appended. */
  lemma TickAppendsToLog(s: LiveStatus, cfg: ArbSettings, now: real, snapshot: Simulation.UnifiedSnapshot,
                         buy: bool, sell: bool, scan: ArbitrageScanner.ScanResult)
    ensures var t := Tick(s, cfg, now, snapshot, buy, sell, scan);
            && s.log <= t.log && |t.log| <= |s.log| + 2
            && t.tradesToday == s.tradesToday + CountStrategyTrades(t.log[|s.log|..])
            && (|t.log| == |s.log| + 2 ==> t.log[|s.log|].ArbitrageTrade? && !t.log[|s.log| + 1].ArbitrageTrade?)
  {
    var t := Tick(s, cfg, now, snapshot, buy, sell, scan);
    if !Skipped(s, now) && TickPrice(snapshot) != 0.0 && !DailyLossReached(s) {
      var indicators := Simulation.ServerIndicators(snapshot.rsi, snapshot.sentiment);
      CompletedCycleAppends(s, cfg, now, TickPrice(snapshot), indicators, buy, sell, scan);
      var step := StrategyStep(s, TickPrice(snapshot), buy, sell, indicators, now);
      var arb := ArbitrageStep(step.status, cfg, scan, now);
      var added := (if arb.trade.Some? then [arb.trade.value] else [])
                   + (if step.trade.Some? then [step.trade.value] else []);
      assert t.log[|s.log|..] == added;
    } else {
      assert t.log[|s.log|..] == [];
    }
  }

  /** Start is refused while running and changes nothing. */
  lemma StartRefusedWhileRunning(s: LiveStatus, req: StartRequest, now: real)
    requires s.running
    ensures StartSpec(s, req, now) == StartResult(s, false)
  {
  }

  /** Otherwise it resets the account to the starting cash, flat, with fresh
      counters, and runs; `||` fields treat 0 as absent, `??` fields do not. */
  lemma StartResets(s: LiveStatus, req: StartRequest, now: real)
    requires !s.running
    ensures var r := StartSpec(s, req, now);
            && r.ok && r.status.running
            && r.status.balance == r.status.startingCash
            && (req.startingCash == Some(0.0) ==> r.status.startingCash == s.startingCash)
            && (req.maxDailyLoss == Some(0.0) ==> r.status.maxDailyLoss == 0.0)
            && r.status.position == 0.0 && r.status.entryPrice.None?
            && r.status.cycles == 0 && r.status.tradesToday == 0 && r.status.pnlToday == 0.0
            && r.status.lastAction == Idle && r.status.lastError.None? && r.status.lastRun.None?
            && r.status.nextAllowedTs == now && r.status.log == s.log
            && PositionConsistent(r.status)
  {
  }

  /** Stop always ends the run, and stopping twice is stopping once. */
  lemma StopIsIdempotent(s: LiveStatus)
    ensures !StopSpec(s).running && StopSpec(s).lastAction == Stopped
    ensures StopSpec(StopSpec(s)) == StopSpec(s)
    ensures StopSpec(s).balance == s.balance && StopSpec(s).position == s.position && StopSpec(s).log == s.log
  {
  }

  /** A timer tick's inputs. */
  datatype TickInput = TickInput(now: real, snapshot: Simulation.UnifiedSnapshot, buy: bool, sell: bool,
                                 scan: ArbitrageScanner.ScanResult)

  /** A run of ticks under a fixed configuration. Over any run the log only
      grows, by at most two entries a tick; the position stays consistent; and
      the cooldown fields stay where the last start put them. */
  function RunTicks(s: LiveStatus, cfg: ArbSettings, inputs: seq<TickInput>): (r: LiveStatus)
    ensures s.log <= r.log && |r.log| <= |s.log| + 2 * |inputs|
    ensures r.running ==> s.running
    ensures r.nextAllowedTs == s.nextAllowedTs && r.cooldownMs == s.cooldownMs
    ensures PositionConsistent(s) ==> PositionConsistent(r)
    decreases |inputs|
  {
    if inputs == [] then s
    else
      var i := inputs[|inputs| - 1];
      var mid := RunTicks(s, cfg, inputs[..|inputs| - 1]);
      TickAppendsToLog(mid, cfg, i.now, i.snapshot, i.buy, i.sell, i.scan);
      Tick(mid, cfg, i.now, i.snapshot, i.buy, i.sell, i.scan)
  }

  /** Once the run is stopped or halted, no tick changes anything until the
      next start. */
  lemma {:induction false} HaltIsSticky(s: LiveStatus, cfg: ArbSettings, inputs: seq<TickInput>)
    requires !s.running
    ensures RunTicks(s, cfg, inputs) == s
    decreases |inputs|
  {
    if inputs != [] {
      HaltIsSticky(s, cfg, inputs[..|inputs| - 1]);
    }
  }

  /** Since only a start sets `nextAllowedTs`, to the start time, the cooldown
      never holds a tick back once the clock has reached that time. */
  lemma CooldownNeverBlocks(s: LiveStatus, req: StartRequest, start: real, cfg: ArbSettings,
                            inputs: seq<TickInput>, now: real)
    requires !s.running && PositionConsistent(s)
    requires now >= start
    ensures var r := RunTicks(StartSpec(s, req, start).status, cfg, inputs);
            r.running ==> !Skipped(r, now)
  {
    StartResets(s, req, start);
  }

  /** Starting from the initial state with the defaults, buying at 100 and
      selling at 110 with arbitrage off ends flat at 55 with 5 booked. */
  lemma RoundTripScenario(buyAt: TickInput, sellAt: TickInput)
    requires buyAt.snapshot.price == Some(100.0) && buyAt.buy && buyAt.now >= 0.0
    requires sellAt.snapshot.price == Some(110.0) && !sellAt.buy && sellAt.sell
    ensures var started := StartSpec(InitialStatus, StartRequest(None, None, None, None, None), 0.0).status;
            var cfg := DefaultArbSettings.(enabled := false);
            var after := RunTicks(started, cfg, [buyAt, sellAt]);
            after.balance == 55.0 && after.pnlToday == 5.0 && after.position == 0.0
            && after.cycles == 2 && after.tradesToday == 2 && |after.log| == 2
  {
    var started := StartSpec(InitialStatus, StartRequest(None, None, None, None, None), 0.0).status;
    var cfg := DefaultArbSettings.(enabled := false);
    assert [buyAt, sellAt][..1] == [buyAt];
    assert [buyAt][..0] == [];
    assert RunTicks(started, cfg, [buyAt][..0]) == started;
    var mid := RunTicks(started, cfg, [buyAt]);
    assert mid == Tick(started, cfg, buyAt.now, buyAt.snapshot, buyAt.buy, buyAt.sell, buyAt.scan);
    assert mid.position == 0.5 && mid.balance == 0.0 && mid.entryPrice == Some(100.0);
  }

  /** Updating the configuration with nothing changes nothing, and applying
      the same update twice is applying it once. */
  lemma UpdateIsIdempotent(c: ArbSettings, u: ArbUpdate)
    ensures UpdateSpec(c, ArbUpdate(None, None, None, None, None)) == c
    ensures UpdateSpec(UpdateSpec(c, u), u) == UpdateSpec(c, u)
    ensures u.symbol.Some? && u.symbol.value != "" ==> NoLowerLetters(UpdateSpec(c, u).symbol)
    ensures u.quote.Some? && u.quote.value != "" ==> NoLowerLetters(UpdateSpec(c, u).quote)
  {
    if u.symbol.Some? && u.symbol.value != "" {
      UpperIsIdempotent(u.symbol.value);
    }
    if u.quote.Some? && u.quote.value != "" {
      UpperIsIdempotent(u.quote.value);
    }
  }
}
