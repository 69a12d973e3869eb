/** The candle-based Relative Strength Index of backend/services/indicators.js:
    a simple (not Wilder-smoothed) average of the up- and down-moves of the
    closing price over the first `period` moves of the window. */
module Indicators {
  import opened Common

  /** One candle of market data; the indicator reads only `close`. */
  datatype Candle = Candle(openTime: real, open: real, high: real, low: real,
                           close: real, volume: real, closeTime: real)

  /** The period every caller in the system passes. */
  const DefaultPeriod: nat := 14

  /** Move of the closing price from candle i-1 to candle i. */
  function Delta(candles: seq<Candle>, i: nat): real
    requires 0 < i < |candles|
  {
    candles[i].close - candles[i - 1].close
  }

  /** A non-negative move counts as a gain here (a zero move adds 0). */
  function Gain(delta: real): real { if delta >= 0.0 then delta else 0.0 }

  function Loss(delta: real): real { if delta >= 0.0 then 0.0 else -delta }

  /** The `gains` accumulator after the first k moves. */
  function Gains(candles: seq<Candle>, k: nat): real
    requires k < |candles|
  {
    if k == 0 then 0.0 else Gains(candles, k - 1) + Gain(Delta(candles, k))
  }

  /** The `losses` accumulator after the first k moves. */
  function Losses(candles: seq<Candle>, k: nat): real
    requires k < |candles|
  {
    if k == 0 then 0.0 else Losses(candles, k - 1) + Loss(Delta(candles, k))
  }

  /** The closed-form tail shared by both RSI copies, before `toFixed(2)`.
      The averages divide by the period, whatever its sign, so only their
      ratio matters. */
  function RsiFromSums(gains: real, losses: real, period: real): (r: real)
    requires period != 0.0 && gains >= 0.0 && losses >= 0.0
    ensures 0.0 <= r <= 100.0
    ensures losses == 0.0 ==> r == 100.0
    ensures losses > 0.0 ==> r == 100.0 * gains / (gains + losses)
    ensures losses > 0.0 ==> r < 100.0 && (r == 0.0 <==> gains == 0.0)
  {
    var avgGain := gains / period;
    var avgLoss := losses / period;
    if avgLoss == 0.0 then 100.0
    else
      RsiAlgebra(gains, losses, period);
      var rs := avgGain / avgLoss;
      100.0 - 100.0 / (1.0 + rs)
  }

  lemma DivByProduct(x: real, y: real, z: real)
    requires z != 0.0 && x * z == y
    ensures x == y / z
  {
    assert (y / z) * z == y;
    assert (x - y / z) * z == 0.0;
  }

  lemma CancelFactor(x: real, y: real, z: real)
    requires z != 0.0 && x * z == y * z
    ensures x == y
  {
    assert (x - y) * z == 0.0;
  }

  lemma ReciprocalStep(q: real, a: real, l: real, t: real)
    requires l != 0.0 && a * l == t && q * t == 100.0 * l
    ensures q * a == 100.0
  {
    assert (q * a) * l == q * (a * l);
    CancelFactor(q * a, 100.0, l);
  }

  lemma ComplementStep(q: real, w: real, g: real, l: real, t: real)
    requires t != 0.0 && t == g + l && q * t == 100.0 * l && w * t == 100.0 * g
    ensures q + w == 100.0
  {
    assert (q + w) * t == q * t + w * t;
    CancelFactor(q + w, 100.0, t);
  }

  lemma RsiAlgebra(gains: real, losses: real, p: real)
    requires p != 0.0 && gains >= 0.0 && losses > 0.0
    ensures (gains / p) / (losses / p) == gains / losses
    ensures 100.0 - 100.0 / (1.0 + gains / losses) == 100.0 * gains / (gains + losses)
    ensures 0.0 <= 100.0 * gains / (gains + losses) < 100.0
    ensures 100.0 * gains / (gains + losses) == 0.0 <==> gains == 0.0
  {
    var rs := gains / losses;
    var t := gains + losses;
    DivByProduct(gains / losses, gains / p, losses / p);
    assert rs * losses == gains;
    var a := 1.0 + rs;
    assert a * losses == t;
    var q := 100.0 * losses / t;
    assert q * t == 100.0 * losses;
    ReciprocalStep(q, a, losses, t);
    DivByProduct(q, 100.0, a);
    var w := 100.0 * gains / t;
    assert w * t == 100.0 * gains;
    ComplementStep(q, w, gains, losses, t);
    assert w * t < 100.0 * t;
  }

  /** `calculateRSI(candles, period)` with the rounding left out; `None` is `null`. */
  function Rsi(candles: seq<Candle>, period: nat): (r: Option<real>)
    requires period > 0
    ensures r.None? <==> |candles| < period + 1
    ensures r.Some? ==> 0.0 <= r.value <= 100.0
  {
    if |candles| < period + 1 then None
    else
      GainsLossesNonNegative(candles, period);
      Some(RsiFromSums(Gains(candles, period), Losses(candles, period), period as real))
  }

  /** The source's loop: two accumulators over the moves 1..period. */
  method CalculateRsi(candles: seq<Candle>, period: nat) returns (r: Option<real>)
    requires period > 0
    ensures r == Rsi(candles, period)
  {
    if |candles| < period + 1 {
      return None;
    }
    var gains, losses := 0.0, 0.0;
    for i := 1 to period + 1
      invariant gains == Gains(candles, i - 1)
      invariant losses == Losses(candles, i - 1)
    {
      var delta := candles[i].close - candles[i - 1].close;
      if delta >= 0.0 {
        gains := gains + delta;
      } else {
        losses := losses - delta;
      }
    }
    GainsLossesNonNegative(candles, period);
    var avgGain := gains / period as real;
    var avgLoss := losses / period as real;
    if avgLoss == 0.0 {
      return Some(100.0);
    }
    RsiAlgebra(gains, losses, period as real);
    var rs := avgGain / avgLoss;
    r := Some(100.0 - 100.0 / (1.0 + rs));
  }

  lemma {:induction false} GainsLossesNonNegative(candles: seq<Candle>, k: nat)
    requires k < |candles|
    ensures Gains(candles, k) >= 0.0 && Losses(candles, k) >= 0.0
  {
    if k > 0 {
      GainsLossesNonNegative(candles, k - 1);
    }
  }

  /** The moves telescope: what was gained minus what was lost is the net move. */
  lemma {:induction false} Telescoping(candles: seq<Candle>, k: nat)
    requires k < |candles|
    ensures Gains(candles, k) - Losses(candles, k) == candles[k].close - candles[0].close
  {
    if k > 0 {
      Telescoping(candles, k - 1);
    }
  }

  lemma {:induction false} SumsReadOnlyWindow(a: seq<Candle>, b: seq<Candle>, k: nat)
    requires k < |a| && k < |b|
    requires forall i :: 0 <= i <= k ==> a[i].close == b[i].close
    ensures Gains(a, k) == Gains(b, k) && Losses(a, k) == Losses(b, k)
  {
    if k > 0 {
      SumsReadOnlyWindow(a, b, k - 1);
    }
  }

  /** Only the closes of candles 0..period are read. */
  lemma RsiReadsOnlyWindow(a: seq<Candle>, b: seq<Candle>, period: nat)
    requires period > 0
    requires |a| >= period + 1 && |b| >= period + 1
    requires forall i :: 0 <= i <= period ==> a[i].close == b[i].close
    ensures Rsi(a, period) == Rsi(b, period)
  {
    SumsReadOnlyWindow(a, b, period);
  }

  /** Appending later candles never changes the result. */
  lemma RsiIgnoresLaterCandles(candles: seq<Candle>, later: seq<Candle>, period: nat)
    requires period > 0 && |candles| >= period + 1
    ensures Rsi(candles + later, period) == Rsi(candles, period)
  {
    RsiReadsOnlyWindow(candles + later, candles, period);
  }

  lemma {:induction false} NoDownMoveNoLoss(candles: seq<Candle>, k: nat)
    requires k < |candles|
    requires forall i :: 0 < i <= k ==> candles[i - 1].close <= candles[i].close
    ensures Losses(candles, k) == 0.0
  {
    if k > 0 {
      NoDownMoveNoLoss(candles, k - 1);
    }
  }

  /** Constant or rising closes (no down-move in the window) give exactly 100. */
  lemma RsiOfNonDecreasingCloses(candles: seq<Candle>, period: nat)
    requires period > 0 && |candles| >= period + 1
    requires forall i :: 0 < i <= period ==> candles[i - 1].close <= candles[i].close
    ensures Rsi(candles, period) == Some(100.0)
  {
    NoDownMoveNoLoss(candles, period);
  }

  lemma {:induction false} NoUpMoveNoGain(candles: seq<Candle>, k: nat)
    requires k < |candles|
    requires forall i :: 0 < i <= k ==> candles[i].close <= candles[i - 1].close
    ensures Gains(candles, k) == 0.0
  {
    if k > 0 {
      NoUpMoveNoGain(candles, k - 1);
    }
  }

  lemma {:induction false} LossesCoverEachMove(candles: seq<Candle>, k: nat, j: nat)
    requires 0 < j <= k < |candles|
    ensures Losses(candles, k) >= Loss(Delta(candles, j))
  {
    GainsLossesNonNegative(candles, k - 1);
    if j < k {
      LossesCoverEachMove(candles, k - 1, j);
    }
  }

  /** With at least one down-move and no up-move the value is 0. */
  lemma RsiOfFallingCloses(candles: seq<Candle>, period: nat, j: nat)
    requires period > 0 && |candles| >= period + 1
    requires forall i :: 0 < i <= period ==> candles[i].close <= candles[i - 1].close
    requires 0 < j <= period && candles[j].close < candles[j - 1].close
    ensures Rsi(candles, period) == Some(0.0)
  {
    NoUpMoveNoGain(candles, period);
    LossesCoverEachMove(candles, period, j);
  }

  /** Outside the zero-loss branch the value is strictly below 100, and it is 0
      exactly when nothing was gained. */
  lemma RsiBelowHundredWithLosses(candles: seq<Candle>, period: nat)
    requires period > 0 && |candles| >= period + 1
    requires Losses(candles, period) > 0.0
    ensures Rsi(candles, period).Some?
    ensures 0.0 <= Rsi(candles, period).value < 100.0
    ensures Rsi(candles, period).value == 0.0 <==> Gains(candles, period) == 0.0
  {
    GainsLossesNonNegative(candles, period);
  }

  /** Fifteen closes rising by one with period 14 give 100. */
  lemma RsiOfStairs(candles: seq<Candle>)
    requires |candles| == 15
    requires forall i :: 0 <= i < 15 ==> candles[i].close == candles[0].close + i as real
    ensures Rsi(candles, DefaultPeriod) == Some(100.0)
  {
    RsiOfNonDecreasingCloses(candles, DefaultPeriod);
  }
}
