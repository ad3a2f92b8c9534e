/**
 * The pure decision rules of strategy.py (class BiTimeframeStrategy): the
 * entry signal, the position size and the exit test. Prices are reals.
 */
module Strategy {
  import opened Utils

  datatype Option<T> = None | Some(value: T)

  /** Reward-to-risk multiple and fraction of the initial capital risked per trade (configuration.py). */
  const RR_RATIO: real := 1.5
  const RISK_PER_TRADE: real := 0.001

  /** Trade direction; the source carries it as the string "BUY" or "SELL". */
  datatype Dir = BUY | SELL {
    function Name(): string {
      match this
      case BUY => "BUY"
      case SELL => "SELL"
    }
  }

  /** Why a position was closed: its stop-loss or its take-profit was reached. */
  datatype Reason = SL | TP

  /**
   * One row of the merged indicator frame: the fast-timeframe candle plus the
   * forward-filled slow-timeframe close and its moving average.
   */
  datatype Bar = Bar(time: int, open: real, high: real, low: real, close: real, slowClose: real, slowEma: real)

  /** An entry decision: direction, stop-loss and take-profit. */
  datatype Signal = Signal(dir: Dir, sl: real, tp: real)

  function Abs(x: real): real { if x < 0.0 then -x else x }

  /** The two most recently closed bars of a window and the bar now forming. */
  function Previous(bars: seq<Bar>): Bar requires |bars| >= 3 { bars[|bars| - 3] }
  function Current(bars: seq<Bar>): Bar requires |bars| >= 3 { bars[|bars| - 2] }
  function Forming(bars: seq<Bar>): Bar requires |bars| >= 3 { bars[|bars| - 1] }

  /** The slow-timeframe trend, read from the last closed bar. */
  predicate TrendBullish(b: Bar) { b.slowClose > b.slowEma }
  predicate TrendBearish(b: Bar) { b.slowClose < b.slowEma }

  /** The engulfing pattern formed by the two most recently closed bars. */
  predicate BullishPattern(bars: seq<Bar>) requires |bars| >= 3 {
    CheckEngulfing(Current(bars).open, Current(bars).close, Previous(bars).open, Previous(bars).close, BULLISH)
  }
  predicate BearishPattern(bars: seq<Bar>) requires |bars| >= 3 {
    CheckEngulfing(Current(bars).open, Current(bars).close, Previous(bars).open, Previous(bars).close, BEARISH)
  }

  /**
   * The entry signal for a window of bars known so far. A BUY needs a bullish
   * trend and a bullish engulfing, its stop is the last closed bar's low and
   * its target lies RR_RATIO times the risk above the forming bar's open; a
   * SELL is the mirror image. A setup whose stop is not strictly on the losing
   * side of that open, a flat trend, or fewer than three bars give no signal.
   */
  function GetSignal(bars: seq<Bar>): (r: Option<Signal>)
    ensures |bars| < 3 ==> r == None
    ensures r.Some? && r.value.dir == BUY ==>
      |bars| >= 3 && TrendBullish(Current(bars)) && BullishPattern(bars)
      && r.value.sl == Current(bars).low
      && r.value.tp - Forming(bars).open == RR_RATIO * (Forming(bars).open - r.value.sl)
      && r.value.sl < Forming(bars).open < r.value.tp
    ensures r.Some? && r.value.dir == SELL ==>
      |bars| >= 3 && TrendBearish(Current(bars)) && BearishPattern(bars)
      && r.value.sl == Current(bars).high
      && Forming(bars).open - r.value.tp == RR_RATIO * (r.value.sl - Forming(bars).open)
      && r.value.tp < Forming(bars).open < r.value.sl
    ensures (|bars| >= 3 && TrendBullish(Current(bars)) && BullishPattern(bars)
             && Current(bars).low < Forming(bars).open) ==> r.Some? && r.value.dir == BUY
    ensures (|bars| >= 3 && TrendBearish(Current(bars)) && BearishPattern(bars)
             && Current(bars).high > Forming(bars).open) ==> r.Some? && r.value.dir == SELL
  {
    if |bars| < 3 then None
    else
      var prev, curr, next := Previous(bars), Current(bars), Forming(bars);
      var trendBullish := curr.slowClose > curr.slowEma;
      var trendBearish := curr.slowClose < curr.slowEma;
      if trendBullish then
        if CheckEngulfing(curr.open, curr.close, prev.open, prev.close, BULLISH) then
          var sl := curr.low;
          var risk := next.open - sl;
          if risk <= 0.0 then None
          else Some(Signal(BUY, sl, next.open + risk * RR_RATIO))
        else None
      else if trendBearish then
        if CheckEngulfing(curr.open, curr.close, prev.open, prev.close, BEARISH) then
          var sl := curr.high;
          var risk := sl - next.open;
          if risk <= 0.0 then None
          else Some(Signal(SELL, sl, next.open - risk * RR_RATIO))
        else None
      else None
  }

  /** The outcome of the signal function as written: a value, or an index error. */
  datatype Evaluation = Returned(signal: Option<Signal>) | IndexOutOfRange

  /**
   * The signal function with the length guard the source actually has: it
   * returns no signal below two bars, but a window of exactly two bars passes
   * the guard and then reads the third-from-last bar, which does not exist.
   */
  function GetSignalAsWritten(bars: seq<Bar>): (r: Evaluation)
    ensures r == IndexOutOfRange <==> |bars| == 2
  {
    if |bars| < 2 then Returned(None)
    else if |bars| < 3 then IndexOutOfRange
    else Returned(GetSignal(bars))
  }

  /** Wherever the guard as written lets the code finish, the corrected guard agrees with it. */
  lemma CorrectedGuardAgrees(bars: seq<Bar>)
    ensures GetSignalAsWritten(bars).Returned? ==> GetSignalAsWritten(bars).signal == GetSignal(bars)
    ensures GetSignalAsWritten(bars) == IndexOutOfRange ==> GetSignal(bars) == None
  {
  }

  /** The signal depends only on the last three bars of the window. */
  lemma SignalDependsOnLastThreeBars(bars: seq<Bar>)
    requires |bars| >= 3
    ensures GetSignal(bars) == GetSignal(bars[|bars| - 3..])
  {
    var tail := bars[|bars| - 3..];
    assert Previous(tail) == Previous(bars) && Current(tail) == Current(bars) && Forming(tail) == Forming(bars);
  }

  /**
   * Of those three bars only the previous bar's body, the current bar's body,
   * range and slow trend, and the forming bar's open are read.
   */
  lemma SignalReadsOnlyPatternFields(a: seq<Bar>, b: seq<Bar>)
    requires |a| >= 3 && |b| >= 3
    requires Previous(a).open == Previous(b).open && Previous(a).close == Previous(b).close
    requires Current(a).open == Current(b).open && Current(a).close == Current(b).close
    requires Current(a).low == Current(b).low && Current(a).high == Current(b).high
    requires Current(a).slowClose == Current(b).slowClose && Current(a).slowEma == Current(b).slowEma
    requires Forming(a).open == Forming(b).open
    ensures GetSignal(a) == GetSignal(b)
  {
  }

  /** When the slow close equals its moving average there is no trend and no signal. */
  lemma FlatTrendGivesNoSignal(bars: seq<Bar>)
    requires |bars| >= 3 && Current(bars).slowClose == Current(bars).slowEma
    ensures GetSignal(bars) == None
  {
  }

  /**
   * Quantity such that being stopped out loses exactly the risk budget; zero
   * when entry and stop coincide.
   */
  function GetPositionSize(entryPrice: real, slPrice: real, capitalToRisk: real): (quantity: real)
    ensures entryPrice == slPrice ==> quantity == 0.0
    ensures entryPrice != slPrice ==> quantity * Abs(entryPrice - slPrice) == capitalToRisk
    ensures capitalToRisk >= 0.0 ==> quantity >= 0.0
    ensures capitalToRisk > 0.0 && entryPrice != slPrice ==> quantity > 0.0
  {
    var distance := Abs(entryPrice - slPrice);
    if distance == 0.0 then 0.0
    else capitalToRisk / distance
  }

  /**
   * Has a position's stop-loss or take-profit been reached within the price
   * range [lowPrice, highPrice]? The stop is tested first, so it wins when
   * both are reached. An unknown direction tag never exits.
   */
  function CheckExit(direction: string, sl: real, tp: real, lowPrice: real, highPrice: real): (r: Option<Reason>)
    ensures direction == "BUY" ==>
      (r == Some(SL) <==> lowPrice <= sl) && (r == Some(TP) <==> lowPrice > sl && highPrice >= tp)
    ensures direction == "SELL" ==>
      (r == Some(SL) <==> highPrice >= sl) && (r == Some(TP) <==> highPrice < sl && lowPrice <= tp)
    ensures direction != "BUY" && direction != "SELL" ==> r == None
  {
    if direction == "BUY" then
      if lowPrice <= sl then Some(SL)
      else if highPrice >= tp then Some(TP)
      else None
    else if direction == "SELL" then
      if highPrice >= sl then Some(SL)
      else if lowPrice <= tp then Some(TP)
      else None
    else None
  }

  /** A bar that reaches both the stop and the target exits at the stop. */
  lemma StopLossWinsTie(dir: Dir, sl: real, tp: real, lowPrice: real, highPrice: real)
    requires dir == BUY ==> lowPrice <= sl && highPrice >= tp
    requires dir == SELL ==> highPrice >= sl && lowPrice <= tp
    ensures CheckExit(dir.Name(), sl, tp, lowPrice, highPrice) == Some(SL)
  {
  }

  /**
   * A single live price p (low = high = p) exits at the stop exactly when p is
   * on or beyond it, and otherwise at the target when p is on or beyond that.
   */
  lemma LivePriceExit(dir: Dir, sl: real, tp: real, p: real)
    ensures var r := CheckExit(dir.Name(), sl, tp, p, p);
      (dir == BUY ==> (r == Some(SL) <==> p <= sl) && (r == Some(TP) <==> sl < p && tp <= p))
      && (dir == SELL ==> (r == Some(SL) <==> p >= sl) && (r == Some(TP) <==> p < sl && p <= tp))
  {
  }

  /**
   * Worked example: a bullish trend (slow close 105 over average 100), a red
   * candle 50 -> 48 engulfed by a green candle 47 -> 52 with low 46, and the
   * next bar opening at 53 give a BUY with stop 46 and target 53 + 1.5 * 7.
   */
  lemma BullishEngulfingScenario()
    ensures GetSignal([Bar(0, 50.0, 51.0, 47.5, 48.0, 105.0, 100.0),
                       Bar(1, 47.0, 53.0, 46.0, 52.0, 105.0, 100.0),
                       Bar(2, 53.0, 54.0, 52.0, 53.5, 105.0, 100.0)])
            == Some(Signal(BUY, 46.0, 63.5))
  {
  }

  /** Worked example: 10000 of capital risks 10; entry 100, stop 90 buys 1 unit. */
  lemma SizingScenario()
    ensures 10000.0 * RISK_PER_TRADE == 10.0
    ensures GetPositionSize(100.0, 90.0, 10000.0 * RISK_PER_TRADE) == 1.0
  {
  }

  /** Worked example: a BUY with stop 90 and target 120 on a bar 85..125 exits at the stop. */
  lemma StopBeforeTargetScenario()
    ensures CheckExit(BUY.Name(), 90.0, 120.0, 85.0, 125.0) == Some(SL)
  {
  }
}
