/** The candle-pattern rule of utils.py: the strict two-candle engulfing test. */
module Utils {

  /** The direction tags a caller may pass to the engulfing test. */
  const BULLISH: string := "BULLISH"
  const BEARISH: string := "BEARISH"

  /** A red candle closes below its open, a green one above it. */
  predicate IsRed(open: real, close: real) { close < open }
  predicate IsGreen(open: real, close: real) { close > open }

  /** The lower and upper edges of a candle's body. */
  function BodyLow(open: real, close: real): real { if open <= close then open else close }
  function BodyHigh(open: real, close: real): real { if open <= close then close else open }

  /**
   * Does the current candle's body engulf the previous candle's body in the
   * given direction? A BULLISH engulfing turns a red candle into a green one
   * whose body covers the previous body, closing strictly above the previous
   * open; a BEARISH one is the mirror image. Any other tag is never engulfing.
   */
  function CheckEngulfing(openCurr: real, closeCurr: real, openPrev: real, closePrev: real, direction: string): (r: bool)
    ensures r ==> direction == BULLISH || direction == BEARISH
    ensures direction == BULLISH ==>
      (r <==> IsRed(openPrev, closePrev) && IsGreen(openCurr, closeCurr)
              && BodyLow(openCurr, closeCurr) <= BodyLow(openPrev, closePrev)
              && BodyHigh(openPrev, closePrev) < BodyHigh(openCurr, closeCurr))
    ensures direction == BEARISH ==>
      (r <==> IsGreen(openPrev, closePrev) && IsRed(openCurr, closeCurr)
              && BodyLow(openCurr, closeCurr) < BodyLow(openPrev, closePrev)
              && BodyHigh(openPrev, closePrev) <= BodyHigh(openCurr, closeCurr))
  {
    if direction == BULLISH then
      if closePrev < openPrev && closeCurr > openCurr then
        closeCurr > openPrev && openCurr <= closePrev
      else false
    else if direction == BEARISH then
      if closePrev > openPrev && closeCurr < openCurr then
        closeCurr < openPrev && openCurr >= closePrev
      else false
    else false
  }

  /** The same four prices never form both a bullish and a bearish engulfing. */
  lemma EngulfingDirectionsExclusive(openCurr: real, closeCurr: real, openPrev: real, closePrev: real)
    ensures !(CheckEngulfing(openCurr, closeCurr, openPrev, closePrev, BULLISH)
              && CheckEngulfing(openCurr, closeCurr, openPrev, closePrev, BEARISH))
  {
  }

  /** An engulfing candle's body is strictly taller than the body it engulfs. */
  lemma EngulfingBodyIsTaller(openCurr: real, closeCurr: real, openPrev: real, closePrev: real, direction: string)
    requires CheckEngulfing(openCurr, closeCurr, openPrev, closePrev, direction)
    ensures BodyHigh(openCurr, closeCurr) - BodyLow(openCurr, closeCurr)
            > BodyHigh(openPrev, closePrev) - BodyLow(openPrev, closePrev)
  {
  }
}
