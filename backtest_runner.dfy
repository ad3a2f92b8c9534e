/**
 * The single-position trade lifecycle of backtest_runner.py. The pure
 * functions Step and Replay say what one bar, and a replay of the bars from
 * index 2 on, do to the account; class CustomBacktester holds that account
 * in mutable fields and its Run loop is proved to compute Replay.
 */
module BacktestRunner {
  import opened Strategy

  /** The traded symbol (configuration.py). */
  const SYMBOL: string := "BTCUSDT"

  /** The open trade. */
  datatype Position = Position(entryTime: int, symbol: string, dir: Dir, entry: real, sl: real, tp: real, size: real)

  /** One record of the trade ledger, written when a position closes. */
  datatype ClosedTrade = ClosedTrade(
    entryTime: int, symbol: string, direction: Dir, entryPrice: real, exitPrice: real,
    exitTime: int, pnl: real, capitalAfter: real, reason: Reason)

  /** The mutable state of the backtester: capital, the optional open position, the ledger and the skip counter. */
  datatype Account = Account(capital: real, position: Option<Position>, trades: seq<ClosedTrade>, skippedTrades: nat)

  /** Realized profit of closing position p at exitPrice. */
  function Pnl(p: Position, exitPrice: real): (pnl: real)
    ensures p.size > 0.0 ==>
      (pnl > 0.0 <==> (if p.dir == BUY then exitPrice > p.entry else exitPrice < p.entry))
    ensures exitPrice == p.entry ==> pnl == 0.0
  {
    if p.dir == BUY then (exitPrice - p.entry) * p.size
    else (p.entry - exitPrice) * p.size
  }

  /** Sum of the realized profits of a ledger. */
  function SumPnl(trades: seq<ClosedTrade>): real
  {
    if trades == [] then 0.0 else SumPnl(trades[..|trades| - 1]) + trades[|trades| - 1].pnl
  }

  /** r is s with its position closed: one record appended, capital moved by that record's profit. */
  ghost predicate Closed(s: Account, r: Account)
  {
    r.position.None? && r.skippedTrades == s.skippedTrades
    && |r.trades| == |s.trades| + 1 && r.trades[..|s.trades|] == s.trades
    && r.capital == s.capital + r.trades[|s.trades|].pnl
    && r.trades[|s.trades|].capitalAfter == r.capital
  }

  /** r is s with a position opened and nothing else changed. */
  ghost predicate Opened(s: Account, r: Account)
  {
    r.position.Some? && r.trades == s.trades && r.capital == s.capital && r.skippedTrades == s.skippedTrades
  }

  /** r is s with one more skipped signal and nothing else changed. */
  ghost predicate SkippedOne(s: Account, r: Account)
  {
    r.position.None? && r.trades == s.trades && r.capital == s.capital && r.skippedTrades == s.skippedTrades + 1
  }

  /** close_trade: settle the open position at exitPrice and record it in the ledger. */
  function Close(s: Account, exitTime: int, reason: Reason, exitPrice: real): (r: Account)
    requires s.position.Some?
    ensures Closed(s, r)
    ensures var p, rec := s.position.value, r.trades[|s.trades|];
      rec.entryTime == p.entryTime && rec.symbol == p.symbol && rec.direction == p.dir
      && rec.entryPrice == p.entry && rec.exitPrice == exitPrice && rec.exitTime == exitTime
      && rec.reason == reason && rec.pnl == Pnl(p, exitPrice)
  {
    var trade := s.position.value;
    var pnl := Pnl(trade, exitPrice);
    var capital := s.capital + pnl;
    var record := ClosedTrade(trade.entryTime, trade.symbol, trade.dir, trade.entry, exitPrice, exitTime, pnl, capital, reason);
    Account(capital, None, s.trades + [record], s.skippedTrades)
  }

  /**
   * One iteration of the replay loop at bar i. With a position open only its
   * exit is tested; when flat the signal of the bars up to i is evaluated,
   * sized on the initial capital, and opened at the bar's close if the
   * capital covers its cost, or counted as skipped if it does not. Exactly
   * one of close, open, skip or nothing happens.
   */
  function Step(s: Account, bars: seq<Bar>, initialCapital: real, i: nat): (r: Account)
    requires 2 <= i < |bars|
    ensures s.position.Some? ==> r == s || Closed(s, r)
    ensures s.position.Some? && r == s ==> r.position.Some?
    ensures s.position.None? ==> r == s || Opened(s, r) || SkippedOne(s, r)
  {
    var bar := bars[i];
    if s.position.Some? then
      var trade := s.position.value;
      var exitReason := CheckExit(trade.dir.Name(), trade.sl, trade.tp, bar.low, bar.high);
      if exitReason.Some? then
        Close(s, bar.time, exitReason.value, if exitReason.value == SL then trade.sl else trade.tp)
      else s
    else
      var signal := GetSignal(bars[..i + 1]);
      if signal.None? then s
      else
        var signal := signal.value;
        var entryPrice := bar.close;
        var riskAmount := initialCapital * RISK_PER_TRADE;
        var slDistance := Abs(entryPrice - signal.sl);
        var size := if slDistance > 0.0 then riskAmount / slDistance else 0.0;
        if size > 0.0 then
          var tradeCost := entryPrice * size;
          if s.capital >= tradeCost then
            s.(position := Some(Position(bar.time, SYMBOL, signal.dir, entryPrice, signal.sl, signal.tp, size)))
          else
            s.(skippedTrades := s.skippedTrades + 1)
        else s
  }

  /**
   * The account after the loop has processed the bars with indices 2 .. hi-1
   * in order. The ledger only grows (earlier records are kept as they are)
   * and the skip counter never decreases.
   */
  function Replay(s: Account, bars: seq<Bar>, initialCapital: real, hi: nat): (r: Account)
    requires hi <= |bars| || hi <= 2
    ensures |s.trades| <= |r.trades| && r.trades[..|s.trades|] == s.trades
    ensures s.skippedTrades <= r.skippedTrades
    decreases hi
  {
    if hi <= 2 then s
    else Step(Replay(s, bars, initialCapital, hi - 1), bars, initialCapital, hi - 1)
  }

  /** An open position at bar i only ever exits, at exactly its stop or its target. */
  lemma StepExit(s: Account, bars: seq<Bar>, initialCapital: real, i: nat)
    requires 2 <= i < |bars| && s.position.Some?
    ensures var p, r := s.position.value, Step(s, bars, initialCapital, i);
      var exit := CheckExit(p.dir.Name(), p.sl, p.tp, bars[i].low, bars[i].high);
      (exit.None? ==> r == s)
      && (exit.Some? ==>
            Closed(s, r)
            && r.trades[|s.trades|].reason == exit.value
            && r.trades[|s.trades|].exitPrice == (if exit.value == SL then p.sl else p.tp)
            && r.trades[|s.trades|].exitTime == bars[i].time
            && r.trades[|s.trades|].pnl
               == (if p.dir == BUY then (r.trades[|s.trades|].exitPrice - p.entry) * p.size
                   else (p.entry - r.trades[|s.trades|].exitPrice) * p.size))
  {
  }

  /**
   * A flat account at bar i opens the signal of the bars up to i at the bar's
   * close and time, sized by GetPositionSize on the initial capital's risk
   * budget, when the size is positive and the capital covers the cost; it
   * counts a skip when the size is positive but the capital falls short, and
   * is otherwise unchanged.
   */
  lemma StepEntry(s: Account, bars: seq<Bar>, initialCapital: real, i: nat)
    requires 2 <= i < |bars| && s.position.None?
    ensures var r, sig := Step(s, bars, initialCapital, i), GetSignal(bars[..i + 1]);
      (sig.None? ==> r == s)
      && (sig.Some? ==>
            var size := GetPositionSize(bars[i].close, sig.value.sl, initialCapital * RISK_PER_TRADE);
            (size <= 0.0 ==> r == s)
            && (size > 0.0 && s.capital >= bars[i].close * size ==>
                  r == s.(position := Some(Position(bars[i].time, SYMBOL, sig.value.dir, bars[i].close,
                                                    sig.value.sl, sig.value.tp, size))))
            && (size > 0.0 && s.capital < bars[i].close * size ==>
                  r == s.(skippedTrades := s.skippedTrades + 1)))
  {
  }

  /** Step at bar i reads only the bars up to i. */
  lemma StepNoLookAhead(s: Account, bars: seq<Bar>, initialCapital: real, i: nat, m: nat)
    requires 2 <= i < m <= |bars|
    ensures Step(s, bars, initialCapital, i) == Step(s, bars[..m], initialCapital, i)
  {
    assert bars[..m][..i + 1] == bars[..i + 1];
  }

  /** The replay up to hi is the same whatever bars follow index hi-1: there is no look-ahead. */
  lemma {:induction false} ReplayNoLookAhead(s: Account, bars: seq<Bar>, initialCapital: real, hi: nat, m: nat)
    requires hi <= m <= |bars|
    ensures Replay(s, bars, initialCapital, hi) == Replay(s, bars[..m], initialCapital, hi)
    decreases hi
  {
    if hi > 2 {
      ReplayNoLookAhead(s, bars, initialCapital, hi - 1, m);
      StepNoLookAhead(Replay(s, bars, initialCapital, hi - 1), bars, initialCapital, hi - 1, m);
    }
  }

  /**
   * The ledger accounts for the capital: capital is the initial capital plus
   * the sum of all realized profits, and each record's capital_after is the
   * initial capital plus the profits up to and including that record.
   */
  ghost predicate LedgerConsistent(s: Account, initialCapital: real)
  {
    s.capital == initialCapital + SumPnl(s.trades)
    && forall k :: 0 <= k < |s.trades| ==> s.trades[k].capitalAfter == initialCapital + SumPnl(s.trades[..k + 1])
  }

  /**
   * An open position is funded and well formed: positive size, its cost
   * covered by the capital (which does not move while it is open), and its
   * target on the winning side of its stop.
   */
  ghost predicate PositionFunded(s: Account)
  {
    s.position.Some? ==>
      var p := s.position.value;
      p.size > 0.0 && s.capital >= p.entry * p.size && p.symbol == SYMBOL
      && (p.dir == BUY ==> p.sl < p.tp) && (p.dir == SELL ==> p.tp < p.sl)
  }

  ghost predicate Sound(s: Account, initialCapital: real)
  {
    LedgerConsistent(s, initialCapital) && PositionFunded(s)
  }

  /** Closing a position keeps the ledger consistent. */
  lemma ClosedKeepsLedger(s: Account, r: Account, initialCapital: real)
    requires LedgerConsistent(s, initialCapital) && Closed(s, r)
    ensures LedgerConsistent(r, initialCapital)
  {
    var n := |s.trades|;
    assert r.trades == s.trades + [r.trades[n]];
    assert r.trades[..n] == s.trades;
    assert SumPnl(r.trades) == SumPnl(s.trades) + r.trades[n].pnl;
    forall k | 0 <= k < |r.trades|
      ensures r.trades[k].capitalAfter == initialCapital + SumPnl(r.trades[..k + 1])
    {
      if k < n {
        assert r.trades[..k + 1] == s.trades[..k + 1];
      } else {
        assert r.trades[..k + 1] == r.trades;
      }
    }
  }

  /** One bar keeps the account sound. */
  lemma StepKeepsSound(s: Account, bars: seq<Bar>, initialCapital: real, i: nat)
    requires 2 <= i < |bars| && Sound(s, initialCapital)
    ensures Sound(Step(s, bars, initialCapital, i), initialCapital)
  {
    var r := Step(s, bars, initialCapital, i);
    if s.position.Some? && r != s {
      ClosedKeepsLedger(s, r, initialCapital);
    } else if s.position.None? && r.position.Some? {
      var sig := GetSignal(bars[..i + 1]);
      assert sig.Some?;
      assert sig.value.dir == BUY || sig.value.dir == SELL;
    }
  }

  /** Every prefix of the replay keeps the account sound. */
  lemma {:induction false} ReplayKeepsSound(s: Account, bars: seq<Bar>, initialCapital: real, hi: nat)
    requires hi <= |bars| || hi <= 2
    requires Sound(s, initialCapital)
    ensures Sound(Replay(s, bars, initialCapital, hi), initialCapital)
    decreases hi
  {
    if hi > 2 {
      ReplayKeepsSound(s, bars, initialCapital, hi - 1);
      StepKeepsSound(Replay(s, bars, initialCapital, hi - 1), bars, initialCapital, hi - 1);
    }
  }

  /** Bar timestamps strictly increase. */
  ghost predicate StrictlyIncreasingTimes(bars: seq<Bar>)
  {
    forall a, b :: 0 <= a < b < |bars| ==> bars[a].time < bars[b].time
  }

  /**
   * Trades never overlap in time, given that the last bar processed has time
   * last: each record opened before it closed, each record opened after the
   * previous one closed, and the open position (if any) opened after the
   * last record closed.
   */
  ghost predicate Timeline(s: Account, last: int)
  {
    (forall k :: 0 <= k < |s.trades| ==> s.trades[k].entryTime < s.trades[k].exitTime <= last)
    && (forall k :: 0 < k < |s.trades| ==> s.trades[k - 1].exitTime < s.trades[k].entryTime)
    && (s.position.Some? ==>
          s.position.value.entryTime <= last
          && (|s.trades| > 0 ==> s.trades[|s.trades| - 1].exitTime < s.position.value.entryTime))
  }

  /** One bar, later than every bar before it, keeps the trades apart in time. */
  lemma StepKeepsTimeline(s: Account, bars: seq<Bar>, initialCapital: real, i: nat, last: int)
    requires 2 <= i < |bars| && Timeline(s, last) && last < bars[i].time
    ensures Timeline(Step(s, bars, initialCapital, i), bars[i].time)
  {
    var r := Step(s, bars, initialCapital, i);
    if s.position.Some? && r != s {
      var n := |s.trades|;
      assert r.trades[..n] == s.trades;
      assert forall k :: 0 <= k < n ==> r.trades[k] == s.trades[k];
      assert r.trades[n].entryTime == s.position.value.entryTime;
      assert r.trades[n].exitTime == bars[i].time;
    }
  }

  /** Over any replay of strictly increasing bars, at most one trade is ever open at a time. */
  lemma {:induction false} ReplayKeepsTimeline(s: Account, bars: seq<Bar>, initialCapital: real, hi: nat)
    requires 2 <= hi <= |bars| && StrictlyIncreasingTimes(bars)
    requires Timeline(s, bars[1].time)
    ensures Timeline(Replay(s, bars, initialCapital, hi), bars[hi - 1].time)
    decreases hi
  {
    if hi > 2 {
      ReplayKeepsTimeline(s, bars, initialCapital, hi - 1);
      StepKeepsTimeline(Replay(s, bars, initialCapital, hi - 1), bars, initialCapital, hi - 1, bars[hi - 2].time);
    }
  }

  /**
   * The entry price is the bar's close while the stop and target are placed
   * around the bar's open, so a BUY can open with its stop above its entry
   * and then take a profit on a stop-loss exit. Here a bullish engulfing
   * (stop 46, target 63.5) is entered at 45 with size 10, and the next bar's
   * low of 44 closes it at the stop for a profit of 10.
   */
  lemma EntryMayLieBeyondStop()
    ensures var bars := [Bar(0, 50.0, 51.0, 47.5, 48.0, 105.0, 100.0),
                         Bar(1, 47.0, 53.0, 46.0, 52.0, 105.0, 100.0),
                         Bar(2, 53.0, 54.0, 44.0, 45.0, 105.0, 100.0),
                         Bar(3, 45.0, 47.0, 44.0, 46.0, 105.0, 100.0)];
      var start := Account(10000.0, None, [], 0);
      Replay(start, bars, 10000.0, 3).position == Some(Position(2, SYMBOL, BUY, 45.0, 46.0, 63.5, 10.0))
      && Replay(start, bars, 10000.0, 4).trades
         == [ClosedTrade(2, SYMBOL, BUY, 45.0, 46.0, 3, 10.0, 10010.0, SL)]
  {
    var bars := [Bar(0, 50.0, 51.0, 47.5, 48.0, 105.0, 100.0),
                 Bar(1, 47.0, 53.0, 46.0, 52.0, 105.0, 100.0),
                 Bar(2, 53.0, 54.0, 44.0, 45.0, 105.0, 100.0),
                 Bar(3, 45.0, 47.0, 44.0, 46.0, 105.0, 100.0)];
    assert bars[..3] == bars[0..3];
    assert GetSignal(bars[..3]) == Some(Signal(BUY, 46.0, 63.5));
  }

  /** The backtest engine: the bar data, the account fields the loop updates, and the fixed initial capital. */
  class CustomBacktester {
    const data: seq<Bar>
    const initialCapital: real
    var capital: real
    var trades: seq<ClosedTrade>
    var position: Option<Position>
    var skippedTrades: nat

    function State(): Account
      reads this
    {
      Account(capital, position, trades, skippedTrades)
    }

    ghost predicate Valid()
      reads this
    {
      Sound(State(), initialCapital)
    }

    constructor (data: seq<Bar>, initialCapital: real := 10000.0)
      ensures this.data == data && this.initialCapital == initialCapital
      ensures State() == Account(initialCapital, None, [], 0)
      ensures Valid()
    {
      this.data := data;
      this.capital := initialCapital;
      this.initialCapital := initialCapital;
      this.trades := [];
      this.position := None;
      this.skippedTrades := 0;
    }

    /** Settle the open position: apply its profit, append its record, clear it. */
    method CloseTrade(exitTime: int, reason: Reason, exitPrice: real)
      requires position.Some?
      modifies this
      ensures State() == Close(old(State()), exitTime, reason, exitPrice)
    {
      var trade := position.value;
      var pnl := Pnl(trade, exitPrice);
      capital := capital + pnl;
      var record := ClosedTrade(trade.entryTime, trade.symbol, trade.dir, trade.entry,
                                exitPrice, exitTime, pnl, capital, reason);
      trades := trades + [record];
      position := None;
    }

    /**
     * The body of the replay loop for bar i: with a position open only its
     * exit is tested; when flat a new signal may be opened or skipped.
     */
    method ProcessBar(i: nat)
      requires 2 <= i < |data|
      modifies this
      ensures State() == Step(old(State()), data, initialCapital, i)
    {
      var bar := data[i];
      if position.Some? {
        var trade := position.value;
        var exitReason := CheckExit(trade.dir.Name(), trade.sl, trade.tp, bar.low, bar.high);
        if exitReason.Some? {
          var exitPrice := if exitReason.value == SL then trade.sl else trade.tp;
          CloseTrade(bar.time, exitReason.value, exitPrice);
        }
        return;
      }
      var signal := GetSignal(data[..i + 1]);
      if signal.Some? {
        var entryPrice := bar.close;
        var riskAmount := initialCapital * RISK_PER_TRADE;
        var slDistance := Abs(entryPrice - signal.value.sl);
        var size: real;
        if slDistance > 0.0 {
          size := riskAmount / slDistance;
        } else {
          size := 0.0;
        }
        if size > 0.0 {
          var tradeCost := entryPrice * size;
          if capital >= tradeCost {
            position := Some(Position(bar.time, SYMBOL, signal.value.dir, entryPrice,
                                      signal.value.sl, signal.value.tp, size));
          } else {
            skippedTrades := skippedTrades + 1;
          }
        }
      }
    }

    /** Replay the bars from index 2 on in order, one action per bar. */
    method Run()
      requires Valid()
      modifies this
      ensures State() == Replay(old(State()), data, initialCapital, |data|)
      ensures Valid()
    {
      var i := 2;
      while i < |data|
        invariant 2 <= i && (i <= |data| || i == 2)
        invariant State() == Replay(old(State()), data, initialCapital, i)
      {
        ProcessBar(i);
        i := i + 1;
      }
      ReplayKeepsSound(old(State()), data, initialCapital, |data|);
    }
  }
}
