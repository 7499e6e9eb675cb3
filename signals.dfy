/**
 * The crossover back-test of `add_signals_and_profits`: a long-only position is
 * opened when the fast average (span 12) is above the slow one (span 26) and
 * closed when the slow one is above the fast one. Bars before index 26 are
 * skipped. Each bar gets three output cells: an entry flag, an exit flag and
 * the bar's profit (realized on an exit bar, unrealized while holding).
 *
 * StateAt and MarkAt are the reference definition, one bar at a time;
 * AddSignalsAndProfits is the source's loop, proved to fill its arrays with
 * exactly those marks.
 */
module Signals {

  /** The first bar the simulator looks at (the slow span). */
  const WarmUp: nat := 26

  /** The default position-size factor of `calculate_profit`. */
  const DefaultQuality: real := 0.0001

  /**
   * Linear percentage return scaled by `quality`: the percentage change, back
   * to a fraction, times the quality factor.
   */
  function CalculateProfit(entryPrice: real, exitPrice: real, quality: real := DefaultQuality): (profit: real)
    requires entryPrice != 0.0
    ensures profit == (exitPrice - entryPrice) / entryPrice * quality
    ensures exitPrice == entryPrice ==> profit == 0.0
    ensures entryPrice > 0.0 && quality > 0.0 ==> (profit > 0.0 <==> exitPrice > entryPrice)
  {
    var percentageChange := (exitPrice - entryPrice) / entryPrice * 100.0;
    var percentageLoss := percentageChange / 100.0;
    ReturnSign(entryPrice, exitPrice, quality);
    percentageLoss * quality
  }

  lemma ReturnSign(entryPrice: real, exitPrice: real, quality: real)
    ensures entryPrice > 0.0 && quality > 0.0 ==>
              ((exitPrice - entryPrice) / entryPrice * quality > 0.0 <==> exitPrice > entryPrice)
  {
    if entryPrice <= 0.0 || quality <= 0.0 {
      return;
    }
    var change := (exitPrice - entryPrice) / entryPrice;
    assert change * entryPrice == exitPrice - entryPrice;
    if exitPrice > entryPrice {
      assert change > 0.0;
    } else {
      assert change <= 0.0;
      assert change * quality <= 0.0;
    }
  }

  /** FLAT, or LONG with the close at which the position was opened. */
  datatype Position = Flat | Long(entryPrice: real)

  /** The three cells the simulator writes for one bar. */
  datatype Mark = Mark(isStartPoint: bool, isEndPoint: bool, currentProfit: real)

  /** The cells of a bar nothing is written to. */
  const Unmarked := Mark(false, false, 0.0)

  /** The simulator's running state between two bars. */
  datatype Sim = Sim(position: Position, totalProfit: real, winTrades: nat, totalTrades: nat)

  const Initial := Sim(Flat, 0.0, 0, 0)

  /** The columns the simulator reads: the closes and the two averages. */
  datatype Columns = Columns(close: seq<real>, ema12: seq<real>, ema26: seq<real>)

  /**
   * Equal-length columns, and no zero close where a position can be opened
   * (every later profit divides by that close).
   */
  predicate Valid(c: Columns)
  {
    && |c.ema12| == |c.close|
    && |c.ema26| == |c.close|
    && forall i :: WarmUp <= i < |c.close| ==> c.close[i] != 0.0
  }

  /** An open position was opened at a non-zero price. */
  predicate Holding(s: Sim)
  {
    s.position.Long? ==> s.position.entryPrice != 0.0
  }

  /** One bar of the state machine, with the source's tests in the source's order. */
  function Step(s: Sim, close: real, fast: real, slow: real, quality: real): (r: (Sim, Mark))
    requires Holding(s) && close != 0.0
    ensures Holding(r.0)
    ensures !(r.1.isStartPoint && r.1.isEndPoint)
    ensures r.1.isStartPoint <==> fast > slow && s.position.Flat?
    ensures r.1.isEndPoint <==> slow > fast && s.position.Long?
  {
    if fast > slow && s.position.Flat? then
      (s.(position := Long(close)), Mark(true, false, 0.0))
    else if slow > fast && s.position.Long? then
      var profit := CalculateProfit(s.position.entryPrice, close, quality);
      var wins := if profit > 0.0 then s.winTrades + 1 else s.winTrades;
      (Sim(Flat, s.totalProfit + profit, wins, s.totalTrades + 1), Mark(false, true, profit))
    else if s.position.Long? then
      (s, Mark(false, false, CalculateProfit(s.position.entryPrice, close, quality)))
    else
      (s, Unmarked)
  }

  /** The state after the first k bars. */
  function StateAt(c: Columns, quality: real, k: nat): (s: Sim)
    requires Valid(c) && k <= |c.close|
    ensures Holding(s)
    decreases k
  {
    if k <= WarmUp then Initial
    else Step(StateAt(c, quality, k - 1), c.close[k - 1], c.ema12[k - 1], c.ema26[k - 1], quality).0
  }

  /** The cells of bar i. */
  function MarkAt(c: Columns, quality: real, i: nat): Mark
    requires Valid(c) && i < |c.close|
  {
    if i < WarmUp then Unmarked
    else Step(StateAt(c, quality, i), c.close[i], c.ema12[i], c.ema26[i], quality).1
  }

  /** Number of entry bars among the first k. */
  function Entries(c: Columns, quality: real, k: nat): nat
    requires Valid(c) && k <= |c.close|
  {
    if k == 0 then 0
    else Entries(c, quality, k - 1) + if MarkAt(c, quality, k - 1).isStartPoint then 1 else 0
  }

  /** Number of exit bars among the first k. */
  function Exits(c: Columns, quality: real, k: nat): nat
    requires Valid(c) && k <= |c.close|
  {
    if k == 0 then 0
    else Exits(c, quality, k - 1) + if MarkAt(c, quality, k - 1).isEndPoint then 1 else 0
  }

  /** Number of exit bars with a positive profit among the first k. */
  function WinningExits(c: Columns, quality: real, k: nat): nat
    requires Valid(c) && k <= |c.close|
  {
    if k == 0 then 0
    else
      var m := MarkAt(c, quality, k - 1);
      WinningExits(c, quality, k - 1) + if m.isEndPoint && m.currentProfit > 0.0 then 1 else 0
  }

  /** Sum of the profit cells of the exit bars among the first k. */
  function RealizedProfit(c: Columns, quality: real, k: nat): real
    requires Valid(c) && k <= |c.close|
  {
    if k == 0 then 0.0
    else
      var m := MarkAt(c, quality, k - 1);
      RealizedProfit(c, quality, k - 1) + if m.isEndPoint then m.currentProfit else 0.0
  }

  /** Index of the last entry bar among the first k, or -1 if there is none. */
  function LastEntry(c: Columns, quality: real, k: nat): int
    requires Valid(c) && k <= |c.close|
  {
    if k == 0 then -1
    else if MarkAt(c, quality, k - 1).isStartPoint then k - 1
    else LastEntry(c, quality, k - 1)
  }

  /** `win_rate`: winning trades as a percentage of closed trades, 0 without trades. */
  function WinRate(winTrades: nat, totalTrades: nat): (rate: real)
    ensures totalTrades == 0 ==> rate == 0.0
    ensures winTrades <= totalTrades ==> 0.0 <= rate <= 100.0
    ensures 0 < totalTrades && winTrades == totalTrades ==> rate == 100.0
  {
    if totalTrades > 0 then winTrades as real / totalTrades as real * 100.0 else 0.0
  }

  /**
   * The running state is the bookkeeping of the marks written so far: closed
   * trades are exit bars, wins are exits with a positive profit, the total is
   * the sum over exit bars, one entry more than exits exactly while holding,
   * and an open position was opened at the close of the last entry bar.
   */
  lemma {:induction false} StateMatchesMarks(c: Columns, quality: real, k: nat)
    requires Valid(c) && k <= |c.close|
    ensures StateAt(c, quality, k).totalTrades == Exits(c, quality, k)
    ensures StateAt(c, quality, k).winTrades == WinningExits(c, quality, k)
    ensures StateAt(c, quality, k).totalProfit == RealizedProfit(c, quality, k)
    ensures WinningExits(c, quality, k) <= Exits(c, quality, k)
    ensures Entries(c, quality, k) == Exits(c, quality, k) + if StateAt(c, quality, k).position.Long? then 1 else 0
    ensures StateAt(c, quality, k).position.Long? ==>
              WarmUp <= LastEntry(c, quality, k) < k &&
              StateAt(c, quality, k).position.entryPrice == c.close[LastEntry(c, quality, k)]
    decreases k
  {
    if k > 0 {
      StateMatchesMarks(c, quality, k - 1);
    }
  }

  /**
   * Entries and exits strictly alternate, starting with an entry: an entry bar
   * finds every earlier entry closed, an exit bar finds exactly one open, and
   * at every point there are as many entries as exits or one more.
   */
  lemma Alternation(c: Columns, quality: real, i: nat)
    requires Valid(c) && i < |c.close|
    ensures MarkAt(c, quality, i).isStartPoint ==> Entries(c, quality, i) == Exits(c, quality, i)
    ensures MarkAt(c, quality, i).isEndPoint ==> Entries(c, quality, i) == Exits(c, quality, i) + 1
    ensures Exits(c, quality, i + 1) <= Entries(c, quality, i + 1) <= Exits(c, quality, i + 1) + 1
  {
    StateMatchesMarks(c, quality, i);
    StateMatchesMarks(c, quality, i + 1);
  }

  /** Bars before the warm-up offset are never flagged and keep a zero profit. */
  lemma WarmUpBarsUnmarked(c: Columns, quality: real, i: nat)
    requires Valid(c) && i < |c.close| && i < WarmUp
    ensures MarkAt(c, quality, i) == Unmarked
    ensures StateAt(c, quality, i + 1) == Initial
  {
  }

  /**
   * The transition rules: an entry fires exactly when fast > slow while FLAT,
   * an exit exactly when slow > fast while LONG, never both; an entry bar
   * opens at its close with a zero profit cell; a tie leaves the position as
   * it was.
   */
  lemma TransitionRules(c: Columns, quality: real, i: nat)
    requires Valid(c) && WarmUp <= i < |c.close|
    ensures MarkAt(c, quality, i).isStartPoint <==> c.ema12[i] > c.ema26[i] && StateAt(c, quality, i).position.Flat?
    ensures MarkAt(c, quality, i).isEndPoint <==> c.ema26[i] > c.ema12[i] && StateAt(c, quality, i).position.Long?
    ensures !(MarkAt(c, quality, i).isStartPoint && MarkAt(c, quality, i).isEndPoint)
    ensures MarkAt(c, quality, i).isStartPoint ==>
              MarkAt(c, quality, i).currentProfit == 0.0 && StateAt(c, quality, i + 1).position == Long(c.close[i])
    ensures MarkAt(c, quality, i).isEndPoint ==> StateAt(c, quality, i + 1).position == Flat
    ensures c.ema12[i] == c.ema26[i] ==> StateAt(c, quality, i + 1) == StateAt(c, quality, i)
  {
  }

  /** An exit bar realizes the return from the close of the most recent entry bar to its own close. */
  lemma ExitRealizesLastEntry(c: Columns, quality: real, i: nat)
    requires Valid(c) && i < |c.close| && MarkAt(c, quality, i).isEndPoint
    ensures WarmUp <= LastEntry(c, quality, i) < i
    ensures MarkAt(c, quality, i).currentProfit ==
              CalculateProfit(c.close[LastEntry(c, quality, i)], c.close[i], quality)
  {
    StateMatchesMarks(c, quality, i);
  }

  /**
   * A bar with no transition keeps the state; its profit cell is the
   * unrealized return against the last entry close while LONG, and 0 while FLAT.
   */
  lemma HoldMarksToMarket(c: Columns, quality: real, i: nat)
    requires Valid(c) && WarmUp <= i < |c.close|
    requires !MarkAt(c, quality, i).isStartPoint && !MarkAt(c, quality, i).isEndPoint
    ensures StateAt(c, quality, i + 1) == StateAt(c, quality, i)
    ensures StateAt(c, quality, i).position.Flat? ==> MarkAt(c, quality, i).currentProfit == 0.0
    ensures StateAt(c, quality, i).position.Long? ==>
              WarmUp <= LastEntry(c, quality, i) < i &&
              MarkAt(c, quality, i).currentProfit ==
                CalculateProfit(c.close[LastEntry(c, quality, i)], c.close[i], quality)
  {
    StateMatchesMarks(c, quality, i);
  }

  /** A series no longer than the warm-up offset yields no trade at all. */
  lemma ShortSeriesTradesNothing(c: Columns, quality: real)
    requires Valid(c) && |c.close| <= WarmUp
    ensures StateAt(c, quality, |c.close|) == Initial
    ensures Entries(c, quality, |c.close|) == 0 && Exits(c, quality, |c.close|) == 0
  {
    StateMatchesMarks(c, quality, |c.close|);
  }

  /** Bar i of the reference definition is one `Step` from the state before it. */
  lemma StepAt(c: Columns, quality: real, i: nat)
    requires Valid(c) && WarmUp <= i < |c.close|
    ensures StateAt(c, quality, i + 1) == Step(StateAt(c, quality, i), c.close[i], c.ema12[i], c.ema26[i], quality).0
    ensures MarkAt(c, quality, i) == Step(StateAt(c, quality, i), c.close[i], c.ema12[i], c.ema26[i], quality).1
  {
  }

  /**
   * `add_signals_and_profits`: the three output columns start as False, False
   * and 0.0 and are written bar by bar from the warm-up offset on; the win
   * rate is computed from the counters the loop leaves.
   */
  method AddSignalsAndProfits(close: seq<real>, ema12: seq<real>, ema26: seq<real>, quality: real := DefaultQuality)
    returns (isStartPoint: array<bool>, isEndPoint: array<bool>, currentProfit: array<real>,
             totalProfit: real, winRate: real)
    requires Valid(Columns(close, ema12, ema26))
    ensures fresh(isStartPoint) && fresh(isEndPoint) && fresh(currentProfit)
    ensures isStartPoint.Length == |close| && isEndPoint.Length == |close| && currentProfit.Length == |close|
    ensures forall i :: 0 <= i < |close| ==>
              Mark(isStartPoint[i], isEndPoint[i], currentProfit[i]) == MarkAt(Columns(close, ema12, ema26), quality, i)
    ensures totalProfit == StateAt(Columns(close, ema12, ema26), quality, |close|).totalProfit
    ensures winRate == WinRate(StateAt(Columns(close, ema12, ema26), quality, |close|).winTrades,
                               StateAt(Columns(close, ema12, ema26), quality, |close|).totalTrades)
    ensures forall i :: 0 <= i < |close| && i < WarmUp ==>
              !isStartPoint[i] && !isEndPoint[i] && currentProfit[i] == 0.0
    ensures forall i :: 0 <= i < |close| ==> !(isStartPoint[i] && isEndPoint[i])
    ensures totalProfit == RealizedProfit(Columns(close, ema12, ema26), quality, |close|)
    ensures 0.0 <= winRate <= 100.0
    ensures |close| <= WarmUp ==> totalProfit == 0.0 && winRate == 0.0
  {
    ghost var c := Columns(close, ema12, ema26);
    var winTrades, totalTrades;
    isStartPoint, isEndPoint, currentProfit, totalProfit, winTrades, totalTrades := Simulate(close, ema12, ema26, quality);
    winRate := WinRate(winTrades, totalTrades);
    StateMatchesMarks(c, quality, |close|);
    forall i | 0 <= i < |close|
      ensures !(MarkAt(c, quality, i).isStartPoint && MarkAt(c, quality, i).isEndPoint)
    {
      if i >= WarmUp {
        TransitionRules(c, quality, i);
      }
    }
  }

  /** The position the loop's two locals `in_position` and `entry_price` stand for. */
  function Held(inPosition: bool, entryPrice: real): (p: Position)
    ensures p.Long? <==> inPosition
    ensures p.Long? ==> p.entryPrice == entryPrice
  {
    if inPosition then Long(entryPrice) else Flat
  }

  /** A fresh column of n cells, all holding v. */
  method NewColumn<T(0)>(n: nat, v: T) returns (a: array<T>)
    ensures fresh(a) && a.Length == n
    ensures forall j :: 0 <= j < n ==> a[j] == v
  {
    a := new T[n](_ => v);
  }

  /** The loop of `add_signals_and_profits`: the marks of every bar and the final counters. */
  method Simulate(close: seq<real>, ema12: seq<real>, ema26: seq<real>, quality: real)
    returns (isStartPoint: array<bool>, isEndPoint: array<bool>, currentProfit: array<real>,
             totalProfit: real, winTrades: nat, totalTrades: nat)
    requires Valid(Columns(close, ema12, ema26))
    ensures fresh(isStartPoint) && fresh(isEndPoint) && fresh(currentProfit)
    ensures isStartPoint.Length == |close| && isEndPoint.Length == |close| && currentProfit.Length == |close|
    ensures forall i :: 0 <= i < |close| ==>
              Mark(isStartPoint[i], isEndPoint[i], currentProfit[i]) == MarkAt(Columns(close, ema12, ema26), quality, i)
    ensures Sim(StateAt(Columns(close, ema12, ema26), quality, |close|).position, totalProfit, winTrades, totalTrades)
            == StateAt(Columns(close, ema12, ema26), quality, |close|)
  {
    ghost var c := Columns(close, ema12, ema26);
    var n := |close|;
    isStartPoint := NewColumn(n, false);
    isEndPoint := NewColumn(n, false);
    currentProfit := NewColumn(n, 0.0);
    var inPosition := false;
    var entryPrice := 0.0;
    totalProfit := 0.0;
    winTrades := 0;
    totalTrades := 0;
    var i := WarmUp;
    while i < n
      invariant WarmUp <= i && (i <= n || n < WarmUp)
      invariant n < WarmUp ==> i == WarmUp
      invariant !inPosition ==> entryPrice == 0.0
      invariant Sim(Held(inPosition, entryPrice), totalProfit, winTrades, totalTrades)
                == StateAt(c, quality, if i <= n then i else n)
      invariant forall j :: 0 <= j < n ==>
                  Mark(isStartPoint[j], isEndPoint[j], currentProfit[j]) == if j < i then MarkAt(c, quality, j) else Unmarked
    {
      StepAt(c, quality, i);
      inPosition, entryPrice, totalProfit, winTrades, totalTrades :=
        MarkBar(isStartPoint, isEndPoint, currentProfit, i, close[i], ema12[i], ema26[i], quality,
                inPosition, entryPrice, totalProfit, winTrades, totalTrades);
      i := i + 1;
    }
  }

  /**
   * The body of the loop for bar i: the source's three branches, writing the
   * bar's cells and returning the new values of the loop's locals.
   */
  method MarkBar(isStartPoint: array<bool>, isEndPoint: array<bool>, currentProfit: array<real>, i: nat,
                 close: real, fast: real, slow: real, quality: real,
                 inPosition: bool, entryPrice: real, totalProfit: real, winTrades: nat, totalTrades: nat)
    returns (inPosition': bool, entryPrice': real, totalProfit': real, winTrades': nat, totalTrades': nat)
    requires i < isStartPoint.Length && i < isEndPoint.Length && i < currentProfit.Length
    requires isStartPoint != isEndPoint
    requires close != 0.0 && (inPosition ==> entryPrice != 0.0) && (!inPosition ==> entryPrice == 0.0)
    requires Mark(isStartPoint[i], isEndPoint[i], currentProfit[i]) == Unmarked
    modifies isStartPoint, isEndPoint, currentProfit
    ensures !inPosition' ==> entryPrice' == 0.0
    ensures (Sim(Held(inPosition', entryPrice'), totalProfit', winTrades', totalTrades'),
             Mark(isStartPoint[i], isEndPoint[i], currentProfit[i]))
            == Step(Sim(Held(inPosition, entryPrice), totalProfit, winTrades, totalTrades), close, fast, slow, quality)
    ensures forall j :: 0 <= j < isStartPoint.Length && j != i ==> isStartPoint[j] == old(isStartPoint[j])
    ensures forall j :: 0 <= j < isEndPoint.Length && j != i ==> isEndPoint[j] == old(isEndPoint[j])
    ensures forall j :: 0 <= j < currentProfit.Length && j != i ==> currentProfit[j] == old(currentProfit[j])
  {
    inPosition', entryPrice', totalProfit', winTrades', totalTrades' :=
      inPosition, entryPrice, totalProfit, winTrades, totalTrades;
    if fast > slow && !inPosition {
      inPosition' := true;
      entryPrice' := close;
      isStartPoint[i] := true;
    } else if slow > fast && inPosition {
      inPosition' := false;
      var exitPrice := close;
      var profit := CalculateProfit(entryPrice, exitPrice, quality);
      isEndPoint[i] := true;
      currentProfit[i] := profit;
      totalProfit' := totalProfit + profit;
      totalTrades' := totalTrades + 1;
      if profit > 0.0 {
        winTrades' := winTrades + 1;
      }
      entryPrice' := 0.0;
    } else {
      if inPosition {
        currentProfit[i] := CalculateProfit(entryPrice, close, quality);
      } else {
        currentProfit[i] := 0.0;
      }
    }
  }
}
