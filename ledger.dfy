/**
 * The manual trade ledger: every row is one closed trade
 * (symbol, quality, entry price, exit price, profit). Loading the ledger
 * counts the trades the symbol filter keeps, sums their profit and keeps per
 * symbol the profit, the number of trades and the number of winning trades;
 * the filter choices are the distinct symbols; submitting the form appends a
 * row whose profit is computed from the prices.
 */
module Ledger {
  import opened Wrappers
  import Signals

  /** Percentage return from the entry price to the exit price. */
  function PercentageProfit(entryPrice: real, exitPrice: real): (pct: real)
    requires entryPrice != 0.0
    ensures pct * entryPrice == (exitPrice - entryPrice) * 100.0
    ensures exitPrice == entryPrice ==> pct == 0.0
    ensures entryPrice > 0.0 ==> (pct > 0.0 <==> exitPrice > entryPrice)
  {
    (exitPrice - entryPrice) / entryPrice * 100.0
  }

  /**
   * The percentage return, back to a fraction, scaled by the quality factor;
   * the same formula the back-test uses.
   */
  function CalculateProfit(entryPrice: real, exitPrice: real, quality: real): (profit: real)
    requires entryPrice != 0.0
    ensures profit == PercentageProfit(entryPrice, exitPrice) * quality / 100.0
    ensures profit == (exitPrice - entryPrice) / entryPrice * quality
    ensures exitPrice == entryPrice ==> profit == 0.0
    ensures profit == Signals.CalculateProfit(entryPrice, exitPrice, quality)
  {
    var percentageChange := (exitPrice - entryPrice) / entryPrice * 100.0;
    var percentageLoss := percentageChange / 100.0;
    percentageLoss * quality
  }

  /** One ledger row: its five columns. */
  datatype TradeRow = TradeRow(symbol: string, quality: real, entryPrice: real, exitPrice: real, profit: real)

  /** A filter that selects something: neither None nor the empty string. */
  predicate Selective(filterSymbol: Option<string>)
  {
    filterSymbol.Some? && filterSymbol.value != ""
  }

  /** Whether a row is counted under the filter. */
  predicate Keeps(filterSymbol: Option<string>, row: TradeRow)
  {
    !Selective(filterSymbol) || row.symbol == filterSymbol.value
  }

  /** What `load_data` keeps for one symbol: its profit, its number of trades and of winning trades. */
  datatype Stat = Stat(profit: real, trades: int, wins: int)

  const NoTrades := Stat(0.0, 0, 0)

  /**
   * What `load_data` reports. The three dictionaries of the source
   * (`symbol_profit`, `symbol_trades`, `symbol_wins`) always gain a key
   * together, so they are one map from a symbol to its `Stat`; `symbols`
   * lists the keys in the order they were first inserted, the order in which
   * the per-symbol summary is listed.
   */
  datatype Summary = Summary(tradeCount: nat, totalProfit: real, symbols: seq<string>, bySymbol: map<string, Stat>)

  const EmptySummary := Summary(0, 0.0, [], map[])

  /**
   * `symbols` lists the keys of `bySymbol` once each; every symbol has at
   * least one trade and no more wins than trades.
   */
  ghost predicate Consistent(s: Summary)
  {
    && (forall sym :: sym in s.bySymbol <==> sym in s.symbols)
    && (forall i, j :: 0 <= i < j < |s.symbols| ==> s.symbols[i] != s.symbols[j])
    && (forall sym :: sym in s.bySymbol ==> 0 <= s.bySymbol[sym].wins <= s.bySymbol[sym].trades && 1 <= s.bySymbol[sym].trades)
  }

  /** A symbol seen for the first time gets zero entries and its place in the listing. */
  function Register(s: Summary, sym: string): (r: Summary)
    ensures sym in r.bySymbol
  {
    if sym in s.bySymbol then s
    else s.(symbols := s.symbols + [sym], bySymbol := s.bySymbol[sym := NoTrades])
  }

  /** One more trade with this profit for a symbol. */
  function AddTrade(st: Stat, profit: real): Stat
  {
    Stat(st.profit + profit, st.trades + 1, if profit > 0.0 then st.wins + 1 else st.wins)
  }

  /**
   * The loop body of `load_data` for a row the filter keeps: one trade more
   * in the totals and in the row's symbol, which is listed last if it is new.
   */
  function Tally(s: Summary, row: TradeRow): (r: Summary)
    ensures r.tradeCount == s.tradeCount + 1
    ensures r.totalProfit == s.totalProfit + row.profit
    ensures r.symbols == if row.symbol in s.bySymbol then s.symbols else s.symbols + [row.symbol]
    ensures row.symbol in r.bySymbol
    ensures r.bySymbol[row.symbol]
            == AddTrade(if row.symbol in s.bySymbol then s.bySymbol[row.symbol] else NoTrades, row.profit)
    ensures r.bySymbol == s.bySymbol[row.symbol := r.bySymbol[row.symbol]]
  {
    var t := Register(s, row.symbol);
    Summary(s.tradeCount + 1, s.totalProfit + row.profit, t.symbols,
            t.bySymbol[row.symbol := AddTrade(t.bySymbol[row.symbol], row.profit)])
  }

  /**
   * The summary of the rows, read in order. At most one trade per row is
   * counted, every row without a selective filter, and each listed symbol
   * has a counted trade.
   */
  function Summarize(rows: seq<TradeRow>, filterSymbol: Option<string>): (r: Summary)
    ensures |r.symbols| <= r.tradeCount <= |rows|
    ensures !Selective(filterSymbol) ==> r.tradeCount == |rows|
    decreases |rows|
  {
    if |rows| == 0 then EmptySummary
    else
      var s := Summarize(rows[..|rows| - 1], filterSymbol);
      if Keeps(filterSymbol, rows[|rows| - 1]) then Tally(s, rows[|rows| - 1]) else s
  }

  /** `Tally` with `Register` spelled out. */
  lemma TallyFields(s: Summary, row: TradeRow)
    ensures Tally(s, row).tradeCount == s.tradeCount + 1
    ensures Tally(s, row).totalProfit == s.totalProfit + row.profit
    ensures Tally(s, row).symbols == if row.symbol in s.bySymbol then s.symbols else s.symbols + [row.symbol]
    ensures Tally(s, row).bySymbol
            == s.bySymbol[row.symbol := AddTrade(if row.symbol in s.bySymbol then s.bySymbol[row.symbol] else NoTrades,
                                                 row.profit)]
  {
    if row.symbol !in s.bySymbol {
      assert s.bySymbol[row.symbol := NoTrades][row.symbol := AddTrade(NoTrades, row.profit)]
          == s.bySymbol[row.symbol := AddTrade(NoTrades, row.profit)];
    }
  }

  /** Counting a row keeps the summary consistent. */
  lemma TallyConsistent(s: Summary, row: TradeRow)
    requires Consistent(s)
    ensures Consistent(Tally(s, row))
  {
    TallyFields(s, row);
    var sym := row.symbol;
    var r := Tally(s, row);
    if sym !in s.bySymbol {
      forall i, j | 0 <= i < j < |r.symbols|
        ensures r.symbols[i] != r.symbols[j]
      {
        if j == |s.symbols| {
          assert r.symbols[i] == s.symbols[i];
        } else {
          assert r.symbols[i] == s.symbols[i] && r.symbols[j] == s.symbols[j];
        }
      }
    }
  }

  /** Every summary `load_data` builds is consistent. */
  lemma {:induction false} SummarizeConsistent(rows: seq<TradeRow>, filterSymbol: Option<string>)
    ensures Consistent(Summarize(rows, filterSymbol))
    decreases |rows|
  {
    if |rows| > 0 {
      SummarizeConsistent(rows[..|rows| - 1], filterSymbol);
      if Keeps(filterSymbol, rows[|rows| - 1]) {
        TallyConsistent(Summarize(rows[..|rows| - 1], filterSymbol), rows[|rows| - 1]);
      }
    }
  }

  /** A row the load gets past: one the filter skips, or one with a non-zero entry price. */
  predicate Countable(filterSymbol: Option<string>, row: TradeRow)
  {
    !Keeps(filterSymbol, row) || row.entryPrice != 0.0
  }

  /**
   * `load_data`: a loop over the rows that skips those the filter excludes.
   * The percentage shown beside each counted row divides by its entry price,
   * so a counted row with a zero entry price aborts the load (None).
   */
  method LoadData(rows: seq<TradeRow>, filterSymbol: Option<string>) returns (r: Option<Summary>)
    ensures r.None? <==> exists i :: 0 <= i < |rows| && Keeps(filterSymbol, rows[i]) && rows[i].entryPrice == 0.0
    ensures r.Some? ==> r.value == Summarize(rows, filterSymbol)
  {
    var tradeCount: nat := 0;
    var totalProfit := 0.0;
    var symbols: seq<string> := [];
    var bySymbol: map<string, Stat> := map[];
    var idx := 0;
    while idx < |rows|
      invariant 0 <= idx <= |rows|
      invariant Summary(tradeCount, totalProfit, symbols, bySymbol) == Summarize(rows[..idx], filterSymbol)
      invariant forall i :: 0 <= i < idx ==> Countable(filterSymbol, rows[i])
    {
      var row := rows[idx];
      SummarizeSnoc(rows, idx, filterSymbol);
      if Selective(filterSymbol) && row.symbol != filterSymbol.value {
        idx := idx + 1;
        continue;
      }
      if row.entryPrice == 0.0 {
        return None;
      }
      tradeCount, totalProfit, symbols, bySymbol := CountTrade(tradeCount, totalProfit, symbols, bySymbol, row);
      idx := idx + 1;
    }
    assert rows[..idx] == rows;
    r := Some(Summary(tradeCount, totalProfit, symbols, bySymbol));
  }

  /**
   * The body of the `load_data` loop for a counted row. The source adds to
   * the count and the total before it computes the percentage that may
   * divide by zero; the order does not matter, as a division by zero aborts
   * the whole load.
   */
  method CountTrade(tradeCount: nat, totalProfit: real, symbols: seq<string>, bySymbol: map<string, Stat>, row: TradeRow)
    returns (tradeCount': nat, totalProfit': real, symbols': seq<string>, bySymbol': map<string, Stat>)
    ensures Summary(tradeCount', totalProfit', symbols', bySymbol') == Tally(Summary(tradeCount, totalProfit, symbols, bySymbol), row)
  {
    TallyFields(Summary(tradeCount, totalProfit, symbols, bySymbol), row);
    tradeCount' := tradeCount + 1;
    var profit := row.profit;
    totalProfit' := totalProfit + profit;
    symbols', bySymbol' := symbols, bySymbol;
    if row.symbol !in bySymbol' {
      symbols' := symbols' + [row.symbol];
      bySymbol' := bySymbol'[row.symbol := NoTrades];
    }
    var st := bySymbol'[row.symbol];
    st := st.(profit := st.profit + profit);
    st := st.(trades := st.trades + 1);
    if profit > 0.0 {
      st := st.(wins := st.wins + 1);
    }
    bySymbol' := bySymbol'[row.symbol := st];
  }

  /** One more row: the summary so far, with the row counted if the filter keeps it. */
  lemma SummarizeSnoc(rows: seq<TradeRow>, idx: nat, filterSymbol: Option<string>)
    requires idx < |rows|
    ensures Keeps(filterSymbol, rows[idx]) ==>
              Summarize(rows[..idx + 1], filterSymbol) == Tally(Summarize(rows[..idx], filterSymbol), rows[idx])
    ensures !Keeps(filterSymbol, rows[idx]) ==>
              Summarize(rows[..idx + 1], filterSymbol) == Summarize(rows[..idx], filterSymbol)
  {
    assert rows[..idx + 1][..idx] == rows[..idx];
  }

  // Reference definitions over the rows themselves.

  /** The rows the filter keeps, in order. */
  function Kept(rows: seq<TradeRow>, filterSymbol: Option<string>): seq<TradeRow>
    decreases |rows|
  {
    if |rows| == 0 then []
    else
      var init := Kept(rows[..|rows| - 1], filterSymbol);
      if Keeps(filterSymbol, rows[|rows| - 1]) then init + [rows[|rows| - 1]] else init
  }

  /** Sum of the profit column. */
  function ProfitSum(rows: seq<TradeRow>): real
    decreases |rows|
  {
    if |rows| == 0 then 0.0 else ProfitSum(rows[..|rows| - 1]) + rows[|rows| - 1].profit
  }

  /** Number of rows of a symbol. */
  function TradesOf(rows: seq<TradeRow>, sym: string): nat
    decreases |rows|
  {
    if |rows| == 0 then 0
    else TradesOf(rows[..|rows| - 1], sym) + if rows[|rows| - 1].symbol == sym then 1 else 0
  }

  /** Number of rows of a symbol with a positive profit. */
  function WinsOf(rows: seq<TradeRow>, sym: string): nat
    decreases |rows|
  {
    if |rows| == 0 then 0
    else
      var row := rows[|rows| - 1];
      WinsOf(rows[..|rows| - 1], sym) + if row.symbol == sym && row.profit > 0.0 then 1 else 0
  }

  /** Sum of the profit column over the rows of a symbol. */
  function ProfitOf(rows: seq<TradeRow>, sym: string): real
    decreases |rows|
  {
    if |rows| == 0 then 0.0
    else
      var row := rows[|rows| - 1];
      ProfitOf(rows[..|rows| - 1], sym) + if row.symbol == sym then row.profit else 0.0
  }

  /** The kept rows of a non-empty ledger: those of its prefix, and its last row if the filter keeps it. */
  lemma KeptSnoc(rows: seq<TradeRow>, filterSymbol: Option<string>)
    requires |rows| > 0
    ensures var init := Kept(rows[..|rows| - 1], filterSymbol);
            && (Keeps(filterSymbol, rows[|rows| - 1]) ==> Kept(rows, filterSymbol) == init + [rows[|rows| - 1]])
            && (!Keeps(filterSymbol, rows[|rows| - 1]) ==> Kept(rows, filterSymbol) == init)
  {
  }

  /** Dropping the last element of `xs + [x]` gives back `xs`. */
  lemma DropLast<T>(xs: seq<T>, x: T)
    ensures (xs + [x])[..|xs|] == xs
  {
    assert forall k :: 0 <= k < |xs| ==> (xs + [x])[k] == xs[k];
  }

  /**
   * The summary agrees with the reference definitions: the trade count is the
   * number of kept rows and the total their profit; a symbol has an entry
   * exactly when some kept row has it, and then its entry is the profit, the
   * number and the number with a positive profit of its kept rows.
   */
  lemma SummarizeAgrees(rows: seq<TradeRow>, filterSymbol: Option<string>, sym: string)
    ensures Summarize(rows, filterSymbol).tradeCount == |Kept(rows, filterSymbol)|
    ensures Summarize(rows, filterSymbol).totalProfit == ProfitSum(Kept(rows, filterSymbol))
    ensures sym in Summarize(rows, filterSymbol).bySymbol <==> TradesOf(Kept(rows, filterSymbol), sym) > 0
    ensures sym in Summarize(rows, filterSymbol).bySymbol ==>
              Summarize(rows, filterSymbol).bySymbol[sym]
              == Stat(ProfitOf(Kept(rows, filterSymbol), sym), TradesOf(Kept(rows, filterSymbol), sym),
                      WinsOf(Kept(rows, filterSymbol), sym))
  {
    SummarizeTotals(rows, filterSymbol);
    SummarizeSymbol(rows, filterSymbol, sym);
  }

  lemma {:induction false} SummarizeTotals(rows: seq<TradeRow>, filterSymbol: Option<string>)
    ensures Summarize(rows, filterSymbol).tradeCount == |Kept(rows, filterSymbol)|
    ensures Summarize(rows, filterSymbol).totalProfit == ProfitSum(Kept(rows, filterSymbol))
    decreases |rows|
  {
    if |rows| > 0 {
      SummarizeTotals(rows[..|rows| - 1], filterSymbol);
      KeptSnoc(rows, filterSymbol);
      DropLast(Kept(rows[..|rows| - 1], filterSymbol), rows[|rows| - 1]);
    }
  }

  /** The entry of a symbol in a summary is what the reference definitions give for those rows. */
  ghost predicate AgreesOn(s: Summary, rows: seq<TradeRow>, sym: string)
  {
    && (sym in s.bySymbol <==> TradesOf(rows, sym) > 0)
    && (sym in s.bySymbol ==> s.bySymbol[sym] == Stat(ProfitOf(rows, sym), TradesOf(rows, sym), WinsOf(rows, sym)))
  }

  lemma {:induction false} SummarizeSymbol(rows: seq<TradeRow>, filterSymbol: Option<string>, sym: string)
    ensures AgreesOn(Summarize(rows, filterSymbol), Kept(rows, filterSymbol), sym)
    decreases |rows|
  {
    if |rows| > 0 {
      var init := rows[..|rows| - 1];
      SummarizeSymbol(init, filterSymbol, sym);
      KeptSnoc(rows, filterSymbol);
      DropLast(Kept(rows[..|rows| - 1], filterSymbol), rows[|rows| - 1]);
      if Keeps(filterSymbol, rows[|rows| - 1]) {
        TallyAgrees(Summarize(init, filterSymbol), Kept(init, filterSymbol), rows[|rows| - 1], sym);
      }
    }
  }

  /** Counting a row in the summary and appending it to the rows keeps them in agreement. */
  lemma TallyAgrees(s: Summary, rows: seq<TradeRow>, row: TradeRow, sym: string)
    requires AgreesOn(s, rows, sym)
    ensures AgreesOn(Tally(s, row), rows + [row], sym)
  {
    TallyFields(s, row);
    CountsSnoc(rows, row, sym);
    if sym == row.symbol && sym !in s.bySymbol {
      AbsentSymbol(rows, sym);
    }
  }

  /** The reference counts of a symbol over the rows and one more row. */
  lemma CountsSnoc(rows: seq<TradeRow>, row: TradeRow, sym: string)
    ensures TradesOf(rows + [row], sym) == TradesOf(rows, sym) + if row.symbol == sym then 1 else 0
    ensures WinsOf(rows + [row], sym) == WinsOf(rows, sym) + if row.symbol == sym && row.profit > 0.0 then 1 else 0
    ensures ProfitOf(rows + [row], sym) == ProfitOf(rows, sym) + if row.symbol == sym then row.profit else 0.0
  {
    assert (rows + [row])[..|rows|] == rows;
  }

  /** A symbol without rows has no wins and no profit. */
  lemma {:induction false} AbsentSymbol(rows: seq<TradeRow>, sym: string)
    requires TradesOf(rows, sym) == 0
    ensures WinsOf(rows, sym) == 0 && ProfitOf(rows, sym) == 0.0
    decreases |rows|
  {
    if |rows| > 0 {
      AbsentSymbol(rows[..|rows| - 1], sym);
    }
  }

  /** A falsy filter keeps every row. */
  lemma {:induction false} FalsyFilterKeepsAll(rows: seq<TradeRow>, filterSymbol: Option<string>)
    requires !Selective(filterSymbol)
    ensures Kept(rows, filterSymbol) == rows
    decreases |rows|
  {
    if |rows| > 0 {
      FalsyFilterKeepsAll(rows[..|rows| - 1], filterSymbol);
    }
  }

  /** A selective filter keeps exactly the rows of its symbol. */
  lemma {:induction false} FilterKeepsItsSymbol(rows: seq<TradeRow>, filterSymbol: Option<string>)
    requires Selective(filterSymbol)
    ensures forall k :: 0 <= k < |Kept(rows, filterSymbol)| ==> Kept(rows, filterSymbol)[k].symbol == filterSymbol.value
    ensures |Kept(rows, filterSymbol)| == TradesOf(rows, filterSymbol.value)
    decreases |rows|
  {
    if |rows| > 0 {
      FilterKeepsItsSymbol(rows[..|rows| - 1], filterSymbol);
    }
  }

  /** Sum of the per-symbol trade counts over the listed symbols (a symbol without an entry adds nothing). */
  function SumTrades(keys: seq<string>, m: map<string, Stat>): int
    decreases |keys|
  {
    if |keys| == 0 then 0
    else
      var k := keys[|keys| - 1];
      SumTrades(keys[..|keys| - 1], m) + if k in m then m[k].trades else 0
  }

  /** Sum of the per-symbol profits over the listed symbols (a symbol without an entry adds nothing). */
  function SumProfits(keys: seq<string>, m: map<string, Stat>): real
    decreases |keys|
  {
    if |keys| == 0 then 0.0
    else
      var k := keys[|keys| - 1];
      SumProfits(keys[..|keys| - 1], m) + if k in m then m[k].profit else 0.0
  }

  /** Changing the entry of a key that is not listed does not change a sum. */
  lemma {:induction false} SumsIgnoreUnlisted(keys: seq<string>, m: map<string, Stat>, sym: string, st: Stat)
    requires sym !in keys
    ensures SumTrades(keys, m[sym := st]) == SumTrades(keys, m)
    ensures SumProfits(keys, m[sym := st]) == SumProfits(keys, m)
    decreases |keys|
  {
    if |keys| > 0 {
      SumsIgnoreUnlisted(keys[..|keys| - 1], m, sym, st);
    }
  }

  /** Changing the entry of a key listed once changes a sum by the difference. */
  lemma {:induction false} SumsFollowListed(keys: seq<string>, m: map<string, Stat>, sym: string, st: Stat)
    requires sym in m && sym in keys
    requires forall i, j :: 0 <= i < j < |keys| ==> keys[i] != keys[j]
    ensures SumTrades(keys, m[sym := st]) == SumTrades(keys, m) - m[sym].trades + st.trades
    ensures SumProfits(keys, m[sym := st]) == SumProfits(keys, m) - m[sym].profit + st.profit
    decreases |keys|
  {
    var init := keys[..|keys| - 1];
    if keys[|keys| - 1] == sym {
      assert sym !in init by {
        forall i | 0 <= i < |init| ensures init[i] != sym {
          assert init[i] == keys[i];
        }
      }
      SumsIgnoreUnlisted(init, m, sym, st);
    } else {
      assert sym in init by {
        var i :| 0 <= i < |keys| && keys[i] == sym;
        assert init[i] == sym;
      }
      SumsFollowListed(init, m, sym, st);
    }
  }

  /** The per-symbol entries add up to the totals. */
  ghost predicate Balanced(s: Summary)
  {
    SumTrades(s.symbols, s.bySymbol) == s.tradeCount && SumProfits(s.symbols, s.bySymbol) == s.totalProfit
  }

  /** Counting a row keeps a consistent summary balanced. */
  lemma TallyBalanced(s: Summary, row: TradeRow)
    requires Consistent(s) && Balanced(s)
    ensures Balanced(Tally(s, row))
  {
    TallyFields(s, row);
    var sym := row.symbol;
    if sym in s.bySymbol {
      SumsFollowListed(s.symbols, s.bySymbol, sym, AddTrade(s.bySymbol[sym], row.profit));
    } else {
      NewSymbolBalanced(s, row);
    }
  }

  lemma NewSymbolBalanced(s: Summary, row: TradeRow)
    requires Balanced(s) && row.symbol !in s.symbols
    ensures SumTrades(s.symbols + [row.symbol], s.bySymbol[row.symbol := AddTrade(NoTrades, row.profit)]) == s.tradeCount + 1
    ensures SumProfits(s.symbols + [row.symbol], s.bySymbol[row.symbol := AddTrade(NoTrades, row.profit)])
            == s.totalProfit + row.profit
  {
    var keys := s.symbols + [row.symbol];
    assert keys[..|keys| - 1] == s.symbols;
    SumsIgnoreUnlisted(s.symbols, s.bySymbol, row.symbol, AddTrade(NoTrades, row.profit));
  }

  /** The per-symbol trade counts add up to the trade count, the per-symbol profits to the total profit. */
  lemma {:induction false} PerSymbolSumsToTotals(rows: seq<TradeRow>, filterSymbol: Option<string>)
    ensures SumTrades(Summarize(rows, filterSymbol).symbols, Summarize(rows, filterSymbol).bySymbol)
            == Summarize(rows, filterSymbol).tradeCount
    ensures SumProfits(Summarize(rows, filterSymbol).symbols, Summarize(rows, filterSymbol).bySymbol)
            == Summarize(rows, filterSymbol).totalProfit
    decreases |rows|
  {
    if |rows| > 0 {
      var init := rows[..|rows| - 1];
      PerSymbolSumsToTotals(init, filterSymbol);
      if Keeps(filterSymbol, rows[|rows| - 1]) {
        SummarizeConsistent(init, filterSymbol);
        TallyBalanced(Summarize(init, filterSymbol), rows[|rows| - 1]);
      }
    }
  }

  /** The win rate of a symbol in the summary, in percent. */
  function SymbolWinRate(s: Summary, sym: string): (rate: real)
    requires Consistent(s) && sym in s.bySymbol
    ensures 0.0 <= rate <= 100.0
    ensures rate == 0.0 <==> s.bySymbol[sym].wins == 0
    ensures rate == 100.0 <==> s.bySymbol[sym].wins == s.bySymbol[sym].trades
  {
    var st := s.bySymbol[sym];
    RatioBounds(st.wins, st.trades);
    st.wins as real / st.trades as real * 100.0
  }

  lemma RatioBounds(wins: int, trades: int)
    requires 0 <= wins <= trades && 1 <= trades
    ensures 0.0 <= wins as real / trades as real * 100.0 <= 100.0
    ensures wins as real / trades as real * 100.0 == 0.0 <==> wins == 0
    ensures wins as real / trades as real * 100.0 == 100.0 <==> wins == trades
  {
    var q := wins as real / trades as real;
    assert q * trades as real == wins as real;
    assert (1.0 - q) * trades as real == trades as real - wins as real;
    if q == 1.0 {
      assert wins as real == trades as real;
    }
  }

  /** One line of the per-symbol summary: symbol, total profit, win rate. */
  datatype SymbolLine = SymbolLine(symbol: string, profit: real, winRate: real)

  /** The per-symbol summary, in dictionary order. */
  function SummaryLines(s: Summary): (lines: seq<SymbolLine>)
    requires Consistent(s)
    ensures |lines| == |s.symbols|
    ensures forall k :: 0 <= k < |lines| ==>
              && lines[k].symbol == s.symbols[k]
              && s.symbols[k] in s.bySymbol
              && lines[k].profit == s.bySymbol[s.symbols[k]].profit
              && lines[k].winRate == SymbolWinRate(s, s.symbols[k])
              && 0.0 <= lines[k].winRate <= 100.0
  {
    seq(|s.symbols|, k requires 0 <= k < |s.symbols| =>
      var sym := s.symbols[k];
      SymbolLine(sym, s.bySymbol[sym].profit, SymbolWinRate(s, sym)))
  }

  /**
   * The second loop of `load_data`: one summary line per symbol, in the
   * order the symbols were first seen, with its profit and its win rate.
   */
  method ListSummary(s: Summary) returns (lines: seq<SymbolLine>)
    requires Consistent(s)
    ensures lines == SummaryLines(s)
  {
    lines := [];
    for k := 0 to |s.symbols|
      invariant lines == SummaryLines(s)[..k]
    {
      var sym := s.symbols[k];
      var st := s.bySymbol[sym];
      var winRate := st.wins as real / st.trades as real * 100.0;
      lines := lines + [SymbolLine(sym, st.profit, winRate)];
    }
  }

  /** `update_filter_options`: the set of symbols of the ledger, built row by row. */
  method UpdateFilterOptions(rows: seq<TradeRow>) returns (symbols: set<string>)
    ensures forall sym :: sym in symbols <==> exists i :: 0 <= i < |rows| && rows[i].symbol == sym
  {
    symbols := {};
    for i := 0 to |rows|
      invariant forall sym :: sym in symbols <==> exists j :: 0 <= j < i && rows[j].symbol == sym
    {
      symbols := symbols + {rows[i].symbol};
    }
  }

  lemma {:induction false} TradesOfPositive(rows: seq<TradeRow>, sym: string)
    ensures TradesOf(rows, sym) > 0 <==> exists i :: 0 <= i < |rows| && rows[i].symbol == sym
    decreases |rows|
  {
    if |rows| > 0 {
      var init := rows[..|rows| - 1];
      TradesOfPositive(init, sym);
      if exists i :: 0 <= i < |rows| && rows[i].symbol == sym {
        var i :| 0 <= i < |rows| && rows[i].symbol == sym;
        if i < |init| {
          assert init[i] == rows[i];
        }
      }
      if exists i :: 0 <= i < |init| && init[i].symbol == sym {
        var i :| 0 <= i < |init| && init[i].symbol == sym;
        assert rows[i] == init[i];
      }
    }
  }

  /** The filter choices are exactly the symbols of the unfiltered summary. */
  lemma FilterOptionsAreSummarySymbols(rows: seq<TradeRow>, sym: string)
    ensures (exists i :: 0 <= i < |rows| && rows[i].symbol == sym) <==> sym in Summarize(rows, None).bySymbol
  {
    SummarizeSymbol(rows, None, sym);
    FalsyFilterKeepsAll(rows, None);
    TradesOfPositive(rows, sym);
  }

  /** Under a selective filter, the kept rows of a symbol are its rows when it is the filter's, else none. */
  lemma {:induction false} KeptTrades(rows: seq<TradeRow>, filterSymbol: Option<string>, sym: string)
    requires Selective(filterSymbol)
    ensures TradesOf(Kept(rows, filterSymbol), sym) == if sym == filterSymbol.value then TradesOf(rows, sym) else 0
    decreases |rows|
  {
    if |rows| > 0 {
      KeptTrades(rows[..|rows| - 1], filterSymbol, sym);
      KeptSnoc(rows, filterSymbol);
      DropLast(Kept(rows[..|rows| - 1], filterSymbol), rows[|rows| - 1]);
    }
  }

  /** Filtering by one of the choices summarizes that symbol alone. */
  lemma FilterByOption(rows: seq<TradeRow>, sym: string)
    requires sym != "" && exists i :: 0 <= i < |rows| && rows[i].symbol == sym
    ensures Summarize(rows, Some(sym)).symbols == [sym]
    ensures Summarize(rows, Some(sym)).tradeCount == TradesOf(rows, sym)
  {
    var f := Some(sym);
    var s := Summarize(rows, f);
    SummarizeConsistent(rows, f);
    FilterKeepsItsSymbol(rows, f);
    SummarizeTotals(rows, f);
    SummarizeSymbol(rows, f, sym);
    TradesOfPositive(rows, sym);
    KeptTrades(rows, f, sym);
    assert sym in s.symbols;
    assert |s.symbols| > 1 ==> s.symbols[0] != s.symbols[1];
    forall k | 0 <= k < |s.symbols|
      ensures s.symbols[k] == sym
    {
      var x := s.symbols[k];
      SummarizeSymbol(rows, f, x);
      KeptTrades(rows, f, x);
    }
  }

  /** What pressing "Calculate and Save" does with the four form fields. */
  datatype Submission =
    | MissingField
    | InvalidNumber
    | ZeroEntryPrice
    | Saved(row: TradeRow)

  /**
   * `on_submit`. `parse` stands for Python's float() on a field. The checks
   * come in the order the source makes them: every field filled, then the
   * exit and the entry price parsed, the division by the entry price, and
   * the quality parsed.
   */
  function OnSubmit(symbol: string, quality: string, entryPrice: string, exitPrice: string,
                    parse: string -> Option<real>): (r: Submission)
    ensures r == MissingField <==> symbol == "" || quality == "" || entryPrice == "" || exitPrice == ""
    ensures r == ZeroEntryPrice <==>
              && symbol != "" && quality != "" && entryPrice != "" && exitPrice != ""
              && parse(exitPrice).Some? && parse(entryPrice).Some? && parse(entryPrice).value == 0.0
    ensures r.Saved? <==>
              && symbol != "" && quality != "" && entryPrice != "" && exitPrice != ""
              && parse(exitPrice).Some? && parse(entryPrice).Some? && parse(quality).Some?
              && parse(entryPrice).value != 0.0
    ensures r.Saved? ==>
              r.row == TradeRow(symbol, parse(quality).value, parse(entryPrice).value, parse(exitPrice).value,
                                CalculateProfit(parse(entryPrice).value, parse(exitPrice).value, parse(quality).value))
  {
    if !(symbol != "" && quality != "" && entryPrice != "" && exitPrice != "") then MissingField
    else if parse(exitPrice).None? || parse(entryPrice).None? then InvalidNumber
    else if parse(entryPrice).value == 0.0 then ZeroEntryPrice
    else if parse(quality).None? then InvalidNumber
    else
      var entry := parse(entryPrice).value;
      var exit := parse(exitPrice).value;
      var q := parse(quality).value;
      Saved(TradeRow(symbol, q, entry, exit, CalculateProfit(entry, exit, q)))
  }

  /** `save_to_csv`: the ledger after a submission; nothing is written unless it was saved. */
  function AfterSubmit(ledger: seq<TradeRow>, submission: Submission): (r: seq<TradeRow>)
    ensures submission.Saved? ==> |r| == |ledger| + 1 && r[..|ledger|] == ledger && r[|ledger|] == submission.row
    ensures !submission.Saved? ==> r == ledger
  {
    if submission.Saved? then ledger + [submission.row] else ledger
  }

  /** A saved row is counted by the next unfiltered load: one trade more, its profit added. */
  lemma SavedRowIsCounted(ledger: seq<TradeRow>, row: TradeRow)
    ensures Summarize(ledger + [row], None).tradeCount == Summarize(ledger, None).tradeCount + 1
    ensures Summarize(ledger + [row], None).totalProfit == Summarize(ledger, None).totalProfit + row.profit
    ensures row.symbol in Summarize(ledger + [row], None).bySymbol
  {
    assert (ledger + [row])[..|ledger|] == ledger;
  }
}
