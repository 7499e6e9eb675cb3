# EMA crossover back-test and trade ledger, in Dafny

This project models the core of a small trading toolkit in two programs.

- `index2.py` caches daily candles of a symbol, page by page, and adds the
  12- and 26-bar exponential moving averages of the closes. It then runs a
  long-only crossover back-test. A position is opened when the fast average
  is above the slow one and closed when the slow one is above the fast one.
  Each bar gets an entry flag, an exit flag and a profit cell, and the
  back-test reports the total profit and the win rate.
- `index.py` is a ledger of manual trades. Loading it counts the trades the
  symbol filter keeps and sums their profit. For each symbol it keeps the
  profit, the number of trades and the number of winning trades. The filter
  choices are the distinct symbols of the ledger. Submitting the form appends
  a row whose profit is computed from the prices.

The modules follow the programs:

- `Smoothing` holds the averages (`calculate_ema`, `add_ema`).
- `Signals` holds `calculate_profit` and `add_signals_and_profits`.
- `Cache` holds the pagination of `update_data`.
- `Ledger` holds the modelled logic of `index.py`.
- `Wrappers` holds `Option`.

Every modelled loop of the source is a Dafny method with a `while` or `for`
loop. All but one are proved equal to a reference function:
`StateAt`/`MarkAt` for the back-test, `Pages` for the pagination,
`Summarize` for the ledger and `SummaryLines` for its per-symbol listing.
The exception is `UpdateFilterOptions`, whose set of symbols is described
directly by a quantified condition on the rows.
Further lemmas relate each reference function to independent definitions
over the input rows.

The market data source (`fetch_data`) is the parameter `fetch`. It is a
function from a cursor in milliseconds since the Unix epoch to the page of
candles the exchange returns. Python's `float()` on a form field is the
parameter `parse` of `OnSubmit`. Files, the network and the GUI are not
modelled. Prices and profits are `real`s, not floats.

## Model

| member | source | states |
|---|---|---|
| Smoothing.Alpha | index2.py:63-64 | The smoothing factor of a span lies in (0, 1] and equals 2 / (span + 1), the factor pandas uses for `span` with `adjust=False`. |
| Smoothing.Ema | index2.py:63-64 | The averages have one value per input, and the first one is the first input. |
| Smoothing.CalculateEma | index2.py:63-64 | The average of a span has one value per close. The first is the first close, and every later one is the span's factor times the close plus (1 - factor) times the previous average. |
| Smoothing.AddEma | index2.py:66-69 | Both added columns have one value per close: the average with factor 2/13 and the one with factor 2/27. |
| Smoothing.EmaRecurrence | index2.py:63-64 | The first average is the first close. Every later one is alpha times the close plus (1 - alpha) times the previous average. |
| Smoothing.EmaWithinRange | index2.py:63-64 | If every close lies in [lo, hi], so does every average, for any alpha in [0, 1]. |
| Smoothing.EmaOfConstant | index2.py:63-64 | The average of a constant series is that constant at every bar. |
| Signals.CalculateProfit | index2.py:71-75 | The profit is (exit - entry) / entry times quality. It is zero when the prices are equal. For a positive entry and quality it is positive exactly when the exit is above the entry. The quality defaults to 0.0001, as in the source. |
| Signals.Step | index2.py:88-107 | One bar of the back-test: it flags an entry exactly when EMA12 > EMA26 while flat and an exit exactly when EMA26 > EMA12 while long, never both. An open position keeps a non-zero entry price. |
| Signals.WinRate | index2.py:109 | The rate is 0 without trades, lies in [0, 100] when wins do not exceed trades, and is 100 when every trade won. |
| Signals.StateMatchesMarks | index2.py:81-107 | After k bars, the trade count is the number of exit bars and the wins are the exits with a positive profit. The total profit is the sum over exit bars. There is one more entry than exits exactly while holding, and an open position was opened at the close of the last entry bar. |
| Signals.Alternation | index2.py:88-99 | Entries and exits alternate, starting with an entry. |
| Signals.WarmUpBarsUnmarked | index2.py:78-87 | Bars before index 26 are neither flagged nor given a profit, and they leave the state at its start. The same is stated of the arrays the loop returns by `Signals.AddSignalsAndProfits`. |
| Signals.TransitionRules | index2.py:88-102 | An entry fires exactly when EMA12 > EMA26 while flat, and an exit exactly when EMA26 > EMA12 while long, never both. An entry opens at the bar's close with a zero profit cell, an exit leaves the position flat, and equal averages change nothing. |
| Signals.ExitRealizesLastEntry | index2.py:92-97 | An exit bar's profit cell is the profit from the close of the most recent entry bar to its own close. |
| Signals.HoldMarksToMarket | index2.py:103-107 | On a bar without a transition the state is kept. The profit cell is the unrealized profit against the last entry close while long, and 0 while flat. |
| Signals.ShortSeriesTradesNothing | index2.py:87 | A series of at most 26 bars yields no entry, no exit and the initial state. |
| Signals.AddSignalsAndProfits | index2.py:77-110 | The three columns are new arrays with one cell per bar, and bar i holds exactly the reference marks of bar i. Bars before 26 are unmarked and no bar is both an entry and an exit. The total profit is the state's total and the sum of the exit profits. The win rate is `WinRate` of the final counters and lies in [0, 100]. A short series gives 0 and 0. The quality defaults to 0.0001. |
| Signals.Simulate | index2.py:78-107 | The loop leaves the reference marks of every bar in the arrays, and the reference's final counters in its locals. |
| Signals.MarkBar | index2.py:88-107 | One pass of the loop body performs one reference transition. It writes bar i's cells and no other. |
| Cache.Paginate | index2.py:38-45 | The result is the rows held before, followed by every page fetched from the start cursor. The requests made form a trace: each follows a full page and asks from one millisecond after that page's last row, and the last one got an empty or short page. |
| Cache.UpdateData | index2.py:31-61 | Without a cache, the result pages forward from 2014-01-01. With one, the cached rows come first, unchanged, followed by the pages from one millisecond after the last cached row. Either way the series read back holds at least one row. The outcome is `NoRows` when there is nothing to read back: a cache with no row, or no cache and an empty first page, where the source writes an empty file that `pd.read_csv` cannot read back. |
| Cache.TraceFetchesPages | index2.py:38-45 | Any request trace from a cursor fetches exactly the rows of `Pages` from that cursor. |
| Cache.EmptyFetchKeepsCache | index2.py:39-41 | An empty first page leaves the rows as they were. For the loop itself, `Cache.Paginate`'s request trace ends at the first empty or short page. |
| Cache.ShortPageIsLast | index2.py:44-45 | A page of fewer than 1000 rows is the last page fetched. For the loop itself, `Cache.Paginate`'s request trace ends at the first empty or short page. |
| Cache.PagesWithinWindow | index2.py:38-45 | Every fetched row lies between the start cursor and the horizon. |
| Cache.PagesAscending | index2.py:38-45 | If every page is in ascending open-time order, so is everything fetched. This also uses that no row of a page is earlier than its cursor. |
| Cache.ResumeKeepsOrder | index2.py:48-59 | An ascending cache stays ascending after a resumed update, so no row is fetched twice. This holds when every page is ascending and no row of a page is earlier than its cursor. |
| Ledger.PercentageProfit | index.py:12-15 | The percentage times the entry is 100 times (exit - entry). It is zero for equal prices and, for a positive entry, positive exactly when the exit is above the entry. |
| Ledger.CalculateProfit | index.py:5-9 | The profit is the percentage return, back to a fraction, times quality. It is the same formula as the back-test's `calculate_profit`. |
| Ledger.LoadData | index.py:17-58 | The load fails exactly when some row the filter keeps has a zero entry price (the percentage column divides by it). Otherwise its result is the summary `Summarize` of the rows. |
| Ledger.Tally | index.py:37-45 | Counting a row adds one trade and its profit to the totals. A new symbol is listed last. The row's symbol then has its earlier profit, trades and wins (or none) plus this trade. Every other symbol keeps its entry, or its absence. |
| Ledger.Summarize | index.py:29-45 | At most one trade is counted per row, and every row is counted without a selective filter. There are no more listed symbols than counted trades. |
| Ledger.CountTrade | index.py:32-45 | One counted row adds a trade and its profit to the totals, registers a new symbol at the end of the listing, and adds the trade to that symbol's profit, trades and, for a positive profit, wins. |
| Ledger.SummarizeConsistent | index.py:37-45 | The listed symbols are the dictionary keys, each listed once, and every symbol has at least one trade and no more wins than trades. |
| Ledger.SummarizeAgrees | index.py:29-45 | The trade count is the number of kept rows and the total is their profit. A symbol has an entry exactly when some kept row has it, and that entry is the profit, the number and the number of winning kept rows of that symbol. |
| Ledger.TallyAgrees | index.py:37-45 | Counting one more row keeps a summary in agreement with the rows plus that row. |
| Ledger.FalsyFilterKeepsAll | index.py:30-31 | Without a filter, or with the empty string, every row is kept. |
| Ledger.FilterKeepsItsSymbol | index.py:30-31 | A selective filter keeps only rows of its symbol, all of them. |
| Ledger.PerSymbolSumsToTotals | index.py:32-45 | The per-symbol trade counts add up to the trade count, and the per-symbol profits to the total profit. |
| Ledger.SymbolWinRate | index.py:54-55 | A symbol's win rate lies in [0, 100]. It is 0 exactly when the symbol has no win and 100 exactly when every trade won. The division is safe because a listed symbol has a trade. |
| Ledger.SummaryLines | index.py:54-58 | The summary has one line per symbol, in first-seen order, with that symbol's profit and win rate. |
| Ledger.ListSummary | index.py:54-58 | The loop over the symbols yields exactly the summary lines, one per symbol in first-seen order, with its profit and win rate. |
| Ledger.UpdateFilterOptions | index.py:112-121 | The choices are exactly the symbols occurring in the ledger. |
| Ledger.TradesOfPositive | index.py:112-121 | A symbol has a trade exactly when some row has that symbol. |
| Ledger.FilterOptionsAreSummarySymbols | index.py:112-121 | The choices are exactly the symbols of the unfiltered summary. |
| Ledger.FilterByOption | index.py:123-125 | Filtering by a choice lists that symbol alone, with all of its rows counted. |
| Ledger.OnSubmit | index.py:93-110 | An empty field is reported first. The outcome is `ZeroEntryPrice` exactly when all fields are filled, both prices parse and the entry price is zero. A row is saved exactly when all fields are filled, the three numbers parse and the entry price is not zero. The saved row holds the fields and the profit computed from them. |
| Ledger.AfterSubmit | index.py:64-67 | A saved submission appends exactly its row to the ledger, and any other outcome leaves the ledger as it was. |
| Ledger.SavedRowIsCounted | index.py:64-69 | After a save, the next unfiltered load counts one trade more, adds the row's profit and lists its symbol. |

## Left out

- The Tk window, its widgets, message boxes and `main`'s prompt loop: they are user interface, not logic. `on_filter` is modelled only through `FilterByOption`.
- Reading and writing the CSV files (`trading_data.csv`, `data/<symbol>.csv`, the processed output) and the text formatting of numbers. Rows are given to the model as values.
- `delete_selected`: it compares the rows it reformats as text against a selected widget row. Text formatting of floats is not modelled.
- The HTTP request and JSON decoding in `fetch_data`. The exchange is the `fetch` parameter. It is assumed (`Bounded`) to return only rows at or after the requested cursor and before an abstract horizon. The horizon gives termination. The lower bound is what rules out an overlapping boundary bar in `PagesAscending` and `ResumeKeepsOrder`.
- Floating point: all prices, averages and profits are mathematical reals, so rounding and NaN are not modelled.
- Smoothing.AddEma: it returns the two columns instead of adding them to a data frame in place.
- Cache.UpdateData: `datetime(2014, 1, 1).timestamp()` in the source is in the machine's local time zone; the model takes 2014-01-01 00:00 UTC.
- Cache.UpdateData: the CSV format is not modelled: how the file is written, and how the candles' open times are parsed back. The cached rows are given as values, and the final re-read returns the rows just written. The one failure of the re-read that the model keeps is a file with no row, as `NoRows`.
- Cache.UpdateData: no deduplication. The code only concatenates pages (index2.py:42, 56), so a bar the exchange returned twice would be kept twice. `ResumeKeepsOrder` proves the order, and so no duplicates, only under two assumptions: every page is ascending, and no row of a page is earlier than its cursor.
- Signals.AddSignalsAndProfits: it requires a non-zero close at every bar from index 26 on. The source only fails (a ZeroDivisionError, caught by `main`) once a position opened at a zero close is later held or closed.
- Signals.Simulate: the same non-zero-close requirement as `AddSignalsAndProfits`.
- Signals.MarkBar: requires the bar's close to be non-zero, and an open position's entry price to be non-zero, for the same reason.
- Signals.Step: requires the bar's close to be non-zero, and an open position's entry price to be non-zero, for the same reason.
- Ledger.LoadData: a missing file and rows with fewer than five columns or unparsable numbers are not modelled; rows arrive already parsed. The per-row listing in the data table is not modelled beyond the zero-entry failure of its percentage column.
- Ledger.LoadData: the three dictionaries `symbol_profit`, `symbol_trades` and `symbol_wins` are one map from a symbol to its three values, because they always gain a key together.
- Ledger.OnSubmit: the uncaught ZeroDivisionError for a zero entry price is the outcome `ZeroEntryPrice`. Displaying the profit is not modelled.
