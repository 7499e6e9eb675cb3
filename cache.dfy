/**
 * The incremental candle cache of `update_data`: pages of daily candles are
 * requested from a cursor, appended to what is already cached, and the cursor
 * moves to one millisecond after the last open time; an empty page or a page
 * of fewer than 1000 rows ends the requests.
 *
 * The exchange is the parameter `fetch`, from a cursor (milliseconds
 * since the Unix epoch) to the page it returns. The exchange is
 * taken to return only rows no earlier than the cursor and earlier than an
 * abstract horizon (the present), as `Bounded` says. The horizon makes the
 * requests terminate; the lower bound rules out a repeated boundary bar.
 */
module Cache {
  import opened Wrappers

  /** One cached row: open time in milliseconds since the Unix epoch, and the close. */
  datatype Candle = Candle(openTime: int, close: real)

  /** The most rows the exchange returns per request. */
  const PageSize: nat := 1000

  /** The cursor step after the last open time of a page. */
  const OneMillisecond: int := 1

  /** 2014-01-01 00:00:00 as milliseconds since the Unix epoch: where a fresh cache starts. */
  const FreshStart: int := 1388534400000

  /** Every row of every page lies in [cursor, horizon). */
  ghost predicate Bounded(fetch: int -> seq<Candle>, horizon: int)
  {
    forall cursor: int, k: int :: 0 <= k < |fetch(cursor)| ==> cursor <= fetch(cursor)[k].openTime < horizon
  }

  /** The cursor of the request after a page: its last open time plus one millisecond. */
  function NextCursor(page: seq<Candle>): int
    requires |page| > 0
  {
    page[|page| - 1].openTime + OneMillisecond
  }

  /** A page after which no further request is made: an empty or a short one. */
  predicate EndsPagination(page: seq<Candle>)
  {
    |page| == 0 || |page| < PageSize
  }

  /** Everything the requests starting at `cursor` return, in request order. */
  ghost function Pages(fetch: int -> seq<Candle>, cursor: int, horizon: int): seq<Candle>
    requires Bounded(fetch, horizon)
    decreases horizon - cursor
  {
    var page := fetch(cursor);
    if |page| == 0 then []
    else if |page| < PageSize then page
    else
      assert cursor <= page[|page| - 1].openTime < horizon;
      page + Pages(fetch, NextCursor(page), horizon)
  }

  /** The pages returned at the given cursors, concatenated in that order. */
  ghost function Concat(fetch: int -> seq<Candle>, cursors: seq<int>): seq<Candle>
  {
    if |cursors| == 0 then [] else Concat(fetch, cursors[..|cursors| - 1]) + fetch(cursors[|cursors| - 1])
  }

  /**
   * A trace of requests as the loop makes them: it starts at `start`, every
   * request but the last got a full page and the next one asks from one
   * millisecond after that page's last row, and the last request got an empty
   * or a short page.
   */
  ghost predicate RequestTrace(fetch: int -> seq<Candle>, start: int, cursors: seq<int>)
  {
    && |cursors| > 0
    && cursors[0] == start
    && (forall k :: 0 <= k < |cursors| - 1 ==>
          !EndsPagination(fetch(cursors[k])) && cursors[k + 1] == NextCursor(fetch(cursors[k])))
    && EndsPagination(fetch(cursors[|cursors| - 1]))
  }

  /**
   * The `while True` loop of `update_data` from cursor `start`: the rows
   * already held, followed by every page fetched, in fetch order.
   */
  method Paginate(fetch: int -> seq<Candle>, start: int, ghost horizon: int, existing: seq<Candle>)
    returns (allData: seq<Candle>, ghost requested: seq<int>)
    requires Bounded(fetch, horizon)
    ensures allData == existing + Pages(fetch, start, horizon)
    ensures RequestTrace(fetch, start, requested)
    ensures allData == existing + Concat(fetch, requested)
  {
    allData := existing;
    var cursor := start;
    requested := [];
    while true
      invariant allData == existing + Concat(fetch, requested)
      invariant Chain(fetch, start, requested, cursor)
      decreases horizon - cursor
    {
      var df := fetch(cursor);
      ghost var before := requested;
      requested := requested + [cursor];
      ConcatSnoc(fetch, before, cursor);
      if |df| == 0 {
        FinalRequest(fetch, start, before, cursor);
        break;
      }
      allData := allData + df;
      if |df| < PageSize {
        FinalRequest(fetch, start, before, cursor);
        break;
      }
      FullRequest(fetch, start, before, cursor);
      Advances(fetch, cursor, horizon);
      cursor := NextCursor(df);
    }
    TraceFetchesPages(fetch, start, requested, horizon);
  }

  /**
   * The loop's record so far: the requests made from `start` each got a full
   * page, each asked from one millisecond after the previous page, and
   * `cursor` is where the next one asks from.
   */
  ghost predicate Chain(fetch: int -> seq<Candle>, start: int, cursors: seq<int>, cursor: int)
    decreases |cursors|
  {
    if |cursors| == 0 then cursor == start
    else
      var last := cursors[|cursors| - 1];
      && !EndsPagination(fetch(last))
      && cursor == NextCursor(fetch(last))
      && Chain(fetch, start, cursors[..|cursors| - 1], last)
  }

  lemma {:induction false} ChainSpelledOut(fetch: int -> seq<Candle>, start: int, cursors: seq<int>, cursor: int)
    requires Chain(fetch, start, cursors, cursor)
    ensures |cursors| > 0 ==> cursors[0] == start
    ensures forall k :: 0 <= k < |cursors| ==> !EndsPagination(fetch(cursors[k]))
    ensures forall k :: 0 <= k < |cursors| - 1 ==>
              !EndsPagination(fetch(cursors[k])) && cursors[k + 1] == NextCursor(fetch(cursors[k]))
    ensures |cursors| > 0 ==>
              !EndsPagination(fetch(cursors[|cursors| - 1])) && cursor == NextCursor(fetch(cursors[|cursors| - 1]))
    decreases |cursors|
  {
    if |cursors| > 0 {
      var init := cursors[..|cursors| - 1];
      ChainSpelledOut(fetch, start, init, cursors[|cursors| - 1]);
      assert forall k :: 0 <= k < |init| ==> init[k] == cursors[k];
    }
  }

  lemma ConcatSnoc(fetch: int -> seq<Candle>, cursors: seq<int>, cursor: int)
    ensures Concat(fetch, cursors + [cursor]) == Concat(fetch, cursors) + fetch(cursor)
  {
    assert (cursors + [cursor])[..|cursors|] == cursors;
  }

  /** A non-empty page moves the cursor forward, and not past the horizon. */
  lemma Advances(fetch: int -> seq<Candle>, cursor: int, horizon: int)
    requires Bounded(fetch, horizon) && |fetch(cursor)| > 0
    ensures cursor < NextCursor(fetch(cursor)) <= horizon
  {
    var page := fetch(cursor);
    assert cursor <= page[|page| - 1].openTime < horizon;
  }

  lemma ConcatCons(fetch: int -> seq<Candle>, cursors: seq<int>)
    requires |cursors| > 0
    ensures Concat(fetch, cursors) == fetch(cursors[0]) + Concat(fetch, cursors[1..])
    decreases |cursors|
  {
    if |cursors| > 1 {
      var init := cursors[..|cursors| - 1];
      ConcatCons(fetch, init);
      assert init[1..] == cursors[1..][..|cursors| - 2];
    } else {
      assert cursors[1..] == [];
    }
  }

  /** The rows of a request trace are exactly the pages of the recursive definition. */
  lemma {:induction false} TraceFetchesPages(fetch: int -> seq<Candle>, start: int, cursors: seq<int>, horizon: int)
    requires Bounded(fetch, horizon) && RequestTrace(fetch, start, cursors)
    ensures Concat(fetch, cursors) == Pages(fetch, start, horizon)
    decreases |cursors|
  {
    ConcatCons(fetch, cursors);
    var page := fetch(start);
    if |cursors| == 1 {
      assert cursors[1..] == [];
    } else {
      var rest := cursors[1..];
      assert !EndsPagination(page) && cursors[1] == NextCursor(page);
      Advances(fetch, start, horizon);
      assert RequestTrace(fetch, NextCursor(page), rest) by {
        forall k | 0 <= k < |rest| - 1
          ensures !EndsPagination(fetch(rest[k])) && rest[k + 1] == NextCursor(fetch(rest[k]))
        {
          assert rest[k] == cursors[k + 1] && rest[k + 1] == cursors[k + 2];
        }
      }
      TraceFetchesPages(fetch, NextCursor(page), rest, horizon);
    }
  }

  lemma FinalRequest(fetch: int -> seq<Candle>, start: int, cursors: seq<int>, cursor: int)
    requires Chain(fetch, start, cursors, cursor)
    requires EndsPagination(fetch(cursor))
    ensures RequestTrace(fetch, start, cursors + [cursor])
  {
    ChainSpelledOut(fetch, start, cursors, cursor);
    var all := cursors + [cursor];
    forall k | 0 <= k < |all| - 1
      ensures !EndsPagination(fetch(all[k])) && all[k + 1] == NextCursor(fetch(all[k]))
    {
      assert all[k] == cursors[k];
      if k + 1 < |cursors| {
        assert all[k + 1] == cursors[k + 1];
      }
    }
  }

  lemma FullRequest(fetch: int -> seq<Candle>, start: int, cursors: seq<int>, cursor: int)
    requires Chain(fetch, start, cursors, cursor)
    requires !EndsPagination(fetch(cursor))
    ensures Chain(fetch, start, cursors + [cursor], NextCursor(fetch(cursor)))
  {
    assert (cursors + [cursor])[..|cursors|] == cursors;
  }

  /** The outcome of `update_data`. */
  datatype Update =
    | Updated(series: seq<Candle>)
      /**
       * The file holds no row: a cache with no row has no last open time to
       * resume from, and a fresh download whose first page is empty writes a
       * file that cannot be read back.
       */
    | NoRows

  /**
   * `update_data`: without a cache, page forward from 2014-01-01; with one,
   * resume one millisecond after its last open time and keep its rows as they
   * are in front of the new ones. The series returned is the file read back,
   * which fails when nothing was ever written to it.
   */
  method UpdateData(cached: Option<seq<Candle>>, fetch: int -> seq<Candle>, ghost horizon: int)
    returns (r: Update)
    requires Bounded(fetch, horizon)
    ensures cached.None? && fetch(FreshStart) == [] ==> r == NoRows
    ensures cached.None? && fetch(FreshStart) != [] ==> r == Updated(Pages(fetch, FreshStart, horizon))
    ensures cached == Some([]) ==> r == NoRows
    ensures cached.Some? && cached.value != [] ==>
              r == Updated(cached.value + Pages(fetch, NextCursor(cached.value), horizon))
    ensures r.Updated? ==> r.series != []
  {
    if cached.None? {
      var allData, _ := Paginate(fetch, FreshStart, horizon, []);
      if |allData| == 0 {
        return NoRows;
      }
      r := Updated(allData);
    } else {
      var existing := cached.value;
      if |existing| == 0 {
        return NoRows;
      }
      var lastTime := existing[|existing| - 1].openTime;
      var allData, _ := Paginate(fetch, lastTime + OneMillisecond, horizon, existing);
      r := Updated(allData);
    }
  }

  /** An empty first page leaves the cache as it was. */
  lemma EmptyFetchKeepsCache(fetch: int -> seq<Candle>, cursor: int, horizon: int, existing: seq<Candle>)
    requires Bounded(fetch, horizon) && fetch(cursor) == []
    ensures existing + Pages(fetch, cursor, horizon) == existing
  {
  }

  /** A short first page is the last one requested. */
  lemma ShortPageIsLast(fetch: int -> seq<Candle>, cursor: int, horizon: int)
    requires Bounded(fetch, horizon) && 0 < |fetch(cursor)| < PageSize
    ensures Pages(fetch, cursor, horizon) == fetch(cursor)
  {
  }

  /** Every fetched row lies between the cursor and the horizon. */
  lemma {:induction false} PagesWithinWindow(fetch: int -> seq<Candle>, cursor: int, horizon: int)
    requires Bounded(fetch, horizon)
    ensures forall k :: 0 <= k < |Pages(fetch, cursor, horizon)| ==>
              cursor <= Pages(fetch, cursor, horizon)[k].openTime < horizon
    decreases horizon - cursor
  {
    var page := fetch(cursor);
    if page != [] && |page| >= PageSize {
      var next := NextCursor(page);
      assert cursor <= page[|page| - 1].openTime < horizon;
      PagesWithinWindow(fetch, next, horizon);
      var rest := Pages(fetch, next, horizon);
      assert Pages(fetch, cursor, horizon) == page + rest;
      forall k | 0 <= k < |page + rest|
        ensures cursor <= (page + rest)[k].openTime < horizon
      {
        if k >= |page| {
          assert (page + rest)[k] == rest[k - |page|];
        }
      }
    }
  }

  /** Open times strictly increase along a series. */
  ghost predicate Ascending(s: seq<Candle>)
  {
    forall i, j :: 0 <= i < j < |s| ==> s[i].openTime < s[j].openTime
  }

  lemma AscendingConcat(a: seq<Candle>, b: seq<Candle>)
    requires Ascending(a) && Ascending(b)
    requires forall i, j :: 0 <= i < |a| && 0 <= j < |b| ==> a[i].openTime < b[j].openTime
    ensures Ascending(a + b)
  {
    forall i, j | 0 <= i < j < |a + b|
      ensures (a + b)[i].openTime < (a + b)[j].openTime
    {
      if j < |a| {
      } else if i >= |a| {
        assert (a + b)[i] == b[i - |a|] && (a + b)[j] == b[j - |a|];
      } else {
        assert (a + b)[j] == b[j - |a|];
      }
    }
  }

  /**
   * When every page the exchange returns is in ascending order, the pages of a
   * pagination run are in ascending order as a whole.
   */
  lemma {:induction false} PagesAscending(fetch: int -> seq<Candle>, cursor: int, horizon: int)
    requires Bounded(fetch, horizon)
    requires forall t :: Ascending(fetch(t))
    ensures Ascending(Pages(fetch, cursor, horizon))
    decreases horizon - cursor
  {
    var page := fetch(cursor);
    if page != [] && |page| >= PageSize {
      var next := NextCursor(page);
      assert cursor <= page[|page| - 1].openTime < horizon;
      PagesAscending(fetch, next, horizon);
      PagesWithinWindow(fetch, next, horizon);
      var rest := Pages(fetch, next, horizon);
      forall i, j | 0 <= i < |page| && 0 <= j < |rest|
        ensures page[i].openTime < rest[j].openTime
      {
        assert page[i].openTime <= page[|page| - 1].openTime;
      }
      AscendingConcat(page, rest);
    }
  }

  /**
   * Resuming keeps the series in ascending order across the old/new boundary:
   * an ascending cache extended by the pages fetched from one millisecond after
   * its last row is ascending, when the exchange's pages are.
   */
  lemma ResumeKeepsOrder(fetch: int -> seq<Candle>, existing: seq<Candle>, horizon: int)
    requires Bounded(fetch, horizon)
    requires forall t :: Ascending(fetch(t))
    requires existing != [] && Ascending(existing)
    ensures Ascending(existing + Pages(fetch, NextCursor(existing), horizon))
  {
    var cursor := NextCursor(existing);
    PagesAscending(fetch, cursor, horizon);
    PagesWithinWindow(fetch, cursor, horizon);
    var fetched := Pages(fetch, cursor, horizon);
    forall i, j | 0 <= i < |existing| && 0 <= j < |fetched|
      ensures existing[i].openTime < fetched[j].openTime
    {
      assert existing[i].openTime <= existing[|existing| - 1].openTime;
    }
    AscendingConcat(existing, fetched);
  }
}
