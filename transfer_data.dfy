/**
 * `useTransferData`: the BTC filter, the paging loop `fetchAllPages` with
 * its abort flag, and the state the hook publishes.
 *
 * A run of `fetchAllPages` is an `async` function that suspends at each page
 * request. It is modelled as a `Run` object holding the loop's local
 * variables and its abort flag, and a `TransferStore` holding the hook's
 * state. `StartRun` is the synchronous part up to the first request, and
 * each `Resume` is the part between receiving one page and sending the next
 * request or returning. Between those steps another run may start, which is
 * how the source interleaves.
 */
module TransferData {
  import opened Wrappers
  import opened Text
  import opened Transfers
  import opened AnalyzeData
  import opened UtcDates
  import opened FetchRetry

  /** The safety limit on requests per run. */
  const MaxPages := 100
  const StatusParam := "DONE"
  const LimitParam := 1000
  const FallbackError := "Error loading data. Please check the API."
  /** The message of the `TypeError` V8 throws for `.json()` on the `undefined` of a failed fetch. */
  const NoResponseError := "Cannot read properties of undefined (reading 'json')"

  // ----- The BTC filter -----

  /** `isBtcTx`: the lower-cased sending or receiving symbol contains "btc". */
  predicate IsBtcTx(tx: Transfer)
  {
    Contains(Lower(tx.sending.token.symbol), "btc") || Contains(Lower(tx.receiving.token.symbol), "btc")
  }

  /** The transfers that touch a BTC token, in input order. */
  function BtcOnly(data: seq<Transfer>): (r: seq<Transfer>)
    ensures |r| <= |data|
    decreases |data|
  {
    if data == [] then []
    else if IsBtcTx(data[0]) then [data[0]] + BtcOnly(data[1..])
    else BtcOnly(data[1..])
  }

  /** The filter keeps exactly the BTC transfers. */
  lemma {:induction false} BtcOnlyMembers(data: seq<Transfer>)
    ensures forall x :: x in BtcOnly(data) <==> x in data && IsBtcTx(x)
    decreases |data|
  {
    if data != [] {
      BtcOnlyMembers(data[1..]);
      assert forall x :: x in data <==> x == data[0] || x in data[1..];
    }
  }

  /** The transfers the analysis sees: all of them, or only the BTC ones when the filter is on. */
  function Filtered(data: seq<Transfer>, on: bool): seq<Transfer>
  {
    if on then BtcOnly(data) else data
  }

  /** The filter does not depend on the direction of a transfer. */
  lemma IsBtcTxSymmetric(tx: Transfer)
    ensures IsBtcTx(Swap(tx)) <==> IsBtcTx(tx)
  {
  }

  /** Filtering twice is filtering once. */
  lemma {:induction false} FilterIdempotent(data: seq<Transfer>, on: bool)
    ensures Filtered(Filtered(data, on), on) == Filtered(data, on)
    decreases |data|
  {
    if on && data != [] {
      FilterIdempotent(data[1..], on);
      if IsBtcTx(data[0]) {
        assert ([data[0]] + BtcOnly(data[1..]))[1..] == BtcOnly(data[1..]);
      }
    }
  }

  /** Filtering keeps input order: filtering the pages one by one and concatenating is filtering the whole. */
  lemma {:induction false} BtcOnlyAppend(a: seq<Transfer>, b: seq<Transfer>)
    ensures BtcOnly(a + b) == BtcOnly(a) + BtcOnly(b)
    decreases |a|
  {
    if a != [] {
      assert (a + b)[1..] == a[1..] + b;
      BtcOnlyAppend(a[1..], b);
    } else {
      assert a + b == b;
    }
  }

  // ----- Pages and the paging loop, as a function of the server's replies -----

  /** A parsed reply: its transfers (none when absent), its `next` cursor ("" when absent or null) and whether `hasNext` is exactly `true`. */
  datatype Page = Page(data: seq<Transfer>, next: string, hasNext: bool)

  /** What `response.json()` gives: the page, or the message of the error it throws. */
  datatype Body = Unreadable(message: string) | Readable(page: Page)

  /** The outcome of one page request: the page, or the message of the error the run catches. */
  datatype Fetched = Failed(message: string) | Got(page: Page)

  /** The reply of `fetchWithRetry`, read with `response.json()`. */
  function Outcome(response: Option<Body>): Fetched
  {
    match response
    case None => Failed(NoResponseError)
    case Some(Unreadable(m)) => Failed(m)
    case Some(Readable(p)) => Got(p)
  }

  /**
   * The network as an oracle: `net(n)(k)` is what attempt `k` at the request
   * for page `n` gets. `PageOutcome` is what the run receives for page `n`.
   */
  type Net = nat -> nat -> Reply<Body>

  function PageOutcome(net: Net, n: nat): Fetched
  {
    Outcome(FirstOk(net(n), 1, DefaultRetries))
  }

  /** The cursor a page returns: its `next` when that is a non-empty string, none otherwise. */
  function NextCursor(page: Page): Option<string>
  {
    if page.next != "" then Some(page.next) else None
  }

  /** Why a run's loop ended. */
  datatype Stop = EmptyPage | LastPage | CursorRepeated | PageLimit | Error(message: string)

  /** The end of a run: what it accumulated, why it stopped, and how many requests it made. */
  datatype CrawlResult = CrawlResult(data: seq<Transfer>, stop: Stop, pages: nat)

  /** After one reply, the loop either goes on with new locals or is over. */
  datatype Next = Continue(accumulated: seq<Transfer>, cursor: Option<string>) | Done(result: CrawlResult)

  /**
   * One iteration after the reply `f` to the request for page `n`, which
   * carried `cursor`: an error, an empty page, a last page, a repeated
   * cursor, or the page limit ends the loop; otherwise the page is appended
   * and the loop goes on with the new cursor.
   */
  function Handle(accumulated: seq<Transfer>, cursor: Option<string>, n: nat, f: Fetched): Next
  {
    match f
    case Failed(m) => Done(CrawlResult(accumulated, Error(m), n))
    case Got(page) =>
      if page.data == [] then Done(CrawlResult(accumulated, EmptyPage, n))
      else
        var acc := accumulated + page.data;
        var next := NextCursor(page);
        if !page.hasNext then Done(CrawlResult(acc, LastPage, n))
        else if next.Some? && next == cursor then Done(CrawlResult(acc, CursorRepeated, n))
        else if n >= MaxPages then Done(CrawlResult(acc, PageLimit, n))
        else Continue(acc, next)
  }

  /** The data of a reply: the page's transfers, none for an error. */
  function DataOf(f: Fetched): seq<Transfer>
  {
    if f.Got? then f.page.data else []
  }

  /** The transfers of pages `n..m`, in order. */
  function Collected(net: Net, n: nat, m: nat): seq<Transfer>
    decreases m - n + 1
  {
    if m < n then [] else DataOf(PageOutcome(net, n)) + Collected(net, n + 1, m)
  }

  /** Page `k` came back non-empty and announced another page. */
  predicate Continued(net: Net, k: nat)
  {
    PageOutcome(net, k).Got? && PageOutcome(net, k).page.data != [] && PageOutcome(net, k).page.hasNext
  }

  /**
   * The loop from the request for page `n`, which carries `cursor`, with
   * `accumulated` collected so far. It makes at most `MaxPages` requests.
   */
  function Crawl(net: Net, accumulated: seq<Transfer>, cursor: Option<string>, n: nat): (r: CrawlResult)
    requires 1 <= n <= MaxPages
    ensures n <= r.pages <= MaxPages
    decreases MaxPages - n
  {
    match Handle(accumulated, cursor, n, PageOutcome(net, n))
    case Done(r) => r
    case Continue(acc, next) => Crawl(net, acc, next, n + 1)
  }

  /** A run accumulates the transfers of every page it received, in order. */
  lemma {:induction false} CrawlCollects(net: Net, accumulated: seq<Transfer>, cursor: Option<string>, n: nat)
    requires 1 <= n <= MaxPages
    ensures Crawl(net, accumulated, cursor, n).data == accumulated + Collected(net, n, Crawl(net, accumulated, cursor, n).pages)
    decreases MaxPages - n
  {
    assert Collected(net, n + 1, n) == [];
    var h := Handle(accumulated, cursor, n, PageOutcome(net, n));
    if h.Continue? {
      CrawlCollects(net, h.accumulated, h.cursor, n + 1);
      var r := Crawl(net, h.accumulated, h.cursor, n + 1);
      assert accumulated + Collected(net, n, r.pages) == h.accumulated + Collected(net, n + 1, r.pages);
    }
  }

  /** Every page before the last came back non-empty and announced another. */
  lemma {:induction false} CrawlContinues(net: Net, accumulated: seq<Transfer>, cursor: Option<string>, n: nat)
    requires 1 <= n <= MaxPages
    ensures forall k :: n <= k < Crawl(net, accumulated, cursor, n).pages ==> Continued(net, k)
    decreases MaxPages - n
  {
    var h := Handle(accumulated, cursor, n, PageOutcome(net, n));
    if h.Continue? {
      CrawlContinues(net, h.accumulated, h.cursor, n + 1);
    }
  }

  /** The reply to the last request is the reason the run stopped. */
  predicate StoppedBy(net: Net, cursor: Option<string>, n: nat, r: CrawlResult)
  {
    var last := PageOutcome(net, r.pages);
    && (r.stop.Error? ==> last == Failed(r.stop.message))
    && (r.stop == EmptyPage ==> last.Got? && last.page.data == [])
    && (r.stop == LastPage ==> last.Got? && last.page.data != [] && !last.page.hasNext)
    && (r.stop == PageLimit ==> r.pages == MaxPages && Continued(net, r.pages))
    && (r.stop == CursorRepeated ==>
          && Continued(net, r.pages)
          && NextCursor(last.page).Some?
          && (r.pages == n ==> NextCursor(last.page) == cursor)
          && (r.pages > n ==> Continued(net, r.pages - 1) && NextCursor(last.page) == NextCursor(PageOutcome(net, r.pages - 1).page)))
  }

  lemma {:induction false} CrawlStops(net: Net, accumulated: seq<Transfer>, cursor: Option<string>, n: nat)
    requires 1 <= n <= MaxPages
    ensures StoppedBy(net, cursor, n, Crawl(net, accumulated, cursor, n))
    decreases MaxPages - n
  {
    var h := Handle(accumulated, cursor, n, PageOutcome(net, n));
    if h.Continue? {
      CrawlStops(net, h.accumulated, h.cursor, n + 1);
      var r := Crawl(net, h.accumulated, h.cursor, n + 1);
      if r.stop == CursorRepeated && r.pages == n + 1 {
        assert h.cursor == NextCursor(PageOutcome(net, n).page);
      }
    }
  }

  /**
   * The cursor request `k` of a loop that started at page `n` with `cursor`
   * carried: `cursor` itself for the first request, the previous page's
   * cursor after that.
   */
  function SentCursor(net: Net, cursor: Option<string>, n: nat, k: nat): Option<string>
    requires n <= k
  {
    if k == n then cursor
    else if PageOutcome(net, k - 1).Got? then NextCursor(PageOutcome(net, k - 1).page)
    else None
  }

  /** Page `k` did not return a non-null cursor equal to the one its request carried. */
  predicate NewCursorAt(net: Net, cursor: Option<string>, n: nat, k: nat)
    requires n <= k
  {
    PageOutcome(net, k).Got? && NextCursor(PageOutcome(net, k).page).Some? ==>
      NextCursor(PageOutcome(net, k).page) != SentCursor(net, cursor, n, k)
  }

  /** A repeated non-null cursor stops the loop: no page before the last repeats the cursor it was requested with. */
  lemma {:induction false} CrawlNoRepeatBeforeStop(net: Net, accumulated: seq<Transfer>, cursor: Option<string>, n: nat)
    requires 1 <= n <= MaxPages
    ensures forall k :: n <= k < Crawl(net, accumulated, cursor, n).pages ==> NewCursorAt(net, cursor, n, k)
    decreases MaxPages - n
  {
    var h := Handle(accumulated, cursor, n, PageOutcome(net, n));
    if h.Continue? {
      var r := Crawl(net, h.accumulated, h.cursor, n + 1);
      CrawlNoRepeatBeforeStop(net, h.accumulated, h.cursor, n + 1);
      assert h.cursor == NextCursor(PageOutcome(net, n).page);
      assert NewCursorAt(net, cursor, n, n);
      forall k | n + 1 <= k < r.pages
        ensures NewCursorAt(net, cursor, n, k)
      {
        assert NewCursorAt(net, h.cursor, n + 1, k);
        assert SentCursor(net, cursor, n, k) == SentCursor(net, h.cursor, n + 1, k);
      }
    }
  }

  /** The request for the next page; the cursor is sent only when there is one. */
  datatype Request = Request(status: string, limit: int, fromTimestamp: Option<int>, toTimestamp: Option<int>, next: Option<string>)

  // ----- The hook's state and the runs -----

  /** The local state of one `fetchAllPages` run, and its abort flag. */
  class Run {
    var aborted: bool
    const fromTs: Option<int>
    const toTs: Option<int>
    /** The `btcFilter` the run's closure captured when it started. */
    const filterOn: bool
    var accumulated: seq<Transfer>
    var nextCursor: Option<string>
    var pageNum: nat
    var hasMore: bool
    /** Suspended at the request for page `pageNum`. */
    var waiting: bool
    /** The run has returned. */
    var returned: bool

    constructor(fromTs: Option<int>, toTs: Option<int>, filterOn: bool)
      ensures !aborted && this.fromTs == fromTs && this.toTs == toTs && this.filterOn == filterOn
      ensures accumulated == [] && nextCursor == None && pageNum == 0 && hasMore
      ensures !waiting && !returned
    {
      aborted := false;
      this.fromTs := fromTs;
      this.toTs := toTs;
      this.filterOn := filterOn;
      accumulated := [];
      nextCursor := None;
      pageNum := 0;
      hasMore := true;
      waiting := false;
      returned := false;
    }

    function NextRequest(): Request
      reads this
    {
      Request(StatusParam, LimitParam, fromTs, toTs, nextCursor)
    }
  }

  /** `from` of a window, NaN (`None`) for an invalid date. */
  function WindowFrom(w: Option<Window>): Option<int>
  {
    if w.Some? then Some(w.value.from) else None
  }

  function WindowTo(w: Option<Window>): Option<int>
  {
    if w.Some? then Some(w.value.to) else None
  }

  /** The state `useTransferData` keeps and publishes. */
  class TransferStore {
    /** `analyzeData`, as the hook calls it; the constructor fixes it to `Analyze` with the store's parser. */
    const analyze: seq<Transfer> -> Analysis
    var selectedDate: string
    var fromTimestamp: Option<int>
    var toTimestamp: Option<int>
    var allData: seq<Transfer>
    var btcFilter: bool
    var analysis: Option<Analysis>
    var loading: bool
    var error: Option<string>
    var fetchedCount: nat
    var fetching: bool
    /** `abortRef.current`: the most recently started run. */
    var current: Run?

    /** The initial state on day `today` (the clock is an input), before the mount effect starts a run. */
    constructor(today: Date, parse: Parser)
      requires ValidDate(today)
      ensures forall data :: analyze(data) == Analyze(data, parse)
      ensures selectedDate == FormatIsoDate(today)
      ensures fromTimestamp == Some(DayWindow(today).from) && toTimestamp == Some(DayWindow(today).to)
      ensures allData == [] && btcFilter && analysis == None && loading && error == None
      ensures fetchedCount == 0 && !fetching && current == null
    {
      analyze := (data: seq<Transfer>) => Analyze(data, parse);
      selectedDate := FormatIsoDate(today);
      ParseFormat(today);
      var w := DateToUtcRange(FormatIsoDate(today));
      fromTimestamp := WindowFrom(w);
      toTimestamp := WindowTo(w);
      allData := [];
      btcFilter := true;
      analysis := None;
      loading := true;
      error := None;
      fetchedCount := 0;
      fetching := false;
      current := null;
    }

    /** `filteredCount`: how many loaded transfers the analysis sees. */
    function FilteredCount(): (n: nat)
      reads this
      ensures n <= |allData|
      ensures !btcFilter ==> n == |allData|
    {
      |Filtered(allData, btcFilter)|
    }

    /** `totalLoaded` */
    function TotalLoaded(): nat
      reads this
    {
      |allData|
    }

    /**
     * `fetchAllPages(fromTs, toTs)` up to its first request: the previous
     * run is told to abort, the published state is reset, and the request
     * for page 1, without a cursor, goes out.
     */
    method StartRun(fromTs: Option<int>, toTs: Option<int>) returns (run: Run, request: Request)
      modifies this, current
      ensures fresh(run) && current == run
      ensures old(current) != null ==> old(current).aborted
      ensures old(current) != null ==> old(current).waiting == old(current.waiting) && old(current).returned == old(current.returned)
      ensures old(current) != null ==>
                && old(current).accumulated == old(current.accumulated) && old(current).nextCursor == old(current.nextCursor)
                && old(current).pageNum == old(current.pageNum) && old(current).hasMore == old(current.hasMore)
      ensures !run.aborted && run.fromTs == fromTs && run.toTs == toTs && run.filterOn == btcFilter
      ensures run.waiting && !run.returned && run.pageNum == 1 && run.hasMore
      ensures run.accumulated == [] && run.nextCursor == None
      ensures request == Request(StatusParam, LimitParam, fromTs, toTs, None)
      ensures loading && fetching && error == None && allData == [] && analysis == None && fetchedCount == 0
      ensures btcFilter == old(btcFilter) && selectedDate == old(selectedDate)
      ensures fromTimestamp == old(fromTimestamp) && toTimestamp == old(toTimestamp)
    {
      if current != null {
        current.aborted := true;
      }
      run := new Run(fromTs, toTs, btcFilter);
      run.pageNum := run.pageNum + 1;
      request := run.NextRequest();
      run.waiting := true;
      current := run;
      ResetPublished();
    }

    /** A new run clears what the hook publishes and shows it is loading. */
    method ResetPublished()
      modifies this
      ensures loading && fetching && error == None && allData == [] && analysis == None && fetchedCount == 0
      ensures current == old(current) && btcFilter == old(btcFilter) && selectedDate == old(selectedDate)
      ensures fromTimestamp == old(fromTimestamp) && toTimestamp == old(toTimestamp)
    {
      loading, fetching, error := true, true, None;
      allData, analysis, fetchedCount := [], None, 0;
    }

    /**
     * The run resumes with the reply `f` to its request: it handles the
     * page, then either sends the next request or returns. A run that was
     * told to abort returns without touching the published state. Otherwise
     * on an error it publishes the message, and at the end of the loop it
     * publishes the data and their analysis, after the filter it captured.
     */
    method Resume(run: Run, f: Fetched) returns (request: Option<Request>)
      requires run.waiting && !run.returned
      modifies this, run
      ensures run.aborted == old(run.aborted)
      ensures current == old(current) && btcFilter == old(btcFilter) && selectedDate == old(selectedDate)
      ensures fromTimestamp == old(fromTimestamp) && toTimestamp == old(toTimestamp)
      ensures old(run.aborted) ==>
                && request.None? && run.returned
                && allData == old(allData) && analysis == old(analysis) && error == old(error)
                && loading == old(loading) && fetching == old(fetching) && fetchedCount == old(fetchedCount)
      ensures !old(run.aborted) ==>
                var h := Handle(old(run.accumulated), old(run.nextCursor), old(run.pageNum), f);
                && (f.Got? && f.page.data != [] ==> fetchedCount == |old(run.accumulated)| + |f.page.data|)
                && (!(f.Got? && f.page.data != []) ==> fetchedCount == old(fetchedCount))
                && (h.Continue? ==>
                      && request == Some(run.NextRequest())
                      && run.waiting && !run.returned && run.pageNum == old(run.pageNum) + 1
                      && run.accumulated == h.accumulated && run.nextCursor == h.cursor
                      && allData == old(allData) && analysis == old(analysis) && error == old(error)
                      && loading == old(loading) && fetching == old(fetching))
                && (h.Done? ==>
                      && request.None? && run.returned && !run.waiting && !loading && !fetching
                      && (h.result.stop.Error? ==>
                            && error == Some(if h.result.stop.message != "" then h.result.stop.message else FallbackError)
                            && allData == old(allData) && analysis == old(analysis))
                      && (!h.result.stop.Error? ==>
                            && error == old(error)
                            && allData == h.result.data
                            && analysis == Some(analyze(Filtered(h.result.data, run.filterOn)))))
    {
      run.waiting := false;
      if f.Failed? {
        // The catch and finally blocks.
        if !run.aborted {
          error := Some(if f.message != "" then f.message else FallbackError);
          loading := false;
          fetching := false;
        }
        run.returned := true;
        return None;
      }
      var transfers := f.page.data;
      if transfers == [] {
        Complete(run);
        return None;
      }
      run.accumulated := run.accumulated + transfers;
      if run.aborted {
        run.returned := true;
        return None;
      }
      fetchedCount := |run.accumulated|;
      var prevCursor := run.nextCursor;
      run.nextCursor := NextCursor(f.page);
      run.hasMore := f.page.hasNext;
      if run.hasMore && run.nextCursor.Some? && run.nextCursor == prevCursor {
        Complete(run);
        return None;
      }
      if run.hasMore && run.pageNum < MaxPages {
        run.pageNum := run.pageNum + 1;
        request := Some(run.NextRequest());
        run.waiting := true;
      } else {
        Complete(run);
        request := None;
      }
    }

    /** After the loop: unless aborted, publish the data and the analysis of what the captured filter lets through. */
    method Complete(run: Run)
      modifies this, run
      ensures run.returned && !run.waiting
      ensures run.aborted == old(run.aborted) && run.accumulated == old(run.accumulated)
      ensures run.nextCursor == old(run.nextCursor) && run.pageNum == old(run.pageNum) && run.hasMore == old(run.hasMore)
      ensures current == old(current) && btcFilter == old(btcFilter) && selectedDate == old(selectedDate)
      ensures fromTimestamp == old(fromTimestamp) && toTimestamp == old(toTimestamp)
      ensures error == old(error) && fetchedCount == old(fetchedCount)
      ensures run.aborted ==> allData == old(allData) && analysis == old(analysis) && loading == old(loading) && fetching == old(fetching)
      ensures !run.aborted ==> allData == run.accumulated && analysis == Some(analyze(Filtered(run.accumulated, run.filterOn)))
      ensures !run.aborted ==> !loading && !fetching
    {
      run.waiting := false;
      run.returned := true;
      if !run.aborted {
        Publish(run.accumulated, run.filterOn);
      }
    }

    /** The end of a run that was not aborted: the loaded data and their analysis go out, loading ends. */
    method Publish(data: seq<Transfer>, on: bool)
      modifies this
      ensures allData == data && analysis == Some(analyze(Filtered(data, on)))
      ensures !loading && !fetching
      ensures current == old(current) && btcFilter == old(btcFilter) && selectedDate == old(selectedDate)
      ensures fromTimestamp == old(fromTimestamp) && toTimestamp == old(toTimestamp)
      ensures error == old(error) && fetchedCount == old(fetchedCount)
    {
      allData := data;
      analysis := Some(analyze(if on then BtcOnly(data) else data));
      loading := false;
      fetching := false;
    }

    /**
     * One iteration of a run that nothing interrupts: the request for page
     * `run.pageNum` goes through `fetchWithRetry` with the default retries,
     * and the run handles the reply. Either the run goes on, and what is left
     * of `Crawl` is the same, or it returns and publishes the result of `Crawl`.
     */
    method FetchPage(run: Run, net: Net) returns (next: Option<Request>)
      requires current == run && !run.aborted && run.waiting && !run.returned
      requires 1 <= run.pageNum <= MaxPages && run.filterOn == btcFilter
      requires loading && fetching && error == None && allData == [] && analysis == None
      requires fetchedCount == |run.accumulated|
      modifies this, run
      ensures current == run && !run.aborted && btcFilter == old(btcFilter)
      ensures selectedDate == old(selectedDate) && fromTimestamp == old(fromTimestamp) && toTimestamp == old(toTimestamp)
      ensures old(fetchedCount) <= fetchedCount
      ensures var r := Crawl(net, old(run.accumulated), old(run.nextCursor), old(run.pageNum));
              && (next.Some? ==>
                    && run.waiting && !run.returned && run.pageNum == old(run.pageNum) + 1 <= MaxPages
                    && next.value == run.NextRequest()
                    && Crawl(net, run.accumulated, run.nextCursor, run.pageNum) == r
                    && fetchedCount == |run.accumulated|
                    && loading && fetching && error == None && allData == [] && analysis == None)
              && (next.None? ==>
                    && r.pages == old(run.pageNum)
                    && fetchedCount == |r.data|
                    && !loading && !fetching
                    && (r.stop.Error? ==>
                          && error == Some(if r.stop.message != "" then r.stop.message else FallbackError)
                          && allData == [] && analysis == None)
                    && (!r.stop.Error? ==>
                          && error == None && allData == r.data
                          && analysis == Some(analyze(Filtered(r.data, run.filterOn)))))
    {
      var response, _, _ := FetchWithRetry(net(run.pageNum), DefaultRetries, DefaultDelayMs);
      var f := Outcome(response);
      assert f == PageOutcome(net, run.pageNum);
      next := Resume(run, f);
    }

    /**
     * A whole run that nothing interrupts: what it publishes is the result
     * of `Crawl`, and it makes at most `MaxPages` requests.
     */
    method FetchAllPages(fromTs: Option<int>, toTs: Option<int>, net: Net) returns (requests: seq<Request>)
      modifies this, current
      ensures old(current) != null ==> old(current).aborted
      ensures btcFilter == old(btcFilter)
      ensures selectedDate == old(selectedDate) && fromTimestamp == old(fromTimestamp) && toTimestamp == old(toTimestamp)
      ensures var r := Crawl(net, [], None, 1);
              && |requests| == r.pages <= MaxPages
              && fetchedCount == |r.data|
              && !loading && !fetching
              && (r.stop.Error? ==>
                    && error == Some(if r.stop.message != "" then r.stop.message else FallbackError)
                    && allData == [] && analysis == None)
              && (!r.stop.Error? ==>
                    && error == None
                    && allData == r.data
                    && analysis == Some(analyze(Filtered(r.data, btcFilter))))
    {
      ghost var r := Crawl(net, [], None, 1);
      var run, first := StartRun(fromTs, toTs);
      requests := [first];
      while true
        invariant current == run && !run.aborted && run.waiting && !run.returned
        invariant 1 <= run.pageNum <= MaxPages && |requests| == run.pageNum
        invariant Crawl(net, run.accumulated, run.nextCursor, run.pageNum) == r
        invariant run.filterOn == btcFilter == old(btcFilter)
        invariant loading && fetching && error == None && allData == [] && analysis == None
        invariant fetchedCount == |run.accumulated|
        invariant selectedDate == old(selectedDate) && fromTimestamp == old(fromTimestamp) && toTimestamp == old(toTimestamp)
        invariant old(current) != null ==> old(current).aborted
        decreases MaxPages - run.pageNum
      {
        var next := FetchPage(run, net);
        if next.None? {
          return;
        }
        requests := requests + [next.value];
      }
    }

    /** `toggleBtcFilter`: flip the filter and re-analyse the loaded data, without fetching. */
    method ToggleBtcFilter()
      modifies this
      ensures btcFilter == !old(btcFilter)
      ensures analysis == Some(analyze(Filtered(allData, btcFilter)))
      ensures allData == old(allData) && current == old(current) && fetchedCount == old(fetchedCount)
      ensures loading == old(loading) && fetching == old(fetching) && error == old(error)
      ensures selectedDate == old(selectedDate) && fromTimestamp == old(fromTimestamp) && toTimestamp == old(toTimestamp)
    {
      var next := !btcFilter;
      analysis := Some(analyze(if next then BtcOnly(allData) else allData));
      btcFilter := next;
    }

    /** `setDate(dateStr)`: record the day and its window, then start a run for that window. */
    method SetDate(dateStr: string) returns (run: Run, request: Request)
      modifies this, current
      ensures selectedDate == dateStr
      ensures fromTimestamp == WindowFrom(DateToUtcRange(dateStr)) && toTimestamp == WindowTo(DateToUtcRange(dateStr))
      ensures fresh(run) && current == run && run.fromTs == fromTimestamp && run.toTs == toTimestamp
      ensures run.waiting && !run.returned && !run.aborted && run.filterOn == btcFilter
      ensures old(current) != null ==> old(current).aborted
      ensures old(current) != null ==> old(current).waiting == old(current.waiting) && old(current).returned == old(current.returned)
      ensures old(current) != null ==>
                && old(current).accumulated == old(current.accumulated) && old(current).nextCursor == old(current.nextCursor)
                && old(current).pageNum == old(current.pageNum) && old(current).hasMore == old(current.hasMore)
      ensures request == Request(StatusParam, LimitParam, fromTimestamp, toTimestamp, None)
      ensures loading && fetching && error == None && allData == [] && analysis == None && fetchedCount == 0
      ensures btcFilter == old(btcFilter)
    {
      var w := DateToUtcRange(dateStr);
      selectedDate := dateStr;
      fromTimestamp := WindowFrom(w);
      toTimestamp := WindowTo(w);
      run, request := StartRun(fromTimestamp, toTimestamp);
    }

    /** `refresh()`, and the mount effect: a run for the current window. */
    method Refresh() returns (run: Run, request: Request)
      modifies this, current
      ensures fresh(run) && current == run && run.fromTs == fromTimestamp && run.toTs == toTimestamp
      ensures run.waiting && !run.returned && !run.aborted && run.filterOn == btcFilter
      ensures old(current) != null ==> old(current).aborted
      ensures old(current) != null ==> old(current).waiting == old(current.waiting) && old(current).returned == old(current.returned)
      ensures old(current) != null ==>
                && old(current).accumulated == old(current.accumulated) && old(current).nextCursor == old(current.nextCursor)
                && old(current).pageNum == old(current.pageNum) && old(current).hasMore == old(current.hasMore)
      ensures selectedDate == old(selectedDate) && fromTimestamp == old(fromTimestamp) && toTimestamp == old(toTimestamp)
      ensures request == Request(StatusParam, LimitParam, fromTimestamp, toTimestamp, None)
      ensures loading && fetching && error == None && allData == [] && analysis == None && fetchedCount == 0
      ensures btcFilter == old(btcFilter)
    {
      run, request := StartRun(fromTimestamp, toTimestamp);
    }
  }

  /**
   * Two overlapping runs: a date change while page 1 of the first run is in
   * flight aborts that run, and its late reply changes nothing that is
   * published.
   */
  method StaleReplyIgnored(store: TransferStore, day1: string, day2: string, late: Fetched)
    modifies store, store.current
    ensures store.selectedDate == day2
    ensures store.allData == [] && store.analysis == None && store.loading && store.fetching
    ensures store.error == None && store.fetchedCount == 0
  {
    var first, _ := store.SetDate(day1);
    var second, _ := store.SetDate(day2);
    assert first.aborted;
    var ignored := store.Resume(first, late);
    assert ignored.None?;
  }
}
