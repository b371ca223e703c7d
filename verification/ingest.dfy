/**
 `get_finance_data` and `ingest_yfinance_data`: every symbol is downloaded
 over the same trailing window, symbols whose download fails or comes back
 empty are skipped, the transformed rows of the others are concatenated in
 symbol order, and the whole batch is inserted with a single call, only if it
 is non-empty.

 The market-data download is a parameter: a total function from a request to
 its outcome, either an exception or a (possibly empty) frame of bars.
 */
module Ingest {
  import opened Transform

  /** The arguments of one `yf.download` call. */
  datatype Request = Request(symbol: Symbol, start: Day, end: Day, interval: string)

  /** What one `yf.download` call does: raise, or return a frame of bars. */
  datatype Download = DownloadError | Downloaded(bars: seq<Bar>)

  type Downloader = Request -> Download

  /** Result of `get_finance_data`: the frames by symbol, or the symbol whose download raised. */
  datatype Fetch = Fetched(frames: map<Symbol, seq<Bar>>) | FetchError(symbol: Symbol)

  /** One call of `insert_data_to_db`. */
  datatype Insert = Insert(table: string, rows: seq<Row>)

  /** What one ingestion does to the outside world: the downloads it asks for and the inserts it makes. */
  datatype Run = Run(requests: seq<Request>, inserts: seq<Insert>)

  /** What the ingestion loop's body does for one symbol: the download it asks for and the rows it appends. */
  datatype Step = Step(request: Request, rows: seq<Row>)

  /** The ingestion loop's state: requests made so far and the rows accumulated in `values`. */
  datatype Progress = Progress(requests: seq<Request>, values: seq<Row>)

  /** Length of the trailing fetch window, in days. */
  const WindowDays := 7

  function DownloadOf(download: Downloader, symbol: Symbol, start: Day, end: Day, interval: string): Download {
    download(Request(symbol, start, end, interval))
  }

  /** A frame that `data.empty` calls non-empty. */
  predicate HasData(d: Download) {
    d.Downloaded? && |d.bars| > 0
  }

  predicate Raises(d: Download) {
    d.DownloadError?
  }

  /**
   `get_finance_data`: downloads each symbol in order and keeps the non-empty
   frames; an exception from any download propagates and ends the call.
   */
  function GetFinanceData(symbols: seq<Symbol>, start: Day, end: Day, interval: string, download: Downloader): Fetch
    decreases |symbols|
  {
    if |symbols| == 0 then Fetched(map[])
    else
      var symbol := symbols[|symbols| - 1];
      var earlier := GetFinanceData(symbols[..|symbols| - 1], start, end, interval, download);
      if earlier.FetchError? then earlier
      else match DownloadOf(download, symbol, start, end, interval)
        case DownloadError => FetchError(symbol)
        case Downloaded(bars) =>
          if |bars| > 0 then Fetched(earlier.frames[symbol := bars]) else earlier
  }

  /**
   What `get_finance_data` returns: an exception exactly when some download
   raises, and then the first such symbol's; otherwise a frame for exactly
   the symbols whose download came back non-empty, holding what was downloaded.
   */
  lemma {:induction false} GetFinanceDataResult(symbols: seq<Symbol>, start: Day, end: Day, interval: string, download: Downloader)
    ensures var r := GetFinanceData(symbols, start, end, interval, download);
      && (r.FetchError? <==>
            exists i :: 0 <= i < |symbols| && Raises(DownloadOf(download, symbols[i], start, end, interval)))
      && (r.FetchError? ==>
            exists k :: 0 <= k < |symbols| && symbols[k] == r.symbol
              && Raises(DownloadOf(download, symbols[k], start, end, interval))
              && forall j :: 0 <= j < k ==> !Raises(DownloadOf(download, symbols[j], start, end, interval)))
      && (r.Fetched? ==> forall s {:trigger s in r.frames} ::
            s in r.frames <==> s in symbols && HasData(DownloadOf(download, s, start, end, interval)))
      && (r.Fetched? ==> forall s {:trigger r.frames[s]} :: s in r.frames ==>
            Downloaded(r.frames[s]) == DownloadOf(download, s, start, end, interval))
    decreases |symbols|
  {
    if |symbols| > 0 {
      var front, symbol := symbols[..|symbols| - 1], symbols[|symbols| - 1];
      GetFinanceDataResult(front, start, end, interval, download);
      assert forall i :: 0 <= i < |front| ==> front[i] == symbols[i];
      assert forall s :: s in symbols <==> s in front || s == symbol;
    }
  }

  /**
   The rows one symbol is meant to contribute: its transformed frame when the
   download returned a non-empty frame, nothing otherwise.
   */
  function Contribution(d: Download, symbol: Symbol): seq<Row> {
    if HasData(d) then TransformData(d.bars, symbol) else []
  }

  /**
   The body of the ingestion loop for one symbol: `get_finance_data` on that
   symbol alone, then `transform_data` when the symbol came back, keeping the
   rows only if the transformed frame is non-empty. Any exception yields no rows.
   */
  function SymbolStep(symbol: Symbol, start: Day, end: Day, interval: string, download: Downloader): (step: Step)
    ensures step.request == Request(symbol, start, end, interval)
    ensures step.rows == Contribution(DownloadOf(download, symbol, start, end, interval), symbol)
  {
    GetFinanceDataResult([symbol], start, end, interval, download);
    var fetched := GetFinanceData([symbol], start, end, interval, download);
    var rows :=
      if fetched.Fetched? && symbol in fetched.frames then
        var data := TransformData(fetched.frames[symbol], symbol);
        if |data| > 0 then data else []
      else [];
    Step(Request(symbol, start, end, interval), rows)
  }

  /**
   The ingestion loop, as a left fold of a loop body over the symbols: the
   requests made so far and the rows appended to `values` so far.
   */
  function Accumulate(symbols: seq<Symbol>, body: Symbol -> Step): Progress
    decreases |symbols|
  {
    if |symbols| == 0 then Progress([], [])
    else
      var p := Accumulate(symbols[..|symbols| - 1], body);
      var step := body(symbols[|symbols| - 1]);
      Progress(p.requests + [step.request], p.values + step.rows)
  }

  /** The rows of the loop body for each symbol, concatenated in symbol order. */
  function Chain(symbols: seq<Symbol>, body: Symbol -> Step): seq<Row>
    decreases |symbols|
  {
    if |symbols| == 0 then [] else body(symbols[0]).rows + Chain(symbols[1..], body)
  }

  /** Reference batch: each symbol's contribution, concatenated in symbol order. */
  function Batch(symbols: seq<Symbol>, start: Day, end: Day, interval: string, download: Downloader): seq<Row>
    decreases |symbols|
  {
    if |symbols| == 0 then []
    else Contribution(DownloadOf(download, symbols[0], start, end, interval), symbols[0])
         + Batch(symbols[1..], start, end, interval, download)
  }

  /** Number of bars in the non-empty frames of all symbols. */
  function BarCount(symbols: seq<Symbol>, start: Day, end: Day, interval: string, download: Downloader): nat
    decreases |symbols|
  {
    if |symbols| == 0 then 0
    else
      var d := DownloadOf(download, symbols[0], start, end, interval);
      (if HasData(d) then |d.bars| else 0) + BarCount(symbols[1..], start, end, interval, download)
  }

  /**
   `ingest_yfinance_data`: the window ends today and starts seven days
   earlier; the batch is inserted once, whole, and only when non-empty.
   */
  function Ingest(symbols: seq<Symbol>, table: string, interval: string, today: Day, download: Downloader): (run: Run)
    ensures |run.requests| == |symbols|
    ensures forall i :: 0 <= i < |symbols| ==>
      run.requests[i] == Request(symbols[i], today - WindowDays, today, interval)
    ensures |run.inserts| <= 1
    ensures |run.inserts| == 1 <==>
      exists i :: 0 <= i < |symbols| && HasData(DownloadOf(download, symbols[i], today - WindowDays, today, interval))
    ensures forall w :: w in run.inserts ==>
      w == Insert(table, Batch(symbols, today - WindowDays, today, interval, download))
  {
    var start, end := today - WindowDays, today;
    var body := (symbol: Symbol) => SymbolStep(symbol, start, end, interval, download);
    var p := Accumulate(symbols, body);
    AccumulateSteps(symbols, body);
    ChainIsBatch(symbols, body, start, end, interval, download);
    BatchNonEmpty(symbols, start, end, interval, download);
    Run(p.requests, if |p.values| > 0 then [Insert(table, p.values)] else [])
  }

  lemma {:induction false} BatchAppend(xs: seq<Symbol>, ys: seq<Symbol>, start: Day, end: Day, interval: string, download: Downloader)
    ensures Batch(xs + ys, start, end, interval, download)
         == Batch(xs, start, end, interval, download) + Batch(ys, start, end, interval, download)
    decreases |xs|
  {
    if |xs| > 0 {
      assert (xs + ys)[0] == xs[0];
      assert (xs + ys)[1..] == xs[1..] + ys;
      BatchAppend(xs[1..], ys, start, end, interval, download);
    } else {
      assert xs + ys == ys;
    }
  }

  lemma {:induction false} ChainAppend(xs: seq<Symbol>, ys: seq<Symbol>, body: Symbol -> Step)
    ensures Chain(xs + ys, body) == Chain(xs, body) + Chain(ys, body)
    decreases |xs|
  {
    if |xs| > 0 {
      assert (xs + ys)[0] == xs[0];
      assert (xs + ys)[1..] == xs[1..] + ys;
      ChainAppend(xs[1..], ys, body);
    } else {
      assert xs + ys == ys;
    }
  }

  /**
   The loop runs its body once per symbol, in order, whatever each pass
   yields, and `values` ends up as the concatenation of every pass's rows.
   */
  lemma {:induction false} AccumulateSteps(symbols: seq<Symbol>, body: Symbol -> Step)
    ensures var p := Accumulate(symbols, body);
      && |p.requests| == |symbols|
      && (forall i :: 0 <= i < |symbols| ==> p.requests[i] == body(symbols[i]).request)
      && p.values == Chain(symbols, body)
    decreases |symbols|
  {
    if |symbols| > 0 {
      var front, last := symbols[..|symbols| - 1], symbols[|symbols| - 1];
      AccumulateSteps(front, body);
      assert forall i :: 0 <= i < |front| ==> front[i] == symbols[i];
      assert symbols == front + [last];
      ChainAppend(front, [last], body);
      assert Chain([last], body) == body(last).rows + Chain([], body);
    }
  }

  /** With the source's loop body, the concatenated rows are the reference batch. */
  lemma {:induction false} ChainIsBatch(symbols: seq<Symbol>, body: Symbol -> Step, start: Day, end: Day, interval: string, download: Downloader)
    requires forall s :: body(s).rows == Contribution(DownloadOf(download, s, start, end, interval), s)
    ensures Chain(symbols, body) == Batch(symbols, start, end, interval, download)
    decreases |symbols|
  {
    if |symbols| > 0 {
      ChainIsBatch(symbols[1..], body, start, end, interval, download);
    }
  }

  /** The batch has one row per bar of every non-empty frame. */
  lemma {:induction false} BatchSize(symbols: seq<Symbol>, start: Day, end: Day, interval: string, download: Downloader)
    ensures |Batch(symbols, start, end, interval, download)| == BarCount(symbols, start, end, interval, download)
    decreases |symbols|
  {
    if |symbols| > 0 {
      BatchSize(symbols[1..], start, end, interval, download);
    }
  }

  /** The batch is non-empty exactly when some symbol's download returned a non-empty frame. */
  lemma {:induction false} BatchNonEmpty(symbols: seq<Symbol>, start: Day, end: Day, interval: string, download: Downloader)
    ensures |Batch(symbols, start, end, interval, download)| > 0 <==>
      exists i :: 0 <= i < |symbols| && HasData(DownloadOf(download, symbols[i], start, end, interval))
    decreases |symbols|
  {
    if |symbols| > 0 {
      BatchNonEmpty(symbols[1..], start, end, interval, download);
      if exists i :: 0 <= i < |symbols[1..]| && HasData(DownloadOf(download, symbols[1..][i], start, end, interval)) {
        var i :| 0 <= i < |symbols[1..]| && HasData(DownloadOf(download, symbols[1..][i], start, end, interval));
        assert symbols[i + 1] == symbols[1..][i];
      }
      if exists i :: 0 <= i < |symbols| && HasData(DownloadOf(download, symbols[i], start, end, interval)) {
        var i :| 0 <= i < |symbols| && HasData(DownloadOf(download, symbols[i], start, end, interval));
        if i > 0 {
          assert symbols[1..][i - 1] == symbols[i];
        }
      }
    }
  }

  /**
   A symbol whose download raises or comes back empty contributes nothing and
   does not stop the symbols after it: the batch is what the symbols before
   and after it would give on their own.
   */
  lemma SkippedSymbol(xs: seq<Symbol>, symbol: Symbol, ys: seq<Symbol>, start: Day, end: Day, interval: string, download: Downloader)
    requires !HasData(DownloadOf(download, symbol, start, end, interval))
    ensures Batch(xs + [symbol] + ys, start, end, interval, download)
         == Batch(xs, start, end, interval, download) + Batch(ys, start, end, interval, download)
  {
    var a := Batch(xs, start, end, interval, download);
    BatchAppend(xs + [symbol], ys, start, end, interval, download);
    BatchAppend(xs, [symbol], start, end, interval, download);
    BatchSingleton(symbol, start, end, interval, download);
    assert Batch(xs + [symbol], start, end, interval, download) == a + [];
    assert a + [] == a;
  }

  lemma BatchSingleton(symbol: Symbol, start: Day, end: Day, interval: string, download: Downloader)
    ensures Batch([symbol], start, end, interval, download) == Contribution(DownloadOf(download, symbol, start, end, interval), symbol)
  {
    assert [symbol][1..] == [];
  }

  /**
   Every symbol with a non-empty frame has its transformed rows in the batch,
   as one contiguous block placed after the rows of the symbols before it,
   whatever happened to the other symbols.
   */
  lemma SucceededSymbolRows(symbols: seq<Symbol>, k: nat, start: Day, end: Day, interval: string, download: Downloader)
    requires k < |symbols|
    requires HasData(DownloadOf(download, symbols[k], start, end, interval))
    ensures var batch := Batch(symbols, start, end, interval, download);
      var offset := |Batch(symbols[..k], start, end, interval, download)|;
      var rows := TransformData(DownloadOf(download, symbols[k], start, end, interval).bars, symbols[k]);
      offset + |rows| <= |batch| && batch[offset..offset + |rows|] == rows
  {
    var before, here, after := symbols[..k], [symbols[k]], symbols[k + 1..];
    assert symbols == before + here + after;
    BatchAppend(before + here, after, start, end, interval, download);
    BatchAppend(before, here, start, end, interval, download);
    var rows := TransformData(DownloadOf(download, symbols[k], start, end, interval).bars, symbols[k]);
    assert Batch(here, start, end, interval, download) == rows + Batch([], start, end, interval, download);
  }

  lemma ContributionSymbol(d: Download, symbol: Symbol)
    ensures forall row :: row in Contribution(d, symbol) ==> row.symbol == symbol
  {
    if HasData(d) {
      var rows := TransformData(d.bars, symbol);
      forall row | row in rows ensures row.symbol == symbol {
        var j :| 0 <= j < |rows| && rows[j] == row;
        assert rows[j] == ExpectedRow(d.bars, symbol, j);
      }
    }
  }

  /** Every row of the batch belongs to a symbol that was asked for and whose frame was non-empty. */
  lemma {:induction false} BatchRowsFromSucceeded(symbols: seq<Symbol>, start: Day, end: Day, interval: string, download: Downloader)
    ensures forall row :: row in Batch(symbols, start, end, interval, download) ==>
      row.symbol in symbols && HasData(DownloadOf(download, row.symbol, start, end, interval))
    decreases |symbols|
  {
    if |symbols| > 0 {
      var d := DownloadOf(download, symbols[0], start, end, interval);
      BatchRowsFromSucceeded(symbols[1..], start, end, interval, download);
      ContributionSymbol(d, symbols[0]);
      assert forall s :: s in symbols[1..] ==> s in symbols;
    }
  }

  /**
   Two symbols, the second of whose downloads raises: both are requested, and
   the one insert holds exactly the first symbol's transformed rows.
   */
  lemma SecondSymbolFails(bars: seq<Bar>, table: string, interval: string, today: Day)
    requires |bars| > 0
    ensures var download := (r: Request) => if r.symbol == "BBB" then DownloadError else Downloaded(bars);
      var run := Ingest(["AAA", "BBB"], table, interval, today, download);
      && |run.requests| == 2
      && run.inserts == [Insert(table, TransformData(bars, "AAA"))]
  {
    var download := (r: Request) => if r.symbol == "BBB" then DownloadError else Downloaded(bars);
    var start, end := today - WindowDays, today;
    var symbols := ["AAA", "BBB"];
    assert HasData(DownloadOf(download, symbols[0], start, end, interval));
    SkippedSymbol(["AAA"], "BBB", [], start, end, interval, download);
    assert symbols == ["AAA"] + ["BBB"] + [];
    BatchSingleton("AAA", start, end, interval, download);
    var run := Ingest(symbols, table, interval, today, download);
    assert |run.inserts| == 1 && run.inserts[0] in run.inserts;
  }
}
