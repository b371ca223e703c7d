# Daily OHLCV ingestion: transformation and batch decision

This project models the pure logic of the daily stock-price ingestion job in
`airflow_finance.py`. It proves properties of that model in Dafny. Two parts
are covered:

- **`transform_data`**: one symbol's date-ascending OHLCV bars become rows in
  the fixed column order Date, Close, High, Low, Open, Volume, symbol,
  close_change, close_pct_change. The two derived columns come from pandas'
  `diff`, `pct_change`, `fillna(0)` and `* 100`.
- **`get_finance_data` and `ingest_yfinance_data`**: every symbol is downloaded
  over a trailing seven-day window. A symbol whose download raises, or comes
  back empty, is skipped, and the loop moves on to the next symbol. The
  transformed rows of the other symbols are concatenated in symbol order. The
  whole batch is inserted with one call, and only when it is non-empty.

Modules:

- `Floats` (`floats.dfy`): double-precision values with rounding abstracted
  away. A value is a real, one of the two infinities, or NaN. This keeps the
  transformation total when a previous close is 0: pandas then yields an
  infinity, or NaN (which `fillna(0)` turns into 0) when both closes are 0.
- `Series` (`series.dfy`): the pandas Series operations the transformation
  uses (`shift`, elementwise operations, `diff`, `pct_change`, `fillna`,
  scaling).
- `Transform` (`transform.dfy`): bars, rows and `TransformData`. Its body
  follows the pandas column pipeline. Its contract says that row `i` equals
  `ExpectedRow`, which is the row-by-row reading of the same code.
- `Ingest` (`ingest.dfy`): the download is a parameter, a total function from
  a request (symbol, start day, end day, interval) to `DownloadError` or
  `Downloaded(bars)`. `GetFinanceData` models `get_finance_data`. `SymbolStep`
  models one pass of the ingestion loop. `Accumulate` is the loop as a left
  fold. `Ingest` returns the requests made and the inserts issued. `Batch` is
  the reference definition that the loop is proved to compute.

Notes on behaviour, where the code decides:

- A previous close of 0 gives an infinite percentage change with the sign of
  the current close. When the current close is also 0, the result is 0. No
  other policy is applied.
- `get_finance_data` has no exception handler of its own, so the first
  download that raises ends the call. The per-symbol `try` in
  `ingest_yfinance_data` catches that exception and moves on.
- The table is created by the task function, not inside the ingestion
  function. Insert errors are caught and printed, not raised. Both are I/O
  and lie outside the model.

## Model

| member | source | states |
|---|---|---|
| Transform.TransformData | airflow_finance.py:97-103 | one output row per input bar, in the bars' order; row `i` carries the bar's date, close, high, low, open and volume unchanged, then the given symbol, then close_change and close_pct_change as read off bars `i-1` and `i` |
| Transform.ChangeColumn | airflow_finance.py:101 | `Close.diff().fillna(0)` is 0 at row 0 (the leading NaN filled) and `close[i] - close[i-1]` at every later row |
| Transform.PctCell | airflow_finance.py:102 | for one cell of `pct_change().fillna(0) * 100`: a non-zero previous close gives `(cur - prev) / prev * 100`; 0/0 is NaN and becomes 0; x/0 gives an infinity with the sign of x, which `fillna` keeps |
| Transform.PctPipelineAt | airflow_finance.py:102 | the pandas percentage column at index `i` is 0 for `i = 0` and otherwise the cell value above for closes `i-1` and `i` |
| Transform.PctColumn | airflow_finance.py:102 | the close_pct_change column has one entry per bar and agrees with the row-wise reading at every index |
| Transform.TransformRows | airflow_finance.py:99-103 | output length equals input length; every row carries the given symbol and the bar's fields unchanged; row 0 has both derived fields 0; for `i > 0`, close_change is `close[i] - close[i-1]`, and if `close[i-1] != 0`, close_pct_change is `(close[i] - close[i-1]) / close[i-1] * 100` |
| Transform.TransformPrefix | airflow_finance.py:101-102 | the derived fields are window-local: transforming the first `k` bars gives exactly the first `k` rows of transforming them all |
| Transform.TransformChangesTelescope | airflow_finance.py:101 | over a non-empty window every close_change is finite, and they sum to the last close minus the first close |
| Transform.ThreeDayExample | airflow_finance.py:101-102 | closes 10, 12, 9 give close_change 0, 2, -3 and close_pct_change 0, 20, -25 |
| Ingest.GetFinanceDataResult | airflow_finance.py:89-95 | `get_finance_data` raises exactly when some download raises, and then with the first such symbol; otherwise its keys are exactly the requested symbols whose frame is non-empty, each mapped to its downloaded bars |
| Ingest.SymbolStep | airflow_finance.py:111-118 | one pass of the loop asks for the symbol over the window and appends the symbol's transformed bars if its download returned a non-empty frame; it appends nothing on an exception or an empty frame |
| Ingest.AccumulateSteps | airflow_finance.py:110-118 | the loop runs its body once per symbol, in order, whatever earlier passes yielded; `values` ends as the concatenation of every pass's rows |
| Ingest.ChainIsBatch | airflow_finance.py:110-118 | with the source's loop body, the concatenated rows equal the reference batch: the successful symbols' transformed rows in symbol order |
| Ingest.BatchAppend | airflow_finance.py:110-116 | the batch of two symbol lists run one after the other is the first list's batch followed by the second's |
| Ingest.Ingest | airflow_finance.py:105-121 | every symbol is requested, in order, with the window from today minus 7 days to today; there is at most one insert; there is one insert exactly when some symbol's download returned a non-empty frame, and it writes the whole batch into the given table |
| Ingest.BatchSize | airflow_finance.py:114-116 | the batch has exactly as many rows as there are bars in the non-empty frames |
| Ingest.BatchNonEmpty | airflow_finance.py:113-121 | the batch is non-empty exactly when some symbol's download returned a non-empty frame |
| Ingest.SkippedSymbol | airflow_finance.py:110-118 | a symbol whose download raises or is empty adds nothing and does not stop later symbols: the batch equals the batch of the symbols before it followed by the batch of those after it |
| Ingest.SucceededSymbolRows | airflow_finance.py:110-118 | a symbol with a non-empty frame has its transformed rows in the batch as one contiguous block, right after the rows of the symbols before it, whatever happened to the other symbols |
| Ingest.ContributionSymbol | airflow_finance.py:100 | every row a symbol contributes carries that symbol |
| Ingest.BatchRowsFromSucceeded | airflow_finance.py:110-116 | every row of the batch belongs to a requested symbol whose download returned a non-empty frame |
| Ingest.SecondSymbolFails | airflow_finance.py:110-121 | for symbols AAA and BBB where BBB's download raises, both are requested and the single insert holds exactly AAA's transformed rows |

## Left out

- Database access (`create_connection`, `create_table_if_not_exists`, `insert_data_to_db`, lines 13-79): this is pyodbc I/O. An insert is modelled as an `Insert(table, rows)` event. The connection failure that makes these functions return early is not modelled, and neither is the insert error they catch and print.
- Symbol discovery (`get_sp500_symbols`, lines 83-87): this scrapes Wikipedia over the network. The symbol list is an input sequence.
- `yf.download` (line 92): this is a foreign network library. It is a function parameter from request to outcome, so asking twice for the same request gives the same answer. The interval is an opaque string passed through.
- Clock reads (lines 107-108): the source reads `datetime.now()` twice and formats dates as strings. The model takes one day number, `today`, and uses the window from `today - 7` to `today`. Two reads that straddle midnight are not modelled.
- DataFrame plumbing (lines 98-99, 116): MultiIndex column flattening, `reset_index` and `to_numpy` tuples are representation details. A row is a datatype whose fields are in the tuple's order. A date is a day number.
- Exceptions raised by `transform_data` itself, such as a frame missing a column: bars are always well formed here, so this path of the per-symbol `try` is not modelled.
- Floating point: rounding, signed zero, overflow to infinity, and NaN prices in a downloaded frame are not modelled. Prices are reals and volume is an unbounded integer, not a 64-bit integer.
- The Airflow DAG (lines 125-162): owner, retries, retry delay, daily schedule, catchup and start date are configuration for the host scheduler, with no logic in this file. `run_ingestion` only wires I/O calls together.
- Logging via `print` is not modelled.
