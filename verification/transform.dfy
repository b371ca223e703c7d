/**
 `transform_data`: one symbol's date-ascending OHLCV bars become rows in the
 fixed column order Date, Close, High, Low, Open, Volume, symbol,
 close_change, close_pct_change. The two derived columns are computed the way
 pandas computes them (`diff`, `pct_change`, `fillna(0)`, `* 100`); the
 contract of `TransformData` states what that means row by row.
 */
module Transform {
  import opened Floats
  import opened Series

  type Symbol = string

  /** A calendar day, counted as a day number. */
  type Day = int

  /** One downloaded bar. */
  datatype Bar = Bar(date: Day, open: real, high: real, low: real, close: real, volume: int)

  /** One output row, with its fields in the order the table's insert expects them. */
  datatype Row = Row(
    date: Day,
    close: real,
    high: real,
    low: real,
    open: real,
    volume: int,
    symbol: Symbol,
    closeChange: Float,
    closePctChange: Float)

  /** The row copies the bar's date and prices unchanged and carries the symbol. */
  predicate Carries(row: Row, bar: Bar, symbol: Symbol) {
    && row.date == bar.date
    && row.close == bar.close
    && row.high == bar.high
    && row.low == bar.low
    && row.open == bar.open
    && row.volume == bar.volume
    && row.symbol == symbol
  }

  function CloseColumn(bars: seq<Bar>): seq<Float>
  {
    seq(|bars|, i requires 0 <= i < |bars| => Finite(bars[i].close))
  }

  /** Picks the output columns, in their fixed order, out of the bars and the two derived columns. */
  function SelectColumns(bars: seq<Bar>, symbol: Symbol, change: seq<Float>, pct: seq<Float>): seq<Row>
    requires |change| == |bars| && |pct| == |bars|
  {
    seq(|bars|, i requires 0 <= i < |bars| =>
      Row(bars[i].date, bars[i].close, bars[i].high, bars[i].low, bars[i].open, bars[i].volume,
          symbol, change[i], pct[i]))
  }

  /** Dividing by the previous close and subtracting one is the relative change. */
  lemma RelativeChange(prev: real, cur: real)
    requires prev != 0.0
    ensures cur / prev - 1.0 == (cur - prev) / prev
  {
    var r := cur / prev - 1.0;
    assert (cur / prev) * prev == cur;
    assert cur - prev == r * prev;
    DivOfProduct(r, prev);
  }

  lemma DivOfProduct(z: real, y: real)
    requires y != 0.0
    ensures (z * y) / y == z
  {}

  /**
   Row-wise reading of the derived fields. Row 0 has no previous close, so
   pandas leaves NaN there and `fillna(0)` turns it into 0.
   */
  function ExpectedChange(bars: seq<Bar>, i: int): Float
    requires 0 <= i < |bars|
  {
    if i == 0 then Finite(0.0) else Finite(bars[i].close - bars[i - 1].close)
  }

  /** The percentage by which `cur` differs from a non-zero `prev`. */
  function PercentChange(prev: real, cur: real): real
    requires prev != 0.0
  {
    (cur - prev) / prev * 100.0
  }

  /**
   For a previous close of zero, 0/0 is NaN (filled with 0) while x/0 is an
   infinity with the sign of x, which `fillna` keeps.
   */
  function ExpectedPct(bars: seq<Bar>, i: int): Float
    requires 0 <= i < |bars|
  {
    if i == 0 then Finite(0.0)
    else
      var prev, cur := bars[i - 1].close, bars[i].close;
      if prev != 0.0 then Finite(PercentChange(prev, cur))
      else if cur == 0.0 then Finite(0.0)
      else Infinity(cur < 0.0)
  }

  /** Row `i` of the output, read directly off the bars. */
  function ExpectedRow(bars: seq<Bar>, symbol: Symbol, i: int): Row
    requires 0 <= i < |bars|
  {
    var b := bars[i];
    Row(b.date, b.close, b.high, b.low, b.open, b.volume, symbol, ExpectedChange(bars, i), ExpectedPct(bars, i))
  }

  /** The close_change column: `Close.diff().fillna(0)`. */
  function ChangeColumn(bars: seq<Bar>): (col: seq<Float>)
    ensures |col| == |bars|
    ensures forall i :: 0 <= i < |bars| ==> col[i] == ExpectedChange(bars, i)
  {
    var close := CloseColumn(bars);
    var diff := Diff(close);
    var col := FillNa(diff, 0.0);
    forall i | 0 <= i < |bars|
      ensures col[i] == ExpectedChange(bars, i)
    {
      assert diff[i] == Sub(close[i], Shift(close)[i]);
    }
    col
  }

  /** One cell of close_pct_change computed from the previous and the current close. */
  lemma PctCell(prev: real, cur: real)
    ensures var x := Sub(Div(Finite(cur), Finite(prev)), Finite(1.0));
      var filled := if x.NaN? then Finite(0.0) else x;
      Mul(filled, Finite(100.0)) ==
        if prev != 0.0 then Finite(PercentChange(prev, cur))
        else if cur == 0.0 then Finite(0.0)
        else Infinity(cur < 0.0)
  {
    if prev != 0.0 {
      RelativeChange(prev, cur);
    }
  }

  /** The pandas expression behind the close_pct_change column. */
  function PctPipeline(bars: seq<Bar>): seq<Float> {
    Scale(FillNa(PctChange(CloseColumn(bars)), 0.0), 100.0)
  }

  lemma PctPipelineAt(bars: seq<Bar>, i: int)
    requires 0 <= i < |bars|
    ensures |PctPipeline(bars)| == |bars|
    ensures PctPipeline(bars)[i] == ExpectedPct(bars, i)
  {
    var close := CloseColumn(bars);
    var shifted := Shift(close);
    var ratio := ZipWith(Div, close, shifted);
    var pct := PctChange(close);
    var filled := FillNa(pct, 0.0);
    var col := Scale(filled, 100.0);
    assert ratio[i] == Div(close[i], shifted[i]);
    assert pct[i] == Sub(ratio[i], Finite(1.0));
    assert filled[i] == if pct[i].NaN? then Finite(0.0) else pct[i];
    assert col[i] == Mul(filled[i], Finite(100.0));
    if i > 0 {
      PctCell(bars[i - 1].close, bars[i].close);
    }
  }

  /** The close_pct_change column: `Close.pct_change().fillna(0) * 100`. */
  function PctColumn(bars: seq<Bar>): (col: seq<Float>)
    ensures |col| == |bars|
    ensures forall i :: 0 <= i < |bars| ==> col[i] == ExpectedPct(bars, i)
  {
    var col := PctPipeline(bars);
    forall i | 0 <= i < |bars|
      ensures col[i] == ExpectedPct(bars, i)
    {
      PctPipelineAt(bars, i);
    }
    col
  }

  /**
   `transform_data`: one row per bar, in the bars' order, each equal to the
   row-wise reading of the source.
   */
  function TransformData(bars: seq<Bar>, symbol: Symbol): (rows: seq<Row>)
    ensures |rows| == |bars|
    ensures forall i :: 0 <= i < |bars| ==> rows[i] == ExpectedRow(bars, symbol, i)
  {
    SelectColumns(bars, symbol, ChangeColumn(bars), PctColumn(bars))
  }

  /** What rows that follow the row-wise reading promise, one property at a time. */
  lemma ExpectedRowsProperties(bars: seq<Bar>, symbol: Symbol, rows: seq<Row>)
    requires |rows| == |bars|
    requires forall i :: 0 <= i < |bars| ==> rows[i] == ExpectedRow(bars, symbol, i)
    ensures forall i :: 0 <= i < |rows| ==> Carries(rows[i], bars[i], symbol)
    ensures |rows| > 0 ==> rows[0].closeChange == Finite(0.0) && rows[0].closePctChange == Finite(0.0)
    ensures forall i :: 0 < i < |rows| ==> rows[i].closeChange == Finite(bars[i].close - bars[i - 1].close)
    ensures forall i :: 0 < i < |rows| && bars[i - 1].close != 0.0 ==>
      rows[i].closePctChange == Finite(PercentChange(bars[i - 1].close, bars[i].close))
  {
  }

  /** The properties the source promises of each output row, one by one. */
  lemma TransformRows(bars: seq<Bar>, symbol: Symbol)
    ensures var rows := TransformData(bars, symbol);
      && |rows| == |bars|
      && (forall i :: 0 <= i < |rows| ==> Carries(rows[i], bars[i], symbol))
      && (|rows| > 0 ==> rows[0].closeChange == Finite(0.0) && rows[0].closePctChange == Finite(0.0))
      && (forall i :: 0 < i < |rows| ==> rows[i].closeChange == Finite(bars[i].close - bars[i - 1].close))
      && (forall i :: 0 < i < |rows| && bars[i - 1].close != 0.0 ==>
            rows[i].closePctChange == Finite(PercentChange(bars[i - 1].close, bars[i].close)))
  {
    ExpectedRowsProperties(bars, symbol, TransformData(bars, symbol));
  }

  /**
   The derived fields are window-local: transforming the first k bars gives
   exactly the first k rows of transforming them all.
   */
  lemma TransformPrefix(bars: seq<Bar>, symbol: Symbol, k: nat)
    requires k <= |bars|
    ensures TransformData(bars[..k], symbol) == TransformData(bars, symbol)[..k]
  {
    var short, long := TransformData(bars[..k], symbol), TransformData(bars, symbol)[..k];
    forall i | 0 <= i < k
      ensures short[i] == long[i]
    {
      assert bars[..k][i] == bars[i];
      if i > 0 {
        assert bars[..k][i - 1] == bars[i - 1];
      }
    }
  }

  /** Sum of the close_change column, for rows whose changes are all finite. */
  function TotalChange(rows: seq<Row>): real
    requires forall i :: 0 <= i < |rows| ==> rows[i].closeChange.Finite?
  {
    if |rows| == 0 then 0.0
    else TotalChange(rows[..|rows| - 1]) + rows[|rows| - 1].closeChange.value
  }

  /** Row 0 carries no change and every later change is measured from the row before. */
  ghost predicate ChainedChanges(rows: seq<Row>) {
    && (|rows| > 0 ==> rows[0].closeChange == Finite(0.0))
    && forall i, j :: 0 <= i && j == i + 1 && j < |rows| ==>
         rows[j].closeChange == Finite(rows[j].close - rows[i].close)
  }

  lemma {:induction false} ChainedChangesTelescope(rows: seq<Row>)
    requires |rows| > 0 && ChainedChanges(rows)
    ensures forall i :: 0 <= i < |rows| ==> rows[i].closeChange.Finite?
    ensures TotalChange(rows) == rows[|rows| - 1].close - rows[0].close
    decreases |rows|
  {
    if |rows| > 1 {
      var front := rows[..|rows| - 1];
      assert forall i :: 0 <= i < |front| ==> front[i] == rows[i];
      ChainedChangesTelescope(front);
    }
  }

  lemma TransformChains(bars: seq<Bar>, symbol: Symbol)
    ensures var rows := TransformData(bars, symbol);
      ChainedChanges(rows) && (|rows| > 0 ==> rows[0].close == bars[0].close && rows[|rows| - 1].close == bars[|bars| - 1].close)
  {
  }

  /**
   Over a fetched window, the close_change values add up to the net move of
   the close from the window's first bar to its last.
   */
  lemma TransformChangesTelescope(bars: seq<Bar>, symbol: Symbol)
    requires |bars| > 0
    ensures var rows := TransformData(bars, symbol);
      && (forall i :: 0 <= i < |rows| ==> rows[i].closeChange.Finite?)
      && TotalChange(rows) == bars[|bars| - 1].close - bars[0].close
  {
    TransformChains(bars, symbol);
    ChainedChangesTelescope(TransformData(bars, symbol));
  }

  /** Closes 10, 12, 9 give changes 0, 2, -3 and percentage changes 0, 20, -25. */
  lemma ThreeDayExample(symbol: Symbol)
    ensures var rows := TransformData([Bar(1, 10.0, 11.0, 9.0, 10.0, 100),
                                       Bar(2, 10.0, 13.0, 10.0, 12.0, 200),
                                       Bar(3, 12.0, 12.0, 8.0, 9.0, 300)], symbol);
      && |rows| == 3
      && rows[0].closeChange == Finite(0.0) && rows[0].closePctChange == Finite(0.0)
      && rows[1].closeChange == Finite(2.0) && rows[1].closePctChange == Finite(20.0)
      && rows[2].closeChange == Finite(-3.0) && rows[2].closePctChange == Finite(-25.0)
  {}
}
