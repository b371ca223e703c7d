/**
 The handful of pandas Series operations the transformation uses, on a
 column represented as a sequence of floats indexed from 0.
 */
module Series {
  import opened Floats

  /** `Series.shift(1)`: every value moves down one place; the first becomes NaN. */
  function Shift(col: seq<Float>): (r: seq<Float>)
    ensures |r| == |col|
    ensures |r| > 0 ==> r[0] == NaN
    ensures forall i {:trigger r[i]} :: 0 < i < |r| ==> r[i] == col[i - 1]
  {
    if |col| == 0 then [] else [NaN] + col[..|col| - 1]
  }

  /** An elementwise unary operation. */
  function Apply(f: Float -> Float, col: seq<Float>): seq<Float>
  {
    seq(|col|, i requires 0 <= i < |col| => f(col[i]))
  }

  /** An elementwise binary operation on two aligned columns. */
  function ZipWith(f: (Float, Float) -> Float, a: seq<Float>, b: seq<Float>): seq<Float>
    requires |a| == |b|
  {
    seq(|a|, i requires 0 <= i < |a| => f(a[i], b[i]))
  }

  /** `Series.diff()`: the column minus its shifted self. */
  function Diff(col: seq<Float>): seq<Float> {
    ZipWith(Sub, col, Shift(col))
  }

  /** `Series.pct_change()`: the column divided by its shifted self, minus one. */
  function PctChange(col: seq<Float>): seq<Float> {
    Apply(x => Sub(x, Finite(1.0)), ZipWith(Div, col, Shift(col)))
  }

  /** `Series.fillna(v)`: NaN entries become `v`; infinities are kept. */
  function FillNa(col: seq<Float>, v: real): seq<Float> {
    Apply((x: Float) => if x.NaN? then Finite(v) else x, col)
  }

  /** `series * k` for a scalar `k`. */
  function Scale(col: seq<Float>, k: real): seq<Float> {
    Apply(x => Mul(x, Finite(k)), col)
  }
}
