/** The trend helpers of `src/lib/trends.js`: splitting a series into the
    current and the previous period, and the percentage change between them. */
module Trends {
  import opened Base
  import opened JsArray

  /** The two periods of a split: the latest rows and the rows just before them. */
  datatype Periods<T> = Periods(current: seq<T>, previous: seq<T>)

  function Min(a: int, b: int): (m: int)
    ensures m <= a && m <= b && (m == a || m == b)
  {
    if a <= b then a else b
  }

  /** How many rows a window covers: one for "24h", thirty for "30d", and seven
      for "7d", for any other window and when none is given. */
  function WindowRows(window: Option<string>): (k: nat)
    ensures k == 1 <==> window == Some("24h")
    ensures k == 30 <==> window == Some("30d")
    ensures k == 7 <==> window != Some("24h") && window != Some("30d")
  {
    if window == Some("24h") then 1
    else if window == Some("30d") then 30
    else 7
  }

  /** `periodSplit(rows, window)`. */
  function PeriodSplit<T>(rows: seq<T>, window: Option<string>): (r: Periods<T>)
    ensures rows == [] ==> r == Periods([], [])
  {
    var n := |rows|;
    if n == 0 then Periods([], [])
    else
      var size := Min(WindowRows(window), n);
      Periods(Slice(rows, -size, None), Slice(rows, -(2 * size), Some(-size)))
  }

  /** A non-empty series splits into its last `size = min(k, n)` rows and the
      at most `size` rows just before them; together they are the series'
      last `min(2 * size, n)` rows, with nothing shared and nothing skipped. */
  lemma PeriodSplitShape<T>(rows: seq<T>, window: Option<string>)
    requires rows != []
    ensures var n := |rows|;
            var size := Min(WindowRows(window), n);
            var r := PeriodSplit(rows, window);
            && 1 <= size
            && r.current == rows[n - size..]
            && |r.current| == size
            && r.previous == rows[n - Min(2 * size, n)..n - size]
            && |r.previous| == Min(size, n - size)
            && r.previous + r.current == rows[n - Min(2 * size, n)..]
  {
    var n := |rows|;
    var size := Min(WindowRows(window), n);
    SliceResolved(rows, -size, None, n - size, n);
    SliceResolved(rows, -(2 * size), Some(-size), n - Min(2 * size, n), n - size);
    assert rows[n - Min(2 * size, n)..n - size] + rows[n - size..] == rows[n - Min(2 * size, n)..];
  }

  /** Ten rows with the "7d" window: the previous period is the first three
      rows, not an empty list. */
  lemma PeriodSplitTenRows<T>(rows: seq<T>)
    requires |rows| == 10
    ensures PeriodSplit(rows, Some("7d")) == Periods(rows[3..], rows[..3])
  {
    PeriodSplitShape(rows, Some("7d"));
  }

  /** `pctChange(curr, prev)`. A `prev` that is `None` stands for a falsy
      non-number (`undefined`, `null`, `NaN`). Without a usable base the change
      is 100 for a positive value and 0 otherwise; with a non-zero base it is
      the relative difference in percent, so applying it to the base gives the
      current value back. */
  function PctChange(curr: real, prev: Option<real>): (r: real)
    ensures prev.None? || prev.value == 0.0 ==> (r == 100.0 || r == 0.0) && (r == 100.0 <==> curr > 0.0)
    ensures prev.Some? && prev.value != 0.0 ==> prev.value + prev.value * r / 100.0 == curr
  {
    if prev.None? || prev.value == 0.0 then (if curr > 0.0 then 100.0 else 0.0)
    else
      var q := (curr - prev.value) / prev.value;
      assert q * prev.value == curr - prev.value;
      assert prev.value * (q * 100.0) / 100.0 == prev.value * q;
      q * 100.0
  }

  /** Against a positive base the change is positive exactly when the value
      grew and zero exactly when it stayed the same. */
  lemma PctChangeSign(curr: real, prev: real)
    requires prev > 0.0
    ensures PctChange(curr, Some(prev)) > 0.0 <==> curr > prev
    ensures PctChange(curr, Some(prev)) == 0.0 <==> curr == prev
  {
    var q := (curr - prev) / prev;
    assert q * prev == curr - prev;
    assert PctChange(curr, Some(prev)) == q * 100.0;
  }

  /** From 100 to 150 is a 50 percent rise. */
  lemma PctChangeExample()
    ensures PctChange(150.0, Some(100.0)) == 50.0
    ensures PctChange(0.0, Some(0.0)) == 0.0
  {
  }
}
