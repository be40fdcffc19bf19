/** The JavaScript array operations the dashboard relies on: `slice` with
    negative positions and the `reduce` that sums numbers. */
module JsArray {
  import opened Base

  /** Where `slice` starts or stops for the argument `k` on an array of
      length `n`: a negative `k` counts back from the end, and the position
      is clamped to `0..n`. */
  function RelativeIndex(k: int, n: nat): (i: nat)
    ensures i <= n
    ensures 0 <= k <= n ==> i == k
    ensures k < 0 && 0 <= n + k ==> i == n + k
    ensures n + k < 0 ==> i == 0
    ensures n < k ==> i == n
  {
    if k < 0 then (if n + k < 0 then 0 else n + k) else (if k < n then k else n)
  }

  /** `a.slice(start, end)`, with `end` omitted when it is `None`. */
  function Slice<T>(a: seq<T>, start: int, end: Option<int>): (r: seq<T>)
    ensures |r| <= |a|
  {
    var from := RelativeIndex(start, |a|);
    var to := if end.Some? then RelativeIndex(end.value, |a|) else |a|;
    if from < to then a[from..to] else []
  }

  /** Both bounds of the slice, resolved. */
  lemma SliceResolved<T>(a: seq<T>, start: int, end: Option<int>, from: nat, to: nat)
    requires from == RelativeIndex(start, |a|)
    requires to == (if end.Some? then RelativeIndex(end.value, |a|) else |a|)
    ensures from <= to ==> Slice(a, start, end) == a[from..to]
    ensures to <= from ==> Slice(a, start, end) == []
  {
  }

  /** `a.reduce((sum, val) => sum + val, 0)`: added from left to right. */
  function Sum(s: seq<real>): real
  {
    if s == [] then 0.0 else Sum(s[..|s| - 1]) + s[|s| - 1]
  }

  lemma {:induction false} SumAppend(a: seq<real>, b: seq<real>)
    ensures Sum(a + b) == Sum(a) + Sum(b)
    decreases |b|
  {
    if b == [] {
      assert a + b == a;
    } else {
      var c := a + b;
      assert c[..|c| - 1] == a + b[..|b| - 1];
      SumAppend(a, b[..|b| - 1]);
    }
  }

  /** The sum is the same whichever order the additions are made in: adding
      the first element to the sum of the rest gives it too. */
  lemma SumFirst(s: seq<real>)
    requires s != []
    ensures Sum(s) == s[0] + Sum(s[1..])
  {
    assert s == [s[0]] + s[1..];
    SumAppend([s[0]], s[1..]);
    assert [s[0]][..0] == [];
  }
}
