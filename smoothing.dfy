/**
 * The trailing moving average `applySmoothing` of the dashboard client
 * (static/js/ws_client.js). Output i is the mean of the (at most) `window`
 * entries ending at i; the window shrinks near the start, with no padding.
 * A window of 1 or less returns an equal copy.
 */
module Smoothing {
  import opened JsValue

  /** What one entry adds to a window sum: its number, 0 for anything else. */
  function Addend(x: Num): real
  {
    if x.Number? then x.value else 0.0
  }

  /** The left fold `slice.reduce((a, b) => a + Addend(b), 0)`. */
  function Sum(s: seq<Num>): real
  {
    if s == [] then 0.0 else Sum(s[..|s| - 1]) + Addend(s[|s| - 1])
  }

  function Mean(s: seq<Num>): real
    requires |s| > 0
  {
    Sum(s) / (|s| as real)
  }

  /** `Math.max(0, i - window + 1)`: the first index of the window ending at i. */
  function WindowStart(i: int, window: int): int
  {
    if i - window + 1 > 0 then i - window + 1 else 0
  }

  /** The smoothed series: the reference definition `ApplySmoothing` is proved against. */
  function Smoothed(arr: seq<Num>, window: int): (r: seq<Num>)
    ensures |r| == |arr|
  {
    if window <= 1 then arr
    else seq(|arr|, i requires 0 <= i < |arr| => Number(Mean(arr[WindowStart(i, window)..i + 1])))
  }

  /** One more entry of the reduce: the fold of a longer prefix. */
  lemma SumStep(s: seq<Num>, k: nat)
    requires k < |s|
    ensures Sum(s[..k + 1]) == Sum(s[..k]) + Addend(s[k])
  {
    assert s[..k + 1][..k] == s[..k];
  }

  /** The smoothed series grows by one mean at a time. */
  lemma SmoothedPrefix(arr: seq<Num>, window: int, i: nat)
    requires window > 1 && i < |arr|
    ensures Smoothed(arr, window)[..i + 1]
         == Smoothed(arr, window)[..i] + [Number(Mean(arr[WindowStart(i, window)..i + 1]))]
  {
    var r := Smoothed(arr, window);
    assert r[..i + 1] == r[..i] + [r[i]];
  }

  /** `applySmoothing(arr, window)`: one pass over the input, one reduce per window. */
  method ApplySmoothing(arr: seq<Num>, window: int) returns (out: seq<Num>)
    ensures out == Smoothed(arr, window)
  {
    if window <= 1 {
      return arr;
    }
    out := [];
    for i := 0 to |arr|
      invariant out == Smoothed(arr, window)[..i]
    {
      var start := WindowStart(i, window);
      var slice := arr[start..i + 1];
      var total := 0.0;
      for k := 0 to |slice|
        invariant total == Sum(slice[..k])
      {
        SumStep(slice, k);
        total := total + Addend(slice[k]);
      }
      assert slice[..|slice|] == slice;
      SmoothedPrefix(arr, window, i);
      out := out + [Number(total / (|slice| as real))];
    }
    assert Smoothed(arr, window)[..|arr|] == Smoothed(arr, window);
  }

  /** A sum of k copies of c is k * c. */
  lemma {:induction false} SumOfConstant(s: seq<Num>, c: real)
    requires forall i :: 0 <= i < |s| ==> s[i] == Number(c)
    ensures Sum(s) == (|s| as real) * c
  {
    if s != [] {
      SumOfConstant(s[..|s| - 1], c);
    }
  }

  /** A sum of numbers between lo and hi lies between |s| * lo and |s| * hi. */
  lemma {:induction false} SumBounds(s: seq<Num>, lo: real, hi: real)
    requires forall i :: 0 <= i < |s| ==> s[i].Number? && lo <= s[i].value <= hi
    ensures (|s| as real) * lo <= Sum(s) <= (|s| as real) * hi
  {
    if s != [] {
      SumBounds(s[..|s| - 1], lo, hi);
    }
  }

  /** The mean of k >= 1 copies of c is c. */
  lemma MeanOfConstant(w: seq<Num>, c: real)
    requires |w| > 0
    requires forall i :: 0 <= i < |w| ==> w[i] == Number(c)
    ensures Mean(w) == c
  {
    SumOfConstant(w, c);
    var n := |w| as real;
    calc {
      Mean(w);
      Sum(w) / n;
      (n * c) / n;
      c;
    }
  }

  /** Smoothing a constant series leaves it unchanged, whatever the window. */
  lemma {:induction false} SmoothingKeepsConstant(arr: seq<Num>, window: int, c: real)
    requires forall i :: 0 <= i < |arr| ==> arr[i] == Number(c)
    ensures Smoothed(arr, window) == arr
  {
    if window > 1 {
      var r := Smoothed(arr, window);
      forall i | 0 <= i < |arr|
        ensures r[i] == arr[i]
      {
        MeanOfConstant(arr[WindowStart(i, window)..i + 1], c);
      }
    }
  }

  /** Dividing a total between n * lo and n * hi by n > 0 lands between lo and hi. */
  lemma QuotientBounds(total: real, n: real, lo: real, hi: real)
    requires n > 0.0 && n * lo <= total <= n * hi
    ensures lo <= total / n <= hi
  {
    var q := total / n;
    assert total == q * n;
    assert (hi - q) * n >= 0.0;
    assert (q - lo) * n >= 0.0;
  }

  /** Every smoothed point of a series of numbers in [lo, hi] is a number in [lo, hi]. */
  lemma {:induction false} SmoothingStaysInRange(arr: seq<Num>, window: int, lo: real, hi: real)
    requires forall i :: 0 <= i < |arr| ==> arr[i].Number? && lo <= arr[i].value <= hi
    ensures forall i :: 0 <= i < |arr| ==>
      Smoothed(arr, window)[i].Number? && lo <= Smoothed(arr, window)[i].value <= hi
  {
    if window > 1 {
      forall i | 0 <= i < |arr|
        ensures lo <= Smoothed(arr, window)[i].value <= hi
      {
        var w := arr[WindowStart(i, window)..i + 1];
        SumBounds(w, lo, hi);
        QuotientBounds(Sum(w), |w| as real, lo, hi);
      }
    }
  }

  /** With a real window, the first output is the first input (as a number) and output i averages entries max(0, i - w + 1)..i. */
  lemma SmoothedFirstPoint(arr: seq<Num>, window: int)
    requires |arr| > 0 && window > 1
    ensures Smoothed(arr, window)[0] == Number(Addend(arr[0]))
  {
    var w := arr[WindowStart(0, window)..1];
    assert w == [arr[0]];
    assert w[..0] == [];
    assert Sum(w) == Addend(arr[0]);
  }
}
