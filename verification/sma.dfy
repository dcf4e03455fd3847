/** Simple moving average: `compute_SMA` in c_engine/indicators.c. */
module Sma {
  import opened Outcomes
  import opened Series

  /** Reference definition: value i is the mean of the `window` prices that
      start at input index i (so it is aligned with input index i + window - 1). */
  function SmaSpec(prices: seq<real>, window: int): (r: seq<real>)
    requires 0 < window <= |prices|
    ensures |r| == |prices| - window + 1
  {
    seq(|prices| - window + 1, i requires 0 <= i < |prices| - window + 1 => Mean(prices[i..i + window]))
  }

  /** The C routine: rejects an empty series, a non-positive window and a window
      that is not strictly shorter than the series, then fills every slot with
      the sum of its window divided by the window size. */
  method ComputeSma(prices: seq<real>, window: int) returns (r: Result<seq<real>>)
    ensures r.Ok? <==> 0 < window < |prices|
    ensures r.Err? ==> r.error == InvalidInput
    ensures r.Ok? ==> |r.value| == |prices| - window + 1
    ensures r.Ok? ==> forall i :: 0 <= i < |r.value| ==> r.value[i] == Mean(prices[i..i + window])
  {
    if |prices| == 0 || window <= 0 {
      return Err(InvalidInput);
    }
    if window >= |prices| {
      return Err(InvalidInput);
    }
    var resultLength := |prices| - window + 1;
    var values := new real[resultLength];
    for i := 0 to resultLength
      invariant forall k :: 0 <= k < i ==> values[k] == Mean(prices[k..k + window])
    {
      var sum := WindowSum(prices, i, window);
      values[i] := sum / window as real;
    }
    return Ok(values[..]);
  }

  /** The inner loop of the C routine: the sum of `window` prices from `start`. */
  method WindowSum(prices: seq<real>, start: int, window: int) returns (sum: real)
    requires 0 <= start && 0 <= window && start + window <= |prices|
    ensures sum == Sum(prices[start..start + window])
  {
    sum := 0.0;
    for j := 0 to window
      invariant sum == Sum(prices[start..start + j])
    {
      assert prices[start..start + j + 1] == prices[start..start + j] + [prices[start + j]];
      SumSnoc(prices[start..start + j], prices[start + j]);
      sum := sum + prices[start + j];
    }
  }

  /** The method's result is exactly the reference sequence. */
  lemma ComputeSmaMeetsSpec(prices: seq<real>, window: int, values: seq<real>)
    requires 0 < window < |prices|
    requires |values| == |prices| - window + 1
    requires forall i :: 0 <= i < |values| ==> values[i] == Mean(prices[i..i + window])
    ensures values == SmaSpec(prices, window)
  {
  }

  /** Every moving-average value lies between the least and greatest price of its window. */
  lemma SmaWithinWindowRange(prices: seq<real>, window: int, i: int, lo: real, hi: real)
    requires 0 < window <= |prices|
    requires 0 <= i < |prices| - window + 1
    requires forall j :: i <= j < i + window ==> lo <= prices[j] <= hi
    ensures lo <= SmaSpec(prices, window)[i] <= hi
  {
    var w := prices[i..i + window];
    forall t | 0 <= t < |w| ensures lo <= w[t] <= hi {
      assert w[t] == prices[i + t];
    }
    MeanBounds(w, lo, hi);
  }

  /** On a ramp of step one (prices[j] == a + j), value i is the window's middle price,
      a + i + (window - 1) / 2. */
  lemma SmaOfRamp(prices: seq<real>, a: real, window: int, i: int)
    requires 0 < window <= |prices|
    requires forall j :: 0 <= j < |prices| ==> prices[j] == a + j as real
    requires 0 <= i < |prices| - window + 1
    ensures SmaSpec(prices, window)[i] == a + i as real + (window - 1) as real / 2.0
  {
    var w := prices[i..i + window];
    var b := a + i as real;
    forall t | 0 <= t < |w| ensures w[t] == b + t as real {
      assert w[t] == prices[i + t];
    }
    SumOfRun(w, b);
    var n := window as real;
    var middle := b + (n - 1.0) / 2.0;
    assert Sum(w) == n * middle;
    assert Mean(w) == (n * middle) / n;
  }

  /** The scenario of tests/test_indicators.c: prices 1..30 with window 5 give 26
      values running from 3 to 28. */
  method RampScenario() returns (r: Result<seq<real>>)
    ensures r.Ok? && |r.value| == 26
    ensures forall i :: 0 <= i < 26 ==> r.value[i] == (i + 3) as real
    ensures r.value[0] == 3.0 && r.value[25] == 28.0
  {
    var prices := seq(30, i => (i + 1) as real);
    r := ComputeSma(prices, 5);
    ComputeSmaMeetsSpec(prices, 5, r.value);
    forall i | 0 <= i < 26 ensures r.value[i] == (i + 3) as real {
      SmaOfRamp(prices, 1.0, 5, i);
    }
  }
}
