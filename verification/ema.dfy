/** Exponential moving average: `compute_EMA` in c_engine/indicators.c. */
module Ema {
  import opened Outcomes
  import opened Series
  import Sma

  /** The smoothing multiplier 2 / (window + 1); a proper weight for every positive window. */
  function Alpha(window: int): (a: real)
    requires 0 < window
    ensures 0.0 < a <= 1.0
    ensures window == 1 ==> a == 1.0
  {
    2.0 / (window as real + 1.0)
  }

  /** One step of the recurrence: EMA(current) = (price - EMA(prev)) * alpha + EMA(prev). */
  function EmaStep(previous: real, price: real, window: int): real
    requires 0 < window
  {
    (price - previous) * Alpha(window) + previous
  }

  /** What the engine promises of an EMA series `e` for (prices, window): one
      value per SMA value, seeded with the first SMA value, and every later value
      one recurrence step from its predecessor using the price that closes its window. */
  ghost predicate IsEma(prices: seq<real>, window: int, e: seq<real>)
    requires 0 < window < |prices|
  {
    && |e| == |prices| - window + 1
    && e[0] == Sma.SmaSpec(prices, window)[0]
    && forall i :: 1 <= i < |e| ==> e[i] == EmaStep(e[i - 1], prices[i + window - 1], window)
  }

  /** The C routine, reading the seed from `compute_SMA` (the call at line 125
      names `get_SMA`, a function that does not exist; `compute_SMA` is meant).
      Its own guard rejects only an empty series, a zero window and a window not
      shorter than the series; a negative window passes that guard and is then
      turned away by the SMA call, so it fails as a dependency failure. */
  method ComputeEma(prices: seq<real>, window: int) returns (r: Result<seq<real>>)
    ensures r.Ok? <==> 0 < window < |prices|
    ensures r == Err(InvalidInput) <==> |prices| == 0 || window == 0 || window >= |prices|
    ensures r == Err(DependencyFailure) <==> 0 < |prices| && window < 0
    ensures r.Ok? ==> |r.value| == |prices| - window + 1
    ensures r.Ok? ==> r.value[0] == Mean(prices[..window])
    ensures r.Ok? ==> IsEma(prices, window, r.value)
  {
    if |prices| == 0 || window == 0 {
      return Err(InvalidInput);
    }
    if window >= |prices| {
      return Err(InvalidInput);
    }
    var resultLength := |prices| - window + 1;
    var sma := Sma.ComputeSma(prices, window);
    if sma.Err? {
      return Err(DependencyFailure);
    }
    Sma.ComputeSmaMeetsSpec(prices, window, sma.value);
    var alpha := Alpha(window);
    var values := new real[resultLength];
    values[0] := sma.value[0];
    for i := 1 to resultLength
      invariant values[0] == Sma.SmaSpec(prices, window)[0]
      invariant forall j :: 1 <= j < i ==> values[j] == EmaStep(values[j - 1], prices[j + window - 1], window)
    {
      values[i] := ((prices[i + window - 1] - values[i - 1]) * alpha) + values[i - 1];
    }
    return Ok(values[..]);
  }

  /** A step moves the average towards the price and never past it. */
  lemma EmaStepBetween(previous: real, price: real, window: int)
    requires 0 < window
    ensures previous <= price ==> previous <= EmaStep(previous, price, window) <= price
    ensures price <= previous ==> price <= EmaStep(previous, price, window) <= previous
  {
    var a := Alpha(window);
    var d := price - previous;
    if previous <= price {
      ProductNonNegative(d, a);
      ProductNonNegative(d, 1.0 - a);
      assert Product(d, a) + Product(d, 1.0 - a) == d;
    } else {
      ProductNonNegative(-d, a);
      ProductNonNegative(-d, 1.0 - a);
      assert Product(-d, a) + Product(-d, 1.0 - a) == -d;
    }
  }

  /** If every price lies in [lo, hi], value i of the EMA does too. */
  lemma {:induction false} EmaWithinPriceRangeAt(prices: seq<real>, window: int, e: seq<real>, lo: real, hi: real, i: int)
    requires 0 < window < |prices|
    requires IsEma(prices, window, e)
    requires forall j :: 0 <= j < |prices| ==> lo <= prices[j] <= hi
    requires 0 <= i < |e|
    ensures lo <= e[i] <= hi
    decreases i
  {
    if i == 0 {
      Sma.SmaWithinWindowRange(prices, window, 0, lo, hi);
    } else {
      EmaWithinPriceRangeAt(prices, window, e, lo, hi, i - 1);
      EmaStepBetween(e[i - 1], prices[i + window - 1], window);
    }
  }

  /** The EMA never leaves the range of the prices it averages. */
  lemma EmaWithinPriceRange(prices: seq<real>, window: int, e: seq<real>, lo: real, hi: real)
    requires 0 < window < |prices|
    requires IsEma(prices, window, e)
    requires forall j :: 0 <= j < |prices| ==> lo <= prices[j] <= hi
    ensures forall i :: 0 <= i < |e| ==> lo <= e[i] <= hi
  {
    forall i | 0 <= i < |e| ensures lo <= e[i] <= hi {
      EmaWithinPriceRangeAt(prices, window, e, lo, hi, i);
    }
  }

  /** A flat price series has a flat EMA at the same level. */
  lemma EmaOfFlatSeries(prices: seq<real>, window: int, e: seq<real>, c: real)
    requires 0 < window < |prices|
    requires IsEma(prices, window, e)
    requires forall j :: 0 <= j < |prices| ==> prices[j] == c
    ensures forall i :: 0 <= i < |e| ==> e[i] == c
  {
    EmaWithinPriceRange(prices, window, e, c, c);
  }

  /** The seed and the recurrence leave no freedom: two EMA series for the same
      input agree, so the computation is deterministic. */
  lemma EmaDetermined(prices: seq<real>, window: int, e1: seq<real>, e2: seq<real>)
    requires 0 < window < |prices|
    requires IsEma(prices, window, e1) && IsEma(prices, window, e2)
    ensures e1 == e2
  {
    EmaAgreeUpTo(prices, window, e1, e2, |e1| - 1);
  }

  lemma {:induction false} EmaAgreeUpTo(prices: seq<real>, window: int, e1: seq<real>, e2: seq<real>, i: int)
    requires 0 < window < |prices|
    requires IsEma(prices, window, e1) && IsEma(prices, window, e2)
    requires 0 <= i < |e1|
    ensures e1[..i + 1] == e2[..i + 1]
    decreases i
  {
    if i > 0 {
      EmaAgreeUpTo(prices, window, e1, e2, i - 1);
      assert e1[i - 1] == e1[..i][i - 1] == e2[..i][i - 1] == e2[i - 1];
      assert e1[..i + 1] == e1[..i] + [e1[i]];
      assert e2[..i + 1] == e2[..i] + [e2[i]];
    }
  }
}
