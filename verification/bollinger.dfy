/** Rolling population standard deviation and Bollinger Bands:
    `compute_std_devs` and `compute_bollinger_bands` in c_engine/indicators.c. */
module Bollinger {
  import opened Outcomes
  import opened Series
  import Sma

  /** What the model assumes of the C library's `sqrt`, which is passed in as a
      parameter: on non-negative inputs it is non-negative and zero exactly at zero. */
  ghost predicate IsSquareRoot(sqrt: real -> real)
  {
    forall x :: 0.0 <= x ==> 0.0 <= sqrt(x) && (sqrt(x) == 0.0 <==> x == 0.0)
  }

  /** Reference definition: value i is the square root of the population
      variance of the window starting at i, taken around means[i]. */
  function StdDevSpec(prices: seq<real>, window: int, means: seq<real>, sqrt: real -> real): (r: seq<real>)
    requires 0 < window <= |prices| && |prices| - window + 1 <= |means|
    ensures |r| == |prices| - window + 1
  {
    seq(|prices| - window + 1, i requires 0 <= i < |prices| - window + 1 =>
      sqrt(Variance(prices[i..i + window], means[i])))
  }

  /** The C routine. It fails (EXIT_FAILURE) on an empty series, a non-positive
      window or a window longer than the series, so unlike the SMA a window equal
      to the series length is accepted. Otherwise it fills length - window + 1
      slots and returns them; the prices and the means are left as they were. */
  method ComputeStdDevs(prices: seq<real>, window: int, means: seq<real>, sqrt: real -> real)
    returns (r: Result<seq<real>>)
    requires 0 < window <= |prices| ==> |prices| - window + 1 <= |means|
    ensures r.Ok? <==> 0 < window <= |prices|
    ensures r.Err? ==> r.error == InvalidInput
    ensures r.Ok? ==> r.value == StdDevSpec(prices, window, means, sqrt)
  {
    if |prices| <= 0 || window <= 0 || window > |prices| {
      return Err(InvalidInput);
    }
    var resultLength := |prices| - window + 1;
    var stdDevs := new real[resultLength];
    for i := 0 to resultLength
      invariant forall k :: 0 <= k < i ==> stdDevs[k] == sqrt(Variance(prices[k..k + window], means[k]))
    {
      var sum := SquaredDeviationSum(prices, i, window, means[i]);
      var variance := sum / window as real;
      stdDevs[i] := sqrt(variance);
    }
    return Ok(stdDevs[..]);
  }

  /** The inner loop of `compute_std_devs`: the sum of squared differences
      between the `window` prices from `start` and the mean m. */
  method SquaredDeviationSum(prices: seq<real>, start: int, window: int, m: real) returns (sum: real)
    requires 0 <= start && 0 <= window && start + window <= |prices|
    ensures sum == Sum(SquaredDeviations(prices[start..start + window], m))
  {
    sum := 0.0;
    for j := 0 to window
      invariant sum == Sum(SquaredDeviations(prices[start..start + j], m))
    {
      var difference := prices[start + j] - m;
      assert prices[start..start + j + 1] == prices[start..start + j] + [prices[start + j]];
      SquaredDeviationsSnoc(prices[start..start + j], prices[start + j], m);
      SumSnoc(SquaredDeviations(prices[start..start + j], m), Square(difference));
      sum := sum + difference * difference;
    }
  }

  /** With a genuine square root, every standard deviation is non-negative. */
  lemma StdDevsNonNegative(prices: seq<real>, window: int, means: seq<real>, sqrt: real -> real)
    requires IsSquareRoot(sqrt)
    requires 0 < window <= |prices| && |prices| - window + 1 <= |means|
    ensures forall i :: 0 <= i < |prices| - window + 1 ==> 0.0 <= StdDevSpec(prices, window, means, sqrt)[i]
  {
    forall i | 0 <= i < |prices| - window + 1
      ensures 0.0 <= StdDevSpec(prices, window, means, sqrt)[i]
    {
      VarianceNonNegative(prices[i..i + window], means[i]);
    }
  }

  /** The three bands and their shared length, each band held on its own. */
  datatype BollingerBands = BollingerBands(middle: seq<real>, top: seq<real>, bottom: seq<real>, length: int)
  {
    predicate WellFormed()
    {
      |middle| == length && |top| == length && |bottom| == length
    }
  }

  /** Reference definition: the middle band is the SMA; the top and bottom bands
      lie k standard deviations (taken around the middle band) above and below it. */
  function BollingerSpec(prices: seq<real>, window: int, k: real, sqrt: real -> real): (b: BollingerBands)
    requires 0 < window < |prices|
    ensures b.WellFormed() && b.length == |prices| - window + 1
  {
    var middle := Sma.SmaSpec(prices, window);
    var sd := StdDevSpec(prices, window, middle, sqrt);
    BollingerBands(
      middle,
      seq(|middle|, i requires 0 <= i < |middle| => middle[i] + Product(k, sd[i])),
      seq(|middle|, i requires 0 <= i < |middle| => middle[i] - Product(k, sd[i])),
      |middle|)
  }

  /** The C routine. It rejects a non-positive window, a window not shorter than
      the series and a non-positive multiplier k; otherwise every band has
      length - window + 1 values. */
  method ComputeBollingerBands(prices: seq<real>, window: int, k: real, sqrt: real -> real)
    returns (r: Result<BollingerBands>)
    ensures r.Ok? <==> 0 < window < |prices| && 0.0 < k
    ensures r.Err? ==> r.error == InvalidInput
    ensures r.Ok? ==> r.value.WellFormed() && r.value.length == |prices| - window + 1
    ensures r.Ok? ==> r.value == BollingerSpec(prices, window, k, sqrt)
  {
    if window >= |prices| || window <= 0 || k <= 0.0 {
      return Err(InvalidInput);
    }
    var resultLength := |prices| - window + 1;
    var sma := Sma.ComputeSma(prices, window);
    Sma.ComputeSmaMeetsSpec(prices, window, sma.value);
    var middle := sma.value;
    var sd := ComputeStdDevs(prices, window, middle, sqrt);
    var top, bottom := OffsetBands(middle, sd.value, k);
    r := Ok(BollingerBands(middle, top, bottom, resultLength));
    BandsMeetSpec(prices, window, k, sqrt, r.value);
  }

  /** The final loop of `compute_bollinger_bands`: the band k standard
      deviations above and the band k standard deviations below the middle. */
  method OffsetBands(middle: seq<real>, stdDevs: seq<real>, k: real) returns (top: seq<real>, bottom: seq<real>)
    requires |stdDevs| == |middle|
    ensures |top| == |middle| && |bottom| == |middle|
    ensures forall j :: 0 <= j < |middle| ==> top[j] == middle[j] + Product(k, stdDevs[j])
    ensures forall j :: 0 <= j < |middle| ==> bottom[j] == middle[j] - Product(k, stdDevs[j])
  {
    var resultLength := |middle|;
    var topBand := new real[resultLength];
    var bottomBand := new real[resultLength];
    for i := 0 to resultLength
      invariant topBand != bottomBand
      invariant forall j :: 0 <= j < i ==> topBand[j] == middle[j] + Product(k, stdDevs[j])
      invariant forall j :: 0 <= j < i ==> bottomBand[j] == middle[j] - Product(k, stdDevs[j])
    {
      topBand[i] := middle[i] + k * stdDevs[i];
      bottomBand[i] := middle[i] - k * stdDevs[i];
    }
    top, bottom := topBand[..], bottomBand[..];
  }

  /** Bands assembled slot by slot from the SMA and the standard deviations are
      the reference bands. */
  lemma BandsMeetSpec(prices: seq<real>, window: int, k: real, sqrt: real -> real, b: BollingerBands)
    requires 0 < window < |prices|
    requires b.middle == Sma.SmaSpec(prices, window)
    requires b.length == |prices| - window + 1
    requires |b.top| == b.length && |b.bottom| == b.length
    requires forall j :: 0 <= j < b.length ==>
      b.top[j] == b.middle[j] + Product(k, StdDevSpec(prices, window, b.middle, sqrt)[j])
    requires forall j :: 0 <= j < b.length ==>
      b.bottom[j] == b.middle[j] - Product(k, StdDevSpec(prices, window, b.middle, sqrt)[j])
    ensures b == BollingerSpec(prices, window, k, sqrt)
  {
    var spec := BollingerSpec(prices, window, k, sqrt);
    var sd := StdDevSpec(prices, window, b.middle, sqrt);
    assert spec.middle == b.middle;
    assert forall j :: 0 <= j < b.length ==> spec.top[j] == b.middle[j] + Product(k, sd[j]);
    assert forall j :: 0 <= j < b.length ==> spec.bottom[j] == b.middle[j] - Product(k, sd[j]);
    assert b.top == spec.top;
    assert b.bottom == spec.bottom;
  }

  /** For any non-negative k the bands are ordered: bottom <= middle <= top. */
  lemma BandsOrdered(prices: seq<real>, window: int, k: real, sqrt: real -> real)
    requires 0 < window < |prices| && 0.0 <= k
    requires IsSquareRoot(sqrt)
    ensures var b := BollingerSpec(prices, window, k, sqrt);
      forall i :: 0 <= i < b.length ==> b.bottom[i] <= b.middle[i] <= b.top[i]
  {
    var b := BollingerSpec(prices, window, k, sqrt);
    var sd := StdDevSpec(prices, window, b.middle, sqrt);
    StdDevsNonNegative(prices, window, b.middle, sqrt);
    forall i | 0 <= i < b.length ensures b.bottom[i] <= b.middle[i] <= b.top[i] {
      ProductNonNegative(k, sd[i]);
    }
  }

  /** For k > 0 the three bands meet at slot i exactly when the window of prices
      behind slot i is flat. */
  lemma BandsMeetIffFlatWindow(prices: seq<real>, window: int, k: real, sqrt: real -> real, i: int)
    requires 0 < window < |prices| && 0.0 < k
    requires IsSquareRoot(sqrt)
    requires 0 <= i < |prices| - window + 1
    ensures var b := BollingerSpec(prices, window, k, sqrt);
      (b.bottom[i] == b.middle[i] && b.middle[i] == b.top[i])
        <==> forall j :: i <= j < i + window ==> prices[j] == prices[i]
  {
    var b := BollingerSpec(prices, window, k, sqrt);
    var w := prices[i..i + window];
    var v := Variance(w, Mean(w));
    assert b.middle[i] == Mean(w);
    var sd := sqrt(v);
    VarianceNonNegative(w, Mean(w));
    FlatIffZeroVariance(w);
    assert b.top[i] == b.middle[i] + Product(k, sd);
    assert b.bottom[i] == b.middle[i] - Product(k, sd);
    assert (forall t :: 0 <= t < |w| ==> w[t] == w[0])
        <==> (forall j :: i <= j < i + window ==> prices[j] == prices[i]) by {
      forall t | 0 <= t < |w| ensures w[t] == prices[i + t] {}
      if forall j :: i <= j < i + window ==> prices[j] == prices[i] {
        forall t | 0 <= t < |w| ensures w[t] == w[0] {
          assert prices[i + t] == prices[i];
        }
      }
      if forall t :: 0 <= t < |w| ==> w[t] == w[0] {
        forall j | i <= j < i + window ensures prices[j] == prices[i] {
          assert w[j - i] == w[0];
        }
      }
    }
    if sd != 0.0 {
      ProductPositive(k, sd);
    }
  }
}
