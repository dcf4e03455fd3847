/** Relative strength index with Wilder smoothing: `compute_RSI` in c_engine/indicators.c. */
module Rsi {
  import opened Outcomes
  import opened Series

  /** A one-step price change split into the part that is a gain and the part that is a loss. */
  datatype Move = Move(gain: real, loss: real)

  /** The split the C loops apply to every change. Both parts are non-negative,
      at most one is nonzero, and the change is recovered as gain - loss. */
  function Split(change: real): (m: Move)
    ensures 0.0 <= m.gain && 0.0 <= m.loss
    ensures m.gain == 0.0 || m.loss == 0.0
    ensures m.gain - m.loss == change
  {
    if change > 0.0 then Move(change, 0.0)
    else if change < 0.0 then Move(0.0, -1.0 * change)
    else Move(0.0, 0.0)
  }

  /** changes[i] is the move from day i to day i + 1. */
  function Changes(prices: seq<real>): (cs: seq<real>)
    requires 0 < |prices|
    ensures |cs| == |prices| - 1
  {
    seq(|prices| - 1, i requires 0 <= i < |prices| - 1 => prices[i + 1] - prices[i])
  }

  function Gains(cs: seq<real>): (g: seq<real>)
    ensures |g| == |cs| && NonNegative(g)
  {
    seq(|cs|, i requires 0 <= i < |cs| => Split(cs[i]).gain)
  }

  function Losses(cs: seq<real>): (l: seq<real>)
    ensures |l| == |cs| && NonNegative(l)
  {
    seq(|cs|, i requires 0 <= i < |cs| => Split(cs[i]).loss)
  }

  /** Wilder's update of a running average with one new observation. It keeps
      a non-negative average non-negative. */
  function WilderStep(average: real, x: real, window: int): (r: real)
    requires 0 < window
    ensures 0.0 <= average && 0.0 <= x ==> 0.0 <= r
  {
    (average * (window - 1) as real + x) / window as real
  }

  /** The smoothed average after j updates: the plain mean of the first `window`
      observations, then one Wilder step per further observation. */
  function Smoothed(xs: seq<real>, window: int, j: nat): (r: real)
    requires NonNegative(xs)
    requires 0 < window && window + j <= |xs|
    ensures 0.0 <= r
    decreases j
  {
    if j == 0 then
      SumNonNegative(xs[..window]);
      Mean(xs[..window])
    else
      WilderStep(Smoothed(xs, window, j - 1), xs[window + j - 1], window)
  }

  /** RSI from the two averages: exactly 100 when the average loss is zero
      (whatever the average gain), otherwise 100 - 100 / (1 + gain / loss). */
  function RsiOf(avgGain: real, avgLoss: real): (r: real)
    requires 0.0 <= avgGain && 0.0 <= avgLoss
    ensures 0.0 <= r <= 100.0
    ensures r == 100.0 <==> avgLoss == 0.0
  {
    if avgLoss == 0.0 then 100.0
    else
      var rs := avgGain / avgLoss;
      100.0 - 100.0 / (1.0 + rs)
  }

  /** The RSI after the first `window` changes and j more. */
  function RsiAt(changes: seq<real>, window: int, j: nat): real
    requires 0 < window && window + j <= |changes|
  {
    RsiOf(Smoothed(Gains(changes), window, j), Smoothed(Losses(changes), window, j))
  }

  /** Reference definition: value j is the RSI after the first `window` changes
      and j more, so it belongs to input index window + j. */
  function RsiSpec(prices: seq<real>, window: int): (r: seq<real>)
    requires 0 < window < |prices|
    ensures |r| == |prices| - window
  {
    seq(|prices| - window, j requires 0 <= j < |prices| - window => RsiAt(Changes(prices), window, j))
  }

  /** The C routine. It rejects a non-positive window and a window not shorter
      than the series; otherwise it writes slot 0 from the seed averages and
      slot i - window + 1 for every i in [window, length - 1), which covers
      every one of the length - window slots. */
  method ComputeRsi(prices: seq<real>, window: int) returns (r: Result<seq<real>>)
    ensures r.Ok? <==> 0 < window < |prices|
    ensures r.Err? ==> r.error == InvalidInput
    ensures r.Ok? ==> r.value == RsiSpec(prices, window)
    ensures r.Ok? ==> |r.value| == |prices| - window
    ensures r.Ok? ==> forall j :: 0 <= j < |r.value| ==> 0.0 <= r.value[j] <= 100.0
  {
    if window >= |prices| || window <= 0 {
      return Err(InvalidInput);
    }
    var changes := ComputeChanges(prices);
    var gainSum, lossSum := SeedSums(changes, window);
    var avgGain := gainSum / window as real;
    var avgLoss := lossSum / window as real;
    var values := SmoothedRsi(changes, window, avgGain, avgLoss);
    RsiSpecAt(prices, window, values);
    return Ok(values);
  }

  /** The rest of the C routine, from the seed averages on: slot 0 from the seed
      averages, then slot i - window + 1 for every later change i, each after
      one Wilder step of both averages. */
  method SmoothedRsi(changes: seq<real>, window: int, seedGain: real, seedLoss: real) returns (rsi: seq<real>)
    requires 0 < window <= |changes|
    requires seedGain == Sum(Gains(changes)[..window]) / window as real
    requires seedLoss == Sum(Losses(changes)[..window]) / window as real
    ensures |rsi| == |changes| - window + 1
    ensures forall j :: 0 <= j < |rsi| ==> rsi[j] == RsiAt(changes, window, j)
  {
    ghost var gains, losses := Gains(changes), Losses(changes);
    var length := |changes| + 1;
    var values := seq(length - window, _ => 0.0);
    var avgGain, avgLoss := seedGain, seedLoss;
    assert avgGain == Smoothed(gains, window, 0);
    assert avgLoss == Smoothed(losses, window, 0);
    values := values[0 := RsiOf(avgGain, avgLoss)];
    assert values[0] == RsiAt(changes, window, 0);
    for i := window to length - 1
      invariant |values| == length - window
      invariant avgGain == Smoothed(gains, window, i - window)
      invariant avgLoss == Smoothed(losses, window, i - window)
      invariant forall j :: 0 <= j <= i - window ==> values[j] == RsiAt(changes, window, j)
    {
      var gain := if changes[i] > 0.0 then changes[i] else 0.0;
      var loss := if changes[i] < 0.0 then -1.0 * changes[i] else 0.0;
      assert gain == gains[i] && loss == losses[i];
      avgGain := WilderStep(avgGain, gain, window);
      avgLoss := WilderStep(avgLoss, loss, window);
      assert RsiOf(avgGain, avgLoss) == RsiAt(changes, window, i - window + 1);
      values := values[i - window + 1 := RsiOf(avgGain, avgLoss)];
    }
    rsi := values;
  }

  /** A sequence matching RsiSpec slot by slot is RsiSpec. */
  lemma RsiSpecAt(prices: seq<real>, window: int, values: seq<real>)
    requires 0 < window < |prices|
    requires |values| == |prices| - window
    requires forall j :: 0 <= j < |values| ==> values[j] == RsiAt(Changes(prices), window, j)
    ensures values == RsiSpec(prices, window)
  {
  }

  /** The first loop of the C routine: the one-step changes of the series. */
  method ComputeChanges(prices: seq<real>) returns (cs: seq<real>)
    requires 0 < |prices|
    ensures cs == Changes(prices)
  {
    var length := |prices|;
    var changes := new real[length - 1];
    for i := 1 to length
      invariant forall k :: 0 <= k < i - 1 ==> changes[k] == prices[k + 1] - prices[k]
    {
      changes[i - 1] := prices[i] - prices[i - 1];
    }
    cs := changes[..];
  }

  /** The seed loop of the C routine: the sums of the gains and of the losses
      among the first `window` changes. */
  method SeedSums(changes: seq<real>, window: int) returns (gainSum: real, lossSum: real)
    requires 0 < window <= |changes|
    ensures gainSum == Sum(Gains(changes)[..window])
    ensures lossSum == Sum(Losses(changes)[..window])
  {
    ghost var gains, losses := Gains(changes), Losses(changes);
    gainSum, lossSum := 0.0, 0.0;
    for i := 0 to window
      invariant gainSum == Sum(gains[..i]) && lossSum == Sum(losses[..i])
    {
      assert gains[..i + 1] == gains[..i] + [gains[i]];
      assert losses[..i + 1] == losses[..i] + [losses[i]];
      SumSnoc(gains[..i], gains[i]);
      SumSnoc(losses[..i], losses[i]);
      if changes[i] > 0.0 {
        gainSum := gainSum + changes[i];
      } else if changes[i] < 0.0 {
        lossSum := lossSum + -1.0 * changes[i];
      }
    }
  }

  /** A smoothed average that has absorbed only zeros is zero. */
  lemma {:induction false} SmoothedOfZeros(xs: seq<real>, window: int, j: nat)
    requires NonNegative(xs)
    requires 0 < window && window + j <= |xs|
    requires forall i :: 0 <= i < window + j ==> xs[i] == 0.0
    ensures Smoothed(xs, window, j) == 0.0
    decreases j
  {
    if j == 0 {
      SumZeroIffAllZero(xs[..window]);
    } else {
      SmoothedOfZeros(xs, window, j - 1);
    }
  }

  /** Conversely, if the smoothed average is zero at every step up to n, every
      observation absorbed by step n was zero. */
  lemma ZerosOfSmoothed(xs: seq<real>, window: int, n: nat)
    requires NonNegative(xs)
    requires 0 < window && window + n <= |xs|
    requires forall j :: 0 <= j <= n ==> Smoothed(xs, window, j) == 0.0
    ensures forall i :: 0 <= i < window + n ==> xs[i] == 0.0
  {
    var seed := xs[..window];
    assert Smoothed(xs, window, 0) == Mean(seed) == 0.0;
    assert Sum(seed) == Mean(seed) * window as real;
    SumZeroIffAllZero(seed);
    forall i | 0 <= i < window + n ensures xs[i] == 0.0 {
      if i < window {
        assert xs[i] == seed[i];
      } else {
        var j := i - window + 1;
        assert Smoothed(xs, window, j - 1) == 0.0;
        assert Smoothed(xs, window, j) == WilderStep(0.0, xs[i], window) == xs[i] / window as real;
      }
    }
  }

  /** Every RSI value is 100 exactly when the prices never fall. */
  lemma AllHundredIffNeverFalls(prices: seq<real>, window: int)
    requires 0 < window < |prices|
    ensures (forall j :: 0 <= j < |prices| - window ==> RsiSpec(prices, window)[j] == 100.0)
        <==> (forall i :: 0 <= i < |prices| - 1 ==> prices[i] <= prices[i + 1])
  {
    var cs := Changes(prices);
    var gains, losses := Gains(cs), Losses(cs);
    var n := |prices| - window - 1;
    var rsi := RsiSpec(prices, window);
    assert forall j :: 0 <= j <= n ==>
      (rsi[j] == 100.0 <==> Smoothed(losses, window, j) == 0.0);
    assert forall i :: 0 <= i < |cs| ==> (losses[i] == 0.0 <==> prices[i] <= prices[i + 1]);
    if forall i :: 0 <= i < |prices| - 1 ==> prices[i] <= prices[i + 1] {
      forall j | 0 <= j <= n ensures Smoothed(losses, window, j) == 0.0 {
        SmoothedOfZeros(losses, window, j);
      }
    }
    if forall j :: 0 <= j < |prices| - window ==> rsi[j] == 100.0 {
      ZerosOfSmoothed(losses, window, n);
    }
  }
}
