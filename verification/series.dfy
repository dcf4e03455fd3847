/** Arithmetic over price windows: the sum, mean and population variance that
    the indicator loops accumulate, with the facts the indicators rely on. */
module Series {

  predicate NonNegative(s: seq<real>)
  {
    forall i :: 0 <= i < |s| ==> 0.0 <= s[i]
  }

  /** Sum of a sequence, accumulated from the front as the C loops do. */
  function Sum(s: seq<real>): real
    decreases |s|
  {
    if |s| == 0 then 0.0 else Sum(s[..|s| - 1]) + s[|s| - 1]
  }

  function Mean(s: seq<real>): real
    requires |s| > 0
  {
    Sum(s) / |s| as real
  }

  /** Products and squares are kept behind functions so that sign facts about
      them are proved once, in the lemmas below, rather than re-derived by the
      solver's non-linear arithmetic at every use. */
  function Product(a: real, b: real): real
  {
    a * b
  }

  function Square(x: real): real
  {
    Product(x, x)
  }

  /** The squared distance of every element from `m`. */
  function SquaredDeviations(s: seq<real>, m: real): (d: seq<real>)
    ensures |d| == |s|
  {
    seq(|s|, i requires 0 <= i < |s| => Square(s[i] - m))
  }

  /** Population variance around `m`: divides by the window size, not by one less. */
  function Variance(s: seq<real>, m: real): real
    requires |s| > 0
  {
    Sum(SquaredDeviations(s, m)) / |s| as real
  }

  lemma SumSnoc(s: seq<real>, x: real)
    ensures Sum(s + [x]) == Sum(s) + x
  {
    assert (s + [x])[..|s|] == s;
  }

  lemma SquaredDeviationsSnoc(s: seq<real>, x: real, m: real)
    ensures SquaredDeviations(s + [x], m) == SquaredDeviations(s, m) + [Square(x - m)]
  {
    var l, r := SquaredDeviations(s + [x], m), SquaredDeviations(s, m) + [Square(x - m)];
    forall i | 0 <= i < |l| ensures l[i] == r[i] {
      if i < |s| {
        assert (s + [x])[i] == s[i];
      }
    }
  }

  lemma ProductPositive(a: real, b: real)
    requires (0.0 < a && 0.0 < b) || (a < 0.0 && b < 0.0)
    ensures 0.0 < Product(a, b)
  {
  }

  lemma ProductNonNegative(a: real, b: real)
    requires (0.0 <= a && 0.0 <= b) || (a <= 0.0 && b <= 0.0)
    ensures 0.0 <= Product(a, b)
  {
  }

  /** A square is non-negative, and positive away from zero. */
  lemma SquareSign(x: real)
    ensures 0.0 <= Square(x)
    ensures x != 0.0 ==> 0.0 < Square(x)
  {
    ProductNonNegative(x, x);
    if x != 0.0 {
      ProductPositive(x, x);
    }
  }

  lemma SquaredDeviationsNonNegative(s: seq<real>, m: real)
    ensures NonNegative(SquaredDeviations(s, m))
  {
    forall i | 0 <= i < |s| ensures 0.0 <= SquaredDeviations(s, m)[i] {
      SquareSign(s[i] - m);
    }
  }

  /** Each element in [lo, hi] bounds the sum by |s|*lo and |s|*hi. */
  lemma {:induction false} SumBounds(s: seq<real>, lo: real, hi: real)
    requires forall i :: 0 <= i < |s| ==> lo <= s[i] <= hi
    ensures |s| as real * lo <= Sum(s) <= |s| as real * hi
    decreases |s|
  {
    if |s| > 0 {
      var n := |s| - 1;
      SumBounds(s[..n], lo, hi);
      assert n as real * lo + lo == |s| as real * lo;
      assert n as real * hi + hi == |s| as real * hi;
    }
  }

  /** The mean of a window lies between the least and the greatest bound of its elements. */
  lemma MeanBounds(s: seq<real>, lo: real, hi: real)
    requires |s| > 0
    requires forall i :: 0 <= i < |s| ==> lo <= s[i] <= hi
    ensures lo <= Mean(s) <= hi
  {
    SumBounds(s, lo, hi);
    var n := |s| as real;
    assert Mean(s) * n == Sum(s);
  }

  /** A window whose elements all equal c has mean c. */
  lemma MeanOfConstant(s: seq<real>, c: real)
    requires |s| > 0
    requires forall i :: 0 <= i < |s| ==> s[i] == c
    ensures Mean(s) == c
  {
    MeanBounds(s, c, c);
  }

  lemma {:induction false} SumNonNegative(s: seq<real>)
    requires NonNegative(s)
    ensures 0.0 <= Sum(s)
    decreases |s|
  {
    if |s| > 0 {
      SumNonNegative(s[..|s| - 1]);
    }
  }

  /** A sum of non-negative terms is zero exactly when every term is zero. */
  lemma {:induction false} SumZeroIffAllZero(s: seq<real>)
    requires NonNegative(s)
    ensures Sum(s) == 0.0 <==> forall i :: 0 <= i < |s| ==> s[i] == 0.0
    decreases |s|
  {
    if |s| > 0 {
      var n := |s| - 1;
      SumNonNegative(s[..n]);
      SumZeroIffAllZero(s[..n]);
      if Sum(s) == 0.0 {
        assert s[n] == 0.0;
        assert forall i :: 0 <= i < n ==> s[..n][i] == 0.0;
      }
    }
  }

  lemma VarianceNonNegative(s: seq<real>, m: real)
    requires |s| > 0
    ensures 0.0 <= Variance(s, m)
  {
    SquaredDeviationsNonNegative(s, m);
    SumNonNegative(SquaredDeviations(s, m));
  }

  /** A sum of non-negative terms with one positive term is positive. */
  lemma {:induction false} SumPositive(s: seq<real>, k: int)
    requires NonNegative(s)
    requires 0 <= k < |s| && 0.0 < s[k]
    ensures 0.0 < Sum(s)
    decreases |s|
  {
    var n := |s| - 1;
    if k == n {
      SumNonNegative(s[..n]);
    } else {
      SumPositive(s[..n], k);
    }
  }

  /** The variance around m vanishes exactly when every element equals m. */
  lemma VarianceZeroIffAllAt(s: seq<real>, m: real)
    requires |s| > 0
    ensures Variance(s, m) == 0.0 <==> forall i :: 0 <= i < |s| ==> s[i] == m
  {
    var d := SquaredDeviations(s, m);
    SquaredDeviationsNonNegative(s, m);
    if forall i :: 0 <= i < |s| ==> s[i] == m {
      SumZeroIffAllZero(d);
    } else {
      var k :| 0 <= k < |s| && s[k] != m;
      SquareSign(s[k] - m);
      SumPositive(d, k);
    }
  }

  /** A window is flat (all elements equal) exactly when its population
      variance around its own mean is zero. */
  lemma FlatIffZeroVariance(s: seq<real>)
    requires |s| > 0
    ensures Variance(s, Mean(s)) == 0.0 <==> forall i :: 0 <= i < |s| ==> s[i] == s[0]
  {
    VarianceZeroIffAllAt(s, Mean(s));
    if forall i :: 0 <= i < |s| ==> s[i] == s[0] {
      MeanOfConstant(s, s[0]);
    }
  }

  /** The sum of a run b, b+1, ..., b+n-1 is n*b + n*(n-1)/2. */
  lemma {:induction false} SumOfRun(s: seq<real>, b: real)
    requires forall i :: 0 <= i < |s| ==> s[i] == b + i as real
    ensures Sum(s) == |s| as real * b + |s| as real * (|s| as real - 1.0) / 2.0
    decreases |s|
  {
    if |s| > 0 {
      var n := |s| - 1;
      SumOfRun(s[..n], b);
      var m := n as real;
      assert Sum(s) == m * b + m * (m - 1.0) / 2.0 + (b + m);
      assert m * b + b == (m + 1.0) * b;
      assert m * (m - 1.0) / 2.0 + m == (m + 1.0) * m / 2.0;
    }
  }
}
