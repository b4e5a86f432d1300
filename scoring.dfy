/**
 * Holdout accuracy of a forecaster: scikit-learn's `mean_squared_error`
 * and `mean_absolute_percentage_error` (reported as a percentage), over
 * real numbers. The metrics row keeps the mean squared error, whose square
 * root is the RMSE the pipeline writes.
 */
module Scoring {
  import opened Values

  /** One row of a metrics table. */
  datatype Metrics = Metrics(brand: string, mse: real, mapePercent: real)

  /** `np.finfo(np.float64).eps` = 2^-52, the floor scikit-learn puts under |actual|. */
  const Epsilon: real := 1.0 / 4503599627370496.0

  function Abs(x: real): real
  {
    if x < 0.0 then -x else x
  }

  /** Sum of a sequence none of whose terms is negative. */
  lemma {:induction false} SumOfNonNegative(xs: seq<real>)
    requires forall i :: 0 <= i < |xs| ==> xs[i] >= 0.0
    ensures Sum(xs) >= 0.0
    ensures Sum(xs) == 0.0 <==> forall i :: 0 <= i < |xs| ==> xs[i] == 0.0
  {
    if xs != [] {
      SumOfNonNegative(xs[1..]);
      assert forall i :: 1 <= i < |xs| ==> xs[i] == xs[1..][i - 1];
    }
  }

  function SquaredErrors(actual: seq<real>, predicted: seq<real>): seq<real>
    requires |actual| == |predicted|
  {
    seq(|actual|, i requires 0 <= i < |actual| => (actual[i] - predicted[i]) * (actual[i] - predicted[i]))
  }

  function RelativeErrors(actual: seq<real>, predicted: seq<real>): seq<real>
    requires |actual| == |predicted|
  {
    seq(|actual|, i requires 0 <= i < |actual| =>
      Abs(predicted[i] - actual[i]) / (if Abs(actual[i]) > Epsilon then Abs(actual[i]) else Epsilon))
  }

  /** Mean squared error: never negative, and zero when every prediction is exact. */
  function MeanSquaredError(actual: seq<real>, predicted: seq<real>): (r: real)
    requires |actual| == |predicted| > 0
    ensures r >= 0.0
    ensures actual == predicted ==> r == 0.0
  {
    var errs := SquaredErrors(actual, predicted);
    SumOfNonNegative(errs);
    Sum(errs) / |actual| as real
  }

  /** Mean absolute percentage error times 100: never negative, zero exactly when every prediction is exact. */
  function MeanAbsolutePercentageError(actual: seq<real>, predicted: seq<real>): (r: real)
    requires |actual| == |predicted| > 0
    ensures r >= 0.0
    ensures r == 0.0 <==> actual == predicted
  {
    var errs := RelativeErrors(actual, predicted);
    SumOfNonNegative(errs);
    assert Sum(errs) == 0.0 <==> actual == predicted by {
      if Sum(errs) == 0.0 {
        forall i | 0 <= i < |actual| ensures actual[i] == predicted[i] {
          assert errs[i] == 0.0;
        }
      }
    }
    Sum(errs) / |actual| as real * 100.0
  }

  /** The metrics row of one brand. */
  function Score(brand: string, actual: seq<real>, predicted: seq<real>): (m: Metrics)
    requires |actual| == |predicted| > 0
    ensures m.brand == brand && m.mse >= 0.0 && m.mapePercent >= 0.0
  {
    Metrics(brand, MeanSquaredError(actual, predicted), MeanAbsolutePercentageError(actual, predicted))
  }

  /** The metrics rows of brand `b`, in order. */
  function MetricsFor(ms: seq<Metrics>, b: string): (r: seq<Metrics>)
    ensures forall m :: m in r <==> m in ms && m.brand == b
  {
    if ms == [] then []
    else MetricsFor(ms[..|ms| - 1], b) + (if ms[|ms| - 1].brand == b then [ms[|ms| - 1]] else [])
  }
}
