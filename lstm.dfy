/**
 * The sequence forecaster (`run_lstm_forecast`): per brand, the rows are
 * re-aggregated to one per date, scaled column by column into [0, 1], cut
 * into sliding windows of seven days labelled with the next day's scaled
 * sales, split 80/20 in date order, scored on the holdout, and rolled out
 * thirty days ahead by feeding each prediction back as a new last row.
 *
 * The network and its training are abstract: `fit` maps the training
 * windows and labels to a predictor from a window to a number. A missing
 * cell (NaN) propagates as IEEE arithmetic propagates it: a window with a
 * missing cell predicts NaN, a training window with one makes the loss and
 * then every weight NaN, and a NaN prediction in the holdout makes
 * `mean_squared_error` raise.
 */
module LstmForecast {
  import opened Values
  import opened Ordering
  import opened Frames
  import opened Scoring
  import opened BrandLoop

  /** Days in one input window. */
  const SeqLength: nat := 7
  /** Days forecast past the last observed date. */
  const Horizon: nat := 30
  /** Fewest windows a brand needs to be trained and scored. */
  const MinSamples: nat := 20

  /** The optional regressors, in the order the feature list takes them. */
  const ExtraRegressors: seq<Column> := [
    CompetitorPrice, CategoryTrendIndex, CustomerGrowthRate,
    CustomerRetentionRate, StockLevel, SupplyDelayDays,
    InflationRate, WeatherScore, IsHoliday]

  /** One row of features, one cell per feature; a matrix is its rows in date order. */
  type Row = seq<Option<real>>
  type Matrix = seq<Row>

  /** A trained network with finite weights: its prediction for a window with no missing cell. */
  type Predictor = Matrix -> real

  /** The 80 epochs of Adam on the mean squared error, from the training windows and their labels. */
  type Trainer = (seq<Matrix>, seq<real>) -> Predictor

  /** A window with no missing cell. */
  predicate Complete(w: Matrix)
  {
    forall i {:trigger AllPresent(w[i])} :: 0 <= i < |w| ==> AllPresent(w[i])
  }

  /**
   * The network's output on a window: missing (NaN) when the weights are
   * NaN (`None`) or the window has a missing cell, the prediction otherwise.
   */
  function Apply(net: Option<Predictor>, w: Matrix): Option<real>
  {
    if net.Some? && Complete(w) then Some(net.value(w)) else None
  }

  /** Every row has `w` cells. */
  ghost predicate HasWidth(m: Matrix, w: nat)
  {
    forall i :: 0 <= i < |m| ==> |m[i]| == w
  }

  /** The regressors the re-aggregation keeps: those the table has. */
  function Regressors(cols: set<Column>): (regs: seq<Column>)
    ensures forall c :: c in regs <==> c in cols && c in ExtraRegressors
    ensures Subsequence(regs, ExtraRegressors)
  {
    Available(ExtraRegressors, cols)
  }

  /**
   * The feature list: `Total_Sales`, `Online_Popularity`, then the
   * regressors the aggregated frame has, in list order.
   */
  function Features(cols: set<Column>): (fs: seq<Column>)
    ensures |fs| >= 2 && fs[0] == TotalSales && fs[1] == OnlinePopularity
    ensures forall c :: c in fs[2..] <==> c in ExtraRegressors && c in cols
    ensures fs[2..] == Regressors(cols)
  {
    var regs := Regressors(cols);
    assert forall c :: c in ExtraRegressors ==> (c in DayColumns(regs) <==> c in regs);
    AvailableAgrees(ExtraRegressors, DayColumns(regs), cols);
    [TotalSales, OnlinePopularity] + Available(ExtraRegressors, DayColumns(regs))
  }

  /** `brand_df[features].values`: the aggregated days as a matrix, one column per feature. */
  function FeatureMatrix(days: seq<DayRow>, fs: seq<Column>): (m: Matrix)
    requires forall i :: 0 <= i < |days| ==> forall c :: c in fs ==> c in days[i].vals
    ensures |m| == |days| && HasWidth(m, |fs|)
    ensures forall i, j :: 0 <= i < |days| && 0 <= j < |fs| ==> m[i][j] == days[i].vals[fs[j]]
  {
    seq(|days|, i requires 0 <= i < |days| =>
      seq(|fs|, j requires 0 <= j < |fs| => days[i].vals[fs[j]]))
  }

  /** The cells of column `j`. */
  function ColumnAt(m: Matrix, j: nat): (col: seq<Option<real>>)
    requires forall i :: 0 <= i < |m| ==> j < |m[i]|
    ensures |col| == |m| && forall i :: 0 <= i < |m| ==> col[i] == m[i][j]
  {
    seq(|m|, i requires 0 <= i < |m| => m[i][j])
  }

  /** A fitted min-max scaling of one column: the smallest value and the width of the range. */
  datatype Scale = Scale(lo: real, span: real)

  /** The value a scaled value stands for: `inverse_transform` of one cell. */
  function Unscale(s: Scale, v: real): real
  {
    v * s.span + s.lo
  }

  /** `inverse_transform` of a cell that may be missing: NaN stays NaN. */
  function UnscaleCell(s: Scale, v: Option<real>): Option<real>
  {
    if v.Some? then Some(Unscale(s, v.value)) else None
  }

  /** `transform` of one value: its position in the fitted range. */
  function ScaleValue(s: Scale, x: real): (v: real)
    requires s.span > 0.0
    ensures Unscale(s, v) == x
  {
    (x - s.lo) / s.span
  }

  lemma DivisionInUnitInterval(a: real, b: real)
    requires 0.0 <= a <= b && b > 0.0
    ensures 0.0 <= a / b <= 1.0
  {
    assert a / b * b == a;
  }

  /**
   * MinMaxScaler's fit of one column: the range of its present values, a
   * zero-width range counting as width 1. Every present value then scales
   * into [0, 1]. (A column with no present value scales to missing cells
   * whatever its scale; it gets the unit scale here.)
   */
  function FitColumn(col: seq<Option<real>>): (s: Scale)
    ensures s.span > 0.0
    ensures forall x :: x in Present(col) ==> s.lo <= x && 0.0 <= ScaleValue(s, x) <= 1.0
  {
    var p := Present(col);
    if p == [] then Scale(0.0, 1.0)
    else
      var lo, hi := Min(p), Max(p);
      var s := Scale(lo, if hi - lo == 0.0 then 1.0 else hi - lo);
      assert forall x :: x in p ==> 0.0 <= ScaleValue(s, x) <= 1.0 by {
        forall x | x in p ensures 0.0 <= ScaleValue(s, x) <= 1.0 {
          DivisionInUnitInterval(x - lo, s.span);
        }
      }
      s
  }

  /** `fit`: one scale per column. */
  function Fit(m: Matrix, w: nat): (scales: seq<Scale>)
    requires HasWidth(m, w)
    ensures |scales| == w && forall j :: 0 <= j < w ==> scales[j].span > 0.0
  {
    seq(w, j requires 0 <= j < w => FitColumn(ColumnAt(m, j)))
  }

  ghost predicate Positive(scales: seq<Scale>)
  {
    forall j :: 0 <= j < |scales| ==> scales[j].span > 0.0
  }

  /** `transform`: every present cell scaled by its column's scale; missing cells stay missing. */
  function Transform(m: Matrix, scales: seq<Scale>): (t: Matrix)
    requires HasWidth(m, |scales|) && Positive(scales)
    ensures |t| == |m| && HasWidth(t, |scales|)
    ensures forall i, j :: 0 <= i < |m| && 0 <= j < |scales| ==>
      (t[i][j].Some? <==> m[i][j].Some?) &&
      (m[i][j].Some? ==> Unscale(scales[j], t[i][j].value) == m[i][j].value)
  {
    seq(|m|, i requires 0 <= i < |m| =>
      seq(|scales|, j requires 0 <= j < |scales| =>
        if m[i][j].Some? then Some(ScaleValue(scales[j], m[i][j].value)) else None))
  }

  /** `inverse_transform`: every present cell mapped back through its column's scale. */
  function Inverse(m: Matrix, scales: seq<Scale>): (t: Matrix)
    requires HasWidth(m, |scales|)
    ensures |t| == |m| && HasWidth(t, |scales|)
  {
    seq(|m|, i requires 0 <= i < |m| =>
      seq(|scales|, j requires 0 <= j < |scales| =>
        UnscaleCell(scales[j], m[i][j])))
  }

  /** Scaling and then scaling back gives the matrix that was scaled. */
  lemma InverseOfTransform(m: Matrix, scales: seq<Scale>)
    requires HasWidth(m, |scales|) && Positive(scales)
    ensures Inverse(Transform(m, scales), scales) == m
  {
    var t := Transform(m, scales);
    var b := Inverse(t, scales);
    forall i | 0 <= i < |m| ensures b[i] == m[i] {
      assert |b[i]| == |m[i]|;
      forall j | 0 <= j < |scales| ensures b[i][j] == m[i][j] {
      }
    }
  }

  /** After fitting on a matrix, every present scaled cell of it lies in [0, 1]. */
  lemma {:induction false} FittedCellsInUnitInterval(m: Matrix, w: nat, i: nat, j: nat)
    requires HasWidth(m, w) && i < |m| && j < w
    requires Transform(m, Fit(m, w))[i][j].Some?
    ensures 0.0 <= Transform(m, Fit(m, w))[i][j].value <= 1.0
  {
    var col := ColumnAt(m, j);
    assert col[i] == m[i][j];
    PresentMembers(col, i);
  }

  /** Number of windows: `len(scaled) - 7`, or none for a shorter matrix. */
  function WindowCount(n: nat): nat
  {
    if n > SeqLength then n - SeqLength else 0
  }

  /** The input windows: every run of seven consecutive rows that has a row after it. */
  function Windows(m: Matrix): seq<Matrix>
  {
    seq(WindowCount(|m|), i requires 0 <= i < WindowCount(|m|) => m[i..i + SeqLength])
  }

  /** The label of each window: the scaled sales (column 0) of the day after it. */
  function Labels(m: Matrix): seq<Option<real>>
    requires forall i :: 0 <= i < |m| ==> m[i] != []
  {
    seq(WindowCount(|m|), i requires 0 <= i < WindowCount(|m|) => m[i + SeqLength][0])
  }

  /**
   * The window loop: sample i is rows i .. i+6 of the scaled matrix and its
   * label is column 0 of row i+7; there are `len(scaled) - 7` samples.
   */
  method BuildWindows(scaled: Matrix) returns (xs: seq<Matrix>, ys: seq<Option<real>>)
    requires forall i :: 0 <= i < |scaled| ==> scaled[i] != []
    ensures |xs| == |ys| == WindowCount(|scaled|)
    ensures forall i :: 0 <= i < |xs| ==>
      |xs[i]| == SeqLength && xs[i] == scaled[i..i + SeqLength] && ys[i] == scaled[i + SeqLength][0]
    ensures xs == Windows(scaled) && ys == Labels(scaled)
  {
    xs, ys := [], [];
    var i := 0;
    while i < |scaled| - SeqLength
      invariant 0 <= i <= WindowCount(|scaled|)
      invariant |xs| == |ys| == i
      invariant forall k :: 0 <= k < i ==> xs[k] == scaled[k..k + SeqLength] && ys[k] == scaled[k + SeqLength][0]
    {
      xs := xs + [scaled[i..i + SeqLength]];
      ys := ys + [scaled[i + SeqLength][0]];
      i := i + 1;
    }
  }

  /**
   * The starting rows followed by one row per prediction: the features of
   * the last starting row with column 0 replaced by the prediction.
   */
  function Grown(m: Matrix, preds: seq<Option<real>>): (g: Matrix)
    requires m != [] && m[|m| - 1] != []
    ensures |g| == |m| + |preds|
  {
    m + seq(|preds|, j requires 0 <= j < |preds| => [preds[j]] + m[|m| - 1][1..])
  }

  /**
   * The first `k` rolled-out predictions: each is the network's output on
   * the last seven rows of the matrix grown by the predictions before it.
   */
  function RolledPredictions(m: Matrix, net: Option<Predictor>, k: nat): (p: seq<Option<real>>)
    requires |m| >= SeqLength && m[|m| - 1] != []
    ensures |p| == k
  {
    if k == 0 then []
    else
      var p := RolledPredictions(m, net, k - 1);
      var g := Grown(m, p);
      p + [Apply(net, g[|g| - SeqLength..])]
  }

  /**
   * The rollout of `k` steps: the grown matrix and the predictions. The loop
   * copies the features of the last row grown so far, which `RolloutStep`
   * shows are always those of the last starting row.
   */
  function Rollout(m: Matrix, net: Option<Predictor>, k: nat): (r: (Matrix, seq<Option<real>>))
    requires |m| >= SeqLength && m[|m| - 1] != []
  {
    var p := RolledPredictions(m, net, k);
    (Grown(m, p), p)
  }

  /** The predictions of a shorter rollout are a prefix of those of a longer one. */
  lemma {:induction false} RolledPrefix(m: Matrix, net: Option<Predictor>, k: nat, j: nat)
    requires |m| >= SeqLength && m[|m| - 1] != []
    requires j <= k
    ensures RolledPredictions(m, net, k)[..j] == RolledPredictions(m, net, j)
    decreases k
  {
    if j < k {
      var p := RolledPredictions(m, net, k - 1);
      RolledPrefix(m, net, k - 1, j);
      assert RolledPredictions(m, net, k)[..j] == p[..j];
    }
  }

  /** One more step of the rollout appends one row to the matrix `g` grown so far. */
  lemma RolloutStep(m: Matrix, net: Option<Predictor>, k: nat, g: Matrix)
    requires |m| >= SeqLength && m[|m| - 1] != []
    requires g == Rollout(m, net, k).0
    ensures |g| >= SeqLength && g[|g| - 1] != []
    ensures Rollout(m, net, k + 1).0 == g + [[Apply(net, g[|g| - SeqLength..])] + g[|g| - 1][1..]]
  {
    var p := RolledPredictions(m, net, k);
    var x := Apply(net, g[|g| - SeqLength..]);
    var tail := m[|m| - 1][1..];
    assert g[|g| - 1][1..] == tail by {
      if k > 0 {
        assert g[|g| - 1] == [p[k - 1]] + tail;
      }
    }
    assert RolledPredictions(m, net, k + 1) == p + [x];
    GrownAppend(m, p, x);
  }

  /** One more prediction grows the matrix by its row. */
  lemma GrownAppend(m: Matrix, p: seq<Option<real>>, x: Option<real>)
    requires m != [] && m[|m| - 1] != []
    ensures Grown(m, p + [x]) == Grown(m, p) + [[x] + m[|m| - 1][1..]]
  {
  }

  /** Appending to a sequence appends to each of its suffixes. */
  lemma DropAppend<T>(s: seq<T>, n: nat, x: T)
    requires n <= |s|
    ensures (s + [x])[n..] == s[n..] + [x]
  {
  }

  /** Each rolled-out prediction is the network's output on the seven rows before the row it fills. */
  lemma RolloutPredicts(m: Matrix, net: Option<Predictor>, k: nat, j: nat)
    requires |m| >= SeqLength && m[|m| - 1] != []
    requires j < k
    ensures Rollout(m, net, k).1[j] == Apply(net, Rollout(m, net, k).0[|m| + j - SeqLength..|m| + j])
  {
    var p := RolledPredictions(m, net, k);
    var q := RolledPredictions(m, net, j);
    RolledPrefix(m, net, k, j);
    RolledPrefix(m, net, k, j + 1);
    var g := Grown(m, q);
    assert p[j] == RolledPredictions(m, net, j + 1)[j] == Apply(net, g[|g| - SeqLength..]);
    GrownSlice(m, p, q, |m| + j - SeqLength, |m| + j);
    assert g[|g| - SeqLength..] == g[|m| + j - SeqLength..|m| + j];
  }

  /** The rows grown from a prefix of the predictions are the same rows. */
  lemma GrownSlice(m: Matrix, p: seq<Option<real>>, q: seq<Option<real>>, lo: nat, hi: nat)
    requires m != [] && m[|m| - 1] != []
    requires |q| <= |p| && p[..|q|] == q && lo <= hi <= |m| + |q|
    ensures Grown(m, p)[lo..hi] == Grown(m, q)[lo..hi]
  {
    var a, b := Grown(m, p), Grown(m, q);
    forall i | lo <= i < hi ensures a[i] == b[i] {
      if i >= |m| {
        assert p[i - |m|] == q[i - |m|];
      }
    }
  }

  /**
   * Every rolled-out prediction is present when the network's weights are
   * finite and the last seven rows have no missing cell, and missing
   * otherwise: a NaN in the first window comes back as the sales cell of
   * the next row, and from there reaches every later window.
   */
  lemma {:induction false} RolloutPresence(m: Matrix, net: Option<Predictor>, k: nat, j: nat)
    requires |m| >= SeqLength && m[|m| - 1] != []
    requires j < k
    ensures Rollout(m, net, k).1[j].Some? <==> net.Some? && Complete(m[|m| - SeqLength..])
    decreases j
  {
    var r := Rollout(m, net, k);
    RolloutPredicts(m, net, k, j);
    if j == 0 {
      assert r.0[|m| - SeqLength..|m|] == r.0[..|m|][|m| - SeqLength..];
    } else if net.Some? && Complete(m[|m| - SeqLength..]) {
      forall i | 0 <= i < j ensures r.1[i].Some? {
        RolloutPresence(m, net, k, i);
      }
      RolloutWindowComplete(m, net, k, j);
    } else {
      RolloutPresence(m, net, k, j - 1);
      RolloutWindowMissing(m, net, k, j);
    }
  }

  /** A window of the rollout whose earlier predictions are all present, over complete starting rows, has no missing cell. */
  lemma RolloutWindowComplete(m: Matrix, net: Option<Predictor>, k: nat, j: nat)
    requires |m| >= SeqLength && m[|m| - 1] != []
    requires 0 < j < k && Complete(m[|m| - SeqLength..])
    requires forall i :: 0 <= i < j ==> Rollout(m, net, k).1[i].Some?
    ensures Complete(Rollout(m, net, k).0[|m| + j - SeqLength..|m| + j])
  {
    var r := Rollout(m, net, k);
    var start := m[|m| - SeqLength..];
    var w := r.0[|m| + j - SeqLength..|m| + j];
    var last := m[|m| - 1];
    assert AllPresent(last) by {
      assert start[SeqLength - 1] == last;
    }
    forall t | 0 <= t < |w| ensures AllPresent(w[t]) {
      var g := |m| + j - SeqLength + t;
      if g < |m| {
        assert w[t] == r.0[..|m|][g] == start[g - (|m| - SeqLength)];
      } else {
        assert w[t] == [r.1[g - |m|]] + last[1..];
      }
    }
  }

  /** A window of the rollout after a missing prediction has a missing cell: the fed-back sales. */
  lemma RolloutWindowMissing(m: Matrix, net: Option<Predictor>, k: nat, j: nat)
    requires |m| >= SeqLength && m[|m| - 1] != []
    requires 0 < j < k && Rollout(m, net, k).1[j - 1].None?
    ensures !Complete(Rollout(m, net, k).0[|m| + j - SeqLength..|m| + j])
  {
    var r := Rollout(m, net, k);
    var w := r.0[|m| + j - SeqLength..|m| + j];
    assert w[SeqLength - 1] == [r.1[j - 1]] + m[|m| - 1][1..];
    assert !AllPresent(w[SeqLength - 1]) by {
      assert w[SeqLength - 1][0].None?;
    }
  }

  /**
   * The thirty-step forecast loop: `scaled` grows by one row per step and
   * `future` collects the appended rows.
   */
  method RollOut(scaled0: Matrix, net: Option<Predictor>) returns (scaled: Matrix, future: Matrix)
    requires |scaled0| >= SeqLength && scaled0[|scaled0| - 1] != []
    ensures scaled == Rollout(scaled0, net, Horizon).0
    ensures future == scaled[|scaled0|..]
  {
    scaled, future := scaled0, [];
    var lastSeq := scaled[|scaled| - SeqLength..];
    var step := 0;
    while step < Horizon
      invariant 0 <= step <= Horizon
      invariant scaled == Rollout(scaled0, net, step).0
      invariant future == scaled[|scaled0|..]
      invariant lastSeq == scaled[|scaled| - SeqLength..]
    {
      RolloutStep(scaled0, net, step, scaled);
      DropAppend(scaled, |scaled0|, [Apply(net, lastSeq)] + scaled[|scaled| - 1][1..]);
      var pred := Apply(net, lastSeq);
      var lastFeatures := scaled[|scaled| - 1];
      var nextStep := [pred] + lastFeatures[1..];
      future := future + [nextStep];
      scaled := scaled + [nextStep];
      lastSeq := scaled[|scaled| - SeqLength..];
      step := step + 1;
    }
  }

  /**
   * `np.hstack([future_scaled[:, [0]], repeated_features])`: column 0 of the
   * rolled-out rows beside the last aggregated day's unscaled features.
   */
  function InverseInput(future: Matrix, lastRaw: Row): (m: Matrix)
    requires forall k :: 0 <= k < |future| ==> future[k] != []
    requires lastRaw != []
    ensures |m| == |future| && HasWidth(m, |lastRaw|)
  {
    seq(|future|, k requires 0 <= k < |future| => [future[k][0]] + lastRaw[1..])
  }

  /**
   * The predicted sales: column 0 of the inverse-transformed matrix, which
   * depends on the rolled-out predictions alone and not on the other
   * columns, and is missing exactly where the prediction is.
   */
  function FutureSales(preds: seq<Option<real>>, future: Matrix, lastRaw: Row, scales: seq<Scale>): (sales: seq<Option<real>>)
    requires |future| == |preds| && lastRaw != [] && |lastRaw| == |scales|
    requires forall k :: 0 <= k < |future| ==> future[k] != [] && future[k][0] == preds[k]
    ensures |sales| == |preds|
    ensures forall k :: 0 <= k < |preds| ==> Inverse(InverseInput(future, lastRaw), scales)[k][0] == sales[k]
    ensures forall k :: 0 <= k < |preds| ==> (sales[k].Some? <==> preds[k].Some?)
  {
    seq(|preds|, k requires 0 <= k < |preds| => UnscaleCell(scales[0], preds[k]))
  }

  /** One row of the forecast output: `Predicted_Sales` is missing (NaN) when the rollout's prediction is. */
  type ForecastRow = Dated<Option<real>>

  /** The two guards that skip a brand. */
  datatype Guard = TooFewDays | TooFewSamples

  /** What the loop body does with one brand: skip it at a guard, raise, or forecast it. */
  type BrandResult = Outcome<Guard, Option<real>>

  lemma ReadableHasColumns(cols: set<Column>, rows: seq<Record>)
    requires Readable(cols, rows)
    ensures HasColumns(rows, Regressors(cols))
  {
  }

  /** The brand's days, the feature matrix and its scaled form. */
  function Days(cols: set<Column>, rows: seq<Record>): (days: seq<DayRow>)
    requires Readable(cols, rows)
    ensures forall i, j :: 0 <= i < j < |days| ==> days[i].date < days[j].date
  {
    ReadableHasColumns(cols, rows);
    AggregateByDate(rows, Regressors(cols))
  }

  /** The brand's last aggregated day is on the latest date among its rows. */
  lemma LatestDay(cols: set<Column>, rows: seq<Record>)
    requires Readable(cols, rows) && Days(cols, rows) != []
    ensures forall i :: 0 <= i < |rows| ==> rows[i].date <= LastDate(Days(cols, rows))
    ensures SoldOn(rows, LastDate(Days(cols, rows)))
  {
    var days := Days(cols, rows);
    ReadableHasColumns(cols, rows);
    assert HasDay(days, LastDate(days));
    forall i | 0 <= i < |rows| ensures rows[i].date <= LastDate(days) {
      assert SoldOn(rows, rows[i].date);
      assert HasDay(days, rows[i].date);
    }
  }

  /**
   * A brand's aggregated days and its feature list as the window pipeline
   * reads them: dates ascending, every feature present as a column, sales
   * first and never missing.
   */
  ghost predicate Prepared(days: seq<DayRow>, fs: seq<Column>)
  {
    && |fs| >= 1 && fs[0] == TotalSales
    && (forall i, j :: 0 <= i < j < |days| ==> days[i].date < days[j].date)
    && (forall i :: 0 <= i < |days| ==> forall c :: c in fs ==> c in days[i].vals)
    && (forall i :: 0 <= i < |days| ==> days[i].vals[TotalSales].Some?)
  }

  /** A day with a value for every feature. */
  ghost predicate FullDay(day: DayRow, fs: seq<Column>)
  {
    forall c :: c in fs ==> c in day.vals && day.vals[c].Some?
  }

  lemma DaysPrepared(cols: set<Column>, rows: seq<Record>)
    requires Readable(cols, rows)
    ensures Prepared(Days(cols, rows), Features(cols))
  {
    var regs := Regressors(cols);
    ReadableHasColumns(cols, rows);
    var days := AggregateByDate(rows, regs);
    var fs := Features(cols);
    assert forall c :: c in fs ==> c in DayColumns(regs);
  }

  /** The feature matrix of the aggregated days; its sales column is never missing. */
  function RawMatrix(days: seq<DayRow>, fs: seq<Column>): (m: Matrix)
    requires Prepared(days, fs)
    ensures |m| == |days| && HasWidth(m, |fs|)
    ensures forall i :: 0 <= i < |m| ==> m[i][0] == days[i].vals[TotalSales] && m[i][0].Some?
  {
    FeatureMatrix(days, fs)
  }

  /** The scaler fitted on the brand's whole feature matrix. */
  function Scales(days: seq<DayRow>, fs: seq<Column>): (scales: seq<Scale>)
    requires Prepared(days, fs)
    ensures |scales| == |fs| && Positive(scales)
  {
    Fit(RawMatrix(days, fs), |fs|)
  }

  /** The scaled feature matrix; its sales column is never missing. */
  function Scaled(days: seq<DayRow>, fs: seq<Column>): (m: Matrix)
    requires Prepared(days, fs)
    ensures |m| == |days| && HasWidth(m, |fs|)
    ensures forall i :: 0 <= i < |m| ==> m[i][0].Some?
  {
    Transform(RawMatrix(days, fs), Scales(days, fs))
  }

  /** A row of the scaled matrix has no missing cell exactly when its day has every feature. */
  lemma ScaledRowComplete(days: seq<DayRow>, fs: seq<Column>, i: nat)
    requires Prepared(days, fs) && i < |days|
    ensures AllPresent(Scaled(days, fs)[i]) <==> FullDay(days[i], fs)
  {
    var raw, t := RawMatrix(days, fs), Scaled(days, fs);
    if AllPresent(t[i]) {
      forall c | c in fs ensures days[i].vals[c].Some? {
        var j :| 0 <= j < |fs| && fs[j] == c;
        assert t[i][j].Some?;
      }
    }
    if FullDay(days[i], fs) {
      forall j | 0 <= j < |t[i]| ensures t[i][j].Some? {
        assert fs[j] in fs;
      }
    }
  }

  /** Every label is present: column 0 is the day's summed sales, which is never missing. */
  function Targets(m: Matrix): (ys: seq<real>)
    requires forall i :: 0 <= i < |m| ==> m[i] != [] && m[i][0].Some?
    ensures |ys| == WindowCount(|m|)
    ensures forall i :: 0 <= i < |ys| ==> Labels(m)[i] == Some(ys[i])
  {
    Unwrap(Labels(m))
  }

  /**
   * The windows cover every row but the last, which only labels the last
   * window: they have no missing cell exactly when no row before the last
   * has one.
   */
  lemma WindowsCompleteIff(m: Matrix)
    requires |m| > SeqLength
    ensures (forall i :: 0 <= i < |Windows(m)| ==> Complete(Windows(m)[i])) <==>
            (forall r :: 0 <= r < |m| - 1 ==> AllPresent(m[r]))
  {
    var ws := Windows(m);
    if forall i :: 0 <= i < |ws| ==> Complete(ws[i]) {
      forall r | 0 <= r < |m| - 1 ensures AllPresent(m[r]) {
        var i := if r <= |m| - SeqLength - 1 then r else |m| - SeqLength - 1;
        assert Complete(ws[i]);
        assert ws[i][r - i] == m[r];
      }
    }
    if forall r :: 0 <= r < |m| - 1 ==> AllPresent(m[r]) {
      forall i | 0 <= i < |ws| ensures Complete(ws[i]) {
        forall t | 0 <= t < |ws[i]| ensures AllPresent(ws[i][t]) {
          assert ws[i][t] == m[i + t];
        }
      }
    }
  }

  /** The holdout predictions: the network applied to each test window. */
  function Predictions(net: Option<Predictor>, tests: seq<Matrix>): (ps: seq<Option<real>>)
    ensures |ps| == |tests|
    ensures forall i :: 0 <= i < |tests| ==> (ps[i].Some? <==> net.Some? && Complete(tests[i]))
    ensures forall i :: 0 <= i < |tests| && ps[i].Some? ==> ps[i].value == net.value(tests[i])
  {
    seq(|tests|, i requires 0 <= i < |tests| => Apply(net, tests[i]))
  }

  /**
   * The dated forecast block: thirty consecutive days after the brand's last
   * date, each with the unscaled rolled-out sales.
   */
  function ForecastBlock(brand: string, days: seq<DayRow>, raw: Matrix, scales: seq<Scale>, scaled: Matrix, net: Option<Predictor>): (block: seq<ForecastRow>)
    requires |days| >= SeqLength && |scaled| >= SeqLength && |raw| >= 1
    requires forall i, j :: 0 <= i < j < |days| ==> days[i].date < days[j].date
    requires |scales| >= 1 && |raw[|raw| - 1]| == |scales| && HasWidth(scaled, |scales|)
    ensures |block| == Horizon
    ensures forall k :: 0 <= k < Horizon ==>
      block[k].brand == brand && block[k].date == LastDate(days) + 1 + k &&
      block[k].prediction == UnscaleCell(scales[0], Rollout(scaled, net, Horizon).1[k])
  {
    var rolled := Rollout(scaled, net, Horizon);
    var preds := rolled.1;
    var future := rolled.0[|scaled|..];
    assert forall k :: 0 <= k < Horizon ==>
      future[k] == [preds[k]] + scaled[|scaled| - 1][1..] && future[k][0] == preds[k];
    var sales := FutureSales(preds, future, raw[|raw| - 1], scales);
    var dates := ConsecutiveDays(LastDate(days) + 1, Horizon);
    seq(Horizon, k requires 0 <= k < Horizon => Dated(dates[k], brand, sales[k]))
  }

  /** Enough aggregated days for both guards to let the brand through. */
  ghost predicate Trainable(days: seq<DayRow>, fs: seq<Column>)
  {
    Prepared(days, fs) && |days| >= SeqLength + MinSamples
  }

  /**
   * The network after training on the first 80% of the windows: `fit`'s
   * predictor, or NaN weights (None) when a training window has a missing
   * cell, since the NaN loss reaches every weight through Adam's step.
   */
  function Net(days: seq<DayRow>, fs: seq<Column>, fit: Trainer): Option<Predictor>
    requires Trainable(days, fs)
  {
    var scaled := Scaled(days, fs);
    var xs := Windows(scaled);
    var n := TrainSize(|xs|);
    if forall i :: 0 <= i < n ==> Complete(xs[i]) then Some(fit(xs[..n], Targets(scaled)[..n])) else None
  }

  /**
   * The holdout score: the network on the last 20% of the windows against
   * their labels, or a raise (None) when a prediction is NaN.
   */
  function Holdout(brand: string, days: seq<DayRow>, fs: seq<Column>, fit: Trainer): (m: Option<Metrics>)
    requires Trainable(days, fs)
    ensures m.Some? ==> m.value.brand == brand && m.value.mse >= 0.0 && m.value.mapePercent >= 0.0
  {
    var scaled := Scaled(days, fs);
    var xs := Windows(scaled);
    var n := TrainSize(|xs|);
    var preds := Predictions(Net(days, fs, fit), xs[n..]);
    if AllPresent(preds) then Some(Score(brand, Targets(scaled)[n..], Unwrap(preds))) else None
  }

  /** Scoring raises exactly when some window, for training or for testing, has a missing cell. */
  lemma HoldoutWindows(brand: string, days: seq<DayRow>, fs: seq<Column>, fit: Trainer)
    requires Trainable(days, fs)
    ensures var xs := Windows(Scaled(days, fs));
      Holdout(brand, days, fs, fit).Some? <==> forall i :: 0 <= i < |xs| ==> Complete(xs[i])
    ensures Holdout(brand, days, fs, fit).Some? ==> Net(days, fs, fit).Some?
  {
    var xs := Windows(Scaled(days, fs));
    var n := TrainSize(|xs|);
    var net := Net(days, fs, fit);
    var preds := Predictions(net, xs[n..]);
    if i :| 0 <= i < |xs| && !Complete(xs[i]) {
      if i < n {
        assert preds[0].None?;
      } else {
        assert preds[i - n].None?;
      }
    }
    if forall i :: 0 <= i < |xs| ==> Complete(xs[i]) {
      assert AllPresent(preds);
    }
  }

  /**
   * Scoring raises exactly when some day before the last misses a feature:
   * the windows cover every row but the last, and scaling keeps a missing
   * cell missing.
   */
  lemma HoldoutRaisesIff(brand: string, days: seq<DayRow>, fs: seq<Column>, fit: Trainer)
    requires Trainable(days, fs)
    ensures Holdout(brand, days, fs, fit).None? <==> exists i :: 0 <= i < |days| - 1 && !FullDay(days[i], fs)
  {
    var scaled := Scaled(days, fs);
    HoldoutWindows(brand, days, fs, fit);
    WindowsCompleteIff(scaled);
    forall i | 0 <= i < |days| - 1 ensures AllPresent(scaled[i]) <==> FullDay(days[i], fs) {
      ScaledRowComplete(days, fs, i);
    }
  }

  /** Every forecast row's sales are present when `full` holds, and missing (NaN) when it does not. */
  ghost predicate SalesPresentIff(block: seq<ForecastRow>, full: bool)
  {
    forall k :: 0 <= k < |block| ==> (block[k].prediction.Some? <==> full)
  }

  /** The brand's forecast block, rolled out by the trained network. */
  function Block(brand: string, days: seq<DayRow>, fs: seq<Column>, fit: Trainer): (block: seq<ForecastRow>)
    requires Trainable(days, fs)
    ensures |block| == Horizon
    ensures forall k :: 0 <= k < Horizon ==> block[k].brand == brand && block[k].date == LastDate(days) + 1 + k
  {
    ForecastBlock(brand, days, RawMatrix(days, fs), Scales(days, fs), Scaled(days, fs), Net(days, fs, fit))
  }

  /**
   * The forecast sales are all present when the network's weights are
   * finite and the last seven scaled rows have no missing cell, and all
   * missing (NaN) otherwise.
   */
  lemma BlockPresence(brand: string, days: seq<DayRow>, fs: seq<Column>, fit: Trainer)
    requires Trainable(days, fs)
    ensures var scaled := Scaled(days, fs);
      SalesPresentIff(Block(brand, days, fs, fit), Net(days, fs, fit).Some? && Complete(scaled[|scaled| - SeqLength..]))
  {
    ForecastBlockPresence(brand, days, RawMatrix(days, fs), Scales(days, fs), Scaled(days, fs), Net(days, fs, fit));
  }

  /**
   * After a holdout that did not raise, the network is trained and the
   * rollout's starting window is complete exactly when the last day has
   * every feature.
   */
  lemma StartCompleteIffLastDay(brand: string, days: seq<DayRow>, fs: seq<Column>, fit: Trainer)
    requires Trainable(days, fs) && Holdout(brand, days, fs, fit).Some?
    ensures Net(days, fs, fit).Some?
    ensures var scaled := Scaled(days, fs);
      Complete(scaled[|scaled| - SeqLength..]) <==> FullDay(days[|days| - 1], fs)
  {
    HoldoutWindows(brand, days, fs, fit);
    LastWindowComplete(Scaled(days, fs));
    ScaledRowComplete(days, fs, |days| - 1);
  }

  /** The forecast block's sales are all present when the network is trained and the last seven rows are complete, and all missing otherwise. */
  lemma ForecastBlockPresence(brand: string, days: seq<DayRow>, raw: Matrix, scales: seq<Scale>, scaled: Matrix, net: Option<Predictor>)
    requires |days| >= SeqLength && |scaled| >= SeqLength && |raw| >= 1
    requires forall i, j :: 0 <= i < j < |days| ==> days[i].date < days[j].date
    requires |scales| >= 1 && |raw[|raw| - 1]| == |scales| && HasWidth(scaled, |scales|)
    ensures SalesPresentIff(ForecastBlock(brand, days, raw, scales, scaled, net),
      net.Some? && Complete(scaled[|scaled| - SeqLength..]))
  {
    forall k | 0 <= k < Horizon
      ensures Rollout(scaled, net, Horizon).1[k].Some? <==> net.Some? && Complete(scaled[|scaled| - SeqLength..])
    {
      RolloutPresence(scaled, net, Horizon, k);
    }
  }

  /** When every window is complete, the last seven rows are complete exactly when the last row is. */
  lemma LastWindowComplete(m: Matrix)
    requires |m| > SeqLength
    requires forall i :: 0 <= i < |Windows(m)| ==> Complete(Windows(m)[i])
    ensures Complete(m[|m| - SeqLength..]) <==> AllPresent(m[|m| - 1])
  {
    WindowsCompleteIff(m);
    var start := m[|m| - SeqLength..];
    assert start[SeqLength - 1] == m[|m| - 1];
    forall t | 0 <= t < SeqLength - 1 ensures AllPresent(start[t]) {
      assert start[t] == m[|m| - SeqLength + t];
    }
  }

  /** The loop body on a brand's aggregated days: the guard on days, the guard on windows, then the holdout score and the forecast block. */
  function Pipeline(brand: string, days: seq<DayRow>, fs: seq<Column>, fit: Trainer): BrandResult
    requires Prepared(days, fs)
  {
    if |days| < SeqLength + 1 then Skipped(TooFewDays)
    else if |Windows(Scaled(days, fs))| < MinSamples then Skipped(TooFewSamples)
    else
      match Holdout(brand, days, fs, fit)
      case None => Raised
      case Some(m) => Forecasted(m, Block(brand, days, fs, fit))
  }

  /**
   * A brand is turned away before any windows are built with fewer than
   * `SeqLength + 1` = 8 aggregated days and after building them with fewer
   * than `SeqLength + MinSamples` = 27; past both guards it raises exactly
   * when some day before its last misses a feature, and is forecast
   * otherwise.
   */
  lemma PipelineOutcome(brand: string, days: seq<DayRow>, fs: seq<Column>, fit: Trainer)
    requires Prepared(days, fs)
    ensures var r := Pipeline(brand, days, fs, fit);
      && (r == Skipped(TooFewDays) <==> |days| < SeqLength + 1)
      && (r == Skipped(TooFewSamples) <==> SeqLength + 1 <= |days| < SeqLength + MinSamples)
      && (r.Raised? <==>
            |days| >= SeqLength + MinSamples && exists i :: 0 <= i < |days| - 1 && !FullDay(days[i], fs))
      && (r.Forecasted? <==>
            |days| >= SeqLength + MinSamples && forall i :: 0 <= i < |days| - 1 ==> FullDay(days[i], fs))
  {
    if |days| >= SeqLength + MinSamples {
      HoldoutRaisesIff(brand, days, fs, fit);
    }
  }

  /**
   * A forecast carries the brand's metrics row and thirty rows of the brand
   * on the thirty days after its last day, whose sales are present exactly
   * when the last day has every feature.
   */
  lemma PipelineForecast(brand: string, days: seq<DayRow>, fs: seq<Column>, fit: Trainer)
    requires Prepared(days, fs) && Pipeline(brand, days, fs, fit).Forecasted?
    ensures var r := Pipeline(brand, days, fs, fit);
      && r.metrics.brand == brand && |r.rows| == Horizon
      && (forall k :: 0 <= k < Horizon ==> r.rows[k].brand == brand && r.rows[k].date == LastDate(days) + 1 + k)
      && SalesPresentIff(r.rows, FullDay(days[|days| - 1], fs))
  {
    StartCompleteIffLastDay(brand, days, fs, fit);
    BlockPresence(brand, days, fs, fit);
  }

  /** The loop body for one brand, given that brand's rows. */
  function BrandForecast(cols: set<Column>, brand: string, rows: seq<Record>, fit: Trainer): BrandResult
    requires Readable(cols, rows)
  {
    var days := Days(cols, rows);
    DaysPrepared(cols, rows);
    Pipeline(brand, days, Features(cols), fit)
  }

  /** The rollout loop followed by the unscaling and the dating of its thirty rows. */
  method DatedForecast(brand: string, days: seq<DayRow>, raw: Matrix, scales: seq<Scale>, scaled: Matrix, net: Option<Predictor>)
    returns (block: seq<ForecastRow>)
    requires |days| >= SeqLength && |scaled| >= SeqLength && |raw| >= 1
    requires forall i, j :: 0 <= i < j < |days| ==> days[i].date < days[j].date
    requires |scales| >= 1 && |raw[|raw| - 1]| == |scales| && HasWidth(scaled, |scales|)
    ensures block == ForecastBlock(brand, days, raw, scales, scaled, net)
  {
    var grown: Matrix, future: Matrix := RollOut(scaled, net);
    ghost var rolled := Rollout(scaled, net, Horizon);
    assert forall k :: 0 <= k < Horizon ==> future[k] == rolled.0[|scaled| + k] == [rolled.1[k]] + scaled[|scaled| - 1][1..];
    var preds: seq<Option<real>> := seq(Horizon, k requires 0 <= k < Horizon => future[k][0]);
    assert preds == Rollout(scaled, net, Horizon).1;
    var sales := FutureSales(preds, future, raw[|raw| - 1], scales);
    var dates := ConsecutiveDays(LastDate(days) + 1, Horizon);
    block := seq(Horizon, k requires 0 <= k < Horizon => Dated(dates[k], brand, sales[k]));
  }

  /**
   * The training, scoring and rollout half of the loop body, for a brand
   * that passed both guards: the scoring raises on a NaN prediction before
   * anything is appended.
   */
  method TrainAndForecast(brand: string, days: seq<DayRow>, fs: seq<Column>, fit: Trainer)
    returns (r: BrandResult)
    requires Trainable(days, fs)
    ensures r == Pipeline(brand, days, fs, fit)
  {
    var raw := RawMatrix(days, fs);
    var scales := Scales(days, fs);
    var scaled := Transform(raw, scales);
    var xs := Windows(scaled);
    var targets := Targets(scaled);
    var n := TrainSize(|xs|);
    var net := Net(days, fs, fit);
    var preds := Predictions(net, xs[n..]);
    if !AllPresent(preds) {
      return Raised;
    }
    var metrics := Score(brand, targets[n..], Unwrap(preds));
    var block := DatedForecast(brand, days, raw, scales, scaled, net);
    r := Forecasted(metrics, block);
  }

  /**
   * The loop body as the source runs it: the guard on aggregated days, the
   * window loop, the guard on windows, then training, scoring and rollout.
   */
  method ForecastBrand(cols: set<Column>, brand: string, rows: seq<Record>, fit: Trainer)
    returns (r: BrandResult)
    requires Readable(cols, rows)
    ensures r == BrandForecast(cols, brand, rows, fit)
  {
    var days, fs := Days(cols, rows), Features(cols);
    DaysPrepared(cols, rows);
    if |days| < SeqLength + 1 {
      return Skipped(TooFewDays);
    }
    var scaled := Scaled(days, fs);
    var xs, ys := BuildWindows(scaled);
    if |xs| < MinSamples {
      return Skipped(TooFewSamples);
    }
    r := TrainAndForecast(brand, days, fs, fit);
  }

  /** The loop body of the table's run: each brand's result computed from that brand's rows alone. */
  function OfBrand(t: Table, fit: Trainer): string --> BrandResult
  {
    b requires ReadableTable(t) => BrandRowsReadable(t, b); BrandForecast(t.cols, b, BrandRecords(t.rows, b), fit)
  }

  /**
   * What the run leaves behind: it ends in a raise, or it finishes, having
   * written its two files or not, and returns the metrics list.
   */
  datatype LstmOutput =
    | Aborted
    | Finished(written: Option<Accumulated<Option<real>>>, returned: seq<Metrics>)

  /** `run_lstm_forecast`: the brand loop in `groupby` order, then the write when some brand was forecast. */
  function LstmRun(t: Table, fit: Trainer): LstmOutput
    requires ReadableTable(t)
  {
    match RunBrands(Brands(t.rows), OfBrand(t, fit))
    case None => Aborted
    case Some(acc) => Finished(if acc.forecasts != [] then Some(acc) else None, acc.metrics)
  }

  /** The loop body on the group of brand `b`. */
  method ForecastGroup(t: Table, b: string, fit: Trainer) returns (r: BrandResult)
    requires ReadableTable(t)
    ensures r == OfBrand(t, fit)(b)
  {
    BrandRowsReadable(t, b);
    r := ForecastBrand(t.cols, b, BrandRecords(t.rows, b), fit);
  }

  /**
   * `run_lstm_forecast` as the source runs it: the brand loop appending to
   * the two lists until a brand raises, then the write.
   */
  method RunLstmForecast(t: Table, fit: Trainer) returns (out: LstmOutput)
    requires ReadableTable(t)
    ensures out == LstmRun(t, fit)
  {
    var forecasts: seq<ForecastRow>, metrics: seq<Metrics> := [], [];
    var bs := Brands(t.rows);
    ghost var body := OfBrand(t, fit);
    var i := 0;
    while i < |bs|
      invariant 0 <= i <= |bs|
      invariant RunBrands(bs[..i], body) == Some(Accumulated(forecasts, metrics))
    {
      var r := ForecastGroup(t, bs[i], fit);
      LoopStep(bs, i, body, Accumulated(forecasts, metrics));
      if r.Raised? {
        RunAbortsAfterRaise(bs, i + 1, body);
        return Aborted;
      }
      if r.Forecasted? {
        forecasts := forecasts + r.rows;
        metrics := metrics + [r.metrics];
      }
      i := i + 1;
    }
    assert bs[..i] == bs;
    if forecasts != [] {
      out := Finished(Some(Accumulated(forecasts, metrics)), metrics);
    } else {
      out := Finished(None, metrics);
    }
  }

  /**
   * The guards and the raise on a brand's rows: it is skipped when they
   * fall on fewer than 8 distinct dates, or on 8 to 26; with 27 or more it
   * raises exactly when some aggregated day before the last misses a
   * feature, and is forecast otherwise.
   */
  lemma ForecastedIffEnoughDays(cols: set<Column>, brand: string, rows: seq<Record>, fit: Trainer)
    requires Readable(cols, rows)
    ensures var r := BrandForecast(cols, brand, rows, fit);
      var days, fs := Days(cols, rows), Features(cols);
      && (r == Skipped(TooFewDays) <==> |days| < SeqLength + 1)
      && (r == Skipped(TooFewSamples) <==> SeqLength + 1 <= |days| < SeqLength + MinSamples)
      && (r.Raised? <==>
            |days| >= SeqLength + MinSamples && exists i :: 0 <= i < |days| - 1 && !FullDay(days[i], fs))
      && (r.Forecasted? <==>
            |days| >= SeqLength + MinSamples && forall i :: 0 <= i < |days| - 1 ==> FullDay(days[i], fs))
  {
    DaysPrepared(cols, rows);
    PipelineOutcome(brand, Days(cols, rows), Features(cols), fit);
  }

  /** A forecast brand's metrics row is that brand's, and so are the thirty rows of its block. */
  lemma ForecastTagged(cols: set<Column>, brand: string, rows: seq<Record>, fit: Trainer)
    requires Readable(cols, rows)
    requires BrandForecast(cols, brand, rows, fit).Forecasted?
    ensures var r := BrandForecast(cols, brand, rows, fit);
      && r.metrics.brand == brand
      && |r.rows| == Horizon
      && forall k :: 0 <= k < Horizon ==> r.rows[k].brand == brand
  {
    DaysPrepared(cols, rows);
    PipelineForecast(brand, Days(cols, rows), Features(cols), fit);
  }

  /**
   * A forecast block is dated on the thirty consecutive days that follow
   * the brand's last aggregated day (by `LatestDay`, the latest date among
   * its rows).
   */
  lemma ForecastBlockDates(cols: set<Column>, brand: string, rows: seq<Record>, fit: Trainer)
    requires Readable(cols, rows)
    requires BrandForecast(cols, brand, rows, fit).Forecasted?
    ensures Days(cols, rows) != []
    ensures var block := BrandForecast(cols, brand, rows, fit).rows;
      && |block| == Horizon
      && forall k :: 0 <= k < Horizon ==> block[k].date == LastDate(Days(cols, rows)) + 1 + k
  {
    DaysPrepared(cols, rows);
    PipelineForecast(brand, Days(cols, rows), Features(cols), fit);
  }

  /** The loop body of a run tags every forecast with its brand and gives it thirty rows. */
  lemma OfBrandTagged(t: Table, fit: Trainer)
    requires ReadableTable(t)
    ensures forall c :: OfBrand(t, fit).requires(c) && Tagged(c, OfBrand(t, fit)(c))
    ensures forall c :: OfBrand(t, fit)(c).Forecasted? ==> |OfBrand(t, fit)(c).rows| == Horizon
  {
    forall c ensures Tagged(c, OfBrand(t, fit)(c)) && (OfBrand(t, fit)(c).Forecasted? ==> |OfBrand(t, fit)(c).rows| == Horizon) {
      BrandRowsReadable(t, c);
      var rows := BrandRecords(t.rows, c);
      if BrandForecast(t.cols, c, rows, fit).Forecasted? {
        ForecastTagged(t.cols, c, rows, fit);
      }
    }
  }

  /** The run ends in a raise exactly when the loop body raises for the brand of some row. */
  lemma LstmRunAborts(t: Table, fit: Trainer)
    requires ReadableTable(t)
    ensures LstmRun(t, fit).Aborted? <==> exists i :: 0 <= i < |t.rows| && OfBrand(t, fit)(t.rows[i].brand).Raised?
  {
    BrandsOfRows(t.rows);
    RunRaisesOverRows(t.rows, Brands(t.rows), OfBrand(t, fit));
  }

  /**
   * A run that finishes writes its files exactly when it returns a
   * non-empty metrics list (each forecast brand adds thirty rows with its
   * metrics row), and they then hold what it returns.
   */
  lemma LstmRunWrites(t: Table, fit: Trainer)
    requires ReadableTable(t) && LstmRun(t, fit).Finished?
    ensures var out := LstmRun(t, fit);
      && (out.written.Some? <==> out.returned != [])
      && (out.written.Some? ==> out.written.value.metrics == out.returned)
  {
    OfBrandTagged(t, fit);
    RunCounts(Brands(t.rows), OfBrand(t, fit), Horizon);
  }

  /**
   * In a run that finishes, for every brand of the table the returned
   * metrics and the written forecast rows are what the loop body makes of
   * that brand's rows, and nothing when it skips the brand.
   */
  lemma LstmRunOutput(t: Table, fit: Trainer)
    requires ReadableTable(t) && LstmRun(t, fit).Finished?
    ensures var out := LstmRun(t, fit);
      var body := OfBrand(t, fit);
      && (forall b :: MetricsFor(out.returned, b) ==
           (if (exists i :: 0 <= i < |t.rows| && t.rows[i].brand == b) && body(b).Forecasted?
            then [body(b).metrics] else []))
      && (forall b :: out.written.Some? ==>
            RowsFor(out.written.value.forecasts, b) ==
              (if (exists i :: 0 <= i < |t.rows| && t.rows[i].brand == b) && body(b).Forecasted?
               then body(b).rows else []))
  {
    OfBrandTagged(t, fit);
    FinishedRunIsolates(t.rows, OfBrand(t, fit));
  }
}
