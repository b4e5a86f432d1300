/**
 * The seasonal forecaster (`forecast_with_prophet`): per brand, the rows are
 * re-aggregated to one per date, rows without a target are dropped, guards
 * turn away brands with too few or incomplete rows, the rows are split 80/20
 * in date order, regressors that are constant on the training rows are
 * excluded, and the fitted model predicts the test rows and a future frame
 * whose regressors are merged in from the brand's rows and forward-filled.
 *
 * Prophet is abstract: `fit` maps the training rows and the admitted
 * regressors to a model from one query row to its prediction, and
 * `makeFuture` maps the training dates to the dates of the future frame.
 */
module SeasonalForecast {
  import opened Values
  import opened Ordering
  import opened Frames
  import opened Scoring
  import opened BrandLoop

  /** The optional regressors, in the order the regressor list takes them. */
  const ExtraRegressors: seq<Column> := [
    CompetitorPrice, CategoryTrendIndex, CustomerGrowthRate,
    CustomerRetentionRate, StockLevel, SupplyDelayDays,
    InflationRate, WeatherScore, Promotion,
    DiscountPercentage, IsHoliday]

  /** Fewest cleaned rows a brand needs. */
  const MinRows: nat := 3
  /** Fewest training rows a brand needs. */
  const MinTrain: nat := 2

  /** The regressors the re-aggregation keeps: those the table has. */
  function Regressors(cols: set<Column>): (regs: seq<Column>)
    ensures forall c :: c in regs <==> c in cols && c in ExtraRegressors
    ensures Subsequence(regs, ExtraRegressors)
  {
    Available(ExtraRegressors, cols)
  }

  /** Neither the target nor the popularity column is an optional regressor. */
  lemma NotExtra()
    ensures TotalSales !in ExtraRegressors && OnlinePopularity !in ExtraRegressors
  {
  }

  /**
   * `used_regressors`: the regressors of the aggregated frame, in list
   * order: the same as those the re-aggregation keeps.
   */
  function Used(cols: set<Column>): (used: seq<Column>)
    ensures used == Regressors(cols)
  {
    var regs := Regressors(cols);
    NotExtra();
    assert forall c :: c in ExtraRegressors ==> (c in DayColumns(regs) <==> c in regs);
    AvailableAgrees(ExtraRegressors, DayColumns(regs), cols);
    Available(ExtraRegressors, DayColumns(regs))
  }

  /** The regressor candidates: `Trend_Score` (the mean popularity), then the used regressors. */
  function Candidates(used: seq<Column>): seq<Column>
  {
    [OnlinePopularity] + used
  }

  /** Every aggregated day has the columns of the brand's frame besides `ds`: `y` (the summed sales) and the candidates. */
  ghost predicate Framed(days: seq<DayRow>, used: seq<Column>)
  {
    forall d :: d in days ==> TotalSales in d.vals && forall c :: c in Candidates(used) ==> c in d.vals
  }

  /** The cells of one column of some days. */
  function DayColumn(days: seq<DayRow>, c: Column): (col: seq<Option<real>>)
    requires forall d :: d in days ==> c in d.vals
    ensures |col| == |days| && forall i :: 0 <= i < |days| ==> col[i] == days[i].vals[c]
  {
    seq(|days|, i requires 0 <= i < |days| => days[i].vals[c])
  }

  /** The `ds` column of some days. */
  function DatesOf(days: seq<DayRow>): (ds: seq<int>)
    ensures |ds| == |days| && forall i :: 0 <= i < |days| ==> ds[i] == days[i].date
  {
    seq(|days|, i requires 0 <= i < |days| => days[i].date)
  }

  /**
   * `dropna(subset=["y"])`: the days whose target is present, in their
   * order; a day is kept exactly when its target is present.
   */
  function Clean(days: seq<DayRow>): (kept: seq<DayRow>)
    requires forall d :: d in days ==> TotalSales in d.vals
    ensures forall d :: d in kept <==> d in days && d.vals[TotalSales].Some?
    ensures Subsequence(kept, days)
    ensures |kept| <= |days|
  {
    if days == [] then []
    else
      var rest := Clean(days[1..]);
      if days[0].vals[TotalSales].Some? then [days[0]] + rest else rest
  }

  /** Days whose target is present lose nothing to the cleaning: the drop count is zero. */
  lemma {:induction false} CleanDropsNothing(days: seq<DayRow>)
    requires forall d :: d in days ==> TotalSales in d.vals && d.vals[TotalSales].Some?
    ensures Clean(days) == days
  {
    if days != [] {
      CleanDropsNothing(days[1..]);
    }
  }

  /** The target values of rows whose target is present. */
  function Targets(rows: seq<DayRow>): (ys: seq<real>)
    requires forall d :: d in rows ==> TotalSales in d.vals && d.vals[TotalSales].Some?
    ensures |ys| == |rows| && forall i :: 0 <= i < |rows| ==> rows[i].vals[TotalSales] == Some(ys[i])
  {
    seq(|rows|, i requires 0 <= i < |rows| => rows[i].vals[TotalSales].value)
  }

  /** `not train.isnull().any().any()`: no cell of the frame's columns is missing. */
  predicate Complete(rows: seq<DayRow>, used: seq<Column>)
    requires Framed(rows, used)
  {
    forall i :: 0 <= i < |rows| ==>
      rows[i].vals[TotalSales].Some? && forall c :: c in Candidates(used) ==> rows[i].vals[c].Some?
  }

  /** `nunique()`: the number of distinct present values. */
  function NUnique(xs: seq<Option<real>>): nat
  {
    |set x | x in Present(xs)|
  }

  /** More than one distinct value exactly when two present cells differ. */
  lemma NUniqueAboveOne(xs: seq<Option<real>>)
    ensures NUnique(xs) > 1 <==>
      exists i, j :: 0 <= i < |xs| && 0 <= j < |xs| && xs[i].Some? && xs[j].Some? && xs[i].value != xs[j].value
  {
    var s := set x | x in Present(xs);
    if i, j :| 0 <= i < |xs| && 0 <= j < |xs| && xs[i].Some? && xs[j].Some? && xs[i].value != xs[j].value {
      PresentMembers(xs, i);
      PresentMembers(xs, j);
      assert {xs[i].value, xs[j].value} <= s;
      assert |{xs[i].value, xs[j].value}| == 2;
      SubsetCardinality({xs[i].value, xs[j].value}, s);
    } else if Present(xs) == [] {
      assert s == {};
    } else {
      var v := Present(xs)[0];
      PresentIndex(xs, v);
      var i0 :| 0 <= i0 < |xs| && xs[i0] == Some(v);
      forall x | x in s ensures x == v {
        PresentIndex(xs, x);
        var i :| 0 <= i < |xs| && xs[i] == Some(x);
        assert !(xs[i].value != xs[i0].value);
      }
      SubsetCardinality(s, {v});
    }
  }

  lemma SubsetCardinality(a: set<real>, b: set<real>)
    requires a <= b
    ensures |a| <= |b|
  {
    assert b == a + (b - a);
  }

  /** `train[c].nunique() > 1`: the column is not constant on the training rows. */
  function Varies(train: seq<DayRow>, c: Column): bool
    requires forall d :: d in train ==> c in d.vals
  {
    NUnique(DayColumn(train, c)) > 1
  }

  /**
   * The constant-regressor exclusion: the candidates that vary on the
   * training rows, in candidate order.
   */
  function Admitted(train: seq<DayRow>, candidates: seq<Column>): (adm: seq<Column>)
    requires forall d :: d in train ==> forall c :: c in candidates ==> c in d.vals
    ensures forall c :: c in adm <==> c in candidates && Varies(train, c)
    ensures Subsequence(adm, candidates)
  {
    if candidates == [] then []
    else
      var rest := Admitted(train, candidates[1..]);
      assert candidates[0] in candidates;
      if Varies(train, candidates[0]) then [candidates[0]] + rest else rest
  }

  /** Considering one more candidate appends it exactly when it varies. */
  lemma {:induction false} AdmittedAppend(train: seq<DayRow>, candidates: seq<Column>, c: Column)
    requires forall d :: d in train ==> forall e :: e in candidates + [c] ==> e in d.vals
    ensures Admitted(train, candidates + [c]) == Admitted(train, candidates) + (if Varies(train, c) then [c] else [])
  {
    assert c in candidates + [c];
    if candidates == [] {
      assert [c][1..] == [];
    } else {
      assert (candidates + [c])[1..] == candidates[1..] + [c];
      AdmittedAppend(train, candidates[1..], c);
    }
  }

  /** `Trend_Score` leads the admitted list exactly when it varies on the training rows. */
  lemma TrendFirst(train: seq<DayRow>, used: seq<Column>)
    requires forall d :: d in train ==> forall c :: c in Candidates(used) ==> c in d.vals
    requires OnlinePopularity !in used
    ensures var adm := Admitted(train, Candidates(used));
      Varies(train, OnlinePopularity) <==> adm != [] && adm[0] == OnlinePopularity
  {
    var adm := Admitted(train, Candidates(used));
    assert Candidates(used)[1..] == used;
    if !Varies(train, OnlinePopularity) && adm != [] {
      assert adm[0] in adm;
    }
  }

  /**
   * The admission loop as the source runs it: `Trend_Score` first if it
   * varies, then each used regressor that varies, appended in turn.
   */
  method AdmitRegressors(train: seq<DayRow>, used: seq<Column>) returns (admitted: seq<Column>)
    requires forall d :: d in train ==> forall c :: c in Candidates(used) ==> c in d.vals
    ensures admitted == Admitted(train, Candidates(used))
  {
    admitted := [];
    if Varies(train, OnlinePopularity) {
      admitted := admitted + [OnlinePopularity];
    }
    assert admitted == Admitted(train, Candidates(used)[..1]);
    var i := 0;
    while i < |used|
      invariant 0 <= i <= |used|
      invariant admitted == Admitted(train, Candidates(used)[..i + 1])
    {
      var reg := used[i];
      assert Candidates(used)[..i + 2] == Candidates(used)[..i + 1] + [reg];
      AdmittedAppend(train, Candidates(used)[..i + 1], reg);
      if Varies(train, reg) {
        admitted := admitted + [reg];
      }
      i := i + 1;
    }
    assert Candidates(used)[..i + 1] == Candidates(used);
  }

  /** One row handed to `predict`: the date and the admitted regressors' values, in admitted order. */
  datatype QueryRow = QueryRow(ds: int, regs: seq<real>)

  /** One row of `predict`'s output: the prediction and its interval. */
  datatype Yhat = Yhat(yhat: real, lower: real, upper: real)

  /** A fitted model: the prediction for one query row. */
  type Model = QueryRow -> Yhat

  /**
   * The rows handed to `predict`, from the dates and the admitted columns;
   * None, where Prophet raises, when a regressor value is missing.
   */
  function Query(ds: seq<int>, cols: map<Column, seq<Option<real>>>, admitted: seq<Column>): (q: Option<seq<QueryRow>>)
    requires forall c :: c in admitted ==> c in cols && |cols[c]| == |ds|
    ensures q.Some? <==> forall j, k :: 0 <= j < |admitted| && 0 <= k < |ds| ==> cols[admitted[j]][k].Some?
    ensures q.Some? ==> |q.value| == |ds| && forall k :: 0 <= k < |ds| ==>
      q.value[k].ds == ds[k] && |q.value[k].regs| == |admitted| &&
      forall j :: 0 <= j < |admitted| ==> cols[admitted[j]][k] == Some(q.value[k].regs[j])
  {
    if forall j, k :: 0 <= j < |admitted| && 0 <= k < |ds| ==> cols[admitted[j]][k].Some? then
      Some(seq(|ds|, k requires 0 <= k < |ds| =>
        QueryRow(ds[k], seq(|admitted|, j requires 0 <= j < |admitted| => cols[admitted[j]][k].value))))
    else None
  }

  /** The admitted columns of some rows. */
  function Columns(rows: seq<DayRow>, admitted: seq<Column>): (cols: map<Column, seq<Option<real>>>)
    requires forall d :: d in rows ==> forall c :: c in admitted ==> c in d.vals
    ensures forall c :: c in cols <==> c in admitted
    ensures forall c :: c in admitted ==> cols[c] == DayColumn(rows, c)
  {
    map c | c in admitted :: DayColumn(rows, c)
  }

  /** The holdout score; None, where Prophet raises, when a test row misses an admitted regressor. */
  function Holdout(brand: string, test: seq<DayRow>, admitted: seq<Column>, model: Model): (m: Option<Metrics>)
    requires test != []
    requires forall d :: d in test ==> TotalSales in d.vals && d.vals[TotalSales].Some?
    requires forall d :: d in test ==> forall c :: c in admitted ==> c in d.vals
    ensures m.Some? <==> forall k, j :: 0 <= k < |test| && 0 <= j < |admitted| ==> test[k].vals[admitted[j]].Some?
    ensures m.Some? ==> m.value.brand == brand && m.value.mse >= 0.0 && m.value.mapePercent >= 0.0
  {
    var cols := Columns(test, admitted);
    assert forall j, k :: 0 <= j < |admitted| && 0 <= k < |test| ==> cols[admitted[j]][k] == test[k].vals[admitted[j]] by {
      forall j, k | 0 <= j < |admitted| && 0 <= k < |test| ensures cols[admitted[j]][k] == test[k].vals[admitted[j]] {
        assert admitted[j] in admitted;
      }
    }
    match Query(DatesOf(test), cols, admitted)
    case None => None
    case Some(q) =>
      Some(Score(brand, Targets(test), seq(|q|, k requires 0 <= k < |q| => model(q[k]).yhat)))
  }

  /**
   * The value of column `c` on date `d` after the left merge: the cell of
   * the first day on that date, missing when no day is on it.
   */
  function Lookup(days: seq<DayRow>, d: int, c: Column): (v: Option<real>)
    requires forall r :: r in days ==> c in r.vals
    ensures (forall i :: 0 <= i < |days| ==> days[i].date != d) ==> v.None?
    ensures forall i :: 0 <= i < |days| && days[i].date == d && (forall j :: 0 <= j < i ==> days[j].date != d) ==>
      v == days[i].vals[c]
  {
    if days == [] then None
    else if days[0].date == d then days[0].vals[c]
    else
      var v := Lookup(days[1..], d, c);
      assert forall i :: 1 <= i < |days| ==> days[1..][i - 1] == days[i];
      v
  }

  /** `future.merge(prophet_df[["ds"] + regressors_to_use], on="ds", how="left")`: one column per admitted regressor. */
  function Merged(ds: seq<int>, days: seq<DayRow>, admitted: seq<Column>): (m: map<Column, seq<Option<real>>>)
    requires forall r :: r in days ==> forall c :: c in admitted ==> c in r.vals
    ensures forall c :: c in m <==> c in admitted
    ensures forall c :: c in admitted ==> |m[c]| == |ds| && forall k :: 0 <= k < |ds| ==> m[c][k] == Lookup(days, ds[k], c)
  {
    map c | c in admitted :: seq(|ds|, k requires 0 <= k < |ds| => Lookup(days, ds[k], c))
  }

  /**
   * With the days in ascending date order, the merged cell on a date that
   * has a day is that day's value, and on a date that has none it is missing.
   */
  lemma MergedOnDay(ds: seq<int>, days: seq<DayRow>, admitted: seq<Column>, c: Column, k: int)
    requires forall r :: r in days ==> forall c :: c in admitted ==> c in r.vals
    requires forall i, j :: 0 <= i < j < |days| ==> days[i].date < days[j].date
    requires c in admitted && 0 <= k < |ds|
    ensures forall i :: 0 <= i < |days| && days[i].date == ds[k] ==> Merged(ds, days, admitted)[c][k] == days[i].vals[c]
    ensures (forall i :: 0 <= i < |days| ==> days[i].date != ds[k]) ==> Merged(ds, days, admitted)[c][k].None?
  {
    forall i | 0 <= i < |days| && days[i].date == ds[k]
      ensures Merged(ds, days, admitted)[c][k] == days[i].vals[c]
    {
      assert forall j :: 0 <= j < i ==> days[j].date != ds[k];
    }
  }

  /** The columns after forward-filling each of `cs` in turn. */
  function FillAll(m: map<Column, seq<Option<real>>>, cs: seq<Column>): (r: map<Column, seq<Option<real>>>)
    requires forall c :: c in cs ==> c in m
    ensures r.Keys == m.Keys
    ensures forall c :: c in m ==> r[c] == if c in cs then FFill(m[c]) else m[c]
  {
    if cs == [] then m
    else
      var init := cs[..|cs| - 1];
      var c := cs[|cs| - 1];
      var p := FillAll(m, init);
      assert forall e :: e in cs <==> e in init || e == c;
      FFillIdempotent(m[c]);
      p[c := FFill(p[c])]
  }

  /** Filling one more column fills it in the columns filled so far. */
  lemma FillAllStep(m: map<Column, seq<Option<real>>>, cs: seq<Column>, i: nat)
    requires forall c :: c in cs ==> c in m
    requires i < |cs|
    ensures cs[i] in FillAll(m, cs[..i])
    ensures FillAll(m, cs[..i + 1]) == FillAll(m, cs[..i])[cs[i] := FFill(FillAll(m, cs[..i])[cs[i]])]
  {
    assert cs[..i + 1][..i] == cs[..i];
    assert cs[i] in cs;
  }

  /**
   * The future frame: its dates and, per admitted regressor, a column the
   * source first merges in and then forward-fills in place.
   */
  class FutureFrame {
    var ds: seq<int>
    var regs: map<Column, seq<Option<real>>>

    /** The left merge of the future dates with the brand's cleaned rows. */
    constructor Merge(future: seq<int>, days: seq<DayRow>, admitted: seq<Column>)
      requires forall r :: r in days ==> forall c :: c in admitted ==> c in r.vals
      ensures ds == future && regs == Merged(future, days, admitted)
    {
      ds := future;
      regs := Merged(future, days, admitted);
    }

    /** `future[reg].fillna(method="ffill", inplace=True)`. */
    method FillForward(c: Column)
      requires c in regs
      modifies this
      ensures ds == old(ds) && regs == old(regs)[c := FFill(old(regs)[c])]
    {
      regs := regs[c := FFill(regs[c])];
    }
  }

  /**
   * After the merge and the fill, no admitted regressor is missing when the
   * future frame starts on the first cleaned day and that day has every
   * admitted regressor (as it does when it is a complete training row).
   */
  lemma FilledFromFirstDay(future: seq<int>, days: seq<DayRow>, admitted: seq<Column>)
    requires forall r :: r in days ==> forall c :: c in admitted ==> c in r.vals
    requires future != [] && days != [] && future[0] == days[0].date
    requires forall c :: c in admitted ==> days[0].vals[c].Some?
    ensures var filled := FillAll(Merged(future, days, admitted), admitted);
      forall c :: c in admitted ==> AllPresent(filled[c])
  {
    var m := Merged(future, days, admitted);
    forall c | c in admitted ensures AllPresent(FillAll(m, admitted)[c]) {
      assert m[c][0] == days[0].vals[c];
      FFillFromPresentStart(m[c]);
    }
  }

  /** One row of the forecast output: the date, the brand, and `yhat` with its interval. */
  type ProphetRow = Dated<Yhat>

  /** The forecast rows: each future date with the brand and the model's prediction for its query row. */
  function ForecastRows(brand: string, ds: seq<int>, model: Model, q: seq<QueryRow>): (rows: seq<ProphetRow>)
    requires |q| == |ds|
    ensures |rows| == |ds|
    ensures forall k :: 0 <= k < |ds| ==>
      rows[k].date == ds[k] && rows[k].brand == brand && rows[k].prediction == model(q[k])
  {
    seq(|ds|, k requires 0 <= k < |ds| => Dated(ds[k], brand, model(q[k])))
  }

  /** The forecast on the future frame; None, where Prophet raises, when a filled regressor is still missing. */
  function Future(brand: string, days: seq<DayRow>, admitted: seq<Column>, model: Model, ds: seq<int>): Option<seq<ProphetRow>>
    requires forall r :: r in days ==> forall c :: c in admitted ==> c in r.vals
  {
    var filled := FillAll(Merged(ds, days, admitted), admitted);
    match Query(ds, filled, admitted)
    case None => None
    case Some(q) => Some(ForecastRows(brand, ds, model, q))
  }

  /** Why a brand was skipped. */
  datatype Skip = TooFewRows | UnfitTrain | EmptyTest

  /** What the loop body does with one brand: skip it, raise, or forecast it. */
  type BrandOutcome = Outcome<Skip, Yhat>

  /**
   * The fit: the model trained on the `ds` and `y` columns of the training
   * rows and on the admitted regressors, added in their order.
   */
  type Fit = (seq<int>, seq<real>, seq<Column>, map<Column, seq<Option<real>>>) -> Model

  /** `fit(train[["ds", "y"] + regressors_to_use])`: Prophet sees no other column. */
  function FitOn(fit: Fit, train: seq<DayRow>, admitted: seq<Column>): Model
    requires forall d :: d in train ==> TotalSales in d.vals && d.vals[TotalSales].Some?
    requires forall d :: d in train ==> forall c :: c in admitted ==> c in d.vals
  {
    fit(DatesOf(train), Targets(train), admitted, Columns(train, admitted))
  }

  /** `make_future_dataframe(periods=30)`: the future dates from the training dates. */
  type MakeFuture = seq<int> -> seq<int>

  /** The loop body after both guards: exclusion, fit, holdout score and forecast. */
  function Fitted(brand: string, clean: seq<DayRow>, n: nat, used: seq<Column>, fit: Fit, makeFuture: MakeFuture): BrandOutcome
    requires Framed(clean, used) && 0 < n < |clean|
    requires forall d :: d in clean ==> d.vals[TotalSales].Some?
  {
    var train, test := clean[..n], clean[n..];
    var admitted := Admitted(train, Candidates(used));
    var model := FitOn(fit, train, admitted);
    match Holdout(brand, test, admitted, model)
    case None => Raised
    case Some(m) =>
      match Future(brand, clean, admitted, model, makeFuture(DatesOf(train)))
      case None => Raised
      case Some(rows) => Forecasted(m, rows)
  }

  /**
   * The loop body on a brand's aggregated days: cleaning, the guard on
   * cleaned rows, the 80/20 split, the guard on training rows, the guard on
   * the test rows, then `Fitted`.
   */
  function BrandProphet(brand: string, days: seq<DayRow>, used: seq<Column>, fit: Fit, makeFuture: MakeFuture): BrandOutcome
    requires Framed(days, used)
  {
    var clean := Clean(days);
    if |clean| < MinRows then Skipped(TooFewRows)
    else
      var n := TrainSize(|clean|);
      var train, test := clean[..n], clean[n..];
      if |train| < MinTrain || !Complete(train, used) then Skipped(UnfitTrain)
      else if test == [] then Skipped(EmptyTest)
      else Fitted(brand, clean, n, used, fit, makeFuture)
  }

  /**
   * The guards: a brand is skipped for too few rows exactly when fewer than
   * three survive the cleaning; with three or more the split leaves at least
   * two training rows and one test row, so it is skipped at the second guard
   * exactly when a training cell is missing, and the empty-test guard never
   * fires.
   */
  lemma Guards(brand: string, days: seq<DayRow>, used: seq<Column>, fit: Fit, makeFuture: MakeFuture)
    requires Framed(days, used)
    ensures var r := BrandProphet(brand, days, used, fit, makeFuture);
      && (r == Skipped(TooFewRows) <==> |Clean(days)| < MinRows)
      && (r == Skipped(UnfitTrain) <==>
            |Clean(days)| >= MinRows && !Complete(Clean(days)[..TrainSize(|Clean(days)|)], used))
      && r != Skipped(EmptyTest)
  {
  }

  /**
   * A forecast brand's metrics row and forecast rows are that brand's, and
   * its forecast rows are dated on the future frame's dates in order.
   */
  lemma ForecastTagged(brand: string, days: seq<DayRow>, used: seq<Column>, fit: Fit, makeFuture: MakeFuture)
    requires Framed(days, used)
    requires BrandProphet(brand, days, used, fit, makeFuture).Forecasted?
    ensures var r := BrandProphet(brand, days, used, fit, makeFuture);
      var clean := Clean(days);
      var future := makeFuture(DatesOf(clean[..TrainSize(|clean|)]));
      && r.metrics.brand == brand
      && |r.rows| == |future|
      && forall k :: 0 <= k < |r.rows| ==> r.rows[k].brand == brand && r.rows[k].date == future[k]
  {
  }

  /**
   * Prophet does not raise on the future frame when that frame starts on
   * the first training date (as `make_future_dataframe` does): the first
   * cleaned day is a complete training row, so the forward fill leaves
   * nothing missing.
   */
  lemma NoRaiseOnFuture(brand: string, clean: seq<DayRow>, n: nat, used: seq<Column>, model: Model, admitted: seq<Column>, ds: seq<int>)
    requires Framed(clean, used) && 0 < n < |clean|
    requires Complete(clean[..n], used)
    requires forall c :: c in admitted ==> c in Candidates(used)
    requires ds != [] && ds[0] == clean[0].date
    ensures Future(brand, clean, admitted, model, ds).Some?
  {
    assert clean[0] == clean[..n][0];
    FutureFromFirstDay(brand, clean, admitted, model, ds);
  }

  /** The forecast on a future frame that starts on the first day, which has every admitted regressor, does not raise. */
  lemma FutureFromFirstDay(brand: string, days: seq<DayRow>, admitted: seq<Column>, model: Model, ds: seq<int>)
    requires forall r :: r in days ==> forall c :: c in admitted ==> c in r.vals
    requires ds != [] && days != [] && ds[0] == days[0].date
    requires forall c :: c in admitted ==> days[0].vals[c].Some?
    ensures Future(brand, days, admitted, model, ds).Some?
  {
    FilledFromFirstDay(ds, days, admitted);
    QueryOfFilled(ds, FillAll(Merged(ds, days, admitted), admitted), admitted);
  }

  /** Columns with no value missing give query rows. */
  lemma QueryOfFilled(ds: seq<int>, cols: map<Column, seq<Option<real>>>, admitted: seq<Column>)
    requires forall c :: c in admitted ==> c in cols && |cols[c]| == |ds| && AllPresent(cols[c])
    ensures Query(ds, cols, admitted).Some?
  {
    forall j: int, k: int | 0 <= j < |admitted| && 0 <= k < |ds| ensures cols[admitted[j]][k].Some? {
      assert admitted[j] in admitted;
    }
  }

  /**
   * After the guards, when the future frame starts on the first training
   * date, the loop body raises exactly when scoring the test rows raises.
   */
  lemma FittedRaisesIffHoldoutRaises(brand: string, clean: seq<DayRow>, n: nat, used: seq<Column>, fit: Fit, makeFuture: MakeFuture)
    requires Framed(clean, used) && 0 < n < |clean|
    requires forall d :: d in clean ==> d.vals[TotalSales].Some?
    requires Complete(clean[..n], used)
    requires forall ds :: ds != [] ==> makeFuture(ds) != [] && makeFuture(ds)[0] == ds[0]
    ensures var admitted := Admitted(clean[..n], Candidates(used));
      Fitted(brand, clean, n, used, fit, makeFuture).Raised? <==>
        Holdout(brand, clean[n..], admitted, FitOn(fit, clean[..n], admitted)).None?
  {
    var train := clean[..n];
    var admitted := Admitted(train, Candidates(used));
    var model := FitOn(fit, train, admitted);
    var ds := makeFuture(DatesOf(train));
    assert DatesOf(train)[0] == clean[0].date;
    NoRaiseOnFuture(brand, clean, n, used, model, admitted, ds);
  }

  /**
   * When the future frame starts on the first training date, as
   * `make_future_dataframe` with the history included makes it, a brand
   * raises exactly when it passes the guards and scoring its test rows
   * raises (by `Holdout`, when a test row misses a value of an admitted
   * regressor): the forecast on the filled future frame never raises.
   */
  lemma RaisesIffHoldoutRaises(brand: string, days: seq<DayRow>, used: seq<Column>, fit: Fit, makeFuture: MakeFuture)
    requires Framed(days, used)
    requires forall ds :: ds != [] ==> makeFuture(ds) != [] && makeFuture(ds)[0] == ds[0]
    ensures var clean := Clean(days);
      var n := TrainSize(|clean|);
      var admitted := Admitted(clean[..n], Candidates(used));
      BrandProphet(brand, days, used, fit, makeFuture).Raised? <==>
        && |clean| >= MinRows
        && Complete(clean[..n], used)
        && Holdout(brand, clean[n..], admitted, FitOn(fit, clean[..n], admitted)).None?
  {
    var clean := Clean(days);
    if |clean| >= MinRows && Complete(clean[..TrainSize(|clean|)], used) {
      FittedRaisesIffHoldoutRaises(brand, clean, TrainSize(|clean|), used, fit, makeFuture);
    }
  }

  /** The forward fill of every admitted regressor of the future frame, one after the other. */
  method FillRegressors(frame: FutureFrame, admitted: seq<Column>)
    requires forall c :: c in admitted ==> c in frame.regs
    modifies frame
    ensures frame.ds == old(frame.ds) && frame.regs == FillAll(old(frame.regs), admitted)
  {
    ghost var merged := frame.regs;
    var i := 0;
    while i < |admitted|
      invariant 0 <= i <= |admitted|
      invariant frame.ds == old(frame.ds)
      invariant frame.regs == FillAll(merged, admitted[..i])
    {
      FillAllStep(merged, admitted, i);
      frame.FillForward(admitted[i]);
      i := i + 1;
    }
    assert admitted[..i] == admitted;
  }

  /** The loop body after both guards, as the source runs it: the admission loop, the fit, the scores, and the forecast. */
  method FitAndForecast(brand: string, clean: seq<DayRow>, n: nat, used: seq<Column>, fit: Fit, makeFuture: MakeFuture)
    returns (r: BrandOutcome)
    requires Framed(clean, used) && 0 < n < |clean|
    requires forall d :: d in clean ==> d.vals[TotalSales].Some?
    ensures r == Fitted(brand, clean, n, used, fit, makeFuture)
  {
    var train, test := clean[..n], clean[n..];
    var admitted := AdmitRegressors(train, used);
    var model := FitOn(fit, train, admitted);
    var metrics := Holdout(brand, test, admitted, model);
    if metrics.None? {
      return Raised;
    }
    var rows := ForecastFuture(brand, clean, admitted, model, makeFuture(DatesOf(train)));
    if rows.None? {
      return Raised;
    }
    r := Forecasted(metrics.value, rows.value);
  }

  /** The forecast as the source runs it: the merge, the in-place fills and the prediction. */
  method ForecastFuture(brand: string, days: seq<DayRow>, admitted: seq<Column>, model: Model, future: seq<int>)
    returns (rows: Option<seq<ProphetRow>>)
    requires forall r :: r in days ==> forall c :: c in admitted ==> c in r.vals
    ensures rows == Future(brand, days, admitted, model, future)
  {
    var frame := new FutureFrame.Merge(future, days, admitted);
    FillRegressors(frame, admitted);
    var q := Query(frame.ds, frame.regs, admitted);
    if q.None? {
      return None;
    }
    rows := Some(ForecastRows(brand, future, model, q.value));
  }

  /** The loop body as the source runs it: the cleaning and the three guards, then the fit. */
  method ForecastBrand(brand: string, days: seq<DayRow>, used: seq<Column>, fit: Fit, makeFuture: MakeFuture)
    returns (r: BrandOutcome)
    requires Framed(days, used)
    ensures r == BrandProphet(brand, days, used, fit, makeFuture)
  {
    var clean := Clean(days);
    if |clean| < MinRows {
      return Skipped(TooFewRows);
    }
    var n := TrainSize(|clean|);
    var train, test := clean[..n], clean[n..];
    if |train| < MinTrain || !Complete(train, used) {
      return Skipped(UnfitTrain);
    }
    if test == [] {
      return Skipped(EmptyTest);
    }
    r := FitAndForecast(brand, clean, n, used, fit, makeFuture);
  }

  /** The brand's days: its rows aggregated to one per date. */
  function Days(cols: set<Column>, rows: seq<Record>): (days: seq<DayRow>)
    requires Readable(cols, rows)
    ensures Framed(days, Used(cols))
    ensures forall d :: d in days ==> d.vals[TotalSales].Some?
  {
    var regs := Regressors(cols);
    assert HasColumns(rows, regs);
    var days := AggregateByDate(rows, regs);
    assert forall c :: c in Candidates(Used(cols)) ==> c in DayColumns(regs);
    days
  }

  /** Aggregated days always have a target, so the cleaning drops no row of them. */
  lemma AggregatedDropsNothing(cols: set<Column>, rows: seq<Record>)
    requires Readable(cols, rows)
    ensures Clean(Days(cols, rows)) == Days(cols, rows)
  {
    CleanDropsNothing(Days(cols, rows));
  }

  /** The loop body for one brand, given that brand's rows. */
  function BrandForecast(cols: set<Column>, brand: string, rows: seq<Record>, fit: Fit, makeFuture: MakeFuture): BrandOutcome
    requires Readable(cols, rows)
  {
    BrandProphet(brand, Days(cols, rows), Used(cols), fit, makeFuture)
  }

  /** The loop body of the table's run: each brand's outcome computed from that brand's rows alone. */
  function OfBrand(t: Table, fit: Fit, makeFuture: MakeFuture): string --> BrandOutcome
  {
    b requires ReadableTable(t) =>
      BrandRowsReadable(t, b); BrandForecast(t.cols, b, BrandRecords(t.rows, b), fit, makeFuture)
  }

  /** The loop body of a run tags every forecast with its brand. */
  lemma OfBrandTagged(t: Table, fit: Fit, makeFuture: MakeFuture)
    requires ReadableTable(t)
    ensures forall c :: OfBrand(t, fit, makeFuture).requires(c) && Tagged(c, OfBrand(t, fit, makeFuture)(c))
  {
    forall c ensures Tagged(c, OfBrand(t, fit, makeFuture)(c)) {
      BrandRowsReadable(t, c);
      var rows := BrandRecords(t.rows, c);
      if BrandForecast(t.cols, c, rows, fit, makeFuture).Forecasted? {
        ForecastTagged(c, Days(t.cols, rows), Used(t.cols), fit, makeFuture);
      }
    }
  }

  /**
   * What the run leaves behind: it ends in a raise, or it finishes, having
   * written its two files or not, and returns the metrics list or nothing
   * (`return` without a value).
   */
  datatype ProphetOutput =
    | Aborted
    | Finished(written: Option<Accumulated<Yhat>>, returned: Option<seq<Metrics>>)

  /**
   * `forecast_with_prophet` on a table with rows `rows` and loop body
   * `body`: the brand loop in `groupby` order, then the write when some
   * brand was forecast.
   */
  function ProphetRun(rows: seq<Record>, body: string --> BrandOutcome): ProphetOutput
    requires forall b :: body.requires(b)
  {
    match RunBrands(Brands(rows), body)
    case None => Aborted
    case Some(acc) =>
      if acc.metrics == [] then Finished(None, None) else Finished(Some(acc), Some(acc.metrics))
  }

  /** The loop body on the group of brand `b`. */
  method ForecastGroup(t: Table, b: string, fit: Fit, makeFuture: MakeFuture) returns (r: BrandOutcome)
    requires ReadableTable(t)
    ensures r == OfBrand(t, fit, makeFuture)(b)
  {
    BrandRowsReadable(t, b);
    var rows := BrandRecords(t.rows, b);
    r := ForecastBrand(b, Days(t.cols, rows), Used(t.cols), fit, makeFuture);
  }

  /** The brand loop as the source runs it: the two lists grow brand by brand, until a brand raises (None). */
  method RunLoop(t: Table, fit: Fit, makeFuture: MakeFuture) returns (acc: Option<Accumulated<Yhat>>)
    requires ReadableTable(t)
    ensures acc == RunBrands(Brands(t.rows), OfBrand(t, fit, makeFuture))
  {
    var forecasts: seq<ProphetRow>, metrics: seq<Metrics> := [], [];
    var bs := Brands(t.rows);
    ghost var body := OfBrand(t, fit, makeFuture);
    var i := 0;
    while i < |bs|
      invariant 0 <= i <= |bs|
      invariant RunBrands(bs[..i], body) == Some(Accumulated(forecasts, metrics))
    {
      var r := ForecastGroup(t, bs[i], fit, makeFuture);
      LoopStep(bs, i, body, Accumulated(forecasts, metrics));
      if r.Raised? {
        RunAbortsAfterRaise(bs, i + 1, body);
        return None;
      }
      if r.Forecasted? {
        forecasts := forecasts + r.rows;
        metrics := metrics + [r.metrics];
      }
      i := i + 1;
    }
    assert bs[..i] == bs;
    acc := Some(Accumulated(forecasts, metrics));
  }

  /** `forecast_with_prophet` as the source runs it: the brand loop, then the write when some brand was forecast. */
  method RunProphetForecast(t: Table, fit: Fit, makeFuture: MakeFuture) returns (out: ProphetOutput)
    requires ReadableTable(t)
    ensures out == ProphetRun(t.rows, OfBrand(t, fit, makeFuture))
  {
    var acc := RunLoop(t, fit, makeFuture);
    if acc.None? {
      return Aborted;
    }
    if acc.value.metrics == [] {
      return Finished(None, None);
    }
    out := Finished(acc, Some(acc.value.metrics));
  }

  /** The run ends in a raise exactly when the loop body raises for the brand of some row. */
  lemma ProphetRunAborts(rows: seq<Record>, body: string --> BrandOutcome)
    requires forall b :: body.requires(b)
    ensures ProphetRun(rows, body).Aborted? <==> exists i :: 0 <= i < |rows| && body(rows[i].brand).Raised?
  {
    BrandsOfRows(rows);
    RunRaisesOverRows(rows, Brands(rows), body);
  }

  /**
   * A run that finishes writes its files exactly when it returns metrics;
   * the files then hold what it returns; and a brand of the rows has a
   * returned metrics row exactly when the loop body forecasts it, the row
   * the loop body makes of it, and its written forecast rows are then the
   * block the loop body makes of it.
   */
  lemma ProphetRunFinished(rows: seq<Record>, body: string --> BrandOutcome)
    requires forall b :: body.requires(b)
    requires forall c :: Tagged(c, body(c))
    requires ProphetRun(rows, body).Finished?
    ensures var out := ProphetRun(rows, body);
      && (out.written.Some? <==> out.returned.Some?)
      && (out.returned.Some? ==> out.returned.value != [] && out.written.value.metrics == out.returned.value)
      && (forall b :: (exists i :: 0 <= i < |rows| && rows[i].brand == b) ==>
            MetricsFor(if out.returned.Some? then out.returned.value else [], b) ==
              if body(b).Forecasted? then [body(b).metrics] else [])
      && (forall b :: (exists i :: 0 <= i < |rows| && rows[i].brand == b) && out.written.Some? ==>
            RowsFor(out.written.value.forecasts, b) == if body(b).Forecasted? then body(b).rows else [])
  {
    FinishedRunIsolates(rows, body);
  }
}
