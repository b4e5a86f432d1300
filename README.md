# Brand forecasting pipeline: a verified model of its data handling

This project models, in Dafny, the data-handling core of a brand sales
forecasting pipeline. The core has three stages:

- the **feature builder** (`preprocess_data`), which turns the raw daily sales
  table into the processed table;
- the **sequence forecaster** (`run_lstm_forecast`), which trains a network per
  brand on sliding windows of scaled features and rolls it out thirty days;
- the **seasonal forecaster** (`forecast_with_prophet`), which fits a seasonal
  model per brand with the regressors that vary on its training rows.

Cells are `real`s; a missing cell (NaN) is `Option.None`. Dates are integer day
numbers. The trained network and the seasonal model are function-valued
parameters, so all the per-brand bookkeeping around them is checked for any
model: the guards, the windows, the rollout, the dating, the admission of
regressors, the forward fill and the output lists.

Files and modules:

- `values.dfy` (`Values`): the `Option` cell type, the skip-missing reductions
  (sum, mean, first) and the fills (`fillna`, `ffill`, `bfill`).
- `ordering.dfy` (`Ordering`): Python's string order, strict total orders, and
  the sorted list of distinct keys that `groupby` and `LabelEncoder` rely on.
- `frames.dfy` (`Frames`): the processed table and the steps both forecasters
  share: the brand groups, the per-date re-aggregation, the 80/20 split size and
  the forecast dates.
- `scoring.dfy` (`Scoring`): the holdout scores, RMSE and MAPE.
- `preprocessing.dfy` (`Preprocessing`): the feature builder, with columns held as
  `map<Column, seq<Option<real>>>` beside the row keys (category, brand, region,
  date).
- `brandloop.dfy` (`BrandLoop`): the brand loop both forecasters run, with its
  skip, raise and append outcomes and the two lists it accumulates.
- `lstm.dfy` (`LstmForecast`): the sequence forecaster.
- `prophet.dfy` (`SeasonalForecast`): the seasonal forecaster, including a
  `FutureFrame` class for the merged future frame that is forward-filled in
  place.

Most loops of the source are methods with their invariants: the window loop,
the rollout, the brand loops, the regressor admission loop, the imputation
loop, the encoder loop and the in-place fills. Each method is proved equal to
a function, and the lemmas state what the source promises about that
function. Four loops are not methods. The loops that build the aggregation
dictionary (`src/lstm_forecast.py:64-66`, `src/prophet_forecast.py:43-45`)
are the function `Regressors` of each forecaster. The 80-epoch training loop
(`src/lstm_forecast.py:106-112`) is inside the `fit` parameter. The
`add_regressor` loop (`src/prophet_forecast.py:115-116`) is inside the `fit`
parameter of the seasonal forecaster, which receives the admitted list.

A NaN (missing) cell in the sequence forecaster's input spreads as it does
in the network: any NaN in a training window makes the loss NaN, and Adam's
step then makes every weight NaN (`Net` is `None`). A NaN in a window, or
NaN weights, make that window's prediction NaN. A NaN test prediction makes
`mean_squared_error` raise, which ends the whole run. A NaN prediction in the
rollout is fed back as the next row's sales, so every later prediction is
NaN too.

## Model

| member | source | states |
|---|---|---|
| Values.MeanPresent | src/lstm_forecast.py:62 | A skip-missing mean is missing exactly when no value is present. |
| Values.FirstPresent | src/data_preprocessing.py:96-98 | `first()` is missing exactly when no value is present, and otherwise is the first present value. |
| Values.FillMissing | src/data_preprocessing.py:42 | `fillna(v)` keeps present cells, puts `v` in missing ones and leaves nothing missing. |
| Values.FillFrom | src/data_preprocessing.py:63 | `fillna(column)` keeps present cells and takes the same row of the other column where a cell is missing. A cell stays missing exactly when both are missing. With nothing missing the column is unchanged, and a fully present source column leaves nothing missing. |
| Values.FFillKeepsPresent | src/prophet_forecast.py:134 | Forward fill leaves every present value unchanged. |
| Values.FFillTakesNearestEarlier | src/prophet_forecast.py:134 | A missing value becomes the nearest earlier present value. |
| Values.FFillMissingIff | src/prophet_forecast.py:134 | A value stays missing after the forward fill exactly when it and every earlier value are missing. |
| Values.FFillIdempotent | src/prophet_forecast.py:134 | Forward filling a second time changes nothing. |
| Values.FFillFromPresentStart | src/prophet_forecast.py:134 | When the first value is present, nothing is missing after the forward fill. |
| Values.BFillAt | src/data_preprocessing.py:60 | Backward fill: a cell keeps its value if present, else takes the filled cell after it; the last cell keeps its own. |
| Ordering.SortedDistinct | src/lstm_forecast.py:53 | The distinct keys, strictly ascending, holding exactly the keys of the input. |
| Ordering.StrLtIsStrictTotalOrder | src/lstm_forecast.py:53 | Python's string comparison, by which `groupby` orders brands, is a strict total order. |
| Frames.Available | src/prophet_forecast.py:47 | The list comprehension keeps exactly the wanted columns the table has, in the wanted order. |
| Frames.Brands | src/lstm_forecast.py:53 | `groupby("Brand")` visits each brand of the table once, in ascending order. |
| Frames.BrandRecords | src/lstm_forecast.py:53 | A brand's group holds exactly the rows of that brand. |
| Frames.AggregateDayCells | src/lstm_forecast.py:60-67 | A date's aggregated row has `Total_Sales` as the sum of that date's sales and every other feature as that date's mean. |
| Frames.AggregateDay | src/lstm_forecast.py:60-67 | A date's aggregated row has exactly the sales, popularity and present regressor columns, and its sales cell is never missing. |
| Frames.AggregateByDate | src/lstm_forecast.py:67 | Re-aggregation gives one row per distinct date, dates strictly ascending, each row the aggregate of its date. |
| Frames.LastDate | src/lstm_forecast.py:143 | `Date.max()` of ascending days is a date among them and no earlier than any of them. |
| Frames.ConsecutiveDays | src/lstm_forecast.py:143 | `date_range(start, periods=n)` gives n strictly ascending days, one day apart, from `start` to `start + n - 1`. |
| Frames.TrainSize | src/lstm_forecast.py:92 | `int(n * 0.8)` is at most n and below n for n ≥ 1. It is at least 2 for n ≥ 3, and for n ≥ 20 it leaves at least 4 test items. |
| Scoring.MeanSquaredError | src/lstm_forecast.py:119 | The mean squared error is never negative and is zero for exact predictions. |
| Scoring.MeanAbsolutePercentageError | src/lstm_forecast.py:120 | MAPE × 100 is never negative, and is zero exactly when every prediction is exact. |
| Scoring.Score | src/lstm_forecast.py:119-121 | The metrics row carries the brand and non-negative scores. |
| Preprocessing.Median | src/data_preprocessing.py:28-30 | The median of the present values lies between their minimum and maximum. |
| Preprocessing.MedianFillFills | src/data_preprocessing.py:28-39 | Median imputation keeps present values. When any value is present, it leaves none missing, each filled value lying between the column's minimum and maximum. |
| Preprocessing.FillingOf | src/data_preprocessing.py:28-42 | The three required columns and the eight listed covariates are median-filled, `Is_Holiday` is zero-filled, and no other column is filled. |
| Preprocessing.ImputeColumns | src/data_preprocessing.py:28-42 | Per column: median columns keep present values and, if any is present, have none missing; a missing holiday flag becomes 0 and other holiday flags are kept; every other column is unchanged. |
| Preprocessing.ImputeInSteps | src/data_preprocessing.py:28-42 | Filling the required columns, then the covariates, then the holiday flag applies each column's own rule exactly once. |
| Preprocessing.FillListed | src/data_preprocessing.py:37-39 | The covariate loop fills exactly the listed columns the frame has, one reassignment at a time. |
| Preprocessing.ImputeMissing | src/data_preprocessing.py:28-42 | The imputation as run equals the column-by-column imputation `Impute`. |
| Preprocessing.SortOrderSorted | src/data_preprocessing.py:46 | The sort order lists every row once, in (brand, date) order, with tied rows in input order. |
| Preprocessing.SortByBrandDateSorts | src/data_preprocessing.py:46 | The sorted frame is a permutation of the input's rows applied to every column alike, in (brand, date) order, stable on ties as pandas' two-key sort is. |
| Preprocessing.SameKeysAfterSort | src/data_preprocessing.py:46 | Sorting keeps the set of (category, brand, date) keys. |
| Preprocessing.Classes | src/data_preprocessing.py:51-52 | The encoder's classes are the distinct labels in ascending order. |
| Preprocessing.EncodeRange | src/data_preprocessing.py:52 | Every code is a whole number in 0..k-1, where k is the number of distinct labels. |
| Preprocessing.EncodeInjective | src/data_preprocessing.py:52 | Two rows get equal codes exactly when their labels are equal. |
| Preprocessing.EncodeOrdered | src/data_preprocessing.py:52 | Codes follow the string order of the labels. |
| Preprocessing.EncodeOnto | src/data_preprocessing.py:52 | Every code in 0..k-1 is used, code m by the rows with the m-th class. |
| Preprocessing.EncodeAllColumns | src/data_preprocessing.py:50-53 | Each `_Encoded` column holds the codes of its label column; every other column is unchanged. |
| Preprocessing.EncodeLabels | src/data_preprocessing.py:50-53 | The encoder loop as run equals encoding the three label columns. |
| Preprocessing.ViewOfTransform | src/data_preprocessing.py:57-60 | After a per-brand `transform(f)`, each brand's cells are `f` of that brand's cells. |
| Preprocessing.BrandViewByDate | src/data_preprocessing.py:46 | After the (brand, date) sort, each brand's rows are in date order. |
| Preprocessing.LagOfSales | src/data_preprocessing.py:56-60 | For a brand with no sales missing and at least 2 rows, the filled lag puts the row's own sales in row 0 and the previous row's sales in every later row. |
| Preprocessing.LagOfSingleRow | src/data_preprocessing.py:56-60 | A one-row brand's lag stays missing after both fills. |
| Preprocessing.RollingMeanFirst | src/data_preprocessing.py:57 | The first row's rolling mean is its own sales. |
| Preprocessing.RollingMeanSecond | src/data_preprocessing.py:57 | The second row's rolling mean is the mean of the first two sales. |
| Preprocessing.RollingMeanLater | src/data_preprocessing.py:57 | From the third row on, the rolling mean is the mean of the row's sales and the two before it. |
| Preprocessing.RollingMeanMissing | src/data_preprocessing.py:57 | A rolling mean is missing only when its own row's sales are missing. |
| Preprocessing.AddSalesFeatures | src/data_preprocessing.py:56-63 | The feature step adds exactly `Sales_Lag_1` and `Sales_MA_3` to the columns. |
| Preprocessing.SalesFeaturesPerBrand | src/data_preprocessing.py:56-63 | Sales are unchanged. Each brand's lag is its filled shifted sales. Each brand's rolling mean is the rolling mean of its sales, and its final `Sales_MA_3` is that rolling mean filled from its sales. |
| Preprocessing.WhereFillFrom | src/data_preprocessing.py:63 | Filling a column from another and then taking a brand's rows gives the same cells as taking the brand's rows first. |
| Preprocessing.BrandMean | src/data_preprocessing.py:57-63 | For a brand with no sales missing, row i of its `Sales_MA_3` is the mean of its sales in rows max(0, i-2) to i. |
| Preprocessing.SalesMeanPresent | src/data_preprocessing.py:57-63 | A `Sales_MA_3` cell is missing only where that row's sales are missing. |
| Preprocessing.BrandLag | src/data_preprocessing.py:46-60 | In the sorted frame, for a brand with at least 2 rows and no sales missing, lag row 0 is its first sales and lag row i is the sales of row i-1. |
| Preprocessing.EngineerSalesFeatures | src/data_preprocessing.py:56-63 | The four column reassignments as run equal `AddSalesFeatures`. |
| Preprocessing.Spread | src/data_preprocessing.py:75 | `std() + 1e-6` is always positive. |
| Preprocessing.StandardiseCentres | src/data_preprocessing.py:75 | The standardised present values sum to zero (mean zero). |
| Preprocessing.StandardiseMissing | src/data_preprocessing.py:75 | A cell is present after standardising exactly when it was present and at least two values are present. |
| Preprocessing.StandardiseKeepsOrder | src/data_preprocessing.py:75 | Standardising keeps the strict order of any two present values. |
| Preprocessing.NormalisedListed | src/data_preprocessing.py:66-72 | A column is normalised exactly when it is listed, and `Total_Sales` is not listed. |
| Preprocessing.NormaliseChoosesColumns | src/data_preprocessing.py:73-76 | The listed columns the frame has are standardised; `Total_Sales` and every other column are unchanged. |
| Preprocessing.Groups | src/data_preprocessing.py:104 | The groups are the distinct (category, brand, date) keys, strictly ascending. |
| Preprocessing.AggregateOneRowPerKey | src/data_preprocessing.py:104 | The output has exactly one row per distinct key of the input, in ascending key order, each with every column. |
| Preprocessing.AggregateCells | src/data_preprocessing.py:79-104 | `Total_Sales` and `Quantity_Sold` are group sums, never missing; the encoded labels take the first present value; the other columns take the mean. |
| Preprocessing.GroupSumsTotal | src/data_preprocessing.py:80-81 | Group sums over groups that cover each row once add up to the column's sum. |
| Preprocessing.AggregateKeepsTotal | src/data_preprocessing.py:79-104 | The grand total of `Total_Sales` (and of `Quantity_Sold`) is the same before and after aggregation. |
| Preprocessing.AggregateReadable | src/data_preprocessing.py:79-104 | The aggregated table is well formed and readable by both forecasters. |
| Preprocessing.Prepared | src/data_preprocessing.py:27-76 | Before aggregation the frame has the input's columns plus the five added ones, and the same set of keys. |
| Preprocessing.PreprocessData | src/data_preprocessing.py:27-104 | The whole builder as run, step by step, equals `Preprocess`. |
| Preprocessing.PreprocessOutput | src/data_preprocessing.py:27-110 | The returned table has the input's columns plus the five added ones, is readable, and has exactly one row per distinct input key, in ascending key order. |
| LstmForecast.Regressors | src/lstm_forecast.py:64-66 | A column is aggregated as a regressor exactly when it is listed and the table has it, and the aggregated regressors keep the list's order. |
| LstmForecast.Features | src/lstm_forecast.py:70 | The feature list starts with `Total_Sales`, `Online_Popularity` and then holds exactly the present regressors, in list order and each once (the tail is `Regressors`, a subsequence of the list). |
| LstmForecast.ScaleValue | src/lstm_forecast.py:79 | Scaling a value and scaling it back returns it. |
| LstmForecast.FitColumn | src/lstm_forecast.py:78-79 | The fitted range is positive, and every present value scales into [0, 1]. |
| LstmForecast.Fit | src/lstm_forecast.py:78-79 | One positive-width scale per feature. |
| LstmForecast.Transform | src/lstm_forecast.py:79 | Scaling keeps the shape and which cells are missing, and each present cell scales back to its value. |
| LstmForecast.InverseOfTransform | src/lstm_forecast.py:137-140 | `inverse_transform` after `transform` gives back the matrix. |
| LstmForecast.FittedCellsInUnitInterval | src/lstm_forecast.py:78-79 | Every present cell of the fitted matrix scales into [0, 1]. |
| LstmForecast.BuildWindows | src/lstm_forecast.py:81-84 | There are `len(scaled) - 7` samples; sample i is rows i..i+6 and its label is column 0 of row i+7. |
| LstmForecast.RolloutStep | src/lstm_forecast.py:126-132 | One more step appends one row to the grown matrix: the last grown row with column 0 replaced by the prediction on the last 7 grown rows. That last row is never empty, so its features stay those of the last starting row. |
| LstmForecast.RolledPrefix | src/lstm_forecast.py:126-132 | A longer rollout starts with the predictions of a shorter one. |
| LstmForecast.RolloutPredicts | src/lstm_forecast.py:124-132 | Prediction j of the rollout is the network's output on the 7 grown rows just before the row it fills. |
| LstmForecast.RolloutPresence | src/lstm_forecast.py:124-132 | Every rolled-out prediction is present exactly when the weights are finite and the starting window has no missing cell. Otherwise every prediction is NaN. |
| LstmForecast.RollOut | src/lstm_forecast.py:124-134 | The 30-step loop as run equals `Rollout`, and `future_scaled` is exactly the 30 appended rows. |
| LstmForecast.InverseInput | src/lstm_forecast.py:137-138 | The inverse-input matrix has one row per future step and the width of the last raw row. |
| LstmForecast.FutureSales | src/lstm_forecast.py:137-140 | Predicted sales are column 0 of the inverse transform, each the unscaled rollout prediction, whatever the other columns hold. |
| LstmForecast.Days | src/lstm_forecast.py:54-67 | A brand's aggregated days are in strictly ascending date order. |
| LstmForecast.LatestDay | src/lstm_forecast.py:143 | The last aggregated day is the latest date among the brand's rows. |
| LstmForecast.RawMatrix | src/lstm_forecast.py:76 | Column 0 of the feature matrix is the day's summed sales and is never missing. |
| LstmForecast.Scaled | src/lstm_forecast.py:79 | The scaled matrix keeps the shape, and its sales column is never missing. |
| LstmForecast.Targets | src/lstm_forecast.py:84 | Every window label is present, one per window. |
| LstmForecast.ForecastBlock | src/lstm_forecast.py:124-148 | The block has 30 rows for the brand, dated on the 30 days after its last date, each carrying the unscaled rollout prediction. |
| LstmForecast.Holdout | src/lstm_forecast.py:92-121 | A holdout that does not raise gives the brand's metrics row with non-negative scores. |
| LstmForecast.Predictions | src/lstm_forecast.py:115-116 | Each test prediction is present exactly when the weights are finite and its window has no missing cell, and is then the network's output on it. |
| LstmForecast.WindowsCompleteIff | src/lstm_forecast.py:81-84 | Every window is complete exactly when no row but the last has a missing cell. |
| LstmForecast.HoldoutWindows | src/lstm_forecast.py:92-119 | Scoring raises exactly when some window, for training or testing, has a missing cell. When it does not raise, the weights are finite. |
| LstmForecast.HoldoutRaisesIff | src/lstm_forecast.py:76-119 | Scoring raises exactly when some aggregated day before the last misses a feature. |
| LstmForecast.StartCompleteIffLastDay | src/lstm_forecast.py:119-124 | After a holdout that does not raise, the weights are finite, and the rollout's starting window is complete exactly when the last day has every feature. |
| LstmForecast.Block | src/lstm_forecast.py:124-148 | The forecast block has 30 rows of the brand, on consecutive days after its last date. |
| LstmForecast.BlockPresence | src/lstm_forecast.py:124-148 | The block's sales are all present when the weights are finite and the last 7 scaled rows are complete, and all NaN otherwise. |
| LstmForecast.ForecastBlockPresence | src/lstm_forecast.py:124-140 | Unscaling keeps the rollout's presence: every predicted sales cell is present exactly under the same condition. |
| LstmForecast.PipelineOutcome | src/lstm_forecast.py:72-148 | A brand is turned away before windowing exactly when it has < 8 aggregated days, and after windowing exactly when it has 8 to 26. With ≥ 27 it raises exactly when some day before its last misses a feature, and is forecast exactly when none does. |
| LstmForecast.PipelineForecast | src/lstm_forecast.py:119-148 | A forecast carries the brand's metrics row and 30 rows of the brand on the 30 days after its last day. Their sales are present exactly when the last day has every feature, and all NaN otherwise. |
| LstmForecast.DatedForecast | src/lstm_forecast.py:124-148 | The rollout loop, the unscaling and the dating as run equal `ForecastBlock`. |
| LstmForecast.TrainAndForecast | src/lstm_forecast.py:92-148 | Training, scoring and rollout as run equal `Holdout` and `Block`. |
| LstmForecast.ForecastBrand | src/lstm_forecast.py:54-148 | The loop body as run equals `BrandForecast`. |
| LstmForecast.ForecastGroup | src/lstm_forecast.py:53-54 | The loop body on a group uses that brand's rows alone. |
| LstmForecast.RunLstmForecast | src/lstm_forecast.py:50-159 | The function as run, with its brand loop, equals `LstmRun`. |
| LstmForecast.ForecastedIffEnoughDays | src/lstm_forecast.py:53-148 | For a brand's rows: skipped before windowing exactly when they fall on < 8 distinct dates, and after it exactly when on 8 to 26. With ≥ 27 they raise exactly when an aggregated day before the last misses a feature, and are forecast otherwise. |
| LstmForecast.ForecastTagged | src/lstm_forecast.py:121-148 | A forecast's metrics row and its 30 rows all carry the brand. |
| LstmForecast.ForecastBlockDates | src/lstm_forecast.py:143 | Forecast dates are the 30 days after the latest date among the brand's rows. |
| LstmForecast.OfBrandTagged | src/lstm_forecast.py:144-148 | Every forecast of a brand's rows carries that brand's metrics row and 30 rows of that brand. |
| LstmForecast.LstmRunAborts | src/lstm_forecast.py:53-119 | The run ends in a raise exactly when the loop body raises for the brand of some row. |
| LstmForecast.LstmRunWrites | src/lstm_forecast.py:150-159 | A run that finishes writes files exactly when it returns a non-empty metrics list, and the files hold the returned metrics. |
| LstmForecast.LstmRunOutput | src/lstm_forecast.py:53-159 | In a run that finishes, each brand's returned metrics and written forecast rows are what the loop body makes of that brand's rows, and nothing when it skips the brand. |
| BrandLoop.RunBrandsStep | src/lstm_forecast.py:53-148 | One more turn of the loop adds that brand's outcome to the accumulated lists. |
| BrandLoop.LoopStep | src/lstm_forecast.py:53-148 | A turn after no raise: a raise aborts, a skip adds nothing, a forecast appends its block and its metrics row. |
| BrandLoop.RunAbortsAfterRaise | src/lstm_forecast.py:53-148 | Once a brand raises, the run stays aborted to the end. |
| BrandLoop.RunRaisesIff | src/lstm_forecast.py:53-148 | The loop ends in a raise exactly when some visited brand raises. |
| BrandLoop.RunStepFinished | src/lstm_forecast.py:53-148 | A loop that finishes finished every prefix, and no visited brand raised. |
| BrandLoop.RowsFor | src/lstm_forecast.py:144-148 | The selected rows are rows of the list with the brand, and every row of the list with the brand is selected. |
| BrandLoop.RowsForAppend | src/lstm_forecast.py:144-148 | Selecting a brand's rows from two joined lists joins the selections. |
| BrandLoop.RowsForUniform | src/lstm_forecast.py:144-148 | Selecting from rows all of one brand keeps all of them or none. |
| BrandLoop.RunIsolatesMetrics | src/lstm_forecast.py:53-121 | In a finished loop over distinct brands, a brand's metrics rows are the one its loop body makes, or none when skipped or not visited. |
| BrandLoop.RunIsolatesForecasts | src/lstm_forecast.py:53-148 | In a finished loop over distinct brands, a brand's forecast rows are exactly its loop body's block, or none when skipped or not visited. |
| BrandLoop.RunCounts | src/lstm_forecast.py:121-148 | When every block has h rows, a finished run holds h forecast rows per metrics row. |
| BrandLoop.BrandsOfRows | src/lstm_forecast.py:53 | The loop visits exactly the brands of the rows, each once. |
| BrandLoop.RunRaisesOverRows | src/lstm_forecast.py:53-148 | The loop raises exactly when the loop body raises for some row's brand. |
| BrandLoop.FinishedRunIsolates | src/prophet_forecast.py:37-137 | For every brand of the rows, a finished run returns the metrics row and forecast rows the loop body makes of it when forecast, and none otherwise. |
| SeasonalForecast.Regressors | src/prophet_forecast.py:41-45 | The aggregated regressors are exactly the listed regressors the table has, in list order (a subsequence of the list). |
| SeasonalForecast.NotExtra | src/prophet_forecast.py:22-27 | Neither the target nor `Online_Popularity` is in the regressor list. |
| SeasonalForecast.Used | src/prophet_forecast.py:47 | `used_regressors` equal the regressors the re-aggregation kept, so they are exactly the listed regressors the table has, in list order. |
| SeasonalForecast.Clean | src/prophet_forecast.py:64-65 | Cleaning keeps a day, in order, exactly when its target is present. |
| SeasonalForecast.CleanDropsNothing | src/prophet_forecast.py:58-69 | When every target is present, the drop count is zero. |
| SeasonalForecast.AggregatedDropsNothing | src/prophet_forecast.py:41-67 | Aggregated days always have a target, so the cleaning drops none of them. |
| SeasonalForecast.Targets | src/prophet_forecast.py:64-65 | After cleaning every target is a present value. |
| SeasonalForecast.NUniqueAboveOne | src/prophet_forecast.py:99-104 | `nunique() > 1` holds exactly when two present cells differ. |
| SeasonalForecast.Admitted | src/prophet_forecast.py:98-107 | A candidate is admitted exactly when it varies on the training rows, in candidate order. |
| SeasonalForecast.AdmittedAppend | src/prophet_forecast.py:103-107 | One more candidate is appended exactly when it varies. |
| SeasonalForecast.TrendFirst | src/prophet_forecast.py:99-102 | `Trend_Score` heads the admitted list exactly when it varies on the training rows. |
| SeasonalForecast.AdmitRegressors | src/prophet_forecast.py:98-107 | The admission loop as run equals `Admitted` over `Trend_Score` followed by the used regressors. |
| SeasonalForecast.Holdout | src/prophet_forecast.py:121-125 | Scoring succeeds exactly when no test row misses an admitted regressor, and then gives the brand's non-negative metrics. |
| SeasonalForecast.Lookup | src/prophet_forecast.py:132 | The left merge gives the cell of the first day on the date, or missing when no day is on it. |
| SeasonalForecast.MergedOnDay | src/prophet_forecast.py:132 | With the days in ascending date order, a merged cell on a date that has a day is that day's value, and on a date with no day it is missing. |
| SeasonalForecast.FillAll | src/prophet_forecast.py:133-134 | Filling the admitted columns forward-fills exactly those columns and leaves the others. |
| SeasonalForecast.FillAllStep | src/prophet_forecast.py:133-134 | One more loop step forward-fills one more column. |
| SeasonalForecast.FutureFrame.Merge | src/prophet_forecast.py:132 | The new frame holds the future dates and the merged regressor columns. |
| SeasonalForecast.FutureFrame.FillForward | src/prophet_forecast.py:134 | The in-place fill forward-fills one column and changes nothing else. |
| SeasonalForecast.FillRegressors | src/prophet_forecast.py:133-134 | The fill loop as run leaves the frame's columns equal to `FillAll` of the admitted regressors. |
| SeasonalForecast.FilledFromFirstDay | src/prophet_forecast.py:127-134 | If the future frame starts on the first cleaned day and that day has every admitted regressor, no admitted cell is missing after merge and fill. |
| SeasonalForecast.Guards | src/prophet_forecast.py:79-95 | A brand is skipped for too few rows exactly when < 3 rows survive cleaning. With ≥ 3 rows there are ≥ 2 training rows and ≥ 1 test row, so the second guard fires exactly when a training cell is missing and the empty-test guard never fires. |
| SeasonalForecast.ForecastTagged | src/prophet_forecast.py:125-137 | A forecast's metrics row and rows carry the brand, and the rows are on the future dates in order. |
| SeasonalForecast.NoRaiseOnFuture | src/prophet_forecast.py:127-135 | When the future frame starts on the first training date, predicting on it never raises. |
| SeasonalForecast.FutureFromFirstDay | src/prophet_forecast.py:132-135 | A future frame starting on a day that has every admitted regressor gives a query that does not raise. |
| SeasonalForecast.QueryOfFilled | src/prophet_forecast.py:133-135 | Columns with no missing cell give a query. |
| SeasonalForecast.FittedRaisesIffHoldoutRaises | src/prophet_forecast.py:121-135 | After the guards, the fitted part raises exactly when scoring the test rows raises. |
| SeasonalForecast.RaisesIffHoldoutRaises | src/prophet_forecast.py:79-135 | A brand raises exactly when it passes the guards and one of its test rows misses an admitted regressor. |
| SeasonalForecast.FitAndForecast | src/prophet_forecast.py:97-137 | Admission, fit on the `ds`, `y` and admitted columns, scoring and forecast as run equal the functional loop body after the guards. |
| SeasonalForecast.ForecastFuture | src/prophet_forecast.py:127-137 | The merge, the in-place fills and the prediction as run equal `Future`: the forecast rows, or a raise when a filled cell is still missing. |
| SeasonalForecast.ForecastBrand | src/prophet_forecast.py:58-137 | The loop body as run, with cleaning and the three guards, equals `BrandProphet`. |
| SeasonalForecast.Days | src/prophet_forecast.py:40-45 | Every aggregated day has the used regressors and a present target. |
| SeasonalForecast.OfBrandTagged | src/prophet_forecast.py:136-137 | Every forecast row of a brand's result carries that brand. |
| SeasonalForecast.ForecastGroup | src/prophet_forecast.py:37-38 | The loop body on a group uses that brand's rows alone. |
| SeasonalForecast.RunLoop | src/prophet_forecast.py:35-137 | The brand loop as run equals `RunBrands` over the visited brands. |
| SeasonalForecast.RunProphetForecast | src/prophet_forecast.py:35-150 | The function as run equals `ProphetRun`. |
| SeasonalForecast.ProphetRunAborts | src/prophet_forecast.py:29-150 | The function raises exactly when the loop body raises for some row's brand. |
| SeasonalForecast.ProphetRunFinished | src/prophet_forecast.py:37-150 | A finished run writes files exactly when it returns metrics (`None` otherwise), holding what it returns. A brand has a returned metrics row exactly when its loop body forecasts it, and its written forecast rows are then exactly that brand's block. |

## Left out

- File handling is left out: reading and writing the CSV files, `os.makedirs`, and the file-existence checks. The processed table is a parameter, and what would be written is part of the result.
- A missing required input column (a `KeyError` in pandas) is a precondition. For the feature builder the required columns are `Online_Popularity`, `Total_Sales` and `Quantity_Sold`; for the forecasters they are `Total_Sales` and `Online_Popularity`.
- The console output (`print`) and the CUDA/CPU device choice are left out.
- The network (`LSTMModel`, its 80 epochs of Adam training) and Prophet's fit and predict are function parameters: `fit` from training windows to a predictor, and a Prophet `fit` that receives only the training dates, the targets and the admitted regressor columns in their order (`train[["ds", "y"] + regressors_to_use]`), giving a model from query rows to predictions. Only their inputs and the handling of their outputs are modelled.
- LstmForecast.Apply: a network with finite weights is assumed to give a finite output on a window with no NaN, and NaN on a window with one. A float32 overflow to infinity or NaN inside the network is not modelled.
- Prophet's `predict` raising on a missing regressor value is modelled as a `None` result. The source does not catch that exception, so it aborts the whole run.
- `make_future_dataframe` is a parameter: the sequence of future dates. Its output includes the training history, so the seasonal forecast rows are not claimed to start after the last observed date. The no-raise lemmas assume only that the frame starts on the first training date, as that function produces it.
- Prophet's `yhat_lower`/`yhat_upper` are carried through as opaque model outputs.
- Floating point is not modelled: cells are exact reals. float32 tensors, the `inf` → NaN replacement and `to_numeric` coercion are not modelled; no infinite value exists here, so the cleaning's `inf` step is the identity.
- `pd.to_datetime(..., errors="coerce")` is not modelled: dates are already day numbers, and no date becomes NaT.
- Preprocessing.Standardise: the square root inside `std()` is a parameter `sqrt` that is only required to be non-negative. The results proved (centring, order, missing cells) hold for any such root.
- Scoring.MeanSquaredError: the RMSE column holds the mean squared error itself, because the square root is not modelled. The properties stated (non-negative, zero on exact predictions) hold for its root too.
- LstmForecast.FitColumn: MinMaxScaler's zero-width range is given width 1, as scikit-learn does. A column with no present value gets the unit scale; scikit-learn would give it NaN parameters and all its cells stay missing either way.
- The MinMaxScaler's floating-point clipping and the `1e-6`-epsilon arithmetic are exact-real here.
- The chained in-place fills `df["Sales_MA_3"].fillna(..., inplace=True)` (`src/data_preprocessing.py:63`) and `future[reg].fillna(method="ffill", inplace=True)` (`src/prophet_forecast.py:134`) are modelled as updating the frame's column, as pandas does for these chained calls on the versions the pipeline targets.
- Raw columns outside the model's nineteen numeric columns are not modelled. The text columns Category, Brand and Region appear as row keys; Region is also a label column for encoding.
- `"Category": "first"` in the aggregation dictionary names a group key. It is not modelled as a cell: the category is carried in the row key.
- Preprocessing.AggregateKeepsTotal: the grand total is proved for the aggregation step. The proof that the sort, a permutation of rows, keeps the column sum is not written out.
- The dashboard, the plotting and PDF code, the Telegram alerts, the Airflow DAGs, the synthetic data generator and the Google Trends fetcher are not part of this model.
