# Feature pipeline of the time-series trend predictor

This project models the feature-engineering step of a small time-series trend
predictor. The step is `src/features.py`. It turns a table of daily rows
(`price`, `volume`, `sentiment`, ...) into a supervised-learning table in four
stages:

1. `create_lag_features` adds `<col>_lag_<k>`, which is the column shifted down by `k` rows.
2. `create_rolling_features` adds `<col>_roll_mean_<w>` and `<col>_roll_std_<w>`.
   These are statistics over the trailing window of `w` rows. A window may use
   as few as one sample, and an undefined spread becomes 0.
3. `prepare_features` adds the label `target_up`. It is 1 when tomorrow's
   price is higher than today's, and 0 otherwise.
4. `prepare_features` then drops every row that still has an undefined cell.

The modules follow that structure:

- `ColumnNames` (`names.dfy`): the derived column names and Python's decimal
  formatting of the lag or window number. The lemmas show that different
  features never share a name, and that no derived name equals a plain base
  name.
- `Series` (`series.dfy`): a column is a sequence of optional reals, where
  `None` is pandas' NaN. This module models `shift`, the trailing windows,
  the NaN-skipping mean and sample variance, `fillna`, and the label rule,
  together with their cell-level properties.
- `Frames` (`frames.dfy`): a DataFrame's value is the `Table` datatype. It
  has an index, ordered column names and a map from names to columns.
  `Frame` is the mutable object that `copy`, column assignment and `dropna`
  act on. The module also defines `dropna` as `Trim`.
- `Features` (`features.dfy`): the two builders are imperative methods with
  nested loops. They copy the frame and then assign columns one by one, just
  as the source does. Each is proved equal to `Build`, which folds the list
  of `Feature`s in loop order and stops at the first exception.
  `FeatureTable` and `Prepare` specify the whole pipeline for any
  configuration of columns, lags and windows. `PrepareFeatures` fixes the
  source's configuration: columns price, volume and sentiment, lags 1-3 and
  windows 3 and 7.
- `PipelineProperties` (`properties.dfy`): properties of `Build`,
  `FeatureTable` and `Prepare` for every configuration. They cover errors,
  column order, cell values, untouched columns, no lookahead, and which rows
  `dropna` removes.
- `PrepareFeaturesSpec` (`prepare.dfy`): the same properties stated for
  `prepare_features` itself, using its fixed configuration and the literal
  column names.

The number of rows `prepare_features` returns follows the code. A complete
input of `n` rows gives `max(0, n - 3)` rows, and the first three are dropped.
The last row is kept: its `shift(-1)` price is NaN, the comparison
`NaN > price` is False, so its label is 0 rather than NaN and `dropna`
does not remove it.

## Model

| member | source | states |
|---|---|---|
| ColumnNames.IntToString | src/features.py:12 | `str(k)` of a lag or window is non-empty, ends in a digit, has no underscore, and starts with '-' exactly when `k` is negative |
| ColumnNames.IntToStringInjective | src/features.py:12 | different lags (or windows) are written as different strings |
| ColumnNames.NameInjective | src/features.py:12-21 | two features that write the same column name are the same feature: same kind, base column and number |
| ColumnNames.Feature.Name | src/features.py:12-21 | the f-string column name of a feature: base column, then `_lag_`, `_roll_mean_` or `_roll_std_`, then the lag or window in decimal; its properties are `NameInjective` and `NameNotPlain` |
| ColumnNames.NameNotPlain | src/features.py:12-21 | a derived name ends in a digit, so it never equals a base column name that does not |
| Series.Shift | src/features.py:12 | `shift(k)` keeps the length; cell `i` is the input's cell `i-k` when that row exists and NaN otherwise (this also covers `shift(-1)` at line 30) |
| Series.Window | src/features.py:20 | the trailing window at row `i` holds `min(i+1, w)` cells, and they are the input's cells ending at row `i` |
| Series.RollingMean | src/features.py:20 | `rolling(window=w, min_periods=1).mean()`: one cell per row, holding the mean of the defined values among rows `max(0, i-w+1)..i`, or NaN when none is defined; its properties are in the `RollingMean*` and `RollingConstant` rows |
| Series.RollingVariance | src/features.py:21 | the rolling sample variance (divisor `m - 1`) over the same trailing window, NaN with fewer than two defined values |
| Series.RollingStd | src/features.py:21 | the `_roll_std_` column: `RollingVariance` with NaN filled by 0, one cell per row; its properties are in the `RollingStdSpec` and `RollingConstant` rows |
| Series.FillNa | src/features.py:21 | `fillna(v)` leaves no NaN, keeps every defined cell and puts `v` in every NaN cell |
| Series.ObservedComplete | src/features.py:20 | on a column without NaN, the window's observed samples are exactly its values |
| Series.MeanBetween | src/features.py:20 | the mean of a non-empty sample lies between any lower and upper bound of its values |
| Series.SampleVarianceZeroIff | src/features.py:21 | with two or more samples the sample variance is defined and non-negative, and it is zero exactly when all samples are equal |
| Series.RollingMeanDefined | src/features.py:20 | with `min_periods=1` on a complete column, every row's window has `min(i+1, w)` samples, so the rolling mean is defined at every row, including the first `w-1` |
| Series.RollingMeanComplete | src/features.py:20 | on a complete column, the rolling mean at row `i` is defined and lies between any lower and upper bound of the values in its trailing window |
| Series.RollingStdSpec | src/features.py:21 | the `_roll_std_` cell is always defined and non-negative; it is 0 at row 0 and for `w = 1`; with two or more observed samples it is 0 exactly when they are all equal |
| Series.RollingConstant | src/features.py:20-21 | on a constant column, the rolling mean is that constant and the rolling spread is 0 at every row |
| Series.TargetUp | src/features.py:30 | `(price.shift(-1) > price).astype(int)`: one cell per row; its meaning is stated by `TargetUpSpec` |
| Series.TargetUpSpec | src/features.py:30 | the label is always 0 or 1; it is 1 exactly when the next row exists, both prices are defined, and the next price is greater; the last row's label is 0 |
| Series.TargetUpLocal | src/features.py:30 | `target_up[j]` reads only `price[j]`, `price[j+1]` and whether row `j+1` exists: two price columns of any lengths that agree on those give the same label at row `j` |
| Series.TargetUpLastRow | src/features.py:30 | the label of a row depends on whether a later row exists: a one-row column is labelled 0, the same row followed by a higher price is labelled 1 |
| Series.TargetUpComplete | src/features.py:30 | on a complete price column, the label at row `i` is 1 exactly when `price[i+1] > price[i]`, and 0 otherwise (including at the last row) |
| Series.TargetUpSuffix | src/features.py:30-31 | the same statement for the label column after its first `m` rows are dropped, with row `j` read as input row `j+m` |
| Series.TargetUpNonRising | src/features.py:30 | a price series that never rises gets label 0 at every row |
| Frames.WithColumn | src/features.py:12 | assigning a column keeps the frame invariant and the rows; a new name is appended to the column order, and an existing name keeps its position |
| Frames.AppendNewFresh | src/features.py:12 | assigning distinct new names one by one appends them in order |
| Frames.AppendNewConcat | src/features.py:12-21 | the column order after two batches of assignments is the second batch applied to the result of the first |
| Frames.CompleteRows | src/features.py:31 | `dropna` selects exactly the rows with a value in every column, in increasing order |
| Frames.Trim | src/features.py:31 | `dropna` keeps the frame invariant and the column names and order |
| Frames.CompleteRowsFrom | src/features.py:31 | when exactly the rows from position `m` on are complete, those are the rows `dropna` keeps |
| Frames.TrimDropsPrefix | src/features.py:31 | in that case `dropna` yields the suffix from row `m` of the index and of every column |
| Frames.Frame.Copy | src/features.py:9 | `df.copy()` is a new object with the same contents |
| Frames.Frame.Assign | src/features.py:12 | `df[name] = values` changes only this frame, and its new value is the column assignment `WithColumn` |
| Frames.Frame.DropNa | src/features.py:31 | `df.dropna()` returns a new frame holding `Trim` of the old one |
| Features.LagsOf | src/features.py:11-12 | the features the inner lag loop writes for one column: one per lag |
| Features.LagFeatures | src/features.py:10-12 | the features `create_lag_features` writes, columns outer and lags inner: `len(cols) * len(lags)` of them; `LagFeaturesMembers` says which |
| Features.RollsOf | src/features.py:19-21 | the features the inner window loop writes for one column: a mean and then a std per window |
| Features.RollingFeatures | src/features.py:18-21 | the features `create_rolling_features` writes, columns outer and windows inner: `2 * len(cols) * len(windows)` of them; `RollingFeaturesMembers` says which |
| Features.Check | src/features.py:12-21 | the exception one assignment raises: none exactly when the base column exists and the window (if any) is at least 1; `KeyError` for a missing column takes precedence over `ValueError` for a window below 1 |
| Features.Rule | src/features.py:12-21 | the right-hand side of one assignment: `shift(k)`, the rolling mean or the filled rolling spread of the base column, with one cell per row |
| Features.Apply | src/features.py:12-21 | one assignment `df[name] = rule(df[col])` on a frame where it does not raise; it keeps the frame invariant and the rows |
| Features.FirstFailure | src/features.py:10-21 | the first exception the loops would raise; it is absent exactly when every feature's base column exists and every window is at least 1 |
| Features.Build | src/features.py:10-21 | a run of the builder loops that does not raise keeps the frame invariant and the rows |
| Features.Prepare | src/features.py:25-32 | `prepare_features` for a configuration: the pipeline frame with `dropna` applied, or the first exception; its result satisfies the frame invariant |
| Features.FeatureTable | src/features.py:25-30 | the pipeline before `dropna` keeps the frame invariant and the rows |
| Features.CreateLagFeatures | src/features.py:8-13 | leaves `df` unchanged and returns a fresh frame; its value, or the exception raised, is `Build` of the lag features in loop order (columns outer, lags inner) |
| Features.CreateRollingFeatures | src/features.py:16-22 | the same for the rolling builder: for each column and window, the mean column and then the std column, or `KeyError`/`ValueError` |
| Features.RunPipeline | src/features.py:25-32 | the pipeline for any configuration leaves `df` unchanged; its result or exception is `Prepare` of the input |
| Features.PrepareFeatures | src/features.py:25-32 | `prepare_features` is `RunPipeline` with columns price, volume and sentiment, lags 1-3 and windows 3 and 7 |
| PipelineProperties.BuildAppend | src/features.py:10-21 | running two feature lists one after the other is running the first and then the second on its result, and stops at the first error |
| PipelineProperties.BuildErrors | src/features.py:10-21 | a builder raises exactly when some feature's check fails on the input frame, and it raises the first such error in loop order |
| PipelineProperties.FirstFailureSame | src/features.py:10-21 | frames that agree on every check give the same first error |
| PipelineProperties.BuildNames | src/features.py:10-21 | a builder that does not raise keeps the rows, and its column order is the input's with each new name appended on first write |
| PipelineProperties.BuildKeys | src/features.py:10-21 | the output columns are exactly the input's plus the names written |
| PipelineProperties.BuildValues | src/features.py:10-21 | every written column holds its rule (shift, rolling mean or rolling spread) applied to the base column of the INPUT frame, even with later writes in the same run |
| PipelineProperties.BuildKeeps | src/features.py:10-21 | every input column the builder does not write is unchanged |
| PipelineProperties.LagsOfMembers | src/features.py:11-12 | the inner lag loop for `col` visits exactly the lag features of `col` with lags from the list |
| PipelineProperties.LagFeaturesMembers | src/features.py:10-12 | the lag builder visits exactly the lag features whose column and lag are in its lists |
| PipelineProperties.RollsOfMembers | src/features.py:19-21 | the inner window loop for `col` visits exactly the mean and std features of `col` with windows from the list |
| PipelineProperties.RollingFeaturesMembers | src/features.py:18-21 | the rolling builder visits exactly the mean and std features whose column and window are in its lists |
| PipelineProperties.LagsOfDistinct | src/features.py:11-12 | distinct lags give distinct lag features for one column |
| PipelineProperties.LagFeaturesDistinct | src/features.py:10-12 | distinct columns and lags give no repeated lag feature |
| PipelineProperties.RollsOfDistinct | src/features.py:19-21 | distinct windows give distinct window features for one column |
| PipelineProperties.RollingFeaturesDistinct | src/features.py:18-21 | distinct columns and windows give no repeated window feature |
| PipelineProperties.NamesDistinct | src/features.py:12-21 | distinct features write distinct column names |
| PipelineProperties.PlannedNamesDistinct | src/features.py:26-30 | with no repeated column, lag or window, the pipeline writes every derived name and `target_up` exactly once |
| PipelineProperties.PlannedDistinct | src/features.py:26-28 | with no repeated column, lag or window, no feature is planned twice: lag and window features never coincide |
| PipelineProperties.LabelNotDerived | src/features.py:30 | no feature name is `target_up` |
| PipelineProperties.FirstFailureAppend | src/features.py:27-28 | the first error of two lists is the first list's, else the second's |
| PipelineProperties.WritesAppend | src/features.py:27-28 | the pipeline writes a name exactly when either builder does |
| PipelineProperties.PlainNotWritten | src/features.py:12-21 | no builder writes a base column whose name does not end in a digit, such as `price` |
| PipelineProperties.BuildKeepsChecks | src/features.py:27-28 | the lag builder's output gives the rolling builder's checks the same outcome as the input would |
| PipelineProperties.Stages | src/features.py:27-28 | when no check fails, the lag builder succeeds on the input and the rolling builder on its output |
| PipelineProperties.FeatureTableOk | src/features.py:27-30 | the label is computed from the input's `price`, which the builders leave alone |
| PipelineProperties.FeatureTableErrors | src/features.py:25-31 | `prepare_features` raises exactly when a builder check fails on the input or `price` is missing; it raises the first failing check's error, then `KeyError('price')` |
| PipelineProperties.FeatureNamesAppend | src/features.py:27-28 | the names of two lists are the first list's names followed by the second's |
| PipelineProperties.FeatureTableShape | src/features.py:27-30 | before `dropna` the frame has the input's rows; its columns are the input's, then each planned feature's, then `target_up`, and its keys are exactly those |
| PipelineProperties.LagValue | src/features.py:27-28 | a lag column survives the rolling builder unchanged |
| PipelineProperties.RollValue | src/features.py:27-28 | a rolling column reads the input's base column, which the lag builder does not touch |
| PipelineProperties.FeatureTableValues | src/features.py:27-30 | before `dropna`, each planned feature column is its rule applied to the input's base column, and `target_up` comes from the input's `price` |
| PipelineProperties.FeatureTableSpec | src/features.py:27-30 | before `dropna`, the frame has the whole shape described by `Output`: rows, column order, keys, values, label and untouched columns |
| PipelineProperties.FeatureTableKeeps | src/features.py:27-30 | every input column the pipeline does not write is unchanged before `dropna` |
| PipelineProperties.PrepareColumns | src/features.py:26-31 | when no input column clashes with a derived name or the label, the output columns are the input's, then the derived names in loop order, then `target_up` |
| PipelineProperties.RuleCausal | src/features.py:12-21 | with non-negative lags, a lag or rolling cell at row `i` depends only on base values at rows `<= i`: two base columns of any lengths above `i` that agree there give the same cell |
| PipelineProperties.KeptCellCausal | src/features.py:25-30 | an untouched column's cells up to row `i` agree for two inputs that agree up to row `i`, whatever their row counts |
| PipelineProperties.DerivedCellCausal | src/features.py:12-21 | a derived column's cells up to row `i` agree for two inputs that agree up to row `i`, whatever their row counts |
| PipelineProperties.CellCausal | src/features.py:12-30 | every non-label cell at row `j <= i` of the pipeline frame agrees for two inputs that agree up to row `i`, whatever rows follow and however many |
| PipelineProperties.LagsNonNegative | src/features.py:27 | the lag features of a configuration with non-negative lags have non-negative lags |
| PipelineProperties.NoLookahead | src/features.py:27-30 | before `dropna`, two inputs with the same columns that agree on rows `0..i`, of any row counts above `i`, give frames that agree up to row `i` outside `target_up`, and on every column up to row `i-1` |
| PipelineProperties.OutputSameKeys | src/features.py:27-30 | inputs with the same columns and rows give pipeline frames with the same columns and column lengths |
| PipelineProperties.OutputCausal | src/features.py:27-30 | every frame with the pipeline's shape agrees up to row `i` outside the label when the inputs agree up to row `i`, whatever their row counts |
| PipelineProperties.OutputNoLookahead | src/features.py:27-30 | the same, and including the label up to row `i-1` |
| PipelineProperties.LabelCausal | src/features.py:30 | when two pipeline frames agree up to row `i` outside the label, and their prices, of any lengths above `i`, agree on rows `0..i`, they agree on every column, the label included, up to row `i-1` |
| PipelineProperties.RowCompleteAfter | src/features.py:27-31 | on a complete input, every row from the largest lag on has a value in every column |
| PipelineProperties.DerivedCellDefined | src/features.py:12-21 | on a complete input, a derived cell at a row at or after the largest lag is defined |
| PipelineProperties.RowIncompleteBefore | src/features.py:12-31 | every row before the largest lag has a NaN in that lag's column |
| PipelineProperties.CompleteFrom | src/features.py:27-31 | on a complete input, the rows without NaN before `dropna` are exactly those from the largest lag on |
| PipelineProperties.PrepareDropsWarmup | src/features.py:27-31 | on a complete input, `dropna` removes exactly the first `min(n, max lag)` rows and keeps the rest of every column in order, including the last row |
| PipelineProperties.PreparedFeature | src/features.py:27-31 | after `dropna`, each feature column is its rule on the input's base column, minus the dropped prefix |
| PipelineProperties.PreparedLabel | src/features.py:30-31 | after `dropna`, the label column is the label of the input's prices, minus the dropped prefix |
| PipelineProperties.PreparedLagCell | src/features.py:12-31 | output row `j` of `<c>_lag_<k>` holds input row `j + m - k` of `c`, where `m` is the largest lag |
| PipelineProperties.PreparedLabelCell | src/features.py:30-31 | output row `j`'s label is 0 or 1, and it is 1 exactly when input row `j+m+1` exists and its price exceeds row `j+m`'s |
| PipelineProperties.PreparedKept | src/features.py:25-31 | an input column the pipeline does not write is returned minus the dropped prefix |
| PipelineProperties.FirstMissing | src/features.py:10-12 | the first listed column missing from the frame, if any, as a `KeyError` |
| PipelineProperties.LagsOfFailure | src/features.py:11-12 | the lag loop for a column with at least one lag fails exactly when that column is missing |
| PipelineProperties.LagFailure | src/features.py:10-12 | with at least one lag, the lag builder's first error is the first missing column |
| PipelineProperties.PlannedFailure | src/features.py:26-28 | with at least one lag and all windows at least 1, the pipeline's first error is the first missing base column |
| PrepareFeaturesSpec.DefaultConfig | src/features.py:26-28 | the fixed configuration has plain column names, non-empty columns, and largest lag 3 |
| PrepareFeaturesSpec.DefaultFeatures | src/features.py:26-28 | the 9 lag features and 12 window features of `prepare_features`, in loop order |
| PrepareFeaturesSpec.DefaultLagNames | src/features.py:26-27 | the lag columns `price_lag_1` to `sentiment_lag_3`, in order |
| PrepareFeaturesSpec.DefaultRollNames | src/features.py:26-28 | the rolling columns `price_roll_mean_3` to `sentiment_roll_std_7`, in order |
| PrepareFeaturesSpec.DefaultPlannedNames | src/features.py:26-28 | the 21 derived names, lag columns first |
| PrepareFeaturesSpec.DefaultDistinct | src/features.py:26-28 | the fixed columns, lags and windows have no repeats |
| PrepareFeaturesSpec.DefaultChecksPass | src/features.py:26-28 | with price, volume and sentiment present, no builder check fails |
| PrepareFeaturesSpec.PrepareFeaturesErrors | src/features.py:25-32 | `prepare_features` succeeds exactly when price, volume and sentiment are all present; otherwise it raises `KeyError` for the first one missing, in that order |
| PrepareFeaturesSpec.PrepareFeaturesRows | src/features.py:27-31 | on a complete input of `n` rows, the output index is the input's from row 3 on: `n - 3` rows, or none when `n < 3` |
| PrepareFeaturesSpec.PrepareFeaturesLag | src/features.py:27-31 | each `<c>_lag_<k>` column is `shift(k)` of the input column, minus the first three rows |
| PrepareFeaturesSpec.PrepareFeaturesRoll | src/features.py:28-31 | each rolling mean and spread column for windows 3 and 7 is the rolling statistic of the input column, minus the first three rows |
| PrepareFeaturesSpec.PrepareFeaturesLabel | src/features.py:30-31 | output row `j` is labelled 1 exactly when input row `j+4` exists and has a higher price than row `j+3`, and 0 otherwise |
| PrepareFeaturesSpec.PrepareFeaturesKeeps | src/features.py:25-31 | any other input column (such as `promotion`) is returned minus the first three rows |
| PrepareFeaturesSpec.PrepareFeaturesColumns | src/features.py:26-31 | for an input that has none of the 21 derived columns and no `target_up`, the output columns are the input's, then the 21 derived names in loop order, then `target_up` |

## Left out

- Series.RollingStd: the `_roll_std_` column holds the sample variance, not its square root. The reals have no square root that can be computed, so the model keeps the square. The stated properties (defined, non-negative, zero exactly when the window is constant) are the same for both.
- Floating point: values are exact reals. IEEE rounding and overflow are not modelled.
- NaN inside an input column is modelled. `shift`, the NaN-skipping rolling statistics, the label comparison and `dropna` all handle it. The lemmas about which rows `dropna` removes assume a complete input (`AllComplete`), because with missing values the surviving rows depend on where the gaps fall.
- Exceptions: pandas' `KeyError` for a missing column and its `ValueError` for a window below 1 are the `Err` results `MissingColumn` and `InvalidWindow`. The exception messages are not modelled.
- Index labels (dates) are integers. The builders only carry them along, and `dropna` keeps those of the surviving rows.
- Repeated column labels, which pandas allows, are not modelled. `WellFormed` requires distinct column names, and the frames the pipeline receives are built from dicts, which cannot repeat a key.
- Pandas column dtypes are not modelled. The label's `astype(int)` is the real 1 or 0.
- The lemmas that describe builder outputs require base columns whose names do not end in a digit (`PlainBases`, `PlainConfig`). Otherwise a base column could be overwritten by an earlier feature in the same loop. The operations themselves have no such requirement, and the source's columns satisfy it.
- The `__main__` block (src/features.py:35-39) prints a demo. It is I/O and is not modelled.
- Data generation and loading, the model training and holdout split, prediction, the HTTP API and the scripts live in other files. They consume the feature table and are not part of this model.
