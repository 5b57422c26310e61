# Server CPU thermal risk: a Dafny model

This project models the two pieces of deterministic logic of a small
machine-learning pipeline that predicts server CPU temperature.

- **The dashboard's decision layer** (`app.py`). The operator's inputs become
  the 11 columns app.py:58-70 builds, in that order. Three columns are not
  entered: the ambient temperature is fixed at 25, the voltage at 12, and the
  current load is a tenth of the CPU usage. The regressor's prediction, an
  arbitrary real here, is mapped to one of three risk tiers with a fixed
  cooling recommendation each: SAFE below 75, HIGH LOAD from 75 to below 85,
  CRITICAL OVERHEAT RISK from 85 up. It is also mapped to a cooling-demand
  score: five points per degree above 75, truncated toward zero by Python's
  `int()`, clamped to 0..100. The thresholds are parameters; `AppThresholds`
  holds the 75/85 the dashboard uses.
- **The dataset cleaner `clean_data`** (`src/data_preprocessing.py`). A frame
  is a sequence of rows whose cells are `Option<real>`. The cleaner takes four
  steps. It drops the rows without a CPU temperature. It fills missing memory-usage and
  CPU-frequency cells with the mean of that column's present cells, taken
  over the rows left by the first step. It keeps the rows whose temperature lies
  in [20, 100], bounds included. It projects to six columns. `CleanData` is the
  pipeline as a composition of whole-frame functions. `CleanFrame` computes it
  step by step and overwrites the two imputed columns of an array in place, as
  the source does.

Files: `wrappers.dfy` (Option), `feature_vector.dfy` (module `FeatureVector`),
`risk_assessment.dfy` (module `RiskAssessment`), `data_preprocessing.dfy`
(module `DataPreprocessing`).

What the code does, and the model with it:
- the thresholds are 75 and 85;
- the score truncates toward zero; it does not round;
- the cleaner mean-imputes two columns; it drops a row only for a missing or
  out-of-range temperature;
- it removes no duplicate rows;
- it returns an empty frame, not an error, when nothing survives.

## Model

| member | source | states |
|---|---|---|
| FeatureVector.BuildFeatures | app.py:46-70 | the input row has exactly 11 columns, named CPU_Usage … Prev_CPU_Temperature in the order app.py:58-70 lists them |
| FeatureVector.BuildFeaturesByName | app.py:39-70 | looked up by name, each column holds its input; Ambient_Temperature is 25, Voltage is 12 and Current_Load is exactly CPU usage × 0.1 |
| FeatureVector.BuildFeaturesHasOnlySchema | app.py:58-70 | the row has no column outside the 11 names app.py:58-70 lists |
| FeatureVector.SchemaIsDistinct | app.py:58-70 | the 11 column names are pairwise distinct, so a by-name lookup is unambiguous |
| FeatureVector.ParseBuildRoundTrip | app.py:46-70 | the inputs can be read back from the built row |
| FeatureVector.BuildParseRoundTrip | app.py:46-70 | a row with those 11 names, integral counts and consistent derived columns is exactly the row built from the inputs it encodes |
| RiskAssessment.Classify | app.py:88-98 | SAFE iff p < safe, HIGH LOAD iff safe ≤ p < critical, CRITICAL OVERHEAT RISK iff p ≥ safe and p ≥ critical; the text is that tier's fixed recommendation |
| RiskAssessment.TierMonotone | app.py:88-98 | a higher prediction never gives a lower tier |
| RiskAssessment.TierCountsThresholdsReached | app.py:88-98 | with safe ≤ critical, the tier's rank is the number of thresholds the prediction reaches |
| RiskAssessment.AppTierBoundaries | app.py:83-98 | at 75/85 the boundaries are half-open: 74.99 SAFE, 75 HIGH LOAD, 84.99 HIGH LOAD, 85 CRITICAL |
| RiskAssessment.RecommendationDeterminesTier | app.py:88-98 | the three recommendations are different, so the text identifies the tier |
| RiskAssessment.StatusDeterminesTier | app.py:88-97 | the three status labels are different, so the label identifies the tier |
| RiskAssessment.TruncateTowardZero | app.py:102 | `int()` truncates toward zero: below the argument for a non-negative argument, above it for a negative one, by less than 1 |
| RiskAssessment.CoolingScore | app.py:101-102 | the score lies in [0, 100] |
| RiskAssessment.CoolingScoreZeroUpToSafe | app.py:101-102 | the score is 0 for every prediction at or below the safe threshold |
| RiskAssessment.CoolingScoreFullFrom20Above | app.py:101-102 | the score is 100 from 20 degrees above the safe threshold on |
| RiskAssessment.CoolingScoreMonotone | app.py:101-102 | the score is non-decreasing in the prediction |
| RiskAssessment.CoolingScoreTruncates | app.py:101-102 | between safe and safe + 20 the score is ⌊(p − safe) · 5⌋ |
| RiskAssessment.AppCoolingScoreExamples | app.py:101-102 | at 75: p = 80 gives 25, 75.19 gives 0, 94.99 gives 99 (not 100), 60 gives 0, 120 gives 100 |
| RiskAssessment.CoolingScoreAgreesWithTier | app.py:88-102 | SAFE scores 0; HIGH LOAD scores at most, CRITICAL at least, the score at the critical threshold |
| RiskAssessment.AppCoolingScoreByTier | app.py:83-102 | at 75/85: HIGH LOAD scores below 50, CRITICAL at least 50 |
| DataPreprocessing.SelectedIsFilter | src/data_preprocessing.py:9-17 | a row selection keeps exactly the rows that pass, at increasing original positions, in order |
| DataPreprocessing.ColumnMean | src/data_preprocessing.py:12-13 | the mean is missing iff no cell is present, and otherwise times the count of present cells equals their sum |
| DataPreprocessing.ColumnMeanWithin | src/data_preprocessing.py:12-13 | the fill value lies between any bounds of the present cells it averages |
| DataPreprocessing.FillMemoryKeepsFrequency | src/data_preprocessing.py:12-13 | filling memory usage first leaves the present CPU-frequency cells, and so their mean, unchanged |
| DataPreprocessing.CleanData | src/data_preprocessing.py:3-26 | the four steps composed in the source's order; the cleaned frame is never longer than the raw one |
| DataPreprocessing.CleanDataRowwise | src/data_preprocessing.py:3-26 | the output is, in order, each in-range row filled with the two means and projected |
| DataPreprocessing.CleanDataOrigin | src/data_preprocessing.py:3-26 | output row k is the cleaned form of input row `Selected(TargetInRange, rows)[k]` |
| DataPreprocessing.CleanedTargetsInRange | src/data_preprocessing.py:9-17 | every output row has a present CPU temperature with 20 ≤ t ≤ 100 |
| DataPreprocessing.CleanDataKeepsExactlyInOrder | src/data_preprocessing.py:9-17 | row i survives iff its target is present and in [20, 100]; survivors keep their order and target; the output is no longer than the input |
| DataPreprocessing.CleanDataPassesThrough | src/data_preprocessing.py:20-24 | CPU usage, process count and thread count pass through unchanged, missing cells included |
| DataPreprocessing.CleanDataImputes | src/data_preprocessing.py:9-13 | a present memory or frequency cell is unchanged; a missing one becomes the column mean over the rows with a target, outliers included |
| DataPreprocessing.CleanDataFillsAllOrNone | src/data_preprocessing.py:12-13 | if some row with a target has the cell, no output cell of that column is missing; if none has, all stay missing |
| DataPreprocessing.ProjectSelectsRequiredColumns | src/data_preprocessing.py:20-24 | a projected row has the six required columns in order, each holding the raw row's cell of that name; Disk_Usage and GPU_Temperature, present in the raw row, are gone |
| DataPreprocessing.OutlierCountsTowardsMean | src/data_preprocessing.py:9-17 | in a concrete frame, an out-of-range row's cells fill the survivor's missing cells, and a row without a target does not count |
| DataPreprocessing.DropMissingTarget | src/data_preprocessing.py:9 | the loop keeps exactly the rows with a target, in order |
| DataPreprocessing.ComputeMean | src/data_preprocessing.py:12-13 | the loop computes the column mean of the frame |
| DataPreprocessing.FillMissing | src/data_preprocessing.py:12-13 | the column's missing cells are overwritten in place with the mean, and nothing else changes |
| DataPreprocessing.SelectInRange | src/data_preprocessing.py:17-24 | the loop keeps the in-range rows, in order, projected to six columns |
| DataPreprocessing.CleanFrame | src/data_preprocessing.py:3-26 | the step-by-step cleaner computes `CleanData` |

## Left out

- The Streamlit page is not modelled: widgets, sliders, metrics, progress bar and captions (app.py:9-34, 75-80, 86, 89-90, 93-94, 97-98 and 104-107). Slider ranges are UI limits, so `BuildFeatures` takes any input.
- src/train_model.py:13 fits the saved model on five of these columns (CPU_Usage, CPU_Frequency, Memory_Usage, Process_Count, Thread_Count). The source does not settle which schema the loaded artifact expects, and `model.predict` is not modelled.
- Loading the model (`joblib.load`) and `model.predict` are foreign calls. The prediction is a parameter of `Classify` and `CoolingScore`.
- The status label of each tier is the function `Status`; the calls that display it are UI.
- RiskAssessment.CoolingScore: computes in exact reals, so a binary floating-point result of `(p - 75) / 20 * 100` that lands just below an integer is not modelled. A NaN prediction is not modelled either; the source would send it to the CRITICAL branch and `int()` would raise.
- FeatureVector.BuildFeatures: `Current_Load` is exactly a tenth of the CPU usage in reals; the source's float `0.1` is not modelled.
- DataPreprocessing.ColumnMean: the mean is an exact real. pandas sums float64 cells in binary floating point and divides once, so its fill value can differ in the last bits; three cells of 0.1 give 0.10000000000000002, above every present cell. `ColumnMeanWithin` and the sum identity of `ColumnMean` hold for the exact mean only.
- DataPreprocessing.CleanData: pandas index labels are modelled as original positions (`Selected`), not as a separate column. The raw frame is modelled with the eight telemetry columns; an extra CSV column would be dropped by the projection anyway, and a missing required column (a pandas `KeyError`) is not modelled.
- The `__main__` block of src/data_preprocessing.py (CSV read and write; lines 28-40) is I/O.
- Training (src/train_model.py), evaluation (src/evaluate_model.py) and src/predict.py are library calls, persistence and printing; they are not part of this model.
- No modelled source file derives features in batch for training (a periodic ambient temperature, a lag-1 previous temperature); app.py fixes the ambient temperature and takes the previous temperature as an input.
