# Drift-risk pipeline: a Dafny model

This project models the three stages of a drift-risk pipeline. Each stage is a top-level Python script
that turns infrastructure drift records into a CI gate decision:

1. **Feature extraction** (`scripts/extract_drift_features.py`) reads the drift JSON. It writes the
   feature table: one synthetic "safe" baseline row when the input is absent, malformed or empty, and
   otherwise one row per change entry, in input order.
2. **Training** (`scripts/train_drift_model.py`) picks its dataset. It uses the drift history when that
   exists and has a `risk_label` column, and an embedded four-example dataset otherwise. It then
   projects three feature columns in a fixed order, maps the label `"high"` to 1 and every other label
   to 0, and fits a classifier.
3. **Inference** (`scripts/infer_drift_risk.py`) exits 0 when the model or the feature table is
   missing. Otherwise it predicts one class per row, adds a `predicted_risk` column, and exits 1
   exactly when some prediction is 1.

Files:

- `results.dfy`: the `Option` and `Result` types. They stand in for exceptions and early exits.
- `frames.dfy`: the pandas operations the scripts use. Tables are built from columns or records,
  columns are selected by name (a missing name raises `KeyError`), and a column is assigned.
- `extraction.dfy`: stage 1. `Extract` is the script, a method whose loop appends one row per entry.
  `Extraction` is the function that specifies it.
- `training.dfy`: stage 2, written as pure functions. The classifier's `fit` is a function parameter.
- `inference.dfy`: stage 3, written as pure functions. The model's `predict` is a function parameter
  that returns `None` when it raises.
- `pipeline.dfy`: lemmas about how the stages' column names fit together as written.

Several behaviours one might expect of such a pipeline are not in these scripts, and the model follows the scripts:

- Each extracted row counts 1 resource, not the number of actions.
- Only `"replace"` makes a row critical; `"delete"` does not.
- Inference reads `open_ssh`, `public_access` and `tag_changed`, not the training columns.
- Inference has no fallback heuristic: a missing model ends the run with status 0.
- Predictions stay integers; they are not mapped to `low`/`high`.

## Model

| member | source | states |
|---|---|---|
| `FeatureExtraction.Extract` | scripts/extract_drift_features.py:31-66 | The script produces exactly `Extraction(input)` and exits with status 0 on every path; the loop keeps row j equal to the row of entry j |
| `FeatureExtraction.Extraction` | scripts/extract_drift_features.py:21-66 | The table is never empty. Absent, malformed or empty input gives exactly the one baseline row `(0, 0, 1, "safe")`. Otherwise there are N rows for N entries, and row i is the row of entry i |
| `FeatureExtraction.RowsOf` | scripts/extract_drift_features.py:53-64 | After visiting entries in order, the appended rows are as many as the entries and row i is the row of entry i |
| `FeatureExtraction.Changes` | scripts/extract_drift_features.py:55 | The actions of an entry are its "change" list, or empty when the key is absent |
| `FeatureExtraction.RowOf` | scripts/extract_drift_features.py:55-64 | Every extracted row has 1 resource and 1 hour. It is critical iff "replace" is among the actions, and labelled "high" iff critical, "low" otherwise |
| `FeatureExtraction.Degenerate` | scripts/extract_drift_features.py:32-50 | The baseline is chosen for every input except a parsed, non-empty list of entries: an absent file, unparseable content, or falsy content |
| `FeatureExtraction.MissingChangeIsNoAction` | scripts/extract_drift_features.py:55 | An entry without a "change" key is read as an empty action list, giving `(1, 0, 1, "low")` |
| `FeatureExtraction.OnlyReplaceIsCritical` | scripts/extract_drift_features.py:56-61 | Actions without "replace" ("update", "delete" or any other) are not critical; adding "replace" makes the row `(1, 1, 1, "high")` |
| `FeatureExtraction.RowDependsOnItsEntryOnly` | scripts/extract_drift_features.py:54-64 | Two entry lists that agree at position i give the same row i |
| `FeatureExtraction.RowsOfAppend` | scripts/extract_drift_features.py:53-64 | The rows of a concatenation of entry lists are the rows of the first list followed by those of the second |
| `FeatureExtraction.BaselineOnlyWithoutDrift` | scripts/extract_drift_features.py:21-27 | The baseline row appears in the table iff the input is absent, malformed or empty; real entries never yield it |
| `FeatureExtraction.Record` | scripts/extract_drift_features.py:59-64 | A written row has exactly the four header columns as keys |
| `FeatureExtraction.ToFrame` | scripts/extract_drift_features.py:66-67 | The written table has the header `num_resources_changed, critical_services_affected, drift_duration_hours, drift_label`, one record per row, and each cell holds that row's field |
| `Frames.FromColumns` | scripts/train_drift_model.py:13-18 | A table built from named columns of equal height is valid, keeps the names in order, and cell (i, name j) is element i of column j |
| `Frames.Select` | scripts/train_drift_model.py:33 | Selecting columns succeeds iff every name is a column; the result has one row per table row, in the order of the names given |
| `Frames.Column` | scripts/train_drift_model.py:34 | Selecting one column succeeds iff it exists and yields that column's cells in row order |
| `Frames.WithColumn` | scripts/infer_drift_risk.py:25 | Assigning a column keeps the table valid and keeps the row count. Row i gets `values[i]` in that column, and every other cell is unchanged. A new column goes last; an existing one keeps its place |
| `DriftTraining.Dataset` | scripts/train_drift_model.py:11-28 | A history with a `risk_label` column is used unchanged. An absent or unlabelled history is replaced by the embedded dataset. The result always has a label column |
| `DriftTraining.SampleDataset` | scripts/train_drift_model.py:13-18 | The dataset generated without a history is a valid table of 4 rows with the columns `num_resources_changed, critical_services_affected, drift_duration_hours, risk_label` |
| `DriftTraining.FallbackDataset` | scripts/train_drift_model.py:23-28 | The dataset substituted for an unlabelled history is a valid table of 4 rows with the same four columns |
| `DriftTraining.FallbackIsSample` | scripts/train_drift_model.py:13-28 | The two literal copies of the embedded dataset are the same table |
| `DriftTraining.Binarise` | scripts/train_drift_model.py:34 | The label vector has one entry per label. An entry is 1 iff the label is the text "high", and 0 otherwise, including "safe", "medium", numbers and missing values |
| `DriftTraining.TrainingData` | scripts/train_drift_model.py:32-34 | Succeeds iff the chosen dataset has all three feature columns. X has one row per example with the columns in the fixed order. y has the same length; `y[i] = 1` iff `risk_label[i]` is "high", and `y[i] = 0` iff it is anything else |
| `DriftTraining.Train` | scripts/train_drift_model.py:32-37 | A missing feature column gives `MissingFeatureColumn`. A fit that raises gives `FitFailed`. Otherwise the model is what fit returns for exactly that X and y |
| `DriftTraining.SampleLabels` | scripts/train_drift_model.py:17 | The embedded labels are low, high, high, low |
| `DriftTraining.SampleFeatures` | scripts/train_drift_model.py:14-16 | The embedded feature matrix is (1,0,1), (3,1,5), (10,1,12), (2,0,2) |
| `DriftTraining.BootstrapTrainingData` | scripts/train_drift_model.py:11-34 | Without a history or without a label column, the classifier receives the four embedded examples with targets 0, 1, 1, 0, two of each class |
| `DriftTraining.UnlabelledHistoryIsIgnored` | scripts/train_drift_model.py:21-28 | An unlabelled history trains on the same data as an absent one |
| `DriftTraining.MissingFeatureColumnFails` | scripts/train_drift_model.py:21-33 | A labelled history that lacks a feature column is not replaced, and training fails with an error |
| `DriftInference.CastInt` | scripts/infer_drift_risk.py:22 | Integers convert to themselves and booleans to 1/0; text and missing values cannot be converted |
| `DriftInference.CastMatrix` | scripts/infer_drift_risk.py:22 | The conversion succeeds iff every cell converts, and keeps the matrix's shape and each cell's value |
| `DriftInference.ModelInput` | scripts/infer_drift_risk.py:22 | A missing input column is `MissingInputColumn`, and an unconvertible cell is `NotAnInteger`. It succeeds iff the three columns exist and every cell converts; the result then has one integer row per table row, holding `open_ssh, public_access, tag_changed` in that order |
| `DriftInference.AnyHigh` | scripts/infer_drift_risk.py:28 | True iff some prediction equals 1 |
| `DriftInference.ExitCode` | scripts/infer_drift_risk.py:28-33 | The status is 0 or 1, and it is 1 iff some prediction equals 1; an all-zero vector gives 0 |
| `DriftInference.Infer` | scripts/infer_drift_risk.py:9-33 | A missing model gives status 0, and so does a present model with missing features. With both present, each failure gives its own error: building the input, predict raising, a prediction count that differs from the row count, or a missing `address`/`type` column. A run that passes all of these succeeds with status `ExitCode(pred)`, so it is 1 iff some prediction equals 1 |
| `DriftInference.MissingModelIgnoresFeatures` | scripts/infer_drift_risk.py:9-11 | With the model missing, the outcome does not depend on the feature table, since the model check comes first |
| `DriftInference.PredictionsAnnotateRows` | scripts/infer_drift_risk.py:21-33 | A successful run adds one `predicted_risk` entry per row, equal to the model's output for that row. Other cells and the existing column order are unchanged, and the status is 1 iff some prediction is 1 |
| `DriftInference.MissingInputColumnFails` | scripts/infer_drift_risk.py:22 | A feature table lacking an input column stops with an error instead of being defaulted |
| `DriftInference.MissingShownColumnFails` | scripts/infer_drift_risk.py:26 | A table without `address` or `type` fails after prediction, when the logged columns are selected |
| `Pipeline.ExtractedTableFailsInference` | scripts/infer_drift_risk.py:22 | With a model present, inference on any table written by extraction, the baseline included, fails for lack of the input columns |
| `Pipeline.ExtractedTableAsHistoryIsReplaced` | scripts/train_drift_model.py:21 | A table written by extraction, used as history, has no `risk_label` column, so training replaces it with the embedded dataset |

## Left out

- Reading the input files (JSON parsing, `pd.read_csv`, `joblib.load`) is not modelled. Their results
  are inputs: `Absent | Malformed | Parsed(items)`, `History`, and `Option<Frame>`. A CSV that
  `read_csv` cannot parse, and a model file `joblib.load` cannot load, are not modelled.
- A JSON document that parses to something other than a list of objects is not modelled. For example,
  a top-level object makes the loop iterate over its keys and fail on `.get`. Entries are records with
  an optional list of action strings.
- A "change" value that is not a list is not modelled:
  - a string, where `in` tests for a substring, so `"replaced"` would count as critical;
  - `null`, where `"replace" in None` raises TypeError and the script fails;
  - an object, where `in` tests its keys, so only a `"replace"` key would make the entry critical;
  - a number or boolean, where `in` raises TypeError.
- Writing files (`to_csv`, `joblib.dump`, `os.makedirs`), the command-line path choice, the fixed
  paths and all `print` output are left out. Extraction returns its rows; `ToFrame` gives the table it
  writes. The cross-stage lemmas assume that writing and reading the CSV gives back the same table.
- The local `is_update` in extraction is computed and never used, so it has no counterpart.
- The classifier's fit (random forest, 50 trees, seed 42) is a function parameter. So is `predict`.
  Each returns `None` when it raises; for example, sklearn rejects a table with no rows, and fit
  rejects text in a feature column. Which inputs make them raise is left to the parameter.
- Errors are `Err` values. The process exit status that an uncaught Python exception produces is not
  modelled.
- `CastInt`: the conversion covers integers, booleans, text and missing values only. Floats, which
  `astype(int)` truncates, and text made of digits, which it would convert, are not modelled.
- A fallback risk score when no model exists, `delete` or resource-type criticality, and counting the
  actions of an entry are not done by these scripts, so none is modelled.
