/** Stage 2, model training: picks the drift history or the embedded
    bootstrap dataset, projects the three feature columns in a fixed order,
    binarises the label ("high" is 1, anything else 0) and hands both to the
    classifier's fit, which is a parameter here. */
module DriftTraining {
  import opened Results
  import opened Frames

  const RiskLabel := "risk_label"

  /** The classifier's input columns, in the order they are fed to it. */
  const FeatureColumns: seq<string> :=
    ["num_resources_changed", "critical_services_affected", "drift_duration_hours"]

  /** The history file: absent, or present and read into a table. */
  datatype History = NoHistory | History(table: Frame)

  /** Why training stops: the chosen dataset lacks a feature column, so
      `df[feature_cols]` raises KeyError; or the classifier's fit raises (for
      instance on a history with no rows or with text in a feature column). */
  datatype TrainError = MissingFeatureColumn | FitFailed

  /** The columns of both embedded datasets, in the order they are written. */
  const DatasetColumns: seq<string> := FeatureColumns + [RiskLabel]

  /** The dataset generated when no history file exists. */
  function SampleDataset(): (df: Frame)
    ensures Valid(df) && df.columns == DatasetColumns && |df.rows| == 4
  {
    FromColumns(DatasetColumns,
      [[Int(1), Int(3), Int(10), Int(2)], [Int(0), Int(1), Int(1), Int(0)], [Int(1), Int(5), Int(12), Int(2)],
       [Text("low"), Text("high"), Text("high"), Text("low")]],
      4)
  }

  /** The dataset substituted when the history has no label column; written
      out a second time in the script. */
  function FallbackDataset(): (df: Frame)
    ensures Valid(df) && df.columns == DatasetColumns && |df.rows| == 4
  {
    FromColumns(DatasetColumns,
      [[Int(1), Int(3), Int(10), Int(2)], [Int(0), Int(1), Int(1), Int(0)], [Int(1), Int(5), Int(12), Int(2)],
       [Text("low"), Text("high"), Text("high"), Text("low")]],
      4)
  }

  /** Both copies of the embedded dataset are the same table. */
  lemma FallbackIsSample()
    ensures FallbackDataset() == SampleDataset()
  {
  }

  /** The dataset the model is trained on: the history when it exists and has
      a label column, the embedded dataset otherwise. Only the label column is
      checked. */
  function Dataset(h: History): (df: Frame)
    requires h.History? ==> Valid(h.table)
    ensures Valid(df) && RiskLabel in df.columns
    ensures h.History? && RiskLabel in h.table.columns ==> df == h.table
    ensures h.NoHistory? || RiskLabel !in h.table.columns ==> df == SampleDataset()
  {
    if h.NoHistory? then
      SampleDataset()
    else if RiskLabel !in h.table.columns then
      FallbackDataset()
    else
      h.table
  }

  /** `(labels == "high").astype(int)`: 1 for the text "high", 0 for every
      other cell, "safe", "medium", numbers and missing values included. */
  function Binarise(labels: seq<Cell>): (y: seq<int>)
    ensures |y| == |labels|
    ensures forall i :: 0 <= i < |labels| ==> (y[i] == 1 <==> labels[i] == Text("high"))
    ensures forall i :: 0 <= i < |labels| ==> (y[i] == 0 <==> labels[i] != Text("high"))
  {
    seq(|labels|, i requires 0 <= i < |labels| => if labels[i] == Text("high") then 1 else 0)
  }

  /** The feature matrix and label vector given to fit, or KeyError when the
      chosen dataset lacks a feature column. */
  function TrainingData(h: History): (r: Result<(seq<seq<Cell>>, seq<int>), TrainError>)
    requires h.History? ==> Valid(h.table)
    ensures r.Ok? <==> HasColumns(Dataset(h), FeatureColumns)
    ensures r.Ok? ==> |r.value.0| == |r.value.1| == |Dataset(h).rows|
    ensures r.Ok? ==> forall i :: 0 <= i < |Dataset(h).rows| ==>
              && |r.value.0[i]| == |FeatureColumns|
              && forall j :: 0 <= j < |FeatureColumns| ==>
                   r.value.0[i][j] == Dataset(h).rows[i][FeatureColumns[j]]
    ensures r.Ok? ==> forall i :: 0 <= i < |Dataset(h).rows| ==>
              && (r.value.1[i] == 1 <==> Dataset(h).rows[i][RiskLabel] == Text("high"))
              && (r.value.1[i] == 0 <==> Dataset(h).rows[i][RiskLabel] != Text("high"))
  {
    var df := Dataset(h);
    match Select(df, FeatureColumns)
    case None => Err(MissingFeatureColumn)
    case Some(x) => Ok((x, Binarise(Column(df, RiskLabel).value)))
  }

  /** The training script with the classifier's fit as a parameter (`None`
      when it raises): the model is `fit` applied to the training data, and
      nothing is fitted when the data cannot be built. */
  function Train<M>(h: History, fit: (seq<seq<Cell>>, seq<int>) -> Option<M>): (r: Result<M, TrainError>)
    requires h.History? ==> Valid(h.table)
    ensures r == Err(MissingFeatureColumn) <==> !HasColumns(Dataset(h), FeatureColumns)
    ensures r == Err(FitFailed) <==>
              HasColumns(Dataset(h), FeatureColumns) &&
              fit(TrainingData(h).value.0, TrainingData(h).value.1).None?
    ensures r.Ok? ==> Some(r.value) == fit(TrainingData(h).value.0, TrainingData(h).value.1)
  {
    match TrainingData(h)
    case Err(e) => Err(e)
    case Ok((x, y)) =>
      match fit(x, y)
      case None => Err(FitFailed)
      case Some(m) => Ok(m)
  }

  /** The label column of the embedded dataset. */
  lemma SampleLabels()
    ensures Column(SampleDataset(), RiskLabel) == Some([Text("low"), Text("high"), Text("high"), Text("low")])
  {
    var df := SampleDataset();
    assert RiskLabel == DatasetColumns[3];
    var labels := Column(df, RiskLabel).value;
    forall i | 0 <= i < 4 ensures labels[i] == [Text("low"), Text("high"), Text("high"), Text("low")][i] {
      assert df.rows[i][DatasetColumns[3]] == [Text("low"), Text("high"), Text("high"), Text("low")][i];
    }
    assert |labels| == 4;
    assert labels == [Text("low"), Text("high"), Text("high"), Text("low")];
  }

  /** The feature cells of the embedded dataset, one row per example. */
  const SampleMatrix: seq<seq<Cell>> :=
    [[Int(1), Int(0), Int(1)], [Int(3), Int(1), Int(5)], [Int(10), Int(1), Int(12)], [Int(2), Int(0), Int(2)]]

  /** Cell (i, j) of the embedded dataset's feature columns. */
  lemma SampleCell(i: nat, j: nat)
    requires i < 4 && j < 3
    ensures FeatureColumns[j] in SampleDataset().rows[i]
    ensures SampleDataset().rows[i][FeatureColumns[j]] == SampleMatrix[i][j]
  {
  }

  /** The feature matrix of the embedded dataset. */
  lemma SampleFeatures()
    ensures Select(SampleDataset(), FeatureColumns) == Some(SampleMatrix)
  {
    var df := SampleDataset();
    assert HasColumns(df, FeatureColumns) by {
      assert forall j :: 0 <= j < 3 ==> FeatureColumns[j] == DatasetColumns[j];
    }
    var x := Select(df, FeatureColumns).value;
    forall i | 0 <= i < 4 ensures x[i] == SampleMatrix[i] {
      assert |x[i]| == |SampleMatrix[i]| == 3;
      forall j | 0 <= j < 3 ensures x[i][j] == SampleMatrix[i][j] {
        SampleCell(i, j);
      }
    }
    assert |x| == 4;
    assert x == SampleMatrix;
  }

  /** Without a usable history the classifier sees the four embedded
      examples (1,0,1), (3,1,5), (10,1,12), (2,0,2) with targets 0, 1, 1, 0:
      two examples of each class. */
  lemma BootstrapTrainingData(h: History)
    requires h.History? ==> Valid(h.table)
    requires h.NoHistory? || RiskLabel !in h.table.columns
    ensures TrainingData(h) == Ok((SampleMatrix, [0, 1, 1, 0]))
  {
    SampleLabels();
    SampleFeatures();
    var y := Binarise([Text("low"), Text("high"), Text("high"), Text("low")]);
    assert y == [0, 1, 1, 0];
  }

  /** A history without a label column is replaced exactly as an absent one
      is, whatever else it contains. */
  lemma UnlabelledHistoryIsIgnored(h: History)
    requires h.History? && Valid(h.table) && RiskLabel !in h.table.columns
    ensures TrainingData(h) == TrainingData(NoHistory)
  {
  }

  /** A labelled history that lacks any feature column is not replaced by the
      embedded dataset: training fails. */
  lemma MissingFeatureColumnFails(t: Frame, c: nat)
    requires Valid(t) && RiskLabel in t.columns
    requires c < |FeatureColumns| && FeatureColumns[c] !in t.columns
    ensures TrainingData(History(t)) == Err(MissingFeatureColumn)
  {
  }
}
