/** How the stages fit together as written: the table that feature
    extraction writes is read back unchanged by the next stage (the CSV round
    trip is taken to be exact), and neither the training nor the inference
    stage uses the columns it provides. */
module Pipeline {
  import opened Results
  import FeatureExtraction
  import DriftTraining
  import DriftInference

  /** Inference asks for "open_ssh", "public_access" and "tag_changed", which
      the extracted table never has: with a model present, every extracted
      table, the baseline included, ends the run with an error. */
  lemma ExtractedTableFailsInference<M>(input: FeatureExtraction.Input, m: M,
                                        predict: (M, seq<seq<int>>) -> Option<seq<int>>)
    ensures var table := FeatureExtraction.ToFrame(FeatureExtraction.Extraction(input));
            DriftInference.Infer(Some(m), Some(table), predict) == Err(DriftInference.MissingInputColumn)
  {
    var table := FeatureExtraction.ToFrame(FeatureExtraction.Extraction(input));
    assert DriftInference.InputColumns[0] !in table.columns;
    DriftInference.MissingInputColumnFails(m, table, predict, 0);
  }

  /** The extracted table labels its rows in "drift_label", not "risk_label":
      used as training history it would be replaced by the embedded dataset. */
  lemma ExtractedTableAsHistoryIsReplaced(input: FeatureExtraction.Input)
    ensures var table := FeatureExtraction.ToFrame(FeatureExtraction.Extraction(input));
            DriftTraining.Dataset(DriftTraining.History(table)) == DriftTraining.SampleDataset()
  {
    var table := FeatureExtraction.ToFrame(FeatureExtraction.Extraction(input));
    assert DriftTraining.RiskLabel !in table.columns;
  }
}
