/** Stage 3, inference: exits 0 when the model or the feature table is
    missing; otherwise predicts one class per row with the trained model
    (a parameter here), adds the predictions as a column, and exits 1 exactly
    when some prediction is 1. */
module DriftInference {
  import opened Results
  import opened Frames

  /** The model's input columns, in the order they are fed to it. */
  const InputColumns: seq<string> := ["open_ssh", "public_access", "tag_changed"]

  const PredictedRisk := "predicted_risk"

  /** The columns shown in the log after prediction; selecting them raises
      KeyError when one is missing. */
  const ShownColumns: seq<string> := ["address", "type", PredictedRisk]

  datatype InferError =
    | MissingInputColumn      // `df[InputColumns]` raised KeyError
    | NotAnInteger            // `.astype(int)` met a cell it cannot convert
    | PredictFailed           // the model's predict raised
    | PredictionCountMismatch // `df["predicted_risk"] = pred` got the wrong length
    | MissingShownColumn      // `df[ShownColumns]` raised KeyError

  /** How the process ends on a path that raises nothing: its exit status and,
      when the model ran, the feature table with its prediction column. */
  datatype Outcome = Outcome(exitCode: int, predictions: Option<Frame>)

  /** `astype(int)` on one cell: integers are kept, booleans become 0 or 1,
      text and missing values cannot be converted. */
  function CastInt(c: Cell): (r: Option<int>)
    ensures c.Int? ==> r == Some(c.n)
    ensures c.Bool? ==> r == Some(if c.b then 1 else 0)
    ensures r.None? <==> c.Text? || c.Missing?
  {
    match c
    case Int(n) => Some(n)
    case Bool(b) => Some(if b then 1 else 0)
    case Text(_) => None
    case Missing => None
  }

  predicate Castable(x: seq<seq<Cell>>) {
    forall i, j :: 0 <= i < |x| && 0 <= j < |x[i]| ==> CastInt(x[i][j]).Some?
  }

  /** `astype(int)` on a whole matrix: fails when any cell fails. */
  function CastMatrix(x: seq<seq<Cell>>): (r: Option<seq<seq<int>>>)
    ensures r.Some? <==> Castable(x)
    ensures r.Some? ==> |r.value| == |x|
    ensures r.Some? ==> forall i :: 0 <= i < |x| ==> |r.value[i]| == |x[i]|
    ensures r.Some? ==> forall i, j :: 0 <= i < |x| && 0 <= j < |x[i]| ==>
              Some(r.value[i][j]) == CastInt(x[i][j])
  {
    if Castable(x) then
      Some(seq(|x|, i requires 0 <= i < |x| =>
             seq(|x[i]|, j requires 0 <= j < |x[i]| => CastInt(x[i][j]).value)))
    else
      None
  }

  /** `any(pred == 1)`, scanning from the front. */
  function AnyHigh(pred: seq<int>): (r: bool)
    ensures r <==> exists i :: 0 <= i < |pred| && pred[i] == 1
  {
    if pred == [] then false else pred[0] == 1 || AnyHigh(pred[1..])
  }

  /** The process exit status for a prediction vector: 1 when some row is
      predicted high risk, 0 otherwise (an all-zero vector included). */
  function ExitCode(pred: seq<int>): (code: int)
    ensures code == 0 || code == 1
    ensures code == 1 <==> exists i :: 0 <= i < |pred| && pred[i] == 1
  {
    if AnyHigh(pred) then 1 else 0
  }

  /** The integer matrix handed to the model, or the error raised building it. */
  function ModelInput(df: Frame): (r: Result<seq<seq<int>>, InferError>)
    requires Valid(df)
    ensures r == Err(MissingInputColumn) <==> !HasColumns(df, InputColumns)
    ensures r == Err(NotAnInteger) <==>
              HasColumns(df, InputColumns) && !Castable(Select(df, InputColumns).value)
    ensures r.Ok? <==> HasColumns(df, InputColumns) && Castable(Select(df, InputColumns).value)
    ensures r.Ok? ==> |r.value| == |df.rows|
    ensures r.Ok? ==> forall i :: 0 <= i < |df.rows| ==> |r.value[i]| == |InputColumns|
    ensures r.Ok? ==> forall i, j :: 0 <= i < |df.rows| && 0 <= j < |InputColumns| ==>
              Some(r.value[i][j]) == CastInt(df.rows[i][InputColumns[j]])
  {
    match Select(df, InputColumns)
    case None => Err(MissingInputColumn)
    case Some(x) =>
      match CastMatrix(x)
      case None => Err(NotAnInteger)
      case Some(m) => Ok(m)
  }

  /** The inference script, with the model's predict as a parameter (`None`
      when it raises). A missing model is checked first and ends the run
      before the feature table is looked at; a missing feature table ends it
      next. Both give exit status 0. */
  function Infer<M>(model: Option<M>, features: Option<Frame>,
                    predict: (M, seq<seq<int>>) -> Option<seq<int>>): (r: Result<Outcome, InferError>)
    requires features.Some? ==> Valid(features.value)
    ensures model.None? ==> r == Ok(Outcome(0, None))
    ensures model.Some? && features.None? ==> r == Ok(Outcome(0, None))
    ensures r.Ok? ==> r.value.exitCode == 0 || r.value.exitCode == 1
    ensures r.Err? ==> model.Some? && features.Some?
    ensures model.Some? && features.Some? && ModelInput(features.value).Err? ==>
              r == Err(ModelInput(features.value).error)
    ensures model.Some? && features.Some? && ModelInput(features.value).Ok? ==>
              var df := features.value;
              var p := predict(model.value, ModelInput(df).value);
              && (p.None? ==> r == Err(PredictFailed))
              && (p.Some? && |p.value| != |df.rows| ==> r == Err(PredictionCountMismatch))
              && (p.Some? && |p.value| == |df.rows| ==>
                    (r == Err(MissingShownColumn) <==> "address" !in df.columns || "type" !in df.columns))
              && (p.Some? && |p.value| == |df.rows| && "address" in df.columns && "type" in df.columns ==>
                    r.Ok? && r.value.exitCode == ExitCode(p.value) && r.value.predictions.Some?)
  {
    if model.None? then
      Ok(Outcome(0, None))
    else if features.None? then
      Ok(Outcome(0, None))
    else
      var df := features.value;
      match ModelInput(df)
      case Err(e) => Err(e)
      case Ok(x) =>
        match predict(model.value, x)
        case None => Err(PredictFailed)
        case Some(pred) =>
          if |pred| != |df.rows| then
            Err(PredictionCountMismatch)
          else
            var out := WithColumn(df, PredictedRisk, Ints(pred));
            assert HasColumns(out, ShownColumns) <==> "address" in df.columns && "type" in df.columns by {
              assert PredictedRisk in out.columns;
              assert "address" in out.columns <==> "address" in df.columns;
              assert "type" in out.columns <==> "type" in df.columns;
              assert HasColumns(out, ShownColumns) <==>
                ShownColumns[0] in out.columns && ShownColumns[1] in out.columns && ShownColumns[2] in out.columns;
            }
            if !HasColumns(out, ShownColumns) then
              Err(MissingShownColumn)
            else
              Ok(Outcome(ExitCode(pred), Some(out)))
  }

  /** Whether features are present or not does not matter once the model is
      missing: the feature table is never read. */
  lemma MissingModelIgnoresFeatures<M>(f: Option<Frame>, g: Option<Frame>,
                                       predict: (M, seq<seq<int>>) -> Option<seq<int>>)
    requires f.Some? ==> Valid(f.value)
    requires g.Some? ==> Valid(g.value)
    ensures Infer(None, f, predict) == Infer(None, g, predict)
  {
  }

  /** When both artifacts are present and the run succeeds, the prediction
      column holds exactly the model's output, one entry per row; every other
      cell and the order of existing columns are unchanged; and the exit
      status is 1 exactly when some row is predicted 1. */
  lemma PredictionsAnnotateRows<M>(m: M, df: Frame, predict: (M, seq<seq<int>>) -> Option<seq<int>>)
    requires Valid(df)
    requires Infer(Some(m), Some(df), predict).Ok?
    ensures ModelInput(df).Ok? && predict(m, ModelInput(df).value).Some?
    ensures var pred := predict(m, ModelInput(df).value).value;
            var o := Infer(Some(m), Some(df), predict).value;
            && o.predictions.Some?
            && var out := o.predictions.value;
            && |pred| == |out.rows| == |df.rows|
            && out.columns == (if PredictedRisk in df.columns then df.columns else df.columns + [PredictedRisk])
            && (forall i :: 0 <= i < |df.rows| ==> out.rows[i][PredictedRisk] == Int(pred[i]))
            && (forall i, c :: 0 <= i < |df.rows| && c in df.columns && c != PredictedRisk ==>
                  c in out.rows[i] && out.rows[i][c] == df.rows[i][c])
            && (o.exitCode == 1 <==> exists i :: 0 <= i < |pred| && pred[i] == 1)
  {
  }

  /** A feature table lacking one of the model's input columns stops the run
      with an error rather than being defaulted. */
  lemma MissingInputColumnFails<M>(m: M, df: Frame, predict: (M, seq<seq<int>>) -> Option<seq<int>>, c: nat)
    requires Valid(df) && c < |InputColumns| && InputColumns[c] !in df.columns
    ensures Infer(Some(m), Some(df), predict) == Err(MissingInputColumn)
  {
  }

  /** Logging the result selects "address" and "type": a table without them
      fails after prediction, even though the model accepted it. */
  lemma MissingShownColumnFails<M>(m: M, df: Frame, predict: (M, seq<seq<int>>) -> Option<seq<int>>)
    requires Valid(df) && ModelInput(df).Ok?
    requires predict(m, ModelInput(df).value).Some?
    requires |predict(m, ModelInput(df).value).value| == |df.rows|
    requires "address" !in df.columns || "type" !in df.columns
    ensures Infer(Some(m), Some(df), predict) == Err(MissingShownColumn)
  {
  }
}
