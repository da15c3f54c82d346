/** Stage 1, feature extraction: turns the drift JSON written by the change
    detector into the feature table. An absent, unparseable or empty input
    gives the single safe baseline row; otherwise every change entry gives
    exactly one row, in input order. */
module FeatureExtraction {
  import opened Results
  import opened Frames

  /** One entry of the drift JSON; `change` is `None` when the entry has no
      "change" key. */
  datatype Item = Item(change: Option<seq<string>>)

  /** What the script finds at its input path. `Parsed([])` stands for content
      that parses but is falsy (an empty list). */
  datatype Input = Absent | Malformed | Parsed(items: seq<Item>)

  datatype FeatureRow = FeatureRow(
    numResourcesChanged: nat,
    criticalServicesAffected: nat,
    driftDurationHours: nat,
    driftLabel: string)

  /** The row written when there is no drift to describe. */
  const SafeBaseline := FeatureRow(0, 0, 1, "safe")

  /** `item.get("change", [])`: the entry's actions, or none when the key is absent. */
  function Changes(item: Item): (actions: seq<string>)
    ensures item.change.None? ==> actions == []
    ensures item.change.Some? ==> actions == item.change.value
  {
    item.change.GetOr([])
  }

  /** The feature row of one change entry. It counts one resource and one
      hour; only a "replace" action makes it critical, and it is labelled
      "high" exactly when critical, "low" otherwise. "update" and "delete"
      are not looked at. */
  function RowOf(item: Item): (row: FeatureRow)
    ensures row.numResourcesChanged == 1 && row.driftDurationHours == 1
    ensures row.criticalServicesAffected == 1 <==> "replace" in Changes(item)
    ensures row.criticalServicesAffected == 0 <==> "replace" !in Changes(item)
    ensures row.driftLabel == "high" <==> row.criticalServicesAffected == 1
    ensures row.driftLabel == "low" <==> row.criticalServicesAffected == 0
  {
    var isReplace := "replace" in Changes(item);
    FeatureRow(1, if isReplace then 1 else 0, 1, if isReplace then "high" else "low")
  }

  /** The inputs that the script answers with the safe baseline: all but a
      parsed, non-empty list of entries. */
  predicate Degenerate(input: Input): (b: bool)
    ensures b <==> !(input.Parsed? && |input.items| > 0)
  {
    input.Absent? || input.Malformed? || input.items == []
  }

  /** The rows the extraction loop has appended after visiting `items`. */
  function RowsOf(items: seq<Item>): (rows: seq<FeatureRow>)
    ensures |rows| == |items|
    ensures forall i :: 0 <= i < |items| ==> rows[i] == RowOf(items[i])
  {
    if items == [] then [] else RowsOf(items[..|items| - 1]) + [RowOf(items[|items| - 1])]
  }

  /** The feature table the script writes for `input`. */
  function Extraction(input: Input): (rows: seq<FeatureRow>)
    ensures |rows| >= 1
    ensures Degenerate(input) ==> rows == [SafeBaseline]
    ensures !Degenerate(input) ==> |rows| == |input.items|
    ensures !Degenerate(input) ==> forall i :: 0 <= i < |rows| ==> rows[i] == RowOf(input.items[i])
  {
    if Degenerate(input) then [SafeBaseline] else RowsOf(input.items)
  }

  /** The script itself: three early exits with the baseline, then one row
      appended per entry. Every path exits with status 0. */
  method Extract(input: Input) returns (rows: seq<FeatureRow>, exitCode: int)
    ensures rows == Extraction(input)
    ensures exitCode == 0
  {
    if input.Absent? {
      return [SafeBaseline], 0;
    }
    if input.Malformed? {
      return [SafeBaseline], 0;
    }
    var data := input.items;
    if data == [] {
      return [SafeBaseline], 0;
    }
    rows := [];
    for k := 0 to |data|
      invariant |rows| == k
      invariant forall j :: 0 <= j < k ==> rows[j] == RowOf(data[j])
    {
      rows := rows + [RowOf(data[k])];
    }
    exitCode := 0;
  }

  /** An entry without a "change" key is read as an empty action list, so it
      is neither critical nor high. */
  lemma MissingChangeIsNoAction(item: Item)
    requires item.change.None?
    ensures RowOf(item) == RowOf(Item(Some([])))
    ensures RowOf(item) == FeatureRow(1, 0, 1, "low")
  {
  }

  /** "update" and "delete" alone do not make an entry critical; "replace"
      does, whatever else accompanies it. */
  lemma OnlyReplaceIsCritical(actions: seq<string>)
    requires "replace" !in actions
    ensures RowOf(Item(Some(actions))).criticalServicesAffected == 0
    ensures RowOf(Item(Some(["replace"] + actions))) == FeatureRow(1, 1, 1, "high")
  {
  }

  /** Row `i` of the table depends on entry `i` alone. */
  lemma RowDependsOnItsEntryOnly(a: seq<Item>, b: seq<Item>, i: nat)
    requires i < |a| && i < |b| && a[i] == b[i]
    ensures Extraction(Parsed(a))[i] == Extraction(Parsed(b))[i]
  {
  }

  /** Extraction distributes over concatenation of entry lists: the rows of
      `xs + ys` are the rows of `xs` followed by those of `ys`. */
  lemma RowsOfAppend(xs: seq<Item>, ys: seq<Item>)
    ensures RowsOf(xs + ys) == RowsOf(xs) + RowsOf(ys)
  {
  }

  /** A table made of real entries never contains the baseline row: the
      baseline is the only row labelled "safe" and the only one counting zero
      resources. */
  lemma BaselineOnlyWithoutDrift(input: Input)
    ensures SafeBaseline in Extraction(input) <==> Degenerate(input)
  {
  }

  /** The header written to the feature table, in order. */
  const TableColumns: seq<string> :=
    ["num_resources_changed", "critical_services_affected", "drift_duration_hours", "drift_label"]

  /** One row of the written table, keyed by its header. */
  function Record(row: FeatureRow): (m: map<string, Cell>)
    ensures m.Keys == set c | c in TableColumns
  {
    var m := map[
      "num_resources_changed" := Int(row.numResourcesChanged),
      "critical_services_affected" := Int(row.criticalServicesAffected),
      "drift_duration_hours" := Int(row.driftDurationHours),
      "drift_label" := Text(row.driftLabel)];
    assert m.Keys == set c | c in TableColumns by {
      assert forall c :: c in TableColumns <==> c in m;
    }
    m
  }

  /** `pd.DataFrame(rows)`: the feature table with its header, one record per row. */
  function ToFrame(rows: seq<FeatureRow>): (f: Frame)
    ensures Valid(f) && f.columns == TableColumns && |f.rows| == |rows|
    ensures forall i :: 0 <= i < |rows| ==>
              && f.rows[i]["num_resources_changed"] == Int(rows[i].numResourcesChanged)
              && f.rows[i]["critical_services_affected"] == Int(rows[i].criticalServicesAffected)
              && f.rows[i]["drift_duration_hours"] == Int(rows[i].driftDurationHours)
              && f.rows[i]["drift_label"] == Text(rows[i].driftLabel)
  {
    Frame(TableColumns, seq(|rows|, i requires 0 <= i < |rows| => Record(rows[i])))
  }
}
