/**
 * The ML stress service: maps the backend's three metrics onto the eleven
 * columns of the trained pipeline and turns the pipeline's 1..5 stress level
 * into a score in [0,1], with a fixed formula when no model file is present.
 * The trained pipeline itself is an arbitrary function of the selected columns.
 */
module StressModel {
  import opened Wrappers

  /** A cell of the one-row data frame handed to the pipeline. */
  datatype Cell = Num(r: real) | Int(n: int) | Str(s: string)

  /** The `features` object of a request; None is a key the JSON body lacks. */
  datatype RequestFeatures = RequestFeatures(
    openBugCount: Option<real>,
    avgResolutionTimeHours: Option<real>,
    currentStressScore: Option<real>)

  /** The eleven columns the pipeline was trained on, one field per dict key. */
  datatype ModelRow = ModelRow(
    avgWorkingHoursPerDay: real,
    workFrom: string,
    workPressure: int,
    managerSupport: int,
    sleepingHabit: int,
    exerciseHabit: int,
    jobSatisfaction: int,
    workLifeBalance: string,
    socialPerson: int,
    livesWithFamily: string,
    workingState: string)

  const CAT_COLS: seq<string> := ["Work_From", "Work_Life_Balance", "Lives_With_Family", "Working_State"]
  const NUM_COLS: seq<string> := [
    "Avg_Working_Hours_Per_Day", "Work_Pressure", "Manager_Support", "Sleeping_Habit",
    "Exercise_Habit", "Job_Satisfaction", "Social_Person"]
  /** The column order the pipeline was trained on, written as three runs:
      the workload columns, the columns derived from the stress score, and the
      columns the mapping fixes. */
  const WORKLOAD_COLS: seq<string> := ["Avg_Working_Hours_Per_Day", "Work_From", "Work_Pressure"]
  const STRESS_COLS: seq<string> :=
    ["Manager_Support", "Sleeping_Habit", "Exercise_Habit", "Job_Satisfaction", "Work_Life_Balance"]
  const CONSTANT_COLS: seq<string> := ["Social_Person", "Lives_With_Family", "Working_State"]
  const FEATURE_ORDER: seq<string> := WORKLOAD_COLS + STRESS_COLS + CONSTANT_COLS

  /** The trained model: any function of the ordered row. */
  type Pipeline = seq<Cell> -> real

  /** The loaded model (None when the model file is missing) and its version tag. */
  datatype Service = Service(pipeline: Option<Pipeline>, modelVersion: string)

  datatype Request = Request(developerId: int, features: RequestFeatures)
  datatype Response = Response(developerId: int, predictedStressScore: real, modelVersion: string)

  const FALLBACK_VERSION: string := "fallback"

  /** Python's `int(x)` on a float: truncation toward zero. */
  function Trunc(x: real): (n: int)
    ensures 0.0 <= x ==> n as real <= x < n as real + 1.0
    ensures x < 0.0 ==> n as real - 1.0 < x <= n as real
  {
    if x >= 0.0 then x.Floor else -((-x).Floor)
  }

  function MinInt(a: int, b: int): int { if a <= b then a else b }
  function MaxInt(a: int, b: int): int { if a >= b then a else b }
  function MinReal(a: real, b: real): real { if a <= b then a else b }
  function MaxReal(a: real, b: real): real { if a >= b then a else b }

  /** `max(1, min(5, v))`. */
  function Level(v: int): (l: int)
    ensures 1 <= l <= 5
    ensures 1 <= v <= 5 ==> l == v
  {
    MaxInt(1, MinInt(5, v))
  }

  /** `int(features.get("open_bug_count", 0))`. */
  function OpenBugs(f: RequestFeatures): (n: int)
    ensures f.openBugCount.None? ==> n == 0
    ensures f.openBugCount.Some? ==> n == Trunc(f.openBugCount.value)
  {
    Trunc(f.openBugCount.GetOr(0.0))
  }

  /** `float(features.get("avg_resolution_time_hours", 0)) or 1.0`: zero means 1. */
  function AvgHours(f: RequestFeatures): (h: real)
    ensures h != 0.0
    ensures f.avgResolutionTimeHours.GetOr(0.0) == 0.0 ==> h == 1.0
    ensures f.avgResolutionTimeHours.GetOr(0.0) != 0.0 ==> h == f.avgResolutionTimeHours.value
  {
    var h := f.avgResolutionTimeHours.GetOr(0.0);
    if h == 0.0 then 1.0 else h
  }

  /** `float(features.get("current_stress_score", 0.5))`. */
  function CurrentStress(f: RequestFeatures): (s: real)
    ensures f.currentStressScore.None? ==> s == 0.5
    ensures f.currentStressScore.Some? ==> s == f.currentStressScore.value
  {
    f.currentStressScore.GetOr(0.5)
  }

  /** `map_backend_features_to_model`: every numeric column is clamped into its
      training range whatever the inputs. */
  function MapBackendFeaturesToModel(f: RequestFeatures): (row: ModelRow)
    ensures 1 <= row.workPressure <= 5
    ensures 4.0 <= row.avgWorkingHoursPerDay <= 14.0
    ensures 1 <= row.managerSupport <= 5 && 1 <= row.sleepingHabit <= 5
    ensures 1 <= row.exerciseHabit <= 5 && 1 <= row.jobSatisfaction <= 5
    ensures row.socialPerson == 3
    ensures row.workFrom == (if OpenBugs(f) > 3 then "Hybrid" else "Office")
    ensures row.workLifeBalance == (if CurrentStress(f) > 0.5 then "No" else "Yes")
    ensures 4.0 <= 7.0 + 0.5 * OpenBugs(f) as real + 0.1 * AvgHours(f) <= 14.0 ==>
      row.avgWorkingHoursPerDay == 7.0 + 0.5 * OpenBugs(f) as real + 0.1 * AvgHours(f)
    ensures 0.0 <= CurrentStress(f) <= 1.0 ==>
      && row.managerSupport == 4 - Trunc(3.0 * CurrentStress(f))
      && row.jobSatisfaction == 4 - Trunc(3.0 * CurrentStress(f))
      && row.sleepingHabit == 4 - Trunc(2.0 * CurrentStress(f))
      && row.exerciseHabit == 3 - Trunc(2.0 * CurrentStress(f))
    ensures 7.0 + 0.5 * OpenBugs(f) as real + 0.1 * AvgHours(f) >= 14.0 ==> row.avgWorkingHoursPerDay == 14.0
    ensures 7.0 + 0.5 * OpenBugs(f) as real + 0.1 * AvgHours(f) <= 4.0 ==> row.avgWorkingHoursPerDay == 4.0
    ensures row.livesWithFamily == "Yes" && row.workingState == "Karnataka"
  {
    var openBugs := OpenBugs(f);
    var avgHours := AvgHours(f);
    var currentStress := CurrentStress(f);
    ModelRow(
      avgWorkingHoursPerDay := MinReal(14.0, MaxReal(4.0, 7.0 + openBugs as real * 0.5 + avgHours * 0.1)),
      workFrom := if openBugs > 3 then "Hybrid" else "Office",
      workPressure := MinInt(5, MaxInt(1, 1 + openBugs)),
      managerSupport := Level(4 - Trunc(currentStress * 3.0)),
      sleepingHabit := Level(4 - Trunc(currentStress * 2.0)),
      exerciseHabit := Level(3 - Trunc(currentStress * 2.0)),
      jobSatisfaction := Level(4 - Trunc(currentStress * 3.0)),
      workLifeBalance := if currentStress > 0.5 then "No" else "Yes",
      socialPerson := Level(3),
      livesWithFamily := "Yes",
      workingState := "Karnataka")
  }

  /** The row as the dict the source builds, keyed by column name. */
  function Columns(row: ModelRow): (d: map<string, Cell>)
    ensures forall k :: k in d <==> k in FEATURE_ORDER
  {
    map[
      "Avg_Working_Hours_Per_Day" := Num(row.avgWorkingHoursPerDay),
      "Work_From" := Str(row.workFrom),
      "Work_Pressure" := Int(row.workPressure),
      "Manager_Support" := Int(row.managerSupport),
      "Sleeping_Habit" := Int(row.sleepingHabit),
      "Exercise_Habit" := Int(row.exerciseHabit),
      "Job_Satisfaction" := Int(row.jobSatisfaction),
      "Work_Life_Balance" := Str(row.workLifeBalance),
      "Social_Person" := Int(row.socialPerson),
      "Lives_With_Family" := Str(row.livesWithFamily),
      "Working_State" := Str(row.workingState)]
  }

  /** `df[order]`: the cells of `d` in the given column order, or None (pandas
      raises KeyError) when a column is missing. */
  function SelectColumns(d: map<string, Cell>, order: seq<string>): (r: Option<seq<Cell>>)
    ensures r.Some? <==> forall i :: 0 <= i < |order| ==> order[i] in d
    ensures r.Some? ==> |r.value| == |order| && forall i :: 0 <= i < |order| ==> r.value[i] == d[order[i]]
    decreases |order|
  {
    if order == [] then Some([])
    else if order[0] !in d then None
    else
      match SelectColumns(d, order[1..])
      case None => None
      case Some(rest) => Some([d[order[0]]] + rest)
  }

  /** Selecting keys that are all present gives exactly their cells, in order. */
  lemma SelectAll(d: map<string, Cell>, order: seq<string>, cells: seq<Cell>)
    requires |order| == |cells|
    requires forall i :: 0 <= i < |order| ==> order[i] in d && d[order[i]] == cells[i]
    ensures SelectColumns(d, order) == Some(cells)
  {
    var r := SelectColumns(d, order);
    assert r.value == cells;
  }

  /** The first three columns of FEATURE_ORDER select the row's workload fields. */
  lemma SelectWorkload(row: ModelRow)
    ensures SelectColumns(Columns(row), WORKLOAD_COLS)
         == Some([Num(row.avgWorkingHoursPerDay), Str(row.workFrom), Int(row.workPressure)])
  {
    var d := Columns(row);
    var cells := [Num(row.avgWorkingHoursPerDay), Str(row.workFrom), Int(row.workPressure)];
    assert d[WORKLOAD_COLS[0]] == cells[0];
    assert d[WORKLOAD_COLS[1]] == cells[1];
    assert d[WORKLOAD_COLS[2]] == cells[2];
    SelectAll(d, WORKLOAD_COLS, cells);
  }

  /** The next five columns select the fields derived from the stress score. */
  lemma SelectStressDerived(row: ModelRow)
    ensures SelectColumns(Columns(row), STRESS_COLS)
         == Some([Int(row.managerSupport), Int(row.sleepingHabit), Int(row.exerciseHabit),
                  Int(row.jobSatisfaction), Str(row.workLifeBalance)])
  {
    var d := Columns(row);
    var cells := [Int(row.managerSupport), Int(row.sleepingHabit), Int(row.exerciseHabit),
                  Int(row.jobSatisfaction), Str(row.workLifeBalance)];
    assert d[STRESS_COLS[0]] == cells[0];
    assert d[STRESS_COLS[1]] == cells[1];
    assert d[STRESS_COLS[2]] == cells[2];
    assert d[STRESS_COLS[3]] == cells[3];
    assert d[STRESS_COLS[4]] == cells[4];
    SelectAll(d, STRESS_COLS, cells);
  }

  /** The last three columns select the row's constant fields. */
  lemma SelectConstant(row: ModelRow)
    ensures SelectColumns(Columns(row), CONSTANT_COLS)
         == Some([Int(row.socialPerson), Str(row.livesWithFamily), Str(row.workingState)])
  {
    var d := Columns(row);
    var cells := [Int(row.socialPerson), Str(row.livesWithFamily), Str(row.workingState)];
    assert d[CONSTANT_COLS[0]] == cells[0];
    assert d[CONSTANT_COLS[1]] == cells[1];
    assert d[CONSTANT_COLS[2]] == cells[2];
    SelectAll(d, CONSTANT_COLS, cells);
  }

  /** Selecting two runs of keys one after the other selects their concatenation. */
  lemma SelectAppend(d: map<string, Cell>, xs: seq<string>, ys: seq<string>)
    requires SelectColumns(d, xs).Some? && SelectColumns(d, ys).Some?
    ensures SelectColumns(d, xs + ys) == Some(SelectColumns(d, xs).value + SelectColumns(d, ys).value)
  {
    var cx := SelectColumns(d, xs).value;
    var cy := SelectColumns(d, ys).value;
    forall i | 0 <= i < |xs + ys|
      ensures (xs + ys)[i] in d && d[(xs + ys)[i]] == (cx + cy)[i]
    {
      if i >= |xs| {
        assert (xs + ys)[i] == ys[i - |xs|];
      }
    }
    SelectAll(d, xs + ys, cx + cy);
  }

  /** Selecting three runs of keys selects the three runs of cells. */
  lemma SelectThreeRuns(d: map<string, Cell>, xs: seq<string>, ys: seq<string>, zs: seq<string>,
                        cx: seq<Cell>, cy: seq<Cell>, cz: seq<Cell>)
    requires SelectColumns(d, xs) == Some(cx)
    requires SelectColumns(d, ys) == Some(cy)
    requires SelectColumns(d, zs) == Some(cz)
    ensures SelectColumns(d, xs + ys + zs) == Some(cx + cy + cz)
  {
    SelectAppend(d, xs, ys);
    SelectAppend(d, xs + ys, zs);
  }

  /** Three runs of 3, 5 and 3 cells joined are the eleven cells in order. */
  lemma JoinRuns(w: seq<Cell>, st: seq<Cell>, c: seq<Cell>)
    requires |w| == 3 && |st| == 5 && |c| == 3
    ensures w + st + c == [w[0], w[1], w[2], st[0], st[1], st[2], st[3], st[4], c[0], c[1], c[2]]
  {
  }

  /** Selecting FEATURE_ORDER from the dict hands the pipeline each row field
      in its own column, in that order. */
  lemma SelectedRow(row: ModelRow)
    ensures SelectColumns(Columns(row), FEATURE_ORDER) == Some([
      Num(row.avgWorkingHoursPerDay), Str(row.workFrom), Int(row.workPressure),
      Int(row.managerSupport), Int(row.sleepingHabit), Int(row.exerciseHabit),
      Int(row.jobSatisfaction), Str(row.workLifeBalance), Int(row.socialPerson),
      Str(row.livesWithFamily), Str(row.workingState)])
  {
    var d := Columns(row);
    SelectWorkload(row);
    SelectStressDerived(row);
    SelectConstant(row);
    var w := [Num(row.avgWorkingHoursPerDay), Str(row.workFrom), Int(row.workPressure)];
    var st := [Int(row.managerSupport), Int(row.sleepingHabit), Int(row.exerciseHabit),
               Int(row.jobSatisfaction), Str(row.workLifeBalance)];
    var c := [Int(row.socialPerson), Str(row.livesWithFamily), Str(row.workingState)];
    SelectThreeRuns(d, WORKLOAD_COLS, STRESS_COLS, CONSTANT_COLS, w, st, c);
    JoinRuns(w, st, c);
  }

  /** The fallback when no model is loaded: `min(1, max(0, 0.3 + 0.05 * open))`. */
  function FallbackScore(openBugCount: real): (s: real)
    ensures 0.0 <= s <= 1.0
    ensures 0.0 <= 0.3 + 0.05 * openBugCount <= 1.0 ==> s == 0.3 + 0.05 * openBugCount
  {
    MinReal(1.0, MaxReal(0.0, 0.3 + openBugCount * 0.05))
  }

  /** The pipeline predicts a stress level in 1..5; it is mapped linearly onto
      [0,1], levels below 1 giving 0 and levels above 5 giving 1. */
  function Normalise(p: real): (s: real)
    ensures 0.0 <= s <= 1.0
    ensures p <= 1.0 ==> s == 0.0
    ensures p >= 5.0 ==> s == 1.0
    ensures 1.0 <= p <= 5.0 ==> 4.0 * s + 1.0 == p
  {
    var score := if p >= 1.0 then (p - 1.0) / 4.0 else 0.0;
    MaxReal(0.0, MinReal(1.0, score))
  }

  /** `load_model`: the pipeline is the stored model when the model file exists, and absent otherwise. */
  function LoadModel(modelFileExists: bool, stored: Pipeline): (svc: Service)
    ensures svc.pipeline.Some? <==> modelFileExists
    ensures modelFileExists ==> svc.pipeline == Some(stored)
    ensures svc.modelVersion != ""
  {
    if modelFileExists then Service(Some(stored), "train-csv-v1") else Service(None, "no-model")
  }

  /** `POST /predict`: the score always lies in [0,1] and the developer id is echoed. */
  function Predict(svc: Service, req: Request): (resp: Response)
    ensures resp.developerId == req.developerId
    ensures 0.0 <= resp.predictedStressScore <= 1.0
    ensures svc.pipeline.None? ==> resp.modelVersion == "fallback"
    ensures svc.pipeline.Some? ==> resp.modelVersion == svc.modelVersion
    ensures svc.pipeline.None? ==> resp.predictedStressScore == FallbackScore(req.features.openBugCount.GetOr(0.0))
    ensures svc.pipeline.Some? ==>
      && SelectColumns(Columns(MapBackendFeaturesToModel(req.features)), FEATURE_ORDER).Some?
      && resp.predictedStressScore
         == Normalise(svc.pipeline.value(SelectColumns(Columns(MapBackendFeaturesToModel(req.features)), FEATURE_ORDER).value))
  {
    match svc.pipeline
    case None =>
      Response(req.developerId, FallbackScore(req.features.openBugCount.GetOr(0.0)), FALLBACK_VERSION)
    case Some(pipeline) =>
      var d := Columns(MapBackendFeaturesToModel(req.features));
      var cells := SelectColumns(d, FEATURE_ORDER);
      assert cells.Some?;
      Response(req.developerId, Normalise(pipeline(cells.value)), svc.modelVersion)
  }

  /** `Work_Pressure` is `1 + open_bugs` on 0..4 and saturates outside it. */
  lemma WorkPressureExact(f: RequestFeatures)
    ensures 0 <= OpenBugs(f) <= 4 ==> MapBackendFeaturesToModel(f).workPressure == 1 + OpenBugs(f)
    ensures OpenBugs(f) < 0 ==> MapBackendFeaturesToModel(f).workPressure == 1
    ensures OpenBugs(f) > 4 ==> MapBackendFeaturesToModel(f).workPressure == 5
  {
  }

  /** Missing keys default to open_bug_count 0, avg hours 1 and stress 0.5. */
  lemma MissingKeysDefaults()
    ensures MapBackendFeaturesToModel(RequestFeatures(None, None, None))
         == MapBackendFeaturesToModel(RequestFeatures(Some(0.0), Some(1.0), Some(0.5)))
    ensures MapBackendFeaturesToModel(RequestFeatures(None, None, None)).workPressure == 1
    ensures MapBackendFeaturesToModel(RequestFeatures(None, None, None)).workFrom == "Office"
    ensures MapBackendFeaturesToModel(RequestFeatures(None, None, None)).workLifeBalance == "Yes"
  {
  }

  /** A zero resolution time is read as 1 hour. */
  lemma ZeroResolutionTimeIsOne(open: Option<real>, stress: Option<real>)
    ensures MapBackendFeaturesToModel(RequestFeatures(open, Some(0.0), stress))
         == MapBackendFeaturesToModel(RequestFeatures(open, Some(1.0), stress))
  {
  }

  /** Truncation toward zero differs from flooring on negative fractions. */
  lemma TruncTowardZero()
    ensures Trunc(2.7) == 2 && Trunc(-2.7) == -2 && Trunc(-0.5) == 0
  {
  }

  /** Truncation is monotone. */
  lemma TruncMonotone(x: real, y: real)
    requires x <= y
    ensures Trunc(x) <= Trunc(y)
  {
  }

  /** For any two stress values, the habit levels follow the stress downwards. */
  lemma HabitsNonIncreasingInStress(s1: real, s2: real, f1: RequestFeatures, f2: RequestFeatures)
    requires f1.currentStressScore == Some(s1) && f2.currentStressScore == Some(s2)
    requires s1 <= s2
    ensures MapBackendFeaturesToModel(f2).managerSupport <= MapBackendFeaturesToModel(f1).managerSupport
    ensures MapBackendFeaturesToModel(f2).sleepingHabit <= MapBackendFeaturesToModel(f1).sleepingHabit
    ensures MapBackendFeaturesToModel(f2).exerciseHabit <= MapBackendFeaturesToModel(f1).exerciseHabit
    ensures MapBackendFeaturesToModel(f2).jobSatisfaction <= MapBackendFeaturesToModel(f1).jobSatisfaction
  {
    TruncMonotone(s1 * 3.0, s2 * 3.0);
    TruncMonotone(s1 * 2.0, s2 * 2.0);
  }

  /** FEATURE_ORDER names eleven distinct columns. */
  lemma FeatureOrderDistinct()
    ensures |FEATURE_ORDER| == 11
    ensures forall i, j :: 0 <= i < j < |FEATURE_ORDER| ==> FEATURE_ORDER[i] != FEATURE_ORDER[j]
  {
  }

  /** FEATURE_ORDER is the union of the categorical and the numeric columns,
      which do not overlap. */
  lemma FeatureOrderPartition()
    ensures forall k :: k in FEATURE_ORDER <==> k in CAT_COLS || k in NUM_COLS
    ensures forall k :: k in CAT_COLS ==> k !in NUM_COLS
  {
  }

  /** The dict holds strings in the categorical columns and numbers in the
      numeric ones. */
  lemma ColumnKinds(row: ModelRow)
    ensures forall k :: k in CAT_COLS ==> Columns(row)[k].Str?
    ensures forall k :: k in NUM_COLS ==> !Columns(row)[k].Str?
  {
  }

  /** Normalisation is monotone in the pipeline output. */
  lemma NormaliseMonotone(p: real, q: real)
    requires p <= q
    ensures Normalise(p) <= Normalise(q)
  {
  }

  /** Every score in [0,1] is reached by exactly the level `1 + 4 * score`. */
  lemma NormaliseRoundTrip(s: real)
    requires 0.0 <= s <= 1.0
    ensures Normalise(1.0 + 4.0 * s) == s
  {
  }

  /** The fallback grows with the open bug count. */
  lemma FallbackScoreMonotone(a: real, b: real)
    requires a <= b
    ensures FallbackScore(a) <= FallbackScore(b)
  {
  }

  /** A loaded service answers with the tag "fallback" or "train-csv-v1". */
  lemma LoadedServiceTags(modelFileExists: bool, stored: Pipeline, req: Request)
    ensures Predict(LoadModel(modelFileExists, stored), req).modelVersion
         == if modelFileExists then "train-csv-v1" else "fallback"
  {
  }
}
