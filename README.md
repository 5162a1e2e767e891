# Emotion-aware bug assignment: stress prediction and assignment commit

This Dafny project models the decision core of the Emotion-aware bug assignment
system. It covers three parts:

- **Backend stress predictor** (`StressService`, from `backend/services/stressService.js`).
  `GetDeveloperFeatures` joins a developer's `developer_metrics` row with the
  developer's role. `PredictStress` picks one of four outcomes:
  - no metrics row gives a fixed 0.3;
  - no `ML_SERVICE_URL` gives the local heuristic `min(1, 0.2 + 0.05·open + 0.5·stress)`;
  - a successful ML-service reply is passed through;
  - an ML-service error gives the heuristic again.

  Each outcome has its own `model_version` tag. The ML service's reply is an
  input value (`OracleReply`), so the predictor is a total function.
  `updateStressScore` is a method on the `MetricsTable` class that rewrites one
  row of a map.
- **ML stress service** (`StressModel`, from `ml/stress_model.py`). It maps the
  three backend metrics onto the eleven training columns with clamps, thresholds
  and defaults, and selects them in `FEATURE_ORDER`. It also covers the
  no-model fallback formula and the normalisation of a 1–5 stress level into [0,1].
  Python's `int()` is modelled as truncation toward zero. The trained pipeline is
  an arbitrary total function of the selected cells.
- **Assignment commit** (`AssignmentService`, from `backend/services/assignmentService.js`).
  `AssignBug` is a method on a class holding the developer ids, the append-only
  `assignments` rows and the bug-status map. It first checks that the developer
  exists. Then it inserts the row, then it sets the status to `ASSIGNED`. There
  is no rollback between the two writes. Which statement the database rejects,
  if any, is an input (`Fault`). The method is proved equal to the
  specification function `AssignBugSpec`, and the lemmas are stated about that
  function.
- `StressPipeline` connects the two services. The backend's reply is the ML
  service's `Predict` applied to the body the backend sends. This shows that
  every backend prediction lies in [0,1] when the stored metrics are
  non-negative.

Scores are exact `real`s. Points of the code worth knowing:

- The tags are `fallback-heuristic`, `no-ml-url-heuristic`,
  `ml-fallback-heuristic` and the oracle's version or `ml-v1`.
- The heuristic clamps only at the top. With non-negative metrics it stays in
  [0.2, 1]. Whenever the linear formula is negative, the score is negative too
  (`HeuristicHasNoLowerClamp`).
- A 2xx reply is passed through without any check of its range.
- `assignBug` sets status `ASSIGNED`. It does not write `developer_metrics`.
  It does not run in a transaction: a failing status update leaves the
  inserted row (`NoRollbackOnUpdateFailure`).

## Model

| member | source | states |
|---|---|---|
| `StressService.GetDeveloperFeatures` | backend/services/stressService.js:4-20 | null exactly when the metrics/users join has no row for the id; otherwise the four fields pass through unchanged |
| `StressService.Heuristic` | backend/services/stressService.js:29-32 | the heuristic is at most 1, at least 0.2 for non-negative metrics, equals the linear formula when that is at most 1, and is 1 when the formula reaches 1 |
| `StressService.EmptyUrlActsAsUnset` | backend/services/stressService.js:27-28 | an empty `ML_SERVICE_URL` gives exactly the result of an unset one, whatever the oracle replies (JavaScript truthiness) |
| `StressService.OracleTag` | backend/services/stressService.js:39 | the tag is never empty; a non-empty reported version is kept; a missing or empty one gives "ml-v1" |
| `StressService.PredictStress` | backend/services/stressService.js:22-49 | the result is total (oracle errors never escape); the score is at most 1 unless it is the oracle's own score; with no metrics row it is exactly (0.3, "fallback-heuristic") |
| `StressService.HeuristicMonotone` | backend/services/stressService.js:29-32 | the heuristic is non-decreasing in both the open bug count and the current stress |
| `StressService.HeuristicExamples` | backend/services/stressService.js:29-32 | open=2/stress=0.1 gives 0.35, open=8/stress=0.2 gives 0.70, zero metrics give 0.2, a large backlog saturates at 1 |
| `StressService.HeuristicHasNoLowerClamp` | backend/services/stressService.js:29-32 | only the top is clamped: whenever 0.2 + 0.05·open + 0.5·stress is negative the score is negative (e.g. open 0, stress −1) |
| `StressService.NoDataIgnoresOracle` | backend/services/stressService.js:23-26 | without a metrics row the result is (0.3, "fallback-heuristic") whatever the oracle would reply |
| `StressService.NoUrlIgnoresOracle` | backend/services/stressService.js:27-34 | with no ML URL configured the oracle's reply has no influence on the result |
| `StressService.NoUrlAndFailureAgree` | backend/services/stressService.js:28-48 | "no URL" and "oracle failed" give the same score for the same features, tagged "no-ml-url-heuristic" and "ml-fallback-heuristic" |
| `StressService.OracleSuccessPassesThrough` | backend/services/stressService.js:35-40 | a successful reply's score is returned unchanged, tagged with its version or "ml-v1" when that is missing or empty |
| `StressService.OracleFailureFallsBack` | backend/services/stressService.js:41-48 | an oracle failure always yields the heuristic of the stored features with tag "ml-fallback-heuristic" |
| `StressService.PredictStressInUnitInterval` | backend/services/stressService.js:22-49 | with non-negative stored metrics and an oracle score in [0,1], every predicted score lies in [0,1] |
| `StressService.MetricsTable.UpdateStressScore` | backend/services/stressService.js:51-56 | only the given user's current stress and update time change; every other row and field is untouched; an unknown user changes nothing |
| `StressService.WithStressScore` | backend/services/stressService.js:51-56 | the updated table has the same users, the target row carries the new score and time with its other fields kept, other rows are unchanged |
| `StressService.FeaturesAfterUpdate` | backend/services/stressService.js:51-55 | after an update the user's features differ only in the new stress; other users' features are unchanged |
| `StressModel.Trunc` | ml/stress_model.py:96-99 | Python `int()` on a float truncates toward zero: within one of the input, on the side of zero |
| `StressModel.TruncTowardZero` | ml/stress_model.py:96-99 | `int(2.7)=2`, `int(-2.7)=-2`, `int(-0.5)=0` |
| `StressModel.TruncMonotone` | ml/stress_model.py:96-99 | truncation preserves order |
| `StressModel.Level` | ml/stress_model.py:96-101 | `max(1, min(5, v))` lies in [1,5] and keeps values already in range |
| `StressModel.OpenBugs` | ml/stress_model.py:83 | a missing open_bug_count gives 0; a present one is truncated toward zero |
| `StressModel.CurrentStress` | ml/stress_model.py:85 | a missing current_stress_score gives 0.5; a present one passes through |
| `StressModel.AvgHours` | ml/stress_model.py:84 | a zero or missing resolution time becomes 1.0; any other value passes through; so the result is never zero |
| `StressModel.MapBackendFeaturesToModel` | ml/stress_model.py:81-104 | Work_Pressure and the four habit columns lie in [1,5], working hours in [4,14], Social_Person is 3; working hours are 7 + 0.5·open_bugs + 0.1·avg_hours wherever that is inside [4,14]; for stress in [0,1] Manager_Support and Job_Satisfaction are 4 − int(3·stress), Sleeping_Habit 4 − int(2·stress), Exercise_Habit 3 − int(2·stress); Work_From is "Hybrid" iff open bugs > 3; Work_Life_Balance is "No" iff stress > 0.5; working hours are 14 when that sum is at least 14 and 4 when it is at most 4; Lives_With_Family is "Yes" and Working_State is "Karnataka" |
| `StressModel.WorkPressureExact` | ml/stress_model.py:88 | Work_Pressure is 1 + open_bugs for 0..4 open bugs, 1 below and 5 above |
| `StressModel.MissingKeysDefaults` | ml/stress_model.py:83-85 | a request with no keys maps like open_bug_count 0, resolution time 1.0 and stress 0.5 |
| `StressModel.ZeroResolutionTimeIsOne` | ml/stress_model.py:84 | a zero resolution time maps exactly like 1.0 |
| `StressModel.HabitsNonIncreasingInStress` | ml/stress_model.py:96-99 | Manager_Support, Sleeping_Habit, Exercise_Habit and Job_Satisfaction never rise when stress rises |
| `StressModel.Columns` | ml/stress_model.py:92-104 | the mapped dict has exactly the keys of FEATURE_ORDER |
| `StressModel.SelectedRow` | ml/stress_model.py:92-104 | selecting FEATURE_ORDER from the dict gives each row field in its own named column, in order (working hours, Work_From, Work_Pressure, Manager_Support, …, Working_State) |
| `StressModel.FeatureOrderDistinct` | ml/stress_model.py:45-57 | FEATURE_ORDER lists eleven distinct column names |
| `StressModel.FeatureOrderPartition` | ml/stress_model.py:35-57 | FEATURE_ORDER is exactly CAT_COLS plus NUM_COLS, and the two lists do not overlap |
| `StressModel.ColumnKinds` | ml/stress_model.py:92-104 | the categorical columns of the dict hold strings and the numeric ones hold numbers |
| `StressModel.SelectColumns` | ml/stress_model.py:134 | column selection succeeds iff every requested column is present, and then yields each column's cell in the requested order |
| `StressModel.FallbackScore` | ml/stress_model.py:126 | the no-model score lies in [0,1] and equals 0.3 + 0.05·open whenever that is in range |
| `StressModel.FallbackScoreMonotone` | ml/stress_model.py:126 | the no-model score is non-decreasing in the open bug count |
| `StressModel.Normalise` | ml/stress_model.py:137-139 | the normalised score lies in [0,1]; levels ≤ 1 give 0, levels ≥ 5 give 1, and levels in [1,5] map linearly (level = 1 + 4·score) |
| `StressModel.NormaliseMonotone` | ml/stress_model.py:137-139 | normalisation is monotone in the pipeline output |
| `StressModel.NormaliseRoundTrip` | ml/stress_model.py:137-139 | every score s in [0,1] is recovered from the level 1 + 4·s |
| `StressModel.LoadModel` | ml/stress_model.py:60-64 | the pipeline is present iff the model file exists, and is then the stored model that `joblib.load` returns; the version tag is never empty |
| `StressModel.Predict` | ml/stress_model.py:122-144 | the response echoes the developer id and its score lies in [0,1]; without a model the score is FallbackScore of the raw open bug count and the tag "fallback"; with one, column selection succeeds and the score is Normalise of the pipeline's output on the selected row, tagged with the loaded version |
| `StressModel.LoadedServiceTags` | ml/stress_model.py:60-67 | a loaded service answers with "train-csv-v1" when the model file exists and "fallback" otherwise |
| `AssignmentService.ErrorMessage` | backend/services/assignmentService.js:10 | the thrown message is "Developer not found" exactly for the unknown-developer error |
| `AssignmentService.SetStatus` | backend/services/assignmentService.js:20-23 | the status update changes only the target bug, and changes nothing when no bug has that id |
| `AssignmentService.AssignBugSpec` | backend/services/assignmentService.js:3-26 | developers are never changed; the call succeeds iff no statement fails and the developer exists; success returns "Bug assigned successfully"; the error is "Developer not found" exactly when the lookup ran and the developer is unknown, so a failed INSERT or UPDATE never reports it |
| `AssignmentService.AssignmentStore.AssignBug` | backend/services/assignmentService.js:3-26 | the in-place method computes exactly the specification's new tables and result; rows are only appended; an unknown developer leaves the store unchanged |
| `AssignmentService.UnknownDeveloperWritesNothing` | backend/services/assignmentService.js:4-11 | an unknown developer fails with "Developer not found" (or the lookup error) before either table is written |
| `AssignmentService.AssignmentsAppendOnly` | backend/services/assignmentService.js:15-18 | the old rows are a prefix of the new ones, and at most the row (bugId, developerId) is added |
| `AssignmentService.SuccessEffect` | backend/services/assignmentService.js:15-25 | success appends exactly (bugId, developerId), sets that bug to ASSIGNED, keeps every other status, and returns the fixed message |
| `AssignmentService.NoRollbackOnUpdateFailure` | backend/services/assignmentService.js:15-23 | a failing status update leaves the new assignment row in place and every status unchanged |
| `AssignmentService.LookupFailureWritesNothing` | backend/services/assignmentService.js:4-11 | a failing developer lookup throws and leaves every table unchanged, whether or not the developer exists |
| `AssignmentService.InsertFailureWritesNothing` | backend/services/assignmentService.js:15-23 | a failing insert fails the call and leaves both tables unchanged |
| `AssignmentService.SuccessCountsOneRow` | backend/services/assignmentService.js:15-18 | a success adds exactly one row for its bug |
| `AssignmentService.SuccessKeepsOtherCounts` | backend/services/assignmentService.js:15-18 | a success adds no row for any other bug |
| `AssignmentService.AssignTwiceKeepsBothRows` | backend/services/assignmentService.js:15-18 | assigning the same bug twice yields both rows, in order, so two more rows for that bug |
| `StressPipeline.ToRequest` | backend/services/stressService.js:36 | the body sent carries the user id, the open bug count (raw, as the no-model fallback reads it, and truncated, as the mapping reads it), the average resolution time as the mapping reads it (1.0 for zero), and the stress |
| `StressPipeline.ServiceReply` | ml/stress_model.py:122-144 | the ML service always answers with a score in [0,1] |
| `StressPipeline.ServiceAnswerPassesThrough` | backend/services/stressService.js:35-40 | the backend returns the ML service's score and tag unchanged (the service's tag is never empty) |
| `StressPipeline.EndToEndInUnitInterval` | backend/services/stressService.js:22-49 | with this ML service as the oracle, up or down, every backend prediction lies in [0,1] for non-negative stored metrics |

## Left out

- Database access, HTTP (axios, FastAPI, CORS), environment reads and logging are not modelled. The tables are a snapshot (maps, a set, a sequence). `ML_SERVICE_URL` is an `Option<string>`. The ML service's behaviour is an `OracleReply` value.
- The 5-second axios timeout and any concurrency are not modelled. A timeout is one of the ways the reply becomes `Failed`.
- A 2xx reply that lacks `predicted_stress_score` is not modelled. The code passes JavaScript `undefined` through as the score, but `OracleReply.Replied` always carries a real.
- `Number()` on the numeric columns is treated as the identity on real values. Text that does not parse (NaN) is not modelled.
- Non-numeric JSON values (text, booleans) and `null` in the ML request's features are not modelled. Python raises on some of them (`null`, text that does not parse) and coerces others (`int("3")`, `int(True) == 1`).
- `round(score, 4)` and IEEE float rounding are not modelled: scores are exact reals. Python's `min(14, x)` returning an `int` 14 is not modelled either; it is the same number.
- `updated_at = NOW()` comes from the database clock. It is an input `now`.
- `pipeline.predict` and `joblib.load` are an arbitrary function `seq<Cell> -> real` chosen by the caller. Training (`ml/train.py`) is not part of this model.
- The composite-score candidate selection (`chooseAssignee`) and the controllers that call it are not part of the files this model covers, so they are not modelled.
- The route handler in `backend/routes/assignmentRoutes.js` performs the same two writes in the opposite order. It is not modelled separately.
- The database's reasons for rejecting a statement (a foreign-key violation, a lost connection) are not modelled. Only the fact of rejection is, through `Fault`. The thrown error's text other than "Developer not found" is modelled as one opaque `QueryFailed`.
