/**
 * The backend's stress predictor: reads a developer's metrics row, asks the
 * optional ML service for a score and falls back to a local heuristic when
 * the service is not configured or fails. Scores are exact reals.
 */
module StressService {
  import opened Wrappers

  type UserId = int

  /** One row of the `developer_metrics` table, keyed by user id. */
  datatype MetricsRow = MetricsRow(
    openBugCount: int,
    avgResolutionTimeHours: real,
    currentStressScore: real,
    updatedAt: int)

  /** The feature object built from a metrics row joined with the user's role. */
  datatype Features = Features(
    openBugCount: int,
    avgResolutionTimeHours: real,
    currentStressScore: real,
    role: string)

  /** What the ML service did with the request: a 2xx reply, or a thrown error
      (timeout, non-2xx status, network failure). */
  datatype OracleReply =
    | Replied(predictedStressScore: real, modelVersion: Option<string>)
    | Failed

  /** The result object of `predictStress`. */
  datatype Prediction = Prediction(predictedStressScore: real, modelVersion: string)

  const NO_DATA_SCORE: real := 0.3
  const NO_DATA_TAG: string := "fallback-heuristic"
  const NO_URL_TAG: string := "no-ml-url-heuristic"
  const ORACLE_FAILED_TAG: string := "ml-fallback-heuristic"
  const DEFAULT_ORACLE_TAG: string := "ml-v1"

  /** The features of `userId`, or None when the join of `developer_metrics`
      with `users` has no row for that id. */
  function GetDeveloperFeatures(metrics: map<UserId, MetricsRow>, roles: map<UserId, string>, userId: UserId)
    : (r: Option<Features>)
    ensures r.None? <==> userId !in metrics || userId !in roles
    ensures r.Some? ==>
      && r.value.openBugCount == metrics[userId].openBugCount
      && r.value.avgResolutionTimeHours == metrics[userId].avgResolutionTimeHours
      && r.value.currentStressScore == metrics[userId].currentStressScore
      && r.value.role == roles[userId]
  {
    if userId in metrics && userId in roles then
      var row := metrics[userId];
      Some(Features(row.openBugCount, row.avgResolutionTimeHours, row.currentStressScore, roles[userId]))
    else
      None
  }

  function Min(a: real, b: real): real {
    if a <= b then a else b
  }

  /** The local score, clamped at the top only. */
  function Heuristic(f: Features): (r: real)
    ensures r <= 1.0
    ensures f.openBugCount >= 0 && f.currentStressScore >= 0.0 ==> r >= 0.2
    ensures 0.2 + 0.05 * f.openBugCount as real + 0.5 * f.currentStressScore <= 1.0 ==>
      r == 0.2 + 0.05 * f.openBugCount as real + 0.5 * f.currentStressScore
    ensures 0.2 + 0.05 * f.openBugCount as real + 0.5 * f.currentStressScore >= 1.0 ==> r == 1.0
  {
    Min(1.0, 0.2 + f.openBugCount as real * 0.05 + f.currentStressScore * 0.5)
  }

  /** JavaScript truthiness of the `ML_SERVICE_URL` environment variable. */
  predicate UrlConfigured(mlUrl: Option<string>) {
    mlUrl.Some? && mlUrl.value != ""
  }

  /** `response.data.model_version || "ml-v1"`. */
  function OracleTag(version: Option<string>): (tag: string)
    ensures tag != ""
    ensures version.Some? && version.value != "" ==> tag == version.value
    ensures !(version.Some? && version.value != "") ==> tag == DEFAULT_ORACLE_TAG
  {
    if version.Some? && version.value != "" then version.value else DEFAULT_ORACLE_TAG
  }

  /** `predictStress(userId)` against a snapshot of the two tables, the configured
      URL and the reply the ML service would give. The result is total: an
      oracle failure is never surfaced to the caller. */
  function PredictStress(
    metrics: map<UserId, MetricsRow>, roles: map<UserId, string>, userId: UserId,
    mlUrl: Option<string>, reply: OracleReply): (p: Prediction)
    ensures p.predictedStressScore <= 1.0 || (reply.Replied? && p.predictedStressScore == reply.predictedStressScore)
    ensures GetDeveloperFeatures(metrics, roles, userId).None? ==> p == Prediction(NO_DATA_SCORE, NO_DATA_TAG)
  {
    var features := GetDeveloperFeatures(metrics, roles, userId);
    if features.None? then
      Prediction(NO_DATA_SCORE, NO_DATA_TAG)
    else if !UrlConfigured(mlUrl) then
      Prediction(Heuristic(features.value), NO_URL_TAG)
    else
      match reply
      case Replied(score, version) => Prediction(score, OracleTag(version))
      case Failed => Prediction(Heuristic(features.value), ORACLE_FAILED_TAG)
  }

  /** The heuristic never decreases when the open bug count or the current stress grows. */
  lemma HeuristicMonotone(f: Features, g: Features)
    requires f.openBugCount <= g.openBugCount
    requires f.currentStressScore <= g.currentStressScore
    ensures Heuristic(f) <= Heuristic(g)
  {
  }

  /** Worked values: open=2, stress=0.1 gives 0.35; open=8, stress=0.2 gives 0.70;
      a large backlog saturates at 1. */
  lemma HeuristicExamples()
    ensures Heuristic(Features(2, 5.0, 0.1, "developer")) == 0.35
    ensures Heuristic(Features(8, 0.0, 0.2, "developer")) == 0.70
    ensures Heuristic(Features(0, 0.0, 0.0, "developer")) == 0.2
    ensures Heuristic(Features(100, 0.0, 1.0, "developer")) == 1.0
  {
  }

  /** There is no lower clamp: whenever the linear formula is negative, so is
      the score; for instance no open bugs and a stored stress of -1. */
  lemma HeuristicHasNoLowerClamp(f: Features)
    ensures 0.2 + 0.05 * f.openBugCount as real + 0.5 * f.currentStressScore < 0.0 ==> Heuristic(f) < 0.0
    ensures Heuristic(Features(0, 0.0, -1.0, "developer")) < 0.0
  {
  }

  /** Without a metrics row the result is the fixed fallback, whatever the
      oracle would have said: the oracle is not consulted. */
  lemma NoDataIgnoresOracle(
    metrics: map<UserId, MetricsRow>, roles: map<UserId, string>, userId: UserId,
    mlUrl: Option<string>, r1: OracleReply, r2: OracleReply)
    requires userId !in metrics || userId !in roles
    ensures PredictStress(metrics, roles, userId, mlUrl, r1) == Prediction(0.3, "fallback-heuristic")
    ensures PredictStress(metrics, roles, userId, mlUrl, r1) == PredictStress(metrics, roles, userId, mlUrl, r2)
  {
  }

  /** An empty `ML_SERVICE_URL` behaves exactly like an unset one. */
  lemma EmptyUrlActsAsUnset(
    metrics: map<UserId, MetricsRow>, roles: map<UserId, string>, userId: UserId,
    r1: OracleReply, r2: OracleReply)
    ensures PredictStress(metrics, roles, userId, Some(""), r1) == PredictStress(metrics, roles, userId, None, r2)
  {
  }

  /** With no URL configured the oracle is not consulted either. */
  lemma NoUrlIgnoresOracle(
    metrics: map<UserId, MetricsRow>, roles: map<UserId, string>, userId: UserId,
    mlUrl: Option<string>, r1: OracleReply, r2: OracleReply)
    requires !UrlConfigured(mlUrl)
    ensures PredictStress(metrics, roles, userId, mlUrl, r1) == PredictStress(metrics, roles, userId, mlUrl, r2)
  {
  }

  /** "No URL" and "oracle failed" give the same score for the same features;
      only the tag tells them apart. */
  lemma NoUrlAndFailureAgree(
    metrics: map<UserId, MetricsRow>, roles: map<UserId, string>, userId: UserId,
    unset: Option<string>, url: Option<string>, r: OracleReply)
    requires userId in metrics && userId in roles
    requires !UrlConfigured(unset) && UrlConfigured(url)
    ensures PredictStress(metrics, roles, userId, unset, r).predictedStressScore
         == PredictStress(metrics, roles, userId, url, Failed).predictedStressScore
    ensures PredictStress(metrics, roles, userId, unset, r).modelVersion == "no-ml-url-heuristic"
    ensures PredictStress(metrics, roles, userId, url, Failed).modelVersion == "ml-fallback-heuristic"
  {
  }

  /** A successful oracle call is passed through unchanged, with "ml-v1"
      standing in for a missing or empty model version. */
  lemma OracleSuccessPassesThrough(
    metrics: map<UserId, MetricsRow>, roles: map<UserId, string>, userId: UserId,
    mlUrl: Option<string>, score: real, version: Option<string>)
    requires userId in metrics && userId in roles
    requires UrlConfigured(mlUrl)
    ensures PredictStress(metrics, roles, userId, mlUrl, Replied(score, version)).predictedStressScore == score
    ensures PredictStress(metrics, roles, userId, mlUrl, Replied(score, version)).modelVersion
         == if version.Some? && version.value != "" then version.value else "ml-v1"
  {
  }

  /** An oracle failure always degrades to the heuristic of the stored features. */
  lemma OracleFailureFallsBack(
    metrics: map<UserId, MetricsRow>, roles: map<UserId, string>, userId: UserId, mlUrl: Option<string>)
    requires userId in metrics && userId in roles
    requires UrlConfigured(mlUrl)
    ensures PredictStress(metrics, roles, userId, mlUrl, Failed)
         == Prediction(Heuristic(GetDeveloperFeatures(metrics, roles, userId).value), "ml-fallback-heuristic")
  {
  }

  /** The predictor's range: every score lies in [0,1] when the stored
      metrics are non-negative and any oracle reply lies in [0,1]. */
  lemma PredictStressInUnitInterval(
    metrics: map<UserId, MetricsRow>, roles: map<UserId, string>, userId: UserId,
    mlUrl: Option<string>, reply: OracleReply)
    requires userId in metrics ==> metrics[userId].openBugCount >= 0 && metrics[userId].currentStressScore >= 0.0
    requires reply.Replied? ==> 0.0 <= reply.predictedStressScore <= 1.0
    ensures 0.0 <= PredictStress(metrics, roles, userId, mlUrl, reply).predictedStressScore <= 1.0
  {
  }

  /** The `developer_metrics` table: `updateStressScore` rewrites one row in place. */
  class MetricsTable {
    var rows: map<UserId, MetricsRow>

    constructor (initial: map<UserId, MetricsRow>)
      ensures rows == initial
    {
      rows := initial;
    }

    /** `UPDATE developer_metrics SET current_stress_score = score, updated_at = now
        WHERE user_id = userId`; an unknown user matches no row and nothing changes. */
    method UpdateStressScore(userId: UserId, score: real, now: int)
      modifies this
      ensures rows == WithStressScore(old(rows), userId, score, now)
      ensures rows.Keys == old(rows).Keys
      ensures forall u :: u in old(rows) && u != userId ==> rows[u] == old(rows)[u]
      ensures userId in rows ==> rows[userId] == old(rows)[userId].(currentStressScore := score, updatedAt := now)
    {
      if userId in rows {
        rows := rows[userId := rows[userId].(currentStressScore := score, updatedAt := now)];
      }
    }
  }

  /** The table after the stress update of `userId`. */
  function WithStressScore(rows: map<UserId, MetricsRow>, userId: UserId, score: real, now: int)
    : (r: map<UserId, MetricsRow>)
    ensures r.Keys == rows.Keys
    ensures forall u :: u in rows && u != userId ==> r[u] == rows[u]
    ensures userId in rows ==>
      && r[userId].currentStressScore == score
      && r[userId].updatedAt == now
      && r[userId].openBugCount == rows[userId].openBugCount
      && r[userId].avgResolutionTimeHours == rows[userId].avgResolutionTimeHours
  {
    if userId in rows then rows[userId := rows[userId].(currentStressScore := score, updatedAt := now)] else rows
  }

  /** After an update, the updated developer's features carry the new stress
      and nothing else; every other developer's features are unchanged. */
  lemma FeaturesAfterUpdate(
    rows: map<UserId, MetricsRow>, roles: map<UserId, string>, userId: UserId, score: real, now: int, other: UserId)
    requires other != userId
    ensures GetDeveloperFeatures(WithStressScore(rows, userId, score, now), roles, other)
         == GetDeveloperFeatures(rows, roles, other)
    ensures GetDeveloperFeatures(rows, roles, userId).Some? ==>
      GetDeveloperFeatures(WithStressScore(rows, userId, score, now), roles, userId)
        == Some(GetDeveloperFeatures(rows, roles, userId).value.(currentStressScore := score))
    ensures GetDeveloperFeatures(rows, roles, userId).None? ==>
      GetDeveloperFeatures(WithStressScore(rows, userId, score, now), roles, userId).None?
  {
  }
}
