/**
 * The backend's predictor talking to the ML service: the reply the backend
 * receives is the service's `Predict` on the features the backend sends.
 */
module StressPipeline {
  import opened Wrappers
  import StressService
  import StressModel

  /** The JSON body `{ developer_id: userId, features }` as the ML service reads it;
      the role travels along but the service ignores it. */
  function ToRequest(userId: StressService.UserId, f: StressService.Features): (req: StressModel.Request)
    ensures req.developerId == userId
    ensures StressModel.OpenBugs(req.features) == f.openBugCount
    ensures StressModel.CurrentStress(req.features) == f.currentStressScore
    ensures req.features.openBugCount.GetOr(0.0) == f.openBugCount as real
    ensures StressModel.AvgHours(req.features)
         == if f.avgResolutionTimeHours == 0.0 then 1.0 else f.avgResolutionTimeHours
  {
    StressModel.Request(userId, StressModel.RequestFeatures(
      Some(f.openBugCount as real), Some(f.avgResolutionTimeHours), Some(f.currentStressScore)))
  }

  /** The 2xx reply the ML service gives for that body. */
  function ServiceReply(svc: StressModel.Service, userId: StressService.UserId, f: StressService.Features)
    : (reply: StressService.OracleReply)
    ensures reply.Replied? && 0.0 <= reply.predictedStressScore <= 1.0
  {
    var resp := StressModel.Predict(svc, ToRequest(userId, f));
    StressService.Replied(resp.predictedStressScore, Some(resp.modelVersion))
  }

  /** When the ML service answers, the backend returns its score and its tag
      unchanged: a loaded service's tag is never empty, so "ml-v1" never appears. */
  lemma ServiceAnswerPassesThrough(
    metrics: map<StressService.UserId, StressService.MetricsRow>, roles: map<StressService.UserId, string>,
    userId: StressService.UserId, mlUrl: Option<string>, modelFileExists: bool, stored: StressModel.Pipeline)
    requires userId in metrics && userId in roles
    requires StressService.UrlConfigured(mlUrl)
    ensures
      var f := StressService.GetDeveloperFeatures(metrics, roles, userId).value;
      var svc := StressModel.LoadModel(modelFileExists, stored);
      var resp := StressModel.Predict(svc, ToRequest(userId, f));
      StressService.PredictStress(metrics, roles, userId, mlUrl, ServiceReply(svc, userId, f))
        == StressService.Prediction(resp.predictedStressScore, resp.modelVersion)
  {
  }

  /** With this ML service as the oracle, every prediction of the backend lies
      in [0,1] as long as the stored metrics are non-negative. */
  lemma EndToEndInUnitInterval(
    metrics: map<StressService.UserId, StressService.MetricsRow>, roles: map<StressService.UserId, string>,
    userId: StressService.UserId, mlUrl: Option<string>, svc: StressModel.Service, serviceUp: bool)
    requires userId in metrics ==> metrics[userId].openBugCount >= 0 && metrics[userId].currentStressScore >= 0.0
    ensures
      var reply := if serviceUp && userId in metrics && userId in roles
        then ServiceReply(svc, userId, StressService.GetDeveloperFeatures(metrics, roles, userId).value)
        else StressService.Failed;
      0.0 <= StressService.PredictStress(metrics, roles, userId, mlUrl, reply).predictedStressScore <= 1.0
  {
    var reply := if serviceUp && userId in metrics && userId in roles
      then ServiceReply(svc, userId, StressService.GetDeveloperFeatures(metrics, roles, userId).value)
      else StressService.Failed;
    StressService.PredictStressInUnitInterval(metrics, roles, userId, mlUrl, reply);
  }
}
