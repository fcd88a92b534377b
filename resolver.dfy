/**
 * The forecast resolver: chooses between the shaped remote result and the
 * local estimate. The two replies of the prediction service are inputs;
 * the network itself is not modelled.
 */
module Resolver {
  import opened Wrappers
  import opened ForecastTypes
  import opened RecoveryTags
  import opened LocalEstimator
  import opened RemoteShaping

  /**
   * The loss endpoint's reply: the call failed (transport error or a non-2xx
   * status, both of which throw), or it returned a body that may lack
   * predicted_economic_loss_usd.
   */
  datatype LossReply = LossFailed | LossReceived(predictedEconomicLossUsd: Option<real>)

  /** The severity endpoint's reply: failed, or a body with predicted_fsi (maybe absent) and suggested_response. */
  datatype SeverityReply = SeverityFailed | SeverityReceived(predictedFsi: Option<real>, suggestedResponse: string)

  /** JavaScript truthiness of a numeric JSON field: present and not zero. */
  predicate Truthy(field: Option<real>) {
    field.Some? && field.value != 0.0
  }

  /** Both calls returned and both required fields are truthy. */
  predicate RemoteComplete(loss: LossReply, severity: SeverityReply) {
    && loss.LossReceived? && severity.SeverityReceived?
    && Truthy(loss.predictedEconomicLossUsd) && Truthy(severity.predictedFsi)
  }

  /**
   * The result set on the page: the shaped remote result when the replies
   * are complete, the local estimate in every other case. Either way the
   * four components add up to the total give or take one.
   */
  function FetchBackendResults(input: ForecastInput, loss: LossReply, severity: SeverityReply): (r: ForecastResult)
    ensures RemoteComplete(loss, severity) ==>
      r == CreateResults(input, loss.predictedEconomicLossUsd.value, severity.predictedFsi.value, severity.suggestedResponse)
    ensures !RemoteComplete(loss, severity) ==> r == CalculateForecastResults(input)
    ensures r.totalLoss - 1 <= ComponentSum(r) <= r.totalLoss + 1
    ensures ChartShowsComponents(r)
  {
    if RemoteComplete(loss, severity) then
      var lossUsd, fsi := loss.predictedEconomicLossUsd.value, severity.predictedFsi.value;
      SharesWithinOneOfTotal(input, lossUsd, fsi, severity.suggestedResponse);
      CreateResults(input, lossUsd, fsi, severity.suggestedResponse)
    else
      CalculateForecastResults(input)
  }

  /**
   * For a risk level offered by the form, the displayed tags reveal which
   * path produced the result: three tags exactly when the remote result was
   * used, two when the local estimate was.
   */
  lemma TagCountRevealsPath(input: ForecastInput, loss: LossReply, severity: SeverityReply)
    requires input.fireRisk in RiskLevels
    ensures var r := FetchBackendResults(input, loss, severity);
      && (|r.recoveryStrategy.tags| == 3 <==> RemoteComplete(loss, severity))
      && (|r.recoveryStrategy.tags| == 2 <==> !RemoteComplete(loss, severity))
  {
    if !RemoteComplete(loss, severity) {
      assert |StrategyFor(input.fireRisk).tags| == 2;
    }
  }

  /** A zero loss or a zero FSI is falsy, so the estimator is used even though both calls returned. */
  lemma ZeroPredictionFallsBack(input: ForecastInput, lossUsd: real, fsi: real, response: string)
    requires lossUsd == 0.0 || fsi == 0.0
    ensures FetchBackendResults(input, LossReceived(Some(lossUsd)), SeverityReceived(Some(fsi), response))
         == CalculateForecastResults(input)
  {
  }

  /** A failed call on either endpoint gives exactly the local estimate, whatever the other reply. */
  lemma FailedCallFallsBack(input: ForecastInput, loss: LossReply, severity: SeverityReply)
    requires loss == LossFailed || severity == SeverityFailed
    ensures FetchBackendResults(input, loss, severity) == CalculateForecastResults(input)
  {
  }
}
