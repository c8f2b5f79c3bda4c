/** The tagged outcomes of rule processing and relay publishing. */
module RuleProcessingResults {
  import opened Models
  import opened Http

  /**
   * What the dispatcher returns: the forwarded upstream response, or one of the three
   * records. The data-less records are single shared values, as the `Instance` singletons are.
   */
  datatype ProcessingResult =
    | Forwarded(response: UpstreamResponse)
    | NoMatchingRule
    | NoBody
    | RemoteRuleFound(remoteRule: ForwardingRule)

  /** `RemoteRulePublishSuccessResult` | `RemoteRulePublishFailureResult` */
  datatype PublishResult =
    | PublishSuccess(messageId: string)
    | PublishFailure(errorMessage: string)

  /** `MethodNotSupportedRuleResult` */
  datatype MethodNotSupportedRuleResult = MethodNotSupportedRuleResult(httpMethod: string)
}
