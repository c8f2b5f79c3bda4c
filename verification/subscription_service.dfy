/**
 * The older single-subscription consumer. It was written against a three-case dispatcher
 * result (forwarded, no matching rule, no body), which is what it is modelled against here.
 */
module SubscriptionServices {
  import opened Wrappers
  import opened Strings
  import opened Http
  import opened Models
  import opened RuleProcessingResults
  import opened Configuration
  import opened Pubsub
  import opened CloudMessageHandlers
  import opened BackgroundListening

  /** The three-case dispatcher result this consumer expects. */
  datatype LegacyResult = LegacyForwarded(response: UpstreamResponse) | LegacyNoMatchingRule | LegacyNoBody

  /** The four-case union `WrapResultTypes` produces. */
  datatype WrappedResult =
    | WrappedForwarded(response: UpstreamResponse)
    | WrappedNoMatchingRule
    | WrappedNoBody
    | WrappedMethodNotSupported(notSupported: MethodNotSupportedRuleResult)

  /** `WrapResultTypes`: each case goes to the same case of the wider union. */
  function WrapResultTypes(result: LegacyResult): (r: WrappedResult)
    ensures !r.WrappedMethodNotSupported?
    ensures Unwrap(r) == Some(result)
  {
    match result
    case LegacyForwarded(response) => WrappedForwarded(response)
    case LegacyNoMatchingRule => WrappedNoMatchingRule
    case LegacyNoBody => WrappedNoBody
  }

  /** The inverse of the wrapping; the extra case has no three-case counterpart. */
  function Unwrap(w: WrappedResult): (r: Option<LegacyResult>)
    ensures r.None? <==> w.WrappedMethodNotSupported?
  {
    match w
    case WrappedForwarded(response) => Some(LegacyForwarded(response))
    case WrappedNoMatchingRule => Some(LegacyNoMatchingRule)
    case WrappedNoBody => Some(LegacyNoBody)
    case WrappedMethodNotSupported(_) => None
  }

  /** Wrapping then unwrapping is the identity on the wrapped cases. */
  lemma WrapUnwrap(w: WrappedResult)
    requires !w.WrappedMethodNotSupported?
    ensures WrapResultTypes(Unwrap(w).value) == w
  {
  }

  /** The consumer's `ProcessResult`: a 2xx forward and NoBody acknowledge; anything else refuses. */
  function ProcessResult(result: LegacyResult): (r: Reply)
    ensures r == Ack <==> result == LegacyNoBody || (result.LegacyForwarded? && IsSuccessStatusCode(result.response))
  {
    match result
    case LegacyForwarded(response) => if IsSuccessStatusCode(response) then Ack else Nack
    case LegacyNoMatchingRule => Nack
    case LegacyNoBody => Ack
  }

  function ToCurrent(result: LegacyResult): ProcessingResult {
    match result
    case LegacyForwarded(response) => Forwarded(response)
    case LegacyNoMatchingRule => NoMatchingRule
    case LegacyNoBody => NoBody
  }

  /** On the three shared cases the older consumer replies as the current handler does. */
  lemma ProcessResultAgreesWithCurrentHandler(result: LegacyResult, h: CloudMessageHandler, request: ForwardingRequest)
    ensures h.ProcessResult(ToCurrent(result), request).outcome == Returned(ProcessResult(result))
    ensures h.ProcessResult(ToCurrent(result), request).relays == []
  {
  }

  /** The consumer's collaborators: JSON parsing and the three-case dispatcher. */
  datatype LegacyEnv = LegacyEnv(deserialize: RequestDeserializer, dispatch: DispatchRequest -> Outcome<LegacyResult>)

  datatype LegacyHandled = LegacyHandled(outcome: Outcome<Reply>, dispatches: seq<DispatchRequest>)

  /**
   * `OnMessage`: a null envelope and a method other than exactly POST or PUT are refused with no
   * dispatch; otherwise one dispatch with the attribute's event and the envelope's content.
   */
  function OnMessage(env: LegacyEnv, message: PubsubMessage): (r: LegacyHandled)
    ensures env.deserialize(message.data).Threw? ==> r == LegacyHandled(Threw(env.deserialize(message.data).exception), [])
    ensures env.deserialize(message.data) == Returned(None) ==> r == LegacyHandled(Returned(Nack), [])
    ensures (env.deserialize(message.data).Returned? && env.deserialize(message.data).value.Some?
             && !AllowedMethod(Attribute(message, MethodAttribute))) ==> r == LegacyHandled(Returned(Nack), [])
    ensures r.dispatches != [] ==>
      var d := DispatchRequest(Attribute(message, MethodAttribute), Attribute(message, EventAttribute),
                               env.deserialize(message.data).value.value.content.GetOr(""));
      r.dispatches == [d]
      && (env.dispatch(d).Returned? ==> r.outcome == Returned(ProcessResult(env.dispatch(d).value)))
      && (env.dispatch(d).Threw? ==> r.outcome == Threw(env.dispatch(d).exception))
    ensures r.dispatches == [] <==>
      !(env.deserialize(message.data).Returned? && env.deserialize(message.data).value.Some?
        && AllowedMethod(Attribute(message, MethodAttribute)))
  {
    var eventName := Attribute(message, EventAttribute);
    var requestMethod := Attribute(message, MethodAttribute);
    match env.deserialize(message.data)
    case Threw(e) => LegacyHandled(Threw(e), [])
    case Returned(None) => LegacyHandled(Returned(Nack), [])
    case Returned(Some(request)) =>
      if !AllowedMethod(requestMethod) then LegacyHandled(Returned(Nack), [])
      else
        var d := DispatchRequest(requestMethod, eventName, request.content.GetOr(""));
        match env.dispatch(d)
        case Threw(e) => LegacyHandled(Threw(e), [d])
        case Returned(result) => LegacyHandled(Returned(ProcessResult(result)), [d])
  }

  /** The one subscription the consumer listens on. */
  datatype Subscription = Subscription(projectId: string, subscriptionId: string)

  class SubscriptionService {
    const shutdownSource: CancellationTokenSource

    constructor ()
      ensures fresh(shutdownSource) && !shutdownSource.cancelled
    {
      shutdownSource := new CancellationTokenSource();
    }

    /** `StartAsync`: the project id, then the generic subscription id, must be set and non-empty. */
    function StartAsync(config: Config): (r: Outcome<Subscription>)
      ensures IsNullOrEmpty(GetValue(config, CloudProjectIdKey)) ==>
        r == Threw(ArgumentNullException("projectId", NotSet(CloudProjectIdKey)))
      ensures !IsNullOrEmpty(GetValue(config, CloudProjectIdKey)) && IsNullOrEmpty(GetValue(config, GenericSubscriptionIdKey)) ==>
        r == Threw(ArgumentNullException("subscriptionId", NotSet(GenericSubscriptionIdKey)))
      ensures r.Returned? <==>
        !IsNullOrEmpty(GetValue(config, CloudProjectIdKey)) && !IsNullOrEmpty(GetValue(config, GenericSubscriptionIdKey))
      ensures r.Returned? ==>
        r.value == Subscription(config[CloudProjectIdKey], config[GenericSubscriptionIdKey])
    {
      var projectId := GetValue(config, CloudProjectIdKey);
      var subscriptionId := GetValue(config, GenericSubscriptionIdKey);
      if IsNullOrEmpty(projectId) then Threw(ArgumentNullException("projectId", NotSet(CloudProjectIdKey)))
      else if IsNullOrEmpty(subscriptionId) then Threw(ArgumentNullException("subscriptionId", NotSet(GenericSubscriptionIdKey)))
      else Returned(Subscription(projectId.value, subscriptionId.value))
    }

    /** `Subscribe`: the same retry loop as the listener's, with the same 60-second spacing. */
    method Subscribe(attempt: nat -> AttemptOutcome, cancelAt: nat) returns (log: seq<LoopEvent>)
      ensures log == RetryLog(attempt, cancelAt)
    {
      log := BackgroundListening.Subscribe(attempt, cancelAt);
    }

    method StopAsync()
      modifies shutdownSource
      ensures shutdownSource.cancelled
    {
      shutdownSource.Cancel();
    }
  }
}
