/**
 * The relay consumer: one broker message in, Ack or Nack out, after dispatching it locally
 * and, for a rule that lives elsewhere, relaying it on.
 */
module CloudMessageHandlers {
  import opened Wrappers
  import opened Models
  import opened Http
  import opened RuleProcessingResults
  import opened ForwardingService
  import opened RemoteRulePublishing
  import opened Pubsub

  /** One dispatch the consumer asked of the dispatcher: verb, event, and the body passed on. */
  datatype DispatchRequest = DispatchRequest(httpMethod: string, eventName: string, body: string)

  /**
   * What handling one message returned (or threw), with the dispatches, outbound calls and
   * relays (calls of the remote-rule publisher) it made.
   */
  datatype Handled = Handled(
    outcome: Outcome<Reply>,
    dispatches: seq<DispatchRequest>,
    calls: seq<OutboundCall>,
    relays: seq<(ForwardingRequest, ForwardingRule)>)

  function Answer(reply: Reply): Handled {
    Handled(Returned(reply), [], [], [])
  }

  /** `TryGetValue` with the null result replaced by "". */
  function Attribute(message: PubsubMessage, name: string): (r: string)
    ensures name in message.attributes ==> r == message.attributes[name]
    ensures name !in message.attributes ==> r == ""
  {
    if name in message.attributes then message.attributes[name] else ""
  }

  /** `_allowedMethods`: an ordinal set holding exactly "POST" and "PUT". */
  predicate AllowedMethod(requestMethod: string) {
    requestMethod in {POST, PUT}
  }

  /** The handler's collaborators: JSON parsing, the dispatcher's, and the relay's. */
  datatype HandlerEnv = HandlerEnv(deserialize: RequestDeserializer, service: Collaborators, relay: RelayEnv)

  datatype CloudMessageHandler = CloudMessageHandler(env: HandlerEnv, canForwardToTopic: bool)
  {
    /**
     * A rule found elsewhere: the location handler refuses it, the generic handler relays the
     * parsed request with that rule exactly once and acknowledges only a successful publish.
     */
    function HandleRemoteRule(request: ForwardingRequest, remoteRule: ForwardingRule): (r: Handled)
      ensures !canForwardToTopic ==> r == Answer(Nack)
      ensures canForwardToTopic ==> r.relays == [(request, remoteRule)] && r.dispatches == [] && r.calls == []
      ensures canForwardToTopic ==>
        (r.outcome == Returned(Ack) <==> Publish(env.relay, request, remoteRule).outcome.Returned?
                                          && Publish(env.relay, request, remoteRule).outcome.value.PublishSuccess?)
      ensures canForwardToTopic && Publish(env.relay, request, remoteRule).outcome.Threw? ==>
        r.outcome == Threw(Publish(env.relay, request, remoteRule).outcome.exception)
      ensures canForwardToTopic && Publish(env.relay, request, remoteRule).outcome.Returned?
              && Publish(env.relay, request, remoteRule).outcome.value.PublishFailure? ==>
        r.outcome == Returned(Nack)
    {
      if !canForwardToTopic then Answer(Nack)
      else
        var relayed := Publish(env.relay, request, remoteRule);
        var outcome := match relayed.outcome
          case Threw(e) => Threw(e)
          case Returned(PublishSuccess(_)) => Returned(Ack)
          case Returned(PublishFailure(_)) => Returned(Nack);
        Handled(outcome, [], [], [(request, remoteRule)])
    }

    /**
     * The dispatcher's answer decides the reply: a forwarded 2xx response and NoBody
     * acknowledge, any other status and NoMatchingRule refuse, RemoteRuleFound relays.
     */
    function ProcessResult(result: ProcessingResult, request: ForwardingRequest): (r: Handled)
      ensures result.Forwarded? ==> r == Answer(if IsSuccessStatusCode(result.response) then Ack else Nack)
      ensures result == NoMatchingRule ==> r == Answer(Nack)
      ensures result == NoBody ==> r == Answer(Ack)
      ensures result.RemoteRuleFound? ==> r == HandleRemoteRule(request, result.remoteRule)
      ensures !result.RemoteRuleFound? ==> r.relays == []
    {
      match result
      case Forwarded(response) => if IsSuccessStatusCode(response) then Answer(Ack) else Answer(Nack)
      case NoMatchingRule => Answer(Nack)
      case NoBody => Answer(Ack)
      case RemoteRuleFound(remoteRule) => HandleRemoteRule(request, remoteRule)
    }

    /** Dispatches a parsed, allowed message and folds the dispatcher's calls into the trace. */
    function Dispatch(requestMethod: string, eventName: string, request: ForwardingRequest): Handled
      requires AllowedMethod(requestMethod)
    {
      var body := request.content.GetOr("");
      var d := if requestMethod == POST then ProcessPostEvent(env.service, eventName, None, body)
               else ProcessPutEvent(env.service, eventName, None, body);
      var dispatch := DispatchRequest(requestMethod, eventName, body);
      match d.outcome
      case Threw(e) => Handled(Threw(e), [dispatch], d.calls, [])
      case Returned(result) =>
        var h := ProcessResult(result, request);
        Handled(h.outcome, [dispatch], d.calls, h.relays)
    }

    /**
     * `OnMessage`. The event and method come from the EVENT and METHOD attributes ("" when
     * missing). An envelope that parses to null is refused before the method is looked at; a
     * method other than exactly POST or PUT is refused; in neither case is anything dispatched.
     * Otherwise exactly one dispatch, with no request host and the envelope's content ("" when null).
     */
    function OnMessage(message: PubsubMessage): (r: Handled)
      ensures env.deserialize(message.data).Threw? ==>
        r == Handled(Threw(env.deserialize(message.data).exception), [], [], [])
      ensures env.deserialize(message.data) == Returned(None) ==> r == Answer(Nack)
      ensures (env.deserialize(message.data).Returned? && env.deserialize(message.data).value.Some?
               && !AllowedMethod(Attribute(message, MethodAttribute))) ==> r == Answer(Nack)
      ensures r.dispatches != [] <==>
        env.deserialize(message.data).Returned? && env.deserialize(message.data).value.Some?
        && AllowedMethod(Attribute(message, MethodAttribute))
      ensures r.dispatches != [] ==>
        r.dispatches == [DispatchRequest(Attribute(message, MethodAttribute), Attribute(message, EventAttribute),
                                         env.deserialize(message.data).value.value.content.GetOr(""))]
      ensures |r.calls| <= 1 && |r.relays| <= 1
      ensures r.calls != [] ==>
        r.calls[0].verb == Attribute(message, MethodAttribute) && r.calls[0].eventName == Attribute(message, EventAttribute)
      ensures r.relays != [] ==>
        canForwardToTopic && r.calls == [] && r.relays[0].0 == env.deserialize(message.data).value.value
    {
      var eventName := Attribute(message, EventAttribute);
      var requestMethod := Attribute(message, MethodAttribute);
      match env.deserialize(message.data)
      case Threw(e) => Handled(Threw(e), [], [], [])
      case Returned(None) => Answer(Nack)
      case Returned(Some(request)) =>
        if !AllowedMethod(requestMethod) then Answer(Nack)
        else Dispatch(requestMethod, eventName, request)
    }
  }

  /** The location handler (CanForwardToTopic=false) never relays, whatever it receives. */
  lemma LocationHandlerNeverRelays(env: HandlerEnv, message: PubsubMessage)
    ensures CloudMessageHandler(env, false).OnMessage(message).relays == []
  {
  }

  /**
   * When the dispatcher names a remote rule, the generic handler's reply is Ack exactly when
   * the relay published successfully, and the relay carries the parsed request and that rule.
   */
  lemma RemoteRuleAckIffRelayPublished(env: HandlerEnv, message: PubsubMessage, request: ForwardingRequest, remoteRule: ForwardingRule)
    requires env.deserialize(message.data) == Returned(Some(request))
    requires Attribute(message, MethodAttribute) == POST
    requires ProcessPostEvent(env.service, Attribute(message, EventAttribute), None, request.content.GetOr("")).outcome
             == Returned(RemoteRuleFound(remoteRule))
    ensures var r := CloudMessageHandler(env, true).OnMessage(message);
      r.relays == [(request, remoteRule)]
      && (r.outcome == Returned(Ack) <==> Publish(env.relay, request, remoteRule).outcome.Returned?
                                          && Publish(env.relay, request, remoteRule).outcome.value.PublishSuccess?)
  {
  }

  /**
   * The Ack/Nack decision, read off the inputs: a parsed message with an allowed method is
   * acknowledged exactly when the dispatch forwarded to a 2xx answer, found no body, or found a
   * remote rule that this handler relayed successfully.
   */
  lemma AckCharacterisation(h: CloudMessageHandler, message: PubsubMessage)
    requires h.env.deserialize(message.data).Returned? && h.env.deserialize(message.data).value.Some?
    requires AllowedMethod(Attribute(message, MethodAttribute))
    ensures var request := h.env.deserialize(message.data).value.value;
      var m := Attribute(message, MethodAttribute);
      var e := Attribute(message, EventAttribute);
      var d := if m == POST then ProcessPostEvent(h.env.service, e, None, request.content.GetOr(""))
               else ProcessPutEvent(h.env.service, e, None, request.content.GetOr(""));
      h.OnMessage(message).outcome == Returned(Ack) <==>
        (d.outcome == Returned(NoBody))
        || (d.outcome.Returned? && d.outcome.value.Forwarded? && IsSuccessStatusCode(d.outcome.value.response))
        || (d.outcome.Returned? && d.outcome.value.RemoteRuleFound? && h.canForwardToTopic
            && Publish(h.env.relay, request, d.outcome.value.remoteRule).outcome.Returned?
            && Publish(h.env.relay, request, d.outcome.value.remoteRule).outcome.value.PublishSuccess?)
  {
  }
}
