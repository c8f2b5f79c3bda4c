/** The relay end to end: what one instance publishes, another instance's consumer dispatches. */
module RelayRoundTrip {
  import opened Wrappers
  import opened Models
  import opened Pubsub
  import opened Publishing
  import opened CloudMessageHandlers

  /**
   * When the JSON serializer round-trips the request, the consumer dispatches the published
   * envelope with the request's own verb, event and content: the attributes carry the verb
   * and event, the data the content.
   */
  lemma RelayedEnvelopeDispatchesOriginalRequest(h: CloudMessageHandler, serialize: RequestSerializer, request: ForwardingRequest)
    requires h.env.deserialize(serialize(request)) == Returned(Some(request))
    requires request.httpMethod.Some? && request.event.Some?
    requires AllowedMethod(request.httpMethod.value)
    ensures Envelope(serialize, request).Returned?
    ensures h.OnMessage(Envelope(serialize, request).value).dispatches
         == [DispatchRequest(request.httpMethod.value, request.event.value, request.content.GetOr(""))]
  {
    var m := Envelope(serialize, request).value;
    assert Attribute(m, MethodAttribute) == request.httpMethod.value;
    assert Attribute(m, EventAttribute) == request.event.value;
  }

  /** A relayed request whose verb is not POST or PUT is refused on arrival, without dispatch. */
  lemma RelayedEnvelopeWithOtherVerbIsRefused(h: CloudMessageHandler, serialize: RequestSerializer, request: ForwardingRequest)
    requires h.env.deserialize(serialize(request)) == Returned(Some(request))
    requires request.httpMethod.Some? && request.event.Some?
    requires !AllowedMethod(request.httpMethod.value)
    ensures Envelope(serialize, request).Returned?
    ensures h.OnMessage(Envelope(serialize, request).value) == Answer(Nack)
  {
    var m := Envelope(serialize, request).value;
    assert Attribute(m, MethodAttribute) == request.httpMethod.value;
  }
}
