/** The relay publisher: one forwarding request becomes one broker message on a chosen topic. */
module Publishing {
  import opened Wrappers
  import opened Models
  import opened RuleProcessingResults
  import opened Pubsub
  import opened CloudPublisherClients

  /** What `ArgumentNullException(nameof(value))` reports. */
  const NullValueMessage := "Value cannot be null."

  /**
   * The envelope: the serialized request as data, and exactly the EVENT and METHOD attributes.
   * The attribute map refuses a null value, the event being added first.
   */
  function Envelope(serialize: RequestSerializer, request: ForwardingRequest): (r: Outcome<PubsubMessage>)
    ensures r.Returned? <==> request.event.Some? && request.httpMethod.Some?
    ensures r.Threw? ==> r.exception == ArgumentNullException("value", NullValueMessage)
    ensures r.Returned? ==>
      r.value.data == serialize(request)
      && r.value.attributes.Keys == {EventAttribute, MethodAttribute}
      && r.value.attributes[EventAttribute] == request.event.value
      && r.value.attributes[MethodAttribute] == request.httpMethod.value
  {
    if request.event.None? || request.httpMethod.None? then Threw(ArgumentNullException("value", NullValueMessage))
    else Returned(PubsubMessage(serialize(request), map[EventAttribute := request.event.value, MethodAttribute := request.httpMethod.value]))
  }

  /** The publish call's answer becomes a result value; its exception is not rethrown. */
  function Translate(reply: BrokerReply): (r: PublishResult)
    ensures r.PublishSuccess? <==> reply.Published?
    ensures reply.Published? ==> r.messageId == reply.messageId
    ensures reply.PublishThrew? ==> r.errorMessage == reply.message
  {
    match reply
    case Published(id) => PublishSuccess(id)
    case PublishThrew(msg) => PublishFailure(msg)
  }

  /**
   * `PublishingService.Publish`: the client comes from the cache for exactly (projectId, topicId)
   * and a failure there propagates; otherwise exactly one message is published and its answer
   * translated.
   */
  method Publish(factory: PublisherClientFactory, serialize: RequestSerializer, broker: Broker,
                 projectId: string, topicId: string, request: ForwardingRequest)
    returns (r: Outcome<PublishResult>, sent: seq<(PublisherClient, PubsubMessage)>)
    modifies factory
    ensures ClientKey(projectId, topicId) in factory.clients
    ensures ClientKey(projectId, topicId) in old(factory.clients) ==> factory.clients == old(factory.clients)
    ensures ClientKey(projectId, topicId) !in old(factory.clients) ==>
      factory.clients == old(factory.clients)[ClientKey(projectId, topicId) := EntryOf(CreatePublisherClient(projectId, topicId))]
    ensures match Resolve(factory.clients[ClientKey(projectId, topicId)])
      case Threw(e) => r == Threw(e) && sent == []
      case Returned(client) =>
        match Envelope(serialize, request)
        case Threw(e) => r == Threw(e) && sent == []
        case Returned(message) =>
          sent == [(client, message)] && r == Returned(Translate(broker(client, message)))
  {
    var publisher := factory.GetOrCreate(projectId, topicId);
    if publisher.Threw? {
      return Threw(publisher.exception), [];
    }
    var client := publisher.value;
    var messageData := serialize(request);
    var attributes: map<string, string> := map[];
    if request.event.None? {
      return Threw(ArgumentNullException("value", NullValueMessage)), [];
    }
    attributes := attributes[EventAttribute := request.event.value];
    if request.httpMethod.None? {
      return Threw(ArgumentNullException("value", NullValueMessage)), [];
    }
    attributes := attributes[MethodAttribute := request.httpMethod.value];
    var message := PubsubMessage(messageData, attributes);
    assert Envelope(serialize, request) == Returned(message);
    var reply := broker(client, message);
    sent := [(client, message)];
    r := Returned(Translate(reply));
  }
}
