/** The broker vocabulary shared by publishers and consumers. */
module Pubsub {
  import opened Wrappers
  import opened Models

  /** A broker message: the data (text of the UTF-8 payload) and its string attributes. */
  datatype PubsubMessage = PubsubMessage(data: string, attributes: map<string, string>)

  /** `FunctionAttributes.EventAttribute` / `MethodAttribute` */
  const EventAttribute := "EVENT"
  const MethodAttribute := "METHOD"

  /** The consumer's answer to the broker. */
  datatype Reply = Ack | Nack

  /** A created publisher client, identified by the project and topic it was created for. */
  datatype PublisherClient = PublisherClient(projectId: string, topicId: string)

  /** What `PublishAsync` does: it answers a message id, or throws with a message. */
  datatype BrokerReply = Published(messageId: string) | PublishThrew(message: string)

  type Broker = (PublisherClient, PubsubMessage) -> BrokerReply

  /** `JsonUtils.Serialize` / `Deserialize` on forwarding requests; a malformed text throws, the literal null gives None. */
  type RequestSerializer = ForwardingRequest -> string
  type RequestDeserializer = string -> Outcome<Option<ForwardingRequest>>

  const ProjectIdNotSet := "Environment variable 'GOOGLE_CLOUD_PROJECT_ID' is not set for Pub/Sub client registration."
  const TopicIdNotSet := "Environment variable 'PUBSUB_TOPIC_ID' is not set for Pub/Sub client registration."

  /**
   * The `CreateInstance` validation both client factories perform: an empty project id fails
   * first, then an empty topic id; otherwise the client for that project and topic.
   */
  function CreatePublisherClient(projectId: string, topicId: string): (r: Outcome<PublisherClient>)
    ensures r.Returned? <==> projectId != "" && topicId != ""
    ensures r.Returned? ==> r.value == PublisherClient(projectId, topicId)
    ensures projectId == "" ==> r == Threw(InvalidOperationException(ProjectIdNotSet))
    ensures projectId != "" && topicId == "" ==> r == Threw(InvalidOperationException(TopicIdNotSet))
  {
    if projectId == "" then Threw(InvalidOperationException(ProjectIdNotSet))
    else if topicId == "" then Threw(InvalidOperationException(TopicIdNotSet))
    else Returned(PublisherClient(projectId, topicId))
  }
}
