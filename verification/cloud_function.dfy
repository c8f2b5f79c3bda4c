/**
 * The HTTP cloud function that accepts a rule as JSON and publishes it to the configured topic,
 * answering with a status code and a text at each exit of its ladder.
 */
module CloudFunction {
  import opened Wrappers
  import opened Models
  import opened Http
  import opened Configuration
  import opened Pubsub

  /** The state the constructor establishes: the ids and the created publisher. */
  datatype FunctionState = FunctionState(projectId: string, topicId: string, publisher: PublisherClient)

  function NotSetMessage(key: string): string {
    "Environment variable '" + key + "' is not set."
  }

  /**
   * The constructor: the project id must be set and non-empty, then the topic id; either
   * missing throws InvalidOperationException. The client is created for that project and topic.
   */
  function Construct(configuration: Config): (r: Outcome<FunctionState>)
    ensures var p := GetValue(configuration, CloudProjectIdKey).GetOr("");
      p == "" ==> r == Threw(InvalidOperationException(NotSetMessage(CloudProjectIdKey)))
    ensures var p := GetValue(configuration, CloudProjectIdKey).GetOr("");
      var t := GetValue(configuration, GenericTopicIdKey).GetOr("");
      p != "" && t == "" ==> r == Threw(InvalidOperationException(NotSetMessage(GenericTopicIdKey)))
    ensures var p := GetValue(configuration, CloudProjectIdKey).GetOr("");
      var t := GetValue(configuration, GenericTopicIdKey).GetOr("");
      r.Returned? <==> p != "" && t != ""
    ensures r.Returned? ==>
      r.value.projectId != "" && r.value.topicId != ""
      && r.value.publisher == PublisherClient(r.value.projectId, r.value.topicId)
      && Some(r.value.projectId) == GetValue(configuration, CloudProjectIdKey)
      && Some(r.value.topicId) == GetValue(configuration, GenericTopicIdKey)
  {
    var projectId := GetValue(configuration, CloudProjectIdKey).GetOr("");
    var topicId := GetValue(configuration, GenericTopicIdKey).GetOr("");
    if projectId == "" then Threw(InvalidOperationException(NotSetMessage(CloudProjectIdKey)))
    else if topicId == "" then Threw(InvalidOperationException(NotSetMessage(GenericTopicIdKey)))
    else Returned(FunctionState(projectId, topicId, PublisherClient(projectId, topicId)))
  }

  /** The incoming request: its method and the whole body text. */
  datatype FunctionRequest = FunctionRequest(httpMethod: string, body: string)

  /** The function's collaborators: rule JSON parsing and printing, and the broker. */
  datatype FunctionEnv = FunctionEnv(
    deserialize: string -> Outcome<Option<ForwardingRule>>,
    serialize: ForwardingRule -> string,
    broker: Broker)

  /** One exit of the ladder: the status code, the text written, and the messages published. */
  datatype FunctionReply = FunctionReply(statusCode: int, text: string, published: seq<PubsubMessage>)

  const MethodNotAllowedText := "Only POST/PUT requests are allowed."
  const EmptyBodyText := "Request body is empty."
  const NullRuleText := "Invalid JSON format for ForwardingRule object"
  const InternalErrorText := "An internal error occurred during processing."

  /**
   * `HandleAsync`'s ladder. Only exactly POST or PUT pass (405); an empty body gives 400; a
   * rule that parses to null or a JSON error gives 400, any other parse failure 500; a parsed
   * rule is serialized and published once, with no attributes, answering 200 with the message
   * id or 500 with the publish error.
   */
  function Respond(f: FunctionState, env: FunctionEnv, request: FunctionRequest): (r: FunctionReply)
    ensures r.statusCode == 405 <==> request.httpMethod != POST && request.httpMethod != PUT
    ensures r.statusCode == 405 ==> r.text == MethodNotAllowedText
    ensures (request.httpMethod == POST || request.httpMethod == PUT) && request.body == "" ==>
      r == FunctionReply(400, EmptyBodyText, [])
    ensures r.published != [] <==>
      (request.httpMethod == POST || request.httpMethod == PUT) && request.body != ""
      && env.deserialize(request.body).Returned? && env.deserialize(request.body).value.Some?
    ensures r.published != [] ==>
      r.published == [PubsubMessage(env.serialize(env.deserialize(request.body).value.value), map[])]
      && (r.statusCode == 200 <==> env.broker(f.publisher, r.published[0]).Published?)
    ensures r.statusCode == 200 ==>
      r.published != [] && r.text == "Message published successfully. Message ID: " + env.broker(f.publisher, r.published[0]).messageId
    ensures r.published != [] && env.broker(f.publisher, r.published[0]).PublishThrew? ==>
      r.statusCode == 500 && r.text == "Failed to publish message: " + env.broker(f.publisher, r.published[0]).message
    ensures ((request.httpMethod == POST || request.httpMethod == PUT) && request.body != ""
             && env.deserialize(request.body) == Returned(None)) ==> r == FunctionReply(400, NullRuleText, [])
    ensures r.statusCode in {200, 400, 405, 500}
  {
    if request.httpMethod != POST && request.httpMethod != PUT then FunctionReply(405, MethodNotAllowedText, [])
    else if request.body == "" then FunctionReply(400, EmptyBodyText, [])
    else match env.deserialize(request.body)
      case Returned(None) => FunctionReply(400, NullRuleText, [])
      case Threw(JsonException(msg)) => FunctionReply(400, "Invalid JSON format: " + msg, [])
      case Threw(_) => FunctionReply(500, InternalErrorText, [])
      case Returned(Some(rule)) =>
        var message := PubsubMessage(env.serialize(rule), map[]);
        match env.broker(f.publisher, message)
        case Published(id) => FunctionReply(200, "Message published successfully. Message ID: " + id, [message])
        case PublishThrew(msg) => FunctionReply(500, "Failed to publish message: " + msg, [message])
  }

  /** A failed parse never publishes, and only a JSON error or a null rule is the caller's fault (400). */
  lemma ParseFailuresNeverPublish(f: FunctionState, env: FunctionEnv, request: FunctionRequest)
    requires request.httpMethod == POST || request.httpMethod == PUT
    requires request.body != "" && env.deserialize(request.body).Threw?
    ensures Respond(f, env, request).published == []
    ensures Respond(f, env, request).statusCode == (if env.deserialize(request.body).exception.JsonException? then 400 else 500)
  {
  }

  /** The outgoing response the function writes to. */
  class FunctionResponse {
    var statusCode: int
    var text: string

    constructor ()
      ensures statusCode == 200 && text == ""
    {
      statusCode := 200;
      text := "";
    }
  }

  /** `HandleAsync`: writes the ladder's status code and text, and publishes what the ladder says. */
  method HandleAsync(f: FunctionState, env: FunctionEnv, request: FunctionRequest, response: FunctionResponse)
    returns (published: seq<PubsubMessage>)
    modifies response
    ensures response.statusCode == Respond(f, env, request).statusCode
    ensures response.text == old(response.text) + Respond(f, env, request).text
    ensures published == Respond(f, env, request).published
  {
    if request.httpMethod != POST && request.httpMethod != PUT {
      response.statusCode := 405;
      response.text := response.text + MethodNotAllowedText;
      return [];
    }
    if request.body == "" {
      response.statusCode := 400;
      response.text := response.text + EmptyBodyText;
      return [];
    }
    var parsed := env.deserialize(request.body);
    if parsed.Threw? {
      if parsed.exception.JsonException? {
        response.statusCode := 400;
        response.text := response.text + "Invalid JSON format: " + parsed.exception.message;
      } else {
        response.statusCode := 500;
        response.text := response.text + InternalErrorText;
      }
      return [];
    }
    if parsed.value.None? {
      response.statusCode := 400;
      response.text := response.text + NullRuleText;
      return [];
    }
    var rule := parsed.value.value;
    var message := PubsubMessage(env.serialize(rule), map[]);
    published := [message];
    var reply := env.broker(f.publisher, message);
    if reply.Published? {
      response.statusCode := 200;
      response.text := response.text + "Message published successfully. Message ID: " + reply.messageId;
    } else {
      response.statusCode := 500;
      response.text := response.text + "Failed to publish message: " + reply.message;
    }
  }
}
