/** The cloud function's publisher factory: one client, created on first use and then kept. */
module FunctionPublisherClients {
  import opened Wrappers
  import opened Configuration
  import opened Pubsub

  /** A `Lazy<PublisherClient>` that caches exceptions: not yet evaluated, created, or faulted. */
  datatype LazyClient = NotCreated | Created(client: PublisherClient) | Faulted(exception: Exception)

  /** `CreateInstance`: reads the project and topic ids from configuration, then validates them. */
  function CreateInstance(configuration: Config): (r: Outcome<PublisherClient>)
    ensures r.Returned? <==> !IsEmpty(configuration, CloudProjectIdKey) && !IsEmpty(configuration, GenericTopicIdKey)
    ensures IsEmpty(configuration, CloudProjectIdKey) ==> r == Threw(InvalidOperationException(ProjectIdNotSet))
    ensures !IsEmpty(configuration, CloudProjectIdKey) && IsEmpty(configuration, GenericTopicIdKey) ==>
      r == Threw(InvalidOperationException(TopicIdNotSet))
  {
    CreatePublisherClient(GetValue(configuration, CloudProjectIdKey).GetOr(""), GetValue(configuration, GenericTopicIdKey).GetOr(""))
  }

  predicate IsEmpty(configuration: Config, key: string) {
    key !in configuration || configuration[key] == ""
  }

  function Evaluated(creation: Outcome<PublisherClient>): (r: LazyClient)
    ensures r != NotCreated
  {
    match creation
    case Returned(c) => Created(c)
    case Threw(e) => Faulted(e)
  }

  /** The value an evaluated lazy yields on every read: the client or the stored exception. */
  function ValueOf(state: LazyClient): (r: Outcome<PublisherClient>)
    requires state != NotCreated
    ensures Evaluated(r) == state
  {
    match state
    case Created(c) => Returned(c)
    case Faulted(e) => Threw(e)
  }

  class PublisherClientFactory {
    const configuration: Config
    var lazyClient: LazyClient

    /** Construction creates nothing. */
    constructor (configuration: Config)
      ensures this.configuration == configuration && lazyClient == NotCreated
    {
      this.configuration := configuration;
      lazyClient := NotCreated;
    }

    /** `Create`: the first call evaluates `CreateInstance` once; every call answers the stored value. */
    method Create() returns (r: Outcome<PublisherClient>)
      modifies this
      ensures old(lazyClient) == NotCreated ==> lazyClient == Evaluated(CreateInstance(configuration))
      ensures old(lazyClient) != NotCreated ==> lazyClient == old(lazyClient)
      ensures lazyClient != NotCreated && r == ValueOf(lazyClient)
    {
      if lazyClient == NotCreated {
        lazyClient := Evaluated(CreateInstance(configuration));
      }
      r := ValueOf(lazyClient);
    }
  }

  /** Every `Create` after the first answers exactly what the first one did. */
  method CreateTwice(factory: PublisherClientFactory) returns (r1: Outcome<PublisherClient>, r2: Outcome<PublisherClient>)
    modifies factory
    ensures factory.lazyClient != NotCreated && r1 == r2 && r1 == ValueOf(factory.lazyClient)
  {
    r1 := factory.Create();
    r2 := factory.Create();
  }
}
