/** The relay's publisher-client cache: one lazily created client per (project, topic), case-insensitively. */
module CloudPublisherClients {
  import opened Wrappers
  import opened Strings
  import opened Pubsub

  /** `GetOrCreate`'s key: project and topic joined by "__", upper-cased. */
  function ClientKey(projectId: string, topicId: string): string {
    Upper(projectId + "__" + topicId)
  }

  /** Project and topic spellings that differ only in letter case share one cache key. */
  lemma ClientKeyIgnoresCase(p1: string, t1: string, p2: string, t2: string)
    requires EqualsIgnoreCase(p1, p2) && EqualsIgnoreCase(t1, t2)
    ensures ClientKey(p1, t1) == ClientKey(p2, t2)
  {
    UpperConcat(p1 + "__", t1);
    UpperConcat(p1, "__");
    UpperConcat(p2 + "__", t2);
    UpperConcat(p2, "__");
  }

  /** The "__" separator is not escaped, so two different (project, topic) pairs can share a key. */
  lemma SeparatorIsAmbiguous()
    ensures ClientKey("p_", "t") == ClientKey("p", "_t")
  {
    assert "p_" + "__" + "t" == "p" + "__" + "_t";
  }

  /** A cache slot holds a lazily evaluated client: created, or the exception creation threw (kept and rethrown). */
  datatype CacheEntry = Created(client: PublisherClient) | Faulted(exception: Exception)

  function EntryOf(creation: Outcome<PublisherClient>): (r: CacheEntry)
    ensures creation.Returned? <==> r.Created?
  {
    match creation
    case Returned(c) => Created(c)
    case Threw(e) => Faulted(e)
  }

  /** Reading a slot's value: the client, or the stored exception thrown again. */
  function Resolve(entry: CacheEntry): (r: Outcome<PublisherClient>)
    ensures EntryOf(r) == entry
  {
    match entry
    case Created(c) => Returned(c)
    case Faulted(e) => Threw(e)
  }

  class PublisherClientFactory {
    var clients: map<string, CacheEntry>

    constructor ()
      ensures clients == map[]
    {
      clients := map[];
    }

    /**
     * A key seen before returns its slot's value and changes nothing; a new key creates the
     * client (or records the creation failure) in exactly one new slot.
     */
    method GetOrCreate(projectId: string, topicId: string) returns (r: Outcome<PublisherClient>)
      modifies this
      ensures ClientKey(projectId, topicId) in old(clients) ==>
        clients == old(clients) && r == Resolve(old(clients)[ClientKey(projectId, topicId)])
      ensures ClientKey(projectId, topicId) !in old(clients) ==>
        clients == old(clients)[ClientKey(projectId, topicId) := EntryOf(CreatePublisherClient(projectId, topicId))]
        && r == CreatePublisherClient(projectId, topicId)
    {
      var key := ClientKey(projectId, topicId);
      if key !in clients {
        clients := clients[key := EntryOf(CreatePublisherClient(projectId, topicId))];
      }
      r := Resolve(clients[key]);
    }
  }

  /**
   * Two requests for the same project and topic, in any letter case, get the same client, and
   * the second leaves the cache as the first left it.
   */
  method GetOrCreateTwice(factory: PublisherClientFactory, p1: string, t1: string, p2: string, t2: string)
    returns (r1: Outcome<PublisherClient>, r2: Outcome<PublisherClient>)
    requires EqualsIgnoreCase(p1, p2) && EqualsIgnoreCase(t1, t2)
    modifies factory
    ensures r1 == r2
    ensures |factory.clients.Keys| <= |old(factory.clients).Keys| + 1
  {
    r1 := factory.GetOrCreate(p1, t1);
    ClientKeyIgnoresCase(p1, t1, p2, t2);
    ghost var after := factory.clients;
    r2 := factory.GetOrCreate(p2, t2);
    assert factory.clients == after;
  }
}
