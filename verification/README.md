# http-forwarder, modelled in Dafny

http-forwarder is a small HTTP relay. A client calls `/{eventName}` with GET, POST, PUT or
DELETE. The forwarder looks up a forwarding rule for that method and event and sends the
request on to the rule's target URL. It then copies the upstream status and headers back.

Each rule may carry location tags such as `home` or `cloud`:

- A rule tagged only for another location is a *remote rule*. A request that matches it is
  published to that location's Pub/Sub topic.
- A listener at the other location receives the message and dispatches it locally.
- A Google Cloud Function accepts rules as JSON and publishes them to a topic.

This project models the decision logic of that system and proves what each step promises:

- the dispatcher's ladder (`ForwardingService`) and the controller's older copy of it;
- the Ack/Nack decision of the relay consumer (`CloudMessageHandler`, and the older
  `SubscriptionService`);
- destination-topic resolution (`RemoteRulePublishingService`);
- envelope construction (`PublishingService`);
- configuration keys (`ConfigurationUtils`);
- the rule record (defaults, case-insensitive tags, dictionary rendering);
- the two publisher-client caches;
- the listener's start-up validation and retry loop;
- the cloud function's status-code ladder;
- the response header merge (`ResponseUtils`).

## Form of the model

One module per source file, plus shared modules:

- `Wrappers`: `Option`; `Exception`, the .NET exceptions the code throws; and
  `Outcome = Returned(value) | Threw(exception)`, so that a thrown exception is a value that
  contracts can talk about.
- `Strings`: ASCII upper-casing, which stands in for `ToUpperInvariant` and
  `StringComparer.OrdinalIgnoreCase`.
- `Http`: upstream responses and outbound calls.
- `Pubsub`: messages, Ack/Nack and publisher clients.

Collaborators whose bodies are not part of this model are function-valued parameters:

- rule lookup (`RulesReader.Find` / `FindRemote`);
- the REST client;
- JSON serialization and deserialization;
- the broker's `PublishAsync`;
- `ToMinimal`.

Pure decision code returns its outcome together with a trace of the collaborator calls it made
(outbound calls, dispatches, relays, published messages). That is how "no outbound call",
"publishes exactly once" and "nothing is dispatched" become postconditions.

Code that changes state in place is written as classes:

- `AppState`;
- the two client factories with their caches;
- the response whose headers are merged;
- the cancellation token source;
- the cloud function's response.

Loops stay loops:

- the dictionary rendering;
- the header copy;
- the listener's retry loop.

Each loop is proved against a specification function.

Configuration is a `map<string, string>`. Keys are matched exactly.

Where the repository's description and its code disagree, the model follows the code:

- `CloudMessageHandler.OnMessage` Nacks an envelope that parses to JSON `null`. A malformed
  envelope makes `JsonUtils.Deserialize` throw, and that exception leaves `OnMessage`
  (`OnMessage` ensures `Threw`). It is not Nacked.
- `SubscriptionService` consumes a three-case dispatch result (forwarded, no matching rule, no
  body). The current dispatcher returns four cases. The older consumer is modelled against its
  own three-case signature (`LegacyResult`). A lemma shows it answers as the current handler
  does on the cases the two share.
- The REST client interface is stale: it lacks the `IgnoreSslError` argument the dispatcher
  passes. The model uses the dispatcher's call shape, flag included.
- `Function.cs` builds its publisher itself. The function project's `PublisherClientFactory` is
  modelled on its own.
- The constants `LISTENER_ENABLED` and `PUBLISHER_ENABLED` are not defined in the source files
  covered here. The model assumes each key string equals its identifier.

Two consequences of the code are stated as lemmas:

- The client cache key joins project and topic with `"__"`. So ("p_", "t") and ("p", "_t")
  share one cached client (`SeparatorIsAmbiguous`). Pub/Sub project ids cannot contain `_`, so
  this cannot happen with real ids.
- A relayed request is dispatched with no request host. A rule with a relative target URL is
  then called at the bare path (`RelativeTargetWithoutHost`).

## Model

| member | source | states |
|---|---|---|
| Configuration.GetValue | http-forwarder-utils/ConfigurationUtils.cs:17-19 | a lookup returns a value exactly when the key is present, and then the stored value |
| Configuration.GetNullableBool | http-forwarder-utils/ConfigurationUtils.cs:9 | `GetValue<bool?>`: absent or empty gives null; "true"/"false" in any case give that value; anything else throws InvalidOperationException |
| Configuration.IsListenerEnabled | http-forwarder-utils/ConfigurationUtils.cs:7-10 | true exactly when LISTENER_ENABLED holds "true" in any case; false exactly when it is absent, empty or "false" in any case; any other value throws InvalidOperationException |
| Configuration.IsPublisherEnabled | http-forwarder-utils/ConfigurationUtils.cs:12-15 | true exactly when PUBLISHER_ENABLED holds "true" in any case; false exactly when it is absent, empty or "false" in any case; any other value throws InvalidOperationException |
| Configuration.PlainGettersReadFixedKeys | http-forwarder-utils/ConfigurationUtils.cs:17-55 | location tag, project id, generic subscription, generic topic and allowed events each read their own fixed key, or give none |
| Configuration.SubscriptionKeyIgnoresCase | http-forwarder-utils/ConfigurationUtils.cs:32-40 | two tags give the same `PUBSUB_SUBSCRIPTION_ID_`+upper(tag) key iff they are equal ignoring case, and then the same subscription id |
| Configuration.TopicKeyIgnoresCase | http-forwarder-utils/ConfigurationUtils.cs:47-50 | two tags give the same `PUBSUB_TOPIC_ID_`+upper(tag) key iff they are equal ignoring case, and then the same topic id |
| Configuration.PerLocationKeysAreNotGeneric | http-forwarder-utils/ConfigurationUtils.cs:27-50 | no per-location subscription or topic key equals the generic subscription or topic key |
| Models.ToCaseInsensitiveSet | http-forwarder-models/ForwardingRule.cs:11 | the folded tag set contains a tag (ignoring case) iff the raw tags do, has no two elements equal ignoring case, and keeps raw spellings |
| Models.NewRule | http-forwarder-models/ForwardingRule.cs:7-11 | the record keeps method, event and target; HasTag(t) iff some supplied tag equals t ignoring case; tags are duplicate-free ignoring case |
| Models.RuleDefaults | http-forwarder-models/ForwardingRule.cs:7-17 | omitted arguments give HasContent true, no Content, IgnoreSslError false, empty headers and tags, pretty tags "[]" and no tag at all |
| Models.TagsCollapseButPrettyTagsKeepRawSpelling | http-forwarder-models/ForwardingRule.cs:11-17 | two spellings of one tag collapse to the first in Tags, while the pretty tags show both raw spellings |
| Models.JoinCons | http-forwarder-models/ForwardingRule.cs:17 | `string.Join` of a list of two or more is the head, the separator, then the join of the rest |
| Models.Entries | http-forwarder-models/ForwardingRule.cs:40-47 | one `key=value` entry per dictionary pair, in enumeration order |
| Models.PrettyPrint | http-forwarder-models/ForwardingRule.cs:35-50 | the builder loop with its running index produces exactly the bracketed, comma-separated rendering that `__PrettyHeaders` (line 14) returns |
| Models.RenderEmpty | http-forwarder-models/ForwardingRule.cs:37-49 | an empty dictionary renders as "[]" |
| Models.RenderCons | http-forwarder-models/ForwardingRule.cs:38-48 | a non-empty dictionary renders its first pair as `key=value` with no leading separator, then ", " before each later entry, inside brackets |
| RuleTags.HomeTagIgnoresCase | http-forwarder-models/RuleTags.cs:5-9 | a rule tagged "HOME" (among any others) has the home tag |
| RuleTags.UntaggedRuleHasNeitherTag | http-forwarder-models/RuleTags.cs:9-11 | a rule built without tags, or with an empty tag set, has neither the home nor the cloud tag |
| AppStates.AppState.constructor | http-forwarder-app/Models/AppState.cs:7-14 | both snapshots start empty |
| AppStates.AppState.SetRules | http-forwarder-app/Models/AppState.cs:8-12 | the local snapshot becomes the given array as a whole; the remote snapshot is unchanged |
| AppStates.AppState.SetRemoteRules | http-forwarder-app/Models/AppState.cs:15-19 | the remote snapshot becomes the given array as a whole; the local snapshot is unchanged |
| ForwardingService.GetValidTargetUrl | http-forwarder-app/Services/ForwardingService.cs:106-113 | no target gives ""; a target starting with "http" (case-sensitive) is kept; any other target becomes the request host ("" when there is none) followed by the target |
| ForwardingService.ResolvedTargetIsStable | http-forwarder-app/Services/ForwardingService.cs:106-113 | resolving against an absolute host gives an absolute URL that resolves to itself again |
| ForwardingService.RelativeTargetWithoutHost | http-forwarder-app/Services/ForwardingService.cs:106-113 | with no request host a relative target is used as the bare path |
| ForwardingService.Forward | http-forwarder-app/Services/ForwardingService.cs:73-76 | one outbound call; its response is returned unchanged as Forwarded, or its exception propagates |
| ForwardingService.ProcessPostOrPutEvent | http-forwarder-app/Services/ForwardingService.cs:47-77 | non-POST/PUT throws ArgumentException; a remote-only match is RemoteRuleFound of that rule with no call; NoMatchingRule iff both lookups miss; NoBody iff the rule wants content and the body is empty; one call iff a local rule passed the body check, with the same verb, the resolved URL, the rule's headers and SSL flag, and the rule's literal content in place of the body |
| ForwardingService.ProcessGetOrDeleteEvent | http-forwarder-app/Services/ForwardingService.cs:79-104 | non-GET/DELETE throws ArgumentException; remote-only gives RemoteRuleFound; NoMatchingRule iff both miss; never NoBody; one body-less call iff a local rule matches |
| ForwardingService.ProcessGetEvent | http-forwarder-app/Services/ForwardingService.cs:27-30 | fixes GET: at most one call, made iff a local GET rule matches, with verb GET, no body, the resolved URL and the rule's headers and SSL flag; when a call is made the result is exactly the forwarded response or its exception; with no local rule the result is RemoteRuleFound with the remote rule, or NoMatchingRule exactly when both lookups miss; never NoBody |
| ForwardingService.ProcessPostEvent | http-forwarder-app/Services/ForwardingService.cs:32-35 | fixes POST: at most one call, made iff a local POST rule matches and passes the body check, with verb POST, the rule's literal content or the body, the resolved URL, headers and SSL flag; when a call is made the result is exactly the forwarded response or its exception; with no local rule the result is RemoteRuleFound with the remote rule, or NoMatchingRule exactly when both lookups miss; NoBody exactly when the local rule wants content and the body is empty |
| ForwardingService.ProcessPutEvent | http-forwarder-app/Services/ForwardingService.cs:37-40 | fixes PUT: at most one call, made iff a local PUT rule matches and passes the body check, with verb PUT, the rule's literal content or the body, the resolved URL, headers and SSL flag; when a call is made the result is exactly the forwarded response or its exception; with no local rule the result is RemoteRuleFound with the remote rule, or NoMatchingRule exactly when both lookups miss; NoBody exactly when the local rule wants content and the body is empty |
| ForwardingService.ProcessDeleteEvent | http-forwarder-app/Services/ForwardingService.cs:42-45 | fixes DELETE: at most one call, made iff a local DELETE rule matches, with verb DELETE, no body, the resolved URL and the rule's headers and SSL flag; when a call is made the result is exactly the forwarded response or its exception; with no local rule the result is RemoteRuleFound with the remote rule, or NoMatchingRule exactly when both lookups miss; never NoBody |
| ForwardingService.ContentOverrideComesAfterBodyCheck | http-forwarder-app/Services/ForwardingService.cs:63-71 | an empty body is refused when the rule wants content even if it has literal content; without HasContent an empty body still forwards, with the literal content when present |
| ForwardingService.LiteralContentIgnoresRequestBody | http-forwarder-app/Services/ForwardingService.cs:68-71 | with literal content, any two non-empty request bodies give the same result |
| ResponseUtils.HttpResponse.SetHeader | http-forwarder-app/Core/ResponseUtils.cs:31 | assigning a header replaces it under its case-insensitive name; the status is unchanged |
| ResponseUtils.HttpResponse.RemoveHeader | http-forwarder-app/Core/ResponseUtils.cs:40-41 | removing a header removes its case-insensitive name only; the status is unchanged |
| ResponseUtils.AssignLookup | http-forwarder-app/Core/ResponseUtils.cs:29-37 | after assigning a header list, a name holds the values of its last occurrence, or what it held before if the list lacks it |
| ResponseUtils.CopiedHeaderLookup | http-forwarder-app/Core/ResponseUtils.cs:29-41 | after the copy: transfer-encoding and Set-Cookie are absent; a content header beats an upstream header of the same name, which beats the response's own; other headers are untouched |
| ResponseUtils.CopyHttpResponse | http-forwarder-app/Core/ResponseUtils.cs:21-41 | a null upstream throws ArgumentNullException and changes nothing; otherwise the status is the upstream status and the headers are exactly the merge above |
| ForwardingControllers.GetBodyFromHttpRequest | http-forwarder-app/Controllers/ForwardingController.cs:131-140 | the body is null exactly when the request has no body stream |
| ForwardingControllers.ControllerTargetUrl | http-forwarder-app/Controllers/ForwardingController.cs:142-149 | a relative target becomes scheme + "://" + host + target; an "http" target is kept; no target gives "" |
| ForwardingControllers.ControllerTargetUrlAgreesWithService | http-forwarder-app/Controllers/ForwardingController.cs:142-149 | the controller's resolution equals the dispatcher's with host `scheme://host` |
| ForwardingControllers.ForwardingController.constructor | http-forwarder-app/Controllers/ForwardingController.cs:17 | the controller keeps the rule lookup and the REST client it is given |
| ForwardingControllers.ForwardingController.CallAndCopy | http-forwarder-app/Controllers/ForwardingController.cs:47-48 | the call's response is copied onto the response; a call exception propagates with the response untouched |
| ForwardingControllers.ForwardingController.GetOrDelete | http-forwarder-app/Controllers/ForwardingController.cs:31-49 | no local rule: return with no call and the response untouched (remote rules never consulted); else one body-less call to the resolved URL, copied back |
| ForwardingControllers.ForwardingController.PostOrPut | http-forwarder-app/Controllers/ForwardingController.cs:57-81 | no local rule: no call, response untouched; wanted content and null/empty body: status 400 and no call; else one call with the rule's literal content or the read body, copied back |
| ForwardingControllers.ForwardingController.Get | http-forwarder-app/Controllers/ForwardingController.cs:31-49 | no local GET rule: no call and the response untouched; else one body-less GET to the resolved URL, whose status and merged headers are copied onto the response, or whose exception propagates with the response untouched |
| ForwardingControllers.ForwardingController.Post | http-forwarder-app/Controllers/ForwardingController.cs:57-81 | no local POST rule: no call, response untouched; wanted content and a null/empty body: status 400, headers untouched, no call; else one POST with the literal content or the read body, its status and merged headers copied back, or its exception propagated with the response untouched |
| ForwardingControllers.ForwardingController.Put | http-forwarder-app/Controllers/ForwardingController.cs:88-112 | no local PUT rule: no call, response untouched; wanted content and a null/empty body: status 400, headers untouched, no call; else one PUT with the literal content or the read body, its status and merged headers copied back, or its exception propagated with the response untouched |
| ForwardingControllers.ForwardingController.Delete | http-forwarder-app/Controllers/ForwardingController.cs:116-129 | no local DELETE rule: no call and the response untouched; else one body-less DELETE to the resolved URL, whose status and merged headers are copied onto the response, or whose exception propagates with the response untouched |
| ForwardingControllers.ControllerCallMatchesService | http-forwarder-app/Controllers/ForwardingController.cs:57-81 | when a body stream is present and passes the check, the controller's call is the dispatcher's call |
| Pubsub.CreatePublisherClient | http-forwarder-cloud/PublisherClientFactory.cs:29-40 | creation succeeds iff project and topic are non-empty; an empty project throws first, then an empty topic, both InvalidOperationException |
| CloudPublisherClients.ClientKeyIgnoresCase | http-forwarder-cloud/PublisherClientFactory.cs:21 | project/topic pairs equal ignoring case share a cache key |
| CloudPublisherClients.SeparatorIsAmbiguous | http-forwarder-cloud/PublisherClientFactory.cs:21 | ("p_", "t") and ("p", "_t") share a cache key |
| CloudPublisherClients.EntryOf | http-forwarder-cloud/PublisherClientFactory.cs:24-25 | a cached lazy holds a client iff its creation returned one |
| CloudPublisherClients.Resolve | http-forwarder-cloud/PublisherClientFactory.cs:24-25 | reading a cached lazy gives back the outcome it cached, a faulted creation rethrowing |
| CloudPublisherClients.PublisherClientFactory.constructor | http-forwarder-cloud/PublisherClientFactory.cs:13-17 | the cache starts empty |
| CloudPublisherClients.PublisherClientFactory.GetOrCreate | http-forwarder-cloud/PublisherClientFactory.cs:19-26 | a known key returns its cached outcome and leaves the cache unchanged; a new key adds exactly one entry, created for that project and topic |
| CloudPublisherClients.GetOrCreateTwice | http-forwarder-cloud/PublisherClientFactory.cs:16-25 | two requests equal ignoring case get the same outcome and grow the cache by at most one |
| Publishing.Envelope | http-forwarder-cloud/PublishingService.cs:26-34 | built exactly when the request has both event and method, else ArgumentNullException for "value"; the data is the serialized request, and the attributes are exactly EVENT = event and METHOD = method |
| Publishing.Translate | http-forwarder-cloud/PublishingService.cs:38-47 | a message id gives success with that id; a publish exception gives failure with its message |
| Publishing.Publish | http-forwarder-cloud/PublishingService.cs:21-48 | gets the client for exactly (project, topic) from the cache; a creation failure, then a missing event or method, propagates with nothing sent; otherwise exactly one publish of the envelope, translated |
| RemoteRulePublishing.ExceptIgnoreCase | http-forwarder-app/Services/RemoteRulePublishingService.cs:30 | every element kept comes from the list and is not among the excluded names ignoring case, and no two kept elements are equal ignoring case |
| RemoteRulePublishing.ExceptIgnoreCaseComplete | http-forwarder-app/Services/RemoteRulePublishingService.cs:30 | every element not excluded ignoring case is kept |
| RemoteRulePublishing.ExceptAllSeen | http-forwarder-app/Services/RemoteRulePublishingService.cs:30 | when every element is excluded the result is empty |
| RemoteRulePublishing.CandidateLocations | http-forwarder-app/Services/RemoteRulePublishingService.cs:29-30 | each candidate is a rule tag other than the current location ignoring case; its tag order is kept (see ExceptKeepsTagOrder) |
| RemoteRulePublishing.CandidatesCoverOtherTags | http-forwarder-app/Services/RemoteRulePublishingService.cs:29-30 | every rule tag other than the current location is a candidate |
| RemoteRulePublishing.FirstConfiguredTopic | http-forwarder-app/Services/RemoteRulePublishingService.cs:31-33 | none iff every candidate's topic is unset or empty; otherwise the non-empty topic of a candidate all of whose predecessors have none |
| RemoteRulePublishing.FirstTagTopic | http-forwarder-app/Services/RemoteRulePublishingService.cs:30-33 | reference choice read off the tags in enumeration order: none iff every tag is excluded or has no topic; otherwise the non-empty topic of an unexcluded tag all of whose predecessors are excluded or have none |
| RemoteRulePublishing.ExceptKeepsTagOrder | http-forwarder-app/Services/RemoteRulePublishingService.cs:30-33 | the first configured candidate after the case-insensitive `Except` is the first configured tag in tag order |
| RemoteRulePublishing.Publish | http-forwarder-app/Services/RemoteRulePublishingService.cs:26-42 | no topic: failure with nothing published; else exactly one publish of the unchanged request on the chosen topic with the project id ("" when unset), its result returned as is |
| RemoteRulePublishing.ChosenTopicBelongsToAnotherLocation | http-forwarder-app/Services/RemoteRulePublishingService.cs:29-40 | a published topic is configured for a rule tag that is not the current location |
| RemoteRulePublishing.NoOtherLocationFailsWithoutPublishing | http-forwarder-app/Services/RemoteRulePublishingService.cs:34-38 | a rule tagged only with the current location (or untagged) fails and publishes nothing |
| RemoteRulePublishing.FirstConfiguredCandidateWins | http-forwarder-app/Services/RemoteRulePublishingService.cs:31-41 | when the first candidate has a topic, that topic is used |
| RemoteRulePublishing.RelayFollowsTagOrder | http-forwarder-app/Services/RemoteRulePublishingService.cs:28-41 | the relay publishes once, on the topic the tag-order reference picks with the current location excluded, or not at all when it picks none |
| RemoteRulePublishing.RelayPicksFirstConfiguredTag | http-forwarder-app/Services/RemoteRulePublishingService.cs:29-40 | the topic used belongs to a tag other than the current location, and every earlier tag is the current location or has no topic |
| CloudMessageHandlers.Attribute | http-forwarder-app/Services/CloudMessageHandler.cs:37-41 | an attribute's value when present, else "" |
| CloudMessageHandlers.CloudMessageHandler.HandleRemoteRule | http-forwarder-app/Services/CloudMessageHandler.cs:102-113 | without CanForwardToTopic: Nack with nothing published; with it: one relay of the request and remote rule, Ack iff the publish succeeded, Nack on a publish failure, and a thrown publish propagates |
| CloudMessageHandlers.CloudMessageHandler.ProcessResult | http-forwarder-app/Services/CloudMessageHandler.cs:75-100 | a forwarded 2xx response Acks, any other status Nacks; NoMatchingRule Nacks; NoBody Acks; RemoteRuleFound goes to HandleRemoteRule; only that case relays |
| CloudMessageHandlers.CloudMessageHandler.OnMessage | http-forwarder-app/Services/CloudMessageHandler.cs:31-67 | a malformed envelope's exception propagates; a null envelope Nacks before the method is read; a method other than exactly POST/PUT Nacks; a dispatch happens iff both pass, with the attribute method and event and the content or ""; calls and relays follow the attributes and the flag |
| CloudMessageHandlers.LocationHandlerNeverRelays | http-forwarder-app/Services/CloudMessageHandler.cs:102-107 | a handler without CanForwardToTopic never re-publishes |
| CloudMessageHandlers.RemoteRuleAckIffRelayPublished | http-forwarder-app/Services/CloudMessageHandler.cs:59-112 | a relayed POST that finds a remote rule relays it once, and Acks iff the publish succeeded |
| CloudMessageHandlers.AckCharacterisation | http-forwarder-app/Services/CloudMessageHandler.cs:59-112 | for a parsed envelope with an allowed method: Ack iff NoBody, or a forwarded 2xx, or a remote rule that a forwarding handler published successfully |
| RelayRoundTrip.RelayedEnvelopeDispatchesOriginalRequest | http-forwarder-app/Services/CloudMessageHandler.cs:37-62 | an envelope built by the publisher from a POST/PUT request with an event is dispatched with that request's method, event and content |
| RelayRoundTrip.RelayedEnvelopeWithOtherVerbIsRefused | http-forwarder-app/Services/CloudMessageHandler.cs:37-57 | an envelope built from any other verb is Nacked without dispatch |
| BackgroundListening.RetryLog | http-forwarder-app/Services/BackgroundListeningService.cs:72-92 | attempts and 60-second delays alternate, one event per flag check, starting with an attempt |
| BackgroundListening.Subscribe | http-forwarder-app/Services/BackgroundListeningService.cs:72-92 | the retry loop, swallowing every attempt outcome, produces exactly that alternation until it sees cancellation |
| BackgroundListening.RetryLogEnds | http-forwarder-app/Services/BackgroundListeningService.cs:75-90 | the loop ends right after an attempt when cancellation is seen at the check after it, or after a delay when it is seen at the loop condition |
| BackgroundListening.RetryLogPrefix | http-forwarder-app/Services/BackgroundListeningService.cs:75-90 | a later cancellation extends the trace of an earlier one |
| BackgroundListening.BackgroundListeningService.constructor | http-forwarder-app/Services/BackgroundListeningService.cs:22-28 | a fresh, uncancelled token source |
| BackgroundListening.BackgroundListeningService.StartAsync | http-forwarder-app/Services/BackgroundListeningService.cs:30-70 | empty project id, then empty generic subscription, then empty location subscription (looked up by upper(tag), tag "" when unset) each throw ArgumentNullException; it returns exactly when all three are non-empty, with two listeners sharing the project and the one token, the generic one forwarding to topics and the location one not |
| BackgroundListening.BackgroundListeningService.StopAsync | http-forwarder-app/Services/BackgroundListeningService.cs:94-97 | the shared token is cancelled |
| BackgroundListening.OnlyGenericListenerRelays | http-forwarder-app/Services/BackgroundListeningService.cs:65-66 | the location listener never re-publishes; the generic one may |
| SubscriptionServices.WrapResultTypes | http-forwarder-app/Services/SubscriptionService.cs:151-159 | each of the three results maps to the same case of the four-case union, never MethodNotSupported |
| SubscriptionServices.Unwrap | http-forwarder-app/Services/SubscriptionService.cs:151-159 | a wrapped result reads back as none iff it is MethodNotSupported |
| SubscriptionServices.WrapUnwrap | http-forwarder-app/Services/SubscriptionService.cs:151-159 | wrapping is a bijection onto the non-MethodNotSupported cases |
| SubscriptionServices.ProcessResult | http-forwarder-app/Services/SubscriptionService.cs:127-149 | Ack iff NoBody or a forwarded 2xx response |
| SubscriptionServices.ProcessResultAgreesWithCurrentHandler | http-forwarder-app/Services/SubscriptionService.cs:127-149 | on the three shared cases the older consumer answers as the current handler, without relaying |
| SubscriptionServices.OnMessage | http-forwarder-app/Services/SubscriptionService.cs:83-119 | parse exceptions propagate; a null envelope or a method other than POST/PUT Nacks with no dispatch; otherwise one dispatch with the attribute method and event and the content or "", answered by ProcessResult |
| SubscriptionServices.SubscriptionService.constructor | http-forwarder-app/Services/SubscriptionService.cs:27-33 | a fresh, uncancelled token source |
| SubscriptionServices.SubscriptionService.StartAsync | http-forwarder-app/Services/SubscriptionService.cs:35-59 | an empty project id throws, then an empty PUBSUB_SUBSCRIPTION_ID; otherwise one subscription for those two values |
| SubscriptionServices.SubscriptionService.Subscribe | http-forwarder-app/Services/SubscriptionService.cs:61-81 | the same attempt/60-second-delay alternation until cancellation |
| SubscriptionServices.SubscriptionService.StopAsync | http-forwarder-app/Services/SubscriptionService.cs:161-164 | the token is cancelled |
| FunctionPublisherClients.CreateInstance | http-forwarder-app-function/PublisherClientFactory.cs:22-53 | creation succeeds iff project and topic are set and non-empty; the project is checked first, both failing with InvalidOperationException |
| FunctionPublisherClients.Evaluated | http-forwarder-app-function/PublisherClientFactory.cs:17-20 | an evaluated lazy is no longer pending |
| FunctionPublisherClients.ValueOf | http-forwarder-app-function/PublisherClientFactory.cs:17-20 | an evaluated lazy gives back the outcome it cached |
| FunctionPublisherClients.PublisherClientFactory.constructor | http-forwarder-app-function/PublisherClientFactory.cs:13-18 | the constructor keeps the configuration and creates nothing |
| FunctionPublisherClients.PublisherClientFactory.Create | http-forwarder-app-function/PublisherClientFactory.cs:20 | the first Create evaluates the creation, later ones reuse its outcome, exception included |
| FunctionPublisherClients.CreateTwice | http-forwarder-app-function/PublisherClientFactory.cs:17-20 | two Creates return the same outcome |
| CloudFunction.Construct | http-forwarder-app-function/Function.cs:23-53 | an empty project id throws InvalidOperationException, then an empty topic id; it returns exactly when both are non-empty, with the publisher for exactly those values |
| CloudFunction.Respond | http-forwarder-app-function/Function.cs:55-128 | 405 iff the method is not exactly POST/PUT; empty body 400; null rule 400; publishes once iff a rule parsed, its serialization with no attributes; 200 with the message id iff the publish succeeded, else 500 with its error |
| CloudFunction.ParseFailuresNeverPublish | http-forwarder-app-function/Function.cs:80-105 | a parse exception never publishes: 400 for a JSON error, 500 otherwise |
| CloudFunction.HandleAsync | http-forwarder-app-function/Function.cs:55-128 | the handler writes exactly the status, text and messages of that ladder |

## Left out

- Network I/O: the REST client, the Pub/Sub broker and the subscriber client are
  function-valued parameters. The model keeps their inputs and results, not their behaviour.
- Rule loading: `ForwardingRulesReader` (file reading, JSON, `Find`/`FindRemote`) is not part
  of this model. Lookup is an abstract function from (method, event) to an optional rule.
- JSON: `JsonUtils` serialization is abstract. Its round trip is assumed only where a lemma
  names it as a precondition. UTF-8 encoding of message data is not modelled; data is text.
- Concurrency: `Interlocked.Exchange`, `ConcurrentDictionary` and `Lazy` thread safety are
  not modelled. Each class method is one atomic step.
- BackgroundListening.Subscribe: real time is not modelled. The 60-second delay is an event
  in the trace. Cancellation is given as the index of the first flag check that sees it.
- BackgroundListening.BackgroundListeningService.StartAsync: creating the subscriber clients
  (`SubscriberClient.CreateAsync`) is assumed to succeed.
- CloudPublisherClients.PublisherClientFactory.GetOrCreate: `PublisherClient.Create`
  failures other than the two validation errors are not modelled.
- FunctionPublisherClients.CreateInstance: `PublisherClient.Create` failures other than the
  two validation errors are not modelled.
- BackgroundListening.BackgroundListeningService.StopAsync: cancels the token the retry loops
  check before each attempt; an attempt already running is not interrupted, and every attempt
  is modelled as returning.
- Publishing.Envelope: the missing-value exception carries the runtime's default message text.
- CloudFunction.Construct: `PublisherClient.Create` failures other than the two validation
  errors are not modelled.
- ResponseUtils.CopyHttpResponse: the body stream copy and the cancellation token are left
  out; only the status and header merge are modelled.
- ForwardingControllers.GetBodyFromHttpRequest: reading the stream is left out; a body
  stream is its text.
- Strings.Upper: ASCII upper-casing only. Culture-invariant Unicode casing and the
  normalisation used by ordinal-ignore-case comparison are left out.
- Configuration.GetNullableBool: leading and trailing whitespace accepted by
  `bool.Parse` is not modelled. Configuration keys are matched exactly, not ignoring case.
- Models.NewRule: headers are a sequence of pairs in dictionary enumeration order; the
  dictionary's uniqueness of keys is not enforced. The raw tag list keeps exact duplicate spellings, so
  `__PrettyTags` repeats them; only the collapsed tag set is duplicate-free. A hash set's enumeration order is taken to be
  insertion order. Record equality is structural throughout, whereas the C# record compares its
  dictionary and set fields by reference.
- `ForwardingRule.ToString` and `PrintMembers`: the record's own string rendering is left out;
  it only feeds logging. `PrettyPrintDictionary.ToString`, which renders `__PrettyHeaders`, is
  modelled (`Models.PrettyPrint`). `ToMinimal` is a parameter.
- Logging, message ids beyond their text, publish times and the ping and refresh controllers
  are left out.
