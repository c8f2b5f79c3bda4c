/**
 * The configuration keys and the typed getters layered over `IConfiguration`.
 * Configuration is a map from key to raw string value.
 */
module Configuration {
  import opened Wrappers
  import opened Strings

  type Config = map<string, string>

  const ListenerEnabledKey := "LISTENER_ENABLED"
  const PublisherEnabledKey := "PUBLISHER_ENABLED"
  const LocationTagKey := "LOCATION_TAG"
  const CloudProjectIdKey := "GOOGLE_CLOUD_PROJECT_ID"
  const GenericSubscriptionIdKey := "PUBSUB_SUBSCRIPTION_ID"
  const SubscriptionIdPrefix := "PUBSUB_SUBSCRIPTION_ID_"
  const GenericTopicIdKey := "PUBSUB_TOPIC_ID"
  const TopicIdPrefix := "PUBSUB_TOPIC_ID_"
  const GenericTopicAllowedEventsKey := "ALLOWED_EVENTS"

  /** `GetValue<string?>`: the raw value, or null when the key is absent. */
  function GetValue(config: Config, key: string): (r: Option<string>)
    ensures r.Some? <==> key in config
    ensures r.Some? ==> r.value == config[key]
  {
    if key in config then Some(config[key]) else None
  }

  /**
   * `GetValue<bool?>`: an absent key and an empty value both give null, "true" and "false"
   * are accepted in any letter case, and any other value makes the conversion throw.
   */
  function GetNullableBool(config: Config, key: string): (r: Outcome<Option<bool>>)
    ensures r == Returned(None) <==> key !in config || config[key] == ""
    ensures r == Returned(Some(true)) <==> key in config && EqualsIgnoreCase(config[key], "true")
    ensures r == Returned(Some(false)) <==> key in config && EqualsIgnoreCase(config[key], "false")
    ensures r.Threw? ==> r.exception.InvalidOperationException?
  {
    match GetValue(config, key)
    case None => Returned(None)
    case Some(v) =>
      if v == "" then Returned(None)
      else if EqualsIgnoreCase(v, "true") then Returned(Some(true))
      else if EqualsIgnoreCase(v, "false") then Returned(Some(false))
      else Threw(InvalidOperationException("Failed to convert configuration value at '" + key + "' to type 'System.Boolean'."))
  }

  /**
   * `IsListenerEnabled`: the flag, false when it is unset or empty; any value other than "true" or
   * "false" (in any letter case) throws.
   */
  function IsListenerEnabled(config: Config): (r: Outcome<bool>)
    ensures r == Returned(true) <==> ListenerEnabledKey in config && EqualsIgnoreCase(config[ListenerEnabledKey], "true")
    ensures r == Returned(false) <==>
      ListenerEnabledKey !in config || config[ListenerEnabledKey] == "" || EqualsIgnoreCase(config[ListenerEnabledKey], "false")
    // any other value makes the conversion throw
    ensures r.Threw? <==>
      ListenerEnabledKey in config && config[ListenerEnabledKey] != ""
      && !EqualsIgnoreCase(config[ListenerEnabledKey], "true") && !EqualsIgnoreCase(config[ListenerEnabledKey], "false")
    ensures r.Threw? ==> r.exception.InvalidOperationException?
  {
    match GetNullableBool(config, ListenerEnabledKey)
    case Returned(b) => Returned(b.GetOr(false))
    case Threw(e) => Threw(e)
  }

  /**
   * `IsPublisherEnabled`: the flag, false when it is unset or empty; any value other than "true" or
   * "false" (in any letter case) throws.
   */
  function IsPublisherEnabled(config: Config): (r: Outcome<bool>)
    ensures r == Returned(true) <==> PublisherEnabledKey in config && EqualsIgnoreCase(config[PublisherEnabledKey], "true")
    ensures r == Returned(false) <==>
      PublisherEnabledKey !in config || config[PublisherEnabledKey] == "" || EqualsIgnoreCase(config[PublisherEnabledKey], "false")
    // any other value makes the conversion throw
    ensures r.Threw? <==>
      PublisherEnabledKey in config && config[PublisherEnabledKey] != ""
      && !EqualsIgnoreCase(config[PublisherEnabledKey], "true") && !EqualsIgnoreCase(config[PublisherEnabledKey], "false")
    ensures r.Threw? ==> r.exception.InvalidOperationException?
  {
    match GetNullableBool(config, PublisherEnabledKey)
    case Returned(b) => Returned(b.GetOr(false))
    case Threw(e) => Threw(e)
  }

  function GetLocationTag(config: Config): Option<string> {
    GetValue(config, LocationTagKey)
  }

  function GetCloudProjectId(config: Config): Option<string> {
    GetValue(config, CloudProjectIdKey)
  }

  function GetGenericSubscriptionId(config: Config): Option<string> {
    GetValue(config, GenericSubscriptionIdKey)
  }

  function GetGenericPubSubTopicId(config: Config): Option<string> {
    GetValue(config, GenericTopicIdKey)
  }

  function GetGenericTopicAllowedEvents(config: Config): Option<string> {
    GetValue(config, GenericTopicAllowedEventsKey)
  }

  /** Each plain getter reads the value stored under its own fixed key, or none. */
  lemma PlainGettersReadFixedKeys(config: Config)
    ensures GetLocationTag(config) == (if "LOCATION_TAG" in config then Some(config["LOCATION_TAG"]) else None)
    ensures GetCloudProjectId(config) == (if "GOOGLE_CLOUD_PROJECT_ID" in config then Some(config["GOOGLE_CLOUD_PROJECT_ID"]) else None)
    ensures GetGenericSubscriptionId(config) == (if "PUBSUB_SUBSCRIPTION_ID" in config then Some(config["PUBSUB_SUBSCRIPTION_ID"]) else None)
    ensures GetGenericPubSubTopicId(config) == (if "PUBSUB_TOPIC_ID" in config then Some(config["PUBSUB_TOPIC_ID"]) else None)
    ensures GetGenericTopicAllowedEvents(config) == (if "ALLOWED_EVENTS" in config then Some(config["ALLOWED_EVENTS"]) else None)
  {
  }

  /** `GetSubscriptionIdConfigurationVariable`: the per-location key, tag upper-cased. */
  function SubscriptionIdKey(locationTag: string): string {
    SubscriptionIdPrefix + Upper(locationTag)
  }

  /** The per-location topic key, tag upper-cased. */
  function TopicIdKey(locationTag: string): string {
    TopicIdPrefix + Upper(locationTag)
  }

  function GetSubscriptionId(config: Config, locationTag: string): Option<string> {
    GetValue(config, SubscriptionIdKey(locationTag))
  }

  function GetPubSubTopicId(config: Config, locationTag: string): Option<string> {
    GetValue(config, TopicIdKey(locationTag))
  }

  lemma PrefixCancel(p: string, x: string, y: string)
    ensures p + x == p + y <==> x == y
  {
    if p + x == p + y {
      assert x == (p + x)[|p|..];
      assert y == (p + y)[|p|..];
    }
  }

  /**
   * Two location tags select the same subscription key exactly when they are equal ignoring
   * case, and then they read the same subscription id.
   */
  lemma SubscriptionKeyIgnoresCase(config: Config, a: string, b: string)
    ensures SubscriptionIdKey(a) == SubscriptionIdKey(b) <==> EqualsIgnoreCase(a, b)
    ensures EqualsIgnoreCase(a, b) ==> GetSubscriptionId(config, a) == GetSubscriptionId(config, b)
  {
    PrefixCancel(SubscriptionIdPrefix, Upper(a), Upper(b));
  }

  /**
   * Two location tags select the same topic key exactly when they are equal ignoring case,
   * and then they read the same topic id.
   */
  lemma TopicKeyIgnoresCase(config: Config, a: string, b: string)
    ensures TopicIdKey(a) == TopicIdKey(b) <==> EqualsIgnoreCase(a, b)
    ensures EqualsIgnoreCase(a, b) ==> GetPubSubTopicId(config, a) == GetPubSubTopicId(config, b)
  {
    PrefixCancel(TopicIdPrefix, Upper(a), Upper(b));
  }

  /** No location tag, not even the empty one, selects the generic subscription or topic key. */
  lemma PerLocationKeysAreNotGeneric(tag: string)
    ensures SubscriptionIdKey(tag) != GenericSubscriptionIdKey
    ensures TopicIdKey(tag) != GenericTopicIdKey
  {
    assert |SubscriptionIdKey(tag)| > |GenericSubscriptionIdKey|;
    assert |TopicIdKey(tag)| > |GenericTopicIdKey|;
  }
}
