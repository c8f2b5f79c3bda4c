/**
 * Choosing where to relay a request whose rule belongs elsewhere: the rule's locations other
 * than this one, in tag order, and the first of them with a configured topic.
 */
module RemoteRulePublishing {
  import opened Wrappers
  import opened Strings
  import opened Models
  import opened Configuration
  import opened RuleProcessingResults

  /** `Enumerable.Except` with a case-insensitive comparer: the elements of `xs` not in `seen`, first spelling kept. */
  function ExceptIgnoreCase(xs: seq<string>, seen: seq<string>): (r: seq<string>)
    ensures forall i :: 0 <= i < |r| ==> r[i] in xs && !ContainsIgnoreCase(seen, r[i])
    // a spelling repeated up to letter case is kept once
    ensures NoCaseDuplicates(r)
    decreases |xs|
  {
    if xs == [] then []
    else if ContainsIgnoreCase(seen, xs[0]) then ExceptIgnoreCase(xs[1..], seen)
    else
      var rest := ExceptIgnoreCase(xs[1..], seen + [xs[0]]);
      assert forall i :: 0 <= i < |rest| ==> !ContainsIgnoreCase(seen, rest[i]) && !EqualsIgnoreCase(xs[0], rest[i]) by {
        forall i | 0 <= i < |rest| ensures !ContainsIgnoreCase(seen, rest[i]) && !EqualsIgnoreCase(xs[0], rest[i]) {
          ContainsAppend(seen, xs[0], rest[i]);
        }
      }
      [xs[0]] + rest
  }

  /** Every element of `xs` outside `seen` is represented in the result, up to letter case. */
  lemma {:induction false} ExceptIgnoreCaseComplete(xs: seq<string>, seen: seq<string>, x: string)
    requires x in xs && !ContainsIgnoreCase(seen, x)
    ensures ContainsIgnoreCase(ExceptIgnoreCase(xs, seen), x)
    decreases |xs|
  {
    var r := ExceptIgnoreCase(xs, seen);
    if ContainsIgnoreCase(seen, xs[0]) {
      assert x != xs[0] && x in xs[1..];
      ExceptIgnoreCaseComplete(xs[1..], seen, x);
    } else {
      var rest := ExceptIgnoreCase(xs[1..], seen + [xs[0]]);
      ContainsCons(xs[0], rest, x);
      if !EqualsIgnoreCase(xs[0], x) {
        assert x in xs[1..];
        ContainsAppend(seen, xs[0], x);
        ExceptIgnoreCaseComplete(xs[1..], seen + [xs[0]], x);
      }
    }
  }

  /** Nothing is left when every element is already seen. */
  lemma {:induction false} ExceptAllSeen(xs: seq<string>, seen: seq<string>)
    requires forall i :: 0 <= i < |xs| ==> ContainsIgnoreCase(seen, xs[i])
    ensures ExceptIgnoreCase(xs, seen) == []
    decreases |xs|
  {
    if xs != [] {
      assert ContainsIgnoreCase(seen, xs[0]);
      assert forall i :: 0 <= i < |xs[1..]| ==> xs[1..][i] == xs[i + 1];
      ExceptAllSeen(xs[1..], seen);
    }
  }

  /** The locations a remote rule can be relayed to: its tags except the current location. */
  function CandidateLocations(rule: ForwardingRule, currentLocation: string): (r: seq<string>)
    ensures forall i :: 0 <= i < |r| ==> r[i] in rule.tags && !EqualsIgnoreCase(r[i], currentLocation)
  {
    var r := ExceptIgnoreCase(rule.tags, [currentLocation]);
    assert forall i :: 0 <= i < |r| ==> !EqualsIgnoreCase(r[i], currentLocation) by {
      forall i | 0 <= i < |r| ensures !EqualsIgnoreCase(r[i], currentLocation) {
        ContainsAppend([], currentLocation, r[i]);
        assert [] + [currentLocation] == [currentLocation];
      }
    }
    r
  }

  /** Every tag other than the current location is a candidate, up to letter case. */
  lemma CandidatesCoverOtherTags(rule: ForwardingRule, currentLocation: string, t: string)
    requires t in rule.tags && !EqualsIgnoreCase(t, currentLocation)
    ensures ContainsIgnoreCase(CandidateLocations(rule, currentLocation), t)
  {
    ContainsAppend([], currentLocation, t);
    assert [] + [currentLocation] == [currentLocation];
    ExceptIgnoreCaseComplete(rule.tags, [currentLocation], t);
  }

  /** The first candidate's configured topic id that is neither absent nor empty. */
  function FirstConfiguredTopic(config: Config, candidates: seq<string>): (r: Option<string>)
    ensures r.None? <==> forall i :: 0 <= i < |candidates| ==> IsNullOrEmpty(GetPubSubTopicId(config, candidates[i]))
    ensures r.Some? ==>
      r.value != "" &&
      exists i :: 0 <= i < |candidates| && GetPubSubTopicId(config, candidates[i]) == r
                  && forall j :: 0 <= j < i ==> IsNullOrEmpty(GetPubSubTopicId(config, candidates[j]))
    decreases |candidates|
  {
    if candidates == [] then None
    else if !IsNullOrEmpty(GetPubSubTopicId(config, candidates[0])) then GetPubSubTopicId(config, candidates[0])
    else
      var r := FirstConfiguredTopic(config, candidates[1..]);
      assert forall i :: 1 <= i < |candidates| ==> candidates[i] == candidates[1..][i - 1];
      if r.Some? then
        var i :| 0 <= i < |candidates[1..]| && GetPubSubTopicId(config, candidates[1..][i]) == r
          && forall j :: 0 <= j < i ==> IsNullOrEmpty(GetPubSubTopicId(config, candidates[1..][j]));
        assert GetPubSubTopicId(config, candidates[i + 1]) == r;
        r
      else r
  }

  /**
   * Reference definition of the choice, read straight off the tags in enumeration order: the
   * topic of the first tag not in `seen` (ignoring case) whose topic id is neither absent nor empty.
   */
  function FirstTagTopic(config: Config, tags: seq<string>, seen: seq<string>): (r: Option<string>)
    ensures r.None? <==>
      forall i :: 0 <= i < |tags| ==> ContainsIgnoreCase(seen, tags[i]) || IsNullOrEmpty(GetPubSubTopicId(config, tags[i]))
    ensures r.Some? ==>
      r.value != "" &&
      exists i :: 0 <= i < |tags| && !ContainsIgnoreCase(seen, tags[i]) && GetPubSubTopicId(config, tags[i]) == r
                  && forall j :: 0 <= j < i ==> ContainsIgnoreCase(seen, tags[j]) || IsNullOrEmpty(GetPubSubTopicId(config, tags[j]))
    decreases |tags|
  {
    if tags == [] then None
    else if !ContainsIgnoreCase(seen, tags[0]) && !IsNullOrEmpty(GetPubSubTopicId(config, tags[0])) then
      GetPubSubTopicId(config, tags[0])
    else
      var r := FirstTagTopic(config, tags[1..], seen);
      assert forall i :: 1 <= i < |tags| ==> tags[i] == tags[1..][i - 1];
      if r.Some? then
        var i :| 0 <= i < |tags[1..]| && !ContainsIgnoreCase(seen, tags[1..][i]) && GetPubSubTopicId(config, tags[1..][i]) == r
          && forall j :: 0 <= j < i ==> ContainsIgnoreCase(seen, tags[1..][j]) || IsNullOrEmpty(GetPubSubTopicId(config, tags[1..][j]));
        assert GetPubSubTopicId(config, tags[i + 1]) == r;
        r
      else r
  }

  /** Excluding a name that has no topic does not change the choice: its case variants have none either. */
  lemma {:induction false} SeenWithoutTopic(config: Config, tags: seq<string>, seen: seq<string>, y: string)
    requires IsNullOrEmpty(GetPubSubTopicId(config, y))
    ensures FirstTagTopic(config, tags, seen + [y]) == FirstTagTopic(config, tags, seen)
    decreases |tags|
  {
    if tags != [] {
      ContainsAppend(seen, y, tags[0]);
      TopicKeyIgnoresCase(config, y, tags[0]);
      SeenWithoutTopic(config, tags[1..], seen, y);
    }
  }

  /**
   * `Except` keeps the order of the tags, so taking the first configured candidate is taking
   * the first configured tag; the later case variants it drops have the same (empty) topic.
   */
  lemma {:induction false} ExceptKeepsTagOrder(config: Config, xs: seq<string>, seen: seq<string>)
    ensures FirstConfiguredTopic(config, ExceptIgnoreCase(xs, seen)) == FirstTagTopic(config, xs, seen)
    decreases |xs|
  {
    if xs != [] {
      if ContainsIgnoreCase(seen, xs[0]) {
        ExceptKeepsTagOrder(config, xs[1..], seen);
      } else {
        var rest := ExceptIgnoreCase(xs[1..], seen + [xs[0]]);
        assert ExceptIgnoreCase(xs, seen) == [xs[0]] + rest;
        assert ([xs[0]] + rest)[0] == xs[0] && ([xs[0]] + rest)[1..] == rest;
        if IsNullOrEmpty(GetPubSubTopicId(config, xs[0])) {
          ExceptKeepsTagOrder(config, xs[1..], seen + [xs[0]]);
          SeenWithoutTopic(config, xs[1..], seen, xs[0]);
        }
      }
    }
  }

  /** One call of `IPublishingService.Publish`. */
  datatype PublishCall = PublishCall(projectId: string, topicId: string, request: ForwardingRequest)

  /** The relay's environment: configuration, the publishing service, and `ToMinimal` for messages. */
  datatype RelayEnv = RelayEnv(
    config: Config,
    publishing: PublishCall -> Outcome<PublishResult>,
    toMinimal: ForwardingRule -> string)

  /** What one relay attempt returned (or threw), with the publishing calls it made. */
  datatype Relayed = Relayed(outcome: Outcome<PublishResult>, calls: seq<PublishCall>)

  function NoTopicMessage(env: RelayEnv, rule: ForwardingRule): string {
    "Not able to find Pub/Sub topic for rule's location for " + env.toMinimal(rule)
  }

  /**
   * `RemoteRulePublishingService.Publish`: without a usable topic the result is a failure and
   * nothing is published; otherwise exactly one publish of the unchanged request on the chosen
   * topic, under the configured project id ("" when unset), whose result is returned as is.
   */
  function Publish(env: RelayEnv, request: ForwardingRequest, rule: ForwardingRule): (r: Relayed)
    ensures var topic := FirstConfiguredTopic(env.config, CandidateLocations(rule, GetLocationTag(env.config).GetOr("")));
      (topic.None? ==> r == Relayed(Returned(PublishFailure(NoTopicMessage(env, rule))), []))
      && (topic.Some? ==>
            var call := PublishCall(GetCloudProjectId(env.config).GetOr(""), topic.value, request);
            r == Relayed(env.publishing(call), [call]))
    ensures |r.calls| <= 1
    ensures |r.calls| == 1 ==> r.calls[0].request == request && r.calls[0].topicId != ""
  {
    var projectId := GetCloudProjectId(env.config).GetOr("");
    var currentLocation := GetLocationTag(env.config).GetOr("");
    var topic := FirstConfiguredTopic(env.config, CandidateLocations(rule, currentLocation));
    if topic.None? then Relayed(Returned(PublishFailure(NoTopicMessage(env, rule))), [])
    else
      var call := PublishCall(projectId, topic.value, request);
      Relayed(env.publishing(call), [call])
  }

  /**
   * The chosen topic is configured for one of the rule's own tags, never the current location,
   * and so under a key different from the current location's key.
   */
  lemma ChosenTopicBelongsToAnotherLocation(env: RelayEnv, request: ForwardingRequest, rule: ForwardingRule)
    requires |Publish(env, request, rule).calls| == 1
    ensures var current := GetLocationTag(env.config).GetOr("");
      exists loc :: loc in rule.tags && !EqualsIgnoreCase(loc, current)
        && TopicIdKey(loc) != TopicIdKey(current)
        && GetPubSubTopicId(env.config, loc) == Some(Publish(env, request, rule).calls[0].topicId)
  {
    var current := GetLocationTag(env.config).GetOr("");
    var cands := CandidateLocations(rule, current);
    var topic := FirstConfiguredTopic(env.config, cands);
    assert topic.Some?;
    var i :| 0 <= i < |cands| && GetPubSubTopicId(env.config, cands[i]) == topic
      && forall j :: 0 <= j < i ==> IsNullOrEmpty(GetPubSubTopicId(env.config, cands[j]));
    var loc := cands[i];
    TopicKeyIgnoresCase(env.config, loc, current);
    assert Publish(env, request, rule).calls[0].topicId == topic.value;
    assert loc in rule.tags && !EqualsIgnoreCase(loc, current);
  }

  /** A rule with no tags, or tagged only with the current location, fails without publishing. */
  lemma NoOtherLocationFailsWithoutPublishing(env: RelayEnv, request: ForwardingRequest, rule: ForwardingRule)
    requires forall i :: 0 <= i < |rule.tags| ==> EqualsIgnoreCase(rule.tags[i], GetLocationTag(env.config).GetOr(""))
    ensures Publish(env, request, rule) == Relayed(Returned(PublishFailure(NoTopicMessage(env, rule))), [])
  {
    var current := GetLocationTag(env.config).GetOr("");
    assert [] + [current] == [current];
    forall i | 0 <= i < |rule.tags| ensures ContainsIgnoreCase([current], rule.tags[i]) {
      ContainsAppend([], current, rule.tags[i]);
    }
    ExceptAllSeen(rule.tags, [current]);
  }

  /** Earlier tags take precedence: a configured first candidate always wins. */
  lemma FirstConfiguredCandidateWins(env: RelayEnv, request: ForwardingRequest, rule: ForwardingRule)
    requires var cands := CandidateLocations(rule, GetLocationTag(env.config).GetOr(""));
      |cands| > 0 && !IsNullOrEmpty(GetPubSubTopicId(env.config, cands[0]))
    ensures var cands := CandidateLocations(rule, GetLocationTag(env.config).GetOr(""));
      Publish(env, request, rule).calls
        == [PublishCall(GetCloudProjectId(env.config).GetOr(""), GetPubSubTopicId(env.config, cands[0]).value, request)]
  {
  }

  /** The relay publishes on exactly the topic the reference definition picks from the tags, or not at all. */
  lemma RelayFollowsTagOrder(env: RelayEnv, request: ForwardingRequest, rule: ForwardingRule)
    ensures var topic := FirstTagTopic(env.config, rule.tags, [GetLocationTag(env.config).GetOr("")]);
      Publish(env, request, rule).calls
        == if topic.None? then [] else [PublishCall(GetCloudProjectId(env.config).GetOr(""), topic.value, request)]
  {
    ExceptKeepsTagOrder(env.config, rule.tags, [GetLocationTag(env.config).GetOr("")]);
  }

  /**
   * The chosen topic is that of the first tag, in enumeration order, that is not the current
   * location and has a topic: every earlier tag is the current location or has none.
   */
  lemma RelayPicksFirstConfiguredTag(env: RelayEnv, request: ForwardingRequest, rule: ForwardingRule)
    requires |Publish(env, request, rule).calls| == 1
    ensures var current := GetLocationTag(env.config).GetOr("");
      exists i :: 0 <= i < |rule.tags| && !EqualsIgnoreCase(rule.tags[i], current)
        && GetPubSubTopicId(env.config, rule.tags[i]) == Some(Publish(env, request, rule).calls[0].topicId)
        && forall j :: 0 <= j < i ==>
             EqualsIgnoreCase(rule.tags[j], current) || IsNullOrEmpty(GetPubSubTopicId(env.config, rule.tags[j]))
  {
    var current := GetLocationTag(env.config).GetOr("");
    RelayFollowsTagOrder(env, request, rule);
    var topic := FirstTagTopic(env.config, rule.tags, [current]);
    assert [] + [current] == [current];
    forall t ensures ContainsIgnoreCase([current], t) <==> EqualsIgnoreCase(t, current) {
      ContainsAppend([], current, t);
    }
    var i :| 0 <= i < |rule.tags| && !ContainsIgnoreCase([current], rule.tags[i]) && GetPubSubTopicId(env.config, rule.tags[i]) == topic
      && forall j :: 0 <= j < i ==> ContainsIgnoreCase([current], rule.tags[j]) || IsNullOrEmpty(GetPubSubTopicId(env.config, rule.tags[j]));
    assert !EqualsIgnoreCase(rule.tags[i], current);
  }
}
