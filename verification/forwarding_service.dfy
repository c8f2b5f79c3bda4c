/**
 * The dispatcher: a fixed ladder from (method, event, request host, body) to one of the
 * four processing results, making at most one outbound call.
 */
module ForwardingService {
  import opened Wrappers
  import opened Strings
  import opened Models
  import opened Http
  import opened RuleProcessingResults

  /** `RulesReader.Find` / `RulesReader.FindRemote`: rule lookup by (method, event). */
  type RuleLookup = (string, string) -> Option<ForwardingRule>

  /** The service's collaborators: the two lookups and the REST client. */
  datatype Collaborators = Collaborators(find: RuleLookup, findRemote: RuleLookup, rest: RestClient)

  /** What one dispatch returned (or threw), together with the outbound calls it made. */
  datatype Dispatched = Dispatched(outcome: Outcome<ProcessingResult>, calls: seq<OutboundCall>)

  /**
   * A target that does not start with "http" (ordinal) is relative and is appended to the
   * request host (empty when there is none); any other target is kept; no target gives "".
   */
  function GetValidTargetUrl(rule: ForwardingRule, requestHostUrl: Option<string>): (r: string)
    ensures rule.targetUrl.None? ==> r == ""
    ensures rule.targetUrl.Some? ==> EndsWith(r, rule.targetUrl.value)
    ensures rule.targetUrl.Some? && !StartsWith(rule.targetUrl.value, "http") ==>
      r == OrEmpty(requestHostUrl) + rule.targetUrl.value
    ensures rule.targetUrl.Some? && StartsWith(rule.targetUrl.value, "http") ==> r == rule.targetUrl.value
  {
    match rule.targetUrl
    case None => ""
    case Some(t) =>
      if !StartsWith(t, "http") then
        assert (OrEmpty(requestHostUrl) + t)[|OrEmpty(requestHostUrl)|..] == t;
        OrEmpty(requestHostUrl) + t
      else t
  }

  predicate EndsWith(s: string, suffix: string) {
    |suffix| <= |s| && s[|s| - |suffix|..] == suffix
  }

  /** Resolving against an absolute host gives an absolute URL, which resolves to itself again. */
  lemma ResolvedTargetIsStable(rule: ForwardingRule, host: string)
    requires rule.targetUrl.Some?
    requires StartsWith(host, "http")
    ensures StartsWith(GetValidTargetUrl(rule, Some(host)), "http")
    ensures var r := GetValidTargetUrl(rule, Some(host));
      GetValidTargetUrl(rule.(targetUrl := Some(r)), Some(host)) == r
  {
    var t := rule.targetUrl.value;
    if !StartsWith(t, "http") {
      assert (host + t)[..4] == host[..4];
    }
  }

  /** A relative target with no request host becomes the bare target path. */
  lemma RelativeTargetWithoutHost(rule: ForwardingRule)
    requires rule.targetUrl.Some? && !StartsWith(rule.targetUrl.value, "http")
    ensures GetValidTargetUrl(rule, None) == rule.targetUrl.value
  {
    assert "" + rule.targetUrl.value == rule.targetUrl.value;
  }

  /** Makes `call` with the REST client; the response, or the exception, is passed on unchanged. */
  function Forward(c: Collaborators, call: OutboundCall): (r: Dispatched)
    ensures r.calls == [call]
    ensures c.rest(call).Returned? ==> r.outcome == Returned(Forwarded(c.rest(call).value))
    ensures c.rest(call).Threw? ==> r.outcome == Threw(c.rest(call).exception)
  {
    match c.rest(call)
    case Returned(response) => Dispatched(Returned(Forwarded(response)), [call])
    case Threw(e) => Dispatched(Threw(e), [call])
  }

  /** The lookup steps shared by both ladders: a local miss ends in RemoteRuleFound or NoMatchingRule. */
  function NoLocalRule(c: Collaborators, httpMethod: string, eventName: string): Dispatched {
    match c.findRemote(httpMethod, eventName)
    case Some(remoteRule) => Dispatched(Returned(RemoteRuleFound(remoteRule)), [])
    case None => Dispatched(Returned(NoMatchingRule), [])
  }

  function NotSupported(httpMethod: string): Dispatched {
    Dispatched(Threw(ArgumentException("Method " + httpMethod + " is not supported here")), [])
  }

  function ProcessPostOrPutEvent(c: Collaborators, httpMethod: string, eventName: string,
                                 requestHostUrl: Option<string>, requestContent: string): (r: Dispatched)
    // only POST and PUT are accepted; anything else throws before any lookup
    ensures httpMethod != POST && httpMethod != PUT ==>
      r.outcome.Threw? && r.outcome.exception.ArgumentException? && r.calls == []
    // a local miss with a remote hit returns exactly that remote rule, with no call
    ensures (httpMethod == POST || httpMethod == PUT) && c.find(httpMethod, eventName).None?
              && c.findRemote(httpMethod, eventName).Some? ==>
      r == Dispatched(Returned(RemoteRuleFound(c.findRemote(httpMethod, eventName).value)), [])
    // NoMatchingRule exactly when both lookups miss
    ensures r.outcome == Returned(NoMatchingRule) <==>
      (httpMethod == POST || httpMethod == PUT) && c.find(httpMethod, eventName).None?
      && c.findRemote(httpMethod, eventName).None?
    // NoBody exactly when the local rule wants content and the body is empty
    ensures r.outcome == Returned(NoBody) <==>
      (httpMethod == POST || httpMethod == PUT) && c.find(httpMethod, eventName).Some?
      && c.find(httpMethod, eventName).value.hasContent && requestContent == ""
    // at most one call, and one exactly when a local rule passed the body check
    ensures |r.calls| <= 1
    ensures |r.calls| == 1 <==>
      (httpMethod == POST || httpMethod == PUT) && c.find(httpMethod, eventName).Some?
      && !(c.find(httpMethod, eventName).value.hasContent && requestContent == "")
    // the call uses the same verb, the rule's headers, flag and resolved URL, and the rule's
    // literal content in place of the request body whenever the rule has one
    ensures |r.calls| == 1 ==>
      var rule := c.find(httpMethod, eventName).value;
      r.calls[0] == OutboundCall(httpMethod, eventName, GetValidTargetUrl(rule, requestHostUrl),
                                 Some(rule.content.GetOr(requestContent)), rule.headers, rule.ignoreSslError)
      && r == Forward(c, r.calls[0])
  {
    if httpMethod != POST && httpMethod != PUT then NotSupported(httpMethod)
    else match c.find(httpMethod, eventName)
      case None => NoLocalRule(c, httpMethod, eventName)
      case Some(rule) =>
        var body := requestContent;
        if body == "" && rule.hasContent then Dispatched(Returned(NoBody), [])
        else
          var body := if rule.content.Some? then rule.content.value else body;
          var targetUrl := GetValidTargetUrl(rule, requestHostUrl);
          Forward(c, OutboundCall(httpMethod, eventName, targetUrl, Some(body), rule.headers, rule.ignoreSslError))
  }

  function ProcessGetOrDeleteEvent(c: Collaborators, httpMethod: string, eventName: string,
                                   requestHostUrl: Option<string>): (r: Dispatched)
    ensures httpMethod != GET && httpMethod != DELETE ==>
      r.outcome.Threw? && r.outcome.exception.ArgumentException? && r.calls == []
    ensures (httpMethod == GET || httpMethod == DELETE) && c.find(httpMethod, eventName).None?
              && c.findRemote(httpMethod, eventName).Some? ==>
      r == Dispatched(Returned(RemoteRuleFound(c.findRemote(httpMethod, eventName).value)), [])
    ensures r.outcome == Returned(NoMatchingRule) <==>
      (httpMethod == GET || httpMethod == DELETE) && c.find(httpMethod, eventName).None?
      && c.findRemote(httpMethod, eventName).None?
    // without a body there is no body check
    ensures r.outcome != Returned(NoBody)
    ensures |r.calls| <= 1
    ensures |r.calls| == 1 <==> (httpMethod == GET || httpMethod == DELETE) && c.find(httpMethod, eventName).Some?
    ensures |r.calls| == 1 ==>
      var rule := c.find(httpMethod, eventName).value;
      r.calls[0] == OutboundCall(httpMethod, eventName, GetValidTargetUrl(rule, requestHostUrl),
                                 None, rule.headers, rule.ignoreSslError)
      && r == Forward(c, r.calls[0])
  {
    if httpMethod != GET && httpMethod != DELETE then NotSupported(httpMethod)
    else match c.find(httpMethod, eventName)
      case None => NoLocalRule(c, httpMethod, eventName)
      case Some(rule) =>
        var targetUrl := GetValidTargetUrl(rule, requestHostUrl);
        Forward(c, OutboundCall(httpMethod, eventName, targetUrl, None, rule.headers, rule.ignoreSslError))
  }

  /** The public entry points fix the verb; none of them can reach the ArgumentException. */
  function ProcessGetEvent(c: Collaborators, eventName: string, requestHostUrl: Option<string>): (r: Dispatched)
    ensures |r.calls| <= 1
    ensures |r.calls| == 1 <==> c.find(GET, eventName).Some?
    ensures |r.calls| == 1 ==>
      var rule := c.find(GET, eventName).value;
      r.calls[0] == OutboundCall(GET, eventName, GetValidTargetUrl(rule, requestHostUrl), None, rule.headers, rule.ignoreSslError)
    ensures r.outcome.Threw? ==> |r.calls| == 1 && r.calls[0].verb == GET && c.rest(r.calls[0]).Threw?
    // the outcome: the forwarded response, the remote rule, or no match
    ensures |r.calls| == 1 ==> r == Forward(c, r.calls[0])
    ensures c.find(GET, eventName).None? && c.findRemote(GET, eventName).Some? ==>
      r.outcome == Returned(RemoteRuleFound(c.findRemote(GET, eventName).value))
    ensures r.outcome == Returned(NoMatchingRule) <==>
      c.find(GET, eventName).None? && c.findRemote(GET, eventName).None?
    ensures r.outcome != Returned(NoBody)
  {
    ProcessGetOrDeleteEvent(c, GET, eventName, requestHostUrl)
  }

  function ProcessPostEvent(c: Collaborators, eventName: string, requestHostUrl: Option<string>, requestContent: string): (r: Dispatched)
    ensures |r.calls| <= 1
    ensures |r.calls| == 1 <==>
      c.find(POST, eventName).Some? && !(c.find(POST, eventName).value.hasContent && requestContent == "")
    ensures |r.calls| == 1 ==>
      var rule := c.find(POST, eventName).value;
      r.calls[0] == OutboundCall(POST, eventName, GetValidTargetUrl(rule, requestHostUrl),
                                 Some(rule.content.GetOr(requestContent)), rule.headers, rule.ignoreSslError)
    ensures r.outcome.Threw? ==> |r.calls| == 1 && r.calls[0].verb == POST && c.rest(r.calls[0]).Threw?
    // the outcome: the forwarded response, the remote rule, or no match
    ensures |r.calls| == 1 ==> r == Forward(c, r.calls[0])
    ensures c.find(POST, eventName).None? && c.findRemote(POST, eventName).Some? ==>
      r.outcome == Returned(RemoteRuleFound(c.findRemote(POST, eventName).value))
    ensures r.outcome == Returned(NoMatchingRule) <==>
      c.find(POST, eventName).None? && c.findRemote(POST, eventName).None?
    ensures r.outcome == Returned(NoBody) <==>
      c.find(POST, eventName).Some? && c.find(POST, eventName).value.hasContent && requestContent == ""
  {
    ProcessPostOrPutEvent(c, POST, eventName, requestHostUrl, requestContent)
  }

  function ProcessPutEvent(c: Collaborators, eventName: string, requestHostUrl: Option<string>, requestContent: string): (r: Dispatched)
    ensures |r.calls| <= 1
    ensures |r.calls| == 1 <==>
      c.find(PUT, eventName).Some? && !(c.find(PUT, eventName).value.hasContent && requestContent == "")
    ensures |r.calls| == 1 ==>
      var rule := c.find(PUT, eventName).value;
      r.calls[0] == OutboundCall(PUT, eventName, GetValidTargetUrl(rule, requestHostUrl),
                                 Some(rule.content.GetOr(requestContent)), rule.headers, rule.ignoreSslError)
    ensures r.outcome.Threw? ==> |r.calls| == 1 && r.calls[0].verb == PUT && c.rest(r.calls[0]).Threw?
    // the outcome: the forwarded response, the remote rule, or no match
    ensures |r.calls| == 1 ==> r == Forward(c, r.calls[0])
    ensures c.find(PUT, eventName).None? && c.findRemote(PUT, eventName).Some? ==>
      r.outcome == Returned(RemoteRuleFound(c.findRemote(PUT, eventName).value))
    ensures r.outcome == Returned(NoMatchingRule) <==>
      c.find(PUT, eventName).None? && c.findRemote(PUT, eventName).None?
    ensures r.outcome == Returned(NoBody) <==>
      c.find(PUT, eventName).Some? && c.find(PUT, eventName).value.hasContent && requestContent == ""
  {
    ProcessPostOrPutEvent(c, PUT, eventName, requestHostUrl, requestContent)
  }

  function ProcessDeleteEvent(c: Collaborators, eventName: string, requestHostUrl: Option<string>): (r: Dispatched)
    ensures |r.calls| <= 1
    ensures |r.calls| == 1 <==> c.find(DELETE, eventName).Some?
    ensures |r.calls| == 1 ==>
      var rule := c.find(DELETE, eventName).value;
      r.calls[0] == OutboundCall(DELETE, eventName, GetValidTargetUrl(rule, requestHostUrl), None, rule.headers, rule.ignoreSslError)
    ensures r.outcome.Threw? ==> |r.calls| == 1 && r.calls[0].verb == DELETE && c.rest(r.calls[0]).Threw?
    // the outcome: the forwarded response, the remote rule, or no match
    ensures |r.calls| == 1 ==> r == Forward(c, r.calls[0])
    ensures c.find(DELETE, eventName).None? && c.findRemote(DELETE, eventName).Some? ==>
      r.outcome == Returned(RemoteRuleFound(c.findRemote(DELETE, eventName).value))
    ensures r.outcome == Returned(NoMatchingRule) <==>
      c.find(DELETE, eventName).None? && c.findRemote(DELETE, eventName).None?
    ensures r.outcome != Returned(NoBody)
  {
    ProcessGetOrDeleteEvent(c, DELETE, eventName, requestHostUrl)
  }

  /**
   * The literal-content override comes after the empty-body check: it cannot rescue an empty
   * body when the rule wants content, and with HasContent=false an empty body still forwards,
   * carrying the rule's content when it has one.
   */
  lemma ContentOverrideComesAfterBodyCheck(c: Collaborators, httpMethod: string, eventName: string,
                                                             requestHostUrl: Option<string>)
    requires httpMethod == POST || httpMethod == PUT
    requires c.find(httpMethod, eventName).Some?
    ensures var rule := c.find(httpMethod, eventName).value;
      rule.hasContent ==> ProcessPostOrPutEvent(c, httpMethod, eventName, requestHostUrl, "").outcome == Returned(NoBody)
    ensures var rule := c.find(httpMethod, eventName).value;
      var r := ProcessPostOrPutEvent(c, httpMethod, eventName, requestHostUrl, "");
      !rule.hasContent ==> |r.calls| == 1 && r.calls[0].body == Some(rule.content.GetOr(""))
  {
  }

  /** Two requests differing only in body make the same call when the rule carries literal content. */
  lemma LiteralContentIgnoresRequestBody(c: Collaborators, httpMethod: string, eventName: string,
                                         requestHostUrl: Option<string>, body1: string, body2: string)
    requires httpMethod == POST || httpMethod == PUT
    requires c.find(httpMethod, eventName).Some? && c.find(httpMethod, eventName).value.content.Some?
    requires body1 != "" && body2 != ""
    ensures ProcessPostOrPutEvent(c, httpMethod, eventName, requestHostUrl, body1)
         == ProcessPostOrPutEvent(c, httpMethod, eventName, requestHostUrl, body2)
  {
  }
}
