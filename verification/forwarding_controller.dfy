/**
 * The HTTP controller's own copy of the dispatch ladder: it consults local rules only,
 * answers an unmatched event with an untouched response, and copies the upstream response
 * onto its own.
 */
module ForwardingControllers {
  import opened Wrappers
  import opened Strings
  import opened Models
  import opened Http
  import opened ForwardingService
  import opened ResponseUtils

  /** The incoming request: scheme, host and the body stream (None when there is no stream). */
  datatype HttpRequest = HttpRequest(scheme: string, host: string, bodyStream: Option<string>)

  /** `GetBodyFromHttpRequest`: the whole body text, or null when the request has no body stream. */
  function GetBodyFromHttpRequest(request: HttpRequest): (r: Option<string>)
    ensures r.None? <==> request.bodyStream.None?
  {
    request.bodyStream
  }

  /** A relative target is resolved against the request's own scheme and host. */
  function ControllerTargetUrl(rule: ForwardingRule, request: HttpRequest): (r: string)
    ensures rule.targetUrl.None? ==> r == ""
    ensures rule.targetUrl.Some? && !StartsWith(rule.targetUrl.value, "http") ==>
      r == request.scheme + "://" + request.host + rule.targetUrl.value
    ensures rule.targetUrl.Some? && StartsWith(rule.targetUrl.value, "http") ==> r == rule.targetUrl.value
  {
    if rule.targetUrl.Some? && !StartsWith(rule.targetUrl.value, "http") then
      request.scheme + "://" + request.host + rule.targetUrl.value
    else rule.targetUrl.GetOr("")
  }

  /** The controller resolves exactly as the dispatcher does when given "scheme://host" as the request host. */
  lemma ControllerTargetUrlAgreesWithService(rule: ForwardingRule, request: HttpRequest)
    ensures ControllerTargetUrl(rule, request) == GetValidTargetUrl(rule, Some(request.scheme + "://" + request.host))
  {
  }

  /** The body a POST/PUT forwards: the rule's literal content when it has one, else the request body. */
  function ForwardedBody(rule: ForwardingRule, body: Option<string>): Option<string> {
    if rule.content.Some? then rule.content else body
  }

  class ForwardingController {
    const find: RuleLookup
    const rest: RestClient

    constructor (find: RuleLookup, rest: RestClient)
      ensures this.find == find && this.rest == rest
    {
      this.find := find;
      this.rest := rest;
    }

    /**
     * The response state after `call`: the upstream status and merged headers when it returns;
     * when it throws, the exception propagates and the status and headers are as they were.
     */
    predicate Answered(call: OutboundCall, r: Outcome<()>, status: int, headers: HeaderMap,
                       oldStatus: int, oldHeaders: HeaderMap)
    {
      match rest(call)
      case Threw(e) => r == Threw(e) && status == oldStatus && headers == oldHeaders
      case Returned(upstream) => r == Returned(()) && status == upstream.statusCode && headers == CopiedHeaders(oldHeaders, upstream)
    }

    /** Calls upstream and copies its answer onto the response; an exception leaves the response as it was. */
    method CallAndCopy(call: OutboundCall, response: HttpResponse) returns (r: Outcome<()>)
      modifies response
      ensures rest(call).Threw? ==> r == Threw(rest(call).exception) && response.statusCode == old(response.statusCode) && response.headers == old(response.headers)
      ensures rest(call).Returned? ==>
        r == Returned(()) && response.statusCode == rest(call).value.statusCode
        && response.headers == CopiedHeaders(old(response.headers), rest(call).value)
    {
      match rest(call)
      case Threw(e) => return Threw(e);
      case Returned(upstream) => r := CopyHttpResponse(response, Some(upstream));
    }

    /** GET and DELETE: no body is read; an unmatched event leaves the response untouched. */
    method GetOrDelete(httpMethod: string, eventName: string, request: HttpRequest, response: HttpResponse)
      returns (r: Outcome<()>, calls: seq<OutboundCall>)
      requires httpMethod == GET || httpMethod == DELETE
      modifies response
      ensures find(httpMethod, eventName).None? ==>
        r == Returned(()) && calls == [] && response.statusCode == old(response.statusCode) && response.headers == old(response.headers)
      ensures find(httpMethod, eventName).Some? ==>
        var rule := find(httpMethod, eventName).value;
        calls == [OutboundCall(httpMethod, eventName, ControllerTargetUrl(rule, request), None, rule.headers, rule.ignoreSslError)]
        && (rest(calls[0]).Threw? ==>
              r == Threw(rest(calls[0]).exception)
              && response.statusCode == old(response.statusCode) && response.headers == old(response.headers))
        && (rest(calls[0]).Returned? ==>
              r == Returned(()) && response.statusCode == rest(calls[0]).value.statusCode
              && response.headers == CopiedHeaders(old(response.headers), rest(calls[0]).value))
    {
      var fwdRule := find(httpMethod, eventName);
      if fwdRule.None? {
        return Returned(()), [];
      }
      var rule := fwdRule.value;
      var targetUrl := ControllerTargetUrl(rule, request);
      var call := OutboundCall(httpMethod, eventName, targetUrl, None, rule.headers, rule.ignoreSslError);
      calls := [call];
      r := CallAndCopy(call, response);
    }

    /**
     * POST and PUT: the rule is looked up before the body is read; an empty body for a rule
     * that wants content sets 400 and calls nothing; literal content replaces the body afterwards.
     */
    method PostOrPut(httpMethod: string, eventName: string, request: HttpRequest, response: HttpResponse)
      returns (r: Outcome<()>, calls: seq<OutboundCall>)
      requires httpMethod == POST || httpMethod == PUT
      modifies response
      ensures find(httpMethod, eventName).None? ==>
        r == Returned(()) && calls == [] && response.statusCode == old(response.statusCode) && response.headers == old(response.headers)
      ensures find(httpMethod, eventName).Some? && find(httpMethod, eventName).value.hasContent
              && IsNullOrEmpty(GetBodyFromHttpRequest(request)) ==>
        r == Returned(()) && calls == [] && response.statusCode == 400 && response.headers == old(response.headers)
      ensures find(httpMethod, eventName).Some?
              && !(find(httpMethod, eventName).value.hasContent && IsNullOrEmpty(GetBodyFromHttpRequest(request))) ==>
        var rule := find(httpMethod, eventName).value;
        calls == [OutboundCall(httpMethod, eventName, ControllerTargetUrl(rule, request),
                               ForwardedBody(rule, GetBodyFromHttpRequest(request)), rule.headers, rule.ignoreSslError)]
        && (rest(calls[0]).Threw? ==>
              r == Threw(rest(calls[0]).exception)
              && response.statusCode == old(response.statusCode) && response.headers == old(response.headers))
        && (rest(calls[0]).Returned? ==>
              r == Returned(()) && response.statusCode == rest(calls[0]).value.statusCode
              && response.headers == CopiedHeaders(old(response.headers), rest(calls[0]).value))
    {
      var fwdRule := find(httpMethod, eventName);
      if fwdRule.None? {
        return Returned(()), [];
      }
      var rule := fwdRule.value;
      var body := GetBodyFromHttpRequest(request);
      if IsNullOrEmpty(body) && rule.hasContent {
        response.statusCode := 400;
        return Returned(()), [];
      }
      if rule.content.Some? {
        body := rule.content;
      }
      var targetUrl := ControllerTargetUrl(rule, request);
      var call := OutboundCall(httpMethod, eventName, targetUrl, body, rule.headers, rule.ignoreSslError);
      calls := [call];
      r := CallAndCopy(call, response);
    }

    /** `Get`: a matched rule is called without a body and its answer copied; otherwise nothing changes. */
    method Get(eventName: string, request: HttpRequest, response: HttpResponse) returns (r: Outcome<()>, calls: seq<OutboundCall>)
      modifies response
      ensures find(GET, eventName).None? ==>
        r == Returned(()) && calls == [] && response.statusCode == old(response.statusCode) && response.headers == old(response.headers)
      ensures find(GET, eventName).Some? ==>
        var rule := find(GET, eventName).value;
        calls == [OutboundCall(GET, eventName, ControllerTargetUrl(rule, request), None, rule.headers, rule.ignoreSslError)]
        && Answered(calls[0], r, response.statusCode, response.headers, old(response.statusCode), old(response.headers))
    {
      r, calls := GetOrDelete(GET, eventName, request, response);
    }

    /** `Post`: unmatched changes nothing; a wanted but empty body answers 400; otherwise one call, copied back. */
    method Post(eventName: string, request: HttpRequest, response: HttpResponse) returns (r: Outcome<()>, calls: seq<OutboundCall>)
      modifies response
      ensures find(POST, eventName).None? ==>
        r == Returned(()) && calls == [] && response.statusCode == old(response.statusCode) && response.headers == old(response.headers)
      ensures find(POST, eventName).Some? && find(POST, eventName).value.hasContent
              && IsNullOrEmpty(GetBodyFromHttpRequest(request)) ==>
        r == Returned(()) && calls == [] && response.statusCode == 400 && response.headers == old(response.headers)
      ensures find(POST, eventName).Some?
              && !(find(POST, eventName).value.hasContent && IsNullOrEmpty(GetBodyFromHttpRequest(request))) ==>
        var rule := find(POST, eventName).value;
        calls == [OutboundCall(POST, eventName, ControllerTargetUrl(rule, request),
                               ForwardedBody(rule, GetBodyFromHttpRequest(request)), rule.headers, rule.ignoreSslError)]
        && Answered(calls[0], r, response.statusCode, response.headers, old(response.statusCode), old(response.headers))
    {
      r, calls := PostOrPut(POST, eventName, request, response);
    }

    /** `Put`: unmatched changes nothing; a wanted but empty body answers 400; otherwise one call, copied back. */
    method Put(eventName: string, request: HttpRequest, response: HttpResponse) returns (r: Outcome<()>, calls: seq<OutboundCall>)
      modifies response
      ensures find(PUT, eventName).None? ==>
        r == Returned(()) && calls == [] && response.statusCode == old(response.statusCode) && response.headers == old(response.headers)
      ensures find(PUT, eventName).Some? && find(PUT, eventName).value.hasContent
              && IsNullOrEmpty(GetBodyFromHttpRequest(request)) ==>
        r == Returned(()) && calls == [] && response.statusCode == 400 && response.headers == old(response.headers)
      ensures find(PUT, eventName).Some?
              && !(find(PUT, eventName).value.hasContent && IsNullOrEmpty(GetBodyFromHttpRequest(request))) ==>
        var rule := find(PUT, eventName).value;
        calls == [OutboundCall(PUT, eventName, ControllerTargetUrl(rule, request),
                               ForwardedBody(rule, GetBodyFromHttpRequest(request)), rule.headers, rule.ignoreSslError)]
        && Answered(calls[0], r, response.statusCode, response.headers, old(response.statusCode), old(response.headers))
    {
      r, calls := PostOrPut(PUT, eventName, request, response);
    }

    /** `Delete`: a matched rule is called without a body and its answer copied; otherwise nothing changes. */
    method Delete(eventName: string, request: HttpRequest, response: HttpResponse) returns (r: Outcome<()>, calls: seq<OutboundCall>)
      modifies response
      ensures find(DELETE, eventName).None? ==>
        r == Returned(()) && calls == [] && response.statusCode == old(response.statusCode) && response.headers == old(response.headers)
      ensures find(DELETE, eventName).Some? ==>
        var rule := find(DELETE, eventName).value;
        calls == [OutboundCall(DELETE, eventName, ControllerTargetUrl(rule, request), None, rule.headers, rule.ignoreSslError)]
        && Answered(calls[0], r, response.statusCode, response.headers, old(response.statusCode), old(response.headers))
    {
      r, calls := GetOrDelete(DELETE, eventName, request, response);
    }
  }

  /**
   * Where a local rule matches and the request has a body, the controller makes the very call
   * the dispatcher makes for host "scheme://host".
   */
  lemma ControllerCallMatchesService(c: Collaborators, httpMethod: string, eventName: string, request: HttpRequest)
    requires httpMethod == POST || httpMethod == PUT
    requires c.find(httpMethod, eventName).Some?
    requires request.bodyStream.Some?
    requires !(c.find(httpMethod, eventName).value.hasContent && request.bodyStream.value == "")
    ensures var rule := c.find(httpMethod, eventName).value;
      var d := ProcessPostOrPutEvent(c, httpMethod, eventName, Some(request.scheme + "://" + request.host), request.bodyStream.value);
      d.calls == [OutboundCall(httpMethod, eventName, ControllerTargetUrl(rule, request),
                               ForwardedBody(rule, GetBodyFromHttpRequest(request)), rule.headers, rule.ignoreSslError)]
  {
    ControllerTargetUrlAgreesWithService(c.find(httpMethod, eventName).value, request);
  }
}
