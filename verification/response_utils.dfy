/** Copying an upstream response's status and headers onto the outgoing response. */
module ResponseUtils {
  import opened Wrappers
  import opened Strings
  import opened Http

  /** Response headers; names are case-insensitive, so each is stored under its upper-cased form. */
  type HeaderMap = map<string, seq<string>>

  /** The outgoing `HttpResponse`: its status code and headers (the body stream is not modelled). */
  class HttpResponse {
    var statusCode: int
    var headers: HeaderMap

    /** A fresh response: status 200, no headers. */
    constructor ()
      ensures statusCode == 200 && headers == map[]
    {
      statusCode := 200;
      headers := map[];
    }

    /** `Headers[name] = values` */
    method SetHeader(name: string, values: seq<string>)
      modifies this
      ensures headers == old(headers)[Upper(name) := values]
      ensures statusCode == old(statusCode)
    {
      headers := headers[Upper(name) := values];
    }

    /** `Headers.Remove(name)` */
    method RemoveHeader(name: string)
      modifies this
      ensures headers == old(headers) - {Upper(name)}
      ensures statusCode == old(statusCode)
    {
      headers := headers - {Upper(name)};
    }
  }

  /** The header map after assigning each field in order, a later field overwriting an earlier one. */
  function Assign(h: HeaderMap, fields: seq<HeaderField>): HeaderMap
  {
    if fields == [] then h
    else Assign(h, fields[..|fields| - 1])[Upper(fields[|fields| - 1].0) := fields[|fields| - 1].1]
  }

  /** The values of the last field whose name matches `key` ignoring case, if any. */
  function LastWith(fields: seq<HeaderField>, key: string): Option<seq<string>>
  {
    if fields == [] then None
    else if Upper(fields[|fields| - 1].0) == key then Some(fields[|fields| - 1].1)
    else LastWith(fields[..|fields| - 1], key)
  }

  /** Assigning fields: a key named by some field gets the last such field's values; others are untouched. */
  lemma {:induction false} AssignLookup(h: HeaderMap, fields: seq<HeaderField>, key: string)
    ensures LastWith(fields, key).Some? ==> key in Assign(h, fields) && Assign(h, fields)[key] == LastWith(fields, key).value
    ensures LastWith(fields, key).None? ==> (key in Assign(h, fields) <==> key in h)
    ensures LastWith(fields, key).None? && key in h ==> Assign(h, fields)[key] == h[key]
  {
    if fields != [] {
      AssignLookup(h, fields[..|fields| - 1], key);
    }
  }

  const TransferEncoding := "transfer-encoding"
  const SetCookie := "Set-Cookie"

  /** The headers after the copy: upstream headers, then content headers, then the two removals. */
  function CopiedHeaders(h: HeaderMap, upstream: UpstreamResponse): HeaderMap {
    Assign(Assign(h, upstream.headers), upstream.contentHeaders) - {Upper(TransferEncoding), Upper(SetCookie)}
  }

  /**
   * Per header name: the two hop-by-hop names are gone; a content header wins over an upstream
   * header of the same name, which wins over what the response already had; any other
   * pre-existing header is kept as it was.
   */
  lemma CopiedHeaderLookup(h: HeaderMap, upstream: UpstreamResponse, key: string)
    ensures key == Upper(TransferEncoding) || key == Upper(SetCookie) ==> key !in CopiedHeaders(h, upstream)
    ensures key != Upper(TransferEncoding) && key != Upper(SetCookie) ==>
      var r := CopiedHeaders(h, upstream);
      match LastWith(upstream.contentHeaders, key)
      case Some(v) => key in r && r[key] == v
      case None =>
        match LastWith(upstream.headers, key)
        case Some(v) => key in r && r[key] == v
        case None => (key in r <==> key in h) && (key in h ==> r[key] == h[key])
  {
    AssignLookup(h, upstream.headers, key);
    AssignLookup(Assign(h, upstream.headers), upstream.contentHeaders, key);
  }

  /**
   * `CopyHttpResponse`: a missing upstream message throws before anything is written; otherwise
   * the status is copied, the headers are assigned in order, and the two hop-by-hop headers removed.
   */
  method CopyHttpResponse(response: HttpResponse, callResponseMessage: Option<UpstreamResponse>) returns (r: Outcome<()>)
    modifies response
    ensures callResponseMessage.None? ==>
      r == Threw(ArgumentNullException("callResponseMessage", "Value cannot be null."))
      && response.statusCode == old(response.statusCode) && response.headers == old(response.headers)
    ensures callResponseMessage.Some? ==>
      r == Returned(())
      && response.statusCode == callResponseMessage.value.statusCode
      && response.headers == CopiedHeaders(old(response.headers), callResponseMessage.value)
  {
    if callResponseMessage.None? {
      return Threw(ArgumentNullException("callResponseMessage", "Value cannot be null."));
    }
    var upstream := callResponseMessage.value;
    response.statusCode := upstream.statusCode;
    ghost var start := response.headers;
    for i := 0 to |upstream.headers|
      invariant response.headers == Assign(start, upstream.headers[..i])
      invariant response.statusCode == upstream.statusCode
    {
      assert upstream.headers[..i + 1][..i] == upstream.headers[..i];
      response.SetHeader(upstream.headers[i].0, upstream.headers[i].1);
    }
    assert upstream.headers[..|upstream.headers|] == upstream.headers;
    ghost var merged := response.headers;
    for i := 0 to |upstream.contentHeaders|
      invariant response.headers == Assign(merged, upstream.contentHeaders[..i])
      invariant response.statusCode == upstream.statusCode
    {
      assert upstream.contentHeaders[..i + 1][..i] == upstream.contentHeaders[..i];
      response.SetHeader(upstream.contentHeaders[i].0, upstream.contentHeaders[i].1);
    }
    assert upstream.contentHeaders[..|upstream.contentHeaders|] == upstream.contentHeaders;
    response.RemoveHeader(TransferEncoding);
    response.RemoveHeader(SetCookie);
    return Returned(());
  }
}
