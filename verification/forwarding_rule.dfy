/** The rule record, its defaults, its case-insensitive tag set and its pretty printing. */
module Models {
  import opened Wrappers
  import opened Strings

  /** A `Dictionary<string, string>` as its pairs in enumeration order. */
  type Headers = seq<(string, string)>

  /**
   * A forwarding rule as constructed. `tags` is the case-insensitive hash set built from
   * the constructor's tags (its elements in enumeration order), `prettyTags` the rendering
   * of the raw constructor argument.
   */
  datatype ForwardingRule = ForwardingRule(
    httpMethod: string,
    event: string,
    targetUrl: Option<string>,
    hasContent: bool,
    content: Option<string>,
    ignoreSslError: bool,
    headers: Headers,
    tags: seq<string>,
    prettyTags: string)
  {
    /** `HasTag(tag) => Tags.Contains(tag)` on the case-insensitive set. */
    predicate HasTag(tag: string) {
      ContainsIgnoreCase(tags, tag)
    }
  }

  /**
   * The relay envelope: method, event and content only. Each is null when the JSON it was read
   * from lacks it.
   */
  datatype ForwardingRequest = ForwardingRequest(httpMethod: Option<string>, event: Option<string>, content: Option<string>)

  /** `string.Join(sep, xs)`, built from the end the way a builder appends. */
  function Join(sep: string, xs: seq<string>): string
  {
    if |xs| == 0 then ""
    else if |xs| == 1 then xs[0]
    else Join(sep, xs[..|xs| - 1]) + sep + xs[|xs| - 1]
  }

  /** Joining a non-empty tail behind a head puts exactly one separator between them. */
  lemma {:induction false} JoinCons(sep: string, x: string, rest: seq<string>)
    requires |rest| > 0
    ensures Join(sep, [x] + rest) == x + sep + Join(sep, rest)
    decreases |rest|
  {
    var xs := [x] + rest;
    if |rest| == 1 {
      assert xs[..|xs| - 1] == [x];
    } else {
      assert xs[..|xs| - 1] == [x] + rest[..|rest| - 1];
      JoinCons(sep, x, rest[..|rest| - 1]);
    }
  }

  /**
   * `Tags?.ToHashSet(StringComparer.OrdinalIgnoreCase)`: adding the tags one by one keeps
   * the first spelling of each case-insensitive class.
   */
  function ToCaseInsensitiveSet(raw: seq<string>): (r: seq<string>)
    ensures forall t :: ContainsIgnoreCase(r, t) <==> ContainsIgnoreCase(raw, t)
    ensures NoCaseDuplicates(r)
    ensures forall i :: 0 <= i < |r| ==> r[i] in raw
    decreases |raw|
  {
    if raw == [] then []
    else
      var prev := ToCaseInsensitiveSet(raw[..|raw| - 1]);
      var last := raw[|raw| - 1];
      assert forall t :: ContainsIgnoreCase(raw, t) <==>
        ContainsIgnoreCase(raw[..|raw| - 1], t) || EqualsIgnoreCase(last, t) by {
        forall t ensures ContainsIgnoreCase(raw, t) ==>
          ContainsIgnoreCase(raw[..|raw| - 1], t) || EqualsIgnoreCase(last, t) {
          if ContainsIgnoreCase(raw, t) {
            var i :| 0 <= i < |raw| && EqualsIgnoreCase(raw[i], t);
            if i < |raw| - 1 { assert raw[..|raw| - 1][i] == raw[i]; }
          }
        }
        forall t ensures ContainsIgnoreCase(raw[..|raw| - 1], t) ==> ContainsIgnoreCase(raw, t) {
          if ContainsIgnoreCase(raw[..|raw| - 1], t) {
            var i :| 0 <= i < |raw| - 1 && EqualsIgnoreCase(raw[..|raw| - 1][i], t);
            assert raw[i] == raw[..|raw| - 1][i];
          }
        }
      }
      if ContainsIgnoreCase(prev, last) then prev
      else
        var r := prev + [last];
        assert forall t :: ContainsIgnoreCase(r, t) <==> ContainsIgnoreCase(prev, t) || EqualsIgnoreCase(last, t) by {
          forall t ensures ContainsIgnoreCase(r, t) ==> ContainsIgnoreCase(prev, t) || EqualsIgnoreCase(last, t) {
            if ContainsIgnoreCase(r, t) {
              var i :| 0 <= i < |r| && EqualsIgnoreCase(r[i], t);
              if i < |prev| { assert r[i] == prev[i]; }
            }
          }
          forall t ensures ContainsIgnoreCase(prev, t) ==> ContainsIgnoreCase(r, t) {
            if ContainsIgnoreCase(prev, t) {
              var i :| 0 <= i < |prev| && EqualsIgnoreCase(prev[i], t);
              assert r[i] == prev[i];
            }
          }
          assert r[|prev|] == last;
        }
        r
  }

  /**
   * The record's primary constructor, with the C# default parameter values. The property
   * initialisers replace a null header map and a null tag set by empty ones; `prettyTags`
   * is rendered from the raw constructor argument, not from the folded set.
   */
  function NewRule(httpMethod: string, event: string, targetUrl: Option<string>,
                   hasContent: bool := true, content: Option<string> := None,
                   ignoreSslError: bool := false, headers: Option<Headers> := None,
                   tags: Option<seq<string>> := None): (r: ForwardingRule)
    ensures r.httpMethod == httpMethod && r.event == event && r.targetUrl == targetUrl
    ensures forall t :: r.HasTag(t) <==> tags.Some? && ContainsIgnoreCase(tags.value, t)
    ensures NoCaseDuplicates(r.tags)
  {
    ForwardingRule(httpMethod, event, targetUrl, hasContent, content, ignoreSslError,
                   headers.GetOr([]), ToCaseInsensitiveSet(tags.GetOr([])),
                   "[" + Join(", ", tags.GetOr([])) + "]")
  }

  /** A rule built with every optional argument left out. */
  lemma RuleDefaults(httpMethod: string, event: string, targetUrl: Option<string>)
    ensures var r := NewRule(httpMethod, event, targetUrl);
      && r.hasContent && r.content.None? && !r.ignoreSslError
      && r.headers == [] && r.tags == [] && r.prettyTags == "[]"
      && forall t :: !r.HasTag(t)
  {
  }

  /**
   * Two spellings of one tag collapse into the first in the tag set, while the pretty form
   * keeps both as they were passed.
   */
  lemma TagsCollapseButPrettyTagsKeepRawSpelling(httpMethod: string, event: string,
                                                 targetUrl: Option<string>, a: string, b: string)
    requires EqualsIgnoreCase(a, b)
    ensures NewRule(httpMethod, event, targetUrl, tags := Some([a, b])).tags == [a]
    ensures NewRule(httpMethod, event, targetUrl, tags := Some([a, b])).prettyTags == "[" + a + ", " + b + "]"
  {
    assert NewRule(httpMethod, event, targetUrl, tags := Some([a, b])).tags == [a] by {
      CollapseTwoSpellings(a, b);
    }
    assert NewRule(httpMethod, event, targetUrl, tags := Some([a, b])).prettyTags == "[" + a + ", " + b + "]" by {
      JoinTwo(", ", a, b);
    }
  }

  /** Joining two strings puts one separator between them. */
  lemma JoinTwo(sep: string, a: string, b: string)
    ensures Join(sep, [a, b]) == a + sep + b
  {
    assert [a, b][..1] == [a];
  }

  lemma CollapseTwoSpellings(a: string, b: string)
    requires EqualsIgnoreCase(a, b)
    ensures ToCaseInsensitiveSet([a, b]) == [a]
  {
    assert [a, b][..1] == [a] && [a][..0] == [];
    assert ToCaseInsensitiveSet([]) == [];
    assert ToCaseInsensitiveSet([a]) == [a];
    assert EqualsIgnoreCase([a][0], b);
  }

  /** One rendered dictionary entry, `key=value`. */
  function Entry(pair: (string, string)): string {
    pair.0 + "=" + pair.1
  }

  /** The rendered entries of a dictionary, in enumeration order. */
  function Entries(pairs: Headers): (r: seq<string>)
    ensures |r| == |pairs|
    ensures forall i :: 0 <= i < |pairs| ==> r[i] == Entry(pairs[i])
  {
    seq(|pairs|, i requires 0 <= i < |pairs| => Entry(pairs[i]))
  }

  /** What `PrettyPrintDictionary.ToString` produces: entries joined by ", " inside brackets. */
  function Render(pairs: Headers): string {
    "[" + Join(", ", Entries(pairs)) + "]"
  }

  /** `PrettyPrintDictionary.ToString`: a builder loop with a running index. */
  method PrettyPrint(pairs: Headers) returns (s: string)
    ensures s == Render(pairs)
  {
    var builder := "[";
    var curIndex := 0;
    for i := 0 to |pairs|
      invariant curIndex == i
      invariant builder == "[" + Join(", ", Entries(pairs[..i]))
    {
      assert Entries(pairs[..i + 1])[..i] == Entries(pairs[..i]);
      if curIndex > 0 {
        builder := builder + ", ";
      }
      builder := builder + pairs[i].0;
      builder := builder + "=";
      builder := builder + pairs[i].1;
      curIndex := curIndex + 1;
    }
    assert pairs[..|pairs|] == pairs;
    s := builder + "]";
  }

  /** An empty dictionary renders as "[]". */
  lemma RenderEmpty()
    ensures Render([]) == "[]"
  {
  }

  /**
   * A non-empty dictionary renders its first entry right after "[", with no leading
   * separator, followed by ", " and the rest.
   */
  lemma RenderCons(key: string, value: string, rest: Headers)
    ensures Render([(key, value)] + rest) ==
      "[" + key + "=" + value + (if rest == [] then "" else ", " + Join(", ", Entries(rest))) + "]"
  {
    assert Entries([(key, value)] + rest) == [key + "=" + value] + Entries(rest);
    if rest != [] {
      JoinCons(", ", key + "=" + value, Entries(rest));
    }
  }
}
