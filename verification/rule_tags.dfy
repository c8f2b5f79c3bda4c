/** The two well-known location tags and the predicates that test a rule for them. */
module RuleTags {
  import opened Wrappers
  import opened Strings
  import opened Models

  const HomeTag := "home"
  const CloudTag := "cloud"

  predicate HasHomeTag(rule: ForwardingRule) {
    rule.HasTag(HomeTag)
  }

  predicate HasCloudTag(rule: ForwardingRule) {
    rule.HasTag(CloudTag)
  }

  /** "HOME" and "home" name the same location. */
  lemma UpperHomeIsHome()
    ensures EqualsIgnoreCase("HOME", HomeTag)
  {
    assert Upper("HOME") == "HOME" by {
      assert forall i :: 0 <= i < 4 ==> Upper("HOME")[i] == "HOME"[i];
    }
    assert Upper("home") == "HOME" by {
      assert forall i :: 0 <= i < 4 ==> Upper("home")[i] == "HOME"[i];
    }
  }

  /** A rule constructed with the tag "HOME" has the home tag, whatever else it carries. */
  lemma HomeTagIgnoresCase(httpMethod: string, event: string, targetUrl: Option<string>, others: seq<string>)
    ensures HasHomeTag(NewRule(httpMethod, event, targetUrl, tags := Some(["HOME"] + others)))
  {
    UpperHomeIsHome();
    var raw := ["HOME"] + others;
    assert EqualsIgnoreCase(raw[0], HomeTag);
    assert ContainsIgnoreCase(raw, HomeTag);
  }

  /** A rule constructed without tags is neither a home rule nor a cloud rule. */
  lemma UntaggedRuleHasNeitherTag(httpMethod: string, event: string, targetUrl: Option<string>)
    ensures !HasHomeTag(NewRule(httpMethod, event, targetUrl))
    ensures !HasCloudTag(NewRule(httpMethod, event, targetUrl))
    ensures !HasHomeTag(NewRule(httpMethod, event, targetUrl, tags := Some([])))
    ensures !HasCloudTag(NewRule(httpMethod, event, targetUrl, tags := Some([])))
  {
  }
}
