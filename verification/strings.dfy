/** ASCII approximations of the .NET string operations the core relies on. */
module Strings {
  import opened Wrappers

  /** `char.ToUpperInvariant`, restricted to ASCII letters. */
  function UpperChar(c: char): char {
    if 'a' <= c <= 'z' then (c as int - 32) as char else c
  }

  /** `string.ToUpperInvariant`, letter by letter. */
  function Upper(s: string): (r: string)
    ensures |r| == |s|
  {
    seq(|s|, i requires 0 <= i < |s| => UpperChar(s[i]))
  }

  /** `StringComparer.OrdinalIgnoreCase`: equal once both sides are upper-cased. */
  predicate EqualsIgnoreCase(a: string, b: string) {
    Upper(a) == Upper(b)
  }

  /** `s.StartsWith(prefix, StringComparison.Ordinal)` */
  predicate StartsWith(s: string, prefix: string) {
    |prefix| <= |s| && s[..|prefix|] == prefix
  }

  /** `string.IsNullOrEmpty` */
  predicate IsNullOrEmpty(s: Option<string>) {
    s.None? || s.value == ""
  }

  /** `s ?? string.Empty` */
  function OrEmpty(s: Option<string>): string {
    s.GetOr("")
  }

  /** Some element of `s` equals `t` ignoring case (a lookup in a case-insensitive hash set). */
  predicate ContainsIgnoreCase(s: seq<string>, t: string) {
    exists i :: 0 <= i < |s| && EqualsIgnoreCase(s[i], t)
  }

  /** No two elements of `s` are equal ignoring case. */
  predicate NoCaseDuplicates(s: seq<string>) {
    forall i, j :: 0 <= i < j < |s| ==> !EqualsIgnoreCase(s[i], s[j])
  }

  /** Upper-casing distributes over concatenation. */
  lemma UpperConcat(a: string, b: string)
    ensures Upper(a + b) == Upper(a) + Upper(b)
  {
    assert forall i :: 0 <= i < |a + b| ==> Upper(a + b)[i] == (Upper(a) + Upper(b))[i];
  }

  /** Upper-casing is idempotent, so an upper-cased key is its own canonical form. */
  lemma UpperIdempotent(s: string)
    ensures Upper(Upper(s)) == Upper(s)
  {
    assert forall i :: 0 <= i < |s| ==> Upper(Upper(s))[i] == Upper(s)[i];
  }

  /** Case-insensitive membership after appending one element. */
  lemma ContainsAppend(s: seq<string>, y: string, t: string)
    ensures ContainsIgnoreCase(s + [y], t) <==> ContainsIgnoreCase(s, t) || EqualsIgnoreCase(y, t)
  {
    if ContainsIgnoreCase(s, t) {
      var i :| 0 <= i < |s| && EqualsIgnoreCase(s[i], t);
      assert (s + [y])[i] == s[i];
    }
    if EqualsIgnoreCase(y, t) {
      assert (s + [y])[|s|] == y;
    }
    if ContainsIgnoreCase(s + [y], t) {
      var i :| 0 <= i < |s + [y]| && EqualsIgnoreCase((s + [y])[i], t);
      if i < |s| {
        assert (s + [y])[i] == s[i];
      }
    }
  }

  /** Case-insensitive membership after prepending one element. */
  lemma ContainsCons(y: string, s: seq<string>, t: string)
    ensures ContainsIgnoreCase([y] + s, t) <==> EqualsIgnoreCase(y, t) || ContainsIgnoreCase(s, t)
  {
    if ContainsIgnoreCase(s, t) {
      var i :| 0 <= i < |s| && EqualsIgnoreCase(s[i], t);
      assert ([y] + s)[i + 1] == s[i];
    }
    if EqualsIgnoreCase(y, t) {
      assert ([y] + s)[0] == y;
    }
    if ContainsIgnoreCase([y] + s, t) {
      var i :| 0 <= i < |[y] + s| && EqualsIgnoreCase(([y] + s)[i], t);
      if i > 0 {
        assert ([y] + s)[i] == s[i - 1];
      }
    }
  }
}
