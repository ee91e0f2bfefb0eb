/** Structured forms of the two documents the setup sends to the provider,
    an S3 bucket policy and a list of CloudTrail advanced event selectors,
    with a small evaluator for each: which requests a policy allows and which
    events a selector list logs. The evaluators are the reference against
    which the concrete documents built in module Setup are judged. */
module Documents {

  // ---------------------------------------------------------------------------
  // Bucket policies
  // ---------------------------------------------------------------------------

  datatype Effect = Allow | Deny

  /** One policy statement. "Action" and "Resource" are always lists here
      (JSON also admits a single string); the condition is the
      StringEquals block, a map from condition key to required value. */
  datatype Statement = Statement(
    sid: string,
    effect: Effect,
    principalService: string,
    actions: seq<string>,
    resources: seq<string>,
    stringEquals: map<string, string>)

  datatype Policy = Policy(version: string, statements: seq<Statement>)

  /** No wildcard character occurs in s. */
  predicate Literal(s: string)
  {
    forall i :: 0 <= i < |s| ==> s[i] != '*' && s[i] != '?'
  }

  /** ARN pattern matching: '*' matches any run of characters, '?' any one
      character, every other character itself. */
  predicate Glob(pattern: string, s: string)
    decreases |pattern| + |s|
  {
    if pattern == [] then s == []
    else if pattern[0] == '*' then Glob(pattern[1..], s) || (s != [] && Glob(pattern, s[1..]))
    else s != [] && (pattern[0] == '?' || pattern[0] == s[0]) && Glob(pattern[1..], s[1..])
  }

  lemma {:induction false} StarMatchesAll(s: string)
    ensures Glob("*", s)
  {
    if s != [] {
      StarMatchesAll(s[1..]);
    }
  }

  /** A pattern without wildcards matches exactly itself. */
  lemma {:induction false} GlobLiteral(p: string, s: string)
    requires Literal(p)
    ensures Glob(p, s) <==> p == s
  {
    if p != [] && s != [] {
      GlobLiteral(p[1..], s[1..]);
      if p[0] == s[0] && p[1..] == s[1..] {
        assert p == [p[0]] + p[1..] && s == [s[0]] + s[1..];
      }
    }
  }

  /** A literal prefix followed by '*' matches exactly the strings that start
      with that prefix. */
  lemma {:induction false} GlobPrefix(p: string, s: string)
    requires Literal(p)
    ensures Glob(p + "*", s) <==> p <= s
  {
    if p == [] {
      assert p + "*" == "*";
      StarMatchesAll(s);
    } else {
      assert (p + "*")[0] == p[0];
      assert (p + "*")[1..] == p[1..] + "*";
      if s != [] {
        GlobPrefix(p[1..], s[1..]);
        assert p <= s <==> p[0] == s[0] && p[1..] <= s[1..];
      }
    }
  }

  /** Every StringEquals requirement is met by the request context. */
  predicate ConditionHolds(stringEquals: map<string, string>, context: map<string, string>)
  {
    forall k :: k in stringEquals ==> k in context && context[k] == stringEquals[k]
  }

  predicate StatementMatches(s: Statement, service: string, action: string, resource: string, context: map<string, string>)
  {
    s.principalService == service
    && action in s.actions
    && (exists r :: r in s.resources && Glob(r, resource))
    && ConditionHolds(s.stringEquals, context)
  }

  /** A request by `service` is allowed when some Allow statement matches it
      and no Deny statement does. */
  predicate Allows(p: Policy, service: string, action: string, resource: string, context: map<string, string>)
  {
    (exists s :: s in p.statements && s.effect == Allow && StatementMatches(s, service, action, resource, context))
    && !(exists s :: s in p.statements && s.effect == Deny && StatementMatches(s, service, action, resource, context))
  }

  // ---------------------------------------------------------------------------
  // Advanced event selectors
  // ---------------------------------------------------------------------------

  datatype FieldSelector = FieldSelector(field: string, equals: seq<string>)

  datatype AdvancedEventSelector = AdvancedEventSelector(name: string, fieldSelectors: seq<FieldSelector>)

  /** An event, as the field values CloudTrail filters on. */
  type Event = map<string, string>

  predicate FieldMatches(f: FieldSelector, e: Event)
  {
    f.field in e && e[f.field] in f.equals
  }

  /** A selector matches when all of its field selectors match. */
  predicate SelectorMatches(s: AdvancedEventSelector, e: Event)
  {
    forall j :: 0 <= j < |s.fieldSelectors| ==> FieldMatches(s.fieldSelectors[j], e)
  }

  /** A trail logs an event when any of its selectors matches it. */
  predicate Logs(selectors: seq<AdvancedEventSelector>, e: Event)
  {
    exists i :: 0 <= i < |selectors| && SelectorMatches(selectors[i], e)
  }
}
