/**
 * Request matching and access decisions as Spring Security's
 * `authorizeRequests()` chain performs them: an ordered list of rules, each a
 * request matcher paired with an access expression, evaluated first-match-wins.
 */
module RequestMatching {
  import opened Wrappers

  /** The HTTP methods of Spring's `HttpMethod` enum. */
  datatype HttpMethod = GET | HEAD | POST | PUT | PATCH | DELETE | OPTIONS | TRACE

  /** What a matcher sees of an inbound request: its method and its path. */
  datatype Request = Request(verb: HttpMethod, path: string)

  /**
   * The caller as the security context holds it after the token filters ran:
   * either nobody presented a token, or a token named a user and its roles.
   */
  datatype Principal = Anonymous | Authenticated(username: string, authorities: set<string>)

  /** The one authority Spring's anonymous authentication token carries. */
  const AnonymousAuthority: string := "ROLE_ANONYMOUS"

  function Authorities(p: Principal): (auths: set<string>)
  {
    match p
    case Anonymous => {AnonymousAuthority}
    case Authenticated(_, roles) => roles
  }

  /** The suffix that makes a pattern match a whole subtree of paths. */
  const SubtreeSuffix: string := "/**"

  /** The characters that make an Ant pattern more than a plain path. */
  predicate IsWildcard(c: char)
  {
    c == '*' || c == '?' || c == '{' || c == '}'
  }

  predicate HasNoWildcard(s: string)
  {
    '*' !in s && '?' !in s && '{' !in s && '}' !in s
  }

  /** Patterns that match every path. */
  predicate IsMatchAllPattern(pattern: string)
  {
    pattern == "/**" || pattern == "**"
  }

  // A pattern ending in "/**" whose root holds no wildcard: the patterns
  // Spring serves with a subpath matcher.
  predicate IsSubtreePattern(pattern: string)
  {
    var n := |pattern|;
    n >= 3 && pattern[n - 1] == '*' && pattern[n - 2] == '*' && pattern[n - 3] == '/'
    && HasNoWildcard(pattern[..n - 3])
  }

  // The path a subtree pattern is rooted at: the pattern without its trailing "/**".
  function SubtreeRoot(pattern: string): (root: string)
    requires IsSubtreePattern(pattern)
    ensures root + SubtreeSuffix == pattern && HasNoWildcard(root)
  {
    var root := pattern[..|pattern| - 3];
    assert root + SubtreeSuffix == pattern;
    root
  }

  // The matcher an Ant-style path pattern is turned into when the rule is
  // declared: "/**" matches everything, a wildcard-free root followed by
  // "/**" becomes a subpath matcher on that root, a wildcard-free pattern
  // is matched literally, and anything else is a general Ant pattern.
  datatype PathMatcher = MatchAll | Subpath(root: string) | ExactPath(path: string) | AntPattern(pattern: string)

  function CompilePattern(pattern: string): (m: PathMatcher)
    ensures m.MatchAll? <==> IsMatchAllPattern(pattern)
    ensures m.Subpath? ==> m.root + SubtreeSuffix == pattern
    ensures m.ExactPath? ==> m.path == pattern
    ensures m.AntPattern? ==> m.pattern == pattern
  {
    if IsMatchAllPattern(pattern) then MatchAll
    else if IsSubtreePattern(pattern) then Subpath(SubtreeRoot(pattern))
    else if HasNoWildcard(pattern) then ExactPath(pattern)
    else AntPattern(pattern)
  }

  /**
   * A subpath matcher accepts its root and every path that continues the
   * root with '/'; an exact matcher accepts only the identical path.
   * General Ant patterns are outside this model and accept nothing.
   */
  predicate PathMatches(m: PathMatcher, path: string)
  {
    match m
    case MatchAll => true
    case Subpath(root) => root <= path && (|path| == |root| || path[|root|] == '/')
    case ExactPath(literal) => path == literal
    case AntPattern(_) => false
  }

  predicate PatternMatches(pattern: string, path: string)
  {
    PathMatches(CompilePattern(pattern), path)
  }

  /** `antMatchers([method,] pattern)` (no method: any method) or `anyRequest()`. */
  datatype Matcher = AntMatcher(verb: Option<HttpMethod>, path: PathMatcher) | AnyRequest

  /** The matcher `antMatchers(verb, pattern)` builds. */
  function Ant(verb: Option<HttpMethod>, pattern: string): (m: Matcher)
  {
    AntMatcher(verb, CompilePattern(pattern))
  }

  /** The access expressions the configuration uses. */
  datatype Access = PermitAll | HasAnyAuthority(required: set<string>) | IsAuthenticated

  datatype Rule = Rule(matcher: Matcher, access: Access)

  datatype Decision = Granted | Denied

  predicate Matches(m: Matcher, req: Request)
    ensures m.AntMatcher? && m.verb.Some? && m.verb.value != req.verb ==> !Matches(m, req)
    ensures m.AntMatcher? && m.path.AntPattern? ==> !Matches(m, req)
  {
    match m
    case AnyRequest => true
    case AntMatcher(verb, path) => (verb.None? || verb.value == req.verb) && PathMatches(path, req.path)
  }

  /** The position of the first rule whose matcher accepts the request, if any. */
  function FirstMatch(rules: seq<Rule>, req: Request): (r: Option<nat>)
    ensures r.Some? ==> r.value < |rules| && Matches(rules[r.value].matcher, req)
    ensures r.Some? ==> forall j :: 0 <= j < r.value ==> !Matches(rules[j].matcher, req)
    ensures r.None? <==> forall j :: 0 <= j < |rules| ==> !Matches(rules[j].matcher, req)
  {
    if rules == [] then None
    else if Matches(rules[0].matcher, req) then Some(0)
    else
      match FirstMatch(rules[1..], req)
      case None => None
      case Some(i) => Some(i + 1)
  }

  /** Whether the principal meets an access expression. */
  predicate Satisfies(p: Principal, access: Access)
    ensures Satisfies(p, access) && p.Anonymous? ==>
      access.PermitAll? || (access.HasAnyAuthority? && AnonymousAuthority in access.required)
  {
    match access
    case PermitAll => true
    case HasAnyAuthority(required) => !(required !! Authorities(p))
    case IsAuthenticated => p.Authenticated?
  }

  /**
   * The verdict of the filter-security interceptor: the first matching rule
   * decides; a request no rule matches is a public invocation and proceeds.
   */
  function Decide(rules: seq<Rule>, req: Request, p: Principal): (d: Decision)
    ensures d == Denied ==> exists i :: 0 <= i < |rules| && Matches(rules[i].matcher, req) && !Satisfies(p, rules[i].access)
    ensures (forall i :: 0 <= i < |rules| ==> Satisfies(p, rules[i].access)) ==> d == Granted
  {
    match FirstMatch(rules, req)
    case None => Granted
    case Some(i) => if Satisfies(p, rules[i].access) then Granted else Denied
  }

  // A non-empty, wildcard-free root followed by "/**" is turned into a subpath matcher on that root.
  lemma CompileSubtree(root: string)
    requires root != [] && HasNoWildcard(root)
    ensures CompilePattern(root + SubtreeSuffix) == Subpath(root)
  {
    var pattern := root + SubtreeSuffix;
    assert pattern[..|pattern| - 3] == root;
  }

  /** A wildcard-free pattern is matched literally. */
  lemma CompileLiteral(pattern: string)
    requires HasNoWildcard(pattern)
    ensures CompilePattern(pattern) == ExactPath(pattern)
  {
    if |pattern| > 0 {
      assert !IsWildcard(pattern[|pattern| - 1]);
    }
  }

  /**
   * Which matcher a pattern gets is decided by its wildcards: a subpath
   * root holds none, a pattern is matched literally exactly when it holds
   * none, and a general Ant pattern holds one outside a subtree suffix.
   */
  lemma CompiledMatcherKind(pattern: string)
    ensures CompilePattern(pattern).Subpath? ==> HasNoWildcard(CompilePattern(pattern).root)
    ensures CompilePattern(pattern).ExactPath? <==> HasNoWildcard(pattern)
    ensures CompilePattern(pattern).AntPattern? <==>
      !HasNoWildcard(pattern) && !IsMatchAllPattern(pattern) && !IsSubtreePattern(pattern)
  {
    if HasNoWildcard(pattern) {
      CompileLiteral(pattern);
    }
  }

  /** A subtree pattern accepts exactly its root and the paths below it. */
  lemma SubtreeMatchIff(root: string, path: string)
    requires root != [] && HasNoWildcard(root)
    ensures PatternMatches(root + SubtreeSuffix, path) <==> path == root || root + "/" <= path
  {
    CompileSubtree(root);
  }

  /** A wildcard-free pattern accepts exactly the identical path. */
  lemma ExactMatchIff(pattern: string, path: string)
    requires HasNoWildcard(pattern)
    ensures PatternMatches(pattern, path) <==> path == pattern
  {
    CompileLiteral(pattern);
  }

  /**
   * First match wins: once a rule accepts the request and no earlier rule
   * does, that rule's access expression alone decides.
   */
  lemma FirstMatchWins(rules: seq<Rule>, req: Request, p: Principal, k: nat)
    requires k < |rules| && Matches(rules[k].matcher, req)
    requires forall j :: 0 <= j < k ==> !Matches(rules[j].matcher, req)
    ensures Decide(rules, req, p) == if Satisfies(p, rules[k].access) then Granted else Denied
  {
  }

  /**
   * There is no role hierarchy and no negative rule: a signed-in caller who
   * holds every authority another signed-in caller holds is granted whatever
   * that caller is granted.
   */
  lemma MoreAuthoritiesNeverHurt(rules: seq<Rule>, req: Request, a: Principal, b: Principal)
    requires a.Authenticated? && b.Authenticated? && a.authorities <= b.authorities
    ensures Decide(rules, req, a) == Granted ==> Decide(rules, req, b) == Granted
  {
  }

  /** No rule of the chain asks for the authority that anonymous callers carry. */
  predicate NeverRequiresAnonymous(rules: seq<Rule>)
  {
    forall j :: 0 <= j < |rules| && rules[j].access.HasAnyAuthority? ==>
      AnonymousAuthority !in rules[j].access.required
  }

  /**
   * Under such a chain an anonymous caller gets through exactly when the
   * first matching rule is open to all, or when nothing matches.
   */
  lemma AnonymousNeedsOpenRule(rules: seq<Rule>, req: Request)
    requires NeverRequiresAnonymous(rules)
    ensures Decide(rules, req, Anonymous) == Granted <==>
      match FirstMatch(rules, req)
      case None => true
      case Some(i) => rules[i].access == PermitAll
  {
  }
}
