/**
 * The route authorisation table that `SecurityConfig.configure(HttpSecurity)`
 * declares: the API-documentation whitelist first, then the protected
 * endpoints, then the catch-all `anyRequest().authenticated()`.
 */
module SecurityConfig {
  import opened Wrappers
  import opened RequestMatching

  const RoleAdmin: string := "ROLE_ADMIN"
  const RoleManager: string := "ROLE_MANAGER"
  const RoleUser: string := "ROLE_USER"

  /** The API-documentation paths open to everybody. */
  const AuthWhitelist: seq<string> := [
    "/swagger-ui/**",
    "/swagger-ui.html",
    "/v3/api-docs/**",
    "/swagger-resources/**",
    "/webjars/**",
    "/v2/api-docs",
    "/configuration/ui",
    "/configuration/security",
    "/swagger-ui/index.html"
  ]

  /** One `antMatchers(...)` entry as written: optional method, pattern, access. */
  datatype Declaration = Declaration(verb: Option<HttpMethod>, pattern: string, access: Access)

  function Only(role: string): (access: Access)
  {
    HasAnyAuthority({role})
  }

  /** `antMatchers(AUTH_WHITELIST).permitAll()`: one any-method entry per whitelisted pattern. */
  function WhitelistDeclarations(): (ds: seq<Declaration>)
    ensures |ds| == |AuthWhitelist|
  {
    seq(|AuthWhitelist|, i requires 0 <= i < |AuthWhitelist| => Declaration(None, AuthWhitelist[i], PermitAll))
  }

  /** The entries declared after the whitelist, in declaration order. */
  const EndpointDeclarations: seq<Declaration> := [
    Declaration(None, "/login", PermitAll),
    Declaration(Some(DELETE), "/users/**", Only(RoleAdmin)),
    Declaration(Some(PUT), "/users/**", Only(RoleAdmin)),
    Declaration(Some(POST), "/users/**", Only(RoleManager)),
    Declaration(Some(GET), "/users/**", Only(RoleManager)),
    Declaration(Some(DELETE), "/cars/**", Only(RoleAdmin)),
    Declaration(Some(PUT), "/cars/**", Only(RoleAdmin)),
    Declaration(Some(POST), "/cars/**", Only(RoleManager)),
    Declaration(Some(GET), "/cars/**", Only(RoleUser)),
    Declaration(Some(GET), "/orders", Only(RoleManager)),
    Declaration(Some(POST), "/orders", Only(RoleUser)),
    Declaration(None, "/payment/**", Only(RoleUser)),
    Declaration(None, "/delivery/**", Only(RoleUser)),
    Declaration(None, "/registration/**", PermitAll)
  ]

  /** `anyRequest().authenticated()`: the catch-all that closes the chain. */
  const CatchAll: Rule := Rule(AnyRequest, IsAuthenticated)

  /** Each declaration turned into the rule Spring builds from it. */
  function Compile(ds: seq<Declaration>): (rules: seq<Rule>)
    ensures |rules| == |ds|
  {
    seq(|ds|, i requires 0 <= i < |ds| => Rule(Ant(ds[i].verb, ds[i].pattern), ds[i].access))
  }

  /** The chain as declared: every declaration in order, then the catch-all. */
  function DeclaredRules(): (rules: seq<Rule>)
    ensures |rules| == |AuthWhitelist| + |EndpointDeclarations| + 1
    ensures rules[|rules| - 1] == CatchAll
  {
    Compile(WhitelistDeclarations()) + Compile(EndpointDeclarations) + [CatchAll]
  }

  /**
   * The chain the interceptor consults, each pattern already turned into
   * its matcher; `RulesCompiled` proves it is the declared chain.
   */
  const Chain: seq<Rule> := [
    Rule(AntMatcher(None, Subpath("/swagger-ui")), PermitAll),
    Rule(AntMatcher(None, ExactPath("/swagger-ui.html")), PermitAll),
    Rule(AntMatcher(None, Subpath("/v3/api-docs")), PermitAll),
    Rule(AntMatcher(None, Subpath("/swagger-resources")), PermitAll),
    Rule(AntMatcher(None, Subpath("/webjars")), PermitAll),
    Rule(AntMatcher(None, ExactPath("/v2/api-docs")), PermitAll),
    Rule(AntMatcher(None, ExactPath("/configuration/ui")), PermitAll),
    Rule(AntMatcher(None, ExactPath("/configuration/security")), PermitAll),
    Rule(AntMatcher(None, ExactPath("/swagger-ui/index.html")), PermitAll),
    Rule(AntMatcher(None, ExactPath("/login")), PermitAll),
    Rule(AntMatcher(Some(DELETE), Subpath("/users")), Only(RoleAdmin)),
    Rule(AntMatcher(Some(PUT), Subpath("/users")), Only(RoleAdmin)),
    Rule(AntMatcher(Some(POST), Subpath("/users")), Only(RoleManager)),
    Rule(AntMatcher(Some(GET), Subpath("/users")), Only(RoleManager)),
    Rule(AntMatcher(Some(DELETE), Subpath("/cars")), Only(RoleAdmin)),
    Rule(AntMatcher(Some(PUT), Subpath("/cars")), Only(RoleAdmin)),
    Rule(AntMatcher(Some(POST), Subpath("/cars")), Only(RoleManager)),
    Rule(AntMatcher(Some(GET), Subpath("/cars")), Only(RoleUser)),
    Rule(AntMatcher(Some(GET), ExactPath("/orders")), Only(RoleManager)),
    Rule(AntMatcher(Some(POST), ExactPath("/orders")), Only(RoleUser)),
    Rule(AntMatcher(None, Subpath("/payment")), Only(RoleUser)),
    Rule(AntMatcher(None, Subpath("/delivery")), Only(RoleUser)),
    Rule(AntMatcher(None, Subpath("/registration")), PermitAll),
    CatchAll
  ]

  // The matchers Spring builds from the declared patterns, one lemma per pattern.

  lemma SwaggerUiSubtreeCompiled()
    ensures CompilePattern("/swagger-ui/**") == Subpath("/swagger-ui")
  {
    var pattern := "/swagger-ui/**";
    assert pattern[..|pattern| - 3] == "/swagger-ui";
    assert HasNoWildcard("/swagger-ui");
  }

  lemma ApiDocsSubtreeCompiled()
    ensures CompilePattern("/v3/api-docs/**") == Subpath("/v3/api-docs")
  {
    var pattern := "/v3/api-docs/**";
    assert pattern[..|pattern| - 3] == "/v3/api-docs";
    assert HasNoWildcard("/v3/api-docs");
  }

  lemma SwaggerResourcesSubtreeCompiled()
    ensures CompilePattern("/swagger-resources/**") == Subpath("/swagger-resources")
  {
    var pattern := "/swagger-resources/**";
    assert pattern[..|pattern| - 3] == "/swagger-resources";
    assert HasNoWildcard("/swagger-resources");
  }

  lemma WebjarsSubtreeCompiled()
    ensures CompilePattern("/webjars/**") == Subpath("/webjars")
  {
    var pattern := "/webjars/**";
    assert pattern[..|pattern| - 3] == "/webjars";
    assert HasNoWildcard("/webjars");
  }

  lemma UsersSubtreeCompiled()
    ensures CompilePattern("/users/**") == Subpath("/users")
  {
    var pattern := "/users/**";
    assert pattern[..|pattern| - 3] == "/users";
    assert HasNoWildcard("/users");
  }

  lemma CarsSubtreeCompiled()
    ensures CompilePattern("/cars/**") == Subpath("/cars")
  {
    var pattern := "/cars/**";
    assert pattern[..|pattern| - 3] == "/cars";
    assert HasNoWildcard("/cars");
  }

  lemma PaymentSubtreeCompiled()
    ensures CompilePattern("/payment/**") == Subpath("/payment")
  {
    var pattern := "/payment/**";
    assert pattern[..|pattern| - 3] == "/payment";
    assert HasNoWildcard("/payment");
  }

  lemma DeliverySubtreeCompiled()
    ensures CompilePattern("/delivery/**") == Subpath("/delivery")
  {
    var pattern := "/delivery/**";
    assert pattern[..|pattern| - 3] == "/delivery";
    assert HasNoWildcard("/delivery");
  }

  lemma RegistrationSubtreeCompiled()
    ensures CompilePattern("/registration/**") == Subpath("/registration")
  {
    var pattern := "/registration/**";
    assert pattern[..|pattern| - 3] == "/registration";
    assert HasNoWildcard("/registration");
  }

  lemma SwaggerUiPageLiteralCompiled()
    ensures CompilePattern("/swagger-ui.html") == ExactPath("/swagger-ui.html")
  {
    var pattern := "/swagger-ui.html";
    assert pattern[|pattern| - 1] != '*';
    CompileLiteral(pattern);
  }

  lemma ApiDocsV2LiteralCompiled()
    ensures CompilePattern("/v2/api-docs") == ExactPath("/v2/api-docs")
  {
    var pattern := "/v2/api-docs";
    assert pattern[|pattern| - 1] != '*';
    CompileLiteral(pattern);
  }

  lemma ConfigurationUiLiteralCompiled()
    ensures CompilePattern("/configuration/ui") == ExactPath("/configuration/ui")
  {
    var pattern := "/configuration/ui";
    assert pattern[|pattern| - 1] != '*';
    CompileLiteral(pattern);
  }

  lemma ConfigurationSecurityLiteralCompiled()
    ensures CompilePattern("/configuration/security") == ExactPath("/configuration/security")
  {
    var pattern := "/configuration/security";
    assert pattern[|pattern| - 1] != '*';
    CompileLiteral(pattern);
  }

  lemma SwaggerUiIndexLiteralCompiled()
    ensures CompilePattern("/swagger-ui/index.html") == ExactPath("/swagger-ui/index.html")
  {
    var pattern := "/swagger-ui/index.html";
    assert pattern[|pattern| - 1] != '*';
    CompileLiteral(pattern);
  }

  lemma LoginLiteralCompiled()
    ensures CompilePattern("/login") == ExactPath("/login")
  {
    var pattern := "/login";
    assert pattern[|pattern| - 1] != '*';
    CompileLiteral(pattern);
  }

  lemma OrdersLiteralCompiled()
    ensures CompilePattern("/orders") == ExactPath("/orders")
  {
    var pattern := "/orders";
    assert pattern[|pattern| - 1] != '*';
    CompileLiteral(pattern);
  }

  // Each compiled declaration is the rule at the same position in `Chain`,
  // one position per lemma.

  lemma SwaggerUiRuleCompiled()
    ensures Compile(WhitelistDeclarations())[0] == Chain[0]
  {
    assert WhitelistDeclarations()[0] == Declaration(None, "/swagger-ui/**", PermitAll);
    SwaggerUiSubtreeCompiled();
  }

  lemma SwaggerUiPageRuleCompiled()
    ensures Compile(WhitelistDeclarations())[1] == Chain[1]
  {
    assert WhitelistDeclarations()[1] == Declaration(None, "/swagger-ui.html", PermitAll);
    SwaggerUiPageLiteralCompiled();
  }

  lemma ApiDocsRuleCompiled()
    ensures Compile(WhitelistDeclarations())[2] == Chain[2]
  {
    assert WhitelistDeclarations()[2] == Declaration(None, "/v3/api-docs/**", PermitAll);
    ApiDocsSubtreeCompiled();
  }

  lemma SwaggerResourcesRuleCompiled()
    ensures Compile(WhitelistDeclarations())[3] == Chain[3]
  {
    assert WhitelistDeclarations()[3] == Declaration(None, "/swagger-resources/**", PermitAll);
    SwaggerResourcesSubtreeCompiled();
  }

  lemma WebjarsRuleCompiled()
    ensures Compile(WhitelistDeclarations())[4] == Chain[4]
  {
    assert WhitelistDeclarations()[4] == Declaration(None, "/webjars/**", PermitAll);
    WebjarsSubtreeCompiled();
  }

  lemma ApiDocsV2RuleCompiled()
    ensures Compile(WhitelistDeclarations())[5] == Chain[5]
  {
    assert WhitelistDeclarations()[5] == Declaration(None, "/v2/api-docs", PermitAll);
    ApiDocsV2LiteralCompiled();
  }

  lemma ConfigurationUiRuleCompiled()
    ensures Compile(WhitelistDeclarations())[6] == Chain[6]
  {
    assert WhitelistDeclarations()[6] == Declaration(None, "/configuration/ui", PermitAll);
    ConfigurationUiLiteralCompiled();
  }

  lemma ConfigurationSecurityRuleCompiled()
    ensures Compile(WhitelistDeclarations())[7] == Chain[7]
  {
    assert WhitelistDeclarations()[7] == Declaration(None, "/configuration/security", PermitAll);
    ConfigurationSecurityLiteralCompiled();
  }

  lemma SwaggerUiIndexRuleCompiled()
    ensures Compile(WhitelistDeclarations())[8] == Chain[8]
  {
    assert WhitelistDeclarations()[8] == Declaration(None, "/swagger-ui/index.html", PermitAll);
    SwaggerUiIndexLiteralCompiled();
  }

  lemma LoginRuleCompiled()
    ensures Compile(EndpointDeclarations)[0] == Chain[9]
  {
    LoginLiteralCompiled();
  }

  lemma UserDeleteRuleCompiled()
    ensures Compile(EndpointDeclarations)[1] == Chain[10]
  {
    UsersSubtreeCompiled();
  }

  lemma UserPutRuleCompiled()
    ensures Compile(EndpointDeclarations)[2] == Chain[11]
  {
    UsersSubtreeCompiled();
  }

  lemma UserPostRuleCompiled()
    ensures Compile(EndpointDeclarations)[3] == Chain[12]
  {
    UsersSubtreeCompiled();
  }

  lemma UserGetRuleCompiled()
    ensures Compile(EndpointDeclarations)[4] == Chain[13]
  {
    UsersSubtreeCompiled();
  }

  lemma CarDeleteRuleCompiled()
    ensures Compile(EndpointDeclarations)[5] == Chain[14]
  {
    CarsSubtreeCompiled();
  }

  lemma CarPutRuleCompiled()
    ensures Compile(EndpointDeclarations)[6] == Chain[15]
  {
    CarsSubtreeCompiled();
  }

  lemma CarPostRuleCompiled()
    ensures Compile(EndpointDeclarations)[7] == Chain[16]
  {
    CarsSubtreeCompiled();
  }

  lemma CarGetRuleCompiled()
    ensures Compile(EndpointDeclarations)[8] == Chain[17]
  {
    CarsSubtreeCompiled();
  }

  lemma OrderListRuleCompiled()
    ensures Compile(EndpointDeclarations)[9] == Chain[18]
  {
    OrdersLiteralCompiled();
  }

  lemma OrderSubmissionRuleCompiled()
    ensures Compile(EndpointDeclarations)[10] == Chain[19]
  {
    OrdersLiteralCompiled();
  }

  lemma PaymentRuleCompiled()
    ensures Compile(EndpointDeclarations)[11] == Chain[20]
  {
    PaymentSubtreeCompiled();
  }

  lemma DeliveryRuleCompiled()
    ensures Compile(EndpointDeclarations)[12] == Chain[21]
  {
    DeliverySubtreeCompiled();
  }

  lemma RegistrationRuleCompiled()
    ensures Compile(EndpointDeclarations)[13] == Chain[22]
  {
    RegistrationSubtreeCompiled();
  }

  lemma WhitelistRulesCompiled()
    ensures Compile(WhitelistDeclarations()) == Chain[..|AuthWhitelist|]
  {
    var compiled, head := Compile(WhitelistDeclarations()), Chain[..|AuthWhitelist|];
    assert |compiled| == |head| == |AuthWhitelist|;
    forall i | 0 <= i < |compiled|
      ensures compiled[i] == head[i]
    {
      if i == 0 {
        SwaggerUiRuleCompiled();
      } else if i == 1 {
        SwaggerUiPageRuleCompiled();
      } else if i == 2 {
        ApiDocsRuleCompiled();
      } else if i == 3 {
        SwaggerResourcesRuleCompiled();
      } else if i == 4 {
        WebjarsRuleCompiled();
      } else if i == 5 {
        ApiDocsV2RuleCompiled();
      } else if i == 6 {
        ConfigurationUiRuleCompiled();
      } else if i == 7 {
        ConfigurationSecurityRuleCompiled();
      } else {
        SwaggerUiIndexRuleCompiled();
      }
    }
  }

  lemma EndpointRulesCompiled()
    ensures Compile(EndpointDeclarations) == Chain[|AuthWhitelist|..|Chain| - 1]
  {
    var compiled, tail := Compile(EndpointDeclarations), Chain[|AuthWhitelist|..|Chain| - 1];
    assert |compiled| == |tail| == |EndpointDeclarations|;
    forall i | 0 <= i < |compiled|
      ensures compiled[i] == tail[i]
    {
      if i == 0 {
        LoginRuleCompiled();
      } else if i == 1 {
        UserDeleteRuleCompiled();
      } else if i == 2 {
        UserPutRuleCompiled();
      } else if i == 3 {
        UserPostRuleCompiled();
      } else if i == 4 {
        UserGetRuleCompiled();
      } else if i == 5 {
        CarDeleteRuleCompiled();
      } else if i == 6 {
        CarPutRuleCompiled();
      } else if i == 7 {
        CarPostRuleCompiled();
      } else if i == 8 {
        CarGetRuleCompiled();
      } else if i == 9 {
        OrderListRuleCompiled();
      } else if i == 10 {
        OrderSubmissionRuleCompiled();
      } else if i == 11 {
        PaymentRuleCompiled();
      } else if i == 12 {
        DeliveryRuleCompiled();
      } else {
        RegistrationRuleCompiled();
      }
    }
  }

  // A sequence is its prefix, then the rest up to its last element, then that element.
  lemma SplitAroundLast<T>(s: seq<T>, n: nat)
    requires n < |s|
    ensures s == s[..n] + s[n..|s| - 1] + [s[|s| - 1]]
  {
  }

  /** The chain holds, in declaration order, exactly the matchers Spring builds from the declared patterns. */
  lemma RulesCompiled()
    ensures DeclaredRules() == Chain
  {
    WhitelistRulesCompiled();
    EndpointRulesCompiled();
    SplitAroundLast(Chain, |AuthWhitelist|);
  }

  /** The verdict for a request made by a principal. */
  function Authorize(req: Request, p: Principal): (d: Decision)
  {
    Decide(Chain, req, p)
  }

  /** The verdict is the one the chain as declared gives. */
  lemma AuthorizeFollowsDeclarations(req: Request, p: Principal)
    ensures Authorize(req, p) == Decide(DeclaredRules(), req, p)
  {
    RulesCompiled();
  }

  // The path is the root of the subtree or lies below it: what `root/**` accepts.
  predicate Under(root: string, path: string)
  {
    PathMatches(Subpath(root), path)
  }

  lemma UnderHasRoot(root: string, path: string)
    requires Under(root, path)
    ensures |root| <= |path| && path[..|root|] == root
  {
  }


  // Positions in `Chain` of the rules declared after the whitelist.
  const LoginRule: nat := 9
  const UsersRules: nat := 10          // DELETE, PUT, POST, GET on /users/**
  const CarsRules: nat := 14           // DELETE, PUT, POST, GET on /cars/**
  const OrderListRule: nat := 18
  const OrderSubmissionRule: nat := 19
  const PaymentRule: nat := 20
  const DeliveryRule: nat := 21
  const RegistrationRule: nat := 22
  const CatchAllRule: nat := 23

  // Which rules can match a path below each protected root: only the rules
  // declared for that root and the catch-all, whatever the method.

  lemma UsersScope(req: Request)
    requires Under("/users", req.path)
    ensures forall j :: 0 <= j < |Chain| && Matches(Chain[j].matcher, req) ==> UsersRules <= j < UsersRules + 4 || j == CatchAllRule
  {
    UnderHasRoot("/users", req.path);
    assert req.path[1] == 'u';
  }

  lemma CarsScope(req: Request)
    requires Under("/cars", req.path)
    ensures forall j :: 0 <= j < |Chain| && Matches(Chain[j].matcher, req) ==> CarsRules <= j < CarsRules + 4 || j == CatchAllRule
  {
    UnderHasRoot("/cars", req.path);
    assert req.path[1] == 'c' && req.path[2] == 'a';
  }

  lemma OrdersScope(req: Request)
    requires Under("/orders", req.path)
    ensures forall j :: 0 <= j < |Chain| && Matches(Chain[j].matcher, req) ==> OrderListRule <= j <= OrderSubmissionRule || j == CatchAllRule
  {
    UnderHasRoot("/orders", req.path);
    assert req.path[1] == 'o';
  }

  lemma PaymentScope(req: Request)
    requires Under("/payment", req.path)
    ensures forall j :: 0 <= j < |Chain| && Matches(Chain[j].matcher, req) ==> j == PaymentRule || j == CatchAllRule
  {
    UnderHasRoot("/payment", req.path);
    assert req.path[1] == 'p';
  }

  lemma DeliveryScope(req: Request)
    requires Under("/delivery", req.path)
    ensures forall j :: 0 <= j < |Chain| && Matches(Chain[j].matcher, req) ==> j == DeliveryRule || j == CatchAllRule
  {
    UnderHasRoot("/delivery", req.path);
    assert req.path[1] == 'd';
  }

  lemma RegistrationScope(req: Request)
    requires Under("/registration", req.path)
    ensures forall j :: 0 <= j < |Chain| && Matches(Chain[j].matcher, req) ==> j == RegistrationRule || j == CatchAllRule
  {
    UnderHasRoot("/registration", req.path);
    assert req.path[1] == 'r';
  }

  /** Every whitelisted documentation path is open to every caller, whatever the method. */
  lemma WhitelistOpenToAll(req: Request, p: Principal, k: nat)
    requires k < |AuthWhitelist| && PatternMatches(AuthWhitelist[k], req.path)
    ensures Authorize(req, p) == Granted
  {
    var whitelist := Compile(WhitelistDeclarations());
    WhitelistRulesCompiled();
    assert Chain[k] == whitelist[k];
    var i := FirstMatch(Chain, req).value;
    assert Chain[i] == whitelist[i];
  }

  /** `/login` is open to every caller and every method. */
  lemma LoginIsPublic(verb: HttpMethod, p: Principal)
    ensures Authorize(Request(verb, "/login"), p) == Granted
  {
    FirstMatchWins(Chain, Request(verb, "/login"), p, LoginRule);
  }

  /** Deleting or replacing a user takes ROLE_ADMIN; no other role will do. */
  lemma UserChangesNeedAdmin(verb: HttpMethod, path: string, p: Principal)
    requires verb == DELETE || verb == PUT
    requires Under("/users", path)
    ensures Authorize(Request(verb, path), p) == Granted <==> RoleAdmin in Authorities(p)
  {
    var req := Request(verb, path);
    UsersScope(req);
    if verb == DELETE { FirstMatchWins(Chain, req, p, UsersRules); } else { FirstMatchWins(Chain, req, p, UsersRules + 1); }
  }

  /** Creating or reading users takes ROLE_MANAGER; ROLE_ADMIN does not imply it. */
  lemma UserReadsAndCreatesNeedManager(verb: HttpMethod, path: string, p: Principal)
    requires verb == POST || verb == GET
    requires Under("/users", path)
    ensures Authorize(Request(verb, path), p) == Granted <==> RoleManager in Authorities(p)
  {
    var req := Request(verb, path);
    UsersScope(req);
    if verb == POST { FirstMatchWins(Chain, req, p, UsersRules + 2); } else { FirstMatchWins(Chain, req, p, UsersRules + 3); }
  }

  /** Deleting or replacing a car takes ROLE_ADMIN; no other role will do. */
  lemma CarChangesNeedAdmin(verb: HttpMethod, path: string, p: Principal)
    requires verb == DELETE || verb == PUT
    requires Under("/cars", path)
    ensures Authorize(Request(verb, path), p) == Granted <==> RoleAdmin in Authorities(p)
  {
    var req := Request(verb, path);
    CarsScope(req);
    if verb == DELETE { FirstMatchWins(Chain, req, p, CarsRules); } else { FirstMatchWins(Chain, req, p, CarsRules + 1); }
  }

  /** Adding a car takes ROLE_MANAGER. */
  lemma CarCreationNeedsManager(path: string, p: Principal)
    requires Under("/cars", path)
    ensures Authorize(Request(POST, path), p) == Granted <==> RoleManager in Authorities(p)
  {
    CarsScope(Request(POST, path));
    FirstMatchWins(Chain, Request(POST, path), p, CarsRules + 2);
  }

  /** Reading cars takes ROLE_USER. */
  lemma CarReadsNeedUser(path: string, p: Principal)
    requires Under("/cars", path)
    ensures Authorize(Request(GET, path), p) == Granted <==> RoleUser in Authorities(p)
  {
    CarsScope(Request(GET, path));
    FirstMatchWins(Chain, Request(GET, path), p, CarsRules + 3);
  }

  /** Listing all orders takes ROLE_MANAGER. */
  lemma OrderListNeedsManager(p: Principal)
    ensures Authorize(Request(GET, "/orders"), p) == Granted <==> RoleManager in Authorities(p)
  {
    OrdersScope(Request(GET, "/orders"));
    FirstMatchWins(Chain, Request(GET, "/orders"), p, OrderListRule);
  }

  /** Submitting an order takes ROLE_USER. */
  lemma OrderSubmissionNeedsUser(p: Principal)
    ensures Authorize(Request(POST, "/orders"), p) == Granted <==> RoleUser in Authorities(p)
  {
    OrdersScope(Request(POST, "/orders"));
    FirstMatchWins(Chain, Request(POST, "/orders"), p, OrderSubmissionRule);
  }

  /** Payment and delivery endpoints take ROLE_USER, whatever the method. */
  lemma PaymentAndDeliveryNeedUser(verb: HttpMethod, root: string, path: string, p: Principal)
    requires root == "/payment" || root == "/delivery"
    requires Under(root, path)
    ensures Authorize(Request(verb, path), p) == Granted <==> RoleUser in Authorities(p)
  {
    var req := Request(verb, path);
    if root == "/payment" {
      PaymentScope(req);
      FirstMatchWins(Chain, req, p, PaymentRule);
    } else {
      DeliveryScope(req);
      FirstMatchWins(Chain, req, p, DeliveryRule);
    }
  }

  /** `/registration` and everything below it is open to every caller and every method. */
  lemma RegistrationIsPublic(verb: HttpMethod, path: string, p: Principal)
    requires Under("/registration", path)
    ensures Authorize(Request(verb, path), p) == Granted
  {
    RegistrationScope(Request(verb, path));
    FirstMatchWins(Chain, Request(verb, path), p, RegistrationRule);
  }

  /** A request no declared rule matches is granted to every signed-in caller and to no one else. */
  lemma CatchAllNeedsAuthentication(req: Request, p: Principal)
    requires forall j :: 0 <= j < |Chain| - 1 ==> !Matches(Chain[j].matcher, req)
    ensures Authorize(req, p) == Granted <==> p.Authenticated?
  {
    FirstMatchWins(Chain, req, p, CatchAllRule);
  }

  /**
   * Methods the chain names no rule for (PATCH, HEAD, OPTIONS, TRACE) on
   * users and cars fall through to the catch-all.
   */
  lemma OtherMethodsFallThrough(verb: HttpMethod, root: string, path: string, p: Principal)
    requires verb != DELETE && verb != PUT && verb != POST && verb != GET
    requires root == "/users" || root == "/cars"
    requires Under(root, path)
    ensures Authorize(Request(verb, path), p) == Granted <==> p.Authenticated?
  {
    var req := Request(verb, path);
    if root == "/users" { UsersScope(req); } else { CarsScope(req); }
    CatchAllNeedsAuthentication(req, p);
  }

  /**
   * `/orders` is an exact pattern: paths below it, and methods other than
   * GET and POST on it, fall through to the catch-all.
   */
  lemma OrderSubpathsFallThrough(verb: HttpMethod, path: string, p: Principal)
    requires Under("/orders", path)
    requires path == "/orders" ==> verb != GET && verb != POST
    ensures Authorize(Request(verb, path), p) == Granted <==> p.Authenticated?
  {
    var req := Request(verb, path);
    OrdersScope(req);
    CatchAllNeedsAuthentication(req, p);
  }

  /** The catch-all is last, so every request is matched by some rule. */
  lemma EveryRequestMatched(req: Request)
    ensures FirstMatch(Chain, req).Some?
  {
    assert Matches(Chain[|Chain| - 1].matcher, req);
  }

  /** The only rules open to every caller are the whitelist, `/login` and `/registration`. */
  lemma OpenRules(i: nat)
    requires i < |Chain|
    ensures Chain[i].access == PermitAll <==> i <= LoginRule || i == RegistrationRule
  {
  }

  /**
   * An anonymous caller gets through exactly when the first rule that
   * matches is one of the open ones: no rule grants ROLE_ANONYMOUS.
   */
  lemma AnonymousAccess(req: Request)
    ensures FirstMatch(Chain, req).Some?
    ensures var i := FirstMatch(Chain, req).value;
      Authorize(req, Anonymous) == Granted <==> i <= LoginRule || i == RegistrationRule
  {
    EveryRequestMatched(req);
    OpenRules(FirstMatch(Chain, req).value);
    ChainNeverRequiresAnonymous();
    AnonymousNeedsOpenRule(Chain, req);
  }

  lemma ChainNeverRequiresAnonymous()
    ensures NeverRequiresAnonymous(Chain)
  {
  }

  /** Roles do not nest: an administrator without ROLE_MANAGER or ROLE_USER cannot list users or cars. */
  lemma NoRoleHierarchy()
    ensures Authorize(Request(GET, "/users"), Authenticated("admin", {RoleAdmin})) == Denied
    ensures Authorize(Request(GET, "/cars"), Authenticated("admin", {RoleAdmin})) == Denied
    ensures Authorize(Request(GET, "/orders"), Authenticated("user", {RoleUser})) == Denied
  {
    UserReadsAndCreatesNeedManager(GET, "/users", Authenticated("admin", {RoleAdmin}));
    CarReadsNeedUser("/cars", Authenticated("admin", {RoleAdmin}));
    OrderListNeedsManager(Authenticated("user", {RoleUser}));
  }
}
