# Car-rental backend: order submission and route authorisation

This project models two parts of a Spring Boot car-rental backend.

- **Order submission** (`OrderService.submitOrder` and `getOrders`). A signed-in user orders a number of hours of a named car package. The service checks these in order:
  1. The user has a linked credit card.
  2. The package exists.
  3. The card's balance covers `pricePerHour * hours`.

  If all three pass, it debits the card in place, saves an `AccessKey {carPackage, hours}` and returns a descriptor that mirrors the key. `getOrders` returns the order repository's list as it is.
  - The service class itself is not part of this model. Its contract is the one its unit test fixes.
  - The repositories are fields of the `OrderService.OrderService` class: a map for the package lookup by name, and sequences for the saved access keys and the stored orders.
  - The card is a `CreditCard` object. Its `accountBalance` field is updated in place, and the test's `User` reference still sees that update.
  - `OrderService.Submit` states the same operation on values. The method `SubmitOrder` is proved to agree with it.
- **Route authorisation** (`SecurityConfig.configure(HttpSecurity)`). This is an ordered chain of `(matcher, access)` rules:
  - first the API-documentation whitelist;
  - then `/login`, the user, car, order, payment, delivery and registration endpoints;
  - last `anyRequest().authenticated()`.

  The first rule whose matcher accepts a request decides.
  - The two `authorizeRequests()` calls add to the same registry, so the whitelist rules come before the endpoint rules.
  - Patterns are modelled the way `antMatchers` compiles them. `"/x/**"` with a wildcard-free root accepts `/x` and every path that starts with `/x/`. `/**` accepts every path. A pattern without wildcards accepts only the identical path.
  - Authorities are compared as strings. An anonymous caller carries only `ROLE_ANONYMOUS`, as Spring's anonymous token does.
  - `SecurityConfig.DeclaredRules` is the chain as declared. `SecurityConfig.Chain` is the same chain with each pattern already compiled, and `RulesCompiled` proves the two equal. `Authorize` decides on `Chain`.

Modules:
- `Wrappers`: `Option` and `Result`.
- `RequestMatching`: generic matchers, access expressions, `FirstMatch` and `Decide`.
- `SecurityConfig`: the concrete rule table and what it grants.
- `OrderService`: the order-submission classes and lemmas.

## Model

| member | source | states |
|---|---|---|
| RequestMatching.SubtreeRoot | src/main/java/com/example/carrentalproject/security/SecurityConfig.java:67 | The root of a `/**` pattern is the pattern with its suffix removed (root followed by `/**` gives the pattern back), and it holds no wildcard. |
| RequestMatching.CompilePattern | src/main/java/com/example/carrentalproject/security/SecurityConfig.java:62-78 | The matcher built from a pattern: match-all exactly for `/**` and `**`; otherwise a subpath matcher whose root followed by `/**` gives the pattern back, an exact matcher on the pattern itself, or a general Ant pattern that keeps it. `CompiledMatcherKind` states which one each pattern gets. |
| RequestMatching.CompiledMatcherKind | src/main/java/com/example/carrentalproject/security/SecurityConfig.java:62-78 | A subpath root holds no wildcard. A pattern compiles to an exact matcher if and only if it holds no wildcard, and to a general Ant pattern if and only if it holds one but is neither match-all nor a wildcard-free root followed by `/**`. |
| RequestMatching.PathMatches | src/main/java/com/example/carrentalproject/security/SecurityConfig.java:66-78 | A subpath matcher accepts its root and paths that continue it with `/`. An exact matcher accepts only the identical path. A match-all matcher accepts every path. No contract: `SubtreeMatchIff` and `ExactMatchIff` state its meaning. |
| RequestMatching.CompileSubtree | src/main/java/com/example/carrentalproject/security/SecurityConfig.java:67-74 | A non-empty, wildcard-free root followed by `/**` compiles to a subpath matcher on exactly that root, the matcher Spring uses for such patterns. |
| RequestMatching.CompileLiteral | src/main/java/com/example/carrentalproject/security/SecurityConfig.java:75-76 | A wildcard-free pattern compiles to an exact matcher on itself. |
| RequestMatching.SubtreeMatchIff | src/main/java/com/example/carrentalproject/security/SecurityConfig.java:77-78 | For a non-empty, wildcard-free root, `root/**` matches a path if and only if the path is the root or starts with `root/`. |
| RequestMatching.ExactMatchIff | src/main/java/com/example/carrentalproject/security/SecurityConfig.java:75-76 | A wildcard-free pattern matches a path if and only if the two are equal. |
| RequestMatching.Matches | src/main/java/com/example/carrentalproject/security/SecurityConfig.java:65-79 | A matcher restricted to one HTTP method never matches a request with another method, and a general Ant pattern matches nothing. |
| RequestMatching.FirstMatch | src/main/java/com/example/carrentalproject/security/SecurityConfig.java:65-79 | The index returned holds a matching rule and no earlier rule matches. None is returned exactly when no rule matches. |
| RequestMatching.Satisfies | src/main/java/com/example/carrentalproject/security/SecurityConfig.java:66-79 | An anonymous caller meets an access expression only if it is `permitAll` or a `hasAnyAuthority` that names `ROLE_ANONYMOUS`. |
| RequestMatching.Decide | src/main/java/com/example/carrentalproject/security/SecurityConfig.java:62-79 | A denial always comes from a rule that matches the request and whose access the caller fails. A caller who meets every rule's access is always granted. |
| RequestMatching.Authorities | src/main/java/com/example/carrentalproject/security/SecurityConfig.java:62-79 | The authorities a caller presents: the signed-in user's roles, or `ROLE_ANONYMOUS` alone. No contract: `AnonymousNeedsOpenRule` and `MoreAuthoritiesNeverHurt` use it. |
| RequestMatching.FirstMatchWins | src/main/java/com/example/carrentalproject/security/SecurityConfig.java:65-79 | If rule k is the first rule that matches, the decision is that rule's access check and nothing else. |
| RequestMatching.MoreAuthoritiesNeverHurt | src/main/java/com/example/carrentalproject/security/SecurityConfig.java:65-79 | A signed-in caller who holds more authorities than one who is granted is granted too. |
| RequestMatching.AnonymousNeedsOpenRule | src/main/java/com/example/carrentalproject/security/SecurityConfig.java:62-79 | If no rule asks for `ROLE_ANONYMOUS`, an anonymous caller is granted exactly when the first matching rule is `permitAll`, or when no rule matches. |
| SecurityConfig.WhitelistDeclarations | src/main/java/com/example/carrentalproject/security/SecurityConfig.java:39-62 | One any-method `permitAll` declaration per whitelisted pattern. The ensures gives only the length; `WhitelistRulesCompiled` and `RulesCompiled` pin the contents and the order. |
| SecurityConfig.AuthWhitelist | src/main/java/com/example/carrentalproject/security/SecurityConfig.java:39-49 | The nine whitelisted documentation patterns, in source order (a constant; `WhitelistOpenToAll` states what it grants). |
| SecurityConfig.EndpointDeclarations | src/main/java/com/example/carrentalproject/security/SecurityConfig.java:65-78 | The fourteen endpoint declarations as written: optional method, pattern and access, in source order (a constant; the route lemmas state what they grant). |
| SecurityConfig.Compile | src/main/java/com/example/carrentalproject/security/SecurityConfig.java:62-78 | Each declaration becomes one rule. The ensures gives only the length; `WhitelistRulesCompiled`, `EndpointRulesCompiled` and `RulesCompiled` pin the contents and the order. |
| SecurityConfig.DeclaredRules | src/main/java/com/example/carrentalproject/security/SecurityConfig.java:62-79 | The chain as declared has one rule per whitelisted pattern and per endpoint declaration, plus the catch-all `anyRequest().authenticated()` as its last rule. |
| SecurityConfig.Chain | src/main/java/com/example/carrentalproject/security/SecurityConfig.java:39-79 | The 24 rules with each pattern already compiled (a constant; `RulesCompiled` proves it equals `DeclaredRules`). |
| SecurityConfig.SwaggerUiSubtreeCompiled | src/main/java/com/example/carrentalproject/security/SecurityConfig.java:40 | `/swagger-ui/**` compiles to the subpath matcher on `/swagger-ui`. |
| SecurityConfig.ApiDocsSubtreeCompiled | src/main/java/com/example/carrentalproject/security/SecurityConfig.java:42 | `/v3/api-docs/**` compiles to the subpath matcher on `/v3/api-docs`. |
| SecurityConfig.SwaggerResourcesSubtreeCompiled | src/main/java/com/example/carrentalproject/security/SecurityConfig.java:43 | `/swagger-resources/**` compiles to the subpath matcher on `/swagger-resources`. |
| SecurityConfig.WebjarsSubtreeCompiled | src/main/java/com/example/carrentalproject/security/SecurityConfig.java:44 | `/webjars/**` compiles to the subpath matcher on `/webjars`. |
| SecurityConfig.UsersSubtreeCompiled | src/main/java/com/example/carrentalproject/security/SecurityConfig.java:67-70 | `/users/**` compiles to the subpath matcher on `/users`. |
| SecurityConfig.CarsSubtreeCompiled | src/main/java/com/example/carrentalproject/security/SecurityConfig.java:71-74 | `/cars/**` compiles to the subpath matcher on `/cars`. |
| SecurityConfig.PaymentSubtreeCompiled | src/main/java/com/example/carrentalproject/security/SecurityConfig.java:77 | `/payment/**` compiles to the subpath matcher on `/payment`. |
| SecurityConfig.DeliverySubtreeCompiled | src/main/java/com/example/carrentalproject/security/SecurityConfig.java:77 | `/delivery/**` compiles to the subpath matcher on `/delivery`. |
| SecurityConfig.RegistrationSubtreeCompiled | src/main/java/com/example/carrentalproject/security/SecurityConfig.java:78 | `/registration/**` compiles to the subpath matcher on `/registration`. |
| SecurityConfig.SwaggerUiPageLiteralCompiled | src/main/java/com/example/carrentalproject/security/SecurityConfig.java:41 | `/swagger-ui.html` compiles to the exact matcher on itself. |
| SecurityConfig.ApiDocsV2LiteralCompiled | src/main/java/com/example/carrentalproject/security/SecurityConfig.java:45 | `/v2/api-docs` compiles to the exact matcher on itself. |
| SecurityConfig.ConfigurationUiLiteralCompiled | src/main/java/com/example/carrentalproject/security/SecurityConfig.java:46 | `/configuration/ui` compiles to the exact matcher on itself. |
| SecurityConfig.ConfigurationSecurityLiteralCompiled | src/main/java/com/example/carrentalproject/security/SecurityConfig.java:47 | `/configuration/security` compiles to the exact matcher on itself. |
| SecurityConfig.SwaggerUiIndexLiteralCompiled | src/main/java/com/example/carrentalproject/security/SecurityConfig.java:48 | `/swagger-ui/index.html` compiles to the exact matcher on itself. |
| SecurityConfig.LoginLiteralCompiled | src/main/java/com/example/carrentalproject/security/SecurityConfig.java:66 | `/login` compiles to the exact matcher on itself. |
| SecurityConfig.OrdersLiteralCompiled | src/main/java/com/example/carrentalproject/security/SecurityConfig.java:75-76 | `/orders` compiles to the exact matcher on itself. |
| SecurityConfig.SwaggerUiRuleCompiled | src/main/java/com/example/carrentalproject/security/SecurityConfig.java:40 | The compiled whitelist declaration for `/swagger-ui/**` (position 0) is rule 0 of `Chain`: an any-method `permitAll` rule on the matcher its pattern compiles to. |
| SecurityConfig.SwaggerUiPageRuleCompiled | src/main/java/com/example/carrentalproject/security/SecurityConfig.java:41 | The compiled whitelist declaration for `/swagger-ui.html` (position 1) is rule 1 of `Chain`: an any-method `permitAll` rule on the matcher its pattern compiles to. |
| SecurityConfig.ApiDocsRuleCompiled | src/main/java/com/example/carrentalproject/security/SecurityConfig.java:42 | The compiled whitelist declaration for `/v3/api-docs/**` (position 2) is rule 2 of `Chain`: an any-method `permitAll` rule on the matcher its pattern compiles to. |
| SecurityConfig.SwaggerResourcesRuleCompiled | src/main/java/com/example/carrentalproject/security/SecurityConfig.java:43 | The compiled whitelist declaration for `/swagger-resources/**` (position 3) is rule 3 of `Chain`: an any-method `permitAll` rule on the matcher its pattern compiles to. |
| SecurityConfig.WebjarsRuleCompiled | src/main/java/com/example/carrentalproject/security/SecurityConfig.java:44 | The compiled whitelist declaration for `/webjars/**` (position 4) is rule 4 of `Chain`: an any-method `permitAll` rule on the matcher its pattern compiles to. |
| SecurityConfig.ApiDocsV2RuleCompiled | src/main/java/com/example/carrentalproject/security/SecurityConfig.java:45 | The compiled whitelist declaration for `/v2/api-docs` (position 5) is rule 5 of `Chain`: an any-method `permitAll` rule on the matcher its pattern compiles to. |
| SecurityConfig.ConfigurationUiRuleCompiled | src/main/java/com/example/carrentalproject/security/SecurityConfig.java:46 | The compiled whitelist declaration for `/configuration/ui` (position 6) is rule 6 of `Chain`: an any-method `permitAll` rule on the matcher its pattern compiles to. |
| SecurityConfig.ConfigurationSecurityRuleCompiled | src/main/java/com/example/carrentalproject/security/SecurityConfig.java:47 | The compiled whitelist declaration for `/configuration/security` (position 7) is rule 7 of `Chain`: an any-method `permitAll` rule on the matcher its pattern compiles to. |
| SecurityConfig.SwaggerUiIndexRuleCompiled | src/main/java/com/example/carrentalproject/security/SecurityConfig.java:48 | The compiled whitelist declaration for `/swagger-ui/index.html` (position 8) is rule 8 of `Chain`: an any-method `permitAll` rule on the matcher its pattern compiles to. |
| SecurityConfig.LoginRuleCompiled | src/main/java/com/example/carrentalproject/security/SecurityConfig.java:66 | The compiled declaration for `/login` for any method (endpoint position 0) is rule 9 of `Chain`, with the same method restriction and access. |
| SecurityConfig.UserDeleteRuleCompiled | src/main/java/com/example/carrentalproject/security/SecurityConfig.java:67 | The compiled declaration for DELETE `/users/**` (endpoint position 1) is rule 10 of `Chain`, with the same method restriction and access. |
| SecurityConfig.UserPutRuleCompiled | src/main/java/com/example/carrentalproject/security/SecurityConfig.java:68 | The compiled declaration for PUT `/users/**` (endpoint position 2) is rule 11 of `Chain`, with the same method restriction and access. |
| SecurityConfig.UserPostRuleCompiled | src/main/java/com/example/carrentalproject/security/SecurityConfig.java:69 | The compiled declaration for POST `/users/**` (endpoint position 3) is rule 12 of `Chain`, with the same method restriction and access. |
| SecurityConfig.UserGetRuleCompiled | src/main/java/com/example/carrentalproject/security/SecurityConfig.java:70 | The compiled declaration for GET `/users/**` (endpoint position 4) is rule 13 of `Chain`, with the same method restriction and access. |
| SecurityConfig.CarDeleteRuleCompiled | src/main/java/com/example/carrentalproject/security/SecurityConfig.java:71 | The compiled declaration for DELETE `/cars/**` (endpoint position 5) is rule 14 of `Chain`, with the same method restriction and access. |
| SecurityConfig.CarPutRuleCompiled | src/main/java/com/example/carrentalproject/security/SecurityConfig.java:72 | The compiled declaration for PUT `/cars/**` (endpoint position 6) is rule 15 of `Chain`, with the same method restriction and access. |
| SecurityConfig.CarPostRuleCompiled | src/main/java/com/example/carrentalproject/security/SecurityConfig.java:73 | The compiled declaration for POST `/cars/**` (endpoint position 7) is rule 16 of `Chain`, with the same method restriction and access. |
| SecurityConfig.CarGetRuleCompiled | src/main/java/com/example/carrentalproject/security/SecurityConfig.java:74 | The compiled declaration for GET `/cars/**` (endpoint position 8) is rule 17 of `Chain`, with the same method restriction and access. |
| SecurityConfig.OrderListRuleCompiled | src/main/java/com/example/carrentalproject/security/SecurityConfig.java:75 | The compiled declaration for GET `/orders` (endpoint position 9) is rule 18 of `Chain`, with the same method restriction and access. |
| SecurityConfig.OrderSubmissionRuleCompiled | src/main/java/com/example/carrentalproject/security/SecurityConfig.java:76 | The compiled declaration for POST `/orders` (endpoint position 10) is rule 19 of `Chain`, with the same method restriction and access. |
| SecurityConfig.PaymentRuleCompiled | src/main/java/com/example/carrentalproject/security/SecurityConfig.java:77 | The compiled declaration for `/payment/**` for any method (endpoint position 11) is rule 20 of `Chain`, with the same method restriction and access. |
| SecurityConfig.DeliveryRuleCompiled | src/main/java/com/example/carrentalproject/security/SecurityConfig.java:77 | The compiled declaration for `/delivery/**` for any method (endpoint position 12) is rule 21 of `Chain`, with the same method restriction and access. |
| SecurityConfig.RegistrationRuleCompiled | src/main/java/com/example/carrentalproject/security/SecurityConfig.java:78 | The compiled declaration for `/registration/**` for any method (endpoint position 13) is rule 22 of `Chain`, with the same method restriction and access. |
| SecurityConfig.WhitelistRulesCompiled | src/main/java/com/example/carrentalproject/security/SecurityConfig.java:39-62 | The compiled whitelist declarations are the first nine rules of `Chain`, in order, each built from the matcher its pattern compiles to. |
| SecurityConfig.EndpointRulesCompiled | src/main/java/com/example/carrentalproject/security/SecurityConfig.java:65-78 | The compiled endpoint declarations are the rules of `Chain` that follow the whitelist and come before the catch-all. |
| SecurityConfig.RulesCompiled | src/main/java/com/example/carrentalproject/security/SecurityConfig.java:62-79 | The declared chain (whitelist, then endpoints, then catch-all) equals `Chain`. |
| SecurityConfig.Authorize | src/main/java/com/example/carrentalproject/security/SecurityConfig.java:57-79 | The verdict for a request and a caller: `Decide` on `Chain`. No contract: `AuthorizeFollowsDeclarations` ties it to the declarations. |
| SecurityConfig.AuthorizeFollowsDeclarations | src/main/java/com/example/carrentalproject/security/SecurityConfig.java:62-79 | The verdict equals the one the chain as declared gives. |
| SecurityConfig.UsersScope | src/main/java/com/example/carrentalproject/security/SecurityConfig.java:67-70 | A path under `/users` is matched only by the four `/users/**` rules or by the catch-all. |
| SecurityConfig.CarsScope | src/main/java/com/example/carrentalproject/security/SecurityConfig.java:71-74 | A path under `/cars` is matched only by the four `/cars/**` rules or by the catch-all. |
| SecurityConfig.OrdersScope | src/main/java/com/example/carrentalproject/security/SecurityConfig.java:75-76 | A path under `/orders` is matched only by the two `/orders` rules or by the catch-all. |
| SecurityConfig.PaymentScope | src/main/java/com/example/carrentalproject/security/SecurityConfig.java:77 | A path under `/payment` is matched only by the payment rule or by the catch-all. |
| SecurityConfig.DeliveryScope | src/main/java/com/example/carrentalproject/security/SecurityConfig.java:77 | A path under `/delivery` is matched only by the delivery rule or by the catch-all. |
| SecurityConfig.RegistrationScope | src/main/java/com/example/carrentalproject/security/SecurityConfig.java:78 | A path under `/registration` is matched only by the registration rule or by the catch-all. |
| SecurityConfig.WhitelistOpenToAll | src/main/java/com/example/carrentalproject/security/SecurityConfig.java:39-62 | Any request whose path matches a whitelisted pattern is granted to every caller, anonymous included, for any method. |
| SecurityConfig.LoginIsPublic | src/main/java/com/example/carrentalproject/security/SecurityConfig.java:66 | `/login` is granted to every caller for every method. |
| SecurityConfig.UserChangesNeedAdmin | src/main/java/com/example/carrentalproject/security/SecurityConfig.java:67-68 | DELETE or PUT under `/users` is granted if and only if the caller holds `ROLE_ADMIN`. |
| SecurityConfig.UserReadsAndCreatesNeedManager | src/main/java/com/example/carrentalproject/security/SecurityConfig.java:69-70 | POST or GET under `/users` is granted if and only if the caller holds `ROLE_MANAGER`. |
| SecurityConfig.CarChangesNeedAdmin | src/main/java/com/example/carrentalproject/security/SecurityConfig.java:71-72 | DELETE or PUT under `/cars` is granted if and only if the caller holds `ROLE_ADMIN`. |
| SecurityConfig.CarCreationNeedsManager | src/main/java/com/example/carrentalproject/security/SecurityConfig.java:73 | POST under `/cars` is granted if and only if the caller holds `ROLE_MANAGER`. |
| SecurityConfig.CarReadsNeedUser | src/main/java/com/example/carrentalproject/security/SecurityConfig.java:74 | GET under `/cars` is granted if and only if the caller holds `ROLE_USER`. |
| SecurityConfig.OrderListNeedsManager | src/main/java/com/example/carrentalproject/security/SecurityConfig.java:75 | GET `/orders` is granted if and only if the caller holds `ROLE_MANAGER`. |
| SecurityConfig.OrderSubmissionNeedsUser | src/main/java/com/example/carrentalproject/security/SecurityConfig.java:76 | POST `/orders` is granted if and only if the caller holds `ROLE_USER`. |
| SecurityConfig.PaymentAndDeliveryNeedUser | src/main/java/com/example/carrentalproject/security/SecurityConfig.java:77 | Any method under `/payment` or `/delivery` is granted if and only if the caller holds `ROLE_USER`. |
| SecurityConfig.RegistrationIsPublic | src/main/java/com/example/carrentalproject/security/SecurityConfig.java:78 | Any method under `/registration` is granted to every caller. |
| SecurityConfig.CatchAllNeedsAuthentication | src/main/java/com/example/carrentalproject/security/SecurityConfig.java:79 | A request that no declared rule matches is granted if and only if the caller is signed in, whatever the caller's roles. |
| SecurityConfig.OtherMethodsFallThrough | src/main/java/com/example/carrentalproject/security/SecurityConfig.java:67-79 | PATCH, HEAD, OPTIONS and TRACE under `/users` or `/cars` fall to the catch-all: any signed-in caller is granted and anonymous callers are not. |
| SecurityConfig.OrderSubpathsFallThrough | src/main/java/com/example/carrentalproject/security/SecurityConfig.java:75-79 | Paths below `/orders` (such as `/orders/5`), and methods other than GET and POST on `/orders`, fall to the catch-all. |
| SecurityConfig.EveryRequestMatched | src/main/java/com/example/carrentalproject/security/SecurityConfig.java:79 | Because the catch-all is last, some rule matches every request. |
| SecurityConfig.OpenRules | src/main/java/com/example/carrentalproject/security/SecurityConfig.java:62-78 | The only `permitAll` rules are the whitelist, `/login` and `/registration/**`. |
| SecurityConfig.ChainNeverRequiresAnonymous | src/main/java/com/example/carrentalproject/security/SecurityConfig.java:67-77 | No rule of the chain asks for `ROLE_ANONYMOUS`. |
| SecurityConfig.AnonymousAccess | src/main/java/com/example/carrentalproject/security/SecurityConfig.java:62-79 | An anonymous caller is granted if and only if the first matching rule is a whitelist rule, `/login` or `/registration/**`. |
| SecurityConfig.NoRoleHierarchy | src/main/java/com/example/carrentalproject/security/SecurityConfig.java:70-75 | Roles do not nest. An admin holding only `ROLE_ADMIN` is denied GET on `/users` and `/cars`. A user holding only `ROLE_USER` is denied GET on `/orders`. |
| OrderService.ToDto | src/test/java/com/example/carrentalproject/service/OrderServiceTest.java:117-120 | The descriptor carries the key's package name and hours. |
| OrderService.FromDto | src/test/java/com/example/carrentalproject/service/OrderServiceTest.java:112-115 | The key rebuilt from a descriptor carries the descriptor's package name and hours. |
| OrderService.Charge | src/test/java/com/example/carrentalproject/service/OrderServiceTest.java:95-129 | The price of the hours ordered. A non-negative price for non-negative hours never gives a negative charge. |
| OrderService.DtoMirrorsKey | src/test/java/com/example/carrentalproject/service/OrderServiceTest.java:112-128 | Key and descriptor convert into each other without loss, in both directions. |
| OrderService.Submit | src/test/java/com/example/carrentalproject/service/OrderServiceTest.java:112-128 | A successful submission issues the key `{requested name, requested hours}` and leaves a balance that is not negative. |
| OrderService.SubmitSucceedsIff | src/test/java/com/example/carrentalproject/service/OrderServiceTest.java:95-186 | A submission succeeds if and only if a card is linked, the package exists and the balance is at least price × hours. |
| OrderService.SubmitDebitsExactly | src/test/java/com/example/carrentalproject/service/OrderServiceTest.java:95-129 | On success the new balance is the old balance minus price × hours, exactly. |
| OrderService.NoCardComesFirst | src/test/java/com/example/carrentalproject/service/OrderServiceTest.java:152-162 | Without a card the result is NoCreditCard, whatever the catalogue, name and hours. |
| OrderService.LookupBeforeFunds | src/test/java/com/example/carrentalproject/service/OrderServiceTest.java:133-148 | With a card but an unknown package the result is EntityNotFound, whatever the balance. |
| OrderService.InsufficientFundsIff | src/test/java/com/example/carrentalproject/service/OrderServiceTest.java:166-186 | InsufficientFunds is reported if and only if a card is linked, the package exists and the balance is below price × hours. |
| OrderService.KeyNamesFoundPackage | src/test/java/com/example/carrentalproject/service/OrderServiceTest.java:107-128 | With a catalogue indexed by name, the key issued names the package the lookup found. |
| OrderService.CreditCard.constructor | src/test/java/com/example/carrentalproject/service/OrderServiceTest.java:95-101 | A card with the given number, expiry, CVV and balance. Only the balance can change later. |
| OrderService.User.constructor | src/test/java/com/example/carrentalproject/service/OrderServiceTest.java:103-105 | A user holding a reference to the given card, or to none. The card is shared, so a debit through the service shows through the user. |
| OrderService.OrderService.constructor | src/test/java/com/example/carrentalproject/service/OrderServiceTest.java:47-48 | A service bound to the signed-in user, a package catalogue indexed by name and the stored orders, with no keys saved yet. |
| OrderService.OrderService.Balance | src/test/java/com/example/carrentalproject/service/OrderServiceTest.java:153-156 | The balance is absent exactly when the user has no linked card. |
| OrderService.OrderService.SubmitOrder | src/test/java/com/example/carrentalproject/service/OrderServiceTest.java:95-186 | The method returns what `Submit` gives for the old balance. On success the card holds the new balance, the key is appended to the saved keys, and the descriptor names the package found. On failure the balance and the saved keys are unchanged. |
| OrderService.OrderService.GetOrders | src/test/java/com/example/carrentalproject/service/OrderServiceTest.java:80-90 | The result is the repository's order list: the same elements in the same order. |
| OrderService.LuxuryOrder | src/test/java/com/example/carrentalproject/service/OrderServiceTest.java:95-129 | With balance 1200, "Luxury" at 500 per hour and 2 hours, the result is `AccessKeyDto{"Luxury", 2}`, the card holds 200 and `{"Luxury", 2}` is the one key saved. |
| OrderService.OrderWithoutCard | src/test/java/com/example/carrentalproject/service/OrderServiceTest.java:152-162 | A user without a card ordering "Ordinary" for 2 hours gets NoCreditCard, whatever the catalogue holds. |
| OrderService.OrderUnknownPackage | src/test/java/com/example/carrentalproject/service/OrderServiceTest.java:133-148 | With an empty catalogue and a card at 0, ordering "BigCar" for 3 hours gives EntityNotFound and the card stays at 0. |
| OrderService.OrderBeyondBalance | src/test/java/com/example/carrentalproject/service/OrderServiceTest.java:166-186 | With balance 600 against 2 hours at 500, the result is InsufficientFunds, the balance stays 600 and no key is saved. |
| OrderService.ListFourOrders | src/test/java/com/example/carrentalproject/service/OrderServiceTest.java:50-91 | The four stored orders (Ford Mustang, Fiat Brava, Daewoo Matiz, Porsche Cayman) come back in that order. |

## Left out

- Token authentication and authorisation filters (`CustomAuthenticationFilter`, `CustomAuthorizationFilter`) are only constructed by the configuration, and their code is not part of this model. The caller reaches the rule chain as a `Principal`, already either anonymous or signed in with a set of roles.
- Password encoding, the user-details service, CSRF and session policy are not modelled. They do not change which rule decides a request.
- The logout filter is not modelled. With CSRF disabled, it answers `/logout` for GET, POST, PUT and DELETE with a redirect to `/login`, before any rule is consulted. Such requests never reach the rule chain, so `Authorize` says nothing about what a caller of `/logout` sees.
- RequestMatching.PathMatches: a pattern holding `*`, `?`, `{` or `}` other than a trailing `/**` on a wildcard-free root, or the match-all `/**`, is compiled to a general Ant pattern, which is treated as matching no path. The configuration declares no such pattern. Case-insensitive matching and the normalisation of doubled or trailing slashes are not modelled either.
- `OrderService.java`, `LoggedInUser` and the repositories are not part of this model. The logged-in user is a constructor argument of the service. The package lookup is a map, so a failed lookup is a missing key.
- OrderService.Charge: price × hours is computed on unbounded integers. Any 32-bit or 64-bit overflow in the Java arithmetic is not modelled, and hours are not checked for being positive, because the service code that would do either is not part of this model.
- Persisting the `PlacedOrder` record and saving the updated user are not modelled, because no visible contract fixes their contents. The saved access keys are modelled.
- Transactions, rollback and concurrent orders against one account are not modelled. Each `SubmitOrder` call runs alone, and on every failure path it changes nothing.
- Mockito stubbing is not modelled. The stubs become the initial state of the service's fields.
- The repository tests for users and cars are not modelled.
