# OrderCloud Catalyst: token verification and list-argument binding

A Dafny model of two sequential pieces of OrderCloud Catalyst.

- `VerifiedUserContext` verifies a bearer token. It runs the following steps in order:
  - it rejects a null or empty token;
  - it rejects a token that has no client ID or is outside its validity window (the `nbf` and `exp` claims, sections 4.1.5 and 4.1.4 of RFC 7519);
  - it asks a shared cache for the token's validity. On a miss it runs the remote check: a user lookup when the token has no key ID (the JWS `kid` header, section 4.1.4 of RFC 7515), otherwise a signature check against the fetched public key;
  - it sorts remote failures into three classes: an `OrderCloudException` is rethrown; an HTTP status below 500 is a cached `false`; any other failure is a `false` whose cache entry is evicted at once;
  - it checks the required roles;
  - only then does it store the token.

  Its claim accessors throw `NoUserContext` before a successful verification. The `userType` claim maps case-insensitively to a commerce role. The client built from the token is memoised.
- `ListArgsModelBinder.LoadFromQueryString` fills a list-arguments object from the query pairs, in query order:
  - keys are matched in any letter case;
  - `sortBy` is split at commas and de-duplicated;
  - `page` must parse to at least 1 and `pageSize` to a value in 1..100;
  - `search` and `searchOn` are copied;
  - `searchType` is matched against the enum names, or becomes a filter when the model has no such property;
  - every other pair is appended to `Filters`.

  `ListArgsPageOnlyModelBinder.LoadFromQueryString` reads only `page` and `pageSize`.

Files:

- `wrappers.dfy`: `Option`, `Result` and `Outcome`.
- `text.dfy`: the base-library pieces the code relies on. These are `ToLower`, `Split`, `Distinct` and `int.TryParse`.
- `list_args_binder.dfy` (module `ListOptions`):
  - specification functions `Step`/`Load` and `PageOnlyStep`/`LoadPageOnly`;
  - the classes `ListArgs` and `ListArgsPageOnly`;
  - the two loop methods, which are proved equal to the specification functions;
  - lemmas about the specification functions.
- `verified_user_context.dfy` (module `UserAuth`):
  - the specification function `Verify`, which gives the outcome and the new cache of one call;
  - the cache class `SimpleCache`;
  - the class `VerifiedUserContext`: `VerifyAsync` is proved equal to `Verify`, and the class also holds the accessors and the memoised client;
  - lemmas about the cache across several calls.

The remote calls and the crypto check are one `Authority` value, passed to each call: `Me.GetAsync`, `Certs.GetPublicKeyAsync` and `JWT.IsTokenCryptoValid`. Each remote call ends either in a value or in one of the failure kinds the catch clauses distinguish. The clock is an integer `now`. The decoded token is a `Claims` input record.

Points where the code's behaviour is easy to misread:

- The `nbf` and `exp` claims are nullable, and C#'s lifted comparison with null is false. So a token that lacks either claim passes the window check (`StructurallyValid`).
- `AvailableRoles` is the token's role list as it is (`ToImmutableList`). It is not de-duplicated.
- A failure of the token decoder is not turned into `UnAuthorized` in the code. The model takes decoded claims, so it makes no claim about this.

## Model

| member | source | states |
|---|---|---|
| UserAuth.Verify | library/OrderCloud.Catalyst/Auth/UserAuth/VerifiedUserContext.cs:54-111 | A null or empty token, a missing client ID, `nbf > now` or `exp < now` fail with UnAuthorized and leave the cache as it was. Success holds iff all of these hold: the token is non-empty, the window holds, the cached or computed validity is true, and the roles are satisfied. Once the window holds, a false cached or computed validity fails with UnAuthorized. The call fails with OrderCloudError iff the window holds, the token is not cached and the remote check rethrew. InsufficientRoles carries the required and the token's roles, and only for a non-empty, disjoint requirement. No cache key other than the token changes, and no other key is added |
| UserAuth.IsNullOrEmpty | library/OrderCloud.Catalyst/Auth/UserAuth/VerifiedUserContext.cs:56 | Definition: the token is null or empty. Verify states its consequence |
| UserAuth.StructurallyValid | library/OrderCloud.Catalyst/Auth/UserAuth/VerifiedUserContext.cs:61 | Definition: a client ID is present, `nbf` is not after now and `exp` is not before now; a missing claim passes. Verify states its consequence |
| UserAuth.RolesSatisfied | library/OrderCloud.Catalyst/Auth/UserAuth/VerifiedUserContext.cs:102 | Definition: no requirement, an empty one, or one sharing a role with the token. Verify and DisjointRolesRejected state its consequence |
| UserAuth.IsClientError | library/OrderCloud.Catalyst/Auth/UserAuth/VerifiedUserContext.cs:86 | Definition: an HTTP failure whose response has a status below 500, the `when` filter of the second catch clause |
| UserAuth.IsTransientFailure | library/OrderCloud.Catalyst/Auth/UserAuth/VerifiedUserContext.cs:90-92 | Definition: a failure caught by neither of the first two clauses, so it falls into `catch (Exception)` and sets the retry flag |
| UserAuth.UserIsActive | library/OrderCloud.Catalyst/Auth/UserAuth/VerifiedUserContext.cs:73-74 | Definition: the user lookup returned a non-null, active user |
| UserAuth.SignatureVerifies | library/OrderCloud.Catalyst/Auth/UserAuth/VerifiedUserContext.cs:78-79 | Definition: the key fetch returned a key and the crypto check accepts the token with it |
| UserAuth.Validated | library/OrderCloud.Catalyst/Auth/UserAuth/VerifiedUserContext.cs:66 | Definition: the value `GetOrAddAsync` yields, the stored validity on a hit and the computed one on a miss |
| UserAuth.ComputeValidity | library/OrderCloud.Catalyst/Auth/UserAuth/VerifiedUserContext.cs:66-95 | Without a key ID: valid iff the user lookup returns an active user. With a key ID: valid iff the fetched key verifies the signature. A call that answers yields that answer (active user, or verified signature) without the retry flag, so a negative answer is cached like a positive one. The result is rethrown iff the consulted call raised an OrderCloudException. A failed user lookup or key fetch ends as Caught of that failure, so the retry flag and the rethrown message follow the catch clauses |
| UserAuth.Caught | library/OrderCloud.Catalyst/Auth/UserAuth/VerifiedUserContext.cs:82-94 | An OrderCloudException is rethrown with its message. Every other failure yields false. The retry flag is set iff the failure is not an HTTP response with status below 500, so it is set for 5xx, for a missing response and for other exceptions |
| UserAuth.CacheHitSkipsValidator | library/OrderCloud.Catalyst/Auth/UserAuth/VerifiedUserContext.cs:66 | On a cache hit the outcome is the same whatever the remote authority answers, and the cache is unchanged |
| UserAuth.MissStoresValidity | library/OrderCloud.Catalyst/Auth/UserAuth/VerifiedUserContext.cs:66-95 | On a miss whose check ends with a boolean and no retry flag, that boolean is stored under the token |
| UserAuth.OrderCloudErrorPropagates | library/OrderCloud.Catalyst/Auth/UserAuth/VerifiedUserContext.cs:82-85 | An OrderCloudException ends the call with that error, never with UnAuthorized, and nothing is cached |
| UserAuth.ClientErrorStaysCached | library/OrderCloud.Catalyst/Auth/UserAuth/VerifiedUserContext.cs:71-89 | A status below 500 from the user lookup (no key ID) or from the key fetch (key ID) rejects the call and caches false. Every later call that passes the structural check is rejected, as long as the entry stays cached, whatever the authority then answers |
| UserAuth.RejectedAnswerStaysCached | library/OrderCloud.Catalyst/Auth/UserAuth/VerifiedUserContext.cs:71-80 | A returned null or inactive user, or a key that does not verify the signature, rejects the call and caches false. Every later call that passes the structural check is rejected, as long as the entry stays cached, whatever the authority then answers |
| UserAuth.TransientFailureIsRetried | library/OrderCloud.Catalyst/Auth/UserAuth/VerifiedUserContext.cs:71-97 | Any other failure of the user lookup or of the key fetch rejects the call and leaves the cache as before, so the next call behaves as if this one had not happened |
| UserAuth.SecondCallHitsCache | library/OrderCloud.Catalyst/Auth/UserAuth/VerifiedUserContext.cs:66 | After a success the token is cached as valid. A second identical call succeeds whatever the authority answers |
| UserAuth.DisjointRolesRejected | library/OrderCloud.Catalyst/Auth/UserAuth/VerifiedUserContext.cs:102-109 | A token that is valid, whether cached or validated by this call, and whose roles miss every required role fails with InsufficientRoles(required, token roles); its validity is cached as true |
| UserAuth.GetCommerceRole | library/OrderCloud.Catalyst/Auth/UserAuth/VerifiedUserContext.cs:114-127 | buyer → Buyer, seller or admin → Seller, supplier → Supplier, each in any letter case, and each as an iff. A null or any other user type is UnknownUserType carrying the user type |
| UserAuth.CommerceRoleIgnoresCase | library/OrderCloud.Catalyst/Auth/UserAuth/VerifiedUserContext.cs:116 | Two user types equal up to letter case give the same commerce role |
| UserAuth.AdminIsSeller | library/OrderCloud.Catalyst/Auth/UserAuth/VerifiedUserContext.cs:118-126 | "Admin" and "SELLER" are Seller, "Buyer" is Buyer, "Supplier" is Supplier, and "Anonymous" is an error |
| UserAuth.SimpleCache.constructor | library/OrderCloud.Catalyst/Auth/UserAuth/VerifiedUserContext.cs:39 | A new cache is empty |
| UserAuth.SimpleCache.TryGet | library/OrderCloud.Catalyst/Auth/UserAuth/VerifiedUserContext.cs:66 | Hit iff the key is stored, and a hit carries the stored value |
| UserAuth.SimpleCache.Add | library/OrderCloud.Catalyst/Auth/UserAuth/VerifiedUserContext.cs:66 | Stores the value under the key and changes nothing else |
| UserAuth.SimpleCache.Remove | library/OrderCloud.Catalyst/Auth/UserAuth/VerifiedUserContext.cs:97 | Removes the key and changes nothing else |
| UserAuth.VerifiedUserContext.constructor | library/OrderCloud.Catalyst/Auth/UserAuth/VerifiedUserContext.cs:42-46 | Starts unverified, with no client, on the given shared cache |
| UserAuth.VerifiedUserContext.VerifyAsync | library/OrderCloud.Catalyst/Auth/UserAuth/VerifiedUserContext.cs:54-111 | The outcome and the new cache are those of Verify. The token field becomes the parsed claims only on success, and every failure leaves the previous token. The client field is untouched |
| UserAuth.VerifiedUserContext.GetToken | library/OrderCloud.Catalyst/Auth/UserAuth/VerifiedUserContext.cs:112 | Succeeds iff a token is stored, and then returns it. Otherwise it fails with NoUserContext |
| UserAuth.VerifiedUserContext.Username | library/OrderCloud.Catalyst/Auth/UserAuth/VerifiedUserContext.cs:25 | NoUserContext before verification, then the username claim |
| UserAuth.VerifiedUserContext.IsAnonUser | library/OrderCloud.Catalyst/Auth/UserAuth/VerifiedUserContext.cs:26 | NoUserContext before verification, then whether an anonymous order ID is present |
| UserAuth.VerifiedUserContext.IsPortalIssuedToken | library/OrderCloud.Catalyst/Auth/UserAuth/VerifiedUserContext.cs:27 | NoUserContext before verification, then whether a company interop ID is present |
| UserAuth.VerifiedUserContext.IsImpersonationToken | library/OrderCloud.Catalyst/Auth/UserAuth/VerifiedUserContext.cs:28 | NoUserContext before verification, then whether an impersonating user ID is present |
| UserAuth.VerifiedUserContext.AvailableRoles | library/OrderCloud.Catalyst/Auth/UserAuth/VerifiedUserContext.cs:29 | NoUserContext before verification, then the token's roles |
| UserAuth.VerifiedUserContext.CommerceRole | library/OrderCloud.Catalyst/Auth/UserAuth/VerifiedUserContext.cs:30 | NoUserContext before verification, then the commerce role of the user type |
| UserAuth.VerifiedUserContext.TokenApiUrl | library/OrderCloud.Catalyst/Auth/UserAuth/VerifiedUserContext.cs:31 | NoUserContext before verification, then the API URL claim |
| UserAuth.VerifiedUserContext.TokenAuthUrl | library/OrderCloud.Catalyst/Auth/UserAuth/VerifiedUserContext.cs:32 | NoUserContext before verification, then the auth URL claim |
| UserAuth.VerifiedUserContext.TokenClientID | library/OrderCloud.Catalyst/Auth/UserAuth/VerifiedUserContext.cs:33 | NoUserContext before verification, then the client ID claim, which is always present because verification checks it |
| UserAuth.VerifiedUserContext.TokenExpiresUtc | library/OrderCloud.Catalyst/Auth/UserAuth/VerifiedUserContext.cs:34 | Fails with NoUserContext iff it is called before verification or the token has no expiry. Otherwise it returns the expiry |
| UserAuth.VerifiedUserContext.TokenNotValidBeforeUtc | library/OrderCloud.Catalyst/Auth/UserAuth/VerifiedUserContext.cs:35 | Fails with NoUserContext iff it is called before verification or the token has no not-before instant. Otherwise it returns that instant |
| UserAuth.VerifiedUserContext.OcClient | library/OrderCloud.Catalyst/Auth/UserAuth/VerifiedUserContext.cs:14-24 | The first access after verification builds the client from the token and stores it. Every later access returns that same client unchanged. Before verification the access fails with NoUserContext and builds nothing. A client exists only once a token does |
| ListOptions.SearchTypeName | library/OrderCloud.Catalyst/Models/ListOptions/ListArgsBinder.cs:64 | Definition: the member names of the SDK's `SearchType` enumeration, the names `Enum.GetNames` lists |
| ListOptions.LowerName | library/OrderCloud.Catalyst/Models/ListOptions/ListArgsBinder.cs:62 | Definition: each member name in lower case, as `Enum.TryParse` with ignoreCase compares it; LowerNameIsLowerCaseName ties it to SearchTypeName |
| ListOptions.ValidPage | library/OrderCloud.Catalyst/Models/ListOptions/ListArgsBinder.cs:41 | Definition: the value parses as an int of at least 1 (also line 109) |
| ListOptions.ValidPageSize | library/OrderCloud.Catalyst/Models/ListOptions/ListArgsBinder.cs:47 | Definition: the value parses as an int from 1 to 100 (also line 115) |
| ListOptions.IsFilterKey | library/OrderCloud.Catalyst/Models/ListOptions/ListArgsBinder.cs:69-77 | Definition: the key reaches the default branch, or is `searchtype` on a model without a SearchType property |
| ListOptions.Acceptable | library/OrderCloud.Catalyst/Models/ListOptions/ListArgsBinder.cs:40-74 | Definition: the pair raises no UserErrorException: a valid page, a valid page size, a known search type where the property exists |
| ListOptions.ErrorFor | library/OrderCloud.Catalyst/Models/ListOptions/ListArgsBinder.cs:44 | Definition: which UserErrorException a rejected pair raises, chosen by its key (lines 44, 50, 65) |
| ListOptions.FilterOf | library/OrderCloud.Catalyst/Models/ListOptions/ListArgsBinder.cs:69-77 | Definition: the one filter an unmatched pair adds, key and value as given, or none |
| ListOptions.KindOf | library/OrderCloud.Catalyst/Models/ListOptions/ListArgsBinder.cs:35 | Definition: the case label the lower-cased key selects. KindOfNamesCases states the mapping |
| ListOptions.KindOfNamesCases | library/OrderCloud.Catalyst/Models/ListOptions/ListArgsBinder.cs:35-77 | Each case is selected iff the lower-cased key equals its label; every other key reaches the default branch |
| ListOptions.Step | library/OrderCloud.Catalyst/Models/ListOptions/ListArgsBinder.cs:33-78 | One pair is accepted iff its paging value and search type are valid. A rejected pair raises the error of its key. An accepted pair adds exactly one filter (key and value as given) when its key names no property, and no filter otherwise |
| ListOptions.Next | library/OrderCloud.Catalyst/Models/ListOptions/ListArgsBinder.cs:32-79 | Definition: one more pair is bound only when no error has been raised; a rejected pair keeps the arguments and records its error. NextStep and the Load lemmas state its consequences |
| ListOptions.Load | library/OrderCloud.Catalyst/Models/ListOptions/ListArgsBinder.cs:29-80 | Definition: the loop as a left fold of Next over the query. LoadFromQueryString is proved equal to it; the Load lemmas state its properties |
| ListOptions.LoadSucceedsIff | library/OrderCloud.Catalyst/Models/ListOptions/ListArgsBinder.cs:29-80 | Binding succeeds iff every pair is acceptable |
| ListOptions.LoadCollectsFilters | library/OrderCloud.Catalyst/Models/ListOptions/ListArgsBinder.cs:29-80 | After success the filters are the earlier ones followed by every unmatched pair, key and value as given, in query order |
| ListOptions.LoadStopsOnError | library/OrderCloud.Catalyst/Models/ListOptions/ListArgsBinder.cs:44 | Once a prefix of the query raises an error, the pairs after it change nothing |
| ListOptions.LoadFailsAtFirstRejected | library/OrderCloud.Catalyst/Models/ListOptions/ListArgsBinder.cs:40-51 | A failed binding stops at the first rejected pair and raises that pair's error. The arguments stay as the earlier pairs set them |
| ListOptions.LoadSetsPaging | library/OrderCloud.Catalyst/Models/ListOptions/ListArgsBinder.cs:40-51 | After success, Page and PageSize hold the parsed value of the last pair naming them: Page is at least 1, PageSize is in 1..100. Each keeps its earlier value when no pair names it |
| ListOptions.LoadSetsSortBy | library/OrderCloud.Catalyst/Models/ListOptions/ListArgsBinder.cs:37-39 | After success, SortBy is the de-duplicated comma split of the last sortBy value, or its earlier value when no pair names it |
| ListOptions.LoadSetsSearch | library/OrderCloud.Catalyst/Models/ListOptions/ListArgsBinder.cs:52-57 | After success, Search and SearchOn hold the last values given for them, or their earlier values |
| ListOptions.LoadSetsSearchType | library/OrderCloud.Catalyst/Models/ListOptions/ListArgsBinder.cs:58-74 | With a SearchType property, it holds the member named by the last searchType value. Without one, it never changes |
| ListOptions.LoadKeepsPagingInBounds | library/OrderCloud.Catalyst/Models/ListOptions/ListArgsBinder.cs:40-51 | Binding never takes page or page size out of bounds, whether it succeeds or stops |
| ListOptions.KeysIgnoreCase | library/OrderCloud.Catalyst/Models/ListOptions/ListArgsBinder.cs:35 | A key that names a property acts exactly like any other spelling of it in another letter case |
| ListOptions.PagePairSetsPage | library/OrderCloud.Catalyst/Models/ListOptions/ListArgsBinder.cs:40-42 | Appending a page pair whose value is the decimal rendering of n, with 1 ≤ n ≤ 2^31-1, sets Page to n and nothing else |
| ListOptions.ParseSearchType | library/OrderCloud.Catalyst/Models/ListOptions/ListArgsBinder.cs:62-66 | A match is a member whose name equals the value up to letter case. No match means no member name equals it |
| ListOptions.LowerNameIsLowerCaseName | library/OrderCloud.Catalyst/Models/ListOptions/ListArgsBinder.cs:62 | The names compared are the members' names in lower case |
| ListOptions.ListArgs.constructor | library/OrderCloud.Catalyst/Models/ListOptions/ListArgsBinder.cs:21 | A list-arguments object with the given initial properties and SearchType presence |
| ListOptions.BindPair | library/OrderCloud.Catalyst/Models/ListOptions/ListArgsBinder.cs:35-78 | One switch pass on an error-free object: an accepted pair leaves the object as Step computes and returns no error; a rejected pair returns its key's error and changes nothing |
| ListOptions.LoadFromQueryString | library/OrderCloud.Catalyst/Models/ListOptions/ListArgsBinder.cs:29-80 | Filters is reset to empty first. The object ends as Load from that state leaves it, and the returned error is Load's |
| ListOptions.IsPagingKey | library/OrderCloud.Catalyst/Models/ListOptions/ListArgsBinder.cs:108-114 | Definition: the key selects the `page` or `pagesize` case of the page-only switch |
| ListOptions.PagingAcceptable | library/OrderCloud.Catalyst/Models/ListOptions/ListArgsBinder.cs:108-119 | Definition: the pair raises no UserErrorException in the page-only switch |
| ListOptions.PageOnlyStep | library/OrderCloud.Catalyst/Models/ListOptions/ListArgsBinder.cs:105-120 | A pair is accepted iff its paging value is valid, and a rejected pair raises its key's error. A non-paging key changes nothing |
| ListOptions.NextPageOnly | library/OrderCloud.Catalyst/Models/ListOptions/ListArgsBinder.cs:102-120 | Definition: one more pair is bound only when no error has been raised |
| ListOptions.LoadPageOnly | library/OrderCloud.Catalyst/Models/ListOptions/ListArgsBinder.cs:100-122 | Definition: the page-only loop as a left fold of NextPageOnly. LoadPageOnlyFromQueryString is proved equal to it |
| ListOptions.LoadPageOnlySucceedsIff | library/OrderCloud.Catalyst/Models/ListOptions/ListArgsBinder.cs:100-122 | Page-only binding succeeds iff every paging pair is valid |
| ListOptions.LoadPageOnlyStopsOnError | library/OrderCloud.Catalyst/Models/ListOptions/ListArgsBinder.cs:112 | Once a prefix raises an error, later pairs change nothing |
| ListOptions.PagingPairs | library/OrderCloud.Catalyst/Models/ListOptions/ListArgsBinder.cs:108-119 | A pair is kept iff it is in the query and its key is page or pageSize |
| ListOptions.LoadPageOnlyIgnoresOtherKeys | library/OrderCloud.Catalyst/Models/ListOptions/ListArgsBinder.cs:100-122 | Dropping every non-paging pair from the query changes neither the outcome nor the arguments |
| ListOptions.LoadPageOnlyKeepsPagingInBounds | library/OrderCloud.Catalyst/Models/ListOptions/ListArgsBinder.cs:108-119 | Page-only binding never takes page or page size out of bounds |
| ListOptions.PageOnlyAgreesWithFullBinder | library/OrderCloud.Catalyst/Models/ListOptions/ListArgsBinder.cs:100-122 | Wherever the full binder succeeds, the page-only binder succeeds on the same query with the same page and page size |
| ListOptions.ListArgsPageOnly.constructor | library/OrderCloud.Catalyst/Models/ListOptions/ListArgsBinder.cs:93 | A page-only object with the given paging |
| ListOptions.BindPagingPair | library/OrderCloud.Catalyst/Models/ListOptions/ListArgsBinder.cs:105-120 | One switch pass: an accepted pair leaves the object as PageOnlyStep computes; a rejected pair returns its key's error and changes nothing |
| ListOptions.LoadPageOnlyFromQueryString | library/OrderCloud.Catalyst/Models/ListOptions/ListArgsBinder.cs:100-122 | The object ends as LoadPageOnly leaves it, and the returned error is LoadPageOnly's |
| Text.LowerChar | library/OrderCloud.Catalyst/Models/ListOptions/ListArgsBinder.cs:35 | Upper-case ASCII letters map to their lower-case letter. Every other character is kept |
| Text.Lower | library/OrderCloud.Catalyst/Models/ListOptions/ListArgsBinder.cs:35 | Same length, lower-cased position by position |
| Text.LowerIdempotent | library/OrderCloud.Catalyst/Auth/UserAuth/VerifiedUserContext.cs:116 | Lower-casing twice equals lower-casing once |
| Text.Split | library/OrderCloud.Catalyst/Models/ListOptions/ListArgsBinder.cs:38 | There is at least one part, and no part contains the separator |
| Text.JoinSplit | library/OrderCloud.Catalyst/Models/ListOptions/ListArgsBinder.cs:38 | Joining the parts with the separator gives back the string |
| Text.SplitLength | library/OrderCloud.Catalyst/Models/ListOptions/ListArgsBinder.cs:38 | There is one more part than there are separators, so empty parts are kept |
| Text.Distinct | library/OrderCloud.Catalyst/Models/ListOptions/ListArgsBinder.cs:38 | The result has no duplicates and holds exactly the input's elements |
| Text.DistinctKeepsFirstOccurrenceOrder | library/OrderCloud.Catalyst/Models/ListOptions/ListArgsBinder.cs:38 | Result elements come in the order of their first occurrence in the input |
| Text.DistinctOfDistinct | library/OrderCloud.Catalyst/Models/ListOptions/ListArgsBinder.cs:38 | A sequence without duplicates is unchanged |
| Text.ParseInt | library/OrderCloud.Catalyst/Models/ListOptions/ListArgsBinder.cs:41 | A parsed value lies in the 32-bit signed range. A parsed string is an optional sign followed by at least one digit and nothing else, and its value is the digits' value, negated after a minus sign. Conversely every such string whose value is in range parses |
| Text.ParseFormat | library/OrderCloud.Catalyst/Models/ListOptions/ListArgsBinder.cs:41 | Parsing the decimal rendering of n, with n ≤ 2^31-1, gives n |
| Text.ParseFormatNegative | library/OrderCloud.Catalyst/Models/ListOptions/ListArgsBinder.cs:41 | A minus sign before the rendering of n, for 1 ≤ n ≤ 2^31, parses to -n |
| Text.ParseAcceptsPlusAndLeadingZeros | library/OrderCloud.Catalyst/Models/ListOptions/ListArgsBinder.cs:41 | "+7" and "007" both parse to 7 |
| Text.ParseRejectsOutOfRange | library/OrderCloud.Catalyst/Models/ListOptions/ListArgsBinder.cs:41 | The rendering of any n > 2^31-1 does not parse, and with a minus sign neither does any n > 2^31 |
| Text.ParseRejectsNonDigit | library/OrderCloud.Catalyst/Models/ListOptions/ListArgsBinder.cs:41 | A string holding a character that is neither a digit nor a leading sign does not parse, so "1x" is rejected |
| Text.ParseRejectsBareSign | library/OrderCloud.Catalyst/Models/ListOptions/ListArgsBinder.cs:41 | The empty string and a sign alone do not parse |

## Left out

- `VerifyAsync(HttpRequest, ...)` and reading the token from the request headers. This is request I/O; the model starts from the token string.
- Decoding the token (the `JwtOrderCloud` constructor). That type is not part of this model. Claims are an input, so nothing is claimed about malformed tokens.
- `Me.GetAsync`, `Certs.GetPublicKeyAsync`, `JWT.IsTokenCryptoValid` and `JWT.BuildOrderCloudClient`. These are network and crypto calls. They are the `Authority` record and the `build` function, given as parameters. An exception thrown by the crypto check itself is not modelled.
- The cache's one-day time-to-live, and its behaviour when several requests use it at once. The cache is a sequential map: entries leave it only by an explicit remove.
- `async`/`await`. Every call runs to completion in order.
- `DateTime.UtcNow`. It is the integer parameter `now`.
- `ListArgsModelBinder.BindModelAsync` and `ListArgsPageOnlyModelBinder.BindModelAsync`, `Activator.CreateInstance` and the reflection lookup of the `SearchType` property. These are framework glue. Whether the model has that property is the `hasSearchType` field.
- `ValidateAndNormalize`, which runs after binding. It is not part of this model. The defaults of a new `ListArgs` object are likewise not modelled: binding starts from whatever state the object has.
- Text.Lower: lower-cases ASCII letters to their invariant lower case and keeps every other character. `ToLower()` uses the current culture: under Turkish or Azerbaijani culture the ASCII `I` becomes the dotless `ı`, so keys such as `PAGESIZE` and user types such as `ADMIN` or `SUPPLIER` would miss their case labels there. That culture dependence, and the lower-casing of non-ASCII characters, are not modelled.
- Text.ParseInt: accepts only an optional sign followed by ASCII digits. Surrounding white space and culture-specific signs, which `int.TryParse` also accepts, are not modelled.
- ListOptions.ParseSearchType: matches member names only, exactly as given. `Enum.TryParse` also trims surrounding white space (so `" AnyTerm "` binds in the code but raises SearchTypeInvalid in the model) and accepts numeric and comma-separated forms; none of these is modelled.
- The query is a sequence of pairs that may repeat a key. ASP.NET's `IQueryCollection` holds one entry per key and compares keys case-insensitively, so `page` and `PAGE` are one entry. Its repeated values stay apart in a `StringValues` and are joined with commas only by `ToString()` or the implicit string conversion (ListArgsBinder.cs lines 38, 41, 47). That collection is framework code outside this model, and each pair here carries the single string the conversion yields. So the lemmas about "the last pair naming a key" also cover queries the binder never receives; for a real query that pair is the only one.
- `ListFilter`'s constructor `new ListFilter(key, value)` is declared outside the shown source and is not part of this model. The model treats a filter as a plain record of the key and the value as given.
- The `SearchType` enumeration comes from the OrderCloud SDK and is not part of this model. Its members are written out as the SDK declares them.
