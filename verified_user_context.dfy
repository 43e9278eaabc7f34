/** `VerifiedUserContext`: verifies an OrderCloud bearer token and, once it has
    succeeded, exposes the token's claims to the request. Verification rejects
    an empty token, a token without a client ID or outside its validity window
    (the `nbf` and `exp` claims of sections 4.1.5 and 4.1.4 of RFC 7519), and a
    token the remote check finds invalid, then checks the required roles. The
    remote check's boolean is kept in a shared cache keyed by the raw token;
    a failure that is not the caller's fault is evicted right away. */
module UserAuth {
  import opened Wrappers
  import opened Text

  /** The claims of a decoded token (`JwtOrderCloud`). Instants are ticks of UTC time. */
  datatype Claims = Claims(
    username: string,
    clientID: Option<string>,
    keyID: Option<string>,
    roles: seq<string>,
    userType: Option<string>,
    expiresUtc: Option<int>,
    notValidBeforeUtc: Option<int>,
    anonOrderID: Option<string>,
    companyInteropID: Option<string>,
    impersonatingUserDatabaseID: Option<string>,
    apiUrl: string,
    authUrl: string)

  /** The user returned by `Me.GetAsync`. */
  datatype MeUser = MeUser(id: string, active: bool)

  /** Key material returned by `Certs.GetPublicKeyAsync`. */
  datatype PublicKey = PublicKey(modulus: string, exponent: string)

  /** How a remote call ends: with a value, or with one of the three kinds of
      exception the validator tells apart. */
  datatype Remote<+T> =
    | Returned(value: T)
    | OrderCloudFailure(message: string)
    | HttpFailure(status: Option<int>)
    | OtherFailure

  /** The remote authority as seen during one verification: the answers of
      `Me.GetAsync(token)` and `Certs.GetPublicKeyAsync(kid)`, and the offline
      signature check `JWT.IsTokenCryptoValid`. */
  datatype Authority = Authority(
    me: string -> Remote<Option<MeUser>>,
    publicKey: string -> Remote<PublicKey>,
    isTokenCryptoValid: (string, PublicKey) -> bool)

  /** What the cache's compute function ends with: a boolean (and whether it
      set the retry flag), or an `OrderCloudException` it rethrows. */
  datatype Validity = Decided(valid: bool, allowRetry: bool) | Rethrown(message: string)

  /** The exceptions `VerifyAsync` ends with. */
  datatype AuthError =
    | UnAuthorized
    | InsufficientRoles(sufficientRoles: seq<string>, assignedRoles: seq<string>)
    | OrderCloudError(message: string)

  /** The exceptions the claim accessors throw. */
  datatype AccessError = NoUserContext | UnknownUserType(userType: Option<string>)

  datatype CommerceRole = Buyer | Seller | Supplier

  /** An `IOrderCloudClient` built by `JWT.BuildOrderCloudClient`. */
  datatype Client = Client(handle: nat)

  // ---------------------------------------------------------------------------
  // The steps of VerifyAsync

  /** `string.IsNullOrEmpty`. */
  predicate IsNullOrEmpty(raw: Option<string>)
  {
    raw.None? || raw.value == ""
  }

  /** The structural check before the cache is consulted. A missing `nbf` or `exp`
      claim passes, since a lifted comparison with null is false; the comparisons
      are strict, so a token that expires exactly now still passes. */
  predicate StructurallyValid(c: Claims, now: int)
  {
    && c.clientID.Some?
    && !(c.notValidBeforeUtc.Some? && c.notValidBeforeUtc.value > now)
    && !(c.expiresUtc.Some? && c.expiresUtc.value < now)
  }

  /** A failure of the remote check that is neither an `OrderCloudException` nor an HTTP
      status below 500: a 5xx, a failure without a response, or any other exception. */
  predicate IsTransientFailure<T>(r: Remote<T>)
  {
    !r.Returned? && !r.OrderCloudFailure? && !IsClientError(r)
  }

  /** An HTTP failure whose response carries a status below 500. */
  predicate IsClientError<T>(r: Remote<T>)
  {
    r.HttpFailure? && r.status.Some? && r.status.value < 500
  }

  /** The catch clauses around the remote check. */
  function Caught<T>(failure: Remote<T>): (v: Validity)
    requires !failure.Returned?
    ensures v.Rethrown? <==> failure.OrderCloudFailure?
    ensures v.Rethrown? ==> v.message == failure.message
    ensures v.Decided? ==> !v.valid && (v.allowRetry <==> !IsClientError(failure))
  {
    match failure
    case OrderCloudFailure(message) => Rethrown(message)
    case HttpFailure(status) =>
      if status.Some? && status.value < 500 then Decided(false, false) else Decided(false, true)
    case OtherFailure => Decided(false, true)
  }

  predicate UserIsActive(r: Remote<Option<MeUser>>)
  {
    r.Returned? && r.value.Some? && r.value.value.active
  }

  predicate SignatureVerifies(raw: string, r: Remote<PublicKey>, remote: Authority)
  {
    r.Returned? && remote.isTokenCryptoValid(raw, r.value)
  }

  /** The compute function handed to the cache. A token without a key ID is valid
      when the user lookup returns an active user; a token with one when its
      signature checks against the fetched key. */
  function ComputeValidity(raw: string, c: Claims, remote: Authority): (v: Validity)
    ensures c.keyID.None? ==> (v == Decided(true, false) <==> UserIsActive(remote.me(raw)))
    ensures c.keyID.Some? ==>
      (v == Decided(true, false) <==> SignatureVerifies(raw, remote.publicKey(c.keyID.value), remote))
    ensures v.Decided? && v.valid ==> !v.allowRetry
    ensures c.keyID.None? ==> (v.Rethrown? <==> remote.me(raw).OrderCloudFailure?)
    ensures c.keyID.Some? ==> (v.Rethrown? <==> remote.publicKey(c.keyID.value).OrderCloudFailure?)
    ensures c.keyID.None? && remote.me(raw).Returned? ==> v == Decided(UserIsActive(remote.me(raw)), false)
    ensures c.keyID.Some? && remote.publicKey(c.keyID.value).Returned? ==>
      v == Decided(SignatureVerifies(raw, remote.publicKey(c.keyID.value), remote), false)
    ensures c.keyID.None? && !remote.me(raw).Returned? ==> v == Caught(remote.me(raw))
    ensures c.keyID.Some? && !remote.publicKey(c.keyID.value).Returned? ==> v == Caught(remote.publicKey(c.keyID.value))
  {
    if c.keyID.None? then
      var user := remote.me(raw);
      if user.Returned? then Decided(user.value.Some? && user.value.value.active, false)
      else Caught(user)
    else
      var key := remote.publicKey(c.keyID.value);
      if key.Returned? then Decided(remote.isTokenCryptoValid(raw, key.value), false)
      else Caught(key)
  }

  /** `requiredRoles` is null or empty, or shares a role with the token. */
  predicate RolesSatisfied(requiredRoles: Option<seq<string>>, tokenRoles: seq<string>)
  {
    requiredRoles.None? || |requiredRoles.value| == 0
    || exists role :: role in requiredRoles.value && role in tokenRoles
  }

  /** The validity the cache answers with: the stored one on a hit, the computed one on a miss. */
  predicate Validated(token: string, c: Claims, remote: Authority, cache: map<string, bool>)
  {
    if token in cache then cache[token] else ComputeValidity(token, c, remote) == Decided(true, false)
  }

  /** The result of one `VerifyAsync` call and the cache it leaves behind. */
  datatype Transition = Transition(outcome: Outcome<AuthError>, cache: map<string, bool>)

  /** `VerifyAsync(token, requiredRoles)` at time `now`, against a cache holding `cache`. */
  function Verify(raw: Option<string>, c: Claims, requiredRoles: Option<seq<string>>, now: int,
                  remote: Authority, cache: map<string, bool>): (t: Transition)
    ensures IsNullOrEmpty(raw) ==> t == Transition(Fail(UnAuthorized), cache)
    ensures !IsNullOrEmpty(raw) && !StructurallyValid(c, now) ==> t == Transition(Fail(UnAuthorized), cache)
    ensures t.outcome.Pass? <==>
      && !IsNullOrEmpty(raw) && StructurallyValid(c, now)
      && Validated(raw.value, c, remote, cache)
      && RolesSatisfied(requiredRoles, c.roles)
    ensures t.outcome.Fail? && t.outcome.error.InsufficientRoles? ==>
      && requiredRoles.Some? && |requiredRoles.value| > 0
      && t.outcome.error == InsufficientRoles(requiredRoles.value, c.roles)
      && forall role :: role in requiredRoles.value ==> role !in c.roles
    ensures && !IsNullOrEmpty(raw) && StructurallyValid(c, now)
            && !Validated(raw.value, c, remote, cache)
            && !(raw.value !in cache && ComputeValidity(raw.value, c, remote).Rethrown?)
            ==> t.outcome == Fail(UnAuthorized)
    ensures t.outcome.Fail? && t.outcome.error.OrderCloudError? <==>
      && !IsNullOrEmpty(raw) && StructurallyValid(c, now)
      && raw.value !in cache && ComputeValidity(raw.value, c, remote).Rethrown?
    ensures forall k :: k in cache && (raw.None? || k != raw.value) ==> k in t.cache && t.cache[k] == cache[k]
    ensures forall k :: k in t.cache ==> k in cache || (raw.Some? && k == raw.value)
  {
    if IsNullOrEmpty(raw) then Transition(Fail(UnAuthorized), cache)
    else if !StructurallyValid(c, now) then Transition(Fail(UnAuthorized), cache)
    else
      var token := raw.value;
      var v := if token in cache then Decided(cache[token], false) else ComputeValidity(token, c, remote);
      match v
      case Rethrown(message) => Transition(Fail(OrderCloudError(message)), cache)
      case Decided(valid, allowRetry) =>
        var stored := if token in cache then cache else cache[token := valid];
        var after := if allowRetry then stored - {token} else stored;
        if !valid then Transition(Fail(UnAuthorized), after)
        else if !RolesSatisfied(requiredRoles, c.roles) then
          Transition(Fail(InsufficientRoles(requiredRoles.value, c.roles)), after)
        else Transition(Pass, after)
  }

  // ---------------------------------------------------------------------------
  // The cache contract across calls

  /** On a cache hit the remote authority is not consulted: the outcome is the same
      whatever it would have answered, and the cache is left as it was. */
  lemma CacheHitSkipsValidator(raw: Option<string>, c: Claims, requiredRoles: Option<seq<string>>, now: int,
                               remote1: Authority, remote2: Authority, cache: map<string, bool>)
    requires !IsNullOrEmpty(raw) && raw.value in cache
    ensures Verify(raw, c, requiredRoles, now, remote1, cache) == Verify(raw, c, requiredRoles, now, remote2, cache)
    ensures Verify(raw, c, requiredRoles, now, remote1, cache).cache == cache
  {
  }

  /** On a miss whose check ends with a boolean and no retry flag, that boolean is stored
      under the token. */
  lemma MissStoresValidity(raw: Option<string>, c: Claims, requiredRoles: Option<seq<string>>, now: int,
                           remote: Authority, cache: map<string, bool>, valid: bool)
    requires !IsNullOrEmpty(raw) && StructurallyValid(c, now) && raw.value !in cache
    requires ComputeValidity(raw.value, c, remote) == Decided(valid, false)
    ensures Verify(raw, c, requiredRoles, now, remote, cache).cache == cache[raw.value := valid]
  {
  }

  /** An `OrderCloudException` from the remote check propagates unchanged, is not turned
      into `UnAuthorized`, and leaves nothing in the cache. */
  lemma OrderCloudErrorPropagates(raw: Option<string>, c: Claims, requiredRoles: Option<seq<string>>, now: int,
                                  remote: Authority, cache: map<string, bool>, message: string)
    requires !IsNullOrEmpty(raw) && StructurallyValid(c, now) && raw.value !in cache
    requires ComputeValidity(raw.value, c, remote) == Rethrown(message)
    ensures Verify(raw, c, requiredRoles, now, remote, cache) == Transition(Fail(OrderCloudError(message)), cache)
  {
  }

  /** A token whose remote check (the user lookup without a key ID, the key fetch with
      one) fails with a status below 500 is rejected, and the negative answer stays
      cached: every later call that passes the structural check, as long as the entry
      stays cached, is rejected without consulting the authority. */
  lemma ClientErrorStaysCached(raw: Option<string>, c: Claims, requiredRoles: Option<seq<string>>, now: int,
                               remote: Authority, cache: map<string, bool>,
                               laterRoles: Option<seq<string>>, later: int, laterRemote: Authority)
    requires !IsNullOrEmpty(raw) && StructurallyValid(c, now) && raw.value !in cache
    requires || (c.keyID.None? && IsClientError(remote.me(raw.value)))
             || (c.keyID.Some? && IsClientError(remote.publicKey(c.keyID.value)))
    requires StructurallyValid(c, later)
    ensures var t := Verify(raw, c, requiredRoles, now, remote, cache);
      && t == Transition(Fail(UnAuthorized), cache[raw.value := false])
      && Verify(raw, c, laterRoles, later, laterRemote, t.cache) == Transition(Fail(UnAuthorized), t.cache)
  {
  }

  /** A remote check that answers, but with a null or inactive user (no key ID) or a key
      that does not verify the signature (key ID), rejects the call and the negative
      answer stays cached: every later call that passes the structural check, as long
      as the entry stays cached, is rejected without consulting the authority. */
  lemma RejectedAnswerStaysCached(raw: Option<string>, c: Claims, requiredRoles: Option<seq<string>>, now: int,
                                  remote: Authority, cache: map<string, bool>,
                                  laterRoles: Option<seq<string>>, later: int, laterRemote: Authority)
    requires !IsNullOrEmpty(raw) && StructurallyValid(c, now) && raw.value !in cache
    requires || (c.keyID.None? && remote.me(raw.value).Returned? && !UserIsActive(remote.me(raw.value)))
             || (c.keyID.Some? && remote.publicKey(c.keyID.value).Returned?
                 && !SignatureVerifies(raw.value, remote.publicKey(c.keyID.value), remote))
    requires StructurallyValid(c, later)
    ensures var t := Verify(raw, c, requiredRoles, now, remote, cache);
      && t == Transition(Fail(UnAuthorized), cache[raw.value := false])
      && Verify(raw, c, laterRoles, later, laterRemote, t.cache) == Transition(Fail(UnAuthorized), t.cache)
  {
  }

  /** A transient failure of the remote check (the user lookup without a key ID, the key
      fetch with one) rejects this call but leaves the cache as it was, so the next call
      runs the check afresh. */
  lemma TransientFailureIsRetried(raw: Option<string>, c: Claims, requiredRoles: Option<seq<string>>, now: int,
                                  remote: Authority, cache: map<string, bool>,
                                  laterRoles: Option<seq<string>>, later: int, laterRemote: Authority)
    requires !IsNullOrEmpty(raw) && StructurallyValid(c, now) && raw.value !in cache
    requires || (c.keyID.None? && IsTransientFailure(remote.me(raw.value)))
             || (c.keyID.Some? && IsTransientFailure(remote.publicKey(c.keyID.value)))
    ensures var t := Verify(raw, c, requiredRoles, now, remote, cache);
      && t == Transition(Fail(UnAuthorized), cache)
      && Verify(raw, c, laterRoles, later, laterRemote, t.cache)
         == Verify(raw, c, laterRoles, later, laterRemote, cache)
  {
    assert cache[raw.value := false] - {raw.value} == cache;
  }

  /** After a successful verification the token is cached as valid, so a second call
      with the same token and roles succeeds without consulting the authority. */
  lemma SecondCallHitsCache(raw: Option<string>, c: Claims, requiredRoles: Option<seq<string>>, now: int,
                            remote: Authority, cache: map<string, bool>, laterRemote: Authority)
    requires Verify(raw, c, requiredRoles, now, remote, cache).outcome.Pass?
    ensures var t := Verify(raw, c, requiredRoles, now, remote, cache);
      && raw.value in t.cache && t.cache[raw.value]
      && Verify(raw, c, requiredRoles, now, laterRemote, t.cache) == Transition(Pass, t.cache)
  {
  }

  /** The role check on its own: a token that is valid, whether cached or validated by
      this call, but shares no role with a non-empty requirement is rejected with both
      role lists; the token's validity is still cached. */
  lemma DisjointRolesRejected(raw: Option<string>, c: Claims, required: seq<string>, now: int,
                              remote: Authority, cache: map<string, bool>)
    requires !IsNullOrEmpty(raw) && StructurallyValid(c, now) && Validated(raw.value, c, remote, cache)
    requires |required| > 0 && forall role :: role in required ==> role !in c.roles
    ensures Verify(raw, c, Some(required), now, remote, cache)
         == Transition(Fail(InsufficientRoles(required, c.roles)), cache[raw.value := true])
  {
    if raw.value in cache {
      assert cache[raw.value := true] == cache;
    }
  }

  // ---------------------------------------------------------------------------
  // Claims exposed after verification

  /** `GetCommerceRole`: the user type, in any letter case, picks the commerce role;
      any other user type, or none, is an error. */
  function GetCommerceRole(userType: Option<string>): (r: Result<CommerceRole, AccessError>)
    ensures r == Success(Buyer) <==> userType.Some? && Lower(userType.value) == "buyer"
    ensures r == Success(Seller) <==>
      userType.Some? && (Lower(userType.value) == "seller" || Lower(userType.value) == "admin")
    ensures r == Success(Supplier) <==> userType.Some? && Lower(userType.value) == "supplier"
    ensures r.Failure? ==> r.error == UnknownUserType(userType)
  {
    if userType.None? then Failure(UnknownUserType(userType))
    else
      var t := Lower(userType.value);
      if t == "buyer" then Success(Buyer)
      else if t == "seller" || t == "admin" then Success(Seller)
      else if t == "supplier" then Success(Supplier)
      else Failure(UnknownUserType(userType))
  }

  /** The commerce role depends on the user type only up to letter case (the error of
      an unknown user type quotes it as given). */
  lemma CommerceRoleIgnoresCase(a: string, b: string)
    requires EqualsIgnoreCase(a, b)
    ensures GetCommerceRole(Some(a)).Success? == GetCommerceRole(Some(b)).Success?
    ensures GetCommerceRole(Some(a)).Success? ==> GetCommerceRole(Some(a)).value == GetCommerceRole(Some(b)).value
  {
    assert Lower(a) == Lower(b);
  }

  /** "admin" and "seller" in any letter case are both sellers. */
  lemma AdminIsSeller()
    ensures GetCommerceRole(Some("Admin")) == Success(Seller)
    ensures GetCommerceRole(Some("SELLER")) == Success(Seller)
    ensures GetCommerceRole(Some("Buyer")) == Success(Buyer)
    ensures GetCommerceRole(Some("Supplier")) == Success(Supplier)
    ensures GetCommerceRole(Some("Anonymous")).Failure?
  {
    assert Lower("Admin") == "admin";
    assert Lower("SELLER") == "seller";
    assert Lower("Buyer") == "buyer";
    assert Lower("Supplier") == "supplier";
    assert Lower("Anonymous")[0] == 'a' && |Lower("Anonymous")| == 9;
  }

  // ---------------------------------------------------------------------------
  // The shared cache and the per-request context

  /** The shared `ISimpleCache`, holding one validity per raw token. */
  class SimpleCache {
    var entries: map<string, bool>

    constructor ()
      ensures entries == map[]
    {
      entries := map[];
    }

    method TryGet(key: string) returns (hit: Option<bool>)
      ensures hit.Some? <==> key in entries
      ensures hit.Some? ==> hit.value == entries[key]
    {
      hit := if key in entries then Some(entries[key]) else None;
    }

    method Add(key: string, value: bool)
      modifies this
      ensures entries == old(entries)[key := value]
    {
      entries := entries[key := value];
    }

    method Remove(key: string)
      modifies this
      ensures entries == old(entries) - {key}
    {
      entries := entries - {key};
    }
  }

  class VerifiedUserContext {
    /** The verified token, null until a verification has succeeded. */
    var token: Option<Claims>
    /** The memoised client, built on first access. */
    var ocClient: Option<Client>
    const cache: SimpleCache

    /** A client is only ever built from a verified token, and a verified token
        carries a client ID. */
    ghost predicate Valid()
      reads this
    {
      && (ocClient.Some? ==> token.Some?)
      && (token.Some? ==> token.value.clientID.Some?)
    }

    constructor (cache: SimpleCache)
      ensures Valid() && token.None? && ocClient.None? && this.cache == cache
    {
      token, ocClient := None, None;
      this.cache := cache;
    }

    /** `VerifyAsync(token, requiredRoles)`: the outcome and the new cache are those of
        `Verify`; the token is stored only on success, so a failing call leaves the
        previously verified token in place. */
    method VerifyAsync(raw: Option<string>, parsed: Claims, requiredRoles: Option<seq<string>>, now: int,
                       remote: Authority) returns (outcome: Outcome<AuthError>)
      requires Valid()
      modifies this, cache
      ensures Valid()
      ensures var t := Verify(raw, parsed, requiredRoles, now, remote, old(cache.entries));
        outcome == t.outcome && cache.entries == t.cache
      ensures token == (if outcome.Pass? then Some(parsed) else old(token))
      ensures ocClient == old(ocClient)
    {
      if raw.None? || raw.value == "" {
        return Fail(UnAuthorized);
      }
      var tokenText := raw.value;
      if parsed.clientID.None?
         || (parsed.notValidBeforeUtc.Some? && parsed.notValidBeforeUtc.value > now)
         || (parsed.expiresUtc.Some? && parsed.expiresUtc.value < now)
      {
        return Fail(UnAuthorized);
      }
      var allowValidateTokenRetry := false;
      var isValid: bool;
      var hit := cache.TryGet(tokenText);
      if hit.Some? {
        isValid := hit.value;
      } else {
        var v := ComputeValidity(tokenText, parsed, remote);
        if v.Rethrown? {
          return Fail(OrderCloudError(v.message));
        }
        isValid, allowValidateTokenRetry := v.valid, v.allowRetry;
        cache.Add(tokenText, isValid);
      }
      if allowValidateTokenRetry {
        cache.Remove(tokenText);
      }
      if !isValid {
        return Fail(UnAuthorized);
      }
      if !RolesSatisfied(requiredRoles, parsed.roles) {
        return Fail(InsufficientRoles(requiredRoles.value, parsed.roles));
      }
      token := Some(parsed);
      return Pass;
    }

    /** `GetToken`: the verified token, or `NoUserContext` before verification. */
    function GetToken(): (r: Result<Claims, AccessError>)
      reads this
      ensures r.Success? <==> token.Some?
      ensures r.Success? ==> r.value == token.value
      ensures r.Failure? ==> r.error == NoUserContext
    {
      if token.Some? then Success(token.value) else Failure(NoUserContext)
    }

    function Username(): (r: Result<string, AccessError>)
      reads this
      ensures token.None? ==> r == Failure(NoUserContext)
      ensures token.Some? ==> r == Success(token.value.username)
    {
      match GetToken()
      case Success(t) => Success(t.username)
      case Failure(e) => Failure(e)
    }

    /** An anonymous shopper's token carries an anonymous order ID. */
    function IsAnonUser(): (r: Result<bool, AccessError>)
      reads this
      ensures token.None? ==> r == Failure(NoUserContext)
      ensures token.Some? ==> r == Success(token.value.anonOrderID.Some?)
    {
      match GetToken()
      case Success(t) => Success(t.anonOrderID.Some?)
      case Failure(e) => Failure(e)
    }

    /** A token issued by the portal carries a company interop ID. */
    function IsPortalIssuedToken(): (r: Result<bool, AccessError>)
      reads this
      ensures token.None? ==> r == Failure(NoUserContext)
      ensures token.Some? ==> r == Success(token.value.companyInteropID.Some?)
    {
      match GetToken()
      case Success(t) => Success(t.companyInteropID.Some?)
      case Failure(e) => Failure(e)
    }

    /** An impersonation token carries the impersonating user's database ID. */
    function IsImpersonationToken(): (r: Result<bool, AccessError>)
      reads this
      ensures token.None? ==> r == Failure(NoUserContext)
      ensures token.Some? ==> r == Success(token.value.impersonatingUserDatabaseID.Some?)
    {
      match GetToken()
      case Success(t) => Success(t.impersonatingUserDatabaseID.Some?)
      case Failure(e) => Failure(e)
    }

    /** The token's roles, in the token's order. */
    function AvailableRoles(): (r: Result<seq<string>, AccessError>)
      reads this
      ensures token.None? ==> r == Failure(NoUserContext)
      ensures token.Some? ==> r == Success(token.value.roles)
    {
      match GetToken()
      case Success(t) => Success(t.roles)
      case Failure(e) => Failure(e)
    }

    /** The commerce role of the token's user type; `NoUserContext` before verification. */
    function CommerceRole(): (r: Result<CommerceRole, AccessError>)
      reads this
      ensures token.None? ==> r == Failure(NoUserContext)
      ensures token.Some? ==> r == GetCommerceRole(token.value.userType)
    {
      match GetToken()
      case Success(t) => GetCommerceRole(t.userType)
      case Failure(e) => Failure(e)
    }

    function TokenApiUrl(): (r: Result<string, AccessError>)
      reads this
      ensures token.None? ==> r == Failure(NoUserContext)
      ensures token.Some? ==> r == Success(token.value.apiUrl)
    {
      match GetToken()
      case Success(t) => Success(t.apiUrl)
      case Failure(e) => Failure(e)
    }

    function TokenAuthUrl(): (r: Result<string, AccessError>)
      reads this
      ensures token.None? ==> r == Failure(NoUserContext)
      ensures token.Some? ==> r == Success(token.value.authUrl)
    {
      match GetToken()
      case Success(t) => Success(t.authUrl)
      case Failure(e) => Failure(e)
    }

    /** The client ID of a verified token, which verification has checked is present. */
    function TokenClientID(): (r: Result<Option<string>, AccessError>)
      requires Valid()
      reads this
      ensures r.Success? ==> r.value.Some?
      ensures token.None? ==> r == Failure(NoUserContext)
      ensures token.Some? ==> r == Success(token.value.clientID)
    {
      match GetToken()
      case Success(t) => Success(t.clientID)
      case Failure(e) => Failure(e)
    }

    /** The expiry instant; `NoUserContext` also when the token has none. */
    function TokenExpiresUtc(): (r: Result<int, AccessError>)
      reads this
      ensures r.Failure? <==> token.None? || token.value.expiresUtc.None?
      ensures r.Failure? ==> r.error == NoUserContext
      ensures r.Success? ==> r.value == token.value.expiresUtc.value
    {
      match GetToken()
      case Success(t) => if t.expiresUtc.Some? then Success(t.expiresUtc.value) else Failure(NoUserContext)
      case Failure(e) => Failure(e)
    }

    /** The not-valid-before instant; `NoUserContext` also when the token has none. */
    function TokenNotValidBeforeUtc(): (r: Result<int, AccessError>)
      reads this
      ensures r.Failure? <==> token.None? || token.value.notValidBeforeUtc.None?
      ensures r.Failure? ==> r.error == NoUserContext
      ensures r.Success? ==> r.value == token.value.notValidBeforeUtc.value
    {
      match GetToken()
      case Success(t) =>
        if t.notValidBeforeUtc.Some? then Success(t.notValidBeforeUtc.value) else Failure(NoUserContext)
      case Failure(e) => Failure(e)
    }

    /** The `OcClient` getter: builds the client from the verified token on first access
        and returns that same client on every later access, even after a later
        verification of another token. */
    method OcClient(build: Claims -> Client) returns (r: Result<Client, AccessError>)
      requires Valid()
      modifies this`ocClient
      ensures Valid()
      ensures old(ocClient).Some? ==> r == Success(old(ocClient).value) && ocClient == old(ocClient)
      ensures old(ocClient).None? && token.Some? ==>
        r == Success(build(token.value)) && ocClient == Some(build(token.value))
      ensures token.None? ==> r == Failure(NoUserContext) && ocClient.None?
    {
      if ocClient.None? {
        var t := GetToken();
        if t.Failure? {
          return Failure(t.error);
        }
        ocClient := Some(build(t.value));
      }
      return Success(ocClient.value);
    }
  }
}
