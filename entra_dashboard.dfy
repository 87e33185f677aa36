/**
  The `/api/dashboard` handler of the Microsoft EntraID variant. `verify_token`
  looks up the signing key the token names in the provider's key set and has
  PyJWT decode the token with that key, accepting RS256 only and requiring the
  configured application identifier as audience. The identity is
  `preferred_username`, or `upn` when that is falsy. Every failure, including
  an unregistered identity, is answered with 401.
 */
module EntraDashboard {
  import opened PyValues
  import opened Authorization

  /** The audience every token must be issued for (`MICROSOFT_CLIENT_ID`). */
  const MicrosoftClientId: string := "YOUR_MICROSOFT_CLIENT_ID"

  /** The only signature algorithm `jwt.decode` is allowed to accept. */
  const AcceptedAlgorithms: seq<string> := ["RS256"]

  /** The deployed directory (`registered_users`), keyed by user principal name. */
  const RegisteredUsers: Directory := map[
    "user1@domain.com" := Profile("User1", "100 First St, CityA", "111-111-1111"),
    "user2@domain.com" := Profile("User2", "200 Second St, CityB", "222-222-2222"),
    "user3@domain.com" := Profile("User3", "300 Third St, CityC", "333-333-3333"),
    "user4@domain.com" := Profile("User4", "400 Fourth St, CityD", "444-444-4444"),
    "user5@domain.com" := Profile("User5", "500 Fifth St, CityE", "555-555-5555")
  ]

  /** A key of the provider's key set, as `PyJWKClient` hands it out. */
  datatype SigningKey = SigningKey(key: seq<bv8>)

  /** `jwks_client.get_signing_key_from_jwt(token)`: the key named by the token's
      key identifier, or an exception (unknown key, network failure). */
  type KeyResolver = string -> Flow<SigningKey>

  /** `jwt.decode(token, key, algorithms=..., audience=...)`: the signature,
      algorithm, audience and expiry checks of a library that is not modelled. */
  type Decoder = (string, seq<bv8>, seq<string>, string) -> Flow<Claims>

  /** `verify_token(token)`: every outcome is one of the two library calls',
      made with the token's own key, RS256 only and the configured audience;
      an exception from either call propagates unchanged. */
  function VerifyToken(token: string, resolve: KeyResolver, decode: Decoder): (r: Flow<Claims>)
    ensures r.Return? ==>
              && resolve(token).Return?
              && r == decode(token, resolve(token).value.key, ["RS256"], MicrosoftClientId)
    ensures r.Raise? ==>
              || resolve(token) == Raise(r.exc)
              || (&& resolve(token).Return?
                  && decode(token, resolve(token).value.key, ["RS256"], MicrosoftClientId) == r)
    ensures resolve(token).Raise? ==> r == Raise(resolve(token).exc)
  {
    match resolve(token)
    case Raise(e) => Raise(e)
    case Return(signingKey) =>
      match decode(token, signingKey.key, AcceptedAlgorithms, MicrosoftClientId)
      case Raise(e) => Raise(e)
      case Return(decoded) => Return(decoded)
  }

  /** The identity rule of this variant:
      `decoded.get("preferred_username") or decoded.get("upn")`. */
  function UsernameClaim(decoded: Claims): (id: Value)
    ensures Truthy(DictGet(decoded, "preferred_username")) ==>
              id == decoded["preferred_username"]
    ensures !Truthy(DictGet(decoded, "preferred_username")) ==> id == DictGet(decoded, "upn")
    ensures Truthy(id) <==>
              Truthy(DictGet(decoded, "preferred_username")) || Truthy(DictGet(decoded, "upn"))
  {
    Or(DictGet(decoded, "preferred_username"), DictGet(decoded, "upn"))
  }

  /** The body of the `try` block, from `verify_token` to `return`. */
  function TryBlock(token: string, resolve: KeyResolver, decode: Decoder,
                    users: Directory): (r: Flow<Profile>)
    ensures VerifyToken(token, resolve, decode).Raise? ==>
              r == Raise(VerifyToken(token, resolve, decode).exc)
    ensures r.Return? <==>
              && VerifyToken(token, resolve, decode).Return?
              && var id := UsernameClaim(VerifyToken(token, resolve, decode).value);
                 Truthy(id) && IsKey(id, users)
    ensures r.Return? ==>
              r.value == users[UsernameClaim(VerifyToken(token, resolve, decode).value).s]
    ensures VerifyToken(token, resolve, decode).Return? ==>
              var id := UsernameClaim(VerifyToken(token, resolve, decode).value);
              && (!Truthy(id) ==> r == Raise(HttpException(401)))
              && (Truthy(id) && !Hashable(id) ==> r == Raise(TypeError))
              && (Truthy(id) && Hashable(id) && !IsKey(id, users) ==>
                    r == Raise(HttpException(401)))
  {
    match VerifyToken(token, resolve, decode)
    case Raise(e) => Raise(e)
    case Return(decoded) =>
      var userEmail := UsernameClaim(decoded);
      if !Truthy(userEmail) then Raise(HttpException(401))
      else
        match DictContains(users, userEmail)
        case Raise(e) => Raise(e)
        case Return(found) =>
          if !found then Raise(HttpException(401))
          else Return(users[userEmail.s])
  }

  /** The single `except Exception` clause: every exception, the handler's own
      `abort(401)` included, becomes 401. */
  function ExceptClause(outcome: Flow<Profile>): (r: Response)
    ensures r.Ok? <==> outcome.Return?
    ensures r.Ok? ==> r.profile == outcome.value
    ensures outcome.Raise? ==> r == Abort(401)
  {
    match outcome
    case Return(p) => Ok(p)
    case Raise(_) => Abort(401)
  }

  /** This variant's status for each denial reason. */
  function StatusPolicy(reason: DenialReason): (code: int)
    ensures code == 401
  {
    401
  }

  /** `dashboard()`: the handler's answer to a request carrying `header`. */
  function Dashboard(header: Option<string>, resolve: KeyResolver, decode: Decoder,
                     users: Directory): (r: Response)
    ensures r == Render(Authorize(header, t => VerifyToken(t, resolve, decode),
                                  UsernameClaim, users),
                        StatusPolicy)
    ensures r.Ok? || r == Abort(401)
    ensures r.Ok? ==>
              && TokenPresent(header)
              && resolve(header.value).Return?
              && var decoded := decode(header.value, resolve(header.value).value.key,
                                       ["RS256"], MicrosoftClientId);
                 && decoded.Return?
                 && var id := UsernameClaim(decoded.value);
                    IsKey(id, users) && r.profile == users[id.s]
  {
    if !TokenPresent(header) then Abort(401)
    else ExceptClause(TryBlock(header.value, resolve, decode, users))
  }

  /** A missing or empty header is answered with 401 whatever the key set and the
      decoder would have said: `verify_token` is not called. */
  lemma MissingTokenSkipsVerifier(header: Option<string>, r1: KeyResolver, d1: Decoder,
                                  r2: KeyResolver, d2: Decoder, users: Directory)
    requires !TokenPresent(header)
    ensures Dashboard(header, r1, d1, users) == Abort(401)
    ensures Dashboard(header, r1, d1, users) == Dashboard(header, r2, d2, users)
  {
  }

  /** A verified token whose identity is unusable or not a directory key is
      answered with 401, as is every exception along the way. */
  lemma UnregisteredIdentityIs401(header: Option<string>, resolve: KeyResolver,
                                  decode: Decoder, users: Directory, decoded: Claims)
    requires TokenPresent(header)
    requires VerifyToken(header.value, resolve, decode) == Return(decoded)
    requires !Truthy(UsernameClaim(decoded)) || !IsKey(UsernameClaim(decoded), users)
    ensures Dashboard(header, resolve, decode, users) == Abort(401)
  {
  }

  /** A token verified without either identity claim is refused with 401 and
      does not crash the handler. */
  lemma NoIdentityClaimIs401(header: Option<string>, resolve: KeyResolver,
                             decode: Decoder, users: Directory, decoded: Claims)
    requires TokenPresent(header)
    requires VerifyToken(header.value, resolve, decode) == Return(decoded)
    requires "preferred_username" !in decoded && "upn" !in decoded
    ensures Dashboard(header, resolve, decode, users) == Abort(401)
  {
  }

  /** A registered identity is answered with exactly the stored profile. */
  lemma RegisteredIdentityGetsStoredProfile(header: Option<string>, resolve: KeyResolver,
                                            decode: Decoder, users: Directory,
                                            decoded: Claims, name: string)
    requires TokenPresent(header)
    requires VerifyToken(header.value, resolve, decode) == Return(decoded)
    requires UsernameClaim(decoded) == Str(name) && name != "" && name in users
    ensures Dashboard(header, resolve, decode, users) == Ok(users[name])
  {
  }

  /** `upn` is consulted only when `preferred_username` is falsy: with both
      present, a `upn` that is a directory key does not rescue an unregistered
      `preferred_username`. */
  lemma PreferredUsernameTakesPrecedence(header: Option<string>, resolve: KeyResolver,
                                         decode: Decoder, users: Directory, decoded: Claims)
    requires TokenPresent(header)
    requires VerifyToken(header.value, resolve, decode) == Return(decoded)
    requires "preferred_username" in decoded && decoded["preferred_username"].Str?
    requires decoded["preferred_username"].s != "" && decoded["preferred_username"].s !in users
    ensures Dashboard(header, resolve, decode, users) == Abort(401)
  {
  }

  /** The decoder's promise that it accepts only tokens signed with one of the
      algorithms it is given, where `headerAlg` reads a token's declared algorithm. */
  ghost predicate EnforcesAlgorithms(decode: Decoder, headerAlg: string -> string)
  {
    forall token, key, algorithms, audience ::
      decode(token, key, algorithms, audience).Return? ==> headerAlg(token) in algorithms
  }

  /** If the decoder keeps its promise, a served request carried an RS256 token:
      a token declaring any other algorithm (a symmetric one, say) is refused. */
  lemma ServedTokensAreRs256(header: Option<string>, resolve: KeyResolver, decode: Decoder,
                             headerAlg: string -> string, users: Directory)
    requires EnforcesAlgorithms(decode, headerAlg)
    requires Dashboard(header, resolve, decode, users).Ok?
    ensures TokenPresent(header) && headerAlg(header.value) == "RS256"
  {
  }

  /** The deployed configuration: the five registered user names, compared as
      they are written, and the placeholder audience that tokens must carry. */
  lemma DeployedConfiguration(header: Option<string>, resolve: KeyResolver, decode: Decoder)
    requires TokenPresent(header)
    requires VerifyToken(header.value, resolve, decode) ==
             Return(map["upn" := Str("user3@domain.com")])
    ensures RegisteredUsers.Keys == {"user1@domain.com", "user2@domain.com", "user3@domain.com",
                                     "user4@domain.com", "user5@domain.com"}
    ensures Dashboard(header, resolve, decode, RegisteredUsers) ==
            Ok(Profile("User3", "300 Third St, CityC", "333-333-3333"))
    ensures Dashboard(header, resolve, decode, RegisteredUsers).Ok? ==>
            decode(header.value, resolve(header.value).value.key,
                   ["RS256"], "YOUR_MICROSOFT_CLIENT_ID").Return?
  {
  }

  /** Every registered account can be served: for any present token some outcome
      of the key lookup and the decoder leads to that account's profile. */
  lemma EveryAccountReachable(header: Option<string>, users: Directory, name: string)
    requires TokenPresent(header) && name in users && name != ""
    ensures exists resolve: KeyResolver, decode: Decoder ::
              Dashboard(header, resolve, decode, users) == Ok(users[name])
  {
    var resolve: KeyResolver := t => Return(SigningKey([]));
    var decode: Decoder := (t, k, algs, aud) => Return(map["preferred_username" := Str(name)]);
    assert Dashboard(header, resolve, decode, users) == Ok(users[name]);
  }
}
