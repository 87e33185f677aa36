/**
  The `/api/dashboard` handler of the Google ID-token variant. The raw
  `Authorization` header is handed to Google's `verify_oauth2_token` with the
  configured client identifier as audience; the verified `email` claim is looked
  up in the directory. The handler tells failures apart: 401 for a missing
  token, a rejected token or a missing email, 403 for an authenticated but
  unregistered email, 500 for any other failure; an HTTP exception raised by
  the verifier itself keeps its own status.
 */
module GoogleDashboard {
  import opened PyValues
  import opened Authorization

  /** The audience every token must be issued for (`GOOGLE_CLIENT_ID`). */
  const GoogleClientId: string :=
    "573154595273-f5anosm6qld1mg1vgqqiv7rdvvp5p6sm.apps.googleusercontent.com"

  /** The deployed directory (`registered_users`), keyed by email. */
  const RegisteredUsers: Directory := map[
    "xyz@gmail.com" := Profile("User1", "100 First St, CityA", "111-111-1111"),
    "user2@example.com" := Profile("User2", "200 Second St, CityB", "222-222-2222"),
    "user3@example.com" := Profile("User3", "300 Third St, CityC", "333-333-3333"),
    "user4@example.com" := Profile("User4", "400 Fourth St, CityD", "444-444-4444"),
    "user5@example.com" := Profile("User5", "500 Fifth St, CityE", "555-555-5555")
  ]

  /** `id_token.verify_oauth2_token(token, request, audience)`: the signature,
      issuer, audience and expiry checks of a library that is not modelled; it
      returns the token's claims or raises. */
  type Verifier = (string, string) -> Flow<Claims>

  /** The identity rule of this variant: `idinfo.get("email")`. */
  function EmailClaim(idinfo: Claims): (email: Value)
    ensures "email" in idinfo ==> email == idinfo["email"]
    ensures "email" !in idinfo ==> email == Null
  {
    DictGet(idinfo, "email")
  }

  /** The body of the `try` block, from the verifier call to `return`; `abort`
      inside it raises an `HttpException`. */
  function TryBlock(token: string, verify: Verifier, users: Directory): (r: Flow<Profile>)
    ensures verify(token, GoogleClientId).Raise? ==> r == Raise(verify(token, GoogleClientId).exc)
    ensures r.Return? <==>
              && verify(token, GoogleClientId).Return?
              && var email := EmailClaim(verify(token, GoogleClientId).value);
                 Truthy(email) && IsKey(email, users)
    ensures r.Return? ==> r.value == users[EmailClaim(verify(token, GoogleClientId).value).s]
    ensures verify(token, GoogleClientId).Return? ==>
              var email := EmailClaim(verify(token, GoogleClientId).value);
              && (!Truthy(email) ==> r == Raise(HttpException(401)))
              && (Truthy(email) && !Hashable(email) ==> r == Raise(TypeError))
              && (Truthy(email) && Hashable(email) && !IsKey(email, users) ==>
                    r == Raise(HttpException(403)))
  {
    match verify(token, GoogleClientId)
    case Raise(e) => Raise(e)
    case Return(idinfo) =>
      var userEmail := EmailClaim(idinfo);
      if !Truthy(userEmail) then Raise(HttpException(401))
      else
        match DictContains(users, userEmail)
        case Raise(e) => Raise(e)
        case Return(found) =>
          if !found then Raise(HttpException(403))
          else Return(users[userEmail.s])
  }

  /** The three `except` clauses, tried in order: an `HttpException` is re-raised
      with its own status, a `ValueError` becomes 401, anything else 500. */
  function ExceptClauses(outcome: Flow<Profile>): (r: Response)
    ensures r.Ok? <==> outcome.Return?
    ensures r.Ok? ==> r.profile == outcome.value
    ensures outcome.Raise? && outcome.exc.HttpException? ==> r == Abort(outcome.exc.code)
    ensures outcome == Raise(ValueError) ==> r == Abort(401)
    ensures outcome == Raise(TypeError) || outcome == Raise(OtherException) ==> r == Abort(500)
    ensures r.Abort? ==> r.code in {401, 500} || outcome == Raise(HttpException(r.code))
  {
    match outcome
    case Return(p) => Ok(p)
    case Raise(HttpException(code)) => Abort(code)
    case Raise(ValueError) => Abort(401)
    case Raise(_) => Abort(500)
  }

  /** This variant's status for each denial reason. */
  function StatusPolicy(reason: DenialReason): (code: int)
    ensures reason.VerifierAbort? ==> code == reason.code
    ensures !reason.VerifierAbort? ==>
              && code in {401, 403, 500}
              && (code == 403 <==> reason == NotRegistered)
              && (code == 500 <==> reason in {VerifierFailure, MalformedClaim})
  {
    match reason
    case MissingToken => 401
    case InvalidToken => 401
    case VerifierAbort(code) => code
    case VerifierFailure => 500
    case MissingClaim => 401
    case NotRegistered => 403
    case MalformedClaim => 500
  }

  /** `dashboard()`: the handler's answer to a request carrying `header`. */
  function Dashboard(header: Option<string>, verify: Verifier, users: Directory): (r: Response)
    ensures r == Render(Authorize(header, t => verify(t, GoogleClientId), EmailClaim, users),
                        StatusPolicy)
    ensures !TokenPresent(header) ==> r == Abort(401)
    ensures r.Ok? ==>
              && TokenPresent(header)
              && verify(header.value, GoogleClientId).Return?
              && var email := EmailClaim(verify(header.value, GoogleClientId).value);
                 IsKey(email, users) && r.profile == users[email.s]
    ensures r.Abort? ==>
              r.code in {401, 403, 500}
              || verify(header.value, GoogleClientId) == Raise(HttpException(r.code))
  {
    if !TokenPresent(header) then Abort(401)
    else ExceptClauses(TryBlock(header.value, verify, users))
  }

  /** A missing or empty header is answered with 401 whatever the verifier would
      have said: the verifier is not called. */
  lemma MissingTokenSkipsVerifier(header: Option<string>, v1: Verifier, v2: Verifier,
                                  users: Directory)
    requires !TokenPresent(header)
    ensures Dashboard(header, v1, users) == Abort(401)
    ensures Dashboard(header, v1, users) == Dashboard(header, v2, users)
  {
  }

  /** The answer depends on the verifier only through one outcome: the one for
      the raw header as the token and the configured client identifier as the
      audience. */
  lemma VerifierCalledWithClientId(header: Option<string>, v1: Verifier, v2: Verifier,
                                   users: Directory)
    requires TokenPresent(header)
    requires v1(header.value, GoogleClientId) == v2(header.value, GoogleClientId)
    ensures Dashboard(header, v1, users) == Dashboard(header, v2, users)
  {
  }

  /** A token the verifier rejects with a `ValueError`, however the library
      classifies its failures, is answered with 401. */
  lemma RejectedTokenIs401(header: Option<string>, verify: Verifier, users: Directory)
    requires TokenPresent(header)
    requires verify(header.value, GoogleClientId) == Raise(ValueError)
    ensures Dashboard(header, verify, users) == Abort(401)
  {
  }

  /** A verified token without a usable `email` claim is answered with 401, not
      500: the `HttpException` raised in the `try` block keeps its status. */
  lemma MissingEmailIs401(header: Option<string>, verify: Verifier, users: Directory,
                          idinfo: Claims)
    requires TokenPresent(header)
    requires verify(header.value, GoogleClientId) == Return(idinfo)
    requires !Truthy(EmailClaim(idinfo))
    ensures Dashboard(header, verify, users) == Abort(401)
  {
  }

  /** A verified email that is not a directory key is answered with 403. */
  lemma UnregisteredEmailIs403(header: Option<string>, verify: Verifier, users: Directory,
                               idinfo: Claims)
    requires TokenPresent(header)
    requires verify(header.value, GoogleClientId) == Return(idinfo)
    requires Truthy(EmailClaim(idinfo)) && Hashable(EmailClaim(idinfo))
    requires !IsKey(EmailClaim(idinfo), users)
    ensures Dashboard(header, verify, users) == Abort(403)
  {
  }

  /** A verified email that is a directory key is answered with exactly the
      stored profile. */
  lemma RegisteredEmailGetsStoredProfile(header: Option<string>, verify: Verifier,
                                         users: Directory, idinfo: Claims, email: string)
    requires TokenPresent(header)
    requires verify(header.value, GoogleClientId) == Return(idinfo)
    requires EmailClaim(idinfo) == Str(email) && email != "" && email in users
    ensures Dashboard(header, verify, users) == Ok(users[email])
  {
  }

  /** Any other exception from the verifier is answered with 500, and so is an
      `email` claim that is a non-empty list or dict (the membership test raises
      `TypeError`). An `HttpException` from the verifier keeps its status. */
  lemma UnexpectedFailureIs500(header: Option<string>, verify: Verifier, users: Directory)
    requires TokenPresent(header)
    requires || verify(header.value, GoogleClientId) == Raise(TypeError)
             || verify(header.value, GoogleClientId) == Raise(OtherException)
             || (&& verify(header.value, GoogleClientId).Return?
                 && var email := EmailClaim(verify(header.value, GoogleClientId).value);
                    Truthy(email) && !Hashable(email))
    ensures Dashboard(header, verify, users) == Abort(500)
  {
  }

  /** Directory matching is exact: with the deployed directory, an upper-case
      variant of a registered email is refused while the email itself is served. */
  lemma MatchingIsCaseSensitive(header: Option<string>, upper: Verifier, lower: Verifier)
    requires TokenPresent(header)
    requires upper(header.value, GoogleClientId) == Return(map["email" := Str("XYZ@gmail.com")])
    requires lower(header.value, GoogleClientId) == Return(map["email" := Str("xyz@gmail.com")])
    ensures Dashboard(header, upper, RegisteredUsers) == Abort(403)
    ensures Dashboard(header, lower, RegisteredUsers) ==
            Ok(Profile("User1", "100 First St, CityA", "111-111-1111"))
  {
  }

  /** The deployed configuration: the five registered emails, compared as they
      are written, and the profile the handler serves for `user3@example.com`. */
  lemma DeployedConfiguration(header: Option<string>, verify: Verifier)
    requires TokenPresent(header)
    requires verify(header.value, GoogleClientId) ==
             Return(map["email" := Str("user3@example.com")])
    ensures RegisteredUsers.Keys == {"xyz@gmail.com", "user2@example.com", "user3@example.com",
                                     "user4@example.com", "user5@example.com"}
    ensures Dashboard(header, verify, RegisteredUsers) ==
            Ok(Profile("User3", "300 Third St, CityC", "333-333-3333"))
  {
  }

  /** Every registered account can be served: for any present token some verifier
      outcome leads to that account's profile. */
  lemma EveryAccountReachable(header: Option<string>, users: Directory, email: string)
    requires TokenPresent(header) && email in users && email != ""
    ensures exists verify: Verifier :: Dashboard(header, verify, users) == Ok(users[email])
  {
    var verify: Verifier := (t, aud) => Return(map["email" := Str(email)]);
    assert Dashboard(header, verify, users) == Ok(users[email]);
  }
}
