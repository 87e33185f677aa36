/**
  The authorization decision common to both provider variants, written as a
  flat decision procedure over a taxonomy of denial reasons: take the token
  from the header, verify it, extract the provider's identity claim, look the
  identity up in the directory. Each variant's handler is proved equal to this
  procedure followed by the variant's own mapping from reasons to HTTP status.
 */
module Authorization {
  import opened PyValues

  /** A registered account; the handler answers with it as `{username, address, phone}`. */
  datatype Profile = Profile(username: string, address: string, phone: string)

  /** A verified token's claims, as a decoded JSON object. */
  type Claims = map<string, Value>

  /** The read-only directory of registered accounts, keyed by email or user name. */
  type Directory = map<string, Profile>

  /** What the handler does: answer with a stored profile, or `abort(code)`. */
  datatype Response = Ok(profile: Profile) | Abort(code: int)

  datatype DenialReason =
    | MissingToken           // no header, or an empty one
    | InvalidToken           // the verifier raised a ValueError
    | VerifierAbort(code: int) // the verifier raised an HTTP exception
    | VerifierFailure        // the verifier raised anything else
    | MissingClaim           // the identity claim is falsy
    | NotRegistered          // the identity is truthy, hashable and not a key
    | MalformedClaim         // the identity is a non-empty list or dict

  datatype Decision = Authorized(profile: Profile) | Denied(reason: DenialReason)

  /** `if not token` fails exactly for a missing or an empty header. */
  predicate TokenPresent(header: Option<string>)
    ensures TokenPresent(header) <==> header.Some? && header.value != ""
  {
    Truthy(FromOption(header))
  }

  /** The identity names a directory entry: a string that is literally one of its keys. */
  predicate IsKey(identity: Value, users: Directory)
  {
    identity.Str? && identity.s in users
  }

  /** The decision for one request. `verify` is the provider's token verifier as
      configured by the deployment, `identity` the provider's claim-extraction rule. */
  function Authorize(header: Option<string>, verify: string -> Flow<Claims>,
                     identity: Claims -> Value, users: Directory): (d: Decision)
    ensures d == Denied(MissingToken) <==> !TokenPresent(header)
    ensures d.Authorized? <==>
              TokenPresent(header) && verify(header.value).Return?
              && var id := identity(verify(header.value).value);
                 Truthy(id) && IsKey(id, users)
    ensures d.Authorized? ==>
              d.profile == users[identity(verify(header.value).value).s]
    ensures d == Denied(InvalidToken) <==>
              TokenPresent(header) && verify(header.value) == Raise(ValueError)
    ensures d == Denied(MissingClaim) <==>
              TokenPresent(header) && verify(header.value).Return?
              && !Truthy(identity(verify(header.value).value))
    ensures d == Denied(NotRegistered) <==>
              TokenPresent(header) && verify(header.value).Return?
              && var id := identity(verify(header.value).value);
                 Truthy(id) && Hashable(id) && !IsKey(id, users)
    ensures d == Denied(MalformedClaim) <==>
              TokenPresent(header) && verify(header.value).Return?
              && var id := identity(verify(header.value).value);
                 Truthy(id) && !Hashable(id)
    ensures d.Denied? && d.reason.VerifierAbort? <==>
              TokenPresent(header) && verify(header.value).Raise?
              && verify(header.value).exc.HttpException?
    ensures d.Denied? && d.reason.VerifierAbort? ==>
              verify(header.value) == Raise(HttpException(d.reason.code))
    ensures d == Denied(VerifierFailure) <==>
              TokenPresent(header) && verify(header.value).Raise?
              && verify(header.value).exc in {TypeError, OtherException}
  {
    if !TokenPresent(header) then Denied(MissingToken)
    else
      match verify(header.value)
      case Raise(ValueError) => Denied(InvalidToken)
      case Raise(HttpException(code)) => Denied(VerifierAbort(code))
      case Raise(_) => Denied(VerifierFailure)
      case Return(claims) =>
        var id := identity(claims);
        if !Truthy(id) then Denied(MissingClaim)
        else if !Hashable(id) then Denied(MalformedClaim)
        else if IsKey(id, users) then Authorized(users[id.s])
        else Denied(NotRegistered)
  }

  /** The HTTP answer for a decision under a variant's status policy. */
  function Render(d: Decision, status: DenialReason -> int): (r: Response)
    ensures r.Ok? <==> d.Authorized?
    ensures d.Authorized? ==> r.profile == d.profile
    ensures d.Denied? ==> r.code == status(d.reason)
  {
    match d
    case Authorized(p) => Ok(p)
    case Denied(reason) => Abort(status(reason))
  }

  /** The decision depends on the verifier only through its outcome for the
      header's own value, and not at all when the token is missing. */
  lemma AuthorizeDependsOnHeaderOutcome(header: Option<string>, v1: string -> Flow<Claims>,
                                        v2: string -> Flow<Claims>, identity: Claims -> Value,
                                        users: Directory)
    requires !TokenPresent(header) || v1(header.value) == v2(header.value)
    ensures Authorize(header, v1, identity, users) == Authorize(header, v2, identity, users)
  {
  }
}
