/**
  How the two provider variants compare. When their verifiers and identity
  rules agree on a token they make the same decision; they part only in the
  status they give some denials, most visibly the authenticated identity that
  the directory does not know: 403 for the Google variant, 401 for the EntraID
  variant.
 */
module Variants {
  import opened PyValues
  import opened Authorization
  import Google = GoogleDashboard
  import Entra = EntraDashboard

  /** For a token both verifiers accept with a non-empty, unregistered identity,
      the Google handler answers 403 and the EntraID handler 401. */
  lemma UnregisteredStatusDiffers(header: Option<string>, verify: Google.Verifier,
                                  resolve: Entra.KeyResolver, decode: Entra.Decoder,
                                  googleUsers: Directory, entraUsers: Directory,
                                  claims: Claims, identity: string)
    requires TokenPresent(header)
    requires verify(header.value, Google.GoogleClientId) == Return(claims)
    requires Entra.VerifyToken(header.value, resolve, decode) == Return(claims)
    requires Google.EmailClaim(claims) == Str(identity)
    requires Entra.UsernameClaim(claims) == Str(identity)
    requires identity != "" && identity !in googleUsers && identity !in entraUsers
    ensures Google.Dashboard(header, verify, googleUsers) == Abort(403)
    ensures Entra.Dashboard(header, resolve, decode, entraUsers) == Abort(401)
  {
  }

  /** Both variants reach the same decision whenever their verifiers and identity
      rules agree on the token: only the status of a denial can differ, and it
      differs on an unregistered identity. */
  lemma SameDecisionDifferentPolicy(header: Option<string>, verify: Google.Verifier,
                                    resolve: Entra.KeyResolver, decode: Entra.Decoder,
                                    users: Directory)
    requires TokenPresent(header) ==>
               && verify(header.value, Google.GoogleClientId)
                  == Entra.VerifyToken(header.value, resolve, decode)
               && (verify(header.value, Google.GoogleClientId).Return? ==>
                     var claims := verify(header.value, Google.GoogleClientId).value;
                     Google.EmailClaim(claims) == Entra.UsernameClaim(claims))
    ensures Google.Dashboard(header, verify, users).Ok? <==>
            Entra.Dashboard(header, resolve, decode, users).Ok?
    ensures Google.Dashboard(header, verify, users).Ok? ==>
            Google.Dashboard(header, verify, users) == Entra.Dashboard(header, resolve, decode, users)
    ensures Google.Dashboard(header, verify, users).Abort? ==>
            && Entra.Dashboard(header, resolve, decode, users) == Abort(401)
            && var d := Authorize(header, t => verify(t, Google.GoogleClientId),
                                  Google.EmailClaim, users);
               d.Denied? && Google.Dashboard(header, verify, users).code == Google.StatusPolicy(d.reason)
    ensures Authorize(header, t => verify(t, Google.GoogleClientId), Google.EmailClaim, users)
              == Denied(NotRegistered) ==>
            && Google.Dashboard(header, verify, users) == Abort(403)
            && Entra.Dashboard(header, resolve, decode, users) == Abort(401)
  {
  }

  /** Neither variant ever serves a directory entry keyed by the empty string:
      an empty identity is falsy and is refused before the lookup, with 401 in
      both variants, even when the directory has that key. */
  lemma EmptyKeyNeverServed(header: Option<string>, verify: Google.Verifier,
                            resolve: Entra.KeyResolver, decode: Entra.Decoder,
                            users: Directory)
    requires TokenPresent(header)
    ensures verify(header.value, Google.GoogleClientId).Return?
            && Google.EmailClaim(verify(header.value, Google.GoogleClientId).value) == Str("")
            ==> Google.Dashboard(header, verify, users) == Abort(401)
    ensures Entra.VerifyToken(header.value, resolve, decode).Return?
            && Entra.UsernameClaim(Entra.VerifyToken(header.value, resolve, decode).value) == Str("")
            ==> Entra.Dashboard(header, resolve, decode, users) == Abort(401)
  {
  }

  /** With the deployed configurations the disagreement is real: one and the same
      set of claims, accepted by both verifiers, is answered 403 by one handler and
      401 by the other. */
  lemma DeployedVariantsDisagree(header: Option<string>)
    requires TokenPresent(header)
    ensures exists claims: Claims, verify: Google.Verifier,
                   resolve: Entra.KeyResolver, decode: Entra.Decoder ::
              && verify(header.value, Google.GoogleClientId) == Return(claims)
              && Entra.VerifyToken(header.value, resolve, decode) == Return(claims)
              && Google.Dashboard(header, verify, Google.RegisteredUsers) == Abort(403)
              && Entra.Dashboard(header, resolve, decode, Entra.RegisteredUsers) == Abort(401)
  {
    var who := Str("guest@example.org");
    var claims: Claims := map["email" := who, "preferred_username" := who];
    var verify: Google.Verifier := (t, aud) => Return(claims);
    var resolve: Entra.KeyResolver := t => Return(Entra.SigningKey([]));
    var decode: Entra.Decoder := (t, k, algs, aud) => Return(claims);
    UnregisteredStatusDiffers(header, verify, resolve, decode, Google.RegisteredUsers,
                              Entra.RegisteredUsers, claims, "guest@example.org");
  }
}
